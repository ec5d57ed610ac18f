/** The workflow engine as an object: each method does to the fields what the
    functions of module `Workflow` do to a snapshot. */
module Engine {
  import opened Wrappers
  import opened Ids
  import opened Reach
  import opened Workflow
  import opened Invariant
  import opened Progress
  import opened Tracking
  import Runs
  import Graphs
  import Template

  class Dag {
    var graph: Graph
    var edges: map<StageId, seq<StageId>>
    var pending: map<StageId, nat>
    var ready: seq<StageId>
    var mapRemaining: map<StageId, nat>
    var output: map<StageId, string>
    var inFlight: set<StageId>
    var status: map<StageId, StageStatus>
    var maps: map<StageId, seq<StageId>>
    var children: map<StageId, StageId>
    var retries: set<StageId>
    var prompts: map<StageId, string>
    var state: RunState
    var degraded: bool
    var cap: nat
    var started: bool
    const codec: Codec
    ghost const plan: Graph

    ghost function View(): Snapshot
      reads this
    {
      Snapshot(graph, edges, pending, ready, mapRemaining, output, inFlight, status, maps, children, retries, prompts,
               state, degraded, cap, started)
    }

    ghost predicate Valid()
      reads this
    {
      && Plan(plan)
      && Sound(plan, View())
      && (state.Done? ==> AllComplete(plan, View()) && Inv(plan, View(), {}, {}))
      && (state.Running? && !started ==> inFlight == {})
    }

    constructor (m: Graphs.StageMap, edges: map<StageId, seq<StageId>>, ready: seq<StageId>, cap: nat, codec: Codec)
      requires edges == map id | id in m.stage :: Runs.Needing(m.stage, m.ids, |m.ids|, id)
      requires ready == Runs.Roots(m.stage, m.ids, |m.ids|)
      ensures View() == Runs.Begin(m, cap) && this.codec == codec && plan == m.stage
    {
      this.graph := m.stage;
      this.edges := edges;
      this.pending := map id | id in m.stage :: |m.stage[id].needs|;
      this.ready := ready;
      this.mapRemaining := map[];
      this.output := map[];
      this.inFlight := {};
      this.status := map id | id in m.stage :: StageStatus.Pending;
      this.maps := map[];
      this.children := map[];
      this.retries := {};
      this.prompts := map[];
      this.state := Running;
      this.degraded := false;
      this.cap := cap;
      this.started := false;
      this.codec := codec;
      this.plan := m.stage;
    }

    // ----- ending a run -----

    method CloseStatuses(unfinished: StageStatus)
      modifies this`status
      ensures status == Closed(old(status), unfinished)
    {
      var todo := status.Keys;
      ghost var before := status;
      while todo != {}
        invariant todo <= before.Keys == status.Keys
        invariant forall id :: id in todo ==> status[id] == before[id]
        invariant forall id :: id in before && id !in todo ==> status[id] == Closed(before, unfinished)[id]
        decreases todo
      {
        var id :| id in todo;
        if status[id].Pending? || status[id].InProgress? {
          status := status[id := unfinished];
        }
        todo := todo - {id};
      }
    }

    /** The outputs of the stages that nobody depends on, children aside. */
    ghost predicate Unneeded(outputs: map<StageId, string>)
      reads this
    {
      && (forall id :: id in outputs <==> id in output && id in edges && edges[id] == [] && id !in children)
      && (forall id :: id in outputs ==> outputs[id] == output[id])
    }

    method Sinks() returns (outputs: map<StageId, string>)
      ensures Unneeded(outputs) && outputs == SinkOutputs(View())
    {
      outputs := map id | id in output && id in edges && edges[id] == [] && id !in children :: output[id];
    }

    method Conclude(state: RunState, error: Option<Reason>) returns (advance: Advance)
      modifies this
      ensures View() == Workflow.Finish(old(View()), state, error).dag
      ensures advance == Workflow.Finish(old(View()), state, error).advance
      ensures this.state == state && output == old(output) && edges == old(edges) && children == old(children)
      ensures advance.Finished? && advance.outcome.state == state && advance.outcome.error == error
      ensures advance.outcome.stages == status && advance.outcome.degraded == old(degraded)
      ensures Unneeded(advance.outcome.outputs)
    {
      hide Closed, Unneeded;
      this.state := state;
      CloseStatuses(if state.Cancelled? then StageStatus.Cancel else Stopped);
      var outputs := Sinks();
      advance := Finished(RunOutcome(state, outputs, status, degraded, error));
    }

    // ----- settling -----

    method Settle(id: StageId, answer: string)
      modifies this
      ensures View() == Workflow.Settle(old(View()), id, answer)
    {
      hide Release;
      Record(id, answer);
      var counters := CountDown(Counters(pending - {id}, ready), if id in edges then edges[id] else []);
      SetCounters(counters);
    }

    method Record(id: StageId, answer: string)
      modifies this`output, this`status
      ensures View()
              == old(View()).(output := old(output)[id := answer], status := old(status)[id := StageStatus.Complete])
    {
      output := output[id := answer];
      status := status[id := StageStatus.Complete];
    }

    method SetCounters(counters: Counters)
      modifies this`pending, this`ready
      ensures View() == old(View()).(pending := counters.pending, ready := counters.ready)
    {
      pending := counters.pending;
      ready := counters.ready;
    }

    /** Counts the child's map down; the last child settles it. */
    method SettleParent(child: StageId)
      requires Workflow.SettleParent(codec, View(), child).Ok?
      modifies this
      ensures View() == Workflow.SettleParent(codec, old(View()), child).value
    {
      hide Workflow.Settle;
      if child !in children {
        return;
      }
      var parent := children[child];
      var left := mapRemaining[parent] - 1;
      if left != 0 {
        mapRemaining := mapRemaining[parent := left];
        return;
      }
      mapRemaining := mapRemaining - {parent};
      ghost var d := old(View());
      assert View() == d.(mapRemaining := d.mapRemaining - {parent});
      var outputs := CollectOutputs(maps[parent], output);
      assert outputs == seq(|d.maps[parent]|, i requires 0 <= i < |d.maps[parent]| => d.output[d.maps[parent][i]]);
      Settle(parent, codec.listOf(outputs));
    }

    // ----- emission -----

    method AddChild(parent: StageId, child: Stage)
      modifies this
      ensures View() == Workflow.AddChild(old(View()), parent, child)
    {
      Link(parent, child);
      LaunchStage(child.id, child, child.prompt);
    }

    method Link(parent: StageId, child: Stage)
      modifies this`children, this`graph
      ensures View()
              == old(View()).(children := old(children)[child.id := parent], graph := old(graph)[child.id := child])
    {
      children := children[child.id := parent];
      graph := graph[child.id := child];
    }

    method AddChildren(stage: Stage, items: seq<string>) returns (spawned: seq<Stage>, failure: Option<Reason>)
      modifies this
      ensures Workflow.AddChildren(old(View()), stage, items, |items|) == Emission(View(), spawned, [], failure)
    {
      hide Template.Render, Workflow.AddChild;
      ghost var d := View();
      spawned := [];
      for k := 0 to |items|
        invariant Workflow.AddChildren(d, stage, items, k) == Emission(View(), spawned, [], None)
      {
        var rendered := Template.RenderPrompt(stage.prompt, output, Some(items[k]));
        if rendered.Err? {
          FailedStays(d, stage, items, k + 1, |items|);
          return spawned, Some(RenderFailed(rendered.error));
        }
        var child := ChildStage(stage, k, rendered.value);
        AddChild(stage.id, child);
        spawned := spawned + [child];
      }
      failure := None;
    }

    method Register(id: StageId, n: nat)
      modifies this
      ensures View() == Workflow.Register(old(View()), id, n)
    {
      maps := maps[id := ChildIds(id, n)];
      status := status[id := InProgress];
      if n != 0 {
        mapRemaining := mapRemaining[id := n];
      }
    }

    /** Expands a map into one child per item; true if there are none. */
    method ExpandMap(stage: Stage, work: seq<Stage>) returns (r: Result<bool, Reason>, work': seq<Stage>)
      requires stage.over.Some? && stage.over.value in graph && stage.over.value in output
      modifies this
      ensures Expands(EmitMap(codec, old(View()), stage), View(), stage.id, work, r, work')
    {
      hide Workflow.AddChildren, Workflow.Register;
      var source := stage.over.value;
      var parsed := codec.parse(output[source], SourceSchema(graph, source));
      if parsed.Err? {
        return Err(ExpansionFailed(parsed.error)), work;
      }
      var items := parsed.value;
      if |graph| + |items| > cap {
        return Err(CapExceeded(stage.id)), work;
      }
      degraded := degraded || items == [];
      assert View() == old(View()).(degraded := old(degraded) || items == []);
      var spawned, failure := AddChildren(stage, items);
      if failure.Some? {
        return Err(failure.value), work;
      }
      Register(stage.id, |items|);
      r, work' := Ok(items == []), work + spawned;
    }

    method LaunchStage(id: StageId, stage: Stage, prompt: string)
      modifies this
      ensures View() == Workflow.Launch(old(View()), id, stage, prompt)
    {
      if stage.schema.Some? {
        prompts := prompts[id := prompt];
      }
      inFlight := inFlight + {id};
      status := status[id := InProgress];
    }

    method EmitStage(id: StageId, work: seq<Stage>) returns (r: Result<bool, Reason>, work': seq<Stage>)
      requires id in graph
      requires var s := graph[id]; s.kind.Map? ==> s.over.Some? && s.over.value in graph && s.over.value in output
      requires graph[id].id == id
      modifies this
      ensures Expands(EmitOne(codec, old(View()), id), View(), id, work, r, work')
    {
      hide Template.Render, EmitMap, Workflow.Launch;
      var stage := graph[id];
      if stage.kind.Map? {
        r, work' := ExpandMap(stage, work);
      } else {
        var rendered := Template.RenderPrompt(stage.prompt, output, None);
        if rendered.Err? {
          return Err(RenderFailed(rendered.error)), work;
        }
        LaunchStage(id, stage, rendered.value);
        r, work' := Ok(false), work + [stage.(prompt := rendered.value)];
      }
    }

    /** Emits a wave; the maps without children are returned. */
    method EmitIds(ids: seq<StageId>, work: seq<Stage>)
      returns (r: Result<seq<StageId>, Reason>, work': seq<Stage>)
      requires Plan(plan) && Inv(plan, View(), Elements(ids), {}) && ready == [] && Distinct(ids)
      modifies this
      ensures var e := Workflow.EmitIds(codec, old(View()), ids, |ids|);
              && View() == e.dag
              && (if r.Ok? then e.failure.None? && e.empty == r.value && work' == work + e.spawned
                  else e.failure == Some(r.error))
    {
      hide Plan, Inv, EmitOne, Workflow.EmitIds, Distinct, Elements;
      ghost var d := View();
      var empty: seq<StageId> := [];
      work' := work;
      NoneEmitted(codec, d, ids, work);
      for k := 0 to |ids|
        invariant var e := Workflow.EmitIds(codec, d, ids, k);
                  e.failure.None? && e.dag == View() && e.empty == empty && work' == work + e.spawned
      {
        ghost var e := Workflow.EmitIds(codec, d, ids, k);
        EmitIdsEmitted(plan, codec, d, ids, k);
        TakeNext(ids, k + 1);
        CanEmit(plan, View(), Elements(ids[k..]), Elements(empty), ids[k]);
        OneEmitted(codec, d, ids, k);
        var one;
        one, work' := EmitStage(ids[k], work');
        AppendWork(work, e.spawned, EmitOne(codec, e.dag, ids[k]).spawned);
        if one.Err? {
          EmitIdsFailed(codec, d, ids, k + 1, |ids|);
          return Err(one.error), work';
        }
        empty := if one.value then empty + [ids[k]] else empty + [];
      }
      r := Ok(empty);
    }

    method SettleEmpty(ids: seq<StageId>)
      modifies this
      ensures View() == Workflow.SettleEmpty(old(View()), ids, |ids|)
    {
      hide Workflow.Settle;
      for k := 0 to |ids|
        invariant View() == Workflow.SettleEmpty(old(View()), ids, k)
      {
        Settle(ids[k], "[]");
      }
    }

    /** Drains the ready set once and settles the maps without children. */
    method EmitWave(work: seq<Stage>) returns (failure: Option<Reason>, work': seq<Stage>)
      requires Plan(plan) && Inv(plan, View(), Elements(ready), {})
      modifies this
      ensures var e := Workflow.EmitWave(codec, old(View()));
              View() == e.dag && failure == e.failure && (failure.None? ==> work' == work + e.spawned)
    {
      hide Plan, Inv, Workflow.EmitIds, Workflow.SettleEmpty;
      ghost var before := View();
      TakeReady(plan, before);
      var ids := ready;
      ready := [];
      assert View() == before.(ready := []);
      var emitted;
      emitted, work' := EmitIds(ids, work);
      if emitted.Err? {
        return Some(emitted.error), work';
      }
      SettleEmpty(emitted.value);
      failure := None;
    }

    /** Emits wave after wave until nothing is ready. */
    method Emit() returns (advance: Advance)
      requires Plan(plan) && Inv(plan, View(), Elements(ready), {})
      modifies this
      ensures View() == Workflow.Emit(codec, old(View())).dag
      ensures advance == Workflow.Emit(codec, old(View())).advance
    {
      hide Plan, Inv, Workflow.EmitWave, Workflow.Finish, Unneeded;
      ghost var d := View();
      var work: seq<Stage> := [];
      while ready != []
        invariant Inv(plan, View(), Elements(ready), {})
        invariant EmitWaves(codec, View(), work) == EmitWaves(codec, d, [])
        decreases ready != [], |pending|
      {
        ghost var before, sent := View(), work;
        WaveKeepsInv(plan, codec, before);
        var failure;
        failure, work := EmitWave(work);
        if failure.Some? {
          assert EmitWaves(codec, before, sent).failure == failure;
          NoPanic(plan, codec, before, sent);
          advance := Conclude(Failed, failure);
          return;
        }
        OneWave(codec, before, sent, View(), work);
      }
      if pending == map[] && inFlight == {} {
        advance := Conclude(Done, None);
      } else if work == [] && inFlight == {} {
        state := Stalled;
        advance := Unsatisfied(pending.Keys);
      } else {
        advance := Spawn(work);
      }
    }

    // ----- the three operations -----

    /** Begins the run, once. */
    method Start() returns (advance: Advance)
      requires Valid()
      modifies this
      ensures Valid()
      ensures Step(View(), advance) == Workflow.Start(codec, old(View()))
    {
      hide Plan, Inv, Workflow.Emit, AllComplete, GoodStep;
      if started || !state.Running? {
        return Spawn([]);
      }
      ghost var d := View();
      StartGood(plan, codec, d);
      Runs.StartStarts(plan, codec, d);
      StartedIrrelevant(plan, d);
      started := true;
      assert View() == d.(started := true);
      advance := Emit();
      StillValid(this, advance);
    }

    /** Takes the answer of a stage in flight; anything else is ignored. */
    method Complete(id: StageId, answer: Result<string, string>) returns (advance: Advance)
      requires Valid()
      modifies this
      ensures Valid()
      ensures Step(View(), advance) == Deliver(codec, old(View()), id, answer)
    {
      hide Plan, Inv, Workflow.Emit, Workflow.Settle, Workflow.SettleParent, AllComplete, Workflow.Finish, Sound,
           GoodStep, SchemaError, Valid, RetryNote;
      if !state.Running? || id !in inFlight {
        return Spawn([]);
      }
      ghost var d := View();
      Deliverable(this, id);
      DeliverGood(plan, codec, d, id, answer);
      Runs.DeliverStarted(plan, codec, d, id, answer);
      inFlight := inFlight - {id};
      if answer.Err? {
        advance := Reject(id, answer.error);
        StillValid(this, advance);
        return;
      }
      var mismatch := SchemaError(codec, graph[id], answer.value);
      if mismatch.Some? {
        if id !in retries {
          MismatchHasSchema(codec, graph[id], answer.value);
          advance := Retry(id, mismatch.value);
          assert d.inFlight - {id} + {id} == d.inFlight;
        } else {
          advance := Reject(id, mismatch.value);
        }
        StillValid(this, advance);
        return;
      }
      Absorbed(plan, codec, d, id, answer.value);
      Settle(id, answer.value);
      SettleParent(id);
      advance := Emit();
      StillValid(this, advance);
    }

    method Reject(id: StageId, message: string) returns (advance: Advance)
      modifies this
      ensures var d := old(View());
              Step(View(), advance)
              == Workflow.Finish(d.(status := d.status[id := Failure]), Failed, Some(StageFailed(id, message)))
    {
      hide Workflow.Finish;
      status := status[id := Failure];
      advance := Conclude(Failed, Some(StageFailed(id, message)));
    }

    method Retry(id: StageId, error: string) returns (advance: Advance)
      requires id in graph && graph[id].schema.Some?
      modifies this
      ensures var d := old(View());
              && View() == d.(retries := d.retries + {id}, inFlight := d.inFlight + {id})
              && advance == Spawn([RetryStage(d, id, error)])
    {
      retries := retries + {id};
      var retry := graph[id];
      var prompt := if id in prompts then prompts[id] else retry.prompt;
      retry := retry.(prompt := prompt + RetryNote(retry.schema.value, error));
      inFlight := inFlight + {id};
      advance := Spawn([retry]);
    }

    /** Stops a run that is not over. */
    method Cancel() returns (advance: Advance)
      requires Valid()
      modifies this
      ensures Valid()
      ensures Step(View(), advance) == Abort(old(View()))
    {
      hide Plan, Inv, Workflow.Finish, AllComplete, Sound, GoodStep;
      if !state.Running? {
        return Spawn([]);
      }
      AbortGood(plan, View());
      Runs.FinishFields(View(), Cancelled, Some(WorkflowCancelled));
      advance := Conclude(Cancelled, Some(WorkflowCancelled));
      StillValid(this, advance);
    }
  }

  lemma Deliverable(dag: Dag, id: StageId)
    requires dag.Valid() && dag.state.Running? && id in dag.inFlight
    ensures Plan(dag.plan) && Sound(dag.plan, dag.View()) && Inv(dag.plan, dag.View(), {}, {})
    ensures dag.ready == [] && dag.started && id in dag.graph
  {
    hide Plan, Inv;
    assert Elements([]) == {};
    InFlightKnown(dag.plan, dag.View(), id);
  }

  lemma MismatchHasSchema(c: Codec, stage: Stage, answer: string)
    requires SchemaError(c, stage, answer).Some?
    ensures stage.schema.Some?
  {
  }

  lemma StillValid(dag: Dag, advance: Advance)
    requires Plan(dag.plan) && GoodStep(dag.plan, Step(dag.View(), advance))
    requires dag.state.Running? ==> dag.started
    ensures dag.Valid()
  {
    hide Plan, Inv, Sound, AllComplete;
  }

  /** A method's account of an emission. */
  ghost predicate Expands(e: Emission, after: Snapshot, id: StageId, work: seq<Stage>, r: Result<bool, Reason>,
                          work': seq<Stage>) {
    && e.dag == after
    && if r.Ok? then e.failure.None? && e.empty == (if r.value then [id] else []) && work' == work + e.spawned
       else e.failure == Some(r.error)
  }

  lemma {:induction false} FailedStays(d: Snapshot, parent: Stage, items: seq<string>, k: nat, n: nat)
    requires k <= n <= |items| && Workflow.AddChildren(d, parent, items, k).failure.Some?
    ensures Workflow.AddChildren(d, parent, items, n) == Workflow.AddChildren(d, parent, items, k)
    decreases n
  {
    if k < n {
      FailedStays(d, parent, items, k, n - 1);
    }
  }

  lemma {:induction false} EmitIdsFailed(c: Codec, d: Snapshot, ids: seq<StageId>, k: nat, n: nat)
    requires k <= n <= |ids| && Workflow.EmitIds(c, d, ids, k).failure.Some?
    ensures Workflow.EmitIds(c, d, ids, n) == Workflow.EmitIds(c, d, ids, k)
    decreases n
  {
    hide EmitOne;
    if k < n {
      EmitIdsFailed(c, d, ids, k, n - 1);
    }
  }

  lemma NoneEmitted(c: Codec, d: Snapshot, ids: seq<StageId>, work: seq<Stage>)
    ensures Workflow.EmitIds(c, d, ids, 0) == Emission(d, [], [], None) && work + [] == work
  {
  }

  lemma OneEmitted(c: Codec, d: Snapshot, ids: seq<StageId>, k: nat)
    requires k < |ids| && Workflow.EmitIds(c, d, ids, k).failure.None?
    ensures var e := Workflow.EmitIds(c, d, ids, k);
            var one := EmitOne(c, e.dag, ids[k]);
            Workflow.EmitIds(c, d, ids, k + 1)
            == Emission(one.dag, e.spawned + one.spawned, e.empty + one.empty, one.failure)
  {
    hide EmitOne;
  }

  lemma AppendWork(a: seq<Stage>, b: seq<Stage>, c: seq<Stage>)
    ensures a + b + c == a + (b + c)
  {
  }

  /** A waiting stage can be looked up, and so can the source of a map. */
  lemma CanEmit(g: Graph, d: Snapshot, w: set<StageId>, l: set<StageId>, id: StageId)
    requires Plan(g) && Inv(g, d, w, l) && id in w
    ensures id in d.graph && d.graph[id].id == id
    ensures var s := d.graph[id]; s.kind.Map? ==> s.over.Some? && s.over.value in d.graph && s.over.value in d.output
  {
    hide Plan, Inv;
    WaitingIsIdle(g, d, w, l, id);
    if g[id].kind.Map? {
      SourceAvailable(g, d, w, l, id);
    }
  }

  lemma NoPanic(g: Graph, c: Codec, d: Snapshot, spawned: seq<Stage>)
    requires Plan(g) && Inv(g, d, Elements(d.ready), {})
    ensures EmitWaves(c, d, spawned).failure != Some(Panic)
  {
    hide Plan, Inv, EmitWaves;
    WavesKeepInv(g, c, d, spawned);
  }

  lemma OneWave(c: Codec, d: Snapshot, spawned: seq<Stage>, d': Snapshot, more: seq<Stage>)
    requires d.ready != [] && Workflow.EmitWave(c, d).failure.None? && Workflow.EmitWave(c, d).dag == d'
    requires more == spawned + EmitWave(c, d).spawned && (d'.ready == [] || |d'.pending| < |d.pending|)
    ensures EmitWaves(c, d, spawned) == EmitWaves(c, d', more)
  {
    hide EmitWave;
  }

  method CountDown(counters: Counters, dependants: seq<StageId>) returns (c: Counters)
    ensures c == Release(counters, dependants, |dependants|)
  {
    c := counters;
    for k := 0 to |dependants|
      invariant c == Release(counters, dependants, k)
    {
      var next := dependants[k];
      if next in c.pending {
        var left := if c.pending[next] > 0 then c.pending[next] - 1 else 0;
        c := Counters(c.pending[next := left], if left == 0 then Insert(c.ready, next) else c.ready);
      }
    }
  }

  method CollectOutputs(ids: seq<StageId>, output: map<StageId, string>) returns (outputs: seq<string>)
    requires forall i :: 0 <= i < |ids| ==> ids[i] in output
    ensures outputs == seq(|ids|, i requires 0 <= i < |ids| => output[ids[i]])
  {
    outputs := [];
    for k := 0 to |ids|
      invariant |outputs| == k && forall i :: 0 <= i < k ==> outputs[i] == output[ids[i]]
    {
      outputs := outputs + [output[ids[k]]];
    }
  }

  /** Who waits for whom: every stage is pushed onto the list of each of
      its needs. */
  method ListDependants(m: Graphs.StageMap) returns (edges: map<StageId, seq<StageId>>)
    requires Graphs.Keyed(m) && forall id, x :: id in m.stage && x in m.stage[id].needs ==> x in m.stage
    requires forall id :: id in m.stage ==> Ordered(m.stage[id].needs)
    ensures edges == map id | id in m.stage :: Runs.Needing(m.stage, m.ids, |m.ids|, id)
  {
    edges := map id | id in m.stage :: [];
    for k := 0 to |m.ids|
      invariant edges == map id | id in m.stage :: Runs.Needing(m.stage, m.ids, k, id)
    {
      edges := PushNeeds(m, k, edges);
    }
  }

  method PushNeeds(m: Graphs.StageMap, k: nat, edges: map<StageId, seq<StageId>>)
    returns (edges': map<StageId, seq<StageId>>)
    requires k < |m.ids| && m.ids[k] in m.stage && Ordered(m.stage[m.ids[k]].needs)
    requires forall x :: x in m.stage[m.ids[k]].needs ==> x in m.stage
    requires edges == map id | id in m.stage :: Runs.Needing(m.stage, m.ids, k, id)
    ensures edges' == map id | id in m.stage :: Runs.Needing(m.stage, m.ids, k + 1, id)
  {
    var needs := m.stage[m.ids[k]].needs;
    OrderedDistinct(needs);
    edges' := edges;
    for j := 0 to |needs|
      invariant edges'.Keys == m.stage.Keys
      invariant forall id :: id in m.stage ==>
                  edges'[id] == if id in needs[..j] then edges[id] + [m.ids[k]] else edges[id]
    {
      edges' := edges'[needs[j] := edges'[needs[j]] + [m.ids[k]]];
    }
    assert needs[..|needs|] == needs;
  }

  method ListRoots(m: Graphs.StageMap) returns (ready: seq<StageId>)
    requires Graphs.Keyed(m)
    ensures ready == Runs.Roots(m.stage, m.ids, |m.ids|)
  {
    ready := [];
    for k := 0 to |m.ids|
      invariant ready == Runs.Roots(m.stage, m.ids, k)
    {
      if m.stage[m.ids[k]].needs == [] {
        ready := ready + [m.ids[k]];
      }
    }
  }

  lemma ReadyNeeds(m: Graphs.StageMap, cap: nat)
    requires Runs.Ready(m, cap)
    ensures forall id, x :: id in m.stage && x in m.stage[id].needs ==> x in m.stage
    ensures forall id :: id in m.stage ==> Ordered(m.stage[id].needs)
  {
  }

  lemma BeginsValid(m: Graphs.StageMap, cap: nat, dag: Dag)
    requires Runs.Ready(m, cap) && dag.plan == m.stage && dag.View() == Runs.Begin(m, cap)
    ensures dag.Valid()
  {
    hide Inv, Runs.Needing, Runs.Roots;
    Runs.BeginInv(m, cap);
  }

  /** Validates the stages and sets up a run. */
  method FromStages(stages: seq<Stage>, cap: nat, codec: Codec) returns (r: Result<Dag, Graphs.GraphError>)
    ensures r.Ok? <==> Graphs.Acceptable(stages, cap)
    ensures r.Ok? ==>
              && fresh(r.value)
              && r.value.Valid()
              && r.value.plan == Graphs.Stored(stages)
              && exists m :: Graphs.Keyed(m) && Ordered(m.ids) && m.stage == Graphs.Stored(stages)
                             && r.value.View() == Runs.Begin(m, cap)
  {
    hide Graphs.Acceptable, Inv, Plan, Runs.Begin, Runs.Ready;
    var checked := Graphs.Validate(stages, cap);
    if checked.Err? {
      return Err(checked.error);
    }
    var m := checked.value;
    Runs.AcceptedIsReady(stages, m, cap);
    ReadyNeeds(m, cap);
    var edges := ListDependants(m);
    var ready := ListRoots(m);
    var dag := new Dag(m, edges, ready, cap, codec);
    BeginsValid(m, cap, dag);
    r := Ok(dag);
  }
}
