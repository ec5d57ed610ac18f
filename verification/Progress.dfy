/** Every operation keeps the scheduler sound, and a started run that is not
    over always has work in flight. */
module Progress {
  import opened Wrappers
  import opened Ids
  import opened Reach
  import opened Workflow
  import opened Invariant
  import Template

  // ----- fields that emission leaves alone -----

  ghost predicate SameRun(d: Snapshot, d': Snapshot) {
    && d'.state == d.state
    && d'.started == d.started
    && d'.cap == d.cap
    && d'.edges == d.edges
    && d'.retries == d.retries
  }

  lemma {:induction false} AddChildrenSameRun(d: Snapshot, parent: Stage, items: seq<string>, n: nat)
    requires n <= |items|
    ensures SameRun(d, AddChildren(d, parent, items, n).dag)
  {
    if n > 0 {
      AddChildrenSameRun(d, parent, items, n - 1);
    }
  }

  lemma EmitMapSameRun(c: Codec, d: Snapshot, stage: Stage)
    ensures SameRun(d, EmitMap(c, d, stage).dag)
  {
    hide AddChildren, SameRun, Register;
    SameRunReflexive(d);
    if stage.over.Some? && stage.over.value in d.graph && stage.over.value in d.output {
      var items := MapItems(c, d, stage);
      if items.Ok? {
        var d1 := d.(degraded := d.degraded || items.value == []);
        DegradedSameRun(d, d1.degraded);
        AddChildrenSameRun(d1, stage, items.value, |items.value|);
        var e := AddChildren(d1, stage, items.value, |items.value|);
        SameRunTransitive(d, d1, e.dag);
        RegisterSameRun(e.dag, stage.id, |items.value|);
        SameRunTransitive(d, e.dag, Register(e.dag, stage.id, |items.value|));
      }
    }
  }

  lemma DegradedSameRun(d: Snapshot, degraded: bool)
    ensures SameRun(d, d.(degraded := degraded))
  {
  }

  lemma RegisterSameRun(d: Snapshot, id: StageId, n: nat)
    ensures SameRun(d, Register(d, id, n))
  {
  }

  lemma EmitAgentSameRun(d: Snapshot, id: StageId, stage: Stage)
    ensures SameRun(d, EmitAgent(d, id, stage).dag)
  {
    hide Launch, SameRun, Template.Render;
    SameRunReflexive(d);
    var rendered := Template.Render(stage.prompt, d.output, None);
    if rendered.Ok? {
      LaunchSameRun(d, id, stage, rendered.value);
    }
  }

  lemma LaunchSameRun(d: Snapshot, id: StageId, stage: Stage, prompt: string)
    ensures SameRun(d, Launch(d, id, stage, prompt))
  {
  }

  lemma EmitOneSameRun(c: Codec, d: Snapshot, id: StageId)
    ensures SameRun(d, EmitOne(c, d, id).dag)
  {
    hide EmitMap, EmitAgent, SameRun;
    if id in d.graph {
      EmitMapSameRun(c, d, d.graph[id]);
      EmitAgentSameRun(d, id, d.graph[id]);
    } else {
      SameRunReflexive(d);
    }
  }

  lemma SameRunReflexive(d: Snapshot)
    ensures SameRun(d, d)
  {
  }

  lemma {:induction false} EmitIdsSameRun(c: Codec, d: Snapshot, ids: seq<StageId>, n: nat)
    requires n <= |ids|
    ensures SameRun(d, EmitIds(c, d, ids, n).dag)
  {
    hide EmitOne;
    if n > 0 {
      EmitIdsSameRun(c, d, ids, n - 1);
      EmitOneSameRun(c, EmitIds(c, d, ids, n - 1).dag, ids[n - 1]);
    }
  }

  lemma {:induction false} SettleEmptySameRun(d: Snapshot, ids: seq<StageId>, n: nat)
    requires n <= |ids|
    ensures SameRun(d, SettleEmpty(d, ids, n))
  {
    if n > 0 {
      SettleEmptySameRun(d, ids, n - 1);
    }
  }

  lemma EmitWaveSameRun(c: Codec, d: Snapshot)
    ensures SameRun(d, EmitWave(c, d).dag)
  {
    hide EmitIds, SettleEmpty;
    var e := EmitIds(c, d.(ready := []), d.ready, |d.ready|);
    EmitIdsSameRun(c, d.(ready := []), d.ready, |d.ready|);
    SettleEmptySameRun(e.dag, e.empty, |e.empty|);
  }

  lemma {:induction false} EmitWavesSameRun(c: Codec, d: Snapshot, spawned: seq<Stage>)
    ensures SameRun(d, EmitWaves(c, d, spawned).dag)
    decreases |d.pending|
  {
    hide EmitWave;
    if d.ready != [] {
      EmitWaveSameRun(c, d);
      var e := EmitWave(c, d);
      if e.failure.None? && e.dag.ready != [] && |e.dag.pending| < |d.pending| {
        EmitWavesSameRun(c, e.dag, spawned + e.spawned);
      }
    }
  }

  // ----- no stall -----

  /** The transitive needs of a stage. */
  ghost function Above(g: Graph, id: StageId): set<StageId> {
    set x | x in g && Reaches(g, id, x)
  }

  lemma AboveShrinks(g: Graph, id: StageId, x: StageId)
    requires Plan(g) && id in g && x in g[id].needs
    ensures x in Above(g, id) && Above(g, x) < Above(g, id)
  {
    ReachEdge(g, id, x);
    forall y | y in Above(g, x)
      ensures y in Above(g, id)
    {
      ReachTransitive(g, id, x, y);
    }
    assert x in Above(g, id) && x !in Above(g, x);
  }

  /** The work belongs to the stage: it is the stage itself or one of the
      children of its map. */
  ghost predicate WorkFor(children: map<StageId, StageId>, id: StageId, x: StageId) {
    x == id || (x in children && children[x] == id)
  }

  lemma NoUnmetHasWork(g: Graph, d: Snapshot, id: StageId) returns (x: StageId)
    requires PhasePart(g, d.pending, d.inFlight, d.mapRemaining.Keys, {}, {})
    requires MapPart(g, d.maps, d.mapRemaining, d.output, {})
    requires ChildPart(g, d.children, d.maps, d.output, d.inFlight)
    requires id in d.pending && d.pending[id] == 0
    ensures x in d.inFlight && WorkFor(d.children, id, x)
  {
    hide PhasePart, MapPart, ChildPart;
    ReadyIsSomewhere(g, d.pending, d.inFlight, d.mapRemaining.Keys, id);
    if id in d.mapRemaining {
      x := OpenChild(g, d.maps, d.mapRemaining, d.output, id);
      OpenInFlight(g, d.children, d.maps, d.output, d.inFlight, id, x);
    } else {
      x := id;
    }
  }

  lemma ReadyIsSomewhere(g: Graph, pending: map<StageId, nat>, inFlight: set<StageId>, expanded: set<StageId>,
                         id: StageId)
    requires PhasePart(g, pending, inFlight, expanded, {}, {}) && id in pending && pending[id] == 0
    ensures id in inFlight || id in expanded
  {
  }

  lemma OpenChild(g: Graph, maps: map<StageId, seq<StageId>>, mapRemaining: map<StageId, nat>,
                  output: map<StageId, string>,
                  id: StageId) returns (ch: StageId)
    requires MapPart(g, maps, mapRemaining, output, {}) && id in mapRemaining
    ensures id in maps && ch in maps[id] && ch !in output
  {
    assert Open(maps[id], output) != {};
    ch :| ch in Open(maps[id], output);
  }

  lemma OpenInFlight(g: Graph, children: map<StageId, StageId>, maps: map<StageId, seq<StageId>>,
                     output: map<StageId, string>, inFlight: set<StageId>, id: StageId, ch: StageId)
    requires ChildPart(g, children, maps, output, inFlight) && id in maps && ch in maps[id] && ch !in output
    ensures ch in inFlight && ch in children && children[ch] == id
  {
  }

  lemma UnmetIsPending(g: Graph, output: map<StageId, string>, pending: map<StageId, nat>, id: StageId)
    returns (x: StageId)
    requires Plan(g) && CountPart(g, output, pending) && id in pending && pending[id] > 0
    ensures x in g[id].needs && x in pending
  {
    assert Unmet(g, output, id) != {};
    x :| x in Unmet(g, output, id);
  }

  /** Work in flight that an unsettled stage waits for: for the stage itself
      or for one of its transitive needs. */
  lemma {:induction false} UnsettledHasWork(g: Graph, d: Snapshot, id: StageId) returns (a: StageId, x: StageId)
    requires Plan(g) && Inv(g, d, {}, {}) && id in d.pending
    ensures a == id || a in Above(g, id)
    ensures x in d.inFlight && WorkFor(d.children, a, x)
    decreases if id in g then Above(g, id) else {}
  {
    hide Plan, Inv, PhasePart, MapPart, ChildPart, GraphPart, EdgesPart, StatusPart, ReadyPart, CountPart, WorkFor;
    InvParts(g, d, {}, {});
    PendingIsStatic(g, d.output, d.pending, id);
    if d.pending[id] > 0 {
      var need := UnmetIsPending(g, d.output, d.pending, id);
      AboveShrinks(g, id, need);
      a, x := UnsettledHasWork(g, d, need);
    } else {
      a := id;
      x := NoUnmetHasWork(g, d, id);
    }
  }

  lemma PendingIsStatic(g: Graph, output: map<StageId, string>, pending: map<StageId, nat>, id: StageId)
    requires CountPart(g, output, pending) && id in pending
    ensures id in g
  {
  }

  lemma NothingLeftToDo(g: Graph, d: Snapshot)
    requires Plan(g) && Inv(g, d, {}, {}) && d.inFlight == {}
    ensures d.pending == map[]
  {
    hide Plan, Inv;
    if d.pending.Keys != {} {
      var id :| id in d.pending.Keys;
      var a, x := UnsettledHasWork(g, d, id);
    }
  }

  // ----- what each step guarantees -----

  /** Holds between operations. */
  ghost predicate Sound(g: Graph, d: Snapshot) {
    && !d.state.Stalled?
    && (d.state.Running? ==> Inv(g, d, Elements(d.ready), {}))
    && (d.state.Running? && d.started ==> d.ready == [] && d.inFlight != {})
  }

  /** Every stage, static or expanded, has its result and says so. */
  ghost predicate AllComplete(g: Graph, d: Snapshot) {
    && d.output.Keys == d.graph.Keys
    && g.Keys <= d.output.Keys
    && (forall id :: id in d.status <==> id in d.graph)
    && (forall id :: id in d.status ==> d.status[id] == StageStatus.Complete)
  }

  lemma AllHaveOutputs(g: Graph, graph: Graph, children: map<StageId, StageId>, maps: map<StageId, seq<StageId>>,
                       output: map<StageId, string>, pending: map<StageId, nat>)
    requires GraphPart(g, graph, children) && CountPart(g, output, pending) && pending == map[]
    requires ChildPart(g, children, maps, output, {})
    ensures output.Keys == graph.Keys && g.Keys <= output.Keys
  {
    forall id | id in graph
      ensures id in output
    {
      assert id in g || id in children;
    }
  }

  lemma NothingPendingIsComplete(g: Graph, d: Snapshot)
    requires Plan(g) && Inv(g, d, {}, {}) && d.inFlight == {} && d.pending == map[]
    ensures AllComplete(g, d)
  {
    hide Plan, Inv, PhasePart, MapPart, ChildPart, GraphPart, EdgesPart, ReadyPart, CountPart;
    InvParts(g, d, {}, {});
    AllHaveOutputs(g, d.graph, d.children, d.maps, d.output, d.pending);
  }

  ghost predicate GoodStep(g: Graph, s: Step) {
    && Sound(g, s.dag)
    && !s.advance.Panicked?
    && !s.advance.Unsatisfied?
    && (s.dag.state.Done? ==> AllComplete(g, s.dag) && Inv(g, s.dag, {}, {}))
  }

  lemma ClosedComplete(status: map<StageId, StageStatus>, unfinished: StageStatus)
    requires forall id :: id in status ==> status[id] == StageStatus.Complete
    ensures Closed(status, unfinished) == status
  {
  }

  lemma FinishDone(g: Graph, d: Snapshot)
    requires AllComplete(g, d)
    ensures Finish(d, Done, None).dag == d.(state := Done)
    ensures AllComplete(g, Finish(d, Done, None).dag)
  {
    ClosedComplete(d.status, Stopped);
  }

  lemma StateIrrelevant(g: Graph, d: Snapshot)
    requires Inv(g, d, {}, {})
    ensures Inv(g, d.(state := Done), {}, {})
  {
  }

  lemma EmitGood(g: Graph, c: Codec, d: Snapshot)
    requires Plan(g) && Inv(g, d, Elements(d.ready), {}) && d.state.Running? && d.started
    ensures GoodStep(g, Emit(c, d))
    ensures Emit(c, d).dag.started
    ensures Emit(c, d).dag.state.Failed? || Emit(c, d).dag.state.Running? || Emit(c, d).dag.state.Done?
  {
    hide Plan, Inv, EmitWaves, AllComplete;
    WavesKeepInv(g, c, d, []);
    EmitWavesSameRun(c, d, []);
    var e := EmitWaves(c, d, []);
    assert Elements([]) == {};
    if e.failure.None? {
      if e.dag.inFlight == {} {
        NothingLeftToDo(g, e.dag);
        NothingPendingIsComplete(g, e.dag);
        FinishDone(g, e.dag);
        StateIrrelevant(g, e.dag);
      }
    }
  }

  lemma StartGood(g: Graph, c: Codec, d: Snapshot)
    requires Plan(g) && Sound(g, d) && !d.state.Done?
    ensures GoodStep(g, Start(c, d))
  {
    hide Plan, Inv, Emit, AllComplete;
    if !d.started && d.state.Running? {
      StartedIrrelevant(g, d);
      EmitGood(g, c, d.(started := true));
    }
  }

  lemma StartedIrrelevant(g: Graph, d: Snapshot)
    requires Inv(g, d, Elements(d.ready), {})
    ensures Inv(g, d.(started := true), Elements(d.ready), {})
  {
  }

  lemma FinishGood(g: Graph, d: Snapshot, state: RunState, error: Option<Reason>)
    requires state.Failed? || state.Cancelled?
    ensures GoodStep(g, Finish(d, state, error))
  {
    hide Closed, SinkOutputs, Inv, AllComplete;
  }

  lemma AbortGood(g: Graph, d: Snapshot)
    requires Sound(g, d) && !d.state.Done?
    ensures GoodStep(g, Abort(d))
  {
    hide Sound, Finish, AllComplete, GoodStep;
    if d.state.Running? {
      FinishGood(g, d, Cancelled, Some(WorkflowCancelled));
    } else {
      SameStateGood(g, d, []);
    }
  }

  /** An operation that changes nothing is fine unless the run is done. */
  lemma SameStateGood(g: Graph, d: Snapshot, spawned: seq<Stage>)
    requires Sound(g, d) && !d.state.Done?
    ensures GoodStep(g, Step(d, Spawn(spawned)))
  {
    hide Inv, AllComplete;
  }

  // ----- deliveries -----

  lemma AgentDetached(g: Graph, d: Snapshot, id: StageId)
    requires Plan(g) && Inv(g, d, {}, {}) && id in d.inFlight && id in g
    ensures Inv(g, d.(inFlight := d.inFlight - {id}), {}, {id})
  {
    hide Plan, GraphPart, EdgesPart, CountPart, ReadyPart;
    InvParts(g, d, {}, {});
    InFlightAgent(g, d, id);
    DetachPhase(g, d.pending, d.inFlight, d.mapRemaining.Keys, id);
    DetachChildren(g, d.children, d.maps, d.output, d.inFlight, id);
    DetachMaps(g, d.maps, d.mapRemaining, d.output, id);
    DetachStatus(d.status, d.graph, d.output, d.inFlight, d.maps, id);
  }

  lemma InFlightAgent(g: Graph, d: Snapshot, id: StageId)
    requires Inv(g, d, {}, {}) && id in d.inFlight && id in g
    ensures id !in d.children && id !in d.maps && g[id].kind.Agent? && id in d.pending && id in d.graph
    ensures d.graph[id] == g[id]
  {
  }

  lemma DetachPhase(g: Graph, pending: map<StageId, nat>, inFlight: set<StageId>, expanded: set<StageId>, id: StageId)
    requires PhasePart(g, pending, inFlight, expanded, {}, {}) && id in inFlight && id in g
    ensures PhasePart(g, pending, inFlight - {id}, expanded, {}, {id})
  {
  }

  lemma DetachChildren(g: Graph, children: map<StageId, StageId>, maps: map<StageId, seq<StageId>>,
                       output: map<StageId, string>, inFlight: set<StageId>, id: StageId)
    requires ChildPart(g, children, maps, output, inFlight) && id !in children
    ensures ChildPart(g, children, maps, output, inFlight - {id})
  {
  }

  lemma DetachMaps(g: Graph, maps: map<StageId, seq<StageId>>, mapRemaining: map<StageId, nat>,
                   output: map<StageId, string>, id: StageId)
    requires MapPart(g, maps, mapRemaining, output, {}) && id in g && g[id].kind.Agent?
    ensures MapPart(g, maps, mapRemaining, output, {id})
  {
  }

  lemma DetachStatus(status: map<StageId, StageStatus>, graph: Graph, output: map<StageId, string>,
                     inFlight: set<StageId>, maps: map<StageId, seq<StageId>>, id: StageId)
    requires StatusPart(status, graph, output, inFlight, maps, {})
    ensures StatusPart(status, graph, output, inFlight - {id}, maps, {id})
  {
  }

  /** Taking a delivered answer in, before new work goes out. */
  ghost function Absorb(c: Codec, d: Snapshot, id: StageId, answer: string): Result<Snapshot, Reason> {
    SettleParent(c, Settle(d.(inFlight := d.inFlight - {id}), id, answer), id)
  }

  lemma AgentAbsorbed(g: Graph, c: Codec, d: Snapshot, id: StageId, answer: string)
    requires Plan(g) && Inv(g, d, {}, {}) && d.ready == [] && id in d.inFlight && id in g
    ensures Absorb(c, d, id, answer) == Ok(Settle(d.(inFlight := d.inFlight - {id}), id, answer))
    ensures var d' := Absorb(c, d, id, answer).value; Inv(g, d', Elements(d'.ready), {})
  {
    hide Plan, Inv;
    InFlightAgent(g, d, id);
    AgentDetached(g, d, id);
    var d1 := d.(inFlight := d.inFlight - {id});
    assert Elements(d1.ready) == {};
    ReadyAfterSettle(g, d1, {}, {id}, id, answer);
    assert {id} - {id} == {};
  }

  lemma ChildIsNotStatic(g: Graph, d: Snapshot, w: set<StageId>, l: set<StageId>, ch: StageId)
    requires Inv(g, d, w, l) && ch in d.children
    ensures ch !in d.edges && ch !in d.pending && ch in d.graph
  {
  }

  /** A child has no dependants of its own. */
  lemma SettleChild(d: Snapshot, ch: StageId, answer: string)
    requires ch !in d.edges && ch !in d.pending
    ensures Settle(d, ch, answer)
            == d.(output := d.output[ch := answer], status := d.status[ch := StageStatus.Complete])
  {
    assert d.pending - {ch} == d.pending;
    assert Release(Counters(d.pending, d.ready), [], 0) == Counters(d.pending, d.ready);
  }

  ghost function ChildOutputs(maps: map<StageId, seq<StageId>>, output: map<StageId, string>, m: StageId): seq<string>
    requires m in maps && forall i :: 0 <= i < |maps[m]| ==> maps[m][i] in output
  {
    seq(|maps[m]|, i requires 0 <= i < |maps[m]| => output[maps[m][i]])
  }

  /** Not the last child: the parent waits on. */
  lemma ParentWaits(c: Codec, d: Snapshot, ch: StageId)
    requires ch in d.children && d.children[ch] in d.mapRemaining && d.mapRemaining[d.children[ch]] > 1
    ensures SettleParent(c, d, ch) == Ok(d.(mapRemaining := Countdown(d.mapRemaining, d.children[ch])))
  {
    hide Settle;
  }

  /** The last child: the parent's output is the list of its children's. */
  lemma ParentSettles(c: Codec, d: Snapshot, ch: StageId)
    requires ch in d.children && d.children[ch] in d.mapRemaining && d.mapRemaining[d.children[ch]] == 1
    requires var m := d.children[ch];
             m in d.maps && forall i :: 0 <= i < |d.maps[m]| ==> d.maps[m][i] in d.output
    ensures var m := d.children[ch];
            SettleParent(c, d, ch)
            == Ok(Settle(d.(mapRemaining := Countdown(d.mapRemaining, m)), m,
                         c.listOf(ChildOutputs(d.maps, d.output, m))))
  {
    hide Settle;
    var m := d.children[ch];
    assert ChildOutputs(d.maps, d.output, m)
        == seq(|d.maps[m]|, i requires 0 <= i < |d.maps[m]| => d.output[d.maps[m][i]]);
  }

  lemma AllChildrenDelivered(g: Graph, maps: map<StageId, seq<StageId>>, before: map<StageId, nat>, m: StageId,
                             output: map<StageId, string>, l: set<StageId>)
    requires m in before && before[m] == 1 && m in maps
    requires MapPart(g, maps, Countdown(before, m), output, l)
    ensures forall i :: 0 <= i < |maps[m]| ==> maps[m][i] in output
  {
    assert Open(maps[m], output) == {};
    forall i | 0 <= i < |maps[m]|
      ensures maps[m][i] in output
    {
      assert maps[m][i] !in Open(maps[m], output);
    }
  }

  lemma ChildTaken(g: Graph, c: Codec, d: Snapshot, ch: StageId, answer: string) returns (d1: Snapshot)
    requires Plan(g) && Inv(g, d, {}, {}) && ch in d.inFlight && ch in d.children
    ensures d.children[ch] in d.mapRemaining && d.mapRemaining[d.children[ch]] > 0 && d.children[ch] in d.maps
    ensures d1 == Settle(d.(inFlight := d.inFlight - {ch}), ch, answer)
    ensures d1.(mapRemaining := Countdown(d.mapRemaining, d.children[ch])) == ChildDone(d, ch, answer)
    ensures d1.children == d.children && d1.mapRemaining == d.mapRemaining && d1.maps == d.maps
    ensures d1.output == d.output[ch := answer]
  {
    hide Plan, Inv, Settle;
    OpenChildWaits(g, d, {}, ch);
    ChildIsNotStatic(g, d, {}, {}, ch);
    d1 := Settle(d.(inFlight := d.inFlight - {ch}), ch, answer);
    SettleChild(d.(inFlight := d.inFlight - {ch}), ch, answer);
  }

  lemma LastChildOutputs(g: Graph, d: Snapshot, ch: StageId, answer: string)
    requires Plan(g) && Inv(g, d, {}, {}) && ch in d.inFlight && ch in d.children
    requires d.children[ch] in d.mapRemaining && d.mapRemaining[d.children[ch]] == 1 && d.children[ch] in d.maps
    ensures var m := d.children[ch];
            forall i :: 0 <= i < |d.maps[m]| ==> d.maps[m][i] in d.output[ch := answer]
  {
    hide Plan, Inv, MapPart;
    var m := d.children[ch];
    ChildDoneKeepsInv(g, d, {}, ch, answer);
    var d1 := ChildDone(d, ch, answer);
    InvParts(g, d1, {}, {m});
    AllChildrenDelivered(g, d1.maps, d.mapRemaining, m, d1.output, {m});
  }

  /** The state a child's answer leads to. */
  ghost function ChildAbsorption(c: Codec, d: Snapshot, ch: StageId, answer: string): Snapshot
    requires ch in d.children && d.children[ch] in d.mapRemaining && d.mapRemaining[d.children[ch]] > 0
    requires d.children[ch] in d.maps
  {
    var m := d.children[ch];
    var d1 := ChildDone(d, ch, answer);
    if d.mapRemaining[m] != 1 then d1
    else if forall i :: 0 <= i < |d1.maps[m]| ==> d1.maps[m][i] in d1.output then
      Settle(d1, m, c.listOf(ChildOutputs(d1.maps, d1.output, m)))
    else d1
  }

  lemma ChildAbsorbed(g: Graph, c: Codec, d: Snapshot, ch: StageId, answer: string)
    requires Plan(g) && Inv(g, d, {}, {}) && ch in d.inFlight && ch in d.children
    ensures d.children[ch] in d.mapRemaining && d.mapRemaining[d.children[ch]] > 0 && d.children[ch] in d.maps
    ensures Absorb(c, d, ch, answer) == Ok(ChildAbsorption(c, d, ch, answer))
  {
    hide Plan, Inv, Settle, SettleParent;
    var d1 := ChildTaken(g, c, d, ch, answer);
    var m := d.children[ch];
    if d.mapRemaining[m] == 1 {
      LastChildOutputs(g, d, ch, answer);
      ParentSettles(c, d1, ch);
    } else {
      ParentWaits(c, d1, ch);
    }
  }

  lemma ChildAbsorbedInv(g: Graph, c: Codec, d: Snapshot, ch: StageId, answer: string)
    requires Plan(g) && Inv(g, d, {}, {}) && d.ready == [] && ch in d.inFlight && ch in d.children
    requires d.children[ch] in d.mapRemaining && d.mapRemaining[d.children[ch]] > 0 && d.children[ch] in d.maps
    ensures var d' := ChildAbsorption(c, d, ch, answer); Inv(g, d', Elements(d'.ready), {})
  {
    hide Plan, Inv, Settle;
    var m := d.children[ch];
    ChildDoneKeepsInv(g, d, {}, ch, answer);
    var d1 := ChildDone(d, ch, answer);
    assert Elements(d1.ready) == {};
    if d.mapRemaining[m] == 1 {
      LastChildOutputs(g, d, ch, answer);
      ReadyAfterSettle(g, d1, {}, {m}, m, c.listOf(ChildOutputs(d1.maps, d1.output, m)));
      assert {m} - {m} == {};
    }
  }

  // ----- the delivery step as a whole -----

  lemma InFlightKnown(g: Graph, d: Snapshot, id: StageId)
    requires Inv(g, d, {}, {}) && id in d.inFlight
    ensures id in d.graph && (id in g || id in d.children) && !(id in g && id in d.children)
  {
  }

  lemma Absorbed(g: Graph, c: Codec, d: Snapshot, id: StageId, answer: string)
    requires Plan(g) && Inv(g, d, {}, {}) && d.ready == [] && id in d.inFlight
    ensures Absorb(c, d, id, answer).Ok?
    ensures var d' := Absorb(c, d, id, answer).value; Inv(g, d', Elements(d'.ready), {})
  {
    hide Plan, Inv, Settle, SettleParent, Absorb, ChildAbsorption;
    InFlightKnown(g, d, id);
    if id in g {
      AgentAbsorbed(g, c, d, id, answer);
    } else {
      ChildAbsorbed(g, c, d, id, answer);
      ChildAbsorbedInv(g, c, d, id, answer);
    }
  }

  lemma SettleSameRun(d: Snapshot, id: StageId, answer: string)
    ensures SameRun(d, Settle(d, id, answer))
    ensures Settle(d, id, answer).children == d.children
  {
    hide Release;
  }

  lemma CountdownSameRun(d: Snapshot, left: map<StageId, nat>)
    ensures SameRun(d, d.(mapRemaining := left))
  {
  }

  lemma SameRunTransitive(a: Snapshot, b: Snapshot, c: Snapshot)
    requires SameRun(a, b) && SameRun(b, c)
    ensures SameRun(a, c)
  {
  }

  lemma SettleParentSameRun(c: Codec, d: Snapshot, child: StageId)
    requires SettleParent(c, d, child).Ok?
    ensures SameRun(d, SettleParent(c, d, child).value)
  {
    hide Settle, SameRun;
    SameRunReflexive(d);
    if child in d.children {
      var m := d.children[child];
      var left := d.mapRemaining[m] - 1;
      if left != 0 {
        CountdownSameRun(d, d.mapRemaining[m := left]);
      } else {
        var d1 := d.(mapRemaining := d.mapRemaining - {m});
        var outputs := seq(|d.maps[m]|, i requires 0 <= i < |d.maps[m]| => d.output[d.maps[m][i]]);
        CountdownSameRun(d, d.mapRemaining - {m});
        SettleSameRun(d1, m, c.listOf(outputs));
        SameRunTransitive(d, d1, Settle(d1, m, c.listOf(outputs)));
      }
    }
  }

  lemma AbsorbSameRun(c: Codec, d: Snapshot, id: StageId, answer: string)
    requires Absorb(c, d, id, answer).Ok?
    ensures SameRun(d, Absorb(c, d, id, answer).value)
  {
    hide Settle, SettleParent;
    var d1 := d.(inFlight := d.inFlight - {id});
    SettleSameRun(d1, id, answer);
    SettleParentSameRun(c, Settle(d1, id, answer), id);
  }

  lemma AcceptGood(g: Graph, c: Codec, d: Snapshot, id: StageId, answer: string)
    requires Plan(g) && Inv(g, d, {}, {}) && d.ready == [] && id in d.inFlight
    requires d.state.Running? && d.started
    ensures GoodStep(g, Accept(c, d.(inFlight := d.inFlight - {id}), id, answer))
  {
    hide Plan, Inv, Settle, SettleParent, Emit, GoodStep;
    Absorbed(g, c, d, id, answer);
    AbsorbSameRun(c, d, id, answer);
    EmitGood(g, c, Absorb(c, d, id, answer).value);
  }

  /** Retrying only marks the stage. */
  lemma RetryGood(g: Graph, d: Snapshot, id: StageId, spawned: seq<Stage>)
    requires Sound(g, d) && d.state.Running? && d.started
    ensures GoodStep(g, Step(d.(retries := d.retries + {id}), Spawn(spawned)))
  {
    hide AllComplete;
  }

  lemma DeliverGood(g: Graph, c: Codec, d: Snapshot, id: StageId, answer: Result<string, string>)
    requires Plan(g) && Sound(g, d) && !d.state.Done? && (d.started || id !in d.inFlight || !d.state.Running?)
    ensures GoodStep(g, Deliver(c, d, id, answer))
  {
    hide Plan, Inv, Accept, Finish, AllComplete, GoodStep, RetryStage;
    if !d.state.Running? || id !in d.inFlight {
      SameStateGood(g, d, []);
    } else {
      assert Elements(d.ready) == {};
      InFlightKnown(g, d, id);
      var taken := d.(inFlight := d.inFlight - {id});
      match answer
      case Err(e) =>
        FinishGood(g, taken.(status := taken.status[id := Failure]), Failed, Some(StageFailed(id, e)));
      case Ok(text) =>
        match SchemaError(c, d.graph[id], text)
        case None => AcceptGood(g, c, d, id, text);
        case Some(error) =>
          if id !in d.retries {
            RetryGood(g, d, id, [RetryStage(d, id, error)]);
          } else {
            FinishGood(g, taken.(status := taken.status[id := Failure]), Failed, Some(StageFailed(id, error)));
          }
    }
  }

  // ----- the outcome of a run -----

  /** Ending a run leaves no stage pending or in progress, and changes the
      status of no other. */
  lemma ClosedStatuses(status: map<StageId, StageStatus>, unfinished: StageStatus)
    requires !unfinished.Pending? && !unfinished.InProgress?
    ensures var closed := Closed(status, unfinished);
            && closed.Keys == status.Keys
            && (forall id :: id in closed ==> !closed[id].Pending? && !closed[id].InProgress?)
            && (forall id :: id in status && !status[id].Pending? && !status[id].InProgress? ==>
                  closed[id] == status[id])
  {
  }

  ghost predicate NobodyNeeds(g: Graph, id: StageId) {
    forall b :: b in g ==> id !in g[b].needs
  }

  /** The outcome of a finished run has the outputs of exactly the planned
      stages that no stage needs. */
  lemma OutcomeOfDone(g: Graph, d: Snapshot, id: StageId)
    requires Inv(g, d, {}, {}) && AllComplete(g, d)
    ensures Finish(d, Done, None).advance.Finished?
    ensures var o := Finish(d, Done, None).advance.outcome;
            && o.state.Done? && o.error == None && o.stages == d.status
            && (id in o.outputs <==> id in g && NobodyNeeds(g, id))
            && (id in o.outputs ==> o.outputs[id] == d.output[id])
  {
    hide Inv, AllComplete, NobodyNeeds, Closed;
    DoneSinks(g, d, id);
    DoneStatus(g, d);
    assert SinkOutputs(Finish(d, Done, None).dag) == SinkOutputs(d);
  }

  lemma DoneStatus(g: Graph, d: Snapshot)
    requires AllComplete(g, d)
    ensures Closed(d.status, Stopped) == d.status
  {
    ClosedComplete(d.status, Stopped);
  }

  lemma DoneSinks(g: Graph, d: Snapshot, id: StageId)
    requires Inv(g, d, {}, {}) && AllComplete(g, d)
    ensures id in SinkOutputs(d) <==> id in g && NobodyNeeds(g, id)
    ensures id in SinkOutputs(d) ==> SinkOutputs(d)[id] == d.output[id]
  {
    hide CountPart, PhasePart, ChildPart, MapPart, StatusPart, ReadyPart;
    if id in g {
      assert id in d.edges && id !in d.children && id in d.output;
      NoDependants(g, d.edges, id);
    }
  }

  lemma NoDependants(g: Graph, edges: map<StageId, seq<StageId>>, id: StageId)
    requires EdgesPart(g, edges) && id in edges
    ensures edges[id] == [] <==> NobodyNeeds(g, id)
  {
    if edges[id] != [] {
      var b := edges[id][0];
      assert b in edges[id];
      assert b in g && id in g[b].needs;
    }
  }
}
