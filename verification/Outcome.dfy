/** What a host is told: one outcome, when the run is over, that says what
    happened; and before that prompts whose text is determined. */
module Outcome {
  import opened Wrappers
  import opened Ids
  import opened Reach
  import opened Workflow
  import opened Invariant
  import opened Progress
  import opened Tracking
  import opened Runs
  import Graphs
  import Template
  import Text

  // ----- what the fields tell at any time -----

  /** Complete are exactly the stages with an output; no other has an end. */
  ghost predicate StatusTold(graph: Graph, output: map<StageId, string>, status: map<StageId, StageStatus>) {
    && status.Keys == graph.Keys
    && output.Keys <= graph.Keys
    && forall id :: id in status ==>
         if id in output then status[id] == StageStatus.Complete
         else status[id] == StageStatus.Pending || status[id] == InProgress
  }

  ghost predicate EmptyMap(maps: map<StageId, seq<StageId>>, m: StageId) {
    m in maps && maps[m] == []
  }

  ghost predicate DegradedTold(degraded: bool, maps: map<StageId, seq<StageId>>) {
    degraded <==> exists m :: EmptyMap(maps, m)
  }

  ghost predicate SinksTold(g: Graph, edges: map<StageId, seq<StageId>>, children: map<StageId, StageId>) {
    EdgesPart(g, edges) && children.Keys !! g.Keys
  }

  ghost predicate Told(g: Graph, d: Snapshot) {
    && StatusTold(d.graph, d.output, d.status)
    && DegradedTold(d.degraded, d.maps)
    && SinksTold(g, d.edges, d.children)
  }

  lemma StatusSettled(graph: Graph, output: map<StageId, string>, status: map<StageId, StageStatus>, id: StageId,
                      answer: string)
    requires StatusTold(graph, output, status) && id in graph
    ensures StatusTold(graph, output[id := answer], status[id := StageStatus.Complete])
  {
  }

  lemma SettleTold(g: Graph, d: Snapshot, id: StageId, answer: string)
    requires Told(g, d) && id in d.graph
    ensures Told(g, Settle(d, id, answer)) && Settle(d, id, answer).graph == d.graph
  {
    hide StatusTold, DegradedTold, SinksTold, Settle;
    SettleFrame(d, id, answer);
    SettleDegraded(d, id, answer);
    StatusSettled(d.graph, d.output, d.status, id, answer);
  }

  lemma SettleDegraded(d: Snapshot, id: StageId, answer: string)
    ensures Settle(d, id, answer).degraded == d.degraded
  {
    hide Release;
  }

  lemma StatusBegun(graph: Graph, output: map<StageId, string>, status: map<StageId, StageStatus>, id: StageId)
    requires StatusTold(graph, output, status) && id in graph && id !in output
    ensures StatusTold(graph, output, status[id := InProgress])
  {
  }

  lemma LaunchTold(g: Graph, d: Snapshot, id: StageId, stage: Stage, prompt: string)
    requires Told(g, d) && id in d.graph && id !in d.output
    ensures Told(g, Launch(d, id, stage, prompt))
  {
    hide StatusTold, DegradedTold, SinksTold;
    StatusBegun(d.graph, d.output, d.status, id);
  }

  // ----- expanding a map -----

  lemma StatusOfChild(graph: Graph, output: map<StageId, string>, status: map<StageId, StageStatus>, child: Stage)
    requires StatusTold(graph, output, status) && child.id !in output
    ensures StatusTold(graph[child.id := child], output, status[child.id := InProgress])
  {
  }

  lemma AddChildTold(g: Graph, d: Snapshot, parent: StageId, child: Stage)
    requires StatusTold(d.graph, d.output, d.status) && SinksTold(g, d.edges, d.children)
    requires child.id !in d.output && child.id !in g
    ensures var d' := AddChild(d, parent, child);
            && StatusTold(d'.graph, d'.output, d'.status) && SinksTold(g, d'.edges, d'.children)
            && d'.output == d.output && d'.maps == d.maps && d'.degraded == d.degraded
  {
    hide StatusTold, EdgesPart;
    StatusOfChild(d.graph, d.output, d.status, child);
  }

  lemma {:induction false} AddChildrenTold(g: Graph, d: Snapshot, parent: Stage, items: seq<string>, n: nat)
    requires n <= |items| && StatusTold(d.graph, d.output, d.status) && SinksTold(g, d.edges, d.children)
    requires forall i :: 0 <= i < |items| ==> ChildId(parent.id, i) !in d.output && ChildId(parent.id, i) !in g
    ensures var d' := AddChildren(d, parent, items, n).dag;
            && StatusTold(d'.graph, d'.output, d'.status) && SinksTold(g, d'.edges, d'.children)
            && d'.output == d.output && d'.maps == d.maps && d'.degraded == d.degraded
  {
    hide StatusTold, SinksTold, Template.Render, AddChild;
    if n > 0 {
      AddChildrenTold(g, d, parent, items, n - 1);
      var e := AddChildren(d, parent, items, n - 1);
      var rendered := Template.Render(parent.prompt, e.dag.output, Some(items[n - 1]));
      if e.failure.None? && rendered.Ok? {
        AddChildTold(g, e.dag, parent.id, ChildStage(parent, n - 1, rendered.value));
      }
    }
  }

  lemma DegradedRegistered(degraded: bool, maps: map<StageId, seq<StageId>>, id: StageId, ids: seq<StageId>)
    requires DegradedTold(degraded, maps) && id !in maps
    ensures DegradedTold(degraded || ids == [], maps[id := ids])
  {
    var after := maps[id := ids];
    forall m | EmptyMap(maps, m)
      ensures EmptyMap(after, m)
    {
    }
    assert ids == [] ==> EmptyMap(after, id);
    forall m | EmptyMap(after, m)
      ensures ids == [] || EmptyMap(maps, m)
    {
    }
  }

  lemma ExpandTold(g: Graph, d: Snapshot, parent: Stage, items: seq<string>)
    requires Told(g, d) && parent.id in d.graph && parent.id !in d.output && parent.id !in d.maps
    requires forall i :: 0 <= i < |items| ==> ChildId(parent.id, i) !in d.output && ChildId(parent.id, i) !in g
    ensures Told(g, Register(AddChildren(d.(degraded := d.degraded || items == []), parent, items, |items|).dag,
                             parent.id, |items|))
  {
    hide StatusTold, DegradedTold, SinksTold, AddChildren, ChildIds;
    var d1 := d.(degraded := d.degraded || items == []);
    AddChildrenTold(g, d1, parent, items, |items|);
    var d2 := AddChildren(d1, parent, items, |items|).dag;
    KnownStays(d1, parent, items, |items|);
    StatusBegun(d2.graph, d2.output, d2.status, parent.id);
    DegradedRegistered(d.degraded, d.maps, parent.id, ChildIds(parent.id, |items|));
  }

  lemma {:induction false} KnownStays(d: Snapshot, parent: Stage, items: seq<string>, n: nat)
    requires n <= |items|
    ensures d.graph.Keys <= AddChildren(d, parent, items, n).dag.graph.Keys
  {
    hide Template.Render;
    if n > 0 {
      KnownStays(d, parent, items, n - 1);
    }
  }

  // ----- emission -----

  /** The answer a map expands is no list. */
  ghost predicate Unreadable(g: Graph, c: Codec, d: Snapshot, m: StageId, message: string) {
    && HasItems(g, d.output, m) && g[m].kind.Map?
    && c.parse(d.output[g[m].over.value],
               if g[g[m].over.value].schema.Some? then g[g[m].over.value].schema.value else "json[]") == Err(message)
  }

  /** The map has more items than the cap leaves room for. */
  ghost predicate TooMany(g: Graph, c: Codec, d: Snapshot, m: StageId) {
    && HasItems(g, d.output, m) && g[m].kind.Map?
    && var items := c.parse(d.output[g[m].over.value],
                            if g[g[m].over.value].schema.Some? then g[g[m].over.value].schema.value else "json[]");
       items.Ok? && |d.graph| + |items.value| > d.cap
  }

  ghost predicate Genuine(g: Graph, c: Codec, d: Snapshot, reason: Reason) {
    match reason
    case ExpansionFailed(message) => exists m :: Unreadable(g, c, d, m, message)
    case CapExceeded(m) => TooMany(g, c, d, m)
    case _ => false
  }

  ghost predicate EmissionTold(g: Graph, c: Codec, e: Emission) {
    Told(g, e.dag) && (e.failure.Some? ==> Genuine(g, c, e.dag, e.failure.value))
  }

  lemma EmitMapTold(g: Graph, c: Codec, d: Snapshot, w: set<StageId>, l: set<StageId>, id: StageId)
    requires Plan(g) && Inv(g, d, w, l) && Told(g, d) && id in w && id in g && g[id].kind.Map?
    ensures EmissionTold(g, c, EmitMap(c, d, g[id]))
  {
    hide Plan, Inv, Told, AddChildren, Register, ItemsRender, TooMany, Unreadable;
    WaitingIsIdle(g, d, w, l, id);
    SourceAvailable(g, d, w, l, id);
    var source := g[id].over.value;
    SourceIsStatic(g, d, w, l, source);
    var items := c.parse(d.output[source], SourceSchema(d.graph, source));
    match items {
      case Err(message) =>
        assert Unreadable(g, c, d, id, message) by { ItemsOf(g, c, d, id); }
      case Ok(list) =>
        if |d.graph| + |list| > d.cap {
          assert TooMany(g, c, d, id) by { ItemsOf(g, c, d, id); }
        } else {
          WaitingItemsRender(g, d, w, l, id, list);
          WaitingUnused(g, d, w, l, id, |list|);
          UnusedIds(g, d, id, |list|);
          AddChildrenFrame(d.(degraded := d.degraded || list == []), g[id], list, |list|);
          ExpandTold(g, d, g[id], list);
        }
    }
  }

  lemma ItemsOf(g: Graph, c: Codec, d: Snapshot, m: StageId)
    requires HasItems(g, d.output, m) && g[m].kind.Map?
    ensures var items := c.parse(d.output[g[m].over.value], SourceSchema(g, g[m].over.value));
            && (items.Err? ==> Unreadable(g, c, d, m, items.error))
            && (items.Ok? && |d.graph| + |items.value| > d.cap ==> TooMany(g, c, d, m))
  {
  }

  lemma UnusedIds(g: Graph, d: Snapshot, m: StageId, n: nat)
    requires Unused(g, d, m, n)
    ensures forall i :: 0 <= i < n ==> ChildId(m, i) !in d.output && ChildId(m, i) !in g
  {
    forall i | 0 <= i < n
      ensures ChildId(m, i) !in d.output && ChildId(m, i) !in g
    {
      assert ChildIds(m, n)[i] == ChildId(m, i);
    }
  }

  lemma EmitOneTold(g: Graph, c: Codec, d: Snapshot, w: set<StageId>, l: set<StageId>, id: StageId)
    requires Plan(g) && Inv(g, d, w, l) && Told(g, d) && id in w && id !in d.ready
    ensures EmissionTold(g, c, EmitOne(c, d, id))
  {
    hide Plan, Inv, Told, EmitMap, Genuine, Launch, Template.Render;
    WaitingIsIdle(g, d, w, l, id);
    if g[id].kind.Map? {
      EmitMapTold(g, c, d, w, l, id);
    } else {
      EmitAgentKeepsInv(g, d, w, l, id);
      var rendered := Template.Render(g[id].prompt, d.output, None);
      LaunchTold(g, d, id, g[id], rendered.value);
    }
  }

  lemma {:induction false} EmitIdsTold(g: Graph, c: Codec, d: Snapshot, ids: seq<StageId>, n: nat)
    requires Plan(g) && n <= |ids| && Distinct(ids)
    requires Inv(g, d, Elements(ids), {}) && d.ready == [] && Told(g, d)
    ensures EmissionTold(g, c, EmitIds(c, d, ids, n))
    decreases n
  {
    hide Plan, Inv, EmitOne, Told, Genuine;
    if n > 0 {
      EmitIdsTold(g, c, d, ids, n - 1);
      EmitIdsEmitted(g, c, d, ids, n - 1);
      var e := EmitIds(c, d, ids, n - 1);
      if e.failure.None? {
        TakeNext(ids, n);
        EmitOneTold(g, c, e.dag, Elements(ids[n - 1..]), Elements(e.empty), ids[n - 1]);
      }
    }
  }

  lemma {:induction false} SettleEmptyTold(g: Graph, d: Snapshot, ids: seq<StageId>, n: nat)
    requires Told(g, d) && n <= |ids| && forall x :: x in ids ==> x in d.graph
    ensures Told(g, SettleEmpty(d, ids, n)) && SettleEmpty(d, ids, n).graph == d.graph
  {
    hide Told, Settle;
    if n > 0 {
      SettleEmptyTold(g, d, ids, n - 1);
      assert ids[n - 1] in ids;
      SettleTold(g, SettleEmpty(d, ids, n - 1), ids[n - 1], "[]");
    }
  }

  lemma LooseKnown(g: Graph, d: Snapshot, w: set<StageId>, l: set<StageId>)
    requires Inv(g, d, w, l)
    ensures l <= d.graph.Keys
  {
  }

  lemma EmitWaveTold(g: Graph, c: Codec, d: Snapshot)
    requires Plan(g) && Inv(g, d, Elements(d.ready), {}) && Told(g, d)
    ensures EmissionTold(g, c, EmitWave(c, d))
  {
    hide Plan, Inv, EmitIds, SettleEmpty, Told, Genuine;
    TakeReady(g, d);
    var d1 := d.(ready := []);
    ReadyTold(g, d);
    EmitIdsEmitted(g, c, d1, d.ready, |d.ready|);
    EmitIdsTold(g, c, d1, d.ready, |d.ready|);
    var e := EmitIds(c, d1, d.ready, |d.ready|);
    if e.failure.None? {
      LooseKnown(g, e.dag, Elements(d.ready[|d.ready|..]), Elements(e.empty));
      SettleEmptyTold(g, e.dag, e.empty, |e.empty|);
    }
  }

  lemma ReadyTold(g: Graph, d: Snapshot)
    requires Told(g, d)
    ensures Told(g, d.(ready := [])) && Told(g, d.(started := true))
  {
    hide StatusTold, DegradedTold, SinksTold;
  }

  lemma {:induction false} EmitWavesTold(g: Graph, c: Codec, d: Snapshot, spawned: seq<Stage>)
    requires Plan(g) && Inv(g, d, Elements(d.ready), {}) && Told(g, d)
    ensures EmissionTold(g, c, EmitWaves(c, d, spawned))
    decreases |d.pending|
  {
    hide Plan, Inv, EmitWave, Told, Genuine;
    if d.ready != [] {
      EmitWaveTold(g, c, d);
      WaveKeepsInv(g, c, d);
      var e := EmitWave(c, d);
      if e.failure.None? && e.dag.ready != [] {
        EmitWavesTold(g, c, e.dag, spawned + e.spawned);
      }
    }
  }

  // ----- the report -----

  /** The status of a stage in a report. */
  function EndStatus(d: Snapshot, error: Option<Reason>, id: StageId): StageStatus {
    if id in d.output then StageStatus.Complete
    else if error.Some? && error.value.StageFailed? && error.value.id == id then Failure
    else if d.state.Cancelled? then StageStatus.Cancel
    else Stopped
  }

  /** The outcome tells the state of the run: the outputs nobody needs, how
      every stage ended, and whether some map had nothing to do. */
  ghost predicate Reports(g: Graph, d: Snapshot, o: RunOutcome) {
    && o.state == d.state
    && (forall id :: id in o.outputs <==> id in g && NobodyNeeds(g, id) && id in d.output)
    && (forall id :: id in o.outputs ==> o.outputs[id] == d.output[id])
    && o.stages.Keys == d.graph.Keys
    && (forall id :: id in o.stages ==> o.stages[id] == EndStatus(d, o.error, id))
    && (o.degraded <==> exists m :: EmptyMap(d.maps, m))
  }

  /** Why the run is over: everything has its output, the host stopped it, a
      worker failed or answered wrongly twice, or a map could not be expanded. */
  ghost predicate Explains(g: Graph, c: Codec, before: Snapshot, event: Event, d: Snapshot, error: Option<Reason>) {
    match d.state
    case Done => error == None && g.Keys <= d.output.Keys && d.inFlight == {}
    case Cancelled => event.Stopping? && error == Some(WorkflowCancelled)
    case Failed =>
      error.Some? && !event.Stopping?
      && (if error.value.StageFailed? then WorkerFailed(c, before, event, error.value.id, error.value.message)
          else Genuine(g, c, d, error.value))
    case Running | Stalled => false
  }

  ghost predicate WorkerFailed(c: Codec, before: Snapshot, event: Event, id: StageId, message: string) {
    && event.Answering? && event.id == id && id in before.inFlight && id in before.graph
    && match event.answer
       case Err(said) => message == said
       case Ok(text) =>
         && id in before.retries && before.graph[id].schema.Some?
         && c.parse(text, before.graph[id].schema.value) == Err(message)
  }

  lemma SinksReported(g: Graph, d: Snapshot)
    requires SinksTold(g, d.edges, d.children)
    ensures forall id :: id in SinkOutputs(d) <==> id in g && NobodyNeeds(g, id) && id in d.output
    ensures forall id :: id in SinkOutputs(d) ==> SinkOutputs(d)[id] == d.output[id]
  {
    forall id | id in g
      ensures id in d.edges && (d.edges[id] == [] <==> NobodyNeeds(g, id)) && id !in d.children
    {
      NoDependants(g, d.edges, id);
    }
    hide EdgesPart, NobodyNeeds;
  }

  lemma ClosedReported(d: Snapshot, state: RunState, error: Option<Reason>)
    requires StatusTold(d.graph, d.output, d.status)
    requires error.Some? ==> !error.value.StageFailed?
    ensures var unfinished := if state.Cancelled? then StageStatus.Cancel else Stopped;
            var closed := Closed(d.status, unfinished);
            && closed.Keys == d.graph.Keys
            && forall id :: id in closed ==> closed[id] == EndStatus(d.(state := state), error, id)
  {
  }

  lemma FinishReports(g: Graph, d: Snapshot, state: RunState, error: Option<Reason>)
    requires Told(g, d) && (error.Some? ==> !error.value.StageFailed?)
    ensures var s := Finish(d, state, error);
            && s.advance.Finished? && Reports(g, s.dag, s.advance.outcome)
            && s.advance.outcome.error == error && s.dag.state == state
            && s.dag.output == d.output && s.dag.graph == d.graph && s.dag.cap == d.cap && s.dag.inFlight == d.inFlight
  {
    hide StatusTold, SinksTold, Closed, SinkOutputs, NobodyNeeds, EndStatus, EmptyMap;
    ClosedReported(d, state, error);
    var d' := Finish(d, state, error).dag;
    SinksReported(g, d');
    SameEnds(d.(state := state), d', error);
  }

  lemma SameEnds(d: Snapshot, d': Snapshot, error: Option<Reason>)
    requires d'.output == d.output && d'.state == d.state
    ensures forall id :: EndStatus(d', error, id) == EndStatus(d, error, id)
  {
  }

  lemma RejectedStatus(d: Snapshot, id: StageId, message: string)
    requires StatusTold(d.graph, d.output, d.status) && id in d.graph && id !in d.output
    ensures var closed := Closed(d.status[id := Failure], Stopped);
            && closed.Keys == d.graph.Keys
            && forall x :: x in closed ==>
                 closed[x] == EndStatus(d.(state := Failed), Some(StageFailed(id, message)), x)
  {
  }

  lemma RejectReports(g: Graph, d: Snapshot, id: StageId, message: string)
    requires Told(g, d) && id in d.graph && id !in d.output
    ensures var s := Finish(d.(status := d.status[id := Failure]), Failed, Some(StageFailed(id, message)));
            && s.advance.Finished? && Reports(g, s.dag, s.advance.outcome)
            && s.advance.outcome.error == Some(StageFailed(id, message)) && s.dag.state.Failed?
  {
    hide StatusTold, SinksTold, Closed, SinkOutputs, NobodyNeeds, EndStatus, EmptyMap;
    RejectedStatus(d, id, message);
    var d1 := d.(status := d.status[id := Failure]);
    var d' := Finish(d1, Failed, Some(StageFailed(id, message))).dag;
    SinksReported(g, d');
    SameEnds(d.(state := Failed), d', Some(StageFailed(id, message)));
  }

  // ----- one step -----

  /** What one step of a running workflow leaves and says. */
  ghost predicate StepTold(g: Graph, c: Codec, before: Snapshot, event: Event, s: Step) {
    if s.dag.state.Running? then Told(g, s.dag) && s.advance.Spawn?
    else
      && s.advance.Finished?
      && Reports(g, s.dag, s.advance.outcome)
      && Explains(g, c, before, event, s.dag, s.advance.outcome.error)
  }

  lemma EmitTold(g: Graph, c: Codec, before: Snapshot, event: Event, d: Snapshot)
    requires Plan(g) && Inv(g, d, Elements(d.ready), {}) && d.state.Running? && d.started && Told(g, d)
    requires !event.Stopping?
    ensures StepTold(g, c, before, event, Emit(c, d))
  {
    hide Plan, Inv, EmitWaves, AllComplete, Told, Reports, Genuine, Finish, Sound;
    EmitWavesTold(g, c, d, []);
    EmitWavesSameRun(c, d, []);
    WavesKeepInv(g, c, d, []);
    EmitGood(g, c, d);
    var e := EmitWaves(c, d, []);
    if e.failure.Some? {
      NotWorker(g, c, e.dag, e.failure.value);
      FinishReports(g, e.dag, Failed, e.failure);
      GenuineStays(g, c, e.dag, Finish(e.dag, Failed, e.failure).dag, e.failure.value);
    } else if e.dag.pending == map[] && e.dag.inFlight == {} {
      FinishReports(g, e.dag, Done, None);
      CompleteHasAll(g, Emit(c, d).dag);
    }
  }

  lemma CompleteHasAll(g: Graph, d: Snapshot)
    requires AllComplete(g, d)
    ensures g.Keys <= d.output.Keys
  {
  }

  lemma NotWorker(g: Graph, c: Codec, d: Snapshot, reason: Reason)
    requires Genuine(g, c, d, reason)
    ensures !reason.StageFailed? && !reason.Panic?
  {
  }

  lemma GenuineStays(g: Graph, c: Codec, d: Snapshot, d': Snapshot, reason: Reason)
    requires Genuine(g, c, d, reason) && d'.output == d.output && d'.graph == d.graph && d'.cap == d.cap
    ensures Genuine(g, c, d', reason)
  {
    if reason.ExpansionFailed? {
      var m :| Unreadable(g, c, d, m, reason.message);
      assert Unreadable(g, c, d', m, reason.message);
    }
  }

  lemma AwaitedTold(g: Graph, d: Snapshot, id: StageId)
    requires Told(g, d)
    ensures Told(g, d.(inFlight := d.inFlight - {id})) && Told(g, d.(retries := d.retries + {id}))
    ensures forall left :: Told(g, d.(mapRemaining := left))
  {
    hide StatusTold, DegradedTold, SinksTold;
  }

  lemma SettleParentTold(g: Graph, c: Codec, d: Snapshot, child: StageId)
    requires Told(g, d) && SettleParent(c, d, child).Ok?
    requires child in d.children ==> d.children[child] in d.graph
    ensures Told(g, SettleParent(c, d, child).value)
  {
    hide Told, Settle;
    if child in d.children {
      var parent := d.children[child];
      var left := d.mapRemaining[parent] - 1;
      AwaitedTold(g, d, child);
      if left == 0 {
        var d1 := d.(mapRemaining := d.mapRemaining - {parent});
        var outputs := seq(|d.maps[parent]|, i requires 0 <= i < |d.maps[parent]| => d.output[d.maps[parent][i]]);
        SettleTold(g, d1, parent, c.listOf(outputs));
      }
    }
  }

  lemma ParentsKnown(g: Graph, d: Snapshot)
    requires Inv(g, d, {}, {})
    ensures forall ch :: ch in d.children ==> d.children[ch] in d.graph
  {
    hide EdgesPart, CountPart, PhasePart, MapPart, StatusPart, ReadyPart;
  }

  lemma AbsorbTold(g: Graph, c: Codec, d: Snapshot, id: StageId, answer: string)
    requires Plan(g) && Inv(g, d, {}, {}) && d.ready == [] && Told(g, d) && id in d.inFlight
    ensures Absorb(c, d, id, answer).Ok? && Told(g, Absorb(c, d, id, answer).value)
  {
    hide Plan, Inv, Told, Settle, SettleParent;
    Absorbed(g, c, d, id, answer);
    InFlightKnown(g, d, id);
    ParentsKnown(g, d);
    AwaitedTold(g, d, id);
    var d1 := d.(inFlight := d.inFlight - {id});
    SettleTold(g, d1, id, answer);
    SettleFrame(d1, id, answer);
    SettleParentTold(g, c, Settle(d1, id, answer), id);
  }

  lemma AcceptTold(g: Graph, c: Codec, d: Snapshot, id: StageId, answer: string)
    requires Plan(g) && Inv(g, d, {}, {}) && d.ready == [] && Told(g, d)
    requires id in d.inFlight && d.state.Running? && d.started
    ensures StepTold(g, c, d, Answering(id, Ok(answer)), Accept(c, d.(inFlight := d.inFlight - {id}), id, answer))
  {
    hide Plan, Inv, Told, Accept, Emit, Absorb, StepTold;
    Absorbed(g, c, d, id, answer);
    AbsorbSameRun(c, d, id, answer);
    AbsorbTold(g, c, d, id, answer);
    AcceptIsEmit(c, d, id, answer);
    EmitTold(g, c, d, Answering(id, Ok(answer)), Absorb(c, d, id, answer).value);
  }

  lemma FatalTold(g: Graph, c: Codec, d: Snapshot, id: StageId, answer: Result<string, string>)
    requires Awaited(d, id) && Told(g, d) && id !in d.output && Verdict(c, d, id, answer).Fatal?
    ensures StepTold(g, c, d, Answering(id, answer), Deliver(c, d, id, answer))
  {
    hide Told, Deliver, Reports, Finish, Verdict, FatalMessage, WorkerFailed, Genuine;
    FatalRejects(c, d, id, answer);
    AwaitedTold(g, d, id);
    RejectReports(g, d.(inFlight := d.inFlight - {id}), id, FatalMessage(c, d, id, answer));
  }

  lemma AgainTold(g: Graph, c: Codec, d: Snapshot, id: StageId, answer: Result<string, string>)
    requires Awaited(d, id) && Told(g, d) && Verdict(c, d, id, answer).Again?
    ensures StepTold(g, c, d, Answering(id, answer), Deliver(c, d, id, answer))
  {
    hide Told, Deliver, Verdict, RetryStage;
    DeliverAgain(c, d, id, answer);
    AwaitedTold(g, d, id);
  }

  lemma DeliverTold(g: Graph, c: Codec, d: Snapshot, id: StageId, answer: Result<string, string>)
    requires Plan(g) && Inv(g, d, {}, {}) && d.ready == [] && Told(g, d)
    requires id in d.inFlight && d.state.Running? && d.started
    ensures StepTold(g, c, d, Answering(id, answer), Deliver(c, d, id, answer))
  {
    hide Plan, Inv, Told, Deliver, Verdict, Accept, StepTold;
    InFlightFacts(g, d, id);
    match Verdict(c, d, id, answer)
    case Fits =>
      DeliverFits(c, d, id, answer);
      AcceptTold(g, c, d, id, answer.value);
    case Again(_) => AgainTold(g, c, d, id, answer);
    case Fatal => FatalTold(g, c, d, id, answer);
  }

  lemma AcceptIsEmit(c: Codec, d: Snapshot, id: StageId, answer: string)
    requires Absorb(c, d, id, answer).Ok?
    ensures Accept(c, d.(inFlight := d.inFlight - {id}), id, answer) == Emit(c, Absorb(c, d, id, answer).value)
  {
    hide Settle, SettleParent, Emit;
  }

  function FatalMessage(c: Codec, d: Snapshot, id: StageId, answer: Result<string, string>): string
    requires id in d.graph && Verdict(c, d, id, answer).Fatal?
  {
    if answer.Err? then answer.error else SchemaError(c, d.graph[id], answer.value).value
  }

  lemma FatalRejects(c: Codec, d: Snapshot, id: StageId, answer: Result<string, string>)
    requires Awaited(d, id) && Verdict(c, d, id, answer).Fatal?
    ensures var message := FatalMessage(c, d, id, answer);
            var d1 := d.(inFlight := d.inFlight - {id});
            && Deliver(c, d, id, answer)
               == Finish(d1.(status := d1.status[id := Failure]), Failed, Some(StageFailed(id, message)))
            && WorkerFailed(c, d, Answering(id, answer), id, message)
  {
    hide Finish;
  }

  lemma StartTold(g: Graph, c: Codec, d: Snapshot)
    requires Plan(g) && Inv(g, d, Elements(d.ready), {}) && d.state.Running? && !d.started && Told(g, d)
    ensures StepTold(g, c, d, Launching, Start(c, d))
  {
    hide Plan, Inv, Told, Emit, StepTold;
    StartedIrrelevant(g, d);
    ReadyTold(g, d);
    EmitTold(g, c, d, Launching, d.(started := true));
  }

  lemma AbortTold(g: Graph, c: Codec, d: Snapshot)
    requires Told(g, d) && d.state.Running?
    ensures StepTold(g, c, d, Stopping, Abort(d))
  {
    hide Told, Reports, Finish;
    FinishReports(g, d, Cancelled, Some(WorkflowCancelled));
  }

  lemma EventTold(g: Graph, c: Codec, r: Run, event: Event)
    requires Plan(g) && RunInv(g, c, r) && (r.dag.state.Running? ==> Told(g, r.dag))
    ensures var r' := After(c, r, event);
            if r.dag.state.Running? then StepTold(g, c, r.dag, event, Step(r'.dag, r'.last))
            else r'.dag == r.dag && r'.last == Spawn([])
  {
    hide Plan, Inv, Told, StepTold, Start, Deliver, Abort, Regular, AllComplete, AtMostTwice;
    if !r.dag.state.Running? {
      IdleStep(c, r.dag, event);
    } else if Takes(r.dag, event) {
      assert Elements(r.dag.ready) == {};
      DeliverTold(g, c, r.dag, event.id, event.answer);
    } else if event.Launching? && !r.dag.started {
      StartTold(g, c, r.dag);
    } else if event.Stopping? {
      AbortTold(g, c, r.dag);
    } else {
      IdleStep(c, r.dag, event);
      IdleTold(g, c, r.dag, event);
    }
  }

  lemma IdleTold(g: Graph, c: Codec, d: Snapshot, event: Event)
    requires Told(g, d) && d.state.Running?
    ensures StepTold(g, c, d, event, Step(d, Spawn([])))
  {
    hide Told;
  }

  // ----- every run -----

  lemma BeginTold(m: Graphs.StageMap, cap: nat)
    requires Ready(m, cap)
    ensures Told(m.stage, Begin(m, cap))
  {
    hide Plan, Roots, Needing;
    BeginInv(m, cap);
    InvParts(m.stage, Begin(m, cap), Elements(Begin(m, cap).ready), {});
  }

  lemma {:induction false} RunningTold(m: Graphs.StageMap, c: Codec, cap: nat, events: seq<Event>)
    requires Ready(m, cap)
    ensures var d := Play(c, Begin(m, cap), events).dag; d.state.Running? ==> Told(m.stage, d)
    decreases |events|
  {
    hide Ready, RunInv, After, Told, Begin;
    if events == [] {
      BeginTold(m, cap);
    } else {
      var front := events[..|events| - 1];
      RunningTold(m, c, cap, front);
      EveryRun(m, c, cap, front);
      ReadyPlan(m, cap);
      EventTold(m.stage, c, Play(c, Begin(m, cap), front), events[|events| - 1]);
    }
  }

  lemma PrefixPlay(c: Codec, d: Snapshot, events: seq<Event>, n: nat)
    requires n < |events|
    ensures Play(c, d, events[..n + 1]) == After(c, Play(c, d, events[..n]), events[n])
  {
    hide After;
    assert events[..n + 1][..n] == events[..n];
  }

  /** The n-th event ended the run, and what the host was told then is right. */
  ghost predicate EndedAt(m: Graphs.StageMap, c: Codec, cap: nat, events: seq<Event>, n: nat) {
    && n < |events|
    && Play(c, Begin(m, cap), events[..n]).dag.state.Running?
    && var end := Play(c, Begin(m, cap), events[..n + 1]);
       && end.last.Finished?
       && Reports(m.stage, end.dag, end.last.outcome)
       && Explains(m.stage, c, Play(c, Begin(m, cap), events[..n]).dag, events[n], end.dag, end.last.outcome.error)
       && Play(c, Begin(m, cap), events).dag == end.dag
  }

  /** A run that is over was ended by one event. The host was handed exactly
      one outcome then, which tells how every stage ended, all outputs that no
      stage needs, whether a map had no items, and why the run ended; nothing
      has changed or was handed out since. */
  lemma {:induction false} OutcomeTells(m: Graphs.StageMap, c: Codec, cap: nat, events: seq<Event>) returns (n: nat)
    requires Ready(m, cap) && !Play(c, Begin(m, cap), events).dag.state.Running?
    ensures EndedAt(m, c, cap, events, n)
    ensures forall k :: 0 < k <= |events| && k != n + 1 ==> Play(c, Begin(m, cap), events[..k]).last.Spawn?
    decreases |events|
  {
    hide Ready, RunInv, After, Told, Reports, Explains, Play;
    var d0 := Begin(m, cap);
    BeginsRunning(m, c, cap);
    var front := events[..|events| - 1];
    EveryRun(m, c, cap, front);
    ReadyPlan(m, cap);
    RunningTold(m, c, cap, front);
    EventTold(m.stage, c, Play(c, d0, front), events[|events| - 1]);
    PrefixPlay(c, d0, events, |events| - 1);
    assert events[..|events|] == events;
    if Play(c, d0, front).dag.state.Running? {
      n := |events| - 1;
      SpawnsBefore(m, c, cap, front);
      assert forall k :: 0 <= k <= |front| ==> events[..k] == front[..k];
    } else {
      n := OutcomeTells(m, c, cap, front);
      assert forall k :: 0 <= k <= |front| ==> events[..k] == front[..k];
    }
  }

  lemma BeginsRunning(m: Graphs.StageMap, c: Codec, cap: nat)
    ensures Play(c, Begin(m, cap), []).dag.state.Running?
  {
  }

  /** While a run goes on nothing but work was handed out. */
  lemma {:induction false} SpawnsBefore(m: Graphs.StageMap, c: Codec, cap: nat, events: seq<Event>)
    requires Ready(m, cap) && Play(c, Begin(m, cap), events).dag.state.Running?
    ensures forall k :: 0 < k <= |events| ==> Play(c, Begin(m, cap), events[..k]).last.Spawn?
    decreases |events|
  {
    hide Ready, RunInv, After, Told, Reports, Explains, Play;
    if events != [] {
      var d0, front := Begin(m, cap), events[..|events| - 1];
      EveryRun(m, c, cap, front);
      ReadyPlan(m, cap);
      RunningTold(m, c, cap, front);
      EventTold(m.stage, c, Play(c, d0, front), events[|events| - 1]);
      PrefixPlay(c, d0, events, |events| - 1);
      assert events[..|events|] == events;
      SpawnsBefore(m, c, cap, front);
      assert forall k :: 0 <= k <= |front| ==> events[..k] == front[..k];
    }
  }

  // ----- what the workers are asked -----

  /** A second prompt repeats the first one and says what was wrong. */
  lemma CorrectionAsks(m: Graphs.StageMap, c: Codec, cap: nat, events: seq<Event>, id: StageId, text: string,
                       schema: string, error: string)
    requires Ready(m, cap)
    requires var d := Play(c, Begin(m, cap), events).dag;
             && d.state.Running? && id in d.inFlight && id !in d.retries && id in d.graph
             && d.graph[id].schema == Some(schema) && c.parse(text, schema) == Err(error)
    ensures var d := Play(c, Begin(m, cap), events).dag;
            var after := Play(c, Begin(m, cap), events + [Answering(id, Ok(text))]);
            && after.dag == d.(retries := d.retries + {id})
            && after.last == Spawn([d.graph[id].(prompt :=
                 Asked(m.stage, d.graph, d.output, id)
                 + ("\nYour previous answer did not match " + schema + ": " + error
                    + ". Return only the corrected JSON array."))])
  {
    hide Ready, Begin, Inv, Play, MapsTracked, AgentsTracked, BarriersTracked, AllSent, GoodStep, AtMostTwice, Asked,
         Deliver;
    EveryRun(m, c, cap, events);
    var d := Play(c, Begin(m, cap), events).dag;
    PlayLast(c, Begin(m, cap), events, Answering(id, Ok(text)));
    DeliverAgain(c, d, id, Ok(text));
  }

  /** Every item of the source of a map has a child of its own: an agent with
      the needs, the schema and the model of the map, and with the map's
      prompt filled in with the item. */
  lemma ChildrenAsked(m: Graphs.StageMap, c: Codec, cap: nat, events: seq<Event>, id: StageId, i: nat)
    requires Ready(m, cap)
    requires var d := Play(c, Begin(m, cap), events).dag; Alive(d) && id in d.maps && i < |d.maps[id]|
    ensures var d := Play(c, Begin(m, cap), events).dag;
            && id in m.stage && HasItems(m.stage, d.output, id)
            && var map_, source := m.stage[id], m.stage[id].over.value;
               var items := c.parse(d.output[source],
                                    if m.stage[source].schema.Some? then m.stage[source].schema.value else "json[]");
               && items.Ok? && |items.value| == |d.maps[id]|
               && var rendered := Template.Render(map_.prompt, d.output, Some(items.value[i]));
                  var child := id + "[" + Text.Decimal(i) + "]";
                  && rendered.Ok? && d.maps[id][i] == child && child in d.graph
                  && d.graph[child]
                     == Stage(child, rendered.value, map_.needs, Agent, None, map_.schema, map_.model)
  {
    hide Ready, Begin, Inv, Play, AgentsTracked, BarriersTracked, PromptsTracked, AllSent, AtMostTwice, Template.Render;
    EveryRun(m, c, cap, events);
    ReadyPlan(m, cap);
    var d := Play(c, Begin(m, cap), events).dag;
    assert MapTracked(m.stage, c, d.graph, d.output, id, |d.maps[id]|);
    assert ChildTracked(m.stage, d.graph, d.output, id, i, Items(m.stage, c, d.output, id).value[i]);
    AliveInv(m.stage, c, Play(c, Begin(m, cap), events), id);
  }

  lemma AliveInv(g: Graph, c: Codec, r: Run, id: StageId)
    requires Plan(g) && RunInv(g, c, r) && Alive(r.dag) && id in r.dag.maps
    ensures id in g && g[id].id == id && r.dag.maps[id] == ChildIds(id, |r.dag.maps[id]|)
  {
    hide Regular, GraphPart, EdgesPart, CountPart, PhasePart, MapPart, StatusPart, ReadyPart, AtMostTwice, AllComplete;
    PlanIds(g, id);
  }

  // ----- the order of the work -----

  /** The stage of a wave that a piece of work belongs to, and the child. */
  datatype Turn = Turn(stage: nat, child: nat)

  ghost predicate Sooner(a: Turn, b: Turn) {
    a.stage < b.stage || (a.stage == b.stage && a.child < b.child)
  }

  ghost predicate TurnOf(ids: seq<StageId>, t: Turn, id: StageId) {
    t.stage < |ids| && (id == ids[t.stage] || id == ChildId(ids[t.stage], t.child))
  }

  /** The work is in the order of the stages, children by their index. */
  ghost predicate InTurn(ids: seq<StageId>, n: nat, spawned: seq<Stage>, turns: seq<Turn>) {
    && |turns| == |spawned|
    && (forall k :: 0 <= k < |turns| ==> turns[k].stage < n && TurnOf(ids, turns[k], spawned[k].id))
    && forall k, l :: 0 <= k < l < |turns| ==> Sooner(turns[k], turns[l])
  }

  lemma {:induction false} ChildrenInTurn(d: Snapshot, parent: Stage, items: seq<string>, n: nat)
    requires n <= |items|
    ensures var spawned := AddChildren(d, parent, items, n).spawned;
            |spawned| <= n && forall k :: 0 <= k < |spawned| ==> spawned[k].id == ChildId(parent.id, k)
    ensures AddChildren(d, parent, items, n).failure.None? ==> |AddChildren(d, parent, items, n).spawned| == n
  {
    hide Template.Render, AddChild;
    if n > 0 {
      ChildrenInTurn(d, parent, items, n - 1);
    }
  }

  lemma OneInTurn(g: Graph, c: Codec, d: Snapshot, w: set<StageId>, l: set<StageId>, ids: seq<StageId>, n: nat)
    returns (turns: seq<Turn>)
    requires Plan(g) && Inv(g, d, w, l) && n < |ids| && ids[n] in w
    ensures var spawned := EmitOne(c, d, ids[n]).spawned;
            && |turns| == |spawned|
            && (forall k :: 0 <= k < |turns| ==> turns[k] == Turn(n, k) && TurnOf(ids, turns[k], spawned[k].id))
  {
    hide Plan, Inv, AddChildren, Register, Template.Render;
    WaitingIsIdle(g, d, w, l, ids[n]);
    var stage := d.graph[ids[n]];
    var spawned := EmitOne(c, d, ids[n]).spawned;
    turns := seq(|spawned|, k requires 0 <= k => Turn(n, k));
    if stage.kind.Map? && stage.over.Some? && stage.over.value in d.graph && stage.over.value in d.output {
      var items := MapItems(c, d, stage);
      if items.Ok? {
        ChildrenInTurn(d.(degraded := d.degraded || items.value == []), stage, items.value, |items.value|);
      }
    }
  }

  lemma MoreTurns(ids: seq<StageId>, n: nat, a: seq<Stage>, s: seq<Turn>, b: seq<Stage>, t: seq<Turn>)
    requires InTurn(ids, n, a, s) && |t| == |b|
    requires forall k :: 0 <= k < |t| ==> t[k] == Turn(n, k) && TurnOf(ids, t[k], b[k].id)
    ensures InTurn(ids, n + 1, a + b, s + t)
  {
    hide TurnOf;
    forall k | 0 <= k < |s + t|
      ensures (s + t)[k].stage < n + 1 && TurnOf(ids, (s + t)[k], (a + b)[k].id)
    {
      if k < |s| {
        assert (s + t)[k] == s[k] && (a + b)[k] == a[k];
      } else {
        assert (s + t)[k] == t[k - |s|] && (a + b)[k] == b[k - |s|];
      }
    }
  }

  /** A wave hands out its work in the order of the ids, which is that of the
      sorted ready set, and the children of a map by index. */
  lemma {:induction false} WaveInOrder(g: Graph, c: Codec, d: Snapshot, ids: seq<StageId>, n: nat)
    returns (turns: seq<Turn>)
    requires Plan(g) && n <= |ids| && Distinct(ids)
    requires Inv(g, d, Elements(ids), {}) && d.ready == []
    ensures InTurn(ids, n, EmitIds(c, d, ids, n).spawned, turns)
    decreases n
  {
    hide Plan, Inv, EmitOne, TurnOf, Elements, Distinct;
    turns := [];
    if n > 0 {
      turns := WaveInOrder(g, c, d, ids, n - 1);
      EmitIdsEmitted(g, c, d, ids, n - 1);
      var e := EmitIds(c, d, ids, n - 1);
      if e.failure.None? {
        TakeNext(ids, n);
        var more := OneInTurn(g, c, e.dag, Elements(ids[n - 1..]), Elements(e.empty), ids, n - 1);
        MoreTurns(ids, n - 1, e.spawned, turns, EmitOne(c, e.dag, ids[n - 1]).spawned, more);
        turns := turns + more;
      }
    }
  }
}
