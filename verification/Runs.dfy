/** Whole runs: a host delivers answers in any order, late, twice or never. */
module Runs {
  import opened Wrappers
  import opened Ids
  import opened Reach
  import opened Workflow
  import opened Invariant
  import opened Progress
  import opened Tracking
  import Graphs

  // ----- the state a run begins in -----

  /** Those of the first `n` stages that need `dep`, in order. */
  function Needing(g: Graph, ids: seq<StageId>, n: nat, dep: StageId): seq<StageId>
    requires n <= |ids|
  {
    if n == 0 then []
    else
      var before := Needing(g, ids, n - 1, dep);
      if Edge(g, ids[n - 1], dep) then before + [ids[n - 1]] else before
  }

  /** Those of the first `n` stages that need nothing, in order. */
  function Roots(g: Graph, ids: seq<StageId>, n: nat): seq<StageId>
    requires n <= |ids|
  {
    if n == 0 then []
    else
      var before := Roots(g, ids, n - 1);
      if ids[n - 1] in g && g[ids[n - 1]].needs == [] then before + [ids[n - 1]] else before
  }

  function Begin(m: Graphs.StageMap, cap: nat): Snapshot {
    var g := m.stage;
    Snapshot(
      graph := g,
      edges := map id | id in g :: Needing(g, m.ids, |m.ids|, id),
      pending := map id | id in g :: |g[id].needs|,
      ready := Roots(g, m.ids, |m.ids|),
      mapRemaining := map[],
      output := map[],
      inFlight := {},
      status := map id | id in g :: StageStatus.Pending,
      maps := map[],
      children := map[],
      retries := {},
      prompts := map[],
      state := Running,
      degraded := false,
      cap := cap,
      started := false)
  }

  lemma {:induction false} NeedingMeaning(g: Graph, ids: seq<StageId>, n: nat, dep: StageId)
    requires n <= |ids| && Ordered(ids)
    ensures Ordered(Needing(g, ids, n, dep))
    ensures forall x :: x in Needing(g, ids, n, dep) <==> x in ids[..n] && Edge(g, x, dep)
  {
    if n > 0 {
      NeedingMeaning(g, ids, n - 1, dep);
      var before := Needing(g, ids, n - 1, dep);
      assert ids[..n] == ids[..n - 1] + [ids[n - 1]];
      forall i | 0 <= i < |before|
        ensures Less(before[i], ids[n - 1])
      {
        assert before[i] in before;
      }
    }
  }

  lemma {:induction false} RootsMeaning(g: Graph, ids: seq<StageId>, n: nat)
    requires n <= |ids| && Ordered(ids)
    ensures Ordered(Roots(g, ids, n))
    ensures forall x :: x in Roots(g, ids, n) <==> x in ids[..n] && x in g && g[x].needs == []
  {
    if n > 0 {
      RootsMeaning(g, ids, n - 1);
      var before := Roots(g, ids, n - 1);
      assert ids[..n] == ids[..n - 1] + [ids[n - 1]];
      forall i | 0 <= i < |before|
        ensures Less(before[i], ids[n - 1])
      {
        assert before[i] in before;
      }
    }
  }

  lemma BeginEdges(m: Graphs.StageMap)
    requires Graphs.Keyed(m) && Ordered(m.ids)
    ensures EdgesPart(m.stage, Begin(m, 0).edges)
  {
    var edges := Begin(m, 0).edges;
    forall a | a in edges
      ensures Distinct(edges[a])
      ensures forall b :: b in edges[a] <==> b in m.stage && a in m.stage[b].needs
    {
      NeedingMeaning(m.stage, m.ids, |m.ids|, a);
      OrderedDistinct(edges[a]);
      assert m.ids[..|m.ids|] == m.ids;
    }
  }

  lemma BeginCounts(g: Graph, pending: map<StageId, nat>)
    requires pending.Keys == g.Keys && forall id :: id in g ==> pending[id] == |g[id].needs| && Ordered(g[id].needs)
    ensures CountPart(g, map[], pending)
  {
    forall id | id in g
      ensures pending[id] == |Unmet(g, map[], id)|
    {
      OrderedDistinct(g[id].needs);
      DistinctCount(g[id].needs);
      assert Unmet(g, map[], id) == Elements(g[id].needs);
    }
  }

  lemma BeginReady(m: Graphs.StageMap)
    requires Graphs.Keyed(m) && Ordered(m.ids)
    ensures ReadyPart(Begin(m, 0).ready, Elements(Begin(m, 0).ready))
    ensures forall x :: x in Begin(m, 0).ready <==> x in m.stage && m.stage[x].needs == []
  {
    RootsMeaning(m.stage, m.ids, |m.ids|);
    assert m.ids[..|m.ids|] == m.ids;
  }

  lemma BeginPhase(g: Graph, pending: map<StageId, nat>, ready: seq<StageId>)
    requires pending.Keys == g.Keys && forall id :: id in g ==> pending[id] == |g[id].needs|
    requires forall x :: x in ready <==> x in g && g[x].needs == []
    ensures PhasePart(g, pending, {}, {}, Elements(ready), {})
  {
  }

  lemma BeginGraph(g: Graph)
    ensures GraphPart(g, g, map[])
    ensures ChildPart(g, map[], map[], map[], {})
    ensures MapPart(g, map[], map[], map[], {})
    ensures StatusPart(map id | id in g :: StageStatus.Pending, g, map[], {}, map[], {})
  {
  }

  lemma BeginInv(m: Graphs.StageMap, cap: nat)
    requires Graphs.Keyed(m) && Ordered(m.ids) && |m.stage| <= cap
    requires forall id :: id in m.stage ==> Ordered(m.stage[id].needs)
    ensures var d := Begin(m, cap); Inv(m.stage, d, Elements(d.ready), {})
  {
    hide GraphPart, EdgesPart, CountPart, PhasePart, ChildPart, MapPart, StatusPart, ReadyPart;
    BeginGraph(m.stage);
    BeginEdges(m);
    BeginCounts(m.stage, Begin(m, cap).pending);
    BeginReady(m);
    BeginPhase(m.stage, Begin(m, cap).pending, Begin(m, cap).ready);
    var expanded: map<StageId, nat> := map[];
    assert expanded.Keys == {};
  }

  lemma BeginTracks(m: Graphs.StageMap, c: Codec, cap: nat)
    ensures Tracks(m.stage, c, Begin(m, cap))
  {
    hide Needing, Roots;
  }

  // ----- one step -----

  ghost predicate Alive(d: Snapshot) {
    d.state.Running? || d.state.Done?
  }

  function Spawns(a: Advance): seq<Stage> {
    if a.Spawn? then a.stages else []
  }

  /** The step went from `d` to `s` by emission. */
  ghost predicate StepWorks(g: Graph, c: Codec, d: Snapshot, s: Step) {
    && Works(g, c, d, Emission(s.dag, Spawns(s.advance), [], None))
    && s.dag.retries == d.retries
  }

  lemma NothingLeftOver(g: Graph, d: Snapshot, d': Snapshot, spawned: seq<Stage>)
    requires Spawned(g, d, d', spawned) && d'.inFlight == {}
    ensures spawned == []
  {
    assert spawned != [] ==> SpawnedRight(g, d, d', spawned[0]);
  }

  lemma WorksSpawned(g: Graph, c: Codec, d: Snapshot, e: Emission)
    requires Works(g, c, d, e)
    ensures Spawned(g, d, e.dag, e.spawned)
  {
    hide Spawned;
  }

  lemma WorksState(g: Graph, c: Codec, d: Snapshot, d': Snapshot, spawned: seq<Stage>, state: RunState)
    requires Works(g, c, d, Emission(d', spawned, [], None))
    ensures Works(g, c, d, Emission(d'.(state := state), spawned, [], None))
  {
    hide AgentsTracked, MapsTracked, PromptsTracked, BarriersTracked, SpawnedRight, IsSpawned;
    SpawnedState(g, d, d', spawned, state);
  }

  lemma SpawnedState(g: Graph, d: Snapshot, d': Snapshot, spawned: seq<Stage>, state: RunState)
    requires Spawned(g, d, d', spawned)
    ensures Spawned(g, d, d'.(state := state), spawned)
  {
    hide Asked;
    assert forall i :: 0 <= i < |spawned| && SpawnedRight(g, d, d', spawned[i]) ==>
      SpawnedRight(g, d, d'.(state := state), spawned[i]);
  }

  lemma EmitWorks(g: Graph, c: Codec, d: Snapshot)
    requires Plan(g) && Inv(g, d, Elements(d.ready), {}) && Tracks(g, c, d) && d.state.Running?
    ensures var s := Emit(c, d); Alive(s.dag) ==> StepWorks(g, c, d, s)
  {
    hide Plan, Inv, Tracks, Works, EmitWaves, Spawned, AllComplete;
    WavesKeepInv(g, c, d, []);
    EmitWavesSameRun(c, d, []);
    var more := EmitWavesWorks(g, c, d, []);
    var e := EmitWaves(c, d, []);
    if e.failure.None? {
      assert [] + more == more;
      if e.dag.inFlight == {} {
        NothingLeftToDo(g, e.dag);
        NothingPendingIsComplete(g, e.dag);
        FinishDone(g, e.dag);
        WorksState(g, c, d, e.dag, more, Done);
        WorksSpawned(g, c, d, Emission(e.dag, more, [], None));
        NothingLeftOver(g, d, e.dag, more);
      }
    }
  }

  // ----- taking an answer in -----

  /** What taking in the answer of `id` changes. */
  ghost predicate Absorption(g: Graph, c: Codec, d: Snapshot, d': Snapshot, id: StageId, answer: string) {
    && Tracks(g, c, d')
    && d'.graph == d.graph
    && d'.maps == d.maps
    && d'.retries == d.retries
    && d'.inFlight == d.inFlight - {id}
    && Extends(d.output, d'.output)
    && id in d'.output
    && d'.output[id] == answer
    && OnlyBarriers(g, d.output[id := answer], d'.output)
  }

  lemma AgentNotMap(g: Graph, d: Snapshot, id: StageId)
    requires Inv(g, d, {}, {}) && id in d.inFlight && id in g
    ensures g[id].kind.Agent? && id !in d.maps && id !in d.output && id in d.graph
  {
  }

  lemma AbsorbAgentWorks(g: Graph, c: Codec, d: Snapshot, id: StageId, answer: string)
    requires Plan(g) && Inv(g, d, {}, {}) && d.ready == [] && Tracks(g, c, d) && id in d.inFlight && id in g
    ensures Absorption(g, c, d, Absorb(c, d, id, answer).value, id, answer)
  {
    hide Plan, Inv, Tracks, Settle, SettleParent, Flying;
    AgentNotMap(g, d, id);
    AgentAbsorbed(g, c, d, id, answer);
    SettleFrame(d.(inFlight := d.inFlight - {id}), id, answer);
    InFlightFlies(g, d, {}, {});
    OutputTracks(g, c, d, Absorb(c, d, id, answer).value, id, answer);
  }

  lemma ChildNotMap(g: Graph, d: Snapshot, ch: StageId)
    requires Inv(g, d, {}, {}) && ch in d.inFlight && ch in d.children
    ensures ch !in g && ch !in d.maps && ch !in d.output
  {
  }

  lemma ChildDoneTracks(g: Graph, c: Codec, d: Snapshot, ch: StageId, answer: string)
    requires Inv(g, d, {}, {}) && Tracks(g, c, d) && ch in d.inFlight && ch in d.children
    requires d.children[ch] in d.mapRemaining && d.mapRemaining[d.children[ch]] > 0
    ensures Absorption(g, c, d, ChildDone(d, ch, answer), ch, answer)
  {
    hide Inv, Tracks, Countdown, Flying;
    ChildNotMap(g, d, ch);
    InFlightFlies(g, d, {}, {});
    OutputTracks(g, c, d, ChildDone(d, ch, answer), ch, answer);
  }

  lemma WaitingMap(g: Graph, d: Snapshot, ch: StageId)
    requires Inv(g, d, {}, {}) && ch in d.children && d.children[ch] in d.mapRemaining && d.children[ch] in d.maps
    ensures var m := d.children[ch];
            m in g && g[m].kind.Map? && m !in d.output && m !in d.maps[m] && m != ch && d.maps[m] != []
  {
    hide Inv, GraphPart, EdgesPart, CountPart, PhasePart, ChildPart, MapPart, StatusPart, ReadyPart;
    InvParts(g, d, {}, {});
    WaitingMapOpen(g, d.output, d.pending, d.inFlight, d.mapRemaining, d.children[ch]);
    WaitingMapChildren(g, d.graph, d.children, d.maps, d.output, d.inFlight, ch);
  }

  lemma WaitingMapOpen(g: Graph, output: map<StageId, string>, pending: map<StageId, nat>, inFlight: set<StageId>,
                       mapRemaining: map<StageId, nat>, m: StageId)
    requires CountPart(g, output, pending) && PhasePart(g, pending, inFlight, mapRemaining.Keys, {}, {})
    requires m in mapRemaining
    ensures m in g && g[m].kind.Map? && m !in output
  {
  }

  lemma WaitingMapChildren(g: Graph, graph: Graph, children: map<StageId, StageId>, maps: map<StageId, seq<StageId>>,
                           output: map<StageId, string>, inFlight: set<StageId>, ch: StageId)
    requires GraphPart(g, graph, children) && ChildPart(g, children, maps, output, inFlight)
    requires ch in children && children[ch] in maps
    ensures var m := children[ch]; m !in maps[m] && m != ch && maps[m] != []
  {
  }

  lemma BarrierOf(c: Codec, ids: seq<StageId>, output: map<StageId, string>, m: StageId)
    requires AllIn(ids, output) && m !in ids && ids != []
    ensures var text := c.listOf(Gather(ids, output));
            AllIn(ids, output[m := text]) && text == Barrier(c, ids, output[m := text])
  {
    var text := c.listOf(Gather(ids, output));
    assert Gather(ids, output[m := text]) == Gather(ids, output);
  }

  lemma LastChildWorks(g: Graph, c: Codec, d: Snapshot, ch: StageId, answer: string)
    requires Plan(g) && Inv(g, d, {}, {}) && Tracks(g, c, d) && ch in d.inFlight && ch in d.children
    requires d.children[ch] in d.mapRemaining && d.mapRemaining[d.children[ch]] == 1 && d.children[ch] in d.maps
    ensures Absorption(g, c, d, ChildAbsorption(c, d, ch, answer), ch, answer)
  {
    hide Plan, Inv, Tracks, Settle, Countdown, Flying;
    var m := d.children[ch];
    var d1 := ChildDone(d, ch, answer);
    LastChildOutputs(g, d, ch, answer);
    ChildDoneTracks(g, c, d, ch, answer);
    ChildDoneKeepsInv(g, d, {}, ch, answer);
    WaitingMap(g, d, ch);
    InFlightFlies(g, d1, {}, Drained(d, ch));
    assert ChildOutputs(d1.maps, d1.output, m) == Gather(d1.maps[m], d1.output);
    BarrierOf(c, d1.maps[m], d1.output, m);
    var text := c.listOf(ChildOutputs(d1.maps, d1.output, m));
    SettleFrame(d1, m, text);
    OutputTracks(g, c, d1, Settle(d1, m, text), m, text);
  }

  lemma AbsorbWorks(g: Graph, c: Codec, d: Snapshot, id: StageId, answer: string)
    requires Plan(g) && Inv(g, d, {}, {}) && d.ready == [] && Tracks(g, c, d) && id in d.inFlight
    ensures Absorb(c, d, id, answer).Ok? && Absorption(g, c, d, Absorb(c, d, id, answer).value, id, answer)
  {
    hide Plan, Inv, Tracks, Absorb, Absorption;
    InFlightKnown(g, d, id);
    Absorbed(g, c, d, id, answer);
    if id in g {
      AbsorbAgentWorks(g, c, d, id, answer);
    } else {
      ChildAbsorbed(g, c, d, id, answer);
      if d.mapRemaining[d.children[id]] == 1 {
        LastChildWorks(g, c, d, id, answer);
      } else {
        ChildDoneTracks(g, c, d, id, answer);
      }
    }
  }

  // ----- the prompts a stage has been sent -----

  /** The prompts spawned for `id`, in order. */
  function PromptsOf(spawned: seq<Stage>, id: StageId): seq<string> {
    if spawned == [] then []
    else
      var before := PromptsOf(spawned[..|spawned| - 1], id);
      var last := spawned[|spawned| - 1];
      if last.id == id then before + [last.prompt] else before
  }

  lemma {:induction false} PromptsOfAppend(a: seq<Stage>, b: seq<Stage>, id: StageId)
    ensures PromptsOf(a + b, id) == PromptsOf(a, id) + PromptsOf(b, id)
  {
    if b == [] {
      assert a + b == a;
    } else {
      var front, last := b[..|b| - 1], b[|b| - 1];
      assert (a + b)[..|a + b| - 1] == a + front;
      PromptsOfAppend(a, front, id);
    }
  }

  lemma {:induction false} PromptsOfDistinct(spawned: seq<Stage>, id: StageId)
    requires forall i, j :: 0 <= i < j < |spawned| ==> spawned[i].id != spawned[j].id
    ensures !IsSpawned(spawned, id) ==> PromptsOf(spawned, id) == []
    ensures forall i :: 0 <= i < |spawned| && spawned[i].id == id ==> PromptsOf(spawned, id) == [spawned[i].prompt]
  {
    if spawned != [] {
      var front, last := spawned[..|spawned| - 1], spawned[|spawned| - 1];
      PromptsOfDistinct(front, id);
      assert last.id == id ==> IsSpawned(spawned, id);
      if last.id == id {
        assert !IsSpawned(front, id);
      } else if IsSpawned(front, id) {
        var i :| 0 <= i < |front| && front[i].id == id;
        assert spawned[i].id == id;
      }
    }
  }

  /** A worker was sent off for the stage. */
  ghost predicate Launched(g: Graph, output: map<StageId, string>, inFlight: set<StageId>, id: StageId) {
    id in inFlight || (id in output && !(id in g && g[id].kind.Map?))
  }

  /** A retry prompt repeats the first one and names the mismatch. */
  ghost predicate Retried(first: string, second: string, schema: string) {
    exists error :: second == first + RetryNote(schema, error)
  }

  /** The stage was sent its determined prompt once, then at most one retry. */
  ghost predicate Sent(g: Graph, d: Snapshot, id: StageId, prompts: seq<string>) {
    if !Launched(g, d.output, d.inFlight, id) then prompts == [] && id !in d.retries
    else
      && id in d.graph
      && |prompts| == (if id in d.retries then 2 else 1)
      && prompts[0] == Asked(g, d.graph, d.output, id)
      && (id in d.retries ==>
            d.graph[id].schema.Some? && Retried(prompts[0], prompts[1], d.graph[id].schema.value))
  }

  ghost predicate AllSent(g: Graph, d: Snapshot, spawned: seq<Stage>) {
    forall id :: Sent(g, d, id, PromptsOf(spawned, id))
  }

  lemma SentAfterAnswer(g: Graph, c: Codec, d: Snapshot, d': Snapshot, x: StageId, answer: string, id: StageId,
                        prompts: seq<string>)
    requires Tracks(g, c, d) && x in d.inFlight && (x in g ==> g[x].kind.Agent?)
    requires Absorption(g, c, d, d', x, answer) && Sent(g, d, id, prompts) && Flying(g, d.graph, d.inFlight)
    ensures Sent(g, d', id, prompts)
  {
    hide Tracks, Asked, Retried, Flying, AgentsTracked, OnlyBarriers;
    LaunchedAfterAnswer(g, c, d, d', x, answer, id);
    if Launched(g, d.output, d.inFlight, id) {
      AskedLater(g, c, d, d', id);
    }
  }

  lemma LaunchedAfterAnswer(g: Graph, c: Codec, d: Snapshot, d': Snapshot, x: StageId, answer: string, id: StageId)
    requires x in d.inFlight && (x in g ==> g[x].kind.Agent?) && Absorption(g, c, d, d', x, answer)
    ensures Launched(g, d'.output, d'.inFlight, id) <==> Launched(g, d.output, d.inFlight, id)
  {
    hide Tracks;
  }

  lemma AskedLater(g: Graph, c: Codec, d: Snapshot, d': Snapshot, id: StageId)
    requires Tracks(g, c, d) && Flying(g, d.graph, d.inFlight)
    requires Launched(g, d.output, d.inFlight, id) && id in d.graph
    requires Extends(d.graph, d'.graph) && Extends(d.output, d'.output)
    ensures Asked(g, d'.graph, d'.output, id) == Asked(g, d.graph, d.output, id)
  {
    hide Asked, AgentsTracked, MapsTracked, PromptsTracked, BarriersTracked;
    AskedStays(g, d.graph, d'.graph, d.output, d'.output, d.inFlight, id);
  }

  lemma SentAfterEmission(g: Graph, c: Codec, d: Snapshot, s: Step, id: StageId, prompts: seq<string>)
    requires Tracks(g, c, d) && StepWorks(g, c, d, s) && Sent(g, d, id, prompts) && Flying(g, d.graph, d.inFlight)
    ensures Sent(g, s.dag, id, prompts + PromptsOf(Spawns(s.advance), id))
  {
    hide Tracks, Asked, Retried, Flying, SpawnedRight;
    var more := Spawns(s.advance);
    PromptsOfDistinct(more, id);
    if IsSpawned(more, id) {
      var i :| 0 <= i < |more| && more[i].id == id;
      SpawnedMeans(g, d, s.dag, more[i]);
    } else {
      assert prompts + [] == prompts;
      if Launched(g, d.output, d.inFlight, id) {
        AskedLater(g, c, d, s.dag, id);
      }
    }
  }

  lemma SpawnedMeans(g: Graph, d: Snapshot, d': Snapshot, s: Stage)
    requires SpawnedRight(g, d, d', s)
    ensures s.id !in d.inFlight && s.id !in d.output && s.id in d'.inFlight && s.id in d'.graph
    ensures s.prompt == Asked(g, d'.graph, d'.output, s.id)
  {
  }

  lemma RetryPrompt(g: Graph, c: Codec, d: Snapshot, id: StageId, error: string)
    requires PromptsTracked(g, d.graph, d.output, d.inFlight, d.prompts)
    requires id in d.inFlight && id in d.graph && d.graph[id].schema.Some?
    ensures RetryStage(d, id, error).prompt
            == Asked(g, d.graph, d.output, id) + RetryNote(d.graph[id].schema.value, error)
  {
    hide Asked, RetryNote;
  }

  lemma SentAfterRetry(g: Graph, c: Codec, d: Snapshot, x: StageId, error: string, id: StageId, prompts: seq<string>)
    requires PromptsTracked(g, d.graph, d.output, d.inFlight, d.prompts)
    requires x in d.inFlight && x in d.graph && d.graph[x].schema.Some? && d.graph[x].id == x && x !in d.retries
    requires Sent(g, d, id, prompts)
    ensures Sent(g, d.(retries := d.retries + {x}), id, prompts + PromptsOf([RetryStage(d, x, error)], id))
  {
    hide Asked, RetryNote, PromptsTracked;
    RetryPrompt(g, c, d, x, error);
    var retry := RetryStage(d, x, error);
    OnePrompt(retry, id);
    if id == x {
      assert Retried(prompts[0], retry.prompt, d.graph[x].schema.value);
    }
  }

  lemma OnePrompt(s: Stage, id: StageId)
    ensures PromptsOf([s], id) == if s.id == id then [s.prompt] else []
  {
    assert [s][..0] == [];
  }

  // ----- runs -----

  datatype Event =
    | Launching
    | Answering(id: StageId, answer: Result<string, string>)
    | Stopping

  function Apply(c: Codec, d: Snapshot, event: Event): Step {
    match event
    case Launching => Start(c, d)
    case Answering(id, answer) => Deliver(c, d, id, answer)
    case Stopping => Abort(d)
  }

  /** The answer is awaited. */
  predicate Takes(d: Snapshot, event: Event) {
    event.Answering? && d.state.Running? && event.id in d.inFlight
  }

  /** What a host has seen so far: everything spawned, and how many of its
      answers were taken. */
  datatype Run = Run(dag: Snapshot, last: Advance, spawned: seq<Stage>, taken: nat)

  function After(c: Codec, r: Run, event: Event): Run {
    var s := Apply(c, r.dag, event);
    Run(s.dag, s.advance, r.spawned + Spawns(s.advance), r.taken + if Takes(r.dag, event) then 1 else 0)
  }

  function Play(c: Codec, d: Snapshot, events: seq<Event>): Run {
    if events == [] then Run(d, Spawn([]), [], 0)
    else After(c, Play(c, d, events[..|events| - 1]), events[|events| - 1])
  }

  /** Stages with an answer of their own, map barriers aside. */
  ghost function Answered(g: Graph, output: map<StageId, string>): set<StageId> {
    set id | id in output && !(id in g && g[id].kind.Map?)
  }

  ghost predicate Accounted(g: Graph, d: Snapshot, taken: nat) {
    taken == |d.retries| + |Answered(g, d.output)|
  }

  /** What holds of a run that has not failed or been cancelled. */
  ghost predicate Regular(g: Graph, c: Codec, d: Snapshot, spawned: seq<Stage>, taken: nat) {
    && Tracks(g, c, d)
    && AllSent(g, d, spawned)
    && Accounted(g, d, taken)
  }

  ghost predicate AtMostTwice(spawned: seq<Stage>) {
    forall id :: |PromptsOf(spawned, id)| <= 2
  }

  ghost predicate RunInv(g: Graph, c: Codec, r: Run) {
    && GoodStep(g, Step(r.dag, r.last))
    && (r.dag.state.Running? && !r.dag.started ==> r.dag.inFlight == {})
    && (Alive(r.dag) ==> Regular(g, c, r.dag, r.spawned, r.taken))
    && AtMostTwice(r.spawned)
    && r.taken <= 2 * r.dag.cap
  }

  // one step

  lemma AllSentAfterEmission(g: Graph, c: Codec, d: Snapshot, s: Step, spawned: seq<Stage>)
    requires Tracks(g, c, d) && StepWorks(g, c, d, s) && AllSent(g, d, spawned) && Flying(g, d.graph, d.inFlight)
    ensures AllSent(g, s.dag, spawned + Spawns(s.advance))
  {
    hide Tracks, StepWorks, Sent, Flying;
    forall id
      ensures Sent(g, s.dag, id, PromptsOf(spawned + Spawns(s.advance), id))
    {
      assert Sent(g, d, id, PromptsOf(spawned, id));
      SentAfterEmission(g, c, d, s, id, PromptsOf(spawned, id));
      PromptsOfAppend(spawned, Spawns(s.advance), id);
    }
  }

  lemma AllSentAfterAnswer(g: Graph, c: Codec, d: Snapshot, d': Snapshot, x: StageId, answer: string,
                           spawned: seq<Stage>)
    requires Tracks(g, c, d) && x in d.inFlight && (x in g ==> g[x].kind.Agent?)
    requires Absorption(g, c, d, d', x, answer) && AllSent(g, d, spawned) && Flying(g, d.graph, d.inFlight)
    ensures AllSent(g, d', spawned)
  {
    hide Tracks, Absorption, Sent, Flying;
    forall id
      ensures Sent(g, d', id, PromptsOf(spawned, id))
    {
      assert Sent(g, d, id, PromptsOf(spawned, id));
      SentAfterAnswer(g, c, d, d', x, answer, id, PromptsOf(spawned, id));
    }
  }

  lemma AllSentAfterRetry(g: Graph, c: Codec, d: Snapshot, x: StageId, error: string, spawned: seq<Stage>)
    requires PromptsTracked(g, d.graph, d.output, d.inFlight, d.prompts)
    requires x in d.inFlight && x in d.graph && d.graph[x].schema.Some? && d.graph[x].id == x && x !in d.retries
    requires AllSent(g, d, spawned)
    ensures AllSent(g, d.(retries := d.retries + {x}), spawned + [RetryStage(d, x, error)])
  {
    hide PromptsTracked, Sent, RetryStage;
    forall id
      ensures Sent(g, d.(retries := d.retries + {x}), id, PromptsOf(spawned + [RetryStage(d, x, error)], id))
    {
      assert Sent(g, d, id, PromptsOf(spawned, id));
      SentAfterRetry(g, c, d, x, error, id, PromptsOf(spawned, id));
      PromptsOfAppend(spawned, [RetryStage(d, x, error)], id);
    }
  }

  lemma SameAnswered(g: Graph, a: map<StageId, string>, b: map<StageId, string>)
    requires Extends(a, b) && OnlyBarriers(g, a, b)
    ensures Answered(g, b) == Answered(g, a)
  {
  }

  lemma OneMoreAnswered(g: Graph, a: map<StageId, string>, b: map<StageId, string>, id: StageId, answer: string)
    requires Extends(a, b) && id in b && OnlyBarriers(g, a[id := answer], b) && id !in a
             && (id in g ==> g[id].kind.Agent?)
    ensures |Answered(g, b)| == |Answered(g, a)| + 1
  {
    assert Answered(g, b) == Answered(g, a) + {id};
  }

  /** Emission keeps a run regular. */
  lemma RegularAfterEmission(g: Graph, c: Codec, d: Snapshot, s: Step, spawned: seq<Stage>, taken: nat)
    requires Regular(g, c, d, spawned, taken) && StepWorks(g, c, d, s) && Flying(g, d.graph, d.inFlight)
    ensures Regular(g, c, s.dag, spawned + Spawns(s.advance), taken) && Extends(d.output, s.dag.output)
  {
    hide Tracks, AllSent, Flying, Spawned;
    AllSentAfterEmission(g, c, d, s, spawned);
    SameAnswered(g, d.output, s.dag.output);
  }

  lemma RegularAfterAnswer(g: Graph, c: Codec, d: Snapshot, d': Snapshot, x: StageId, answer: string,
                           spawned: seq<Stage>, taken: nat)
    requires Regular(g, c, d, spawned, taken) && Absorption(g, c, d, d', x, answer) && Flying(g, d.graph, d.inFlight)
    requires x in d.inFlight && x !in d.output && (x in g ==> g[x].kind.Agent?)
    ensures Regular(g, c, d', spawned, taken + 1) && Extends(d.output, d'.output)
  {
    hide Tracks, AllSent, Flying;
    AllSentAfterAnswer(g, c, d, d', x, answer, spawned);
    OneMoreAnswered(g, d.output, d'.output, x, answer);
  }

  lemma RegularAfterRetry(g: Graph, c: Codec, d: Snapshot, x: StageId, error: string, spawned: seq<Stage>, taken: nat)
    requires Regular(g, c, d, spawned, taken)
    requires x in d.inFlight && x in d.graph && d.graph[x].schema.Some? && d.graph[x].id == x && x !in d.retries
    ensures Regular(g, c, d.(retries := d.retries + {x}), spawned + [RetryStage(d, x, error)], taken + 1)
  {
    hide AllSent, RetryStage, MapsTracked, AgentsTracked, PromptsTracked, BarriersTracked;
    AllSentAfterRetry(g, c, d, x, error, spawned);
  }

  lemma InFlightFacts(g: Graph, d: Snapshot, id: StageId)
    requires Plan(g) && Inv(g, d, {}, {}) && id in d.inFlight
    ensures id in d.graph && d.graph[id].id == id && id !in d.output && (id in g ==> g[id].kind.Agent?)
  {
  }

  lemma AcceptRegular(g: Graph, c: Codec, d: Snapshot, id: StageId, answer: string, spawned: seq<Stage>, taken: nat)
    requires Plan(g) && Inv(g, d, {}, {}) && d.ready == [] && id in d.inFlight && d.state.Running? && d.started
    requires Regular(g, c, d, spawned, taken)
    ensures var s := Accept(c, d.(inFlight := d.inFlight - {id}), id, answer);
            Alive(s.dag) ==>
              Regular(g, c, s.dag, spawned + Spawns(s.advance), taken + 1) && Extends(d.output, s.dag.output)
  {
    hide Plan, Inv, Regular, StepWorks, Emit, Settle, SettleParent, Absorption, Flying;
    Absorbed(g, c, d, id, answer);
    AbsorbSameRun(c, d, id, answer);
    RegularTracks(g, c, d, spawned, taken);
    AbsorbWorks(g, c, d, id, answer);
    InFlightFacts(g, d, id);
    InFlightFlies(g, d, {}, {});
    var d1 := Absorb(c, d, id, answer).value;
    RegularAfterAnswer(g, c, d, d1, id, answer, spawned, taken);
    RegularTracks(g, c, d1, spawned, taken + 1);
    EmitWorks(g, c, d1);
    InFlightFlies(g, d1, Elements(d1.ready), {});
    if Alive(Emit(c, d1).dag) {
      RegularAfterEmission(g, c, d1, Emit(c, d1), spawned, taken + 1);
    }
  }

  lemma RegularTracks(g: Graph, c: Codec, d: Snapshot, spawned: seq<Stage>, taken: nat)
    requires Regular(g, c, d, spawned, taken)
    ensures Tracks(g, c, d)
  {
    hide Tracks;
  }

  lemma DeliverRegular(g: Graph, c: Codec, d: Snapshot, id: StageId, answer: Result<string, string>,
                       spawned: seq<Stage>, taken: nat)
    requires Plan(g) && Inv(g, d, {}, {}) && d.ready == [] && id in d.inFlight && d.state.Running? && d.started
    requires Regular(g, c, d, spawned, taken)
    ensures var s := Deliver(c, d, id, answer);
            Alive(s.dag) ==>
              Regular(g, c, s.dag, spawned + Spawns(s.advance), taken + 1) && Extends(d.output, s.dag.output)
  {
    hide Plan, Inv, Regular, Accept, RetryStage, SchemaError, Deliver;
    InFlightFacts(g, d, id);
    match Verdict(c, d, id, answer)
    case Fits =>
      DeliverFits(c, d, id, answer);
      AcceptRegular(g, c, d, id, answer.value, spawned, taken);
    case Again(error) =>
      DeliverAgain(c, d, id, answer);
      RegularAfterRetry(g, c, d, id, error, spawned, taken);
    case Fatal =>
      DeliverFatal(c, d, id, answer);
  }

  datatype Judgement = Fits | Again(error: string) | Fatal

  /** How an awaited answer is judged. */
  function Verdict(c: Codec, d: Snapshot, id: StageId, answer: Result<string, string>): Judgement
    requires id in d.graph
  {
    if answer.Err? then Fatal
    else
      match SchemaError(c, d.graph[id], answer.value)
      case None => Fits
      case Some(error) => if id in d.retries then Fatal else Again(error)
  }

  ghost predicate Awaited(d: Snapshot, id: StageId) {
    id in d.graph && d.state.Running? && id in d.inFlight
  }

  lemma DeliverFits(c: Codec, d: Snapshot, id: StageId, answer: Result<string, string>)
    requires Awaited(d, id) && Verdict(c, d, id, answer).Fits?
    ensures answer.Ok? && Deliver(c, d, id, answer) == Accept(c, d.(inFlight := d.inFlight - {id}), id, answer.value)
  {
    hide Accept, SchemaError;
  }

  lemma DeliverAgain(c: Codec, d: Snapshot, id: StageId, answer: Result<string, string>)
    requires Awaited(d, id) && Verdict(c, d, id, answer).Again?
    ensures d.graph[id].schema.Some? && id !in d.retries && answer.Ok?
    ensures SchemaError(c, d.graph[id], answer.value) == Some(Verdict(c, d, id, answer).error)
    ensures Deliver(c, d, id, answer)
            == Step(d.(retries := d.retries + {id}), Spawn([RetryStage(d, id, Verdict(c, d, id, answer).error)]))
  {
    hide RetryStage;
  }

  lemma DeliverFatal(c: Codec, d: Snapshot, id: StageId, answer: Result<string, string>)
    requires Awaited(d, id) && Verdict(c, d, id, answer).Fatal?
    ensures Deliver(c, d, id, answer).dag.state.Failed?
  {
    hide SchemaError, Closed, SinkOutputs;
  }

  lemma StartRegular(g: Graph, c: Codec, d: Snapshot, spawned: seq<Stage>, taken: nat)
    requires Plan(g) && Inv(g, d, Elements(d.ready), {}) && d.state.Running? && !d.started
    requires Regular(g, c, d, spawned, taken)
    ensures var s := Start(c, d);
            Alive(s.dag) ==> Regular(g, c, s.dag, spawned + Spawns(s.advance), taken) && Extends(d.output, s.dag.output)
  {
    hide Plan, Inv, Regular, Emit, StepWorks, Flying;
    var d1 := d.(started := true);
    StartedIrrelevant(g, d);
    StartedRegular(g, c, d, spawned, taken);
    RegularTracks(g, c, d1, spawned, taken);
    EmitWorks(g, c, d1);
    InFlightFlies(g, d1, Elements(d1.ready), {});
    if Alive(Emit(c, d1).dag) {
      RegularAfterEmission(g, c, d1, Emit(c, d1), spawned, taken);
    }
  }

  lemma StartedRegular(g: Graph, c: Codec, d: Snapshot, spawned: seq<Stage>, taken: nat)
    requires Regular(g, c, d, spawned, taken)
    ensures Regular(g, c, d.(started := true), spawned, taken)
  {
    hide MapsTracked, AgentsTracked, PromptsTracked, BarriersTracked, PromptsOf;
    forall id
      ensures Sent(g, d.(started := true), id, PromptsOf(spawned, id))
    {
      assert Sent(g, d, id, PromptsOf(spawned, id));
    }
  }

  // bookkeeping

  lemma EmitCap(c: Codec, d: Snapshot)
    ensures Emit(c, d).dag.cap == d.cap
    ensures !Alive(Emit(c, d).dag) && !Emit(c, d).advance.Unsatisfied? && !Emit(c, d).advance.Panicked? ==>
              Emit(c, d).advance.Finished? || !Alive(d)
  {
    hide EmitWaves, Finish;
    EmitWavesSameRun(c, d, []);
    var e := EmitWaves(c, d, []);
    FinishFields(e.dag, Done, None);
    if e.failure.Some? {
      FinishFields(e.dag, Failed, Some(e.failure.value));
    }
  }

  lemma AcceptCap(c: Codec, d: Snapshot, id: StageId, answer: string)
    requires d.state.Running? && Absorb(c, d, id, answer).Ok?
    ensures var s := Accept(c, d.(inFlight := d.inFlight - {id}), id, answer);
            && s.dag.cap == d.cap
            && (!Alive(s.dag) && !s.advance.Unsatisfied? && !s.advance.Panicked? ==> s.advance.Finished?)
  {
    hide Emit, Settle, SettleParent;
    AbsorbSameRun(c, d, id, answer);
    EmitCap(c, Absorb(c, d, id, answer).value);
  }

  lemma FinishFields(d: Snapshot, state: RunState, error: Option<Reason>)
    ensures var s := Finish(d, state, error); s.dag.cap == d.cap && s.advance.Finished? && s.dag.state == state
  {
  }

  /** A step that ends the run early spawns nothing. */
  ghost predicate EndsQuietly(d: Snapshot, s: Step) {
    s.dag.cap == d.cap && (!Alive(s.dag) ==> Spawns(s.advance) == [])
  }

  lemma DeliverQuiet(g: Graph, c: Codec, d: Snapshot, id: StageId, answer: Result<string, string>)
    requires Plan(g) && Inv(g, d, {}, {}) && d.ready == [] && id in d.inFlight && d.state.Running? && d.started
    requires GoodStep(g, Deliver(c, d, id, answer))
    ensures EndsQuietly(d, Deliver(c, d, id, answer))
  {
    hide Plan, Inv, Accept, RetryStage, SchemaError, Deliver, Finish;
    InFlightFacts(g, d, id);
    match Verdict(c, d, id, answer)
    case Fits =>
      DeliverFits(c, d, id, answer);
      Absorbed(g, c, d, id, answer.value);
      AcceptCap(c, d, id, answer.value);
    case Again(error) =>
      DeliverAgain(c, d, id, answer);
    case Fatal =>
      FatalQuiet(c, d, id, answer);
  }

  lemma FatalQuiet(c: Codec, d: Snapshot, id: StageId, answer: Result<string, string>)
    requires Awaited(d, id) && Verdict(c, d, id, answer).Fatal?
    ensures EndsQuietly(d, Deliver(c, d, id, answer))
  {
    hide SchemaError, Closed, SinkOutputs;
  }

  lemma StartQuiet(g: Graph, c: Codec, d: Snapshot)
    requires d.state.Running? && GoodStep(g, Start(c, d))
    ensures EndsQuietly(d, Start(c, d))
  {
    hide Emit, AllComplete, Inv;
    EmitCap(c, d.(started := true));
  }

  /** Subset of the stages with something still to come. */
  lemma AnsweredBound(g: Graph, d: Snapshot)
    requires Inv(g, d, {}, {}) || Inv(g, d, Elements(d.ready), {})
    ensures Answered(g, d.output) <= d.graph.Keys - d.inFlight && d.inFlight <= d.graph.Keys && |d.graph| <= d.cap
  {
  }

  lemma RetriesBound(g: Graph, d: Snapshot, spawned: seq<Stage>)
    requires AllSent(g, d, spawned)
    ensures d.retries <= d.graph.Keys
  {
    forall id | id in d.retries
      ensures id in d.graph
    {
      assert Sent(g, d, id, PromptsOf(spawned, id));
    }
  }

  lemma SubsetSize<T>(a: set<T>, b: set<T>)
    requires a <= b
    ensures |a| <= |b|
  {
    assert b == a + (b - a);
  }

  lemma TakenBound(g: Graph, c: Codec, d: Snapshot, spawned: seq<Stage>, taken: nat)
    requires Inv(g, d, {}, {}) || Inv(g, d, Elements(d.ready), {})
    requires Regular(g, c, d, spawned, taken)
    ensures taken <= 2 * |d.graph| <= 2 * d.cap
    ensures d.inFlight != {} ==> taken < 2 * |d.graph|
  {
    hide Inv, Tracks, AllSent;
    AnsweredBound(g, d);
    RetriesBound(g, d, spawned);
    SubsetSize(d.retries, d.graph.Keys);
    SubsetSize(Answered(g, d.output), d.graph.Keys - d.inFlight);
    if d.inFlight != {} {
      var id :| id in d.inFlight;
      SubsetSize(d.graph.Keys - d.inFlight, d.graph.Keys - {id});
    } else {
      SubsetSize(Answered(g, d.output), d.graph.Keys);
    }
  }

  lemma SentTwice(g: Graph, d: Snapshot, spawned: seq<Stage>)
    requires AllSent(g, d, spawned)
    ensures AtMostTwice(spawned)
  {
    forall id
      ensures |PromptsOf(spawned, id)| <= 2
    {
      assert Sent(g, d, id, PromptsOf(spawned, id));
    }
  }

  // ----- every run -----

  lemma IdleStep(c: Codec, d: Snapshot, event: Event)
    requires !Takes(d, event)
    requires event.Launching? ==> d.started || !d.state.Running?
    requires event.Stopping? ==> !d.state.Running?
    ensures Apply(c, d, event) == Step(d, Spawn([]))
  {
  }

  lemma IdleKeepsRun(g: Graph, c: Codec, r: Run, event: Event)
    requires RunInv(g, c, r) && Apply(c, r.dag, event) == Step(r.dag, Spawn([])) && !Takes(r.dag, event)
    ensures RunInv(g, c, After(c, r, event))
  {
    hide Apply, Takes, Sound, AllComplete, Inv, Regular;
    assert r.spawned + [] == r.spawned;
  }

  lemma TakesKeepsRun(g: Graph, c: Codec, r: Run, event: Event)
    requires Plan(g) && RunInv(g, c, r) && Takes(r.dag, event)
    ensures RunInv(g, c, After(c, r, event))
    ensures Alive(After(c, r, event).dag) ==> Extends(r.dag.output, After(c, r, event).dag.output)
  {
    hide Plan, Inv, Deliver, AllComplete, Regular;
    assert Elements(r.dag.ready) == {};
    DeliverGood(g, c, r.dag, event.id, event.answer);
    DeliverRegular(g, c, r.dag, event.id, event.answer, r.spawned, r.taken);
    DeliverQuiet(g, c, r.dag, event.id, event.answer);
    TakenBound(g, c, r.dag, r.spawned, r.taken);
    var r' := After(c, r, event);
    Bounded(g, c, r, r', r.taken + 1);
    DeliverStarted(g, c, r.dag, event.id, event.answer);
  }

  lemma DeliverStarted(g: Graph, c: Codec, d: Snapshot, id: StageId, answer: Result<string, string>)
    requires Plan(g) && Inv(g, d, {}, {}) && d.ready == [] && id in d.inFlight && d.state.Running? && d.started
    ensures Deliver(c, d, id, answer).dag.state.Running? ==> Deliver(c, d, id, answer).dag.started
  {
    hide Plan, Inv, RetryStage, SchemaError, Deliver, Emit, Settle, SettleParent;
    InFlightFacts(g, d, id);
    match Verdict(c, d, id, answer)
    case Fits =>
      DeliverFits(c, d, id, answer);
      Absorbed(g, c, d, id, answer.value);
      AbsorbSameRun(c, d, id, answer.value);
      EmitGood(g, c, Absorb(c, d, id, answer.value).value);
    case Again(error) =>
      DeliverAgain(c, d, id, answer);
    case Fatal =>
      DeliverFatal(c, d, id, answer);
  }

  lemma Bounded(g: Graph, c: Codec, r: Run, r': Run, taken: nat)
    requires AtMostTwice(r.spawned) && (Alive(r'.dag) ==> Regular(g, c, r'.dag, r'.spawned, taken))
    requires !Alive(r'.dag) ==> r'.spawned == r.spawned
    ensures AtMostTwice(r'.spawned)
  {
    hide Tracks, AllSent, AtMostTwice;
    if Alive(r'.dag) {
      SentTwice(g, r'.dag, r'.spawned);
    }
  }

  lemma LaunchKeepsRun(g: Graph, c: Codec, r: Run)
    requires Plan(g) && RunInv(g, c, r) && r.dag.state.Running? && !r.dag.started
    ensures RunInv(g, c, After(c, r, Launching))
    ensures Alive(After(c, r, Launching).dag) ==> Extends(r.dag.output, After(c, r, Launching).dag.output)
  {
    hide Plan, Inv, Start, AllComplete, Regular;
    StartGood(g, c, r.dag);
    StartRegular(g, c, r.dag, r.spawned, r.taken);
    StartQuiet(g, c, r.dag);
    Bounded(g, c, r, After(c, r, Launching), r.taken);
    StartStarts(g, c, r.dag);
  }

  lemma StartStarts(g: Graph, c: Codec, d: Snapshot)
    requires Plan(g) && Inv(g, d, Elements(d.ready), {}) && d.state.Running? && !d.started
    ensures Start(c, d).dag.started
  {
    hide Plan, Inv, Emit, GoodStep;
    StartedIrrelevant(g, d);
    EmitGood(g, c, d.(started := true));
  }

  lemma StopKeepsRun(g: Graph, c: Codec, r: Run)
    requires Plan(g) && RunInv(g, c, r) && r.dag.state.Running?
    ensures RunInv(g, c, After(c, r, Stopping)) && !Alive(After(c, r, Stopping).dag)
  {
    hide Plan, Inv, Sound, Finish, AllComplete, Regular, GoodStep;
    GoodIsSound(g, Step(r.dag, r.last));
    AbortGood(g, r.dag);
    FinishFields(r.dag, Cancelled, Some(WorkflowCancelled));
    assert r.spawned + [] == r.spawned;
  }

  lemma GoodIsSound(g: Graph, s: Step)
    requires GoodStep(g, s)
    ensures Sound(g, s.dag)
  {
    hide Sound, AllComplete, Inv;
  }

  lemma EventKeepsRun(g: Graph, c: Codec, r: Run, event: Event)
    requires Plan(g) && RunInv(g, c, r)
    ensures RunInv(g, c, After(c, r, event))
    ensures Alive(After(c, r, event).dag) ==> Extends(r.dag.output, After(c, r, event).dag.output)
  {
    hide Plan, RunInv, After, Apply;
    if Takes(r.dag, event) {
      TakesKeepsRun(g, c, r, event);
    } else if event.Launching? && r.dag.state.Running? && !r.dag.started {
      LaunchKeepsRun(g, c, r);
    } else if event.Stopping? && r.dag.state.Running? {
      StopKeepsRun(g, c, r);
    } else {
      IdleStep(c, r.dag, event);
      IdleKeepsRun(g, c, r, event);
      IdleAfter(c, r, event);
    }
  }

  lemma IdleAfter(c: Codec, r: Run, event: Event)
    requires Apply(c, r.dag, event) == Step(r.dag, Spawn([]))
    ensures After(c, r, event).dag == r.dag
  {
  }

  lemma PlayLast(c: Codec, d: Snapshot, events: seq<Event>, event: Event)
    ensures Play(c, d, events + [event]) == After(c, Play(c, d, events), event)
  {
    assert (events + [event])[..|events + [event]| - 1] == events;
  }

  /** The plan of a validated workflow, ready to run. */
  ghost predicate Ready(m: Graphs.StageMap, cap: nat) {
    && Graphs.Keyed(m)
    && Ordered(m.ids)
    && |m.stage| <= cap
    && Plan(m.stage)
    && forall id :: id in m.stage ==> Ordered(m.stage[id].needs)
  }

  lemma AcceptedIsReady(stages: seq<Stage>, m: Graphs.StageMap, cap: nat)
    requires Graphs.Acceptable(stages, cap) && m.stage == Graphs.Stored(stages) && Graphs.Keyed(m) && Ordered(m.ids)
    ensures Ready(m, cap)
  {
    hide Plan, Graphs.Acceptable;
    AcceptedIsPlan(stages, cap);
  }

  lemma BeginRegular(m: Graphs.StageMap, c: Codec, cap: nat)
    requires Ready(m, cap)
    ensures RunInv(m.stage, c, Run(Begin(m, cap), Spawn([]), [], 0))
  {
    hide Inv, Tracks, Needing, Roots;
    BeginInv(m, cap);
    BeginTracks(m, c, cap);
    NothingSent(m.stage, Begin(m, cap));
    assert Answered(m.stage, Begin(m, cap).output) == {};
  }

  lemma NothingSent(g: Graph, d: Snapshot)
    requires d.output == map[] && d.inFlight == {} && d.retries == {}
    ensures AllSent(g, d, [])
  {
  }

  /** Every reachable state of every run satisfies the invariant. */
  lemma {:induction false} EveryRun(m: Graphs.StageMap, c: Codec, cap: nat, events: seq<Event>)
    requires Ready(m, cap)
    ensures RunInv(m.stage, c, Play(c, Begin(m, cap), events))
    decreases |events|
  {
    hide Ready, RunInv, After;
    if events == [] {
      BeginRegular(m, c, cap);
    } else {
      EveryRun(m, c, cap, events[..|events| - 1]);
      ReadyPlan(m, cap);
      EventKeepsRun(m.stage, c, Play(c, Begin(m, cap), events[..|events| - 1]), events[|events| - 1]);
    }
  }

  lemma ReadyPlan(m: Graphs.StageMap, cap: nat)
    requires Ready(m, cap)
    ensures Plan(m.stage)
  {
  }

  // ----- what that means for a host -----

  /** No event sequence stalls or panics a validated workflow, a started run
      that is not over has work in flight, and one that is done has the
      result of every stage. */
  lemma NeverStalls(stages: seq<Stage>, m: Graphs.StageMap, c: Codec, cap: nat, events: seq<Event>)
    requires Graphs.Acceptable(stages, cap) && m.stage == Graphs.Stored(stages) && Graphs.Keyed(m) && Ordered(m.ids)
    ensures var r := Play(c, Begin(m, cap), events);
            && !r.dag.state.Stalled?
            && !r.last.Unsatisfied?
            && !r.last.Panicked?
            && (r.dag.state.Running? && r.dag.started ==> r.dag.inFlight != {})
            && (r.dag.state.Done? ==> AllComplete(m.stage, r.dag) && r.dag.inFlight == {})
  {
    hide Plan, Inv, Ready;
    AcceptedIsReady(stages, m, cap);
    EveryRun(m, c, cap, events);
    var r := Play(c, Begin(m, cap), events);
    if r.dag.state.Done? {
      DoneIsIdle(m.stage, r.dag);
    }
  }

  lemma DoneIsIdle(g: Graph, d: Snapshot)
    requires Inv(g, d, {}, {}) && AllComplete(g, d)
    ensures d.inFlight == {}
  {
  }

  /** While a run is regular, every stage that was sent off got its own
      prompt, filled in from the outputs of its ancestors, exactly once, and
      at most one more prompt asking it to correct its answer. */
  lemma PromptsSent(m: Graphs.StageMap, c: Codec, cap: nat, events: seq<Event>, id: StageId)
    requires Ready(m, cap)
    ensures var r := Play(c, Begin(m, cap), events);
            && |PromptsOf(r.spawned, id)| <= 2
            && (Alive(r.dag) ==> Sent(m.stage, r.dag, id, PromptsOf(r.spawned, id)))
  {
    hide Ready, Tracks, Sent, PromptsOf, GoodStep;
    EveryRun(m, c, cap, events);
  }

  /** An answered stage is never awaited again: whatever the host delivers
      for it later, the run does not change. */
  lemma {:induction false} LateAnswersIgnored(m: Graphs.StageMap, c: Codec, cap: nat, events: seq<Event>,
                                              later: seq<Event>,
                                              id: StageId, answer: Result<string, string>)
    requires Ready(m, cap) && id in Play(c, Begin(m, cap), events).dag.output
    requires Alive(Play(c, Begin(m, cap), events).dag)
    ensures var d := Play(c, Begin(m, cap), events + later).dag;
            && (Alive(d) ==> id in d.output && d.output[id] == Play(c, Begin(m, cap), events).dag.output[id])
            && Apply(c, d, Answering(id, answer)) == Step(d, Spawn([]))
    decreases |later|
  {
    hide Ready, After, Play, RunInv, Regular;
    var d0 := Begin(m, cap);
    if later == [] {
      assert events + later == events;
    } else {
      var front, last := later[..|later| - 1], later[|later| - 1];
      LateAnswersIgnored(m, c, cap, events, front, id, answer);
      assert events + later == (events + front) + [last];
      PlayLast(c, d0, events + front, last);
      var r := Play(c, d0, events + front);
      EveryRun(m, c, cap, events + front);
      ReadyPlan(m, cap);
      EventKeepsRun(m.stage, c, r, last);
      DeadStaysDead(c, r, last);
    }
    EveryRun(m, c, cap, events + later);
    AnsweredNotAwaited(m.stage, c, Play(c, d0, events + later), id);
    IdleStep(c, Play(c, d0, events + later).dag, Answering(id, answer));
  }

  lemma DeadStaysDead(c: Codec, r: Run, event: Event)
    ensures !Alive(r.dag) ==> After(c, r, event).dag == r.dag
  {
    hide Emit, Accept;
  }

  lemma AnsweredNotAwaited(g: Graph, c: Codec, r: Run, id: StageId)
    requires RunInv(g, c, r) && (Alive(r.dag) ==> id in r.dag.output)
    ensures r.dag.state.Running? ==> id !in r.dag.inFlight
  {
    hide Regular, EdgesPart, StatusPart, ReadyPart, MapPart, AllComplete;
  }

  /** Accepted answers are bounded by twice the number of stages: at that
      many the run is over, and it never takes more than twice its cap. */
  lemma AnswersEndTheRun(m: Graphs.StageMap, c: Codec, cap: nat, events: seq<Event>)
    requires Ready(m, cap)
    ensures var r := Play(c, Begin(m, cap), events);
            && r.taken <= 2 * r.dag.cap
            && (r.dag.state.Running? && r.dag.started ==> r.taken < 2 * |r.dag.graph|)
  {
    hide Plan, Inv, Regular;
    EveryRun(m, c, cap, events);
    var r := Play(c, Begin(m, cap), events);
    if r.dag.state.Running? && r.dag.started {
      assert Elements(r.dag.ready) == {};
      TakenBound(m.stage, c, r.dag, r.spawned, r.taken);
    }
  }

  /** Without maps the stage count is that of the plan. */
  lemma AgentsOnlySize(m: Graphs.StageMap, c: Codec, cap: nat, events: seq<Event>)
    requires Ready(m, cap) && forall id :: id in m.stage ==> m.stage[id].kind.Agent?
    ensures var r := Play(c, Begin(m, cap), events);
            r.dag.state.Running? && r.dag.started ==> r.taken < 2 * |m.stage|
  {
    hide Plan, Inv, Regular, RunInv;
    EveryRun(m, c, cap, events);
    AnswersEndTheRun(m, c, cap, events);
    var r := Play(c, Begin(m, cap), events);
    if r.dag.state.Running? && r.dag.started {
      NoChildren(m.stage, c, r);
    }
  }

  lemma NoChildren(g: Graph, c: Codec, r: Run)
    requires RunInv(g, c, r) && r.dag.state.Running? && (forall id :: id in g ==> g[id].kind.Agent?)
    ensures |r.dag.graph| == |g|
  {
    hide Regular, EdgesPart, StatusPart, ReadyPart, MapPart, CountPart, PhasePart;
    ChildrenNeedMaps(g, r.dag.children, r.dag.maps, r.dag.output, r.dag.inFlight);
    assert r.dag.graph.Keys == g.Keys;
  }

  lemma ChildrenNeedMaps(g: Graph, children: map<StageId, StageId>, maps: map<StageId, seq<StageId>>,
                         output: map<StageId, string>, inFlight: set<StageId>)
    requires ChildPart(g, children, maps, output, inFlight) && forall id :: id in g ==> g[id].kind.Agent?
    ensures children == map[]
  {
    assert maps == map[];
  }
}
