/** The prompts and answers of a run are determined by the outputs it has. */
module Tracking {
  import opened Wrappers
  import opened Ids
  import opened Reach
  import opened Workflow
  import opened Invariant
  import Graphs
  import Template

  /** The first prompt of a stage, given the outputs so far. */
  ghost function Asked(g: Graph, graph: Graph, output: map<StageId, string>, id: StageId): string {
    if id in g then
      match Template.Render(g[id].prompt, output, None)
      case Ok(prompt) => prompt
      case Err(_) => ""
    else if id in graph then graph[id].prompt
    else ""
  }

  ghost predicate ChildTracked(g: Graph, graph: Graph, output: map<StageId, string>, m: StageId, i: nat, item: string)
    requires m in g
  {
    && ChildId(m, i) in graph
    && Template.Render(g[m].prompt, output, Some(item)).Ok?
    && graph[ChildId(m, i)] == ChildStage(g[m], i, ItemPrompt(g[m].prompt, output, item))
  }

  ghost predicate HasItems(g: Graph, output: map<StageId, string>, m: StageId) {
    && m in g
    && g[m].over.Some?
    && g[m].over.value in g
    && g[m].over.value in output
  }

  ghost function Items(g: Graph, c: Codec, output: map<StageId, string>, m: StageId): Result<seq<string>, string>
    requires HasItems(g, output, m)
  {
    c.parse(output[g[m].over.value], SourceSchema(g, g[m].over.value))
  }

  /** The map was expanded into one child per item of its source. */
  ghost predicate MapTracked(g: Graph, c: Codec, graph: Graph, output: map<StageId, string>, m: StageId, n: nat) {
    && HasItems(g, output, m)
    && Items(g, c, output, m).Ok?
    && |Items(g, c, output, m).value| == n
    && forall i :: 0 <= i < n ==> ChildTracked(g, graph, output, m, i, Items(g, c, output, m).value[i])
  }

  ghost predicate MapsTracked(g: Graph, c: Codec, graph: Graph, output: map<StageId, string>,
                              maps: map<StageId, seq<StageId>>) {
    forall m :: m in maps ==> MapTracked(g, c, graph, output, m, |maps[m]|)
  }

  ghost predicate AgentTracked(g: Graph, output: map<StageId, string>, id: StageId)
    requires id in g
  {
    Template.Render(g[id].prompt, output, None).Ok?
  }

  ghost predicate AgentsTracked(g: Graph, output: map<StageId, string>, inFlight: set<StageId>) {
    forall id :: id in g && g[id].kind.Agent? && (id in inFlight || id in output) ==> AgentTracked(g, output, id)
  }

  ghost predicate PromptsTracked(g: Graph, graph: Graph, output: map<StageId, string>, inFlight: set<StageId>,
                                 prompts: map<StageId, string>)
  {
    forall id :: id in inFlight && id in graph && graph[id].schema.Some? ==>
      id in prompts && prompts[id] == Asked(g, graph, output, id)
  }

  ghost predicate AllIn(ids: seq<StageId>, output: map<StageId, string>) {
    forall i :: 0 <= i < |ids| ==> ids[i] in output
  }

  ghost function Gather(ids: seq<StageId>, output: map<StageId, string>): seq<string>
    requires AllIn(ids, output)
  {
    seq(|ids|, i requires 0 <= i < |ids| => output[ids[i]])
  }

  /** The output of a map barrier, from those of its children in order. */
  ghost function Barrier(c: Codec, ids: seq<StageId>, output: map<StageId, string>): string
    requires AllIn(ids, output)
  {
    if ids == [] then "[]" else c.listOf(Gather(ids, output))
  }

  ghost predicate BarriersTracked(g: Graph, c: Codec, output: map<StageId, string>, maps: map<StageId, seq<StageId>>) {
    forall m :: m in maps && m in output ==> AllIn(maps[m], output) && output[m] == Barrier(c, maps[m], output)
  }

  ghost predicate Tracks(g: Graph, c: Codec, d: Snapshot) {
    && MapsTracked(g, c, d.graph, d.output, d.maps)
    && AgentsTracked(g, d.output, d.inFlight)
    && PromptsTracked(g, d.graph, d.output, d.inFlight, d.prompts)
    && BarriersTracked(g, c, d.output, d.maps)
  }

  // ----- more outputs change nothing about the past -----

  ghost predicate Extends<V(!new)>(a: map<StageId, V>, b: map<StageId, V>) {
    forall id :: id in a ==> id in b && b[id] == a[id]
  }

  lemma ChildStays(g: Graph, graph: Graph, graph': Graph, a: map<StageId, string>, b: map<StageId, string>,
                   m: StageId, i: nat, item: string)
    requires m in g && ChildTracked(g, graph, a, m, i, item) && Extends(a, b) && Extends(graph, graph')
    ensures ChildTracked(g, graph', b, m, i, item)
  {
    hide Template.Render;
    Template.RenderExtends(g[m].prompt, a, b, Some(item));
  }

  lemma MapsStay(g: Graph, c: Codec, graph: Graph, graph': Graph, a: map<StageId, string>, b: map<StageId, string>,
                 maps: map<StageId, seq<StageId>>)
    requires MapsTracked(g, c, graph, a, maps) && Extends(a, b) && Extends(graph, graph')
    ensures MapsTracked(g, c, graph', b, maps)
  {
    hide ChildTracked;
    forall m | m in maps
      ensures MapTracked(g, c, graph', b, m, |maps[m]|)
    {
      assert MapTracked(g, c, graph, a, m, |maps[m]|);
      forall i | 0 <= i < |maps[m]|
        ensures ChildTracked(g, graph', b, m, i, Items(g, c, b, m).value[i])
      {
        ChildStays(g, graph, graph', a, b, m, i, Items(g, c, a, m).value[i]);
      }
    }
  }

  lemma AgentsStay(g: Graph, a: map<StageId, string>, b: map<StageId, string>, f: set<StageId>, f': set<StageId>)
    requires AgentsTracked(g, a, f) && Extends(a, b)
    requires forall id :: id in g && g[id].kind.Agent? && (id in f' || id in b) ==> id in f || id in a
    ensures AgentsTracked(g, b, f')
  {
    hide Template.Render;
    forall id | id in g && g[id].kind.Agent? && (id in f' || id in b)
      ensures AgentTracked(g, b, id)
    {
      assert AgentTracked(g, a, id);
      Template.RenderExtends(g[id].prompt, a, b, None);
    }
  }

  lemma AskedStays(g: Graph, graph: Graph, graph': Graph, a: map<StageId, string>, b: map<StageId, string>,
                   f: set<StageId>, id: StageId)
    requires AgentsTracked(g, a, f) && Extends(a, b) && Extends(graph, graph')
    requires (id in f || id in a) && (id in g ==> g[id].kind.Agent?) && id in graph
    ensures Asked(g, graph', b, id) == Asked(g, graph, a, id)
  {
    hide Template.Render;
    if id in g {
      assert AgentTracked(g, a, id);
      Template.RenderExtends(g[id].prompt, a, b, None);
    }
  }

  ghost predicate Flying(g: Graph, graph: Graph, f: set<StageId>) {
    forall id :: id in f ==> id in graph && (id in g ==> g[id].kind.Agent?)
  }

  lemma PromptsStay(g: Graph, graph: Graph, graph': Graph, a: map<StageId, string>, b: map<StageId, string>,
                    f: set<StageId>, f': set<StageId>, prompts: map<StageId, string>)
    requires PromptsTracked(g, graph, a, f, prompts) && AgentsTracked(g, a, f)
    requires Extends(a, b) && Extends(graph, graph') && f' <= f && Flying(g, graph, f)
    ensures PromptsTracked(g, graph', b, f', prompts)
  {
    hide AgentsTracked, Asked;
    forall id | id in f'
      ensures Asked(g, graph', b, id) == Asked(g, graph, a, id)
    {
      AskedStays(g, graph, graph', a, b, f, id);
    }
  }

  lemma BarriersStay(g: Graph, c: Codec, a: map<StageId, string>, b: map<StageId, string>,
                     maps: map<StageId, seq<StageId>>)
    requires BarriersTracked(g, c, a, maps) && Extends(a, b)
    requires forall m :: m in maps && m in b && m !in a ==> AllIn(maps[m], b) && b[m] == Barrier(c, maps[m], b)
    ensures BarriersTracked(g, c, b, maps)
  {
    forall m | m in maps && m in a
      ensures AllIn(maps[m], b) && b[m] == Barrier(c, maps[m], b)
    {
      assert Gather(maps[m], b) == Gather(maps[m], a);
    }
  }

  lemma InFlightFlies(g: Graph, d: Snapshot, w: set<StageId>, l: set<StageId>)
    requires Inv(g, d, w, l)
    ensures Flying(g, d.graph, d.inFlight)
  {
  }

  // ----- new work -----

  /** The stages spawned on the way from `d` to `d'`: all new work, each
      once, with its determined prompt. */
  ghost predicate Spawned(g: Graph, d: Snapshot, d': Snapshot, spawned: seq<Stage>) {
    && (forall i, j :: 0 <= i < j < |spawned| ==> spawned[i].id != spawned[j].id)
    && (forall i :: 0 <= i < |spawned| ==> SpawnedRight(g, d, d', spawned[i]))
    && (forall id :: id in d'.inFlight ==> id in d.inFlight || IsSpawned(spawned, id))
    && d.inFlight <= d'.inFlight
  }

  ghost predicate IsSpawned(spawned: seq<Stage>, id: StageId) {
    exists i :: 0 <= i < |spawned| && spawned[i].id == id
  }

  ghost predicate SpawnedRight(g: Graph, d: Snapshot, d': Snapshot, s: Stage) {
    && s.id !in d.inFlight
    && s.id !in d.output
    && s.id in d'.inFlight
    && s.id in d'.graph
    && s == d'.graph[s.id].(prompt := Asked(g, d'.graph, d'.output, s.id))
  }

  lemma NothingSpawned(g: Graph, d: Snapshot, d': Snapshot)
    requires d'.inFlight == d.inFlight
    ensures Spawned(g, d, d', [])
  {
  }

  lemma SpawnedStill(g: Graph, d: Snapshot, d1: Snapshot, d2: Snapshot, s: Stage)
    requires SpawnedRight(g, d, d1, s) && AgentsTracked(g, d1.output, d1.inFlight) && Flying(g, d1.graph, d1.inFlight)
    requires Extends(d1.graph, d2.graph) && Extends(d1.output, d2.output) && d1.inFlight <= d2.inFlight
    ensures SpawnedRight(g, d, d2, s)
  {
    hide AgentsTracked, Asked;
    AskedStays(g, d1.graph, d2.graph, d1.output, d2.output, d1.inFlight, s.id);
  }

  lemma SpawnedEarlier(g: Graph, d: Snapshot, d1: Snapshot, d2: Snapshot, s: Stage)
    requires SpawnedRight(g, d1, d2, s) && d.inFlight <= d1.inFlight && Extends(d.output, d1.output)
    ensures SpawnedRight(g, d, d2, s) && s.id !in d1.inFlight
  {
    hide Asked;
  }

  lemma IsSpawnedAppend(a: seq<Stage>, b: seq<Stage>, id: StageId)
    ensures IsSpawned(a + b, id) <==> IsSpawned(a, id) || IsSpawned(b, id)
  {
    if IsSpawned(a, id) {
      var i :| 0 <= i < |a| && a[i].id == id;
      assert (a + b)[i].id == id;
    }
    if IsSpawned(b, id) {
      var i :| 0 <= i < |b| && b[i].id == id;
      assert (a + b)[|a| + i].id == id;
    }
  }

  lemma SpawnedAppend(g: Graph, d: Snapshot, d1: Snapshot, d2: Snapshot, a: seq<Stage>, b: seq<Stage>)
    requires Spawned(g, d, d1, a) && Spawned(g, d1, d2, b)
    requires AgentsTracked(g, d1.output, d1.inFlight) && Flying(g, d1.graph, d1.inFlight)
    requires Extends(d.output, d1.output) && Extends(d1.graph, d2.graph) && Extends(d1.output, d2.output)
    ensures Spawned(g, d, d2, a + b)
  {
    hide AgentsTracked, SpawnedRight, Flying, Extends, IsSpawned;
    forall i | 0 <= i < |a|
      ensures SpawnedRight(g, d, d2, a[i]) && a[i].id in d1.inFlight
    {
      SpawnedStill(g, d, d1, d2, a[i]);
      SpawnedFlies(g, d, d1, a[i]);
    }
    forall i | 0 <= i < |b|
      ensures SpawnedRight(g, d, d2, b[i]) && b[i].id !in d1.inFlight
    {
      SpawnedEarlier(g, d, d1, d2, b[i]);
    }
    forall id | id in d2.inFlight && id !in d.inFlight
      ensures IsSpawned(a + b, id)
    {
      IsSpawnedAppend(a, b, id);
    }
  }

  lemma SpawnedFlies(g: Graph, d: Snapshot, d': Snapshot, s: Stage)
    requires SpawnedRight(g, d, d', s)
    ensures s.id in d'.inFlight
  {
  }

  // ----- emission -----

  /** Nothing but map barriers has a new output. */
  ghost predicate OnlyBarriers(g: Graph, a: map<StageId, string>, b: map<StageId, string>) {
    forall id :: id in b ==> id in a || (id in g && g[id].kind.Map?)
  }

  /** What an emission without failure leaves behind. */
  ghost predicate Works(g: Graph, c: Codec, d: Snapshot, e: Emission) {
    && Tracks(g, c, e.dag)
    && Spawned(g, d, e.dag, e.spawned)
    && Extends(d.graph, e.dag.graph)
    && Extends(d.output, e.dag.output)
    && Extends(d.maps, e.dag.maps)
    && OnlyBarriers(g, d.output, e.dag.output)
    && forall m :: m in e.empty ==> m in e.dag.maps && e.dag.maps[m] == []
  }

  lemma LaunchTracks(g: Graph, c: Codec, d: Snapshot, id: StageId, prompt: string)
    requires Tracks(g, c, d) && id in g && id in d.graph && d.graph[id] == g[id] && g[id].kind.Agent?
    requires Template.Render(g[id].prompt, d.output, None) == Ok(prompt)
    ensures Tracks(g, c, Launch(d, id, g[id], prompt))
  {
    hide MapsTracked, BarriersTracked, Template.Render;
  }

  lemma LaunchSpawns(g: Graph, d: Snapshot, id: StageId, prompt: string)
    requires id in g && id in d.graph && d.graph[id] == g[id] && g[id].id == id
    requires id !in d.inFlight && id !in d.output
    requires Template.Render(g[id].prompt, d.output, None) == Ok(prompt)
    ensures Spawned(g, d, Launch(d, id, g[id], prompt), [g[id].(prompt := prompt)])
  {
    hide Template.Render;
    var spawned := [g[id].(prompt := prompt)];
    assert spawned[0].id == id;
    assert IsSpawned(spawned, id);
  }

  lemma WaitingIsIdle(g: Graph, d: Snapshot, w: set<StageId>, l: set<StageId>, id: StageId)
    requires Plan(g) && Inv(g, d, w, l) && id in w
    ensures id in g && id in d.graph && d.graph[id] == g[id] && g[id].id == id && Graphs.ValidId(id)
    ensures id !in d.inFlight && id !in d.output && id !in d.maps
  {
    assert g[id].kind.Map? ==> (id in d.maps <==> id in d.mapRemaining || id in d.output || id in l);
  }

  lemma EmitAgentWorks(g: Graph, c: Codec, d: Snapshot, w: set<StageId>, l: set<StageId>, id: StageId)
    requires Plan(g) && Inv(g, d, w, l) && Tracks(g, c, d) && id in w && id in g && g[id].kind.Agent?
    ensures var e := EmitAgent(d, id, g[id]); e.failure.None? ==> Works(g, c, d, e)
  {
    hide Plan, Inv, Tracks, Spawned, Template.Render;
    WaitingIsIdle(g, d, w, l, id);
    var rendered := Template.Render(g[id].prompt, d.output, None);
    if rendered.Ok? {
      LaunchTracks(g, c, d, id, rendered.value);
      LaunchSpawns(g, d, id, rendered.value);
    }
  }

  // expanding a map

  lemma {:induction false} AddChildrenPrompts(d: Snapshot, parent: Stage, items: seq<string>, n: nat)
    requires n <= |items| && ItemsRender(parent.prompt, d.output, items) && Graphs.ValidId(parent.id)
    ensures var e := AddChildren(d, parent, items, n);
            && (forall x :: x !in ChildIds(parent.id, n) && x in d.prompts ==>
                  x in e.dag.prompts && e.dag.prompts[x] == d.prompts[x])
            && (parent.schema.Some? ==>
                  forall i :: 0 <= i < n ==>
                    ChildId(parent.id, i) in e.dag.prompts
                    && e.dag.prompts[ChildId(parent.id, i)] == ItemPrompt(parent.prompt, d.output, items[i]))
  {
    hide Template.Render;
    if n > 0 {
      AddChildrenStep(d, parent, items, n);
      AddChildrenPrompts(d, parent, items, n - 1);
      ChildIdsStep(parent.id, n);
      NewestChild(parent.id, n);
    }
  }

  lemma NewestChild(m: StageId, n: nat)
    requires n > 0 && Graphs.ValidId(m)
    ensures forall i :: 0 <= i < n - 1 ==> ChildId(m, i) != ChildId(m, n - 1)
  {
    forall i | 0 <= i < n - 1
      ensures ChildId(m, i) != ChildId(m, n - 1)
    {
      if ChildId(m, i) == ChildId(m, n - 1) {
        ChildIdInjective(m, i, m, n - 1);
      }
    }
  }

  /** The state after expanding `m`, and the children that went out. */
  ghost function Expanded(d: Snapshot, parent: Stage, items: seq<string>): Emission {
    var e := AddChildren(d, parent, items, |items|);
    Emission(Register(e.dag, parent.id, |items|), e.spawned, if items == [] then [parent.id] else [], None)
  }

  /** Everything about an expansion that the tracking needs. */
  ghost predicate Expansion(d: Snapshot, d': Snapshot, parent: Stage, items: seq<string>, spawned: seq<Stage>) {
    var m := parent.id;
    && ItemsRender(parent.prompt, d.output, items)
    && d'.output == d.output
    && d'.maps == d.maps[m := ChildIds(m, |items|)]
    && Extends(d.graph, d'.graph)
    && (forall x :: x in d'.inFlight <==> x in d.inFlight || x in ChildIds(m, |items|))
    && |spawned| == |items|
    && (forall i :: 0 <= i < |items| ==>
          && ChildId(m, i) in d'.graph
          && spawned[i] == d'.graph[ChildId(m, i)]
             == ChildStage(parent, i, ItemPrompt(parent.prompt, d.output, items[i])))
    && (forall x :: x !in ChildIds(m, |items|) && x in d.prompts ==> x in d'.prompts && d'.prompts[x] == d.prompts[x])
    && (parent.schema.Some? ==>
          forall i :: 0 <= i < |items| ==>
            ChildId(m, i) in d'.prompts && d'.prompts[ChildId(m, i)] == ItemPrompt(parent.prompt, d.output, items[i]))
  }

  ghost predicate Unused(g: Graph, d: Snapshot, m: StageId, n: nat) {
    forall x :: x in ChildIds(m, n) ==>
      x !in g && x !in d.children && x !in d.output && x !in d.inFlight && x !in d.graph
  }

  lemma ExpansionHolds(g: Graph, d: Snapshot, parent: Stage, items: seq<string>)
    requires ItemsRender(parent.prompt, d.output, items) && Graphs.ValidId(parent.id)
    requires Unused(g, d, parent.id, |items|)
    ensures var e := Expanded(d, parent, items); Expansion(d, e.dag, parent, items, e.spawned)
  {
    hide AddChildren, ItemsRender, ItemPrompt;
    var n := |items|;
    AddChildrenFrame(d, parent, items, n);
    AddChildrenFlights(d, parent, items, n);
    AddChildrenValues(d, parent, items, n);
    AddChildrenStages(d, parent, items, n);
    AddChildrenPrompts(d, parent, items, n);
  }

  lemma InvChildren(g: Graph, d: Snapshot, w: set<StageId>, l: set<StageId>)
    requires Inv(g, d, w, l)
    ensures GraphPart(g, d.graph, d.children)
    ensures ChildPart(g, d.children, d.maps, d.output, d.inFlight)
  {
    hide GraphPart, EdgesPart, CountPart, PhasePart, ChildPart, MapPart, StatusPart, ReadyPart;
  }

  lemma WaitingUnused(g: Graph, d: Snapshot, w: set<StageId>, l: set<StageId>, id: StageId, n: nat)
    requires Plan(g) && Inv(g, d, w, l) && id in w
    ensures Unused(g, d, id, n)
  {
    hide Plan, Inv, ChildPart, GraphPart;
    WaitingIsIdle(g, d, w, l, id);
    InvChildren(g, d, w, l);
    GraphKnows(g, d.graph, d.children);
    ChildIdsFresh(g, d.children, d.maps, d.output, d.inFlight, id, n);
    forall x | x in ChildIds(id, n)
      ensures x in Elements(ChildIds(id, n))
    {
    }
  }

  lemma ExpansionTracksMaps(g: Graph, c: Codec, d: Snapshot, d': Snapshot, m: StageId, items: seq<string>,
                            spawned: seq<Stage>)
    requires m in g && g[m].id == m && HasItems(g, d.output, m) && Items(g, c, d.output, m) == Ok(items)
    requires Expansion(d, d', g[m], items, spawned) && MapsTracked(g, c, d.graph, d.output, d.maps)
    ensures MapsTracked(g, c, d'.graph, d'.output, d'.maps)
  {
    hide MapsTracked, Template.Render;
    MapsStay(g, c, d.graph, d'.graph, d.output, d'.output, d.maps);
    NewMapTracked(g, c, d, d', m, items, spawned);
    OneMoreMap(g, c, d'.graph, d'.output, d.maps, m, ChildIds(m, |items|));
  }

  lemma NewMapTracked(g: Graph, c: Codec, d: Snapshot, d': Snapshot, m: StageId, items: seq<string>,
                      spawned: seq<Stage>)
    requires m in g && g[m].id == m && HasItems(g, d.output, m) && Items(g, c, d.output, m) == Ok(items)
    requires Expansion(d, d', g[m], items, spawned)
    ensures MapTracked(g, c, d'.graph, d'.output, m, |items|)
  {
    hide Template.Render;
    forall i | 0 <= i < |items|
      ensures ChildTracked(g, d'.graph, d'.output, m, i, items[i])
    {
    }
  }

  lemma OneMoreMap(g: Graph, c: Codec, graph: Graph, output: map<StageId, string>, maps: map<StageId, seq<StageId>>,
                   m: StageId, ids: seq<StageId>)
    requires MapsTracked(g, c, graph, output, maps) && MapTracked(g, c, graph, output, m, |ids|)
    ensures MapsTracked(g, c, graph, output, maps[m := ids])
  {
    hide MapTracked;
  }

  lemma ExpansionTracksPrompts(g: Graph, d: Snapshot, d': Snapshot, parent: Stage, items: seq<string>,
                               spawned: seq<Stage>)
    requires Expansion(d, d', parent, items, spawned) && Unused(g, d, parent.id, |items|)
    requires PromptsTracked(g, d.graph, d.output, d.inFlight, d.prompts) && AgentsTracked(g, d.output, d.inFlight)
    requires Flying(g, d.graph, d.inFlight)
    ensures PromptsTracked(g, d'.graph, d'.output, d'.inFlight, d'.prompts)
  {
    hide Template.Render, AgentsTracked;
    forall x | x in d'.inFlight && x in d'.graph && d'.graph[x].schema.Some?
      ensures x in d'.prompts && d'.prompts[x] == Asked(g, d'.graph, d'.output, x)
    {
      if x in d.inFlight {
        AskedStays(g, d.graph, d'.graph, d.output, d'.output, d.inFlight, x);
      } else {
        var i :| 0 <= i < |items| && x == ChildId(parent.id, i);
      }
    }
  }

  lemma ExpansionTracksAgents(g: Graph, d: Snapshot, d': Snapshot, parent: Stage, items: seq<string>,
                              spawned: seq<Stage>)
    requires Expansion(d, d', parent, items, spawned) && Unused(g, d, parent.id, |items|)
    requires AgentsTracked(g, d.output, d.inFlight)
    ensures AgentsTracked(g, d'.output, d'.inFlight)
  {
    hide AgentTracked;
  }

  lemma ExpansionTracksBarriers(g: Graph, c: Codec, d: Snapshot, d': Snapshot, parent: Stage, items: seq<string>,
                                spawned: seq<Stage>)
    requires Expansion(d, d', parent, items, spawned) && parent.id !in d.output
    requires BarriersTracked(g, c, d.output, d.maps)
    ensures BarriersTracked(g, c, d'.output, d'.maps)
  {
    hide Barrier;
  }

  lemma ExpansionSpawns(g: Graph, d: Snapshot, d': Snapshot, parent: Stage, items: seq<string>, spawned: seq<Stage>)
    requires Expansion(d, d', parent, items, spawned) && Unused(g, d, parent.id, |items|) && Graphs.ValidId(parent.id)
    ensures Spawned(g, d, d', spawned)
  {
    hide Template.Render, ItemPrompt, ItemsRender;
    forall i | 0 <= i < |spawned|
      ensures SpawnedRight(g, d, d', spawned[i])
    {
      assert ChildId(parent.id, i) == ChildIds(parent.id, |items|)[i];
    }
    forall i, j | 0 <= i < j < |spawned|
      ensures spawned[i].id != spawned[j].id
    {
      NewestChild(parent.id, j + 1);
    }
    forall id | id in d'.inFlight && id !in d.inFlight
      ensures IsSpawned(spawned, id)
    {
      var i :| 0 <= i < |items| && id == ChildId(parent.id, i);
      assert spawned[i].id == id;
    }
  }

  lemma ExpandedWorks(g: Graph, c: Codec, d: Snapshot, m: StageId, items: seq<string>)
    requires Tracks(g, c, d) && Flying(g, d.graph, d.inFlight)
    requires m in g && g[m].id == m && Graphs.ValidId(m) && m !in d.output && m !in d.maps
    requires HasItems(g, d.output, m) && Items(g, c, d.output, m) == Ok(items)
    requires ItemsRender(g[m].prompt, d.output, items) && Unused(g, d, m, |items|)
    ensures Works(g, c, d, Expanded(d, g[m], items))
  {
    hide Flying, HasItems, Unused, Spawned, ItemsRender, MapsTracked, AgentsTracked, PromptsTracked, BarriersTracked;
    ExpansionHolds(g, d, g[m], items);
    var e := Expanded(d, g[m], items);
    ExpansionTracksMaps(g, c, d, e.dag, m, items, e.spawned);
    ExpansionTracksPrompts(g, d, e.dag, g[m], items, e.spawned);
    ExpansionTracksAgents(g, d, e.dag, g[m], items, e.spawned);
    ExpansionTracksBarriers(g, c, d, e.dag, g[m], items, e.spawned);
    ExpansionSpawns(g, d, e.dag, g[m], items, e.spawned);
    ExpansionExtends(d, e.dag, g[m], items, e.spawned);
  }

  lemma ExpansionExtends(d: Snapshot, d': Snapshot, parent: Stage, items: seq<string>, spawned: seq<Stage>)
    requires Expansion(d, d', parent, items, spawned) && parent.id !in d.maps
    ensures Extends(d.graph, d'.graph) && Extends(d.output, d'.output) && Extends(d.maps, d'.maps)
    ensures items == [] ==> parent.id in d'.maps && d'.maps[parent.id] == []
  {
  }

  lemma DegradedTracks(g: Graph, c: Codec, d: Snapshot, degraded: bool)
    requires Tracks(g, c, d)
    ensures Tracks(g, c, d.(degraded := degraded))
  {
  }

  lemma DegradedWorks(g: Graph, c: Codec, d: Snapshot, degraded: bool, e: Emission)
    requires Works(g, c, d.(degraded := degraded), e)
    ensures Works(g, c, d, e)
  {
    hide Tracks;
  }

  lemma EmitMapWorks(g: Graph, c: Codec, d: Snapshot, w: set<StageId>, l: set<StageId>, id: StageId)
    requires Plan(g) && Inv(g, d, w, l) && Tracks(g, c, d) && id in w && id in g && g[id].kind.Map?
    ensures var e := EmitMap(c, d, g[id]); e.failure.None? ==> Works(g, c, d, e)
  {
    hide Plan, Inv, Tracks, Works, AddChildren, Unused, Flying, ItemsRender;
    SourceAvailable(g, d, w, l, id);
    SourceIsStatic(g, d, w, l, g[id].over.value);
    WaitingIsIdle(g, d, w, l, id);
    var items := MapItems(c, d, g[id]);
    if items.Ok? && |d.graph| + |items.value| <= d.cap {
      var d1 := d.(degraded := d.degraded || items.value == []);
      DegradedIrrelevant(g, d, w, l, d1.degraded);
      DegradedTracks(g, c, d, d1.degraded);
      WaitingItemsRender(g, d1, w, l, id, items.value);
      WaitingUnused(g, d1, w, l, id, |items.value|);
      InFlightFlies(g, d1, w, l);
      ExpandedWorks(g, c, d1, id, items.value);
      DegradedWorks(g, c, d, d1.degraded, Expanded(d1, g[id], items.value));
      AddChildrenFrame(d1, g[id], items.value, |items.value|);
    }
  }

  lemma SourceIsStatic(g: Graph, d: Snapshot, w: set<StageId>, l: set<StageId>, source: StageId)
    requires Inv(g, d, w, l) && source in g
    ensures source in d.graph && d.graph[source] == g[source]
  {
  }

  lemma EmitOneWorks(g: Graph, c: Codec, d: Snapshot, w: set<StageId>, l: set<StageId>, id: StageId)
    requires Plan(g) && Inv(g, d, w, l) && Tracks(g, c, d) && id in w
    ensures var e := EmitOne(c, d, id); e.failure.None? ==> Works(g, c, d, e)
  {
    hide Plan, Inv, Tracks, Works, EmitMap, EmitAgent;
    WaitingIsIdle(g, d, w, l, id);
    if g[id].kind.Map? {
      EmitMapWorks(g, c, d, w, l, id);
    } else {
      EmitAgentWorks(g, c, d, w, l, id);
    }
  }

  // a wave

  lemma WorksAppend(g: Graph, c: Codec, d: Snapshot, e: Emission, one: Emission)
    requires Works(g, c, d, e) && Works(g, c, e.dag, one) && Flying(g, e.dag.graph, e.dag.inFlight)
    ensures Works(g, c, d, Emission(one.dag, e.spawned + one.spawned, e.empty + one.empty, None))
  {
    hide MapsTracked, AgentsTracked, PromptsTracked, BarriersTracked, Spawned, Flying;
    SpawnedAppend(g, d, e.dag, one.dag, e.spawned, one.spawned);
  }

  lemma ReadyTracks(g: Graph, c: Codec, d: Snapshot)
    requires Tracks(g, c, d)
    ensures Works(g, c, d, Emission(d.(ready := []), [], [], None))
    ensures Works(g, c, d, Emission(d, [], [], None))
  {
    NothingSpawned(g, d, d.(ready := []));
    NothingSpawned(g, d, d);
  }

  lemma {:induction false} EmitIdsWorks(g: Graph, c: Codec, d: Snapshot, ids: seq<StageId>, n: nat)
    requires Plan(g) && n <= |ids| && Distinct(ids)
    requires Inv(g, d, Elements(ids), {}) && d.ready == [] && Tracks(g, c, d)
    ensures EmitIds(c, d, ids, n).failure.None? ==> Works(g, c, d, EmitIds(c, d, ids, n))
    decreases n
  {
    hide Plan, Inv, Tracks, Works, EmitOne, Flying, Distinct;
    if n == 0 {
      ReadyTracks(g, c, d);
    } else {
      EmitIdsWorks(g, c, d, ids, n - 1);
      EmitIdsEmitted(g, c, d, ids, n - 1);
      var e := EmitIds(c, d, ids, n - 1);
      if e.failure.None? {
        TakeNext(ids, n);
        WorksTracks(g, c, d, e);
        EmitOneWorks(g, c, e.dag, Elements(ids[n - 1..]), Elements(e.empty), ids[n - 1]);
        InFlightFlies(g, e.dag, Elements(ids[n - 1..]), Elements(e.empty));
        var one := EmitOne(c, e.dag, ids[n - 1]);
        if one.failure.None? {
          WorksAppend(g, c, d, e, one);
        }
      }
    }
  }

  lemma WorksTracks(g: Graph, c: Codec, d: Snapshot, e: Emission)
    requires Works(g, c, d, e)
    ensures Tracks(g, c, e.dag)
    ensures forall m :: m in e.empty ==> m in e.dag.maps && e.dag.maps[m] == []
    ensures Extends(d.graph, e.dag.graph) && Extends(d.output, e.dag.output) && Extends(d.maps, e.dag.maps)
  {
    hide Tracks, Spawned, Extends;
  }

  // settling

  /** One more output, and perhaps less in flight. */
  lemma OutputTracks(g: Graph, c: Codec, d: Snapshot, d': Snapshot, id: StageId, answer: string)
    requires Tracks(g, c, d) && Flying(g, d.graph, d.inFlight)
    requires d'.graph == d.graph && d'.maps == d.maps && d'.prompts == d.prompts && d'.inFlight <= d.inFlight
    requires id !in d.output && d'.output == d.output[id := answer]
    requires id in g && g[id].kind.Agent? ==> id in d.inFlight
    requires id in d.maps ==> AllIn(d.maps[id], d'.output) && answer == Barrier(c, d.maps[id], d'.output)
    ensures Tracks(g, c, d')
  {
    hide MapsTracked, AgentsTracked, PromptsTracked, BarriersTracked, Barrier, AllIn, Flying;
    assert Extends(d.output, d'.output) && Extends(d.graph, d'.graph);
    MapsStay(g, c, d.graph, d'.graph, d.output, d'.output, d.maps);
    AgentsStay(g, d.output, d'.output, d.inFlight, d'.inFlight);
    PromptsStay(g, d.graph, d'.graph, d.output, d'.output, d.inFlight, d'.inFlight, d.prompts);
    BarriersStay(g, c, d.output, d'.output, d.maps);
  }

  lemma SettleEmptyMapWorks(g: Graph, c: Codec, d: Snapshot, m: StageId)
    requires Tracks(g, c, d) && Flying(g, d.graph, d.inFlight)
    requires m !in d.output && m in d.maps && d.maps[m] == [] && m in g && g[m].kind.Map?
    ensures Works(g, c, d, Emission(Settle(d, m, "[]"), [], [], None))
  {
    hide Tracks, Settle, Flying;
    SettleFrame(d, m, "[]");
    OutputTracks(g, c, d, Settle(d, m, "[]"), m, "[]");
    NothingSpawned(g, d, Settle(d, m, "[]"));
  }

  lemma LooseMap(g: Graph, d: Snapshot, w: set<StageId>, l: set<StageId>, m: StageId)
    requires Inv(g, d, w, l) && m in l && m in d.maps
    ensures m !in d.output && m in g && g[m].kind.Map?
  {
  }

  lemma {:induction false} SettleEmptyWorks(g: Graph, c: Codec, d: Snapshot, ids: seq<StageId>, n: nat)
    requires Plan(g) && n <= |ids| && Distinct(ids)
    requires Inv(g, d, {}, Elements(ids)) && d.ready == [] && Tracks(g, c, d)
    requires forall m :: m in ids ==> m in d.maps && d.maps[m] == []
    ensures Works(g, c, d, Emission(SettleEmpty(d, ids, n), [], [], None))
    decreases n
  {
    hide Plan, Inv, Tracks, Works, Settle, Flying, Distinct;
    if n == 0 {
      ReadyTracks(g, c, d);
    } else {
      SettleEmptyWorks(g, c, d, ids, n - 1);
      SettleEmptySettled(g, d, ids, n - 1);
      TakeNext(ids, n);
      var before := SettleEmpty(d, ids, n - 1);
      var w, l := Elements(before.ready), Elements(ids[n - 1..]);
      WorksTracks(g, c, d, Emission(before, [], [], None));
      InFlightFlies(g, before, w, l);
      LooseMap(g, before, w, l, ids[n - 1]);
      SettleEmptyMapWorks(g, c, before, ids[n - 1]);
      WorksAppend(g, c, d, Emission(before, [], [], None), Emission(Settle(before, ids[n - 1], "[]"), [], [], None));
      NoneWaiting();
    }
  }

  lemma EmitWaveWorks(g: Graph, c: Codec, d: Snapshot)
    requires Plan(g) && Inv(g, d, Elements(d.ready), {}) && Tracks(g, c, d)
    ensures var e := EmitWave(c, d); e.failure.None? ==> Works(g, c, d, e.(empty := []))
  {
    hide Plan, Inv, Tracks, Works, EmitIds, SettleEmpty, Flying;
    TakeReady(g, d);
    ReadyTracks(g, c, d);
    var d1 := d.(ready := []);
    WorksTracks(g, c, d, Emission(d1, [], [], None));
    EmitIdsEmitted(g, c, d1, d.ready, |d.ready|);
    EmitIdsWorks(g, c, d1, d.ready, |d.ready|);
    var e := EmitIds(c, d1, d.ready, |d.ready|);
    if e.failure.None? {
      WholeSlice(d.ready);
      WorksTracks(g, c, d1, e);
      SettleEmptyWorks(g, c, e.dag, e.empty, |e.empty|);
      InFlightFlies(g, d1, Elements(d.ready), {});
      InFlightFlies(g, e.dag, {}, Elements(e.empty));
      WorksAppend(g, c, d, Emission(d1, [], [], None), e);
      WorksDropEmpty(g, c, d, e, Emission(SettleEmpty(e.dag, e.empty, |e.empty|), [], [], None));
    }
  }

  lemma NoneWaiting()
    ensures var ids: seq<StageId> := []; ids + ids == ids
    ensures var stages: seq<Stage> := []; stages + stages == stages
  {
  }

  lemma WorksDropEmpty(g: Graph, c: Codec, d: Snapshot, e: Emission, one: Emission)
    requires Works(g, c, d, Emission(e.dag, [] + e.spawned, [] + e.empty, None))
    requires Works(g, c, e.dag, one) && Flying(g, e.dag.graph, e.dag.inFlight)
    requires one.spawned == [] && one.empty == []
    ensures Works(g, c, d, Emission(one.dag, e.spawned, [], None))
  {
    hide Tracks, Spawned, Flying;
    assert [] + e.spawned == e.spawned;
    assert e.spawned + [] == e.spawned;
    WorksAppend(g, c, d, Emission(e.dag, e.spawned, [], None), one);
  }

  /** Emission as a whole: all work in flight afterwards was in flight
      before or goes out now. */
  lemma {:induction false} EmitWavesWorks(g: Graph, c: Codec, d: Snapshot, spawned: seq<Stage>)
    returns (more: seq<Stage>)
    requires Plan(g) && Inv(g, d, Elements(d.ready), {}) && Tracks(g, c, d)
    ensures var e := EmitWaves(c, d, spawned);
            e.failure.None? ==> e.spawned == spawned + more && Works(g, c, d, Emission(e.dag, more, [], None))
    decreases |d.pending|
  {
    hide Plan, Inv, Tracks, Works, EmitWave, Flying;
    more := [];
    if d.ready == [] {
      ReadyTracks(g, c, d);
      assert spawned + [] == spawned;
    } else {
      WaveKeepsInv(g, c, d);
      EmitWaveWorks(g, c, d);
      var e := EmitWave(c, d);
      if e.failure.None? {
        more := e.spawned;
        if e.dag.ready != [] {
          WorksTracks(g, c, d, e.(empty := []));
          var rest := EmitWavesWorks(g, c, e.dag, spawned + e.spawned);
          var last := EmitWaves(c, e.dag, spawned + e.spawned);
          if last.failure.None? {
            InFlightFlies(g, e.dag, Elements(e.dag.ready), {});
            WorksAppend(g, c, d, e.(empty := []), Emission(last.dag, rest, [], None));
            assert spawned + e.spawned + rest == spawned + (e.spawned + rest);
            NoneWaiting();
          }
          more := e.spawned + rest;
        }
      }
    }
  }
}
