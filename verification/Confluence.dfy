/** The order in which answers arrive does not change what a run computes. */
module Confluence {
  import opened Wrappers
  import opened Ids
  import opened Reach
  import opened Workflow
  import opened Invariant
  import opened Progress
  import opened Tracking
  import opened Runs
  import Graphs
  import Template

  /** Workers whose answer depends on nothing but the stage and its prompt. */
  type Workers = (StageId, string) -> Result<string, string>

  // ----- what a plan means, without a scheduler -----

  /** The answer accepted from a worker: its first one if that has the right
      shape, else its second. */
  function Settled(c: Codec, ans: Workers, stage: Stage, prompt: string): Option<string> {
    match ans(stage.id, prompt)
    case Err(_) => None
    case Ok(first) =>
      match SchemaError(c, stage, first)
      case None => Some(first)
      case Some(error) =>
        match ans(stage.id, prompt + Note(stage, error))
        case Err(_) => None
        case Ok(second) => if SchemaError(c, stage, second).None? then Some(second) else None
  }

  function Note(stage: Stage, error: string): string {
    match stage.schema
    case Some(schema) => RetryNote(schema, error)
    case None => ""
  }

  ghost predicate AgentSolved(g: Graph, c: Codec, ans: Workers, f: map<StageId, string>, id: StageId)
    requires id in g
  {
    && id in f
    && Template.Render(g[id].prompt, f, None).Ok?
    && Settled(c, ans, g[id], Template.Render(g[id].prompt, f, None).value) == Some(f[id])
  }

  ghost predicate ChildSolved(g: Graph, c: Codec, ans: Workers, f: map<StageId, string>, m: StageId, i: nat,
                              item: string)
    requires m in g
  {
    && ChildId(m, i) in f
    && Template.Render(g[m].prompt, f, Some(item)).Ok?
    && var p := Template.Render(g[m].prompt, f, Some(item)).value;
       Settled(c, ans, ChildStage(g[m], i, p), p) == Some(f[ChildId(m, i)])
  }

  ghost predicate MapSolved(g: Graph, c: Codec, ans: Workers, f: map<StageId, string>, m: StageId)
    requires m in g
  {
    && m in f
    && HasItems(g, f, m)
    && Items(g, c, f, m).Ok?
    && var items := Items(g, c, f, m).value;
       && (forall i :: 0 <= i < |items| ==> ChildSolved(g, c, ans, f, m, i, items[i]))
       && AllIn(ChildIds(m, |items|), f)
       && f[m] == Barrier(c, ChildIds(m, |items|), f)
  }

  ghost predicate IsChild(g: Graph, c: Codec, f: map<StageId, string>, id: StageId) {
    exists m, i :: IsChildOf(g, c, f, m, i, id)
  }

  ghost predicate IsChildOf(g: Graph, c: Codec, f: map<StageId, string>, m: StageId, i: nat, id: StageId) {
    HasItems(g, f, m) && g[m].kind.Map? && Items(g, c, f, m).Ok? && i < |Items(g, c, f, m).value| && id == ChildId(m, i)
  }

  /** `f` gives every stage the answer to its prompt, filled in from `f`. */
  ghost predicate Solves(g: Graph, c: Codec, ans: Workers, f: map<StageId, string>) {
    && (forall id :: id in g && g[id].kind.Agent? ==> AgentSolved(g, c, ans, f, id))
    && (forall id :: id in g && g[id].kind.Map? ==> MapSolved(g, c, ans, f, id))
    && (forall id :: id in f ==> id in g || IsChild(g, c, f, id))
  }

  // ----- honest runs -----

  function Newest(spawned: seq<Stage>, id: StageId): string {
    var prompts := PromptsOf(spawned, id);
    if prompts == [] then "" else prompts[|prompts| - 1]
  }

  /** An awaited answer is what the worker says to the newest prompt. */
  ghost predicate HonestEvent(ans: Workers, r: Run, event: Event) {
    Takes(r.dag, event) ==> event.answer == ans(event.id, Newest(r.spawned, event.id))
  }

  ghost predicate Honest(c: Codec, ans: Workers, d: Snapshot, events: seq<Event>) {
    events == [] ||
    (var front, last := events[..|events| - 1], events[|events| - 1];
     Honest(c, ans, d, front) && HonestEvent(ans, Play(c, d, front), last))
  }

  /** The record of one stage agrees with its worker. */
  ghost predicate Faithful(c: Codec, ans: Workers, d: Snapshot, id: StageId, prompts: seq<string>) {
    && (id in d.graph && id in d.retries && |prompts| == 2 ==>
          && ans(id, prompts[0]).Ok?
          && SchemaError(c, d.graph[id], ans(id, prompts[0]).value).Some?
          && prompts[1] == prompts[0] + Note(d.graph[id], SchemaError(c, d.graph[id], ans(id, prompts[0]).value).value))
    && (id in d.graph && id in d.output && |prompts| > 0 ==>
          && ans(id, prompts[|prompts| - 1]) == Ok(d.output[id])
          && SchemaError(c, d.graph[id], d.output[id]).None?)
  }

  ghost predicate AllFaithful(c: Codec, ans: Workers, d: Snapshot, spawned: seq<Stage>) {
    forall id :: Faithful(c, ans, d, id, PromptsOf(spawned, id))
  }

  /** A launched, answered stage has the answer its prompt settles to, and
      its prompts are determined. */
  lemma FaithfulSettled(g: Graph, c: Codec, ans: Workers, d: Snapshot, id: StageId, prompts: seq<string>)
    requires Sent(g, d, id, prompts) && Faithful(c, ans, d, id, prompts)
    requires Launched(g, d.output, d.inFlight, id) && id in d.output && id in d.graph && d.graph[id].id == id
    ensures Settled(c, ans, d.graph[id], Asked(g, d.graph, d.output, id)) == Some(d.output[id])
    ensures prompts == Conversation(c, ans, d.graph[id], Asked(g, d.graph, d.output, id))
  {
    hide Asked, RetryNote, SchemaError, Retried;
  }

  /** The prompts a worker gets to see. */
  function Conversation(c: Codec, ans: Workers, stage: Stage, prompt: string): seq<string> {
    match ans(stage.id, prompt)
    case Err(_) => [prompt]
    case Ok(first) =>
      match SchemaError(c, stage, first)
      case None => [prompt]
      case Some(error) => [prompt, prompt + Note(stage, error)]
  }

  // faithfulness is kept

  lemma FaithfulAfterEmission(g: Graph, c: Codec, ans: Workers, d: Snapshot, s: Step, id: StageId, prompts: seq<string>)
    requires StepWorks(g, c, d, s) && Sent(g, d, id, prompts) && Faithful(c, ans, d, id, prompts)
    requires Flying(g, d.graph, d.inFlight) && Flying(g, s.dag.graph, s.dag.inFlight)
    ensures Faithful(c, ans, s.dag, id, prompts + PromptsOf(Spawns(s.advance), id))
  {
    hide Tracks, Asked, Retried, RetryNote, SchemaError, SpawnedRight, Note;
    var more := Spawns(s.advance);
    PromptsOfDistinct(more, id);
    WorksFlight(g, c, d, s, id);
    if IsSpawned(more, id) {
      var i :| 0 <= i < |more| && more[i].id == id;
      SpawnedMeans(g, d, s.dag, more[i]);
    } else {
      assert prompts + [] == prompts;
    }
  }

  lemma WorksFlight(g: Graph, c: Codec, d: Snapshot, s: Step, id: StageId)
    requires StepWorks(g, c, d, s)
    ensures id in s.dag.output && id !in d.output ==> id in g && g[id].kind.Map?
  {
    hide Tracks, Spawned;
  }

  lemma FaithfulAfterAnswer(g: Graph, c: Codec, ans: Workers, d: Snapshot, d': Snapshot, x: StageId, answer: string,
                            id: StageId, prompts: seq<string>)
    requires Absorption(g, c, d, d', x, answer) && Sent(g, d, id, prompts) && Faithful(c, ans, d, id, prompts)
    requires Flying(g, d.graph, d.inFlight) && x in d.inFlight && x in d.graph
    requires id == x && prompts != [] ==>
               ans(x, prompts[|prompts| - 1]) == Ok(answer) && SchemaError(c, d.graph[x], answer).None?
    ensures Faithful(c, ans, d', id, prompts)
  {
    hide Tracks, Asked, Retried, RetryNote, SchemaError, Note;
  }

  lemma FaithfulAfterRetry(g: Graph, c: Codec, ans: Workers, d: Snapshot, x: StageId, error: string, first: string,
                           id: StageId, prompts: seq<string>)
    requires PromptsTracked(g, d.graph, d.output, d.inFlight, d.prompts)
    requires x in d.inFlight && x in d.graph && d.graph[x].schema.Some? && d.graph[x].id == x && x !in d.retries
    requires x !in d.output
    requires Sent(g, d, id, prompts) && Faithful(c, ans, d, id, prompts)
    requires id == x && prompts != [] ==> ans(x, prompts[|prompts| - 1]) == Ok(first)
    requires SchemaError(c, d.graph[x], first) == Some(error)
    ensures Faithful(c, ans, d.(retries := d.retries + {x}), id, prompts + PromptsOf([RetryStage(d, x, error)], id))
  {
    hide Asked, RetryNote, PromptsTracked, SchemaError;
    RetryPrompt(g, c, d, x, error);
    OnePrompt(RetryStage(d, x, error), id);
    assert prompts + [] == prompts;
  }

  lemma AllFaithfulAfterEmission(g: Graph, c: Codec, ans: Workers, d: Snapshot, s: Step, spawned: seq<Stage>)
    requires StepWorks(g, c, d, s) && AllSent(g, d, spawned) && AllFaithful(c, ans, d, spawned)
    requires Flying(g, d.graph, d.inFlight) && Flying(g, s.dag.graph, s.dag.inFlight)
    ensures AllFaithful(c, ans, s.dag, spawned + Spawns(s.advance))
  {
    hide StepWorks, Sent, Faithful, Flying;
    forall id
      ensures Faithful(c, ans, s.dag, id, PromptsOf(spawned + Spawns(s.advance), id))
    {
      var prompts := PromptsOf(spawned, id);
      assert Sent(g, d, id, prompts) && Faithful(c, ans, d, id, prompts);
      FaithfulAfterEmission(g, c, ans, d, s, id, prompts);
      PromptsOfAppend(spawned, Spawns(s.advance), id);
    }
  }

  lemma AllFaithfulAfterAnswer(g: Graph, c: Codec, ans: Workers, d: Snapshot, d': Snapshot, x: StageId, answer: string,
                               spawned: seq<Stage>)
    requires Absorption(g, c, d, d', x, answer) && AllSent(g, d, spawned) && AllFaithful(c, ans, d, spawned)
    requires Flying(g, d.graph, d.inFlight) && x in d.inFlight && x in d.graph
    requires ans(x, Newest(spawned, x)) == Ok(answer) && SchemaError(c, d.graph[x], answer).None?
    ensures AllFaithful(c, ans, d', spawned)
  {
    hide Absorption, Sent, Faithful, Flying, SchemaError, PromptsOf;
    forall id
      ensures Faithful(c, ans, d', id, PromptsOf(spawned, id))
    {
      var prompts := PromptsOf(spawned, id);
      assert Sent(g, d, id, prompts) && Faithful(c, ans, d, id, prompts);
      FaithfulAfterAnswer(g, c, ans, d, d', x, answer, id, prompts);
    }
  }

  lemma AllFaithfulAfterRetry(g: Graph, c: Codec, ans: Workers, d: Snapshot, x: StageId, error: string, first: string,
                              spawned: seq<Stage>)
    requires PromptsTracked(g, d.graph, d.output, d.inFlight, d.prompts)
    requires x in d.inFlight && x in d.graph && d.graph[x].schema.Some? && d.graph[x].id == x && x !in d.retries
    requires x !in d.output
    requires AllSent(g, d, spawned) && AllFaithful(c, ans, d, spawned)
    requires ans(x, Newest(spawned, x)) == Ok(first) && SchemaError(c, d.graph[x], first) == Some(error)
    ensures AllFaithful(c, ans, d.(retries := d.retries + {x}), spawned + [RetryStage(d, x, error)])
  {
    hide Sent, Faithful, SchemaError, PromptsOf, PromptsTracked, RetryStage;
    forall id
      ensures Faithful(c, ans, d.(retries := d.retries + {x}), id, PromptsOf(spawned + [RetryStage(d, x, error)], id))
    {
      var prompts := PromptsOf(spawned, id);
      assert Sent(g, d, id, prompts) && Faithful(c, ans, d, id, prompts);
      FaithfulAfterRetry(g, c, ans, d, x, error, first, id, prompts);
      PromptsOfAppend(spawned, [RetryStage(d, x, error)], id);
    }
  }

  lemma AcceptFaithful(g: Graph, c: Codec, ans: Workers, d: Snapshot, id: StageId, answer: string,
                       spawned: seq<Stage>, taken: nat)
    requires Plan(g) && Inv(g, d, {}, {}) && d.ready == [] && id in d.inFlight && d.state.Running? && d.started
    requires Regular(g, c, d, spawned, taken) && AllFaithful(c, ans, d, spawned)
    requires id in d.graph && ans(id, Newest(spawned, id)) == Ok(answer) && SchemaError(c, d.graph[id], answer).None?
    ensures var s := Accept(c, d.(inFlight := d.inFlight - {id}), id, answer);
            Alive(s.dag) && Flying(g, s.dag.graph, s.dag.inFlight) ==>
              AllFaithful(c, ans, s.dag, spawned + Spawns(s.advance))
  {
    hide Plan, Inv, Regular, StepWorks, Emit, Settle, SettleParent, Absorption, Flying, SchemaError, Newest,
         AllFaithful;
    Absorbed(g, c, d, id, answer);
    AbsorbSameRun(c, d, id, answer);
    RegularTracks(g, c, d, spawned, taken);
    AbsorbWorks(g, c, d, id, answer);
    InFlightFacts(g, d, id);
    InFlightFlies(g, d, {}, {});
    var d1 := Absorb(c, d, id, answer).value;
    RegularAfterAnswer(g, c, d, d1, id, answer, spawned, taken);
    RegularParts(g, c, d, spawned, taken);
    AllFaithfulAfterAnswer(g, c, ans, d, d1, id, answer, spawned);
    RegularParts(g, c, d1, spawned, taken + 1);
    EmitWorks(g, c, d1);
    InFlightFlies(g, d1, Elements(d1.ready), {});
    var s := Emit(c, d1);
    if Alive(s.dag) && Flying(g, s.dag.graph, s.dag.inFlight) {
      AllFaithfulAfterEmission(g, c, ans, d1, s, spawned);
    }
  }

  lemma RegularParts(g: Graph, c: Codec, d: Snapshot, spawned: seq<Stage>, taken: nat)
    requires Regular(g, c, d, spawned, taken)
    ensures Tracks(g, c, d) && AllSent(g, d, spawned)
    ensures PromptsTracked(g, d.graph, d.output, d.inFlight, d.prompts)
  {
    hide MapsTracked, AgentsTracked, PromptsTracked, BarriersTracked, AllSent;
  }

  lemma DeliverFaithful(g: Graph, c: Codec, ans: Workers, d: Snapshot, id: StageId, answer: Result<string, string>,
                        spawned: seq<Stage>, taken: nat)
    requires Plan(g) && Inv(g, d, {}, {}) && d.ready == [] && id in d.inFlight && d.state.Running? && d.started
    requires Regular(g, c, d, spawned, taken) && AllFaithful(c, ans, d, spawned)
    requires answer == ans(id, Newest(spawned, id))
    ensures var s := Deliver(c, d, id, answer);
            Alive(s.dag) && Flying(g, s.dag.graph, s.dag.inFlight) ==>
              AllFaithful(c, ans, s.dag, spawned + Spawns(s.advance))
  {
    hide Plan, Inv, Regular, Accept, RetryStage, SchemaError, Deliver, Newest, AllFaithful, Flying;
    InFlightFacts(g, d, id);
    match Verdict(c, d, id, answer)
    case Fits =>
      DeliverFits(c, d, id, answer);
      AcceptFaithful(g, c, ans, d, id, answer.value, spawned, taken);
    case Again(error) =>
      DeliverAgain(c, d, id, answer);
      RegularParts(g, c, d, spawned, taken);
      AllFaithfulAfterRetry(g, c, ans, d, id, error, answer.value, spawned);
    case Fatal =>
      DeliverFatal(c, d, id, answer);
  }

  lemma StartFaithful(g: Graph, c: Codec, ans: Workers, d: Snapshot, spawned: seq<Stage>, taken: nat)
    requires Plan(g) && Inv(g, d, Elements(d.ready), {}) && d.state.Running? && !d.started
    requires Regular(g, c, d, spawned, taken) && AllFaithful(c, ans, d, spawned)
    ensures var s := Start(c, d);
            Alive(s.dag) && Flying(g, s.dag.graph, s.dag.inFlight) ==>
              AllFaithful(c, ans, s.dag, spawned + Spawns(s.advance))
  {
    hide Plan, Inv, Regular, Emit, StepWorks, Flying, AllFaithful;
    var d1 := d.(started := true);
    StartedIrrelevant(g, d);
    StartedRegular(g, c, d, spawned, taken);
    StartedFaithful(c, ans, d, spawned);
    RegularParts(g, c, d1, spawned, taken);
    EmitWorks(g, c, d1);
    InFlightFlies(g, d1, Elements(d1.ready), {});
    var s := Emit(c, d1);
    if Alive(s.dag) && Flying(g, s.dag.graph, s.dag.inFlight) {
      AllFaithfulAfterEmission(g, c, ans, d1, s, spawned);
    }
  }

  lemma StartedFaithful(c: Codec, ans: Workers, d: Snapshot, spawned: seq<Stage>)
    requires AllFaithful(c, ans, d, spawned)
    ensures AllFaithful(c, ans, d.(started := true), spawned)
  {
    hide SchemaError, Note, PromptsOf;
    forall id
      ensures Faithful(c, ans, d.(started := true), id, PromptsOf(spawned, id))
    {
      assert Faithful(c, ans, d, id, PromptsOf(spawned, id));
    }
  }

  ghost predicate HonestInv(c: Codec, ans: Workers, r: Run) {
    Alive(r.dag) ==> AllFaithful(c, ans, r.dag, r.spawned)
  }

  lemma AliveFlies(g: Graph, s: Step)
    requires GoodStep(g, s) && Alive(s.dag)
    ensures Flying(g, s.dag.graph, s.dag.inFlight)
  {
    hide Inv, AllComplete, Flying;
    if s.dag.state.Running? {
      InFlightFlies(g, s.dag, Elements(s.dag.ready), {});
    } else {
      InFlightFlies(g, s.dag, {}, {});
    }
  }

  lemma TakesFaithful(g: Graph, c: Codec, ans: Workers, r: Run, event: Event)
    requires Plan(g) && RunInv(g, c, r) && Takes(r.dag, event) && HonestInv(c, ans, r) && HonestEvent(ans, r, event)
    requires RunInv(g, c, After(c, r, event))
    ensures HonestInv(c, ans, After(c, r, event))
  {
    hide Plan, Inv, Deliver, AllComplete, Regular, Newest, AllFaithful, Flying;
    assert Elements(r.dag.ready) == {};
    DeliverFaithful(g, c, ans, r.dag, event.id, event.answer, r.spawned, r.taken);
    var r' := After(c, r, event);
    if Alive(r'.dag) {
      AliveFlies(g, Step(r'.dag, r'.last));
    }
  }

  lemma LaunchFaithful(g: Graph, c: Codec, ans: Workers, r: Run)
    requires Plan(g) && RunInv(g, c, r) && HonestInv(c, ans, r) && r.dag.state.Running? && !r.dag.started
    requires RunInv(g, c, After(c, r, Launching))
    ensures HonestInv(c, ans, After(c, r, Launching))
  {
    hide Plan, Inv, Start, AllComplete, Regular, AllFaithful, Flying;
    StartFaithful(g, c, ans, r.dag, r.spawned, r.taken);
    var r' := After(c, r, Launching);
    if Alive(r'.dag) {
      AliveFlies(g, Step(r'.dag, r'.last));
    }
  }

  lemma IdleFaithful(c: Codec, ans: Workers, r: Run, event: Event)
    requires Apply(c, r.dag, event) == Step(r.dag, Spawn([])) && HonestInv(c, ans, r)
    ensures HonestInv(c, ans, After(c, r, event))
  {
    hide AllFaithful, Apply, Takes;
    assert r.spawned + [] == r.spawned;
  }

  lemma EventFaithful(g: Graph, c: Codec, ans: Workers, r: Run, event: Event)
    requires Plan(g) && RunInv(g, c, r) && HonestInv(c, ans, r) && HonestEvent(ans, r, event)
    ensures HonestInv(c, ans, After(c, r, event))
  {
    hide Plan, RunInv, After, Apply, HonestInv, HonestEvent;
    EventKeepsRun(g, c, r, event);
    if Takes(r.dag, event) {
      TakesFaithful(g, c, ans, r, event);
    } else if event.Launching? && r.dag.state.Running? && !r.dag.started {
      LaunchFaithful(g, c, ans, r);
    } else if event.Stopping? && r.dag.state.Running? {
      StopKeepsRun(g, c, r);
      DeadFaithful(c, ans, After(c, r, event));
    } else {
      IdleStep(c, r.dag, event);
      IdleFaithful(c, ans, r, event);
    }
  }

  lemma DeadFaithful(c: Codec, ans: Workers, r: Run)
    requires !Alive(r.dag)
    ensures HonestInv(c, ans, r)
  {
  }

  lemma {:induction false} HonestRun(m: Graphs.StageMap, c: Codec, ans: Workers, cap: nat, events: seq<Event>)
    requires Ready(m, cap) && Honest(c, ans, Begin(m, cap), events)
    ensures HonestInv(c, ans, Play(c, Begin(m, cap), events))
    decreases |events|
  {
    hide Ready, RunInv, After, HonestEvent;
    if events == [] {
      BeginFaithful(c, ans, Begin(m, cap));
    } else {
      var front := events[..|events| - 1];
      HonestRun(m, c, ans, cap, front);
      EveryRun(m, c, cap, front);
      ReadyPlan(m, cap);
      EventFaithful(m.stage, c, ans, Play(c, Begin(m, cap), front), events[|events| - 1]);
    }
  }

  lemma BeginFaithful(c: Codec, ans: Workers, d: Snapshot)
    ensures AllFaithful(c, ans, d, [])
  {
  }

  // ----- a finished run solves its plan -----

  lemma DoneAgentSolved(g: Graph, c: Codec, ans: Workers, d: Snapshot, spawned: seq<Stage>, id: StageId)
    requires AgentsTracked(g, d.output, d.inFlight) && AllSent(g, d, spawned) && AllFaithful(c, ans, d, spawned)
    requires id in g && g[id].kind.Agent? && id in d.output && id in d.graph && d.graph[id] == g[id] && g[id].id == id
    ensures AgentSolved(g, c, ans, d.output, id)
  {
    hide Settled, SchemaError, Template.Render, Sent, Faithful, PromptsOf, Conversation;
    assert AgentTracked(g, d.output, id);
    assert Sent(g, d, id, PromptsOf(spawned, id)) && Faithful(c, ans, d, id, PromptsOf(spawned, id));
    FaithfulSettled(g, c, ans, d, id, PromptsOf(spawned, id));
  }

  lemma DoneChildSolved(g: Graph, c: Codec, ans: Workers, d: Snapshot, spawned: seq<Stage>, m: StageId, i: nat,
                        item: string)
    requires m in g && ChildTracked(g, d.graph, d.output, m, i, item)
    requires AllSent(g, d, spawned) && AllFaithful(c, ans, d, spawned)
    requires ChildId(m, i) in d.output && ChildId(m, i) !in g && g[m].id == m
    ensures ChildSolved(g, c, ans, d.output, m, i, item)
  {
    hide Settled, SchemaError, Template.Render, Sent, Faithful, PromptsOf, Conversation;
    var id := ChildId(m, i);
    assert Sent(g, d, id, PromptsOf(spawned, id)) && Faithful(c, ans, d, id, PromptsOf(spawned, id));
    FaithfulSettled(g, c, ans, d, id, PromptsOf(spawned, id));
  }

  lemma MapShape(g: Graph, d: Snapshot, w: set<StageId>, l: set<StageId>, m: StageId)
    requires Plan(g) && Inv(g, d, w, l) && m in d.maps
    ensures m in g && g[m].kind.Map? && g[m].id == m && d.maps[m] == ChildIds(m, |d.maps[m]|)
    ensures forall i :: 0 <= i < |d.maps[m]| ==>
              ChildId(m, i) in d.children && ChildId(m, i) !in g && ChildId(m, i) in d.maps[m]
  {
    hide Plan, Inv, GraphPart, ChildPart;
    InvChildren(g, d, w, l);
    ExpandedShape(g, d.graph, d.children, d.maps, d.output, d.inFlight, m);
    PlanIds(g, m);
  }

  lemma ExpandedShape(g: Graph, graph: Graph, children: map<StageId, StageId>, maps: map<StageId, seq<StageId>>,
                      output: map<StageId, string>, inFlight: set<StageId>, m: StageId)
    requires GraphPart(g, graph, children) && ChildPart(g, children, maps, output, inFlight) && m in maps
    ensures m in g && g[m].kind.Map? && maps[m] == ChildIds(m, |maps[m]|)
    ensures forall i :: 0 <= i < |maps[m]| ==>
              ChildId(m, i) in children && ChildId(m, i) !in g && ChildId(m, i) in maps[m]
  {
    forall i | 0 <= i < |maps[m]|
      ensures ChildId(m, i) in maps[m]
    {
      assert maps[m][i] == ChildId(m, i);
    }
  }

  lemma SettledMapExpanded(g: Graph, d: Snapshot, w: set<StageId>, l: set<StageId>, m: StageId)
    requires Inv(g, d, w, l) && m in g && g[m].kind.Map? && m in d.output
    ensures m in d.maps
  {
  }

  lemma DoneMapSolved(g: Graph, c: Codec, ans: Workers, d: Snapshot, spawned: seq<Stage>, m: StageId)
    requires Plan(g) && Inv(g, d, {}, {}) && m in g && g[m].kind.Map? && m in d.output
    requires Tracks(g, c, d) && AllSent(g, d, spawned) && AllFaithful(c, ans, d, spawned)
    ensures MapSolved(g, c, ans, d.output, m)
  {
    hide Plan, Inv, ChildTracked, ChildSolved, AllSent, AllFaithful, AgentsTracked, PromptsTracked, Barrier;
    SettledMapExpanded(g, d, {}, {}, m);
    MapShape(g, d, {}, {}, m);
    var n := |d.maps[m]|;
    assert MapTracked(g, c, d.graph, d.output, m, n);
    var items := Items(g, c, d.output, m).value;
    forall i | 0 <= i < n
      ensures ChildSolved(g, c, ans, d.output, m, i, items[i])
    {
      assert d.maps[m][i] == ChildId(m, i);
      DoneChildSolved(g, c, ans, d, spawned, m, i, items[i]);
    }
  }

  lemma DoneKeys(g: Graph, c: Codec, d: Snapshot, id: StageId)
    requires Plan(g) && Inv(g, d, {}, {}) && MapsTracked(g, c, d.graph, d.output, d.maps)
    requires id in d.output && id !in g
    ensures IsChild(g, c, d.output, id)
  {
    hide Plan, Inv;
    OutputKnown(g, d, {}, {}, id);
    var m := d.children[id];
    MapShape(g, d, {}, {}, m);
    assert MapTracked(g, c, d.graph, d.output, m, |d.maps[m]|);
    var i :| 0 <= i < |d.maps[m]| && d.maps[m][i] == id;
    assert IsChildOf(g, c, d.output, m, i, id);
  }

  lemma OutputKnown(g: Graph, d: Snapshot, w: set<StageId>, l: set<StageId>, id: StageId)
    requires Inv(g, d, w, l) && id in d.output && id !in g
    ensures id in d.children && d.children[id] in d.maps && id in d.maps[d.children[id]]
  {
  }

  lemma StaticStage(g: Graph, d: Snapshot, w: set<StageId>, l: set<StageId>, id: StageId)
    requires Plan(g) && Inv(g, d, w, l) && id in g
    ensures id in d.graph && d.graph[id] == g[id] && g[id].id == id
  {
  }

  /** The outputs of an honest run that is done solve the plan. */
  lemma DoneSolves(g: Graph, c: Codec, ans: Workers, d: Snapshot, spawned: seq<Stage>)
    requires Plan(g) && Inv(g, d, {}, {}) && AllComplete(g, d)
    requires Tracks(g, c, d) && AllSent(g, d, spawned) && AllFaithful(c, ans, d, spawned)
    ensures Solves(g, c, ans, d.output)
  {
    hide Plan, Inv, MapsTracked, PromptsTracked, BarriersTracked, AgentsTracked, AllSent, AllFaithful,
         AgentSolved, MapSolved, IsChild;
    forall id | id in g && g[id].kind.Agent?
      ensures AgentSolved(g, c, ans, d.output, id)
    {
      StaticStage(g, d, {}, {}, id);
      DoneAgentSolved(g, c, ans, d, spawned, id);
    }
    forall id | id in g && g[id].kind.Map?
      ensures MapSolved(g, c, ans, d.output, id)
    {
      DoneMapSolved(g, c, ans, d, spawned, id);
    }
    forall id | id in d.output && id !in g
      ensures IsChild(g, c, d.output, id)
    {
      DoneKeys(g, c, d, id);
    }
  }

  // ----- a solution is what every honest run follows -----

  ghost predicate AgentsFollow(g: Graph, f: map<StageId, string>, output: map<StageId, string>) {
    forall id :: id in output && !(id in g && g[id].kind.Map?) ==> id in f && f[id] == output[id]
  }

  lemma GatherSame(ids: seq<StageId>, a: map<StageId, string>, b: map<StageId, string>)
    requires AllIn(ids, a) && AllIn(ids, b)
    requires forall i :: 0 <= i < |ids| ==> a[ids[i]] == b[ids[i]]
    ensures Gather(ids, a) == Gather(ids, b)
  {
  }

  lemma BarrierSame(c: Codec, ids: seq<StageId>, a: map<StageId, string>, b: map<StageId, string>)
    requires AllIn(ids, a) && AllIn(ids, b)
    requires forall i :: 0 <= i < |ids| ==> a[ids[i]] == b[ids[i]]
    ensures Barrier(c, ids, a) == Barrier(c, ids, b)
  {
    GatherSame(ids, a, b);
  }

  /** The number of children of a map is that of the solution. */
  lemma SameItems(g: Graph, c: Codec, ans: Workers, f: map<StageId, string>, d: Snapshot, m: StageId)
    requires m in g && g[m].kind.Map? && Solves(g, c, ans, f) && m in d.maps
             && MapsTracked(g, c, d.graph, d.output, d.maps)
    requires g[m].over.Some? && g[m].over.value in f && g[m].over.value in d.output
    requires f[g[m].over.value] == d.output[g[m].over.value]
    ensures HasItems(g, f, m) && HasItems(g, d.output, m) && Items(g, c, f, m) == Items(g, c, d.output, m)
    ensures Items(g, c, f, m).Ok? && |Items(g, c, f, m).value| == |d.maps[m]|
  {
    hide AgentSolved, ChildSolved, ChildTracked, IsChild, Barrier;
    assert MapTracked(g, c, d.graph, d.output, m, |d.maps[m]|);
    assert MapSolved(g, c, ans, f, m);
  }

  lemma SourceOfMap(g: Graph, c: Codec, d: Snapshot, m: StageId)
    requires Plan(g) && m in d.maps && MapsTracked(g, c, d.graph, d.output, d.maps)
    ensures m in g && g[m].over.Some? && g[m].over.value in g[m].needs && g[m].over.value in d.output
            && g[m].over.value in g
  {
    assert MapTracked(g, c, d.graph, d.output, m, |d.maps[m]|);
  }

  lemma {:induction false} MapFollows(g: Graph, c: Codec, ans: Workers, f: map<StageId, string>, d: Snapshot,
                                      w: set<StageId>, l: set<StageId>, m: StageId)
    requires Plan(g) && Inv(g, d, w, l) && Tracks(g, c, d) && Solves(g, c, ans, f) && AgentsFollow(g, f, d.output)
    requires m in g && g[m].kind.Map? && m in d.output
    ensures m in f && f[m] == d.output[m]
    decreases Above(g, m)
  {
    hide Plan, Inv, AgentsTracked, PromptsTracked, AgentSolved, ChildSolved, IsChild, Above, Solves, MapsTracked,
         Barrier, ChildIds;
    SettledMapExpanded(g, d, w, l, m);
    MapShape(g, d, w, l, m);
    SourceOfMap(g, c, d, m);
    var source := g[m].over.value;
    AboveShrinks(g, m, source);
    if g[source].kind.Map? {
      MapFollows(g, c, ans, f, d, w, l, source);
    }
    SameItems(g, c, ans, f, d, m);
    SolvedMap(g, c, ans, f, m, |d.maps[m]|);
    ChildrenFollow(g, f, d, m);
    BarrierSame(c, d.maps[m], d.output, f);
  }

  lemma SolvedMap(g: Graph, c: Codec, ans: Workers, f: map<StageId, string>, m: StageId, n: nat)
    requires m in g && g[m].kind.Map? && Solves(g, c, ans, f)
    requires HasItems(g, f, m) && Items(g, c, f, m).Ok? && |Items(g, c, f, m).value| == n
    ensures m in f && AllIn(ChildIds(m, n), f) && f[m] == Barrier(c, ChildIds(m, n), f)
  {
    hide AgentSolved, ChildSolved, IsChild, Barrier;
    assert MapSolved(g, c, ans, f, m);
  }

  lemma ChildrenFollow(g: Graph, f: map<StageId, string>, d: Snapshot, m: StageId)
    requires m in d.maps && AllIn(d.maps[m], d.output) && AgentsFollow(g, f, d.output)
    requires d.maps[m] == ChildIds(m, |d.maps[m]|)
    requires forall i :: 0 <= i < |d.maps[m]| ==> ChildId(m, i) !in g
    ensures forall i :: 0 <= i < |d.maps[m]| ==> d.maps[m][i] in f && f[d.maps[m][i]] == d.output[d.maps[m][i]]
  {
    forall i | 0 <= i < |d.maps[m]|
      ensures d.maps[m][i] in f && f[d.maps[m][i]] == d.output[d.maps[m][i]]
    {
      assert d.maps[m][i] == ChildId(m, i);
    }
  }

  lemma AllFollow(g: Graph, c: Codec, ans: Workers, f: map<StageId, string>, d: Snapshot, w: set<StageId>,
                  l: set<StageId>)
    requires Plan(g) && Inv(g, d, w, l) && Tracks(g, c, d) && Solves(g, c, ans, f) && AgentsFollow(g, f, d.output)
    ensures Extends(d.output, f)
  {
    hide Plan, Inv, Tracks, Solves;
    forall id | id in d.output
      ensures id in f && f[id] == d.output[id]
    {
      if id in g && g[id].kind.Map? {
        MapFollows(g, c, ans, f, d, w, l, id);
      }
    }
  }

  // ----- under a solution nothing fails -----

  lemma SolutionSize(g: Graph, c: Codec, ans: Workers, f: map<StageId, string>, d: Snapshot, w: set<StageId>,
                     l: set<StageId>)
    requires Plan(g) && Inv(g, d, w, l) && Tracks(g, c, d) && Solves(g, c, ans, f) && Extends(d.output, f)
    ensures d.graph.Keys <= f.Keys
  {
    hide Plan, Inv, AgentsTracked, PromptsTracked, BarriersTracked, Solves, MapsTracked;
    forall id | id in d.graph
      ensures id in f
    {
      if id in g {
        SolvedKeys(g, c, ans, f, id);
      } else {
        GraphChild(g, d, w, l, id);
        var m := d.children[id];
        MapShape(g, d, w, l, m);
        SourceOfMap(g, c, d, m);
        SameItems(g, c, ans, f, d, m);
        SolvedMap(g, c, ans, f, m, |d.maps[m]|);
        var i :| 0 <= i < |d.maps[m]| && d.maps[m][i] == id;
        assert ChildIds(m, |d.maps[m]|)[i] in f;
      }
    }
  }

  lemma GraphChild(g: Graph, d: Snapshot, w: set<StageId>, l: set<StageId>, id: StageId)
    requires Inv(g, d, w, l) && id in d.graph && id !in g
    ensures id in d.children && d.children[id] in d.maps && id in d.maps[d.children[id]]
  {
  }

  lemma SolvedKeys(g: Graph, c: Codec, ans: Workers, f: map<StageId, string>, id: StageId)
    requires Solves(g, c, ans, f) && id in g
    ensures id in f
  {
    hide IsChild, ChildSolved, Barrier, Settled, Template.Render;
    assert g[id].kind.Agent? ==> AgentSolved(g, c, ans, f, id);
    assert g[id].kind.Map? ==> MapSolved(g, c, ans, f, id);
  }

  lemma NewIds(g: Graph, d: Snapshot, f: map<StageId, string>, m: StageId, n: nat)
    requires Graphs.ValidId(m) && Unused(g, d, m, n) && AllIn(ChildIds(m, n), f) && d.graph.Keys <= f.Keys
    ensures |d.graph| + n <= |f|
  {
    ChildIdsDistinct(m, n);
    DistinctCount(ChildIds(m, n));
    var new_ := Elements(ChildIds(m, n));
    assert |d.graph.Keys + new_| == |d.graph.Keys| + |new_|;
    assert forall x :: x in new_ ==> x in f;
    SubsetSize(d.graph.Keys + new_, f.Keys);
  }

  lemma EmitMapFits(g: Graph, c: Codec, ans: Workers, f: map<StageId, string>, d: Snapshot,
                    w: set<StageId>, l: set<StageId>, id: StageId)
    requires Plan(g) && Inv(g, d, w, l) && Tracks(g, c, d) && id in w && id in g && g[id].kind.Map?
    requires Solves(g, c, ans, f) && Extends(d.output, f) && |f| <= d.cap
    ensures EmitMap(c, d, g[id]).failure.None?
  {
    hide Plan, Inv, Tracks, Solves, AddChildren, Unused, ItemsRender, AllIn;
    SourceAvailable(g, d, w, l, id);
    SourceIsStatic(g, d, w, l, g[id].over.value);
    WaitingIsIdle(g, d, w, l, id);
    var source := g[id].over.value;
    SolvedItems(g, c, ans, f, id);
    var items := MapItems(c, d, g[id]).value;
    SolvedMap(g, c, ans, f, id, |items|);
    WaitingUnused(g, d, w, l, id, |items|);
    SolutionSize(g, c, ans, f, d, w, l);
    NewIds(g, d, f, id, |items|);
    var d1 := d.(degraded := d.degraded || items == []);
    DegradedIrrelevant(g, d, w, l, d1.degraded);
    WaitingItemsRender(g, d1, w, l, id, items);
    AddChildrenFrame(d1, g[id], items, |items|);
  }

  lemma SolvedItems(g: Graph, c: Codec, ans: Workers, f: map<StageId, string>, m: StageId)
    requires Solves(g, c, ans, f) && m in g && g[m].kind.Map?
    ensures HasItems(g, f, m) && Items(g, c, f, m).Ok?
  {
    hide AgentSolved, ChildSolved, IsChild, Barrier;
    assert MapSolved(g, c, ans, f, m);
  }

  lemma EmitOneFits(g: Graph, c: Codec, ans: Workers, f: map<StageId, string>, d: Snapshot,
                    w: set<StageId>, l: set<StageId>, id: StageId)
    requires Plan(g) && Inv(g, d, w, l) && Tracks(g, c, d) && id in w && id !in d.ready
    requires Solves(g, c, ans, f) && Extends(d.output, f) && |f| <= d.cap
    ensures EmitOne(c, d, id).failure.None?
  {
    hide Plan, Inv, Tracks, Solves, Extends, EmitMap, EmitAgent;
    WaitingIsIdle(g, d, w, l, id);
    if g[id].kind.Map? {
      EmitMapFits(g, c, ans, f, d, w, l, id);
    } else {
      EmitAgentKeepsInv(g, d, w, l, id);
    }
  }

  lemma {:induction false} EmitIdsFits(g: Graph, c: Codec, ans: Workers, f: map<StageId, string>, d: Snapshot,
                                       ids: seq<StageId>, n: nat)
    requires Plan(g) && n <= |ids| && Distinct(ids)
    requires Inv(g, d, Elements(ids), {}) && d.ready == [] && Tracks(g, c, d)
    requires Solves(g, c, ans, f) && Extends(d.output, f) && |f| <= d.cap
    ensures EmitIds(c, d, ids, n).failure.None?
    decreases n
  {
    hide Plan, Inv, Tracks, Works, EmitOne, Distinct, Solves, Extends;
    if n > 0 {
      EmitIdsFits(g, c, ans, f, d, ids, n - 1);
      EmitIdsWorks(g, c, d, ids, n - 1);
      EmitIdsEmitted(g, c, d, ids, n - 1);
      EmitIdsSameRun(c, d, ids, n - 1);
      var e := EmitIds(c, d, ids, n - 1);
      TakeNext(ids, n);
      WorksTracks(g, c, d, e);
      EmitOneFits(g, c, ans, f, e.dag, Elements(ids[n - 1..]), Elements(e.empty), ids[n - 1]);
    }
  }

  lemma BarriersFollow(g: Graph, f: map<StageId, string>, a: map<StageId, string>, b: map<StageId, string>)
    requires Extends(a, f) && Extends(a, b) && OnlyBarriers(g, a, b)
    ensures AgentsFollow(g, f, b)
  {
  }

  lemma WorksOutputs(g: Graph, c: Codec, d: Snapshot, e: Emission)
    requires Works(g, c, d, e)
    ensures Extends(d.output, e.dag.output) && OnlyBarriers(g, d.output, e.dag.output) && Tracks(g, c, e.dag)
  {
    hide Tracks, Spawned;
  }

  lemma EmitWaveFits(g: Graph, c: Codec, ans: Workers, f: map<StageId, string>, d: Snapshot)
    requires Plan(g) && Inv(g, d, Elements(d.ready), {}) && Tracks(g, c, d)
    requires Solves(g, c, ans, f) && Extends(d.output, f) && |f| <= d.cap
    ensures var e := EmitWave(c, d); e.failure.None? && Tracks(g, c, e.dag) && Extends(e.dag.output, f)
  {
    hide Plan, Inv, Tracks, Works, EmitIds, SettleEmpty, Solves, Extends, OnlyBarriers;
    TakeReady(g, d);
    ReadyTracks(g, c, d);
    var d1 := d.(ready := []);
    WorksTracks(g, c, d, Emission(d1, [], [], None));
    EmitIdsFits(g, c, ans, f, d1, d.ready, |d.ready|);
    EmitWaveWorks(g, c, d);
    WaveKeepsInv(g, c, d);
    var e := EmitWave(c, d);
    WorksOutputs(g, c, d, e.(empty := []));
    BarriersFollow(g, f, d.output, e.dag.output);
    AllFollow(g, c, ans, f, e.dag, Elements(e.dag.ready), {});
  }

  lemma {:induction false} EmitWavesFits(g: Graph, c: Codec, ans: Workers, f: map<StageId, string>, d: Snapshot,
                                         spawned: seq<Stage>)
    requires Plan(g) && Inv(g, d, Elements(d.ready), {}) && Tracks(g, c, d)
    requires Solves(g, c, ans, f) && Extends(d.output, f) && |f| <= d.cap
    ensures EmitWaves(c, d, spawned).failure.None?
    decreases |d.pending|
  {
    hide Plan, Inv, Tracks, EmitWave, Solves, Extends;
    if d.ready != [] {
      EmitWaveFits(g, c, ans, f, d);
      WaveKeepsInv(g, c, d);
      EmitWaveSameRun(c, d);
      var e := EmitWave(c, d);
      if e.dag.ready != [] {
        EmitWavesFits(g, c, ans, f, e.dag, spawned + e.spawned);
      }
    }
  }

  lemma EmitFits(g: Graph, c: Codec, ans: Workers, f: map<StageId, string>, d: Snapshot)
    requires Plan(g) && Inv(g, d, Elements(d.ready), {}) && Tracks(g, c, d) && d.state.Running? && d.started
    requires Solves(g, c, ans, f) && Extends(d.output, f) && |f| <= d.cap
    ensures Alive(Emit(c, d).dag)
    ensures AgentsFollow(g, f, Emit(c, d).dag.output)
  {
    hide Plan, Inv, Tracks, EmitWaves, Solves, Extends, OnlyBarriers, GoodStep, Works;
    EmitWavesFits(g, c, ans, f, d, []);
    EmitWavesSameRun(c, d, []);
    EmitGood(g, c, d);
    EmitWorks(g, c, d);
    var s := Emit(c, d);
    assert !EmitWaves(c, d, []).failure.Some?;
    NotFailed(c, d);
    WorksOutputs(g, c, d, Emission(s.dag, Spawns(s.advance), [], None));
    BarriersFollow(g, f, d.output, s.dag.output);
  }

  lemma NotFailed(c: Codec, d: Snapshot)
    requires EmitWaves(c, d, []).failure.None? && d.state.Running?
    ensures !Emit(c, d).dag.state.Failed?
  {
    hide EmitWaves, Finish;
    EmitWavesSameRun(c, d, []);
    FinishFields(EmitWaves(c, d, []).dag, Done, None);
  }

  // answers under a solution

  lemma AwaitedAgent(g: Graph, c: Codec, ans: Workers, f: map<StageId, string>, d: Snapshot, id: StageId)
    requires AgentsTracked(g, d.output, d.inFlight) && Extends(d.output, f) && Solves(g, c, ans, f)
    requires id in g && g[id].kind.Agent? && id in d.inFlight
    ensures id in f && Settled(c, ans, g[id], Asked(g, d.graph, d.output, id)) == Some(f[id])
  {
    hide Settled, Template.Render, IsChild, MapSolved;
    assert AgentTracked(g, d.output, id);
    assert AgentSolved(g, c, ans, f, id);
    Template.RenderExtends(g[id].prompt, d.output, f, None);
  }

  lemma AwaitedChild(g: Graph, c: Codec, ans: Workers, f: map<StageId, string>, d: Snapshot, m: StageId, i: nat)
    requires Plan(g) && MapsTracked(g, c, d.graph, d.output, d.maps) && Extends(d.output, f) && Solves(g, c, ans, f)
    requires m in d.maps && m in g && g[m].kind.Map? && i < |d.maps[m]| && ChildId(m, i) !in g
    ensures var ch := ChildId(m, i);
            ch in d.graph && ch in f && Settled(c, ans, d.graph[ch], Asked(g, d.graph, d.output, ch)) == Some(f[ch])
  {
    hide Plan, Settled, Template.Render, IsChild, AgentSolved, Barrier;
    SourceOfMap(g, c, d, m);
    SameItems(g, c, ans, f, d, m);
    assert MapTracked(g, c, d.graph, d.output, m, |d.maps[m]|);
    assert MapSolved(g, c, ans, f, m);
    var item := Items(g, c, f, m).value[i];
    assert ChildTracked(g, d.graph, d.output, m, i, item);
    assert ChildSolved(g, c, ans, f, m, i, item);
    Template.RenderExtends(g[m].prompt, d.output, f, Some(item));
  }

  /** The awaited prompt settles to what the solution says. */
  lemma AwaitedSettles(g: Graph, c: Codec, ans: Workers, f: map<StageId, string>, d: Snapshot, id: StageId)
    requires Plan(g) && Inv(g, d, {}, {}) && Tracks(g, c, d) && Extends(d.output, f) && Solves(g, c, ans, f)
    requires id in d.inFlight
    ensures id in d.graph && id in f && Settled(c, ans, d.graph[id], Asked(g, d.graph, d.output, id)) == Some(f[id])
  {
    hide Plan, Inv, Settled, Asked, Solves, Extends, MapsTracked, AgentsTracked, PromptsTracked, BarriersTracked;
    InFlightFacts(g, d, id);
    if id in g {
      StaticStage(g, d, {}, {}, id);
      AwaitedAgent(g, c, ans, f, d, id);
    } else {
      GraphChild(g, d, {}, {}, id);
      var m := d.children[id];
      MapShape(g, d, {}, {}, m);
      var i :| 0 <= i < |d.maps[m]| && d.maps[m][i] == id;
      assert id == ChildId(m, i);
      AwaitedChild(g, c, ans, f, d, m, i);
    }
  }

  /** So an honest answer is either right or asked for once more. */
  lemma HonestVerdict(g: Graph, c: Codec, ans: Workers, d: Snapshot, id: StageId, answer: Result<string, string>,
                      prompts: seq<string>, right: string)
    requires Sent(g, d, id, prompts) && Faithful(c, ans, d, id, prompts) && id in d.inFlight && id in d.graph
    requires d.graph[id].id == id
    requires Settled(c, ans, d.graph[id], Asked(g, d.graph, d.output, id)) == Some(right)
    requires prompts != [] ==> answer == ans(id, prompts[|prompts| - 1])
    ensures var verdict := Verdict(c, d, id, answer);
            && !verdict.Fatal?
            && (verdict.Fits? ==> answer == Ok(right))
  {
    hide Asked, SchemaError, RetryNote, Retried;
  }

  lemma TakenRight(g: Graph, f: map<StageId, string>, d: Snapshot, d1: Snapshot, c: Codec, id: StageId, answer: string)
    requires Extends(d.output, f) && Absorption(g, c, d, d1, id, answer) && id in f && answer == f[id]
             && id !in d.output
    ensures AgentsFollow(g, f, d1.output)
  {
    hide Tracks;
  }

  lemma AcceptFollows(g: Graph, c: Codec, ans: Workers, f: map<StageId, string>, d: Snapshot, id: StageId,
                      answer: string)
    requires Plan(g) && Inv(g, d, {}, {}) && d.ready == [] && id in d.inFlight && d.state.Running? && d.started
    requires Tracks(g, c, d) && Solves(g, c, ans, f) && Extends(d.output, f) && |f| <= d.cap
    requires id in f && answer == f[id]
    ensures var s := Accept(c, d.(inFlight := d.inFlight - {id}), id, answer);
            Alive(s.dag) && AgentsFollow(g, f, s.dag.output)
  {
    hide Plan, Inv, Tracks, Emit, Settle, SettleParent, Absorption, Solves, Extends, AgentsFollow;
    InFlightFacts(g, d, id);
    Absorbed(g, c, d, id, answer);
    AbsorbSameRun(c, d, id, answer);
    AbsorbWorks(g, c, d, id, answer);
    var d1 := Absorb(c, d, id, answer).value;
    AbsorptionTracks(g, c, d, d1, id, answer);
    TakenRight(g, f, d, d1, c, id, answer);
    AllFollow(g, c, ans, f, d1, Elements(d1.ready), {});
    EmitFits(g, c, ans, f, d1);
  }

  lemma AbsorptionTracks(g: Graph, c: Codec, d: Snapshot, d': Snapshot, id: StageId, answer: string)
    requires Absorption(g, c, d, d', id, answer)
    ensures Tracks(g, c, d')
  {
    hide Tracks;
  }

  lemma DeliverFollows(g: Graph, c: Codec, ans: Workers, f: map<StageId, string>, d: Snapshot, id: StageId,
                       answer: Result<string, string>, spawned: seq<Stage>)
    requires Plan(g) && Inv(g, d, {}, {}) && d.ready == [] && id in d.inFlight && d.state.Running? && d.started
    requires Tracks(g, c, d) && AllSent(g, d, spawned) && AllFaithful(c, ans, d, spawned)
    requires Solves(g, c, ans, f) && AgentsFollow(g, f, d.output) && |f| <= d.cap
    requires answer == ans(id, Newest(spawned, id))
    ensures var s := Deliver(c, d, id, answer); Alive(s.dag) && AgentsFollow(g, f, s.dag.output)
  {
    hide Plan, Inv, Tracks, Accept, RetryStage, SchemaError, Deliver, Solves, Extends, Sent, Faithful, PromptsOf,
         Settled, Asked, AgentsFollow, Verdict;
    InFlightFacts(g, d, id);
    AllFollow(g, c, ans, f, d, {}, {});
    AwaitedSettles(g, c, ans, f, d, id);
    var prompts := PromptsOf(spawned, id);
    assert Sent(g, d, id, prompts) && Faithful(c, ans, d, id, prompts);
    HonestVerdict(g, c, ans, d, id, answer, prompts, f[id]);
    if Verdict(c, d, id, answer).Fits? {
      DeliverFits(c, d, id, answer);
      AcceptFollows(g, c, ans, f, d, id, f[id]);
    } else {
      DeliverAgain(c, d, id, answer);
    }
  }

  lemma StartFollows(g: Graph, c: Codec, ans: Workers, f: map<StageId, string>, d: Snapshot)
    requires Plan(g) && Inv(g, d, Elements(d.ready), {}) && d.state.Running? && !d.started
    requires Tracks(g, c, d) && Solves(g, c, ans, f) && AgentsFollow(g, f, d.output) && |f| <= d.cap
    ensures var s := Start(c, d); Alive(s.dag) && AgentsFollow(g, f, s.dag.output)
  {
    hide Plan, Inv, Emit, Tracks, Solves, Extends, AgentsFollow;
    var d1 := d.(started := true);
    StartedIrrelevant(g, d);
    StartedTracks(g, c, d);
    AllFollow(g, c, ans, f, d1, Elements(d1.ready), {});
    EmitFits(g, c, ans, f, d1);
  }

  lemma StartedTracks(g: Graph, c: Codec, d: Snapshot)
    requires Tracks(g, c, d)
    ensures Tracks(g, c, d.(started := true))
  {
  }

  /** The run has not failed, and what it has agrees with the solution. */
  ghost predicate Follows(g: Graph, f: map<StageId, string>, r: Run) {
    && !r.dag.state.Failed?
    && (Alive(r.dag) ==> AgentsFollow(g, f, r.dag.output))
  }

  lemma TakesFollows(g: Graph, c: Codec, ans: Workers, f: map<StageId, string>, r: Run, event: Event)
    requires Plan(g) && RunInv(g, c, r) && Takes(r.dag, event) && HonestInv(c, ans, r) && HonestEvent(ans, r, event)
    requires Solves(g, c, ans, f) && |f| <= r.dag.cap && Follows(g, f, r)
    ensures Follows(g, f, After(c, r, event))
  {
    hide Plan, Inv, Deliver, AllComplete, Newest, AllFaithful, AllSent, Tracks, Solves, AgentsFollow, AtMostTwice;
    assert Elements(r.dag.ready) == {};
    DeliverFollows(g, c, ans, f, r.dag, event.id, event.answer, r.spawned);
  }

  lemma LaunchFollows(g: Graph, c: Codec, ans: Workers, f: map<StageId, string>, r: Run)
    requires Plan(g) && RunInv(g, c, r) && r.dag.state.Running? && !r.dag.started
    requires Solves(g, c, ans, f) && |f| <= r.dag.cap && Follows(g, f, r)
    ensures Follows(g, f, After(c, r, Launching))
  {
    hide Plan, Inv, Start, AllComplete, AllSent, Tracks, Solves, AgentsFollow, AtMostTwice;
    StartFollows(g, c, ans, f, r.dag);
  }

  lemma StopFollows(g: Graph, c: Codec, f: map<StageId, string>, r: Run)
    requires r.dag.state.Running?
    ensures Follows(g, f, After(c, r, Stopping))
  {
    hide Closed, SinkOutputs, AgentsFollow;
  }

  lemma EventFollows(g: Graph, c: Codec, ans: Workers, f: map<StageId, string>, r: Run, event: Event)
    requires Plan(g) && RunInv(g, c, r) && HonestInv(c, ans, r) && HonestEvent(ans, r, event)
    requires Solves(g, c, ans, f) && |f| <= r.dag.cap && Follows(g, f, r)
    ensures Follows(g, f, After(c, r, event))
  {
    hide Plan, RunInv, Apply, HonestInv, HonestEvent, Solves, AgentsFollow;
    if Takes(r.dag, event) {
      TakesFollows(g, c, ans, f, r, event);
    } else if event.Launching? && r.dag.state.Running? && !r.dag.started {
      LaunchFollows(g, c, ans, f, r);
    } else if event.Stopping? && r.dag.state.Running? {
      StopFollows(g, c, f, r);
    } else {
      IdleStep(c, r.dag, event);
    }
  }

  lemma {:induction false} RunFollows(m: Graphs.StageMap, c: Codec, ans: Workers, f: map<StageId, string>, cap: nat,
                                      events: seq<Event>)
    requires Ready(m, cap) && Honest(c, ans, Begin(m, cap), events)
    requires Solves(m.stage, c, ans, f) && |f| <= cap
    ensures Follows(m.stage, f, Play(c, Begin(m, cap), events))
    ensures Play(c, Begin(m, cap), events).dag.cap == cap
    decreases |events|
  {
    hide Ready, RunInv, Apply, HonestEvent, Solves, HonestInv;
    if events != [] {
      var front := events[..|events| - 1];
      RunFollows(m, c, ans, f, cap, front);
      EveryRun(m, c, cap, front);
      HonestRun(m, c, ans, cap, front);
      ReadyPlan(m, cap);
      EventFollows(m.stage, c, ans, f, Play(c, Begin(m, cap), front), events[|events| - 1]);
      CapKept(m.stage, c, Play(c, Begin(m, cap), front), events[|events| - 1]);
    }
  }

  lemma CapKept(g: Graph, c: Codec, r: Run, event: Event)
    requires Plan(g) && RunInv(g, c, r)
    ensures After(c, r, event).dag.cap == r.dag.cap
  {
    hide Plan, Inv, Deliver, Start, Closed, SinkOutputs, AllComplete, Regular, AtMostTwice;
    EventKeepsRun(g, c, r, event);
    if Takes(r.dag, event) {
      assert Elements(r.dag.ready) == {};
      DeliverQuiet(g, c, r.dag, event.id, event.answer);
    } else if event.Launching? && r.dag.state.Running? && !r.dag.started {
      StartQuiet(g, c, r.dag);
    } else if event.Launching? || event.Answering? {
      IdleStep(c, r.dag, event);
    }
  }

  // ----- confluence -----

  ghost predicate Finishes(g: Graph, c: Codec, ans: Workers, r: Run) {
    RunInv(g, c, r) && HonestInv(c, ans, r) && r.dag.state.Done?
  }

  lemma FinishedFacts(g: Graph, c: Codec, ans: Workers, r: Run)
    requires Finishes(g, c, ans, r)
    ensures AllComplete(g, r.dag) && Inv(g, r.dag, {}, {}) && Tracks(g, c, r.dag) && AllSent(g, r.dag, r.spawned)
    ensures AllFaithful(c, ans, r.dag, r.spawned)
  {
    hide Inv, Tracks, AllSent, AllFaithful, AllComplete, Accounted, AtMostTwice, Sound;
  }

  /** The entry of a child follows from the outputs. */
  lemma SameChildStage(g: Graph, c: Codec, d: Snapshot, e: Snapshot, id: StageId)
    requires Plan(g) && Inv(g, d, {}, {}) && Inv(g, e, {}, {}) && d.output == e.output && id in d.output && id !in g
    requires MapsTracked(g, c, d.graph, d.output, d.maps) && MapsTracked(g, c, e.graph, e.output, e.maps)
    ensures id in d.graph && id in e.graph && d.graph[id] == e.graph[id]
  {
    hide Plan, Inv, ChildIds, Template.Render;
    OutputKnown(g, d, {}, {}, id);
    OutputKnown(g, e, {}, {}, id);
    var m, k := d.children[id], e.children[id];
    MapShape(g, d, {}, {}, m);
    MapShape(g, e, {}, {}, k);
    var i :| 0 <= i < |d.maps[m]| && d.maps[m][i] == id;
    var j :| 0 <= j < |e.maps[k]| && e.maps[k][j] == id;
    ChildAt(m, |d.maps[m]|, i);
    ChildAt(k, |e.maps[k]|, j);
    PlanIds(g, m);
    PlanIds(g, k);
    ChildIdInjective(m, i, k, j);
    assert MapTracked(g, c, d.graph, d.output, m, |d.maps[m]|);
    assert MapTracked(g, c, e.graph, e.output, m, |e.maps[m]|);
    var item := Items(g, c, d.output, m).value[i];
    assert ChildTracked(g, d.graph, d.output, m, i, item);
    assert ChildTracked(g, e.graph, e.output, m, i, item);
  }

  lemma ChildAt(m: StageId, n: nat, i: nat)
    requires i < n
    ensures ChildIds(m, n)[i] == ChildId(m, i)
  {
  }

  lemma SameStage(g: Graph, c: Codec, d: Snapshot, e: Snapshot, id: StageId)
    requires Plan(g) && Inv(g, d, {}, {}) && Inv(g, e, {}, {}) && d.output == e.output && id in d.output
    requires Tracks(g, c, d) && Tracks(g, c, e)
    ensures id in d.graph && id in e.graph && d.graph[id] == e.graph[id] && d.graph[id].id == id
    ensures Asked(g, d.graph, d.output, id) == Asked(g, e.graph, e.output, id)
  {
    hide Plan, Inv, MapsTracked, AgentsTracked, PromptsTracked, BarriersTracked, Template.Render;
    if id in g {
      StaticStage(g, d, {}, {}, id);
      StaticStage(g, e, {}, {}, id);
    } else {
      SameChildStage(g, c, d, e, id);
      OutputNamed(g, d, {}, {}, id);
    }
  }

  lemma OutputNamed(g: Graph, d: Snapshot, w: set<StageId>, l: set<StageId>, id: StageId)
    requires Inv(g, d, w, l) && id in d.output && id !in g
    ensures id in d.graph && d.graph[id].id == id
  {
  }

  lemma SameConversation(g: Graph, c: Codec, ans: Workers, r: Run, t: Run, id: StageId)
    requires Plan(g) && Finishes(g, c, ans, r) && Finishes(g, c, ans, t) && r.dag.output == t.dag.output
    ensures PromptsOf(r.spawned, id) == PromptsOf(t.spawned, id)
  {
    hide Plan, Inv, Finishes, Tracks, PromptsOf, Sent, Faithful, Asked, AllComplete, Conversation, Settled;
    FinishedFacts(g, c, ans, r);
    FinishedFacts(g, c, ans, t);
    var a, b := PromptsOf(r.spawned, id), PromptsOf(t.spawned, id);
    assert Sent(g, r.dag, id, a) && Faithful(c, ans, r.dag, id, a);
    assert Sent(g, t.dag, id, b) && Faithful(c, ans, t.dag, id, b);
    DoneIsIdle(g, r.dag);
    DoneIsIdle(g, t.dag);
    if Launched(g, r.dag.output, {}, id) {
      SameStage(g, c, r.dag, t.dag, id);
      FaithfulSettled(g, c, ans, r.dag, id, a);
      FaithfulSettled(g, c, ans, t.dag, id, b);
    } else {
      NotSent(g, r.dag, id, a);
      NotSent(g, t.dag, id, b);
    }
  }

  lemma NotSent(g: Graph, d: Snapshot, id: StageId, prompts: seq<string>)
    requires Sent(g, d, id, prompts) && !Launched(g, d.output, d.inFlight, id)
    ensures prompts == []
  {
  }

  lemma ExtendsBoth(a: map<StageId, string>, b: map<StageId, string>)
    requires Extends(a, b) && Extends(b, a)
    ensures a == b
  {
  }

  lemma HonestFinish(m: Graphs.StageMap, c: Codec, ans: Workers, cap: nat, events: seq<Event>)
    requires Ready(m, cap) && Honest(c, ans, Begin(m, cap), events) && Play(c, Begin(m, cap), events).dag.state.Done?
    ensures var r := Play(c, Begin(m, cap), events);
            Finishes(m.stage, c, ans, r) && Solves(m.stage, c, ans, r.dag.output) && |r.dag.output| <= cap
  {
    hide Ready, Plan, RunInv, HonestInv, Solves, Inv, Tracks, AllSent, AllFaithful, AllComplete;
    var r := Play(c, Begin(m, cap), events);
    EveryRun(m, c, cap, events);
    HonestRun(m, c, ans, cap, events);
    ReadyPlan(m, cap);
    FinishedFacts(m.stage, c, ans, r);
    DoneSolves(m.stage, c, ans, r.dag, r.spawned);
    DoneSize(m.stage, r.dag);
    CapOfRun(m, c, cap, events);
  }

  lemma DoneSize(g: Graph, d: Snapshot)
    requires Inv(g, d, {}, {}) && AllComplete(g, d)
    ensures |d.output| <= d.cap
  {
    assert |d.output.Keys| == |d.graph.Keys|;
  }

  lemma {:induction false} CapOfRun(m: Graphs.StageMap, c: Codec, cap: nat, events: seq<Event>)
    requires Ready(m, cap)
    ensures Play(c, Begin(m, cap), events).dag.cap == cap
    decreases |events|
  {
    hide Ready, RunInv, After;
    if events != [] {
      var front := events[..|events| - 1];
      CapOfRun(m, c, cap, front);
      EveryRun(m, c, cap, front);
      ReadyPlan(m, cap);
      CapKept(m.stage, c, Play(c, Begin(m, cap), front), events[|events| - 1]);
    }
  }

  /** If one order of honest answers finishes the workflow, no other order
      makes it fail, every other order only ever has outputs of the first,
      and an order that also finishes has the same outputs and has sent
      every stage the same prompts in the same sequence. */
  lemma Confluent(m: Graphs.StageMap, c: Codec, ans: Workers, cap: nat, one: seq<Event>, other: seq<Event>)
    requires Ready(m, cap)
    requires Honest(c, ans, Begin(m, cap), one) && Honest(c, ans, Begin(m, cap), other)
    requires Play(c, Begin(m, cap), one).dag.state.Done?
    ensures var r, t := Play(c, Begin(m, cap), one), Play(c, Begin(m, cap), other);
            && !t.dag.state.Failed?
            && !t.dag.state.Stalled?
            && (Alive(t.dag) ==> Extends(t.dag.output, r.dag.output))
            && (t.dag.state.Done? ==>
                  && t.dag.output == r.dag.output
                  && forall id :: PromptsOf(t.spawned, id) == PromptsOf(r.spawned, id))
  {
    hide Ready, Plan, RunInv, HonestInv, Honest, Play, Solves, Extends, PromptsOf, AgentsFollow;
    var r, t := Play(c, Begin(m, cap), one), Play(c, Begin(m, cap), other);
    HonestFinish(m, c, ans, cap, one);
    RunFollows(m, c, ans, r.dag.output, cap, other);
    EveryRun(m, c, cap, other);
    ReadyPlan(m, cap);
    FollowsAll(m, c, ans, cap, r.dag.output, t);
    RunGoodState(m.stage, c, t);
    if t.dag.state.Done? {
      HonestFinish(m, c, ans, cap, other);
      RunFollows(m, c, ans, t.dag.output, cap, one);
      EveryRun(m, c, cap, one);
      FollowsAll(m, c, ans, cap, t.dag.output, r);
      ExtendsBoth(t.dag.output, r.dag.output);
      forall id
        ensures PromptsOf(t.spawned, id) == PromptsOf(r.spawned, id)
      {
        SameConversation(m.stage, c, ans, t, r, id);
      }
    }
  }

  lemma RunGoodState(g: Graph, c: Codec, r: Run)
    requires RunInv(g, c, r)
    ensures !r.dag.state.Stalled?
  {
  }

  lemma FollowsAll(m: Graphs.StageMap, c: Codec, ans: Workers, cap: nat, f: map<StageId, string>, r: Run)
    requires Plan(m.stage) && RunInv(m.stage, c, r) && Solves(m.stage, c, ans, f) && Follows(m.stage, f, r)
    ensures Alive(r.dag) ==> Extends(r.dag.output, f)
  {
    hide Plan, Inv, Solves, Extends, Tracks, AllSent, AgentsFollow, AllComplete, AtMostTwice;
    if r.dag.state.Running? {
      AllFollow(m.stage, c, ans, f, r.dag, Elements(r.dag.ready), {});
    } else if r.dag.state.Done? {
      AllFollow(m.stage, c, ans, f, r.dag, {}, {});
    }
  }

  /** A run that is done has exactly the solution of its plan, and a plan
      with a solution that fits has honest runs that never fail. */
  lemma DoneIsSolution(m: Graphs.StageMap, c: Codec, ans: Workers, f: map<StageId, string>, cap: nat,
                       events: seq<Event>)
    requires Ready(m, cap) && Honest(c, ans, Begin(m, cap), events)
    requires Solves(m.stage, c, ans, f) && |f| <= cap
    ensures var r := Play(c, Begin(m, cap), events);
            && !r.dag.state.Failed?
            && (r.dag.state.Done? ==> r.dag.output == f)
  {
    hide Ready, Plan, RunInv, HonestInv, Honest, Play, Solves, Extends, AgentsFollow;
    var r := Play(c, Begin(m, cap), events);
    RunFollows(m, c, ans, f, cap, events);
    EveryRun(m, c, cap, events);
    ReadyPlan(m, cap);
    FollowsAll(m, c, ans, cap, f, r);
    if r.dag.state.Done? {
      HonestFinish(m, c, ans, cap, events);
      SolutionKeys(m.stage, c, ans, f, r.dag.output);
      SameKeys(r.dag.output, f);
    }
  }

  lemma SameKeys(a: map<StageId, string>, b: map<StageId, string>)
    requires Extends(a, b) && b.Keys <= a.Keys
    ensures a == b
  {
  }

  /** Solutions that agree where both are defined have the same stages. */
  lemma SolutionKeys(g: Graph, c: Codec, ans: Workers, f: map<StageId, string>, h: map<StageId, string>)
    requires Solves(g, c, ans, f) && Solves(g, c, ans, h) && Extends(h, f)
    ensures f.Keys <= h.Keys
  {
    hide AgentSolved, MapSolved, Solves;
    forall id | id in f
      ensures id in h
    {
      SolvedKeysOf(g, c, ans, f, id);
      if id in g {
        SolvedKeys(g, c, ans, h, id);
      } else {
        var m, i :| IsChildOf(g, c, f, m, i, id);
        SolvedItems(g, c, ans, h, m);
        assert h[g[m].over.value] == f[g[m].over.value];
        SolvedMap(g, c, ans, h, m, |Items(g, c, h, m).value|);
        ChildAt(m, |Items(g, c, h, m).value|, i);
      }
    }
  }

  lemma SolvedKeysOf(g: Graph, c: Codec, ans: Workers, f: map<StageId, string>, id: StageId)
    requires Solves(g, c, ans, f) && id in f
    ensures id in g || IsChild(g, c, f, id)
  {
    hide AgentSolved, MapSolved, IsChild;
  }

  // ----- every complete order ends the same way -----

  lemma DeliverNotCancelled(g: Graph, c: Codec, d: Snapshot, id: StageId, answer: Result<string, string>)
    requires Plan(g) && Inv(g, d, {}, {}) && d.ready == [] && id in d.inFlight && d.state.Running? && d.started
    ensures !Deliver(c, d, id, answer).dag.state.Cancelled?
    ensures Deliver(c, d, id, answer).dag.state.Running? ==> Deliver(c, d, id, answer).dag.started
  {
    hide Plan, Inv, RetryStage, SchemaError, Deliver, Emit, Settle, SettleParent, GoodStep;
    InFlightFacts(g, d, id);
    DeliverStarted(g, c, d, id, answer);
    match Verdict(c, d, id, answer)
    case Fits =>
      DeliverFits(c, d, id, answer);
      Absorbed(g, c, d, id, answer.value);
      AbsorbSameRun(c, d, id, answer.value);
      EmitGood(g, c, Absorb(c, d, id, answer.value).value);
    case Again(error) =>
      DeliverAgain(c, d, id, answer);
    case Fatal =>
      DeliverFatal(c, d, id, answer);
  }

  lemma LaunchNotCancelled(g: Graph, c: Codec, d: Snapshot)
    requires Plan(g) && Inv(g, d, Elements(d.ready), {}) && d.state.Running? && !d.started
    ensures !Start(c, d).dag.state.Cancelled? && Start(c, d).dag.started
  {
    hide Plan, Inv, Emit, GoodStep;
    StartedIrrelevant(g, d);
    EmitGood(g, c, d.(started := true));
  }

  /** Only a stop cancels, and only a launch starts. */
  ghost predicate Underway(d: Snapshot, launched: bool) {
    !d.state.Cancelled? && (launched && d.state.Running? ==> d.started)
  }

  lemma EventUnderway(g: Graph, c: Codec, r: Run, event: Event, launched: bool)
    requires Plan(g) && RunInv(g, c, r) && !event.Stopping? && Underway(r.dag, launched)
    ensures Underway(After(c, r, event).dag, launched || event.Launching?)
  {
    hide Plan, Inv, Deliver, Start, AllComplete, Regular, AtMostTwice;
    if Takes(r.dag, event) {
      assert Elements(r.dag.ready) == {};
      DeliverNotCancelled(g, c, r.dag, event.id, event.answer);
    } else if event.Launching? && r.dag.state.Running? && !r.dag.started {
      LaunchNotCancelled(g, c, r.dag);
    } else {
      IdleStep(c, r.dag, event);
    }
  }

  lemma {:induction false} RunUnderway(m: Graphs.StageMap, c: Codec, cap: nat, events: seq<Event>)
    requires Ready(m, cap) && Stopping !in events
    ensures Underway(Play(c, Begin(m, cap), events).dag, Launching in events)
    decreases |events|
  {
    hide Ready, RunInv, After;
    if events != [] {
      var front, last := events[..|events| - 1], events[|events| - 1];
      RunUnderway(m, c, cap, front);
      EveryRun(m, c, cap, front);
      ReadyPlan(m, cap);
      EventUnderway(m.stage, c, Play(c, Begin(m, cap), front), last, Launching in front);
      assert events == front + [last];
    }
  }

  /** If one order of honest answers finishes the workflow, every other order
      that is launched and not stopped either still has work in flight or has
      finished with the same outputs. */
  lemma EveryOrderFinishes(m: Graphs.StageMap, c: Codec, ans: Workers, cap: nat, one: seq<Event>, other: seq<Event>)
    requires Ready(m, cap)
    requires Honest(c, ans, Begin(m, cap), one) && Honest(c, ans, Begin(m, cap), other)
    requires Play(c, Begin(m, cap), one).dag.state.Done?
    requires Launching in other && Stopping !in other
    ensures var r, t := Play(c, Begin(m, cap), one), Play(c, Begin(m, cap), other);
            if t.dag.inFlight == {} then t.dag.state.Done? && t.dag.output == r.dag.output else t.dag.state.Running?
  {
    hide Ready, Play, Honest, Regular, Inv, AllComplete, AtMostTwice, Extends, PromptsOf;
    Confluent(m, c, ans, cap, one, other);
    RunUnderway(m, c, cap, other);
    EveryRun(m, c, cap, other);
    var t := Play(c, Begin(m, cap), other);
    if t.dag.state.Done? {
      DoneIsIdle(m.stage, t.dag);
    }
  }

  // ----- plans without maps, workers that always answer -----

  ghost predicate AgentsOnly(g: Graph) {
    forall id :: id in g ==> g[id].kind.Agent?
  }

  /** Every worker gives an acceptable answer to whatever it is asked, at the
      latest when asked again. */
  ghost predicate AlwaysSettles(g: Graph, c: Codec, ans: Workers) {
    forall id, prompt :: id in g ==> Settled(c, ans, g[id], prompt).Some?
  }

  lemma {:induction false} EmitIdsAgents(g: Graph, c: Codec, d: Snapshot, ids: seq<StageId>, n: nat)
    requires Plan(g) && AgentsOnly(g) && n <= |ids| && Distinct(ids)
    requires Inv(g, d, Elements(ids), {}) && d.ready == []
    ensures EmitIds(c, d, ids, n).failure.None?
    decreases n
  {
    hide Plan, Inv, EmitMap, EmitAgent, Distinct;
    if n > 0 {
      EmitIdsAgents(g, c, d, ids, n - 1);
      EmitIdsEmitted(g, c, d, ids, n - 1);
      var e := EmitIds(c, d, ids, n - 1);
      TakeNext(ids, n);
      WaitingIsIdle(g, e.dag, Elements(ids[n - 1..]), Elements(e.empty), ids[n - 1]);
      EmitAgentKeepsInv(g, e.dag, Elements(ids[n - 1..]), Elements(e.empty), ids[n - 1]);
    }
  }

  lemma EmitWaveAgents(g: Graph, c: Codec, d: Snapshot)
    requires Plan(g) && AgentsOnly(g) && Inv(g, d, Elements(d.ready), {})
    ensures EmitWave(c, d).failure.None?
  {
    hide Plan, Inv, EmitIds, SettleEmpty, AgentsOnly;
    TakeReady(g, d);
    EmitIdsAgents(g, c, d.(ready := []), d.ready, |d.ready|);
  }

  lemma {:induction false} EmitWavesAgents(g: Graph, c: Codec, d: Snapshot, spawned: seq<Stage>)
    requires Plan(g) && AgentsOnly(g) && Inv(g, d, Elements(d.ready), {})
    ensures EmitWaves(c, d, spawned).failure.None?
    decreases |d.pending|
  {
    hide Plan, Inv, EmitWave, AgentsOnly;
    if d.ready != [] {
      EmitWaveAgents(g, c, d);
      WaveKeepsInv(g, c, d);
      var e := EmitWave(c, d);
      if e.dag.ready != [] {
        EmitWavesAgents(g, c, e.dag, spawned + e.spawned);
      }
    }
  }

  lemma EmitAgents(g: Graph, c: Codec, d: Snapshot)
    requires Plan(g) && AgentsOnly(g) && Inv(g, d, Elements(d.ready), {}) && d.state.Running? && d.started
    ensures Alive(Emit(c, d).dag)
  {
    hide Plan, Inv, EmitWaves, GoodStep, AgentsOnly;
    EmitWavesAgents(g, c, d, []);
    EmitGood(g, c, d);
    NotFailed(c, d);
  }

  lemma AgentStage(g: Graph, d: Snapshot, id: StageId)
    requires Plan(g) && AgentsOnly(g) && Inv(g, d, {}, {}) && id in d.inFlight
    ensures id in g
  {
    hide Plan, GraphPart, EdgesPart, CountPart, PhasePart, MapPart, StatusPart, ReadyPart;
    ChildrenNeedMaps(g, d.children, d.maps, d.output, d.inFlight);
  }

  lemma DeliverAlive(g: Graph, c: Codec, ans: Workers, d: Snapshot, id: StageId, answer: Result<string, string>,
                     spawned: seq<Stage>)
    requires Plan(g) && AgentsOnly(g) && AlwaysSettles(g, c, ans)
    requires Inv(g, d, {}, {}) && d.ready == [] && id in d.inFlight && d.state.Running? && d.started
    requires AllSent(g, d, spawned) && AllFaithful(c, ans, d, spawned)
    requires answer == ans(id, Newest(spawned, id))
    ensures Alive(Deliver(c, d, id, answer).dag)
  {
    hide Plan, Inv, AgentsOnly, Emit, Settle, SettleParent, RetryStage, SchemaError, Deliver, Sent, Faithful, PromptsOf,
         Settled, Asked, Verdict;
    AgentStage(g, d, id);
    StaticStage(g, d, {}, {}, id);
    InFlightFacts(g, d, id);
    var prompts := PromptsOf(spawned, id);
    assert Sent(g, d, id, prompts) && Faithful(c, ans, d, id, prompts);
    var right := Settled(c, ans, g[id], Asked(g, d.graph, d.output, id)).value;
    HonestVerdict(g, c, ans, d, id, answer, prompts, right);
    if Verdict(c, d, id, answer).Fits? {
      DeliverFits(c, d, id, answer);
      Absorbed(g, c, d, id, answer.value);
      AbsorbSameRun(c, d, id, answer.value);
      EmitAgents(g, c, Absorb(c, d, id, answer.value).value);
    } else {
      DeliverAgain(c, d, id, answer);
    }
  }

  lemma StartAlive(g: Graph, c: Codec, d: Snapshot)
    requires Plan(g) && AgentsOnly(g) && Inv(g, d, Elements(d.ready), {}) && d.state.Running? && !d.started
    ensures Alive(Start(c, d).dag)
  {
    hide Plan, Inv, Emit, AgentsOnly;
    StartedIrrelevant(g, d);
    EmitAgents(g, c, d.(started := true));
  }

  lemma EventAlive(g: Graph, c: Codec, ans: Workers, r: Run, event: Event)
    requires Plan(g) && AgentsOnly(g) && AlwaysSettles(g, c, ans)
    requires RunInv(g, c, r) && HonestInv(c, ans, r) && HonestEvent(ans, r, event) && Alive(r.dag) && !event.Stopping?
    ensures Alive(After(c, r, event).dag)
  {
    hide Plan, Inv, AgentsOnly, AlwaysSettles, Deliver, Start, AllComplete, Tracks, AllSent, AllFaithful, AtMostTwice,
         Newest;
    if Takes(r.dag, event) {
      assert Elements(r.dag.ready) == {};
      DeliverAlive(g, c, ans, r.dag, event.id, event.answer, r.spawned);
    } else if event.Launching? && r.dag.state.Running? && !r.dag.started {
      StartAlive(g, c, r.dag);
    } else {
      IdleStep(c, r.dag, event);
    }
  }

  lemma {:induction false} RunAlive(m: Graphs.StageMap, c: Codec, ans: Workers, cap: nat, events: seq<Event>)
    requires Ready(m, cap) && AgentsOnly(m.stage) && AlwaysSettles(m.stage, c, ans)
    requires Honest(c, ans, Begin(m, cap), events) && Stopping !in events
    ensures Alive(Play(c, Begin(m, cap), events).dag)
    decreases |events|
  {
    hide Ready, RunInv, After, HonestEvent, HonestInv, AgentsOnly, AlwaysSettles;
    if events != [] {
      var front, last := events[..|events| - 1], events[|events| - 1];
      RunAlive(m, c, ans, cap, front);
      EveryRun(m, c, cap, front);
      HonestRun(m, c, ans, cap, front);
      ReadyPlan(m, cap);
      EventAlive(m.stage, c, ans, Play(c, Begin(m, cap), front), last);
    }
  }

  /** A plan without maps whose workers always answer acceptably: every
      launched and unstopped honest run is done as soon as nothing is in
      flight, whatever the order of the answers. */
  lemma AgentsAlwaysFinish(m: Graphs.StageMap, c: Codec, ans: Workers, cap: nat, events: seq<Event>)
    requires Ready(m, cap) && AgentsOnly(m.stage) && AlwaysSettles(m.stage, c, ans)
    requires Honest(c, ans, Begin(m, cap), events) && Launching in events && Stopping !in events
    ensures var d := Play(c, Begin(m, cap), events).dag;
            d.state.Done? <==> d.inFlight == {}
  {
    hide Ready, Play, Honest, Regular, Inv, AllComplete, AtMostTwice, AgentsOnly, AlwaysSettles;
    RunAlive(m, c, ans, cap, events);
    RunUnderway(m, c, cap, events);
    EveryRun(m, c, cap, events);
    var d := Play(c, Begin(m, cap), events).dag;
    if d.state.Done? {
      DoneIsIdle(m.stage, d);
    }
  }

  /** Such runs exist, and all of them can be finished: honest answers to
      whatever is in flight lead every launched one to its end. */
  lemma {:induction false} RunCanFinish(m: Graphs.StageMap, c: Codec, ans: Workers, cap: nat, events: seq<Event>)
    returns (all: seq<Event>)
    requires Ready(m, cap) && AgentsOnly(m.stage) && AlwaysSettles(m.stage, c, ans)
    requires Honest(c, ans, Begin(m, cap), events) && Launching in events && Stopping !in events
    ensures events <= all && Honest(c, ans, Begin(m, cap), all) && Stopping !in all
    ensures Play(c, Begin(m, cap), all).dag.state.Done?
    decreases 2 * |m.stage| - Play(c, Begin(m, cap), events).taken
  {
    hide Ready, Honest, AgentsOnly, AlwaysSettles;
    AgentsAlwaysFinish(m, c, ans, cap, events);
    var r := Play(c, Begin(m, cap), events);
    if r.dag.state.Done? {
      all := events;
    } else {
      LaunchedRuns(m, c, ans, cap, events);
      var id :| id in r.dag.inFlight;
      var next := Answering(id, ans(id, Newest(r.spawned, id)));
      OneMore(c, ans, Begin(m, cap), events, next);
      TakenBounded(m, c, cap, events);
      all := RunCanFinish(m, c, ans, cap, events + [next]);
    }
  }

  lemma LaunchedRuns(m: Graphs.StageMap, c: Codec, ans: Workers, cap: nat, events: seq<Event>)
    requires Ready(m, cap) && AgentsOnly(m.stage) && AlwaysSettles(m.stage, c, ans)
    requires Honest(c, ans, Begin(m, cap), events) && Launching in events && Stopping !in events
    ensures var d := Play(c, Begin(m, cap), events).dag;
            d.state.Done? || (d.state.Running? && d.started)
  {
    hide Ready, Play, Honest, AgentsOnly, AlwaysSettles;
    RunAlive(m, c, ans, cap, events);
    RunUnderway(m, c, cap, events);
  }

  lemma TakenBounded(m: Graphs.StageMap, c: Codec, cap: nat, events: seq<Event>)
    requires Ready(m, cap) && AgentsOnly(m.stage)
    ensures var r := Play(c, Begin(m, cap), events);
            r.dag.state.Running? && r.dag.started ==> r.taken < 2 * |m.stage|
  {
    hide Ready, Play;
    AgentsOnlySize(m, c, cap, events);
  }

  lemma OneMore(c: Codec, ans: Workers, d: Snapshot, events: seq<Event>, next: Event)
    requires Honest(c, ans, d, events) && HonestEvent(ans, Play(c, d, events), next)
    ensures Honest(c, ans, d, events + [next])
    ensures Play(c, d, events + [next]) == After(c, Play(c, d, events), next)
  {
    hide HonestEvent, After;
    assert (events + [next])[..|events|] == events;
  }

  /** The host has only to launch the plan and pass the answers on. */
  lemma SomeOrderFinishes(m: Graphs.StageMap, c: Codec, ans: Workers, cap: nat) returns (events: seq<Event>)
    requires Ready(m, cap) && AgentsOnly(m.stage) && AlwaysSettles(m.stage, c, ans)
    ensures Honest(c, ans, Begin(m, cap), events) && Launching in events && Stopping !in events
    ensures Play(c, Begin(m, cap), events).dag.state.Done?
  {
    hide Ready, Play, AgentsOnly, AlwaysSettles;
    assert [Launching][..0] == [];
    assert Honest(c, ans, Begin(m, cap), []);
    assert HonestEvent(ans, Play(c, Begin(m, cap), []), Launching);
    assert Honest(c, ans, Begin(m, cap), [Launching]);
    events := RunCanFinish(m, c, ans, cap, [Launching]);
    assert events[0] == Launching;
  }
}
