/** The workflow scheduler as functions from state to state. */
module Workflow {
  import opened Wrappers
  import opened Ids
  import opened Reach
  import Template
  import Text

  datatype RunState = Running | Done | Failed | Cancelled | Stalled

  datatype StageStatus =
    | Pending
    | InProgress
    | Complete
    | Failure
    | Cancel
    | Stopped

  /** Why a run ended early. `Panic` stands for an indexing or unwrapping
      panic of the original; it is shown to be unreachable. */
  datatype Reason =
    | Panic
    | StageFailed(id: StageId, message: string)
    | RenderFailed(error: Template.TemplateError)
    | ExpansionFailed(message: string)
    | CapExceeded(id: StageId)
    | WorkflowCancelled

  datatype RunOutcome = RunOutcome(
    state: RunState,
    outputs: map<StageId, string>,
    stages: map<StageId, StageStatus>,
    degraded: bool,
    error: Option<Reason>)

  datatype Advance =
    | Spawn(stages: seq<Stage>)
    | Finished(outcome: RunOutcome)
    | Unsatisfied(pending: set<StageId>)
    | Panicked

  /** List answers: `parse(answer, schema)` yields the item texts, `listOf`
      serialises a list of strings. */
  datatype Codec = Codec(
    parse: (string, string) -> Result<seq<string>, string>,
    listOf: seq<string> -> string)

  datatype Snapshot = Snapshot(
    graph: Graph,
    edges: map<StageId, seq<StageId>>,
    pending: map<StageId, nat>,
    ready: seq<StageId>,
    mapRemaining: map<StageId, nat>,
    output: map<StageId, string>,
    inFlight: set<StageId>,
    status: map<StageId, StageStatus>,
    maps: map<StageId, seq<StageId>>,
    children: map<StageId, StageId>,
    retries: set<StageId>,
    prompts: map<StageId, string>,
    state: RunState,
    degraded: bool,
    cap: nat,
    started: bool)

  datatype Step = Step(dag: Snapshot, advance: Advance)

  function ChildId(parent: StageId, index: nat): StageId {
    parent + "[" + Text.Decimal(index) + "]"
  }

  function ChildIds(parent: StageId, n: nat): (ids: seq<StageId>)
    ensures |ids| == n
  {
    seq(n, i requires 0 <= i < n => ChildId(parent, i))
  }

  function RetryNote(schema: string, error: string): string {
    "\nYour previous answer did not match " + schema + ": " + error + ". Return only the corrected JSON array."
  }

  // ----- ending a run -----

  function Closed(status: map<StageId, StageStatus>, unfinished: StageStatus): map<StageId, StageStatus> {
    map id | id in status ::
      if status[id].Pending? || status[id].InProgress? then unfinished else status[id]
  }

  /** The outputs nobody depends on, without map children. */
  function SinkOutputs(d: Snapshot): map<StageId, string> {
    map id | id in d.output && id in d.edges && d.edges[id] == [] && id !in d.children :: d.output[id]
  }

  function Finish(d: Snapshot, state: RunState, error: Option<Reason>): Step {
    var unfinished := if state.Cancelled? then StageStatus.Cancel else Stopped;
    var d' := d.(state := state, status := Closed(d.status, unfinished));
    Step(d', Finished(RunOutcome(state, SinkOutputs(d'), d'.status, d'.degraded, error)))
  }

  function Fail(d: Snapshot, reason: Reason): Step {
    if reason.Panic? then Step(d, Panicked) else Finish(d, Failed, Some(reason))
  }

  // ----- settling a stage -----

  datatype Counters = Counters(pending: map<StageId, nat>, ready: seq<StageId>)

  /** One dependency fewer for each of the first `n` dependants. */
  function Release(c: Counters, dependants: seq<StageId>, n: nat): Counters
    requires n <= |dependants|
  {
    if n == 0 then c
    else
      var before := Release(c, dependants, n - 1);
      var next := dependants[n - 1];
      if next !in before.pending then before
      else
        var left := if before.pending[next] > 0 then before.pending[next] - 1 else 0;
        Counters(before.pending[next := left],
                 if left == 0 then Insert(before.ready, next) else before.ready)
  }

  function Dependants(d: Snapshot, id: StageId): seq<StageId> {
    if id in d.edges then d.edges[id] else []
  }

  function Settle(d: Snapshot, id: StageId, answer: string): Snapshot {
    var next := Dependants(d, id);
    var c := Release(Counters(d.pending - {id}, d.ready), next, |next|);
    d.(output := d.output[id := answer],
       status := d.status[id := StageStatus.Complete],
       pending := c.pending,
       ready := c.ready)
  }

  /** A finished child counts down its map; the last one settles it. */
  function SettleParent(c: Codec, d: Snapshot, child: StageId): Result<Snapshot, Reason> {
    if child !in d.children then Ok(d)
    else
      var parent := d.children[child];
      if parent !in d.mapRemaining || d.mapRemaining[parent] == 0 then Err(Panic)
      else
        var left := d.mapRemaining[parent] - 1;
        if left != 0 then Ok(d.(mapRemaining := d.mapRemaining[parent := left]))
        else if parent !in d.maps || exists i :: 0 <= i < |d.maps[parent]| && d.maps[parent][i] !in d.output then
          Err(Panic)
        else
          var outputs := seq(|d.maps[parent]|,
                             i requires 0 <= i < |d.maps[parent]| => d.output[d.maps[parent][i]]);
          Ok(Settle(d.(mapRemaining := d.mapRemaining - {parent}), parent, c.listOf(outputs)))
  }

  // ----- emitting ready work -----

  datatype Emission = Emission(dag: Snapshot, spawned: seq<Stage>, empty: seq<StageId>, failure: Option<Reason>)

  function Launch(d: Snapshot, id: StageId, stage: Stage, prompt: string): Snapshot {
    d.(prompts := if stage.schema.Some? then d.prompts[id := prompt] else d.prompts,
       inFlight := d.inFlight + {id},
       status := d.status[id := InProgress])
  }

  /** An agent stage goes out with its prompt filled in. */
  function EmitAgent(d: Snapshot, id: StageId, stage: Stage): Emission {
    match Template.Render(stage.prompt, d.output, None)
    case Err(e) => Emission(d, [], [], Some(RenderFailed(e)))
    case Ok(prompt) => Emission(Launch(d, id, stage, prompt), [stage.(prompt := prompt)], [], None)
  }

  function ChildStage(parent: Stage, index: nat, prompt: string): Stage {
    Stage(ChildId(parent.id, index), prompt, parent.needs, Agent, None, parent.schema, parent.model)
  }

  function AddChild(d: Snapshot, parent: StageId, child: Stage): Snapshot {
    d.(children := d.children[child.id := parent],
       graph := d.graph[child.id := child],
       status := d.status[child.id := InProgress],
       inFlight := d.inFlight + {child.id},
       prompts := if child.schema.Some? then d.prompts[child.id := child.prompt] else d.prompts)
  }

  /** One child per item, for the first `n` items. */
  function AddChildren(d: Snapshot, parent: Stage, items: seq<string>, n: nat): Emission
    requires n <= |items|
  {
    if n == 0 then Emission(d, [], [], None)
    else
      var e := AddChildren(d, parent, items, n - 1);
      if e.failure.Some? then e
      else
        match Template.Render(parent.prompt, e.dag.output, Some(items[n - 1]))
        case Err(error) => e.(failure := Some(RenderFailed(error)))
        case Ok(prompt) =>
          var child := ChildStage(parent, n - 1, prompt);
          Emission(AddChild(e.dag, parent.id, child), e.spawned + [child], [], None)
  }

  function SourceSchema(graph: Graph, source: StageId): string
    requires source in graph
  {
    match graph[source].schema
    case Some(schema) => schema
    case None => "json[]"
  }

  /** Registers the expanded map behind its children. */
  function Register(d: Snapshot, id: StageId, n: nat): Snapshot {
    d.(maps := d.maps[id := ChildIds(id, n)],
       status := d.status[id := InProgress],
       mapRemaining := if n != 0 then d.mapRemaining[id := n] else d.mapRemaining)
  }

  function EmitMap(c: Codec, d: Snapshot, stage: Stage): Emission {
    if stage.over.None? || stage.over.value !in d.graph || stage.over.value !in d.output then
      Emission(d, [], [], Some(Panic))
    else
      var source := stage.over.value;
      match c.parse(d.output[source], SourceSchema(d.graph, source))
      case Err(e) => Emission(d, [], [], Some(ExpansionFailed(e)))
      case Ok(items) =>
        if |d.graph| + |items| > d.cap then Emission(d, [], [], Some(CapExceeded(stage.id)))
        else
          var e := AddChildren(d.(degraded := d.degraded || items == []), stage, items, |items|);
          if e.failure.Some? then e
          else
            e.(dag := Register(e.dag, stage.id, |items|),
               empty := if items == [] then [stage.id] else [])
  }

  function EmitOne(c: Codec, d: Snapshot, id: StageId): Emission {
    if id !in d.graph then Emission(d, [], [], Some(Panic))
    else if d.graph[id].kind.Map? then EmitMap(c, d, d.graph[id])
    else EmitAgent(d, id, d.graph[id])
  }

  /** The first `n` stages of a wave, stopping at the first failure. */
  function EmitIds(c: Codec, d: Snapshot, ids: seq<StageId>, n: nat): Emission
    requires n <= |ids|
  {
    if n == 0 then Emission(d, [], [], None)
    else
      var e := EmitIds(c, d, ids, n - 1);
      if e.failure.Some? then e
      else
        var one := EmitOne(c, e.dag, ids[n - 1]);
        Emission(one.dag, e.spawned + one.spawned, e.empty + one.empty, one.failure)
  }

  function SettleEmpty(d: Snapshot, ids: seq<StageId>, n: nat): Snapshot
    requires n <= |ids|
  {
    if n == 0 then d else Settle(SettleEmpty(d, ids, n - 1), ids[n - 1], "[]")
  }

  /** Drains the ready set once, then settles the maps without children. */
  function EmitWave(c: Codec, d: Snapshot): Emission {
    var e := EmitIds(c, d.(ready := []), d.ready, |d.ready|);
    if e.failure.Some? then e else e.(dag := SettleEmpty(e.dag, e.empty, |e.empty|))
  }

  /** Waves until nothing is ready. Each wave that leaves something ready
      has settled a map, so the pending set shrinks; a state where it does
      not is shown to be unreachable. */
  function EmitWaves(c: Codec, d: Snapshot, spawned: seq<Stage>): Emission
    decreases |d.pending|
  {
    if d.ready == [] then Emission(d, spawned, [], None)
    else
      var e := EmitWave(c, d);
      if e.failure.Some? then e.(spawned := spawned + e.spawned)
      else if e.dag.ready == [] then Emission(e.dag, spawned + e.spawned, [], None)
      else if |e.dag.pending| < |d.pending| then EmitWaves(c, e.dag, spawned + e.spawned)
      else Emission(e.dag, spawned, [], Some(Panic))
  }

  function Emit(c: Codec, d: Snapshot): Step {
    var e := EmitWaves(c, d, []);
    if e.failure.Some? then Fail(e.dag, e.failure.value)
    else if e.dag.pending == map[] && e.dag.inFlight == {} then Finish(e.dag, Done, None)
    else if e.spawned == [] && e.dag.inFlight == {} then
      Step(e.dag.(state := Stalled), Unsatisfied(e.dag.pending.Keys))
    else Step(e.dag, Spawn(e.spawned))
  }

  // ----- the three entry points -----

  function Start(c: Codec, d: Snapshot): Step {
    if d.started || !d.state.Running? then Step(d, Spawn([]))
    else Emit(c, d.(started := true))
  }

  /** The answer has the shape the stage's schema asks for. */
  function SchemaError(c: Codec, stage: Stage, answer: string): Option<string> {
    match stage.schema
    case None => None
    case Some(schema) =>
      match c.parse(answer, schema)
      case Ok(_) => None
      case Err(e) => Some(e)
  }

  function RetryStage(d: Snapshot, id: StageId, error: string): Stage
    requires id in d.graph && d.graph[id].schema.Some?
  {
    var stage := d.graph[id];
    var prompt := if id in d.prompts then d.prompts[id] else stage.prompt;
    stage.(prompt := prompt + RetryNote(stage.schema.value, error))
  }

  function Accept(c: Codec, d: Snapshot, id: StageId, answer: string): Step {
    match SettleParent(c, Settle(d, id, answer), id)
    case Err(reason) => Fail(d, reason)
    case Ok(settled) => Emit(c, settled)
  }

  function Deliver(c: Codec, d: Snapshot, id: StageId, answer: Result<string, string>): Step {
    if !d.state.Running? || id !in d.inFlight then Step(d, Spawn([]))
    else
      var taken := d.(inFlight := d.inFlight - {id});
      match answer
      case Err(e) =>
        Finish(taken.(status := taken.status[id := Failure]), Failed, Some(StageFailed(id, e)))
      case Ok(text) =>
        if id !in d.graph then Step(d, Panicked)
        else
          match SchemaError(c, d.graph[id], text)
          case None => Accept(c, taken, id, text)
          case Some(error) =>
            if id !in d.retries then
              Step(d.(retries := d.retries + {id}), Spawn([RetryStage(d, id, error)]))
            else
              Finish(taken.(status := taken.status[id := Failure]), Failed, Some(StageFailed(id, error)))
  }

  function Abort(d: Snapshot): Step {
    if !d.state.Running? then Step(d, Spawn([])) else Finish(d, Cancelled, Some(WorkflowCancelled))
  }
}
