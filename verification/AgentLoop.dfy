/** The agent loop: hooks, model, dispatch, repeat. */
module AgentLoop {
  import opened Wrappers
  import opened Transcript
  import Dispatch
  import Execution

  datatype Response = Final(text: string) | ToolCalls(note: Option<string>, calls: seq<ToolCall>)

  datatype Failure =
    | Cancelled
    | DeadlineExceeded
    | StepLimitExceeded
    | HookFailed(message: string)
    | ModelFailed(message: string)
    | DispatchFailed(failure: Dispatch.Failure)

  /** Why the model gives no answer. */
  datatype Silence = WhileCancelled | PastDeadline | ModelError(message: string)

  /** A hook may change the context, and may fail after having done so. */
  datatype Hooked = Hooked(context: seq<Message>, failure: Option<string>)

  type ContextHook = seq<Message> -> Hooked

  type ResponseHook = (seq<Message>, Response) -> Hooked

  /** Hooks that leave calls and results of a paired context together. */
  ghost predicate KeepsPairing(hook: ContextHook) {
    forall ms :: Paired(ms) ==> Paired(hook(ms).context)
  }

  ghost predicate KeepsPairingAfter(hook: ResponseHook) {
    forall ms, response :: Paired(ms) ==> Paired(hook(ms, response).context)
  }

  /** What the registered extensions and tools are. */
  datatype Setup = Setup(
    beforeModel: seq<ContextHook>,
    afterModel: seq<ResponseHook>,
    tools: Dispatch.Tools,
    beforeTool: seq<Dispatch.BeforeHook>,
    afterTool: seq<Dispatch.AfterHook>,
    around: bool,
    maxSteps: nat,
    maxParallel: nat,
    deadline: bool)

  ghost predicate WellBehaved(setup: Setup) {
    && (forall k :: 0 <= k < |setup.beforeModel| ==> KeepsPairing(setup.beforeModel[k]))
    && (forall k :: 0 <= k < |setup.afterModel| ==> KeepsPairingAfter(setup.afterModel[k]))
    && Dispatch.KeepIds(setup.afterTool)
  }

  /** What comes from outside in one round: the signals, how the model
      answers the context it is given, and how a batch of calls turns out. */
  datatype Round = Round(
    cancelled: bool,
    late: bool,
    model: seq<Message> -> Result<Response, Silence>,
    world: Dispatch.World)

  // ----- hooks one after the other -----

  /** The context after the first `n` hooks. */
  function After(hooks: seq<ContextHook>, n: nat, context: seq<Message>): seq<Message>
    requires n <= |hooks|
  {
    if n == 0 then context else hooks[n - 1](After(hooks, n - 1, context)).context
  }

  function AfterResponse(hooks: seq<ResponseHook>, n: nat, context: seq<Message>, response: Response): seq<Message>
    requires n <= |hooks|
  {
    if n == 0 then context else hooks[n - 1](AfterResponse(hooks, n - 1, context, response), response).context
  }

  /** A row of contexts, each what the next hook makes of the one before. */
  ghost predicate ContextRow(hooks: seq<ContextHook>, n: nat, row: seq<seq<Message>>)
    requires n <= |hooks|
  {
    |row| == n + 1 && forall i :: 0 <= i < n ==> row[i + 1] == hooks[i](row[i]).context
  }

  lemma {:induction false} AfterMeaning(hooks: seq<ContextHook>, n: nat, context: seq<Message>)
    returns (row: seq<seq<Message>>)
    requires n <= |hooks|
    ensures ContextRow(hooks, n, row) && row[0] == context && row[n] == After(hooks, n, context)
  {
    if n == 0 {
      row := [context];
    } else {
      row := AfterMeaning(hooks, n - 1, context);
      row := row + [After(hooks, n, context)];
    }
  }

  ghost predicate ResponseRow(hooks: seq<ResponseHook>, n: nat, response: Response, row: seq<seq<Message>>)
    requires n <= |hooks|
  {
    |row| == n + 1 && forall i :: 0 <= i < n ==> row[i + 1] == hooks[i](row[i], response).context
  }

  lemma {:induction false} AfterResponseMeaning(hooks: seq<ResponseHook>, n: nat, context: seq<Message>,
                                                response: Response)
    returns (row: seq<seq<Message>>)
    requires n <= |hooks|
    ensures ResponseRow(hooks, n, response, row) && row[0] == context
    ensures row[n] == AfterResponse(hooks, n, context, response)
  {
    if n == 0 {
      row := [context];
    } else {
      row := AfterResponseMeaning(hooks, n - 1, context, response);
      row := row + [AfterResponse(hooks, n, context, response)];
    }
  }

  /** None of the first `n` hooks fails. */
  ghost predicate AllPass(hooks: seq<ContextHook>, n: nat, context: seq<Message>)
    requires n <= |hooks|
  {
    n == 0 || (AllPass(hooks, n - 1, context) && hooks[n - 1](After(hooks, n - 1, context)).failure == None)
  }

  ghost predicate AllPassAfter(hooks: seq<ResponseHook>, n: nat, context: seq<Message>, response: Response)
    requires n <= |hooks|
  {
    n == 0 || (AllPassAfter(hooks, n - 1, context, response)
               && hooks[n - 1](AfterResponse(hooks, n - 1, context, response), response).failure == None)
  }

  /** The k-th hook is the first to fail, with that message. */
  ghost predicate FailsAt(hooks: seq<ContextHook>, context: seq<Message>, k: nat, message: string) {
    && k < |hooks|
    && hooks[k](After(hooks, k, context)).failure == Some(message)
    && AllPass(hooks, k, context)
  }

  ghost predicate FailsAfterAt(hooks: seq<ResponseHook>, context: seq<Message>, response: Response, k: nat,
                               message: string)
  {
    && k < |hooks|
    && hooks[k](AfterResponse(hooks, k, context, response), response).failure == Some(message)
    && AllPassAfter(hooks, k, context, response)
  }

  method RunBeforeModel(hooks: seq<ContextHook>, context: seq<Message>)
    returns (context': seq<Message>, failure: Option<string>)
    requires Paired(context) && forall k :: 0 <= k < |hooks| ==> KeepsPairing(hooks[k])
    ensures Paired(context')
    ensures match failure
            case None => context' == After(hooks, |hooks|, context) && AllPass(hooks, |hooks|, context)
            case Some(message) =>
              exists k: nat :: FailsAt(hooks, context, k, message) && context' == After(hooks, k + 1, context)
  {
    hide Paired;
    context' := context;
    for k := 0 to |hooks|
      invariant Paired(context') && context' == After(hooks, k, context)
      invariant AllPass(hooks, k, context)
    {
      assert KeepsPairing(hooks[k]);
      var hooked := hooks[k](context');
      context' := hooked.context;
      if hooked.failure.Some? {
        assert FailsAt(hooks, context, k, hooked.failure.value);
        return context', hooked.failure;
      }
    }
    failure := None;
  }

  method RunAfterModel(hooks: seq<ResponseHook>, context: seq<Message>, response: Response)
    returns (context': seq<Message>, failure: Option<string>)
    requires Paired(context) && forall k :: 0 <= k < |hooks| ==> KeepsPairingAfter(hooks[k])
    ensures Paired(context')
    ensures match failure
            case None =>
              && context' == AfterResponse(hooks, |hooks|, context, response)
              && AllPassAfter(hooks, |hooks|, context, response)
            case Some(message) =>
              exists k: nat :: FailsAfterAt(hooks, context, response, k, message)
                               && context' == AfterResponse(hooks, k + 1, context, response)
  {
    hide Paired;
    context' := context;
    for k := 0 to |hooks|
      invariant Paired(context') && context' == AfterResponse(hooks, k, context, response)
      invariant AllPassAfter(hooks, k, context, response)
    {
      assert KeepsPairingAfter(hooks[k]);
      var hooked := hooks[k](context', response);
      context' := hooked.context;
      if hooked.failure.Some? {
        assert FailsAfterAt(hooks, context, response, k, hooked.failure.value);
        return context', hooked.failure;
      }
    }
    failure := None;
  }

  // ----- one round -----

  /** What the model is asked in a round that begins with this context. */
  function AskedWith(setup: Setup, context: seq<Message>): seq<Message> {
    After(setup.beforeModel, |setup.beforeModel|, context)
  }

  /** The context once all hooks have seen the model's response. */
  function Answering(setup: Setup, context: seq<Message>, response: Response): seq<Message> {
    AfterResponse(setup.afterModel, |setup.afterModel|, AskedWith(setup, context), response)
  }

  /** All hooks pass, and the model answers what it is asked. */
  ghost predicate Responds(setup: Setup, round: Round, before: seq<Message>, response: Response) {
    && AllPass(setup.beforeModel, |setup.beforeModel|, before)
    && round.model(AskedWith(setup, before)) == Ok(response)
    && AllPassAfter(setup.afterModel, |setup.afterModel|, AskedWith(setup, before), response)
  }

  /** The results are the replies to the calls, in some batch of them. */
  ghost predicate Dispatched(setup: Setup, round: Round, calls: seq<ToolCall>, results: seq<ToolResult>) {
    exists batch :: DispatchedBy(setup, round, calls, results, batch)
  }

  ghost predicate DispatchedBy(setup: Setup, round: Round, calls: seq<ToolCall>, results: seq<ToolResult>,
                               batch: Execution.Batch)
  {
    var h := Dispatch.Requests(setup.tools, setup.beforeTool, calls, |calls|);
    && Dispatch.IsBatch(h, setup.maxParallel, setup.deadline, batch)
    && Dispatch.Replies(setup.tools, setup.beforeTool, setup.afterTool, calls,
                        round.world(batch, Dispatch.Inputs(h)), results)
  }

  /** Nothing is taken away between two loop heads but by hooks: the model is
      asked and answers with calls, and the round adds those calls and the
      results that answer them. */
  ghost predicate RoundAdds(setup: Setup, round: Round, before: seq<Message>, after: seq<Message>) {
    exists response, results :: IsRound(setup, round, before, after, response, results)
  }

  ghost predicate IsRound(setup: Setup, round: Round, before: seq<Message>, after: seq<Message>, response: Response,
                          results: seq<ToolResult>)
  {
    && Responds(setup, round, before, response)
    && response.ToolCalls?
    && Answers(response.calls, results)
    && Dispatched(setup, round, response.calls, results)
    && after == Answering(setup, before, response) + [Assistant(response.note, response.calls)] + [Tool(results)]
  }

  /** The round ends with the model's final answer. */
  ghost predicate IsFinal(setup: Setup, round: Round, before: seq<Message>, after: seq<Message>, text: string) {
    && Responds(setup, round, before, Final(text))
    && after == Answering(setup, before, Final(text)) + [Assistant(Some(text), [])]
  }

  /** Why a round fails: a hook did, the model gave no answer, or the dispatch
      of the calls it answered with failed. */
  ghost predicate RoundFails(setup: Setup, round: Round, before: seq<Message>, failure: Failure) {
    match failure
    case Cancelled => round.model(AskedWith(setup, before)) == Err(WhileCancelled)
    case DeadlineExceeded => round.model(AskedWith(setup, before)) == Err(PastDeadline)
    case ModelFailed(message) => round.model(AskedWith(setup, before)) == Err(ModelError(message))
    case HookFailed(message) =>
      || (exists k: nat :: FailsAt(setup.beforeModel, before, k, message))
      || (round.model(AskedWith(setup, before)).Ok?
          && exists k: nat :: FailsAfterAt(setup.afterModel, AskedWith(setup, before),
                                           round.model(AskedWith(setup, before)).value, k, message))
    case DispatchFailed(cause) =>
      var answer := round.model(AskedWith(setup, before));
      && answer.Ok? && answer.value.ToolCalls?
      && Dispatch.FailsFor(setup.tools, setup.beforeTool, setup.afterTool, answer.value.calls, cause)
    case StepLimitExceeded => false
  }

  function NoAnswer(silence: Silence): Failure {
    match silence
    case WhileCancelled => Cancelled
    case PastDeadline => DeadlineExceeded
    case ModelError(message) => ModelFailed(message)
  }

  /** One round: `Ok(None)` goes on, `Ok(Some(text))` is the final answer. A
      failing dispatch leaves the calls without their results. */
  method Turn(setup: Setup, context: seq<Message>, round: Round)
    returns (r: Result<Option<string>, Failure>, context': seq<Message>)
    requires Paired(context) && WellBehaved(setup) && Dispatch.Real(round.world)
    ensures NearlyPaired(context')
    ensures r.Ok? ==> Paired(context')
    ensures match r
            case Ok(None) => RoundAdds(setup, round, context, context')
            case Ok(Some(text)) => IsFinal(setup, round, context, context', text)
            case Err(failure) => RoundFails(setup, round, context, failure)
  {
    hide Paired, NearlyPaired, Answers, Dispatch.Real, Dispatch.KeepIds, KeepsPairing, KeepsPairingAfter, Dispatched,
         Dispatch.FailsFor, FailsAt, FailsAfterAt;
    var failure;
    context', failure := RunBeforeModel(setup.beforeModel, context);
    PairedNearly(context');
    if failure.Some? {
      return Err(HookFailed(failure.value)), context';
    }
    var answer := round.model(context');
    if answer.Err? {
      return Err(NoAnswer(answer.error)), context';
    }
    var response := answer.value;
    context', failure := RunAfterModel(setup.afterModel, context', response);
    PairedNearly(context');
    if failure.Some? {
      return Err(HookFailed(failure.value)), context';
    }
    match response
    case Final(text) =>
      AppendText(context', text);
      context' := context' + [Assistant(Some(text), [])];
      PairedNearly(context');
      r := Ok(Some(text));
    case ToolCalls(note, calls) =>
      AppendCalls(context', note, calls);
      context' := context' + [Assistant(note, calls)];
      var results, reported, batch := Dispatch.Execute(setup.tools, setup.beforeTool, setup.afterTool, setup.around,
                                                       calls, setup.maxParallel, setup.deadline, round.world);
      if results.Err? {
        return Err(DispatchFailed(results.error)), context';
      }
      DispatchedDef(setup, round, calls, results.value, batch);
      context' := context' + [Tool(results.value)];
      PairedNearly(context');
      assert IsRound(setup, round, context, context', response, results.value);
      r := Ok(None);
  }

  lemma DispatchedDef(setup: Setup, round: Round, calls: seq<ToolCall>, results: seq<ToolResult>,
                      batch: Execution.Batch)
    requires var h := Dispatch.Requests(setup.tools, setup.beforeTool, calls, |calls|);
             && Dispatch.IsBatch(h, setup.maxParallel, setup.deadline, batch)
             && Dispatch.Replies(setup.tools, setup.beforeTool, setup.afterTool, calls,
                                 round.world(batch, Dispatch.Inputs(h)), results)
    ensures Dispatched(setup, round, calls, results)
  {
    hide Dispatch.IsBatch, Dispatch.Replies, Dispatch.Requests;
    assert DispatchedBy(setup, round, calls, results, batch);
  }

  // ----- the loop -----

  /** The loop heads: the context given and what each round made of it. */
  ghost predicate HeadsRight(setup: Setup, context: seq<Message>, rounds: seq<Round>, heads: seq<seq<Message>>) {
    && heads != [] && heads[0] == context && |heads| <= |rounds| + 1
    && (forall k :: 0 <= k < |heads| ==> Paired(heads[k]))
    && forall k :: 0 <= k < |heads| - 1 ==> RoundAdds(setup, rounds[k], heads[k], heads[k + 1])
  }

  /** Why the loop ends without an answer: a signal or the limit at its last
      head, or the round that followed it failed. */
  ghost predicate LoopFails(setup: Setup, rounds: seq<Round>, head: seq<Message>, turns: nat, inRound: bool,
                            failure: Failure)
    requires if inRound then 0 < turns <= |rounds| else turns < |rounds|
  {
    if inRound then RoundFails(setup, rounds[turns - 1], head, failure)
    else if rounds[turns].cancelled then failure == Cancelled
    else if rounds[turns].late then failure == DeadlineExceeded
    else failure == StepLimitExceeded && turns == setup.maxSteps
  }

  /** Rounds until the model gives a final answer or something ends the run.
      The context is paired at every loop head: it is so at the first, and
      every round that goes on keeps it so. The answer is that of the model in
      the last round. */
  method Drive(setup: Setup, context: seq<Message>, rounds: seq<Round>)
    returns (r: Result<string, Failure>, context': seq<Message>, ghost heads: seq<seq<Message>>, turns: nat)
    requires Paired(context) && WellBehaved(setup) && |rounds| > setup.maxSteps
    requires forall k :: 0 <= k < |rounds| ==> Dispatch.Real(rounds[k].world)
    ensures HeadsRight(setup, context, rounds, heads)
    ensures turns <= setup.maxSteps && turns <= |heads| <= turns + 1
    ensures forall k :: 0 <= k < turns ==> !rounds[k].cancelled && !rounds[k].late
    ensures NearlyPaired(context')
    ensures match r
            case Ok(text) =>
              && |heads| == turns && Paired(context')
              && IsFinal(setup, rounds[turns - 1], heads[turns - 1], context', text)
            case Err(failure) =>
              && LoopFails(setup, rounds, heads[|heads| - 1], turns, |heads| == turns, failure)
              && (|heads| == turns + 1 ==> context' == heads[turns])
  {
    hide Paired, NearlyPaired, WellBehaved, Dispatch.Real, RoundAdds, RoundFails, IsFinal;
    context' := context;
    heads := [context];
    turns := 0;
    while true
      invariant turns <= setup.maxSteps && |heads| == turns + 1
      invariant Paired(context') && heads[turns] == context' && HeadsRight(setup, context, rounds, heads)
      invariant forall k :: 0 <= k < turns ==> !rounds[k].cancelled && !rounds[k].late
      decreases setup.maxSteps - turns
    {
      PairedNearly(context');
      var round := rounds[turns];
      if round.cancelled {
        return Err(Cancelled), context', heads, turns;
      }
      if round.late {
        return Err(DeadlineExceeded), context', heads, turns;
      }
      if turns >= setup.maxSteps {
        return Err(StepLimitExceeded), context', heads, turns;
      }
      turns := turns + 1;
      var went;
      went, context' := Turn(setup, context', round);
      if went.Err? {
        return Err(went.error), context', heads, turns;
      }
      if went.value.Some? {
        return Ok(went.value.value), context', heads, turns;
      }
      heads := heads + [context'];
    }
  }

  lemma PairedNearly(ms: seq<Message>)
    requires Paired(ms)
    ensures NearlyPaired(ms)
  {
  }
}
