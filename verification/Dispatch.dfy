/** A batch of tool calls from end to end: checks and hooks in call order,
    concurrent execution of what is left, results back in call order. */
module Dispatch {
  import opened Wrappers
  import opened Transcript
  import G = Grouping
  import E = Execution

  datatype Failure =
    | EmptyId(name: string)
    | DuplicateId(id: string)
    | HookFailed(message: string)
    | MissingResult(index: nat)

  datatype Decision = Continue | Rewrite(input: string) | Deny(reason: string)

  /** A hook sees the call as the model made it. */
  type BeforeHook = ToolCall -> Result<Decision, string>

  type AfterHook = (ToolCall, ToolResult) -> Result<ToolResult, string>

  /** How each registered tool classifies an input. */
  type Tools = map<string, string -> G.Concurrency>

  function OkResult(call: ToolCall, output: string): ToolResult {
    ToolResult(call.id, call.name, Value(output), false)
  }

  function ErrorResult(call: ToolCall, message: string): ToolResult {
    ToolResult(call.id, call.name, Error(message), true)
  }

  // ----- pairing of ids -----

  ghost predicate Pairable(calls: seq<ToolCall>) {
    && (forall k :: 0 <= k < |calls| ==> calls[k].id != "")
    && (forall j, k :: 0 <= j < k < |calls| ==> calls[j].id != calls[k].id)
  }

  method ValidatePairing(calls: seq<ToolCall>) returns (r: Result<(), Failure>)
    ensures r.Ok? <==> Pairable(calls)
    ensures r.Err? ==> exists k :: 0 <= k < |calls| && Pairable(calls[..k])
                                   && (if calls[k].id == "" then r.error == EmptyId(calls[k].name)
                                       else r.error == DuplicateId(calls[k].id)
                                            && exists j :: 0 <= j < k && calls[j].id == calls[k].id)
  {
    var seen: set<string> := {};
    for k := 0 to |calls|
      invariant Pairable(calls[..k])
      invariant forall id :: id in seen <==> exists j :: 0 <= j < k && calls[j].id == id
    {
      var call := calls[k];
      if call.id == "" {
        return Err(EmptyId(call.name));
      }
      if call.id in seen {
        return Err(DuplicateId(call.id));
      }
      seen := seen + {call.id};
    }
    assert calls[..|calls|] == calls;
    r := Ok(());
  }

  // ----- hooks before the call -----

  datatype Consultation =
    | Open(rewritten: Option<string>)
    | Denied(reason: string)
    | Broken(message: string)

  /** The first `n` hooks in order; a denial or an error ends it. */
  function Consult(hooks: seq<BeforeHook>, n: nat, call: ToolCall): Consultation
    requires n <= |hooks|
  {
    if n == 0 then Open(None)
    else
      match Consult(hooks, n - 1, call)
      case Denied(reason) => Denied(reason)
      case Broken(message) => Broken(message)
      case Open(rewritten) =>
        match hooks[n - 1](call)
        case Err(message) => Broken(message)
        case Ok(Continue) => Open(rewritten)
        case Ok(Rewrite(input)) => Open(Some(input))
        case Ok(Deny(reason)) => Denied(reason)
  }

  lemma {:induction false} ConsultEnds(hooks: seq<BeforeHook>, m: nat, n: nat, call: ToolCall)
    requires m <= n <= |hooks| && !Consult(hooks, m, call).Open?
    ensures Consult(hooks, n, call) == Consult(hooks, m, call)
    decreases n
  {
    if m < n {
      ConsultEnds(hooks, m, n - 1, call);
    }
  }

  method RunHooks(hooks: seq<BeforeHook>, call: ToolCall) returns (c: Consultation)
    ensures c == Consult(hooks, |hooks|, call)
  {
    c := Open(None);
    for n := 0 to |hooks|
      invariant c == Consult(hooks, n, call) && c.Open?
    {
      var answer := hooks[n](call);
      match answer {
        case Err(message) =>
          c := Broken(message);
        case Ok(Continue) =>
        case Ok(Rewrite(input)) =>
          c := Open(Some(input));
        case Ok(Deny(reason)) =>
          c := Denied(reason);
      }
      if !c.Open? {
        ConsultEnds(hooks, n + 1, |hooks|, call);
        return;
      }
    }
  }

  /** The hook ends the consultation. */
  predicate Stops(hook: BeforeHook, call: ToolCall) {
    hook(call).Err? || hook(call).value.Deny?
  }

  predicate Rewrites(hook: BeforeHook, call: ToolCall) {
    hook(call).Ok? && hook(call).value.Rewrite?
  }

  ghost predicate FirstStop(hooks: seq<BeforeHook>, call: ToolCall, m: nat) {
    m < |hooks| && Stops(hooks[m], call) && forall l :: 0 <= l < m ==> !Stops(hooks[l], call)
  }

  ghost predicate LastRewrite(hooks: seq<BeforeHook>, call: ToolCall, m: nat) {
    m < |hooks| && Rewrites(hooks[m], call) && forall l :: m < l < |hooks| ==> !Rewrites(hooks[l], call)
  }

  /** The first denial or error decides; without one the last rewrite wins. */
  lemma {:induction false} ConsultMeaning(hooks: seq<BeforeHook>, call: ToolCall)
    ensures match Consult(hooks, |hooks|, call)
            case Denied(reason) => exists m: nat :: FirstStop(hooks, call, m) && hooks[m](call) == Ok(Deny(reason))
            case Broken(message) => exists m: nat :: FirstStop(hooks, call, m) && hooks[m](call) == Err(message)
            case Open(rewritten) =>
              && (forall m :: 0 <= m < |hooks| ==> !Stops(hooks[m], call))
              && (match rewritten
                  case None => forall m :: 0 <= m < |hooks| ==> !Rewrites(hooks[m], call)
                  case Some(input) =>
                    exists m: nat :: LastRewrite(hooks, call, m) && hooks[m](call) == Ok(Rewrite(input)))
    decreases |hooks|
  {
    if hooks != [] {
      var n := |hooks| - 1;
      var front := hooks[..n];
      ConsultPrefix(hooks, n, n, call);
      ConsultMeaning(front, call);
      match Consult(front, n, call)
      case Denied(reason) =>
        var m: nat :| FirstStop(front, call, m) && front[m](call) == Ok(Deny(reason));
        assert FirstStop(hooks, call, m);
      case Broken(message) =>
        var m: nat :| FirstStop(front, call, m) && front[m](call) == Err(message);
        assert FirstStop(hooks, call, m);
      case Open(rewritten) =>
        assert forall m :: 0 <= m < n ==> hooks[m] == front[m];
        if Stops(hooks[n], call) {
          assert FirstStop(hooks, call, n);
        } else if Rewrites(hooks[n], call) {
          assert LastRewrite(hooks, call, n);
        } else if rewritten.Some? {
          var m: nat :| LastRewrite(front, call, m) && front[m](call) == Ok(Rewrite(rewritten.value));
          assert LastRewrite(hooks, call, m);
        }
    }
  }

  lemma {:induction false} ConsultPrefix(hooks: seq<BeforeHook>, k: nat, n: nat, call: ToolCall)
    requires n <= k <= |hooks|
    ensures Consult(hooks[..k], n, call) == Consult(hooks, n, call)
    decreases n
  {
    if n > 0 {
      ConsultPrefix(hooks, k, n - 1, call);
    }
  }

  /** What becomes of a call before anything runs. */
  datatype Fate =
    | Unknown
    | Refused(reason: string)
    | Aborted(message: string)
    | Accepted(request: G.Request, rewritten: bool)

  function FateOf(tools: Tools, hooks: seq<BeforeHook>, call: ToolCall): Fate {
    if call.name !in tools then Unknown
    else
      match Consult(hooks, |hooks|, call)
      case Broken(message) => Aborted(message)
      case Denied(reason) => Refused(reason)
      case Open(rewritten) =>
        var input := if rewritten.Some? then rewritten.value else call.arguments;
        Accepted(G.Request(input, tools[call.name](input)), rewritten.Some?)
  }

  /** What the hooks decided is what happens: an unknown tool is not asked
      about; the first denial or error stands; otherwise the call is accepted
      with the last rewritten input, or its own, and classified by its tool
      with just that input. */
  lemma FateMeaning(tools: Tools, hooks: seq<BeforeHook>, call: ToolCall)
    ensures match FateOf(tools, hooks, call)
            case Unknown => call.name !in tools
            case Refused(reason) =>
              && call.name in tools
              && exists m: nat :: FirstStop(hooks, call, m) && hooks[m](call) == Ok(Deny(reason))
            case Aborted(message) =>
              && call.name in tools
              && exists m: nat :: FirstStop(hooks, call, m) && hooks[m](call) == Err(message)
            case Accepted(request, rewritten) =>
              && call.name in tools
              && (forall m :: 0 <= m < |hooks| ==> !Stops(hooks[m], call))
              && request.concurrency == tools[call.name](request.input)
              && (if rewritten then
                    exists m: nat :: LastRewrite(hooks, call, m) && hooks[m](call) == Ok(Rewrite(request.input))
                  else
                    request.input == call.arguments && forall m :: 0 <= m < |hooks| ==> !Rewrites(hooks[m], call))
  {
    hide FirstStop, LastRewrite, Stops, Rewrites, Consult;
    ConsultMeaning(hooks, call);
  }

  /** The accepted calls among the first `n`. */
  function Requests(tools: Tools, hooks: seq<BeforeHook>, calls: seq<ToolCall>, n: nat): G.History
    requires n <= |calls|
  {
    map k | 0 <= k < n && FateOf(tools, hooks, calls[k]).Accepted? :: FateOf(tools, hooks, calls[k]).request
  }

  function EarlyResult(fate: Fate, call: ToolCall): Option<ToolResult> {
    match fate
    case Unknown => Some(ErrorResult(call, "unknown tool: " + call.name))
    case Refused(reason) => Some(ErrorResult(call, "denied: " + reason))
    case Aborted(_) | Accepted(_, _) => None
  }

  /** The call as later hooks see it: its arguments are moved into the job
      when nobody is left to look at them. */
  function Kept(fate: Fate, call: ToolCall, strip: bool): ToolCall {
    if strip && fate.Accepted? && !fate.rewritten then call.(arguments := "") else call
  }

  ghost predicate NoneAborted(tools: Tools, hooks: seq<BeforeHook>, calls: seq<ToolCall>, n: nat)
    requires n <= |calls|
  {
    forall k :: 0 <= k < n ==> !FateOf(tools, hooks, calls[k]).Aborted?
  }

  lemma OneMoreRequest(tools: Tools, hooks: seq<BeforeHook>, calls: seq<ToolCall>, k: nat)
    requires k < |calls|
    ensures k !in Requests(tools, hooks, calls, k) && G.Newest(Requests(tools, hooks, calls, k), k)
    ensures var fate := FateOf(tools, hooks, calls[k]);
            Requests(tools, hooks, calls, k + 1)
            == if fate.Accepted? then Requests(tools, hooks, calls, k)[k := fate.request]
               else Requests(tools, hooks, calls, k)
  {
  }

  /** What is known of the calls after the deterministic part. */
  datatype Prepared = Prepared(slots: seq<Option<ToolResult>>, calls: seq<ToolCall>, refused: seq<nat>, serial: bool,
                               jobs: nat)

  ghost predicate SlotsSet(tools: Tools, hooks: seq<BeforeHook>, calls: seq<ToolCall>, n: nat,
                           slots: seq<Option<ToolResult>>)
    requires n <= |calls|
  {
    && |slots| == |calls|
    && (forall k :: 0 <= k < n ==> slots[k] == EarlyResult(FateOf(tools, hooks, calls[k]), calls[k]))
    && (forall k :: n <= k < |calls| ==> slots[k] == None)
  }

  ghost predicate CallsKept(tools: Tools, hooks: seq<BeforeHook>, calls: seq<ToolCall>, n: nat, strip: bool,
                            kept: seq<ToolCall>)
    requires n <= |calls|
  {
    && |kept| == |calls|
    && (forall k :: 0 <= k < n ==> kept[k] == Kept(FateOf(tools, hooks, calls[k]), calls[k], strip))
    && (forall k :: n <= k < |calls| ==> kept[k] == calls[k])
  }

  ghost predicate RefusedListed(tools: Tools, hooks: seq<BeforeHook>, calls: seq<ToolCall>, n: nat, refused: seq<nat>)
    requires n <= |calls|
  {
    && (forall x, y :: 0 <= x < y < |refused| ==> refused[x] < refused[y])
    && (forall k :: k in refused <==> 0 <= k < n && FateOf(tools, hooks, calls[k]).Refused?)
  }

  ghost predicate SerialSeen(h: G.History) {
    exists k :: k in h && h[k].concurrency.Serial?
  }

  /** The hooks of every call in call order. What is accepted, with which
      input, does not depend on whether arguments are moved or copied. */
  method Prepare(tools: Tools, hooks: seq<BeforeHook>, calls: seq<ToolCall>, strip: bool, grouping: G.Grouping)
    returns (r: Result<Prepared, Failure>)
    requires grouping.Valid() && grouping.history == map[]
    modifies grouping
    ensures grouping.Valid()
    ensures r.Ok? <==> NoneAborted(tools, hooks, calls, |calls|)
    ensures r.Ok? ==>
              && grouping.history == Requests(tools, hooks, calls, |calls|)
              && SlotsSet(tools, hooks, calls, |calls|, r.value.slots)
              && CallsKept(tools, hooks, calls, |calls|, strip, r.value.calls)
              && RefusedListed(tools, hooks, calls, |calls|, r.value.refused)
              && r.value.jobs == |grouping.history|
              && (r.value.serial <==> SerialSeen(grouping.history))
    ensures r.Err? ==> r.error.HookFailed?
                       && exists k :: 0 <= k < |calls| && NoneAborted(tools, hooks, calls, k)
                                      && FateOf(tools, hooks, calls[k]) == Aborted(r.error.message)
  {
    hide *;
    var slots: seq<Option<ToolResult>> := seq(|calls|, _ => None);
    var refused: seq<nat> := [];
    var kept, serial, jobs := calls, false, 0;
    NothingPrepared(tools, hooks, calls, strip);
    for k := 0 to |calls|
      invariant grouping.Valid() && grouping.history == Requests(tools, hooks, calls, k)
      invariant NoneAborted(tools, hooks, calls, k)
      invariant SlotsSet(tools, hooks, calls, k, slots)
      invariant CallsKept(tools, hooks, calls, k, strip, kept)
      invariant RefusedListed(tools, hooks, calls, k, refused)
      invariant jobs == |grouping.history| && (serial <==> SerialSeen(grouping.history))
    {
      OneMoreRequest(tools, hooks, calls, k);
      var fate := Judge(tools, hooks, calls[k]);
      AbortedStays(tools, hooks, calls, k);
      if fate.Aborted? {
        return Err(HookFailed(fate.message));
      }
      SlotNext(tools, hooks, calls, k, slots);
      KeptNext(tools, hooks, calls, k, strip, kept);
      RefusedNext(tools, hooks, calls, k, refused);
      slots := slots[k := EarlyResult(fate, calls[k])];
      kept := kept[k := Kept(fate, calls[k], strip)];
      if fate.Refused? {
        refused := refused + [k];
      } else if fate.Accepted? {
        var request := fate.request;
        serial := serial || request.concurrency.Serial?;
        jobs := jobs + 1;
        OneMoreSeen(grouping.history, k, request);
        grouping.Add(G.Job(k, request.input, false), request.concurrency);
      }
    }
    r := Ok(Prepared(slots, kept, refused, serial, jobs));
  }

  lemma NothingPrepared(tools: Tools, hooks: seq<BeforeHook>, calls: seq<ToolCall>, strip: bool)
    ensures Requests(tools, hooks, calls, 0) == map[] && NoneAborted(tools, hooks, calls, 0)
    ensures SlotsSet(tools, hooks, calls, 0, seq(|calls|, _ => None))
    ensures CallsKept(tools, hooks, calls, 0, strip, calls) && RefusedListed(tools, hooks, calls, 0, [])
    ensures !SerialSeen(map[])
  {
  }

  lemma AbortedStays(tools: Tools, hooks: seq<BeforeHook>, calls: seq<ToolCall>, k: nat)
    requires k < |calls| && NoneAborted(tools, hooks, calls, k)
    ensures NoneAborted(tools, hooks, calls, k + 1) <==> !FateOf(tools, hooks, calls[k]).Aborted?
    ensures FateOf(tools, hooks, calls[k]).Aborted? ==> !NoneAborted(tools, hooks, calls, |calls|)
  {
    hide FateOf;
  }

  lemma SlotNext(tools: Tools, hooks: seq<BeforeHook>, calls: seq<ToolCall>, k: nat, slots: seq<Option<ToolResult>>)
    requires k < |calls| && SlotsSet(tools, hooks, calls, k, slots)
    ensures |slots| == |calls|
    ensures SlotsSet(tools, hooks, calls, k + 1, slots[k := EarlyResult(FateOf(tools, hooks, calls[k]), calls[k])])
  {
    hide FateOf, EarlyResult;
  }

  lemma KeptNext(tools: Tools, hooks: seq<BeforeHook>, calls: seq<ToolCall>, k: nat, strip: bool, kept: seq<ToolCall>)
    requires k < |calls| && CallsKept(tools, hooks, calls, k, strip, kept)
    ensures |kept| == |calls|
    ensures CallsKept(tools, hooks, calls, k + 1, strip,
                      kept[k := Kept(FateOf(tools, hooks, calls[k]), calls[k], strip)])
  {
    hide FateOf, Kept;
  }

  lemma RefusedNext(tools: Tools, hooks: seq<BeforeHook>, calls: seq<ToolCall>, k: nat, refused: seq<nat>)
    requires k < |calls| && RefusedListed(tools, hooks, calls, k, refused)
    ensures RefusedListed(tools, hooks, calls, k + 1,
                          if FateOf(tools, hooks, calls[k]).Refused? then refused + [k] else refused)
  {
    hide FateOf;
    forall x | 0 <= x < |refused|
      ensures refused[x] < k
    {
      assert refused[x] in refused;
    }
  }

  lemma OneMoreSeen(h: G.History, k: nat, request: G.Request)
    requires k !in h
    ensures SerialSeen(h[k := request]) <==> SerialSeen(h) || request.concurrency.Serial?
    ensures |h[k := request]| == |h| + 1
  {
    if SerialSeen(h) {
      var j :| j in h && h[j].concurrency.Serial?;
      assert h[k := request][j].concurrency.Serial?;
    }
    if request.concurrency.Serial? {
      assert h[k := request][k].concurrency.Serial?;
    }
  }

  method Judge(tools: Tools, hooks: seq<BeforeHook>, call: ToolCall) returns (fate: Fate)
    ensures fate == FateOf(tools, hooks, call)
  {
    if call.name !in tools {
      return Unknown;
    }
    var c := RunHooks(hooks, call);
    match c
    case Broken(message) => fate := Aborted(message);
    case Denied(reason) => fate := Refused(reason);
    case Open(rewritten) =>
      var input := if rewritten.Some? then rewritten.value else call.arguments;
      fate := Accepted(G.Request(input, tools[call.name](input)), rewritten.Some?);
  }

  // ----- the units that run concurrently -----

  function Indices(chain: seq<G.Job>): (r: seq<nat>)
    ensures |r| == |chain|
  {
    seq(|chain|, x requires 0 <= x < |chain| => chain[x].index)
  }

  /** Drained chains are dropped. */
  function Chains(chains: seq<seq<G.Job>>, n: nat): seq<seq<nat>>
    requires n <= |chains|
  {
    if n == 0 then []
    else if chains[n - 1] == [] then Chains(chains, n - 1)
    else Chains(chains, n - 1) + [Indices(chains[n - 1])]
  }

  function Singles(singles: seq<G.Job>): (r: seq<seq<nat>>)
    ensures |r| == |singles|
  {
    seq(|singles|, x requires 0 <= x < |singles| => [singles[x].index])
  }

  function Units(g: G.Groups): seq<seq<nat>> {
    Singles(g.singles) + Chains(g.chains, |g.chains|)
  }

  function SerialCalls(h: G.History): set<nat> {
    set k | k in h && h[k].concurrency.Serial?
  }

  /** The batch: a permit count of at least one, a semaphore only if it can
      matter, a lock only if some call is serial. */
  function BatchOf(g: G.Groups, h: G.History, maxParallel: nat, deadline: bool): E.Batch {
    var limit := if maxParallel == 0 then 1 else maxParallel;
    E.Batch(Units(g), SerialCalls(h), limit, |h| > limit, SerialCalls(h) != {}, deadline)
  }

  lemma {:induction false} ChainOrigin(chains: seq<seq<G.Job>>, n: nat, u: nat) returns (s: nat)
    requires n <= |chains| && u < |Chains(chains, n)|
    ensures s < n && chains[s] != [] && Chains(chains, n)[u] == Indices(chains[s])
    ensures |Chains(chains, s)| == u
    decreases n
  {
    if chains[n - 1] == [] || u < |Chains(chains, n - 1)| {
      s := ChainOrigin(chains, n - 1, u);
    } else {
      s := n - 1;
    }
  }

  lemma {:induction false} ChainListed(chains: seq<seq<G.Job>>, n: nat, s: nat) returns (u: nat)
    requires n <= |chains| && s < n && chains[s] != []
    ensures u < |Chains(chains, n)| && Chains(chains, n)[u] == Indices(chains[s])
    decreases n
  {
    if s == n - 1 {
      u := |Chains(chains, n - 1)|;
    } else {
      u := ChainListed(chains, n - 1, s);
    }
  }

  /** The spot of the job at place `x` of unit `u`. */
  lemma SpotOf(g: G.Groups, u: nat, x: nat) returns (spot: G.Spot)
    requires u < |Units(g)| && x < |Units(g)[u]|
    ensures G.IsSpot(g, spot) && G.At(g, spot).index == Units(g)[u][x]
    ensures spot.Single? ==> u == spot.at && x == 0
    ensures spot.InChain? ==> u == |g.singles| + |Chains(g.chains, spot.chain)| && x == spot.at
  {
    if u < |g.singles| {
      spot := G.Single(u);
    } else {
      var s := ChainOrigin(g.chains, |g.chains|, u - |g.singles|);
      spot := G.InChain(s, x);
    }
  }

  lemma UnitOf(g: G.Groups, spot: G.Spot) returns (u: nat, x: nat)
    requires G.IsSpot(g, spot)
    ensures u < |Units(g)| && x < |Units(g)[u]| && Units(g)[u][x] == G.At(g, spot).index
    ensures spot.InChain? ==> x == spot.at && Units(g)[u] == Indices(g.chains[spot.chain])
  {
    match spot
    case Single(at) =>
      u, x := at, 0;
    case InChain(chain, at) =>
      var v := ChainListed(g.chains, |g.chains|, chain);
      u, x := |g.singles| + v, at;
  }

  lemma UnitsMembers(g: G.Groups, h: G.History, b: E.Batch, i: nat)
    requires G.Grouped(g, h, h.Keys) && b.units == Units(g)
    ensures i in h.Keys <==> E.Member(b, i)
  {
    hide G.Grouped, Units;
    if i in h {
      G.EachHeld(g, h, i);
      var spot :| G.IsSpot(g, spot) && G.At(g, spot) == G.Job(i, h[i].input, h[i].concurrency.Serial?);
      var u, x := UnitOf(g, spot);
      assert i in b.units[u];
    }
    if E.Member(b, i) {
      var u :| 0 <= u < |b.units| && i in b.units[u];
      var x :| 0 <= x < |b.units[u]| && b.units[u][x] == i;
      var spot := SpotOf(g, u, x);
      G.SpotIndex(g, h, spot);
    }
  }

  lemma OnePlace(g: G.Groups, h: G.History, b: E.Batch, i: nat, u: int, x: int, v: int, y: int)
    requires G.Grouped(g, h, h.Keys) && b.units == Units(g)
    requires E.Place(b, i, u, x) && E.Place(b, i, v, y)
    ensures u == v && x == y
  {
    hide G.Grouped, Units;
    var p := SpotOf(g, u, x);
    var q := SpotOf(g, v, y);
    G.HeldOnce(g, h, p, q);
  }

  /** The grouped calls form a well-formed batch. */
  lemma BatchWellFormed(g: G.Groups, h: G.History, maxParallel: nat, deadline: bool)
    requires G.Grouped(g, h, h.Keys)
    ensures E.WellFormed(BatchOf(g, h, maxParallel, deadline), h.Keys)
  {
    hide G.Grouped, Units;
    var b := BatchOf(g, h, maxParallel, deadline);
    forall i
      ensures i in h.Keys <==> E.Member(b, i)
    {
      UnitsMembers(g, h, b, i);
    }
    forall i, u, x, v, y | E.Place(b, i, u, x) && E.Place(b, i, v, y)
      ensures u == v && x == y
    {
      OnePlace(g, h, b, i, u, x, v, y);
    }
    assert |h| == |h.Keys|;
  }

  /** In every state of every run of the batch at most the permitted number of
      calls run, one if none is permitted, and a serial call runs alone. */
  lemma LimitsHold(g: G.Groups, h: G.History, maxParallel: nat, deadline: bool,
                   ss: seq<E.State>, as_: seq<E.Action>, k: nat)
    requires G.Grouped(g, h, h.Keys)
    requires E.RunOf(BatchOf(g, h, maxParallel, deadline), h.Keys, ss, as_) && k <= |as_|
    ensures |E.Active(ss[k])| <= if maxParallel == 0 then 1 else maxParallel
    ensures forall i :: i in E.Active(ss[k]) && i in h && h[i].concurrency.Serial? ==> E.Active(ss[k]) == {i}
  {
    hide G.Grouped, Units, E.WellFormed, E.RunOf, E.Active;
    BatchWellFormed(g, h, maxParallel, deadline);
    E.NeverTooMany(BatchOf(g, h, maxParallel, deadline), h.Keys, ss, as_, k);
  }

  /** In every state of every run of the batch, a call that shares a key with
      an earlier one has not begun before that one is done. */
  lemma SharedKeysNeverOverlap(g: G.Groups, h: G.History, maxParallel: nat, deadline: bool,
                               ss: seq<E.State>, as_: seq<E.Action>, k: nat, i: nat, j: nat)
    requires G.Grouped(g, h, h.Keys) && G.Share(h, i, j) && i < j
    requires E.RunOf(BatchOf(g, h, maxParallel, deadline), h.Keys, ss, as_) && k <= |as_|
    ensures i in ss[k].phase && j in ss[k].phase
    ensures !ss[k].phase[j].Idle? ==> ss[k].phase[i].Done?
  {
    hide G.Grouped, Units, E.Step, E.WellFormed, G.InSlot;
    BatchWellFormed(g, h, maxParallel, deadline);
    var s := SharedChain(g, h, i, j);
    var x :| 0 <= x < |g.chains[s]| && g.chains[s][x].index == i;
    var y :| 0 <= y < |g.chains[s]| && g.chains[s][y].index == j;
    G.SharedKeyOrder(g, h, s, x, y);
    var u, x' := UnitOf(g, G.InChain(s, x));
    E.UnitInOrder(BatchOf(g, h, maxParallel, deadline), h.Keys, ss, as_, k, u, x, y);
  }

  lemma SharedChain(g: G.Groups, h: G.History, i: nat, j: nat) returns (s: nat)
    requires G.Grouped(g, h, h.Keys) && G.Share(h, i, j)
    ensures s < |g.chains| && G.Holds(g.chains[s], i) && G.Holds(g.chains[s], j)
  {
    hide G.Grouped, G.Linked, G.InSlot;
    G.LinkedShare(h, i, j);
    G.TogetherIffLinked(g, h, i, j);
    s :| 0 <= s < |g.chains| && G.Holds(g.chains[s], i) && G.Holds(g.chains[s], j);
  }

  // ----- results in call order -----

  function Interrupted(cause: E.Cause, when_: E.When): string {
    var phase := if when_.Before? then "before execution" else "during execution";
    match cause
    case Cancelled => "cancelled " + phase
    case DeadlineExceeded => "run deadline exceeded " + phase
  }

  function ResultOf(call: ToolCall, outcome: E.Outcome): ToolResult {
    match outcome
    case Answered(Ok(output)) => OkResult(call, output)
    case Answered(Err(message)) => ErrorResult(call, message)
    case Stopped(cause, when_) => ErrorResult(call, Interrupted(cause, when_))
  }

  /** The result says what came of the call: the tool's answer, its error, or
      what stopped it and when. */
  ghost predicate Tells(call: ToolCall, outcome: E.Outcome, r: ToolResult) {
    && r.callId == call.id
    && r.toolName == call.name
    && match outcome
       case Answered(Ok(output)) => !r.isError && r.output == Value(output)
       case Answered(Err(message)) => r.isError && r.output == Error(message)
       case Stopped(Cancelled, Before) => r.isError && r.output == Error("cancelled before execution")
       case Stopped(Cancelled, During) => r.isError && r.output == Error("cancelled during execution")
       case Stopped(DeadlineExceeded, Before) =>
         r.isError && r.output == Error("run deadline exceeded before execution")
       case Stopped(DeadlineExceeded, During) =>
         r.isError && r.output == Error("run deadline exceeded during execution")
  }

  lemma ResultTells(call: ToolCall, outcome: E.Outcome)
    ensures Tells(call, outcome, ResultOf(call, outcome))
  {
    assert "cancelled " + "before execution" == "cancelled before execution";
    assert "cancelled " + "during execution" == "cancelled during execution";
    assert "run deadline exceeded " + "before execution" == "run deadline exceeded before execution";
    assert "run deadline exceeded " + "during execution" == "run deadline exceeded during execution";
  }

  /** The result of a call before any hook reviews it, executed or not. */
  ghost predicate RawRight(tools: Tools, hooks: seq<BeforeHook>, call: ToolCall, k: nat,
                           outcomes: map<nat, E.Outcome>, r: ToolResult)
  {
    match FateOf(tools, hooks, call)
    case Unknown => r == ToolResult(call.id, call.name, Error("unknown tool: " + call.name), true)
    case Refused(reason) => r == ToolResult(call.id, call.name, Error("denied: " + reason), true)
    case Aborted(_) => false
    case Accepted(_, _) => k in outcomes && Tells(call, outcomes[k], r)
  }

  /** Results of the finished batch go to the slots of their calls. */
  ghost predicate SlotsFilled(calls: seq<ToolCall>, slots: seq<Option<ToolResult>>, outcomes: map<nat, E.Outcome>,
                              jobs: set<nat>, filled: seq<Option<ToolResult>>, executed: seq<bool>)
  {
    && |slots| == |filled| == |executed| == |calls|
    && forall k :: 0 <= k < |calls| ==>
         && (executed[k] <==> k in jobs)
         && (if k in jobs then k in outcomes && filled[k] == Some(ResultOf(calls[k], outcomes[k]))
             else filled[k] == slots[k])
  }

  ghost predicate Finished(outcomes: map<nat, E.Outcome>, jobs: set<nat>, n: nat) {
    forall i :: i in jobs ==> i < n && i in outcomes
  }

  ghost function Covered(units: seq<seq<nat>>, n: nat): set<nat>
    requires n <= |units|
  {
    set u, x | 0 <= u < n && 0 <= x < |units[u]| :: units[u][x]
  }

  ghost function UpTo(unit: seq<nat>, n: nat): set<nat>
    requires n <= |unit|
  {
    set x | 0 <= x < n :: unit[x]
  }

  lemma FillOne(calls: seq<ToolCall>, before: seq<Option<ToolResult>>, outcomes: map<nat, E.Outcome>, jobs: set<nat>,
                filled: seq<Option<ToolResult>>, executed: seq<bool>, i: nat)
    requires SlotsFilled(calls, before, outcomes, jobs, filled, executed) && i < |calls| && i in outcomes
    ensures |filled| == |executed| == |calls|
    ensures SlotsFilled(calls, before, outcomes, jobs + {i}, filled[i := Some(ResultOf(calls[i], outcomes[i]))],
                        executed[i := true])
  {
    hide ResultOf;
  }

  method FillUnit(calls: seq<ToolCall>, unit: seq<nat>, outcomes: map<nat, E.Outcome>, slots: seq<Option<ToolResult>>,
                  executed: seq<bool>, ghost before: seq<Option<ToolResult>>, ghost jobs: set<nat>)
    returns (filled: seq<Option<ToolResult>>, executed': seq<bool>)
    requires SlotsFilled(calls, before, outcomes, jobs, slots, executed)
    requires forall x :: 0 <= x < |unit| ==> unit[x] < |calls| && unit[x] in outcomes
    ensures SlotsFilled(calls, before, outcomes, jobs + UpTo(unit, |unit|), filled, executed')
  {
    hide SlotsFilled, ResultOf;
    filled, executed' := slots, executed;
    assert jobs + UpTo(unit, 0) == jobs;
    for x := 0 to |unit|
      invariant SlotsFilled(calls, before, outcomes, jobs + UpTo(unit, x), filled, executed')
    {
      var i := unit[x];
      FillOne(calls, before, outcomes, jobs + UpTo(unit, x), filled, executed', i);
      executed' := executed'[i := true];
      filled := filled[i := Some(ResultOf(calls[i], outcomes[i]))];
      assert jobs + UpTo(unit, x + 1) == jobs + UpTo(unit, x) + {i};
    }
  }

  method FillSlots(calls: seq<ToolCall>, units: seq<seq<nat>>, outcomes: map<nat, E.Outcome>,
                   slots: seq<Option<ToolResult>>)
    returns (filled: seq<Option<ToolResult>>, executed: seq<bool>)
    requires |slots| == |calls| && Finished(outcomes, Covered(units, |units|), |calls|)
    ensures SlotsFilled(calls, slots, outcomes, Covered(units, |units|), filled, executed)
    ensures forall k :: k in Covered(units, |units|) ==>
              executed[k] && filled[k].Some? && Tells(calls[k], outcomes[k], filled[k].value)
  {
    hide Tells, ResultOf;
    filled, executed := slots, seq(|calls|, _ => false);
    assert Covered(units, 0) == {};
    for u := 0 to |units|
      invariant SlotsFilled(calls, slots, outcomes, Covered(units, u), filled, executed)
    {
      assert forall x :: 0 <= x < |units[u]| ==> units[u][x] in Covered(units, |units|);
      ghost var more := UpTo(units[u], |units[u]|);
      filled, executed := FillUnit(calls, units[u], outcomes, filled, executed, slots, Covered(units, u));
      assert Covered(units, u + 1) == Covered(units, u) + more;
    }
    forall k | k in Covered(units, |units|)
      ensures executed[k] && filled[k].Some? && Tells(calls[k], outcomes[k], filled[k].value)
    {
      ResultTells(calls[k], outcomes[k]);
    }
  }

  /** The first `n` hooks after a call, each fed the previous one's result. */
  function Reviewed(hooks: seq<AfterHook>, n: nat, call: ToolCall, result: ToolResult): Result<ToolResult, string>
    requires n <= |hooks|
  {
    if n == 0 then Ok(result)
    else
      match Reviewed(hooks, n - 1, call, result)
      case Err(message) => Err(message)
      case Ok(before) => hooks[n - 1](call, before)
  }

  /** A row of results, each what the next hook makes of the one before. */
  ghost predicate ReviewRow(hooks: seq<AfterHook>, call: ToolCall, row: seq<ToolResult>) {
    |row| <= |hooks| + 1 && forall i :: 0 <= i < |row| - 1 ==> hooks[i](call, row[i]) == Ok(row[i + 1])
  }

  /** The hooks review one after the other: the result is the end of the row
      that begins with the tool's, and an error the first one in it. */
  lemma {:induction false} ReviewMeaning(hooks: seq<AfterHook>, n: nat, call: ToolCall, result: ToolResult)
    returns (row: seq<ToolResult>)
    requires n <= |hooks|
    ensures row != [] && row[0] == result && ReviewRow(hooks, call, row) && |row| <= n + 1
    ensures match Reviewed(hooks, n, call, result)
            case Ok(last) => |row| == n + 1 && row[n] == last
            case Err(message) => |row| <= n && hooks[|row| - 1](call, row[|row| - 1]) == Err(message)
    decreases n
  {
    if n == 0 {
      row := [result];
    } else {
      row := ReviewMeaning(hooks, n - 1, call, result);
      var before := Reviewed(hooks, n - 1, call, result);
      if before.Ok? {
        var next := hooks[n - 1](call, before.value);
        if next.Ok? {
          row := row + [next.value];
        }
      }
    }
  }

  lemma {:induction false} ReviewEnds(hooks: seq<AfterHook>, m: nat, n: nat, call: ToolCall, result: ToolResult)
    requires m <= n <= |hooks| && Reviewed(hooks, m, call, result).Err?
    ensures Reviewed(hooks, n, call, result) == Reviewed(hooks, m, call, result)
    decreases n
  {
    if m < n {
      ReviewEnds(hooks, m, n - 1, call, result);
    }
  }

  method Review(hooks: seq<AfterHook>, call: ToolCall, result: ToolResult) returns (r: Result<ToolResult, string>)
    ensures r == Reviewed(hooks, |hooks|, call, result)
  {
    var current := result;
    for n := 0 to |hooks|
      invariant Reviewed(hooks, n, call, result) == Ok(current)
    {
      var next := hooks[n](call, current);
      if next.Err? {
        ReviewEnds(hooks, n + 1, |hooks|, call, result);
        return next;
      }
      current := next.value;
    }
    r := Ok(current);
  }

  ghost predicate Collected(calls: seq<ToolCall>, slots: seq<Option<ToolResult>>, executed: seq<bool>,
                            hooks: seq<AfterHook>, n: nat, results: seq<ToolResult>)
    requires n <= |calls| == |slots| == |executed|
  {
    && |results| == n
    && forall k :: 0 <= k < n ==>
         slots[k].Some? &&
         if executed[k] then Reviewed(hooks, |hooks|, calls[k], slots[k].value) == Ok(results[k])
         else results[k] == slots[k].value
  }

  method Collect(calls: seq<ToolCall>, slots: seq<Option<ToolResult>>, executed: seq<bool>, hooks: seq<AfterHook>)
    returns (r: Result<seq<ToolResult>, Failure>)
    requires |calls| == |slots| == |executed|
    ensures r.Ok? ==> Collected(calls, slots, executed, hooks, |calls|, r.value)
    ensures r.Err? && r.error.MissingResult? ==> r.error.index < |slots| && slots[r.error.index].None?
    ensures r.Err? && !r.error.MissingResult? ==>
              r.error.HookFailed?
              && exists k :: 0 <= k < |calls| && executed[k] && slots[k].Some?
                             && Reviewed(hooks, |hooks|, calls[k], slots[k].value) == Err(r.error.message)
  {
    var results: seq<ToolResult> := [];
    for k := 0 to |calls|
      invariant Collected(calls, slots, executed, hooks, k, results)
    {
      if slots[k].None? {
        return Err(MissingResult(k));
      }
      var result := slots[k].value;
      if executed[k] {
        var reviewed := Review(hooks, calls[k], result);
        if reviewed.Err? {
          return Err(HookFailed(reviewed.error));
        }
        result := reviewed.value;
      }
      results := results + [result];
    }
    r := Ok(results);
  }

  // ----- the batch as a whole -----

  lemma CoveredIsHistory(g: G.Groups, h: G.History, b: E.Batch)
    requires G.Grouped(g, h, h.Keys) && b.units == Units(g)
    ensures Covered(Units(g), |Units(g)|) == h.Keys
  {
    hide G.Grouped, Units;
    forall i
      ensures i in Covered(Units(g), |Units(g)|) <==> i in h.Keys
    {
      UnitsMembers(g, h, b, i);
    }
  }

  lemma {:induction false} ListedOnce(refused: seq<nat>, k: nat)
    requires forall x, y :: 0 <= x < y < |refused| ==> refused[x] < refused[y]
    ensures multiset(refused)[k] == if k in refused then 1 else 0
  {
    if refused != [] {
      var front, last := refused[..|refused| - 1], refused[|refused| - 1];
      ListedOnce(front, k);
      assert refused == front + [last];
    }
  }

  /** The outcomes of a finished state. */
  ghost function OutcomesOf(s: E.State): map<nat, E.Outcome>
    requires E.AllDone(s)
  {
    map i | i in s.phase :: s.phase[i].outcome
  }

  /** How the concurrent part of a batch turns out, with these inputs. */
  type World = (E.Batch, map<nat, string>) -> map<nat, E.Outcome>

  /** The inputs that the jobs carry. */
  function InputsOf(jobs: seq<G.Job>): map<nat, string> {
    if jobs == [] then map[] else InputsOf(jobs[..|jobs| - 1])[jobs[|jobs| - 1].index := jobs[|jobs| - 1].input]
  }

  function JobsOf(chains: seq<seq<G.Job>>): seq<G.Job> {
    if chains == [] then [] else JobsOf(chains[..|chains| - 1]) + chains[|chains| - 1]
  }

  /** The accepted inputs by call. */
  ghost function Inputs(h: G.History): map<nat, string> {
    map i | i in h :: h[i].input
  }

  lemma {:induction false} InputsFrom(jobs: seq<G.Job>, h: G.History)
    requires forall x :: 0 <= x < |jobs| ==> jobs[x].index in h && jobs[x].input == h[jobs[x].index].input
    ensures forall i :: i in InputsOf(jobs) <==> exists x :: 0 <= x < |jobs| && jobs[x].index == i
    ensures forall i :: i in InputsOf(jobs) ==> i in h && InputsOf(jobs)[i] == h[i].input
  {
    if jobs != [] {
      InputsFrom(jobs[..|jobs| - 1], h);
    }
  }

  lemma {:induction false} JobsMembers(chains: seq<seq<G.Job>>, job: G.Job)
    ensures job in JobsOf(chains) <==> exists s :: 0 <= s < |chains| && job in chains[s]
  {
    if chains != [] {
      JobsMembers(chains[..|chains| - 1], job);
      assert chains == chains[..|chains| - 1] + [chains[|chains| - 1]];
    }
  }

  /** The jobs carry just the accepted inputs. */
  lemma InputsHeld(g: G.Groups, h: G.History)
    requires G.Grouped(g, h, h.Keys)
    ensures InputsOf(g.singles + JobsOf(g.chains)) == Inputs(h)
  {
    hide G.Grouped, G.Genuine, JobsOf, InputsOf;
    var jobs := g.singles + JobsOf(g.chains);
    forall job | job in jobs
      ensures job.index in h && job.input == h[job.index].input
    {
      JobGenuine(g, h, job);
    }
    InputsFrom(jobs, h);
    forall i | i in h
      ensures exists x :: 0 <= x < |jobs| && jobs[x].index == i
    {
      var job := JobHeld(g, h, i);
      var x :| 0 <= x < |jobs| && jobs[x] == job;
    }
  }

  lemma JobGenuine(g: G.Groups, h: G.History, job: G.Job)
    requires G.Grouped(g, h, h.Keys) && job in g.singles + JobsOf(g.chains)
    ensures job.index in h && job.input == h[job.index].input
  {
    hide G.Grouped, JobsOf;
    JobsMembers(g.chains, job);
    var spot: G.Spot;
    if job in g.singles {
      var x :| 0 <= x < |g.singles| && g.singles[x] == job;
      spot := G.Single(x);
    } else {
      var s :| 0 <= s < |g.chains| && job in g.chains[s];
      var x :| 0 <= x < |g.chains[s]| && g.chains[s][x] == job;
      spot := G.InChain(s, x);
    }
    G.SpotGenuine(g, h, spot);
    assert G.At(g, spot) == job;
  }

  lemma JobHeld(g: G.Groups, h: G.History, i: nat) returns (job: G.Job)
    requires G.Grouped(g, h, h.Keys) && i in h
    ensures job in g.singles + JobsOf(g.chains) && job.index == i
  {
    hide G.Grouped, JobsOf;
    G.EachHeld(g, h, i);
    var spot :| G.IsSpot(g, spot) && G.At(g, spot) == G.Job(i, h[i].input, h[i].concurrency.Serial?);
    job := G.At(g, spot);
    JobsMembers(g.chains, job);
  }

  ghost predicate EndsSo(b: E.Batch, jobs: set<nat>, outcomes: map<nat, E.Outcome>, ss: seq<E.State>,
                         as_: seq<E.Action>) {
    E.RunOf(b, jobs, ss, as_) && E.AllDone(ss[|as_|]) && OutcomesOf(ss[|as_|]) == outcomes
  }

  ghost predicate Happens(b: E.Batch, jobs: set<nat>, outcomes: map<nat, E.Outcome>) {
    exists ss, as_ :: EndsSo(b, jobs, outcomes, ss, as_)
  }

  /** Whatever the batch, it turns out as some complete run of it does. */
  ghost predicate Real(world: World) {
    forall b, jobs, inputs :: E.WellFormed(b, jobs) ==> Happens(b, jobs, world(b, inputs))
  }

  lemma SlotsPaired(tools: Tools, hooks: seq<BeforeHook>, calls: seq<ToolCall>, strip: bool, p: Prepared, h: G.History,
                    outcomes: map<nat, E.Outcome>, filled: seq<Option<ToolResult>>, executed: seq<bool>)
    requires NoneAborted(tools, hooks, calls, |calls|) && h == Requests(tools, hooks, calls, |calls|)
    requires SlotsSet(tools, hooks, calls, |calls|, p.slots) && CallsKept(tools, hooks, calls, |calls|, strip, p.calls)
    requires SlotsFilled(p.calls, p.slots, outcomes, h.Keys, filled, executed)
    ensures |filled| == |executed| == |calls|
    ensures forall k :: 0 <= k < |calls| ==>
              && filled[k].Some?
              && filled[k].value.callId == calls[k].id
              && filled[k].value.toolName == calls[k].name
              && (executed[k] <==> FateOf(tools, hooks, calls[k]).Accepted?)
  {
    hide FateOf, Interrupted;
  }

  /** Every slot holds the right result. */
  lemma SlotsRight(tools: Tools, hooks: seq<BeforeHook>, calls: seq<ToolCall>, strip: bool, p: Prepared, h: G.History,
                   outcomes: map<nat, E.Outcome>, filled: seq<Option<ToolResult>>, executed: seq<bool>)
    requires NoneAborted(tools, hooks, calls, |calls|) && h == Requests(tools, hooks, calls, |calls|)
    requires SlotsSet(tools, hooks, calls, |calls|, p.slots) && CallsKept(tools, hooks, calls, |calls|, strip, p.calls)
    requires SlotsFilled(p.calls, p.slots, outcomes, h.Keys, filled, executed)
    ensures |filled| == |calls|
    ensures forall k :: 0 <= k < |calls| ==>
              filled[k].Some? && RawRight(tools, hooks, calls[k], k, outcomes, filled[k].value)
  {
    hide FateOf, ResultOf, Tells;
    forall k | 0 <= k < |calls|
      ensures filled[k].Some? && RawRight(tools, hooks, calls[k], k, outcomes, filled[k].value)
    {
      if k in h {
        ResultTells(p.calls[k], outcomes[k]);
        TellsSame(p.calls[k], calls[k], outcomes[k], filled[k].value);
      }
    }
  }

  lemma TellsSame(a: ToolCall, b: ToolCall, outcome: E.Outcome, r: ToolResult)
    requires a.id == b.id && a.name == b.name && Tells(a, outcome, r)
    ensures Tells(b, outcome, r)
  {
  }

  lemma HeardOnce(tools: Tools, hooks: seq<BeforeHook>, calls: seq<ToolCall>, p: Prepared, h: G.History,
                  reported: multiset<nat>)
    requires NoneAborted(tools, hooks, calls, |calls|) && h == Requests(tools, hooks, calls, |calls|)
    requires RefusedListed(tools, hooks, calls, |calls|, p.refused) && reported == multiset(h.Keys)
    ensures forall k :: 0 <= k < |calls| ==>
              (multiset(p.refused) + reported)[k] == if FateOf(tools, hooks, calls[k]).Unknown? then 0 else 1
  {
    hide FateOf;
    forall k | 0 <= k < |calls|
      ensures (multiset(p.refused) + reported)[k] == if FateOf(tools, hooks, calls[k]).Unknown? then 0 else 1
    {
      ListedOnce(p.refused, k);
    }
  }

  /** The serial calls, as the groups hold them. */
  function SerialOf(g: G.Groups): set<nat>
    requires g.serial.Some? ==> g.serial.value < |g.chains|
  {
    if g.serial.Some? then set x | 0 <= x < |g.chains[g.serial.value]| :: g.chains[g.serial.value][x].index else {}
  }

  lemma SerialCallsHeld(g: G.Groups, h: G.History)
    requires G.Grouped(g, h, h.Keys)
    ensures g.serial.Some? ==> g.serial.value < |g.chains|
    ensures SerialOf(g) == SerialCalls(h)
  {
    hide G.AllHoused, G.SlotsLinked, G.KeyChains, G.KeySlots;
    forall i | i in SerialCalls(h)
      ensures i in SerialOf(g)
    {
      assert G.Alone(h[i].concurrency);
      var chain := g.chains[g.serial.value];
      assert G.Holds(chain, i);
      var x :| 0 <= x < |chain| && chain[x].index == i;
    }
  }

  ghost predicate Heard(tools: Tools, hooks: seq<BeforeHook>, calls: seq<ToolCall>, reported: multiset<nat>) {
    forall k :: 0 <= k < |calls| ==> reported[k] == if FateOf(tools, hooks, calls[k]).Unknown? then 0 else 1
  }

  /** Every slot holds a result of its own call, executed or not. */
  ghost predicate Answered(tools: Tools, hooks: seq<BeforeHook>, calls: seq<ToolCall>,
                           filled: seq<Option<ToolResult>>, executed: seq<bool>) {
    && |filled| == |executed| == |calls|
    && forall k :: 0 <= k < |calls| ==>
         && filled[k].Some?
         && filled[k].value.callId == calls[k].id
         && filled[k].value.toolName == calls[k].name
         && (executed[k] <==> FateOf(tools, hooks, calls[k]).Accepted?)
  }

  ghost predicate AllRaw(tools: Tools, hooks: seq<BeforeHook>, calls: seq<ToolCall>, outcomes: map<nat, E.Outcome>,
                         filled: seq<Option<ToolResult>>)
  {
    && |filled| == |calls|
    && forall k :: 0 <= k < |calls| ==>
         filled[k].Some? && RawRight(tools, hooks, calls[k], k, outcomes, filled[k].value)
  }

  lemma AllRawDef(tools: Tools, hooks: seq<BeforeHook>, calls: seq<ToolCall>, outcomes: map<nat, E.Outcome>,
                  filled: seq<Option<ToolResult>>)
    requires |filled| == |calls|
    requires forall k :: 0 <= k < |calls| ==>
               filled[k].Some? && RawRight(tools, hooks, calls[k], k, outcomes, filled[k].value)
    ensures AllRaw(tools, hooks, calls, outcomes, filled)
  {
  }

  /** The batch of the accepted calls, in a grouping of them. */
  ghost predicate IsBatch(h: G.History, maxParallel: nat, deadline: bool, b: E.Batch) {
    && (exists g :: G.Grouped(g, h, h.Keys) && b.units == Units(g))
    && (forall i :: i in b.exclusive <==> i in h && h[i].concurrency.Serial?)
    && b.limit == (if maxParallel > 1 then maxParallel else 1)
    && (b.permits <==> |h| > b.limit)
    && (b.locks <==> exists i :: i in h && h[i].concurrency.Serial?)
    && b.deadline == deadline
  }

  lemma IsBatchDef(g: G.Groups, h: G.History, maxParallel: nat, deadline: bool)
    requires G.Grouped(g, h, h.Keys)
    ensures IsBatch(h, maxParallel, deadline, BatchOf(g, h, maxParallel, deadline))
  {
    hide G.Grouped, Units;
    assert forall i :: i in SerialCalls(h) <==> i in h && h[i].concurrency.Serial?;
  }

  /** The result of one call: the error of an unknown or denied one, or what
      came of it in the batch, reviewed by the hooks after it. */
  ghost predicate Reply(tools: Tools, hooks: seq<BeforeHook>, after: seq<AfterHook>, call: ToolCall, k: nat,
                        outcomes: map<nat, E.Outcome>, r: ToolResult)
  {
    if FateOf(tools, hooks, call).Accepted? then
      exists raw :: RawRight(tools, hooks, call, k, outcomes, raw) && Reviewed(after, |after|, call, raw) == Ok(r)
    else RawRight(tools, hooks, call, k, outcomes, r)
  }

  ghost predicate Replies(tools: Tools, hooks: seq<BeforeHook>, after: seq<AfterHook>, calls: seq<ToolCall>,
                          outcomes: map<nat, E.Outcome>, results: seq<ToolResult>)
  {
    && |results| == |calls|
    && forall k :: 0 <= k < |calls| ==> Reply(tools, hooks, after, calls[k], k, outcomes, results[k])
  }

  lemma CollectedReplies(tools: Tools, hooks: seq<BeforeHook>, calls: seq<ToolCall>, strip: bool, p: Prepared,
                         outcomes: map<nat, E.Outcome>, filled: seq<Option<ToolResult>>, executed: seq<bool>,
                         after: seq<AfterHook>, results: seq<ToolResult>)
    requires Answered(tools, hooks, calls, filled, executed) && AllRaw(tools, hooks, calls, outcomes, filled)
    requires CallsKept(tools, hooks, calls, |calls|, strip, p.calls) && (strip ==> after == [])
    requires Collected(p.calls, filled, executed, after, |calls|, results)
    ensures Replies(tools, hooks, after, calls, outcomes, results)
  {
    hide FateOf, RawRight, Reviewed;
    forall k | 0 <= k < |calls|
      ensures Reply(tools, hooks, after, calls[k], k, outcomes, results[k])
    {
      SameReview(after, p.calls[k], calls[k], filled[k].value);
    }
  }

  lemma SameReview(hooks: seq<AfterHook>, a: ToolCall, b: ToolCall, result: ToolResult)
    ensures a == b || hooks == [] ==> Reviewed(hooks, |hooks|, a, result) == Reviewed(hooks, |hooks|, b, result)
  {
  }

  /** Without hooks after the calls, what a call gets is what came of it. */
  lemma UnreviewedReply(tools: Tools, hooks: seq<BeforeHook>, call: ToolCall, k: nat, outcomes: map<nat, E.Outcome>,
                        r: ToolResult)
    requires Reply(tools, hooks, [], call, k, outcomes, r)
    ensures RawRight(tools, hooks, call, k, outcomes, r)
  {
    hide FateOf, RawRight;
  }

  /** Runs the accepted calls and fills their slots. Afterwards every slot
      holds a result for its own call, and whoever watches for finished calls
      has heard of each executed or denied call exactly once. */
  method RunBatch(tools: Tools, hooks: seq<BeforeHook>, calls: seq<ToolCall>, strip: bool, p: Prepared,
                  grouping: G.Grouping, maxParallel: nat, deadline: bool, world: World)
    returns (filled: seq<Option<ToolResult>>, executed: seq<bool>, ghost reported: multiset<nat>, ghost batch: E.Batch)
    requires grouping.Valid() && grouping.history == Requests(tools, hooks, calls, |calls|)
    requires NoneAborted(tools, hooks, calls, |calls|) && Real(world)
    requires SlotsSet(tools, hooks, calls, |calls|, p.slots) && CallsKept(tools, hooks, calls, |calls|, strip, p.calls)
    requires RefusedListed(tools, hooks, calls, |calls|, p.refused)
    requires p.jobs == |grouping.history| && (p.serial <==> SerialSeen(grouping.history))
    ensures Answered(tools, hooks, calls, filled, executed) && Heard(tools, hooks, calls, reported)
    ensures IsBatch(grouping.history, maxParallel, deadline, batch)
    ensures AllRaw(tools, hooks, calls, world(batch, Inputs(grouping.history)), filled)
  {
    hide *;
    var g := G.Groups(grouping.singles, grouping.chains, grouping.keyed, grouping.serial);
    ghost var h := grouping.history;
    GroupingHolds(grouping);
    SerialCallsHeld(g, h);
    var limit := if maxParallel == 0 then 1 else maxParallel;
    var b := E.Batch(Units(g), SerialOf(g), limit, p.jobs > limit, p.serial, deadline);
    SameBatchOf(g, h, maxParallel, deadline, p);
    BatchWellFormed(g, h, maxParallel, deadline);
    batch := b;
    IsBatchDef(g, h, maxParallel, deadline);
    InputsHeld(g, h);
    var inputs := InputsOf(g.singles + JobsOf(g.chains));
    var outcomes := world(b, inputs);
    ghost var ss, as_ := RunOfWorld(world, b, h.Keys, inputs);
    OverMeansFinished(g, h, |calls|, b, ss, as_, tools, hooks, calls);
    KeptLength(tools, hooks, calls, strip, p);
    filled, executed := FillSlots(p.calls, b.units, outcomes, p.slots);
    CoveredIsHistory(g, h, b);
    SlotsPaired(tools, hooks, calls, strip, p, h, outcomes, filled, executed);
    SlotsRight(tools, hooks, calls, strip, p, h, outcomes, filled, executed);
    AllRawDef(tools, hooks, calls, outcomes, filled);
    AnsweredDef(tools, hooks, calls, filled, executed);
    reported := multiset(p.refused) + ss[|as_|].reported;
    HeardOnce(tools, hooks, calls, p, h, ss[|as_|].reported);
    HeardDef(tools, hooks, calls, reported);
  }

  lemma GroupingHolds(grouping: G.Grouping)
    requires grouping.Valid()
    ensures var g := G.Groups(grouping.singles, grouping.chains, grouping.keyed, grouping.serial);
            G.Grouped(g, grouping.history, grouping.history.Keys)
  {
    hide G.Grouped;
  }

  lemma SameBatchOf(g: G.Groups, h: G.History, maxParallel: nat, deadline: bool, p: Prepared)
    requires G.Grouped(g, h, h.Keys) && p.jobs == |h| && (p.serial <==> SerialSeen(h))
    requires g.serial.Some? ==> g.serial.value < |g.chains|
    requires SerialOf(g) == SerialCalls(h)
    ensures var limit := if maxParallel == 0 then 1 else maxParallel;
            E.Batch(Units(g), SerialOf(g), limit, p.jobs > limit, p.serial, deadline)
            == BatchOf(g, h, maxParallel, deadline)
  {
    hide G.Grouped, Units, SerialOf;
    if SerialSeen(h) {
      var k :| k in h && h[k].concurrency.Serial?;
      assert k in SerialCalls(h);
    }
  }

  lemma RunOfWorld(world: World, b: E.Batch, jobs: set<nat>, inputs: map<nat, string>)
    returns (ss: seq<E.State>, as_: seq<E.Action>)
    requires Real(world) && E.WellFormed(b, jobs)
    ensures E.RunOf(b, jobs, ss, as_) && |ss| == |as_| + 1
    ensures E.AllDone(ss[|as_|]) && OutcomesOf(ss[|as_|]) == world(b, inputs)
    ensures ss[|as_|].phase.Keys == jobs && ss[|as_|].reported == multiset(jobs)
  {
    hide E.WellFormed, E.RunOf;
    assert Happens(b, jobs, world(b, inputs));
    ss, as_ :| EndsSo(b, jobs, world(b, inputs), ss, as_);
    RunLength(b, jobs, ss, as_);
    E.EndOfRun(b, jobs, ss, as_);
  }

  lemma RunLength(b: E.Batch, jobs: set<nat>, ss: seq<E.State>, as_: seq<E.Action>)
    requires E.RunOf(b, jobs, ss, as_)
    ensures |ss| == |as_| + 1
  {
  }

  lemma OverMeansFinished(g: G.Groups, h: G.History, n: nat, b: E.Batch, ss: seq<E.State>, as_: seq<E.Action>,
                          tools: Tools, hooks: seq<BeforeHook>, calls: seq<ToolCall>)
    requires G.Grouped(g, h, h.Keys) && b.units == Units(g) && n == |calls| && h == Requests(tools, hooks, calls, n)
    requires |ss| == |as_| + 1 && E.AllDone(ss[|as_|]) && ss[|as_|].phase.Keys == h.Keys
    ensures Finished(OutcomesOf(ss[|as_|]), Covered(Units(g), |Units(g)|), n)
  {
    hide Units, G.Grouped, FateOf;
    CoveredIsHistory(g, h, b);
  }

  lemma KeptLength(tools: Tools, hooks: seq<BeforeHook>, calls: seq<ToolCall>, strip: bool, p: Prepared)
    requires SlotsSet(tools, hooks, calls, |calls|, p.slots) && CallsKept(tools, hooks, calls, |calls|, strip, p.calls)
    ensures |p.slots| == |p.calls| == |calls|
    ensures forall k :: 0 <= k < |calls| ==> p.calls[k].id == calls[k].id
  {
    hide FateOf, EarlyResult;
  }

  lemma AnsweredDef(tools: Tools, hooks: seq<BeforeHook>, calls: seq<ToolCall>, filled: seq<Option<ToolResult>>,
                    executed: seq<bool>)
    requires |filled| == |executed| == |calls|
    requires forall k :: 0 <= k < |calls| ==>
               && filled[k].Some?
               && filled[k].value.callId == calls[k].id
               && filled[k].value.toolName == calls[k].name
               && (executed[k] <==> FateOf(tools, hooks, calls[k]).Accepted?)
    ensures Answered(tools, hooks, calls, filled, executed)
  {
  }

  lemma HeardDef(tools: Tools, hooks: seq<BeforeHook>, calls: seq<ToolCall>, reported: multiset<nat>)
    requires forall k :: 0 <= k < |calls| ==> reported[k] == if FateOf(tools, hooks, calls[k]).Unknown? then 0 else 1
    ensures Heard(tools, hooks, calls, reported)
  {
  }

  /** Hooks after a call that keep the id of the result they review. */
  ghost predicate KeepIds(hooks: seq<AfterHook>) {
    forall n, call, result :: 0 <= n < |hooks| ==> KeepsId(hooks[n], call, result)
  }

  ghost predicate KeepsId(hook: AfterHook, call: ToolCall, result: ToolResult) {
    hook(call, result).Ok? ==> hook(call, result).value.callId == result.callId
  }

  lemma {:induction false} ReviewKeepsId(hooks: seq<AfterHook>, n: nat, call: ToolCall, result: ToolResult)
    requires KeepIds(hooks) && n <= |hooks| && Reviewed(hooks, n, call, result).Ok?
    ensures Reviewed(hooks, n, call, result).value.callId == result.callId
  {
    if n > 0 {
      var before := Reviewed(hooks, n - 1, call, result);
      assert before.Ok?;
      ReviewKeepsId(hooks, n - 1, call, result);
      assert KeepsId(hooks[n - 1], call, before.value);
      assert Reviewed(hooks, n, call, result) == hooks[n - 1](call, before.value);
    }
  }

  /** The results of a batch answer its calls, in call order. */
  lemma CollectedAnswers(tools: Tools, hooks: seq<BeforeHook>, calls: seq<ToolCall>, kept: seq<ToolCall>,
                         filled: seq<Option<ToolResult>>, executed: seq<bool>, after: seq<AfterHook>,
                         results: seq<ToolResult>)
    requires Answered(tools, hooks, calls, filled, executed) && |kept| == |calls| && KeepIds(after)
    requires Collected(kept, filled, executed, after, |calls|, results)
    ensures Answers(calls, results)
  {
    hide FateOf, KeepIds, Reviewed;
    forall k | 0 <= k < |calls|
      ensures results[k].callId == calls[k].id
    {
      if executed[k] {
        ReviewKeepsId(after, |after|, kept[k], filled[k].value);
      }
    }
  }

  /** A whole dispatch. The batch fails only for bad ids or a failing hook:
      every slot is filled, so a missing result cannot be reported. If the
      hooks after the calls keep ids, the results answer the calls. */
  method Execute(tools: Tools, hooks: seq<BeforeHook>, after: seq<AfterHook>, around: bool, calls: seq<ToolCall>,
                 maxParallel: nat, deadline: bool, world: World)
    returns (r: Result<seq<ToolResult>, Failure>, ghost reported: multiset<nat>, ghost batch: E.Batch)
    requires Real(world)
    ensures r.Ok? ==>
              var h := Requests(tools, hooks, calls, |calls|);
              && IsBatch(h, maxParallel, deadline, batch)
              && Replies(tools, hooks, after, calls, world(batch, Inputs(h)), r.value)
    ensures r.Err? ==> FailsFor(tools, hooks, after, calls, r.error)
    ensures r.Err? ==> !r.error.MissingResult?
    ensures r.Ok? ==>
              Pairable(calls) && NoneAborted(tools, hooks, calls, |calls|) && Heard(tools, hooks, calls, reported)
    ensures r.Ok? ==> |r.value| == |calls|
    ensures r.Ok? && KeepIds(after) ==> Answers(calls, r.value)
  {
    hide *;
    reported := multiset{};
    var checked := ValidatePairing(calls);
    if checked.Err? {
      PairingFailure(tools, hooks, after, calls, checked.error);
      return Err(checked.error), reported, E.Batch([], {}, 0, false, false, false);
    }
    var grouping := new G.Grouping();
    var strip := !around && after == [];
    var prepared := Prepare(tools, hooks, calls, strip, grouping);
    if prepared.Err? {
      HookFailedBefore(tools, hooks, after, calls, prepared.error);
      return Err(prepared.error), reported, E.Batch([], {}, 0, false, false, false);
    }
    var p := prepared.value;
    var filled, executed;
    filled, executed, reported, batch :=
      RunBatch(tools, hooks, calls, strip, p, grouping, maxParallel, deadline, world);
    KeptLength(tools, hooks, calls, strip, p);
    AnsweredFull(tools, hooks, calls, filled, executed);
    r := Collect(p.calls, filled, executed, after);
    if r.Ok? {
      CollectedLength(p.calls, filled, executed, after, r.value);
      CollectedReplies(tools, hooks, calls, strip, p, world(batch, Inputs(grouping.history)), filled, executed, after,
                       r.value);
      if KeepIds(after) {
        CollectedAnswers(tools, hooks, calls, p.calls, filled, executed, after, r.value);
      }
    } else {
      HookFailedAfter(tools, hooks, after, calls, p.calls, filled, r.error);
    }
  }

  /** Why a dispatch fails: an id is empty or used twice, or a hook failed on
      some call, before it ran or on the way of its result. */
  ghost predicate FailsFor(tools: Tools, hooks: seq<BeforeHook>, after: seq<AfterHook>, calls: seq<ToolCall>,
                           error: Failure)
  {
    match error
    case EmptyId(_) => !Pairable(calls)
    case DuplicateId(_) => !Pairable(calls)
    case HookFailed(message) =>
      || (exists k :: 0 <= k < |calls| && FateOf(tools, hooks, calls[k]) == Aborted(message))
      || exists hook, call, result :: hook in after && FailsOn(hook, call, result, message)
    case MissingResult(_) => false
  }

  ghost predicate FailsOn(hook: AfterHook, call: ToolCall, result: ToolResult, message: string) {
    hook(call, result) == Err(message)
  }

  lemma HookFailedBefore(tools: Tools, hooks: seq<BeforeHook>, after: seq<AfterHook>, calls: seq<ToolCall>,
                         error: Failure)
    requires error.HookFailed?
    requires exists k :: 0 <= k < |calls| && FateOf(tools, hooks, calls[k]) == Aborted(error.message)
    ensures FailsFor(tools, hooks, after, calls, error)
  {
    hide FateOf;
  }

  lemma HookFailedAfter(tools: Tools, hooks: seq<BeforeHook>, after: seq<AfterHook>, calls: seq<ToolCall>,
                        kept: seq<ToolCall>, filled: seq<Option<ToolResult>>, error: Failure)
    requires error.HookFailed? && |kept| == |filled|
    requires exists k :: 0 <= k < |kept| && filled[k].Some?
                         && Reviewed(after, |after|, kept[k], filled[k].value) == Err(error.message)
    ensures FailsFor(tools, hooks, after, calls, error)
  {
    hide FateOf, Reviewed;
    var k :| 0 <= k < |kept| && filled[k].Some?
             && Reviewed(after, |after|, kept[k], filled[k].value) == Err(error.message);
    var row := ReviewMeaning(after, |after|, kept[k], filled[k].value);
    var hook := after[|row| - 1];
    assert hook in after && FailsOn(hook, kept[k], row[|row| - 1], error.message);
  }

  lemma PairingFailure(tools: Tools, hooks: seq<BeforeHook>, after: seq<AfterHook>, calls: seq<ToolCall>,
                       error: Failure)
    requires !Pairable(calls)
    requires exists k :: 0 <= k < |calls| && (error == EmptyId(calls[k].name) || error == DuplicateId(calls[k].id))
    ensures FailsFor(tools, hooks, after, calls, error) && !error.MissingResult?
  {
    hide FateOf;
  }

  lemma AnsweredFull(tools: Tools, hooks: seq<BeforeHook>, calls: seq<ToolCall>, filled: seq<Option<ToolResult>>,
                     executed: seq<bool>)
    requires Answered(tools, hooks, calls, filled, executed)
    ensures |filled| == |executed| == |calls| && forall k :: 0 <= k < |filled| ==> filled[k].Some?
  {
    hide FateOf;
  }

  lemma CollectedLength(calls: seq<ToolCall>, filled: seq<Option<ToolResult>>, executed: seq<bool>,
                        after: seq<AfterHook>, results: seq<ToolResult>)
    requires |calls| == |filled| == |executed| && Collected(calls, filled, executed, after, |calls|, results)
    ensures |results| == |calls|
  {
  }

  // ----- moving arguments -----

  /** Arguments are moved only when no hook is left to see them, and then the
      results are the same as with copies: the jobs are the same by
      `Prepare`, and so is what is collected of the same batch. */
  lemma MovingIsInvisible(tools: Tools, hooks: seq<BeforeHook>, calls: seq<ToolCall>, moved: Prepared, copied: Prepared,
                          outcomes: map<nat, E.Outcome>, jobs: set<nat>,
                          a: seq<Option<ToolResult>>, x: seq<bool>, b: seq<Option<ToolResult>>, y: seq<bool>,
                          results: seq<ToolResult>, results': seq<ToolResult>)
    requires SlotsSet(tools, hooks, calls, |calls|, moved.slots) && SlotsSet(tools, hooks, calls, |calls|, copied.slots)
    requires CallsKept(tools, hooks, calls, |calls|, true, moved.calls)
    requires CallsKept(tools, hooks, calls, |calls|, false, copied.calls)
    requires SlotsFilled(moved.calls, moved.slots, outcomes, jobs, a, x)
    requires SlotsFilled(copied.calls, copied.slots, outcomes, jobs, b, y)
    requires Collected(moved.calls, a, x, [], |calls|, results) && Collected(copied.calls, b, y, [], |calls|, results')
    ensures a == b && x == y && results == results'
  {
    hide FateOf, Interrupted, EarlyResult;
    forall k | 0 <= k < |calls|
      ensures a[k] == b[k] && x[k] == y[k]
    {
      SameResult(moved.calls[k], copied.calls[k]);
    }
  }

  lemma SameResult(a: ToolCall, b: ToolCall)
    requires a.id == b.id && a.name == b.name
    ensures forall outcome :: ResultOf(a, outcome) == ResultOf(b, outcome)
  {
  }
}
