/** Approvals over standard input: calls that need an answer register a
    request, a reader routes answers by id, and the end of input denies
    whatever is open. */
module Approval {
  import opened Wrappers
  import Text

  datatype Decision = Allow | Deny | Always

  const GATED_TOOLS: set<string> := {
    "shell", "write_file", "edit_file", "web_fetch", "pykernel", "bun_repl", "subagent", "workflow", "memory_manage"
  }

  datatype Refusal = NobodyLeft | CallerDenied

  datatype Phase =
    | Fresh
    | Numbered(id: string)
    | Waiting(id: string)
    | Continued(request: Option<string>)
    | Refused(why: Refusal)
    | Dropped

  datatype Setup = Setup(tools: map<nat, string>, admitGated: bool, readOnly: bool)

  /** `owner` remembers which call an id was given to, `sent` what was sent to
      the call of an id. */
  datatype State = State(
    open: map<string, nat>,
    closed: bool,
    always: set<string>,
    nextId: nat,
    phase: map<nat, Phase>,
    owner: map<string, nat>,
    sent: map<string, Decision>)

  function IdOf(n: nat): string {
    "approval-" + Text.Decimal(n)
  }

  lemma IdsDistinct(m: nat, n: nat)
    requires IdOf(m) == IdOf(n)
    ensures m == n
  {
    assert IdOf(m)[|"approval-"|..] == Text.Decimal(m);
    assert IdOf(n)[|"approval-"|..] == Text.Decimal(n);
    Text.DecimalInjective(m, n);
  }

  predicate NeedsAnswer(admitGated: bool, readOnly: bool, always: set<string>, tool: string) {
    if readOnly && tool == "shell" then true
    else if admitGated || tool !in GATED_TOOLS then false
    else tool !in always
  }

  function Initial(setup: Setup): State {
    State(map[], false, {}, 1, map c | c in setup.tools :: Fresh, map[], map[])
  }

  // ----- the shared table -----

  /** Open requests with the call each belongs to, and what was sent. */
  datatype Table = Table(open: map<string, nat>, closed: bool, sent: map<string, Decision>)

  function Taken(t: Table, id: string, decision: Decision): Table {
    if id in t.open then t.(open := t.open - {id}, sent := t.sent[id := decision]) else t
  }

  /** The end of input. */
  function Shut(t: Table): Table {
    Table(map[], true, t.sent + map id | id in t.open :: Deny)
  }

  function TableOf(s: State): Table {
    Table(s.open, s.closed, s.sent)
  }

  function WithTable(s: State, t: Table): State {
    s.(open := t.open, closed := t.closed, sent := t.sent)
  }

  datatype Action =
    | Judge(call: nat)
    | Register(call: nat)
    | Route(id: string, decision: Decision)
    | EndOfInput
    | Resume(call: nat)
    | Drop(call: nat)

  function To(s: State, c: nat, p: Phase): State {
    s.(phase := s.phase[c := p])
  }

  function Grant(setup: Setup, tool: string): set<string> {
    if setup.readOnly && tool == "shell" then {} else {tool}
  }

  ghost predicate Step(setup: Setup, s: State, a: Action, s': State) {
    match a
    case Judge(c) =>
      && c in s.phase && c in setup.tools && s.phase[c].Fresh?
      && s' == if NeedsAnswer(setup.admitGated, setup.readOnly, s.always, setup.tools[c])
               then To(s, c, Numbered(IdOf(s.nextId))).(nextId := s.nextId + 1, owner := s.owner[IdOf(s.nextId) := c])
               else To(s, c, Continued(None))
    case Register(c) =>
      && c in s.phase && s.phase[c].Numbered?
      && s' == if s.closed then To(s, c, Refused(NobodyLeft))
               else To(s, c, Waiting(s.phase[c].id)).(open := s.open[s.phase[c].id := c])
    case Route(id, decision) =>
      !s.closed && s' == WithTable(s, Taken(TableOf(s), id, decision))
    case EndOfInput =>
      !s.closed && s' == WithTable(s, Shut(TableOf(s)))
    case Resume(c) =>
      && c in s.phase && c in setup.tools && s.phase[c].Waiting? && s.phase[c].id in s.sent
      && s' == (match s.sent[s.phase[c].id]
                case Allow => To(s, c, Continued(Some(s.phase[c].id)))
                case Always =>
                  To(s, c, Continued(Some(s.phase[c].id))).(always := s.always + Grant(setup, setup.tools[c]))
                case Deny => To(s, c, Refused(CallerDenied)))
    case Drop(c) =>
      && c in s.phase && (s.phase[c].Numbered? || s.phase[c].Waiting?)
      && s' == To(s, c, Dropped)
  }

  // ----- invariant -----

  ghost predicate ClosedIsEmpty(s: State) {
    s.closed ==> s.open == map[]
  }

  /** Ids are handed out once. */
  ghost predicate IdsUsed(s: State) {
    forall id :: id in s.owner ==> UsedBelow(id, s.nextId)
  }

  ghost predicate UsedBelow(id: string, n: nat) {
    exists k: nat :: k < n && id == IdOf(k)
  }

  ghost predicate OpenRight(s: State) {
    && (forall id :: id in s.open ==> id in s.owner && s.open[id] == s.owner[id] && id !in s.sent)
    && (forall id :: id in s.sent ==> id in s.owner)
  }

  ghost predicate PhaseRight(setup: Setup, s: State) {
    forall c :: c in s.phase ==> CallRight(setup, s, c)
  }

  ghost predicate CallRight(setup: Setup, s: State, c: nat)
    requires c in s.phase
  {
    && c in setup.tools
    && match s.phase[c]
       case Fresh => true
       case Numbered(id) => id in s.owner && s.owner[id] == c && id !in s.open && id !in s.sent
       case Waiting(id) => id in s.owner && s.owner[id] == c && (id in s.open || id in s.sent)
       case Continued(request) =>
         (match request
          case Some(id) => id in s.owner && s.owner[id] == c && id in s.sent && s.sent[id] != Deny
          case None => !NeedsAnswer(setup.admitGated, setup.readOnly, s.always, setup.tools[c]))
       case Refused(_) => true
       case Dropped => true
  }

  /** A tool is always allowed only after its own call was answered so. */
  ghost predicate AlwaysEarned(setup: Setup, s: State) {
    forall t :: t in s.always ==> !(setup.readOnly && t == "shell") && exists c :: Earned(setup, s, c, t)
  }

  ghost predicate Earned(setup: Setup, s: State, c: nat, t: string) {
    && c in s.phase && c in setup.tools && setup.tools[c] == t
    && s.phase[c].Continued? && s.phase[c].request.Some?
    && s.phase[c].request.value in s.sent && s.sent[s.phase[c].request.value].Always?
  }

  ghost predicate Inv(setup: Setup, s: State) {
    && s.phase.Keys == setup.tools.Keys
    && ClosedIsEmpty(s)
    && IdsUsed(s)
    && OpenRight(s)
    && PhaseRight(setup, s)
    && AlwaysEarned(setup, s)
  }

  lemma InitialInv(setup: Setup)
    ensures Inv(setup, Initial(setup))
  {
  }

  lemma NewIdUnused(s: State)
    requires IdsUsed(s)
    ensures IdOf(s.nextId) !in s.owner
  {
    if IdOf(s.nextId) in s.owner {
      assert UsedBelow(IdOf(s.nextId), s.nextId);
      var k: nat :| k < s.nextId && IdOf(s.nextId) == IdOf(k);
      IdsDistinct(s.nextId, k);
    }
  }

  lemma StepIds(setup: Setup, s: State, a: Action, s': State)
    requires IdsUsed(s) && Step(setup, s, a, s')
    ensures IdsUsed(s')
  {
    hide IdOf, NeedsAnswer;
    forall id | id in s'.owner
      ensures UsedBelow(id, s'.nextId)
    {
      if id in s.owner {
        assert UsedBelow(id, s.nextId);
        var k: nat :| k < s.nextId && id == IdOf(k);
        assert k < s'.nextId;
      } else {
        assert id == IdOf(s.nextId);
      }
    }
  }

  lemma StepOpen(setup: Setup, s: State, a: Action, s': State)
    requires IdsUsed(s) && OpenRight(s) && PhaseRight(setup, s) && ClosedIsEmpty(s) && Step(setup, s, a, s')
    ensures OpenRight(s') && ClosedIsEmpty(s')
  {
    hide IdOf, NeedsAnswer;
    NewIdUnused(s);
    if a.Register? {
      assert CallRight(setup, s, a.call);
    }
  }

  /** The action is one of the call itself. */
  predicate ActsFor(a: Action, c: nat) {
    (a.Judge? || a.Register? || a.Resume? || a.Drop?) && a.call == c
  }

  lemma ActorRight(setup: Setup, s: State, a: Action, s': State, c: nat)
    requires IdsUsed(s) && OpenRight(s) && c in s.phase && CallRight(setup, s, c) && Step(setup, s, a, s')
             && ActsFor(a, c)
    ensures c in s'.phase && CallRight(setup, s', c)
  {
    hide IdOf, IdsUsed, Grant;
    NewIdUnused(s);
  }

  /** How the shared tables move for a call that does not act. */
  ghost predicate TablesMove(s: State, s': State, c: nat) {
    && (forall id :: id in s.owner ==> id in s'.owner && s'.owner[id] == s.owner[id])
    && (forall id :: id in s.sent ==> id in s'.sent && s'.sent[id] == s.sent[id])
    && (forall id :: id in s.open ==> id in s'.open || id in s'.sent)
    && (forall id :: id in s'.open && id !in s.open ==> id in s.owner && s.owner[id] != c)
    && (forall id :: id in s'.sent && id !in s.sent ==> id in s.open)
    && s.always <= s'.always
  }

  lemma RightKept(setup: Setup, s: State, s': State, c: nat)
    requires OpenRight(s) && TablesMove(s, s', c) && c in s.phase && c in s'.phase && s'.phase[c] == s.phase[c]
    requires CallRight(setup, s, c)
    ensures CallRight(setup, s', c)
  {
    hide GATED_TOOLS;
  }

  lemma ReaderMoves(setup: Setup, s: State, a: Action, s': State, c: nat)
    requires OpenRight(s) && Step(setup, s, a, s') && (a.Route? || a.EndOfInput?)
    ensures TablesMove(s, s', c)
  {
  }

  lemma CallMoves(setup: Setup, s: State, a: Action, s': State, c: nat)
    requires Step(setup, s, a, s') && !a.Route? && !a.EndOfInput? && !ActsFor(a, c)
    requires a.Judge? ==> IdOf(s.nextId) !in s.owner
    requires a.Register? ==> CallRight(setup, s, a.call)
    ensures TablesMove(s, s', c)
  {
    hide IdOf, NeedsAnswer, Grant;
  }

  /** Other calls see the shared tables change, but keep their place. */
  lemma OtherRight(setup: Setup, s: State, a: Action, s': State, c: nat)
    requires OpenRight(s) && c in s.phase && CallRight(setup, s, c) && Step(setup, s, a, s') && !ActsFor(a, c)
    requires a.Judge? ==> IdOf(s.nextId) !in s.owner
    requires a.Register? ==> CallRight(setup, s, a.call)
    ensures c in s'.phase && CallRight(setup, s', c)
  {
    hide Step, IdOf, TablesMove, OpenRight, CallRight, ActsFor;
    OtherKeepsPlace(setup, s, a, s', c);
    if a.Route? || a.EndOfInput? {
      ReaderMoves(setup, s, a, s', c);
    } else {
      CallMoves(setup, s, a, s', c);
    }
    RightKept(setup, s, s', c);
  }

  lemma OtherKeepsPlace(setup: Setup, s: State, a: Action, s': State, c: nat)
    requires Step(setup, s, a, s') && c in s.phase && !ActsFor(a, c)
    ensures c in s'.phase && s'.phase[c] == s.phase[c]
  {
    hide IdOf, NeedsAnswer;
  }

  lemma StepPhase(setup: Setup, s: State, a: Action, s': State, c: nat)
    requires IdsUsed(s) && OpenRight(s) && PhaseRight(setup, s) && Step(setup, s, a, s') && c in s.phase
    ensures c in s'.phase && CallRight(setup, s', c)
  {
    hide Step, IdOf, IdsUsed, OpenRight, CallRight;
    NewIdUnused(s);
    assert CallRight(setup, s, c);
    if ActsFor(a, c) {
      ActorRight(setup, s, a, s', c);
    } else {
      if a.Register? {
        RegisterKnown(setup, s, a, s');
      }
      OtherRight(setup, s, a, s', c);
    }
  }

  lemma RegisterKnown(setup: Setup, s: State, a: Action, s': State)
    requires PhaseRight(setup, s) && Step(setup, s, a, s') && a.Register?
    ensures a.call in s.phase && CallRight(setup, s, a.call)
  {
    hide CallRight;
  }

  lemma StepAlways(setup: Setup, s: State, a: Action, s': State)
    requires AlwaysEarned(setup, s) && OpenRight(s) && PhaseRight(setup, s) && Step(setup, s, a, s')
    ensures AlwaysEarned(setup, s')
  {
    hide IdOf, NeedsAnswer;
    forall t | t in s'.always
      ensures !(setup.readOnly && t == "shell") && exists c :: Earned(setup, s', c, t)
    {
      if t in s.always {
        var c :| Earned(setup, s, c, t);
        assert CallRight(setup, s, c);
        StaysEarned(setup, s, a, s', c, t);
      } else {
        assert Earned(setup, s', a.call, t);
      }
    }
  }

  lemma StaysEarned(setup: Setup, s: State, a: Action, s': State, c: nat, t: string)
    requires OpenRight(s) && Step(setup, s, a, s') && Earned(setup, s, c, t)
    ensures Earned(setup, s', c, t)
  {
    hide IdOf, NeedsAnswer;
  }

  lemma StepKeepsInv(setup: Setup, s: State, a: Action, s': State)
    requires Inv(setup, s) && Step(setup, s, a, s')
    ensures Inv(setup, s')
  {
    hide Step, IdsUsed, OpenRight, AlwaysEarned, CallRight, ClosedIsEmpty;
    SameCalls(setup, s, a, s');
    StepIds(setup, s, a, s');
    StepOpen(setup, s, a, s');
    StepAlways(setup, s, a, s');
    forall c | c in s'.phase
      ensures CallRight(setup, s', c)
    {
      assert c in s.phase;
      StepPhase(setup, s, a, s', c);
    }
  }

  lemma SameCalls(setup: Setup, s: State, a: Action, s': State)
    requires Step(setup, s, a, s')
    ensures s'.phase.Keys == s.phase.Keys
  {
    hide IdOf, NeedsAnswer;
  }

  // ----- every interleaving -----

  ghost predicate RunOf(setup: Setup, ss: seq<State>, as_: seq<Action>) {
    && |ss| == |as_| + 1
    && ss[0] == Initial(setup)
    && forall k :: 0 <= k < |as_| ==> Step(setup, ss[k], as_[k], ss[k + 1])
  }

  lemma {:induction false} RunKeepsInv(setup: Setup, ss: seq<State>, as_: seq<Action>, k: nat)
    requires RunOf(setup, ss, as_) && k <= |as_|
    ensures Inv(setup, ss[k])
    decreases k
  {
    hide Inv, Step;
    if k == 0 {
      InitialInv(setup);
    } else {
      RunKeepsInv(setup, ss, as_, k - 1);
      StepKeepsInv(setup, ss[k - 1], as_[k - 1], ss[k]);
    }
  }

  /** A call that needs an answer continues only when its own request was
      answered with allow or always; a call that continues unasked did not
      need one, or its tool was granted for good by an earlier answer. */
  lemma ContinuesOnlyWhenAllowed(setup: Setup, ss: seq<State>, as_: seq<Action>, k: nat, c: nat)
    requires RunOf(setup, ss, as_) && k <= |as_| && c in ss[k].phase && ss[k].phase[c].Continued?
    ensures c in setup.tools
    ensures var s := ss[k];
            match s.phase[c].request
            case Some(id) =>
              id in s.owner && s.owner[id] == c && id in s.sent && (s.sent[id] == Allow || s.sent[id] == Always)
            case None =>
              && !(setup.readOnly && setup.tools[c] == "shell")
              && (setup.admitGated || setup.tools[c] !in GATED_TOOLS || exists d :: Earned(setup, s, d, setup.tools[c]))
  {
    hide Step;
    RunKeepsInv(setup, ss, as_, k);
    assert CallRight(setup, ss[k], c);
  }

  // ----- who is asked, and what an answer is -----

  /** The tools that change something or reach outside. */
  ghost predicate Gated(tool: string) {
    || tool == "shell" || tool == "write_file" || tool == "edit_file" || tool == "web_fetch" || tool == "pykernel"
    || tool == "bun_repl" || tool == "subagent" || tool == "workflow" || tool == "memory_manage"
  }

  /** A call is asked about exactly if it is a shell call of a read-only run,
      or gated, not admitted beforehand and not granted for good. */
  lemma AskedIff(setup: Setup, s: State, c: nat, s': State)
    requires Step(setup, s, Judge(c), s')
    ensures var tool := setup.tools[c];
            if (setup.readOnly && tool == "shell") || (Gated(tool) && !setup.admitGated && tool !in s.always)
            then s'.phase[c].Numbered? else s'.phase[c] == Continued(None)
  {
    hide IdOf;
  }

  ghost predicate GrantsHold(setup: Setup, s: State) {
    forall c, t :: Earned(setup, s, c, t) && !(setup.readOnly && t == "shell") ==> t in s.always
  }

  lemma EarnedBefore(setup: Setup, s: State, a: Action, s': State, c: nat, t: string)
    requires OpenRight(s) && PhaseRight(setup, s) && Step(setup, s, a, s') && Earned(setup, s', c, t)
    ensures Earned(setup, s, c, t) || (a == Resume(c) && Grant(setup, t) <= s'.always)
  {
    hide IdOf, NeedsAnswer, Grant;
    if c in s.phase {
      assert CallRight(setup, s, c);
    }
  }

  lemma GrantsStep(setup: Setup, s: State, a: Action, s': State)
    requires Inv(setup, s) && GrantsHold(setup, s) && Step(setup, s, a, s')
    ensures GrantsHold(setup, s') && s.always <= s'.always
  {
    hide IdOf, NeedsAnswer, Earned, PhaseRight, AlwaysEarned, IdsUsed;
    forall c, t | Earned(setup, s', c, t) && !(setup.readOnly && t == "shell")
      ensures t in s'.always
    {
      EarnedBefore(setup, s, a, s', c, t);
    }
  }

  lemma {:induction false} RunKeepsGrants(setup: Setup, ss: seq<State>, as_: seq<Action>, k: nat)
    requires RunOf(setup, ss, as_) && k <= |as_|
    ensures GrantsHold(setup, ss[k])
    decreases k
  {
    hide Inv, Step;
    if k > 0 {
      RunKeepsGrants(setup, ss, as_, k - 1);
      RunKeepsInv(setup, ss, as_, k - 1);
      GrantsStep(setup, ss[k - 1], as_[k - 1], ss[k]);
    }
  }

  lemma {:induction false} GrantsStay(setup: Setup, ss: seq<State>, as_: seq<Action>, k: nat, l: nat)
    requires RunOf(setup, ss, as_) && k <= l <= |as_|
    ensures ss[k].always <= ss[l].always
    decreases l
  {
    hide Inv, Step;
    if k < l {
      GrantsStay(setup, ss, as_, k, l - 1);
      RunKeepsInv(setup, ss, as_, l - 1);
      RunKeepsGrants(setup, ss, as_, l - 1);
      GrantsStep(setup, ss[l - 1], as_[l - 1], ss[l]);
    }
  }

  /** Once a call has gone on with an answer of always, no call of its tool is
      asked about again, but for the shell of a read-only run. */
  lemma AlwaysEndsAsking(setup: Setup, ss: seq<State>, as_: seq<Action>, k: nat, l: nat, c: nat, d: nat)
    requires RunOf(setup, ss, as_) && k <= l < |as_| && as_[l] == Judge(d) && d in setup.tools
    requires Earned(setup, ss[k], c, setup.tools[d]) && !(setup.readOnly && setup.tools[d] == "shell")
    ensures d in ss[l + 1].phase && ss[l + 1].phase[d] == Continued(None)
  {
    hide Step, Inv, Earned;
    RunKeepsGrants(setup, ss, as_, k);
    GrantsStay(setup, ss, as_, k, l);
    assert Step(setup, ss[l], as_[l], ss[l + 1]);
    JudgedUnasked(setup, ss[l], d, ss[l + 1]);
  }

  lemma JudgedUnasked(setup: Setup, s: State, d: nat, s': State)
    requires Step(setup, s, Judge(d), s') && d in setup.tools && setup.tools[d] in s.always
    requires !(setup.readOnly && setup.tools[d] == "shell")
    ensures d in s'.phase && s'.phase[d] == Continued(None)
  {
  }

  /** Why a call is refused: nobody is left to ask when it registers, or its
      request was answered with a denial. */
  lemma RefusalsTell(setup: Setup, s: State, a: Action, s': State, c: nat)
    requires Step(setup, s, a, s') && c in s.phase && c in s'.phase && !s.phase[c].Refused? && s'.phase[c].Refused?
    ensures || (s'.phase[c].why.NobodyLeft? && a == Register(c) && s.closed)
            || (s'.phase[c].why.CallerDenied? && a == Resume(c) && s.phase[c].Waiting?
                && s.phase[c].id in s.sent && s.sent[s.phase[c].id] == Deny)
  {
    hide IdOf, NeedsAnswer, Grant;
  }

  /** The answer was given: by a line for that id while it was open, or, as a
      refusal, by the end of input. */
  ghost predicate Given(as_: seq<Action>, n: nat, id: string, decision: Decision)
    requires n <= |as_|
  {
    exists j :: 0 <= j < n && (as_[j] == Route(id, decision) || (as_[j].EndOfInput? && decision == Deny))
  }

  lemma SentNew(setup: Setup, s: State, a: Action, s': State, id: string)
    requires Inv(setup, s) && Step(setup, s, a, s') && id in s'.sent
    ensures || (id in s.sent && s'.sent[id] == s.sent[id])
            || (id in s.open && (a == Route(id, s'.sent[id]) || (a.EndOfInput? && s'.sent[id] == Deny)))
  {
    hide IdOf, NeedsAnswer, PhaseRight, IdsUsed, AlwaysEarned;
  }

  lemma {:induction false} AnswersAreGiven(setup: Setup, ss: seq<State>, as_: seq<Action>, k: nat, id: string)
    requires RunOf(setup, ss, as_) && k <= |as_| && id in ss[k].sent
    ensures Given(as_, k, id, ss[k].sent[id])
    decreases k
  {
    hide Step, Inv;
    if k > 0 {
      RunKeepsInv(setup, ss, as_, k - 1);
      SentNew(setup, ss[k - 1], as_[k - 1], ss[k], id);
      if id in ss[k - 1].sent && ss[k].sent[id] == ss[k - 1].sent[id] {
        AnswersAreGiven(setup, ss, as_, k - 1, id);
      } else {
        assert as_[k - 1] == Route(id, ss[k].sent[id]) || (as_[k - 1].EndOfInput? && ss[k].sent[id] == Deny);
      }
    }
  }

  lemma SentStep(setup: Setup, s: State, a: Action, s': State, id: string)
    requires Inv(setup, s) && Step(setup, s, a, s') && id in s.sent
    ensures id in s'.sent && s'.sent[id] == s.sent[id] && (s.closed ==> s'.sent == s.sent && s'.closed)
  {
    hide IdOf, NeedsAnswer, PhaseRight, IdsUsed, AlwaysEarned;
  }

  lemma ClosedStep(setup: Setup, s: State, a: Action, s': State)
    requires s.closed && Step(setup, s, a, s')
    ensures s'.sent == s.sent && s'.closed
  {
    hide IdOf, NeedsAnswer;
  }

  /** A request is resolved at most once. */
  lemma {:induction false} ResolvedOnce(setup: Setup, ss: seq<State>, as_: seq<Action>, k: nat, l: nat, id: string)
    requires RunOf(setup, ss, as_) && k <= l <= |as_| && id in ss[k].sent
    ensures id in ss[l].sent && ss[l].sent[id] == ss[k].sent[id] && id !in ss[l].open
    decreases l
  {
    hide Step;
    RunKeepsInv(setup, ss, as_, l);
    if k < l {
      ResolvedOnce(setup, ss, as_, k, l - 1, id);
      RunKeepsInv(setup, ss, as_, l - 1);
      SentStep(setup, ss[l - 1], as_[l - 1], ss[l], id);
    }
  }

  lemma {:induction false} ClosedStays(setup: Setup, ss: seq<State>, as_: seq<Action>, k: nat, l: nat)
    requires RunOf(setup, ss, as_) && k <= l <= |as_| && ss[k].closed
    ensures ss[l].closed && ss[l].sent == ss[k].sent && ss[l].open == map[]
    decreases l
  {
    hide Step;
    RunKeepsInv(setup, ss, as_, l);
    if k < l {
      ClosedStays(setup, ss, as_, k, l - 1);
      ClosedStep(setup, ss[l - 1], as_[l - 1], ss[l]);
    }
  }

  /** From the end of input on, a request continues its call only if it had
      been answered before; every other one, open then or made later, ends in
      a refusal, and nothing keeps it waiting. */
  lemma EndOfInputDenies(setup: Setup, ss: seq<State>, as_: seq<Action>, k: nat, l: nat, c: nat)
    requires RunOf(setup, ss, as_) && k < l <= |as_| && as_[k].EndOfInput? && c in ss[l].phase
    ensures ss[l].phase[c].Continued? && ss[l].phase[c].request.Some? ==>
              var id := ss[l].phase[c].request.value; id in ss[k].sent && ss[k].sent[id] != Deny
    ensures ss[l].phase[c].Waiting? ==>
              var id := ss[l].phase[c].id;
              id in ss[l].sent && (id !in ss[k].sent ==> ss[l].sent[id] == Deny)
    ensures ss[l].phase[c].Numbered? ==> Step(setup, ss[l], Register(c), To(ss[l], c, Refused(NobodyLeft)))
  {
    hide NeedsAnswer, IdOf;
    assert Step(setup, ss[k], as_[k], ss[k + 1]);
    ClosedStays(setup, ss, as_, k + 1, l);
    RunKeepsInv(setup, ss, as_, l);
    RunKeepsInv(setup, ss, as_, k);
    assert CallRight(setup, ss[l], c);
  }

  // ----- the objects -----

  /** The table of open requests, shared by the calls and the reader. */
  class Pending {
    var open: map<string, nat>
    var closed: bool
    ghost var sent: map<string, Decision>

    ghost function View(): Table
      reads this
    {
      Table(open, closed, sent)
    }

    constructor ()
      ensures View() == Table(map[], false, map[])
    {
      open, closed, sent := map[], false, map[];
    }

    method Insert(id: string, call: nat) returns (registered: bool)
      modifies this
      ensures registered == !old(closed)
      ensures View() == if registered then old(View()).(open := old(open)[id := call]) else old(View())
    {
      registered := !closed;
      if registered {
        open := open[id := call];
      }
    }

    /** Sends the decision to the request of that id, if it is open. */
    method Take(id: string, decision: Decision) returns (known: bool)
      modifies this
      ensures View() == Taken(old(View()), id, decision) && known == (id in old(open))
    {
      known := id in open;
      if known {
        open := open - {id};
        sent := sent[id := decision];
      }
    }

    method Close()
      modifies this
      ensures View() == Shut(old(View()))
    {
      closed := true;
      ghost var before, answered := open, sent;
      while open != map[]
        invariant closed && open.Keys <= before.Keys
        invariant sent == answered + map id | id in before && id !in open :: Deny
        decreases open.Keys
      {
        assert open.Keys != {};
        var id :| id in open.Keys;
        DeniedNext(before, open, answered, id);
        open := open - {id};
        sent := sent[id := Deny];
      }
    }

    /** The reader: blank and malformed lines are passed over; the end of
        input closes the table. */
    method ReadDecisions(lines: seq<string>, parse: string -> Option<(string, Decision)>)
      modifies this
      ensures View() == Shut(AllTaken(old(View()), lines, parse, |lines|))
    {
      for n := 0 to |lines|
        invariant View() == AllTaken(old(View()), lines, parse, n)
      {
        if Text.Trim(lines[n]) != "" {
          var answer := parse(lines[n]);
          match answer
          case None =>
          case Some((id, decision)) =>
            var known := Take(id, decision);
        }
      }
      Close();
    }
  }

  lemma DeniedNext(before: map<string, nat>, open: map<string, nat>, answered: map<string, Decision>, id: string)
    requires open.Keys <= before.Keys && id in open
    ensures (answered + map x | x in before && x !in open :: Deny)[id := Deny]
            == answered + map x | x in before && x !in open - {id} :: Deny
    ensures (open - {id}).Keys < open.Keys
  {
  }

  /** What the first `n` lines do to the table. */
  function AllTaken(t: Table, lines: seq<string>, parse: string -> Option<(string, Decision)>, n: nat): Table
    requires n <= |lines|
  {
    if n == 0 then t
    else
      var before := AllTaken(t, lines, parse, n - 1);
      if Text.Trim(lines[n - 1]) == "" then before
      else
        match parse(lines[n - 1])
        case None => before
        case Some((id, decision)) => Taken(before, id, decision)
  }

  /** Line `i` is an answer to that id. */
  ghost predicate Answers(lines: seq<string>, parse: string -> Option<(string, Decision)>, i: nat, id: string) {
    i < |lines| && Text.Trim(lines[i]) != "" && parse(lines[i]).Some? && parse(lines[i]).value.0 == id
  }

  ghost predicate SilentTo(lines: seq<string>, parse: string -> Option<(string, Decision)>, n: nat, id: string) {
    forall i :: 0 <= i < n ==> !Answers(lines, parse, i, id)
  }

  /** An open request gets the decision of the first line that answers it;
      without such a line it stays open. Nothing else is sent anything. */
  lemma {:induction false} ReaderMeaning(t: Table, lines: seq<string>, parse: string -> Option<(string, Decision)>,
                                         n: nat, id: string)
    requires n <= |lines|
    ensures var r := AllTaken(t, lines, parse, n);
            && r.closed == t.closed
            && (id in r.open <==> id in t.open && SilentTo(lines, parse, n, id))
            && (id in r.open ==> r.open[id] == t.open[id])
            && (id !in t.open || SilentTo(lines, parse, n, id) ==>
                  (id in r.sent <==> id in t.sent) && (id in r.sent ==> r.sent[id] == t.sent[id]))
            && forall i ::
                 id in t.open && 0 <= i < n && Answers(lines, parse, i, id) && SilentTo(lines, parse, i, id) ==>
                 id in r.sent && r.sent[id] == parse(lines[i]).value.1
    decreases n
  {
    hide Text.Trim;
    if n > 0 {
      ReaderMeaning(t, lines, parse, n - 1, id);
      assert SilentTo(lines, parse, n, id)
        <==> SilentTo(lines, parse, n - 1, id) && !Answers(lines, parse, n - 1, id);
    }
  }
}
