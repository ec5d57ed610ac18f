/** Leaving out synchronisation that cannot matter changes nothing that a
    caller can see, except whether a stopped call is said to have been
    stopped before or during execution. */
module Elision {
  import opened Wrappers
  import opened Execution

  /** The same batch with and without its semaphore or its lock. */
  ghost predicate SameBatch(b: Batch, c: Batch) {
    b.units == c.units && b.exclusive == c.exclusive && b.limit == c.limit && b.deadline == c.deadline
  }

  predicate SameOutcome(o: Outcome, q: Outcome) {
    match o
    case Answered(_) => o == q
    case Stopped(cause, _) => q.Stopped? && q.cause == cause
  }

  // ----- what can be seen of a run -----

  /** The outcome, however the message words an interruption. */
  function Plain(o: Outcome): Outcome {
    match o
    case Answered(_) => o
    case Stopped(cause, _) => Stopped(cause, During)
  }

  /** Which tools have begun, which run, what the finished calls returned,
      what was reported, and the signals from outside. */
  datatype Visible = Visible(
    started: set<nat>,
    running: set<nat>,
    finished: map<nat, Outcome>,
    reported: multiset<nat>,
    cancelled: bool,
    late: bool)

  ghost function Seen(s: State): Visible {
    Visible(
      s.started,
      set i | i in s.phase && s.phase[i].Running?,
      map i | i in s.phase && s.phase[i].Done? :: Plain(s.phase[i].outcome),
      s.reported,
      s.cancelled,
      s.late)
  }

  ghost function Extended(trace: seq<Visible>, v: Visible): (r: seq<Visible>)
    ensures r != [] && r[|r| - 1] == v
  {
    if trace != [] && trace[|trace| - 1] == v then trace else trace + [v]
  }

  /** The sequence of visible states, without repetition. */
  ghost function Trace(ss: seq<State>): seq<Visible> {
    if ss == [] then [] else Extended(Trace(ss[..|ss| - 1]), Seen(ss[|ss| - 1]))
  }

  lemma TraceEnds(ss: seq<State>)
    requires ss != []
    ensures Trace(ss) != [] && Trace(ss)[|Trace(ss)| - 1] == Seen(ss[|ss| - 1])
  {
  }

  /** A job that neither ran nor was done, and still is neither, moves
      unseen. */
  lemma UnseenMove(s: State, i: nat, p: Phase, s': State)
    requires i in s.phase && s'.phase == s.phase[i := p]
    requires !s.phase[i].Running? && !s.phase[i].Done? && !p.Running? && !p.Done?
    requires s'.started == s.started && s'.reported == s.reported && s'.cancelled == s.cancelled && s'.late == s.late
    ensures Seen(s') == Seen(s)
  {
  }

  // ----- leaving out the semaphore -----

  /** Every job could hold a permit at once. */
  ghost predicate Ample(b: Batch, jobs: set<nat>) {
    |jobs| <= b.limit
  }

  /** Phases in which a job has not touched the lock. */
  predicate Early(b: Batch, p: Phase) {
    p.Idle? || p.AtLock? || (p.AtTool? && !b.locks)
  }

  ghost predicate SamePhase(b: Batch, p: Phase, q: Phase) {
    || (Early(b, p) && Early(b, q))
    || (!Early(b, p) && p == q)
    || (p.Reporting? && q.Reporting? && SameOutcome(p.outcome, q.outcome) && (b.locks ==> p.lock == q.lock))
    || (p.Done? && q.Done? && SameOutcome(p.outcome, q.outcome))
  }

  ghost predicate NoPermitWait(s: State) {
    s.permitQueue == [] && forall i :: i in s.phase ==> !s.phase[i].PermitQueued? && !s.phase[i].PermitReady?
  }

  ghost predicate Alike(b: Batch, jobs: set<nat>, s: State, t: State) {
    && s.phase.Keys == jobs && t.phase.Keys == jobs
    && (forall i :: i in jobs ==> SamePhase(b, s.phase[i], t.phase[i]))
    && NoPermitWait(s) && NoPermitWait(t)
    && s.lockQueue == t.lockQueue
    && s.cancelled == t.cancelled && s.late == t.late
    && s.reported == t.reported && s.started == t.started
  }

  lemma AmplePermit(b: Batch, jobs: set<nat>, s: State, i: nat)
    requires Ample(b, jobs) && s.phase.Keys == jobs && i in jobs && !HasPermit(s.phase[i])
    ensures PermitFree(b, s)
  {
    assert PermitHolders(s) <= jobs - {i};
    SizeBound(PermitHolders(s), jobs - {i});
  }

  lemma SameTurn(b: Batch, c: Batch, jobs: set<nat>, s: State, t: State, i: nat)
    requires SameBatch(b, c) && Alike(b, jobs, s, t) && Turn(b, s, i) && WellFormed(b, jobs)
    ensures Turn(c, t, i)
  {
    var u, x :| Place(b, i, u, x) && Behind(b, s, u, x);
    forall y | 0 <= y < x
      ensures b.units[u][y] in t.phase && t.phase[b.units[u][y]].Done?
    {
      assert SamePhase(b, s.phase[b.units[u][y]], t.phase[b.units[u][y]]);
    }
    assert Place(c, i, u, x) && Behind(c, t, u, x);
  }

  lemma SameLockHolders(b: Batch, jobs: set<nat>, s: State, t: State)
    requires Alike(b, jobs, s, t) && b.locks
    ensures LockHolders(s) == LockHolders(t)
  {
    forall i | i in jobs
      ensures HasLock(s.phase[i]) <==> HasLock(t.phase[i])
    {
      assert SamePhase(b, s.phase[i], t.phase[i]);
    }
  }

  lemma SameLockFree(b: Batch, c: Batch, jobs: set<nat>, s: State, t: State, i: nat)
    requires SameBatch(b, c) && b.locks == c.locks && WellFormed(b, jobs) && Alike(b, jobs, s, t)
    requires LockFree(b, s, i) && (b.locks || i in jobs)
    ensures LockFree(c, t, i)
  {
    if b.locks {
      SameLockHolders(b, jobs, s, t);
    }
  }

  /** Steps that lead from `t` to `t'`: up to the `m`th state all look like
      `t`, from then on like `t'`. */
  ghost predicate Path(c: Batch, t: State, t': State, mid: seq<State>, as_: seq<Action>, m: nat) {
    && Run(c, mid, as_)
    && mid[0] == t && mid[|as_|] == t'
    && m <= |as_|
    && (forall k :: 0 <= k <= m ==> Seen(mid[k]) == Seen(t))
    && forall k :: m < k <= |as_| ==> Seen(mid[k]) == Seen(t')
  }

  ghost predicate Leads(c: Batch, t: State, t': State) {
    exists mid, as_, m :: Path(c, t, t', mid, as_, m)
  }

  lemma LeadsStay(c: Batch, t: State)
    ensures Leads(c, t, t)
  {
    assert Path(c, t, t, [t], [], 0);
  }

  lemma LeadsStep(c: Batch, t: State, a: Action, t': State)
    requires Step(c, t, a, t')
    ensures Leads(c, t, t')
  {
    hide Step, Seen;
    assert Path(c, t, t', [t, t'], [a], 0);
  }

  /** A part that nothing is seen of can be put in front. */
  lemma LeadsTransitive(c: Batch, t: State, u: State, v: State)
    requires Leads(c, t, u) && Leads(c, u, v) && Seen(t) == Seen(u)
    ensures Leads(c, t, v)
  {
    hide Step, Seen;
    var m, a, x :| Path(c, t, u, m, a, x);
    var n, d, y :| Path(c, u, v, n, d, y);
    var both := m + n[1..];
    forall k | 0 <= k < |a + d|
      ensures Step(c, both[k], (a + d)[k], both[k + 1])
    {
      if k < |a| {
        assert both[k] == m[k] && both[k + 1] == m[k + 1];
      } else {
        assert both[k] == n[k - |a|];
        assert both[k + 1] == n[k - |a| + 1];
      }
    }
    forall k | 0 <= k <= |a + d|
      ensures Seen(both[k]) == if k <= |a| + y then Seen(t) else Seen(v)
    {
      if k <= |a| {
        assert both[k] == m[k];
      } else {
        assert both[k] == n[k - |a|];
      }
    }
    assert Path(c, t, v, both, a + d, |a| + y);
  }

  /** Without contention for permits a job gets to the lock at once. */
  lemma ReachLock(c: Batch, jobs: set<nat>, t: State, i: nat)
    requires Ample(c, jobs) && t.phase.Keys == jobs && NoPermitWait(t) && i in jobs && Turn(c, t, i)
    requires t.phase[i].Idle? || t.phase[i].AtLock?
    requires c.permits ==> !t.cancelled
    ensures Leads(c, t, To(t, i, AtLock))
  {
    if t.phase[i].Idle? {
      AmplePermit(c, jobs, t, i);
      LeadsStep(c, t, Advance(i), To(t, i, AtLock));
    } else {
      assert To(t, i, AtLock) == t;
      LeadsStay(c, t);
    }
  }

  lemma ReachTool(c: Batch, jobs: set<nat>, t: State, i: nat)
    requires Ample(c, jobs) && t.phase.Keys == jobs && NoPermitWait(t) && i in jobs && Turn(c, t, i)
    requires !c.locks && Early(c, t.phase[i])
    requires c.permits ==> !t.cancelled
    ensures Leads(c, t, To(t, i, AtTool))
  {
    hide Turn;
    if t.phase[i].AtTool? {
      assert To(t, i, AtTool) == t;
      LeadsStay(c, t);
    } else {
      ReachLock(c, jobs, t, i);
      var u := To(t, i, AtLock);
      LeadsStep(c, u, Advance(i), To(u, i, AtTool));
      UnseenMove(t, i, u.phase[i], u);
      LeadsTransitive(c, t, u, To(u, i, AtTool));
      assert To(u, i, AtTool) == To(t, i, AtTool);
    }
  }

  lemma EarlyTurn(c: Batch, jobs: set<nat>, t: State, i: nat)
    requires WellFormed(c, jobs) && Inv(c, jobs, t) && i in jobs && !t.phase[i].Idle?
    ensures Turn(c, t, i)
  {
    assert Member(c, i);
    var u :| 0 <= u < |c.units| && i in c.units[u];
    var x :| 0 <= x < |c.units[u]| && c.units[u][x] == i;
    forall y | 0 <= y < x
      ensures c.units[u][y] in t.phase && t.phase[c.units[u][y]].Done?
    {
      assert Orderly(t, c.units[u][y], c.units[u][x]);
    }
    assert Place(c, i, u, x) && Behind(c, t, u, x);
  }

  /** A cancelled job that has not got far reports the cancellation. */
  lemma ReachCancelled(c: Batch, jobs: set<nat>, t: State, i: nat) returns (p: Phase)
    requires Ample(c, jobs) && t.phase.Keys == jobs && NoPermitWait(t) && i in jobs && Turn(c, t, i)
    requires t.cancelled && Early(c, t.phase[i])
    ensures p.Reporting? && p.outcome.Stopped? && p.outcome.cause.Cancelled? && (c.locks ==> !p.lock)
    ensures Leads(c, t, To(t, i, p))
  {
    hide Turn;
    if t.phase[i].Idle? && c.permits {
      p := Reporting(Stopped(Cancelled, Before), false, false);
      LeadsStep(c, t, Interrupt(i, Cancelled), To(t, i, p));
    } else if c.locks {
      p := Reporting(Stopped(Cancelled, Before), true, false);
      ReachLockFreely(c, jobs, t, i);
      var u := To(t, i, AtLock);
      LeadsStep(c, u, Interrupt(i, Cancelled), To(u, i, p));
      UnseenMove(t, i, u.phase[i], u);
      LeadsTransitive(c, t, u, To(u, i, p));
      assert To(u, i, p) == To(t, i, p);
    } else {
      p := Reporting(Stopped(Cancelled, During), true, true);
      ReachToolFreely(c, jobs, t, i);
      var u := To(t, i, AtTool);
      LeadsStep(c, u, Interrupt(i, Cancelled), To(u, i, p));
      UnseenMove(t, i, u.phase[i], u);
      LeadsTransitive(c, t, u, To(u, i, p));
      assert To(u, i, p) == To(t, i, p);
    }
  }

  lemma ReachLockFreely(c: Batch, jobs: set<nat>, t: State, i: nat)
    requires t.phase.Keys == jobs && i in jobs && Turn(c, t, i)
    requires (t.phase[i].Idle? && !c.permits) || t.phase[i].AtLock?
    ensures Leads(c, t, To(t, i, AtLock))
  {
    if t.phase[i].Idle? {
      LeadsStep(c, t, Advance(i), To(t, i, AtLock));
    } else {
      assert To(t, i, AtLock) == t;
      LeadsStay(c, t);
    }
  }

  lemma ReachToolFreely(c: Batch, jobs: set<nat>, t: State, i: nat)
    requires t.phase.Keys == jobs && i in jobs && Turn(c, t, i) && !c.locks
    requires (t.phase[i].Idle? && !c.permits) || t.phase[i].AtLock? || t.phase[i].AtTool?
    ensures Leads(c, t, To(t, i, AtTool))
  {
    hide Turn;
    if t.phase[i].AtTool? {
      assert To(t, i, AtTool) == t;
      LeadsStay(c, t);
    } else {
      ReachLockFreely(c, jobs, t, i);
      var u := To(t, i, AtLock);
      LeadsStep(c, u, Advance(i), To(u, i, AtTool));
      UnseenMove(t, i, u.phase[i], u);
      LeadsTransitive(c, t, u, To(u, i, AtTool));
      assert To(u, i, AtTool) == To(t, i, AtTool);
    }
  }

  /** Two batches of the same jobs that differ in the semaphore only. */
  ghost predicate SemaphoreApart(b: Batch, c: Batch, jobs: set<nat>) {
    SameBatch(b, c) && b.locks == c.locks && WellFormed(b, jobs) && WellFormed(c, jobs) && Ample(b, jobs)
  }

  lemma AlikeMove(b: Batch, jobs: set<nat>, s: State, t: State, i: nat, p: Phase, q: Phase, s': State, t': State)
    requires Alike(b, jobs, s, t) && i in jobs && SamePhase(b, p, q)
    requires !p.PermitQueued? && !p.PermitReady? && !q.PermitQueued? && !q.PermitReady?
    requires s'.phase == s.phase[i := p] && t'.phase == t.phase[i := q]
    requires s'.permitQueue == [] && t'.permitQueue == [] && s'.lockQueue == t'.lockQueue
    requires s'.cancelled == s.cancelled && t'.cancelled == t.cancelled && s'.late == s.late && t'.late == t.late
    requires s'.reported == t'.reported && s'.started == t'.started
    ensures Alike(b, jobs, s', t')
  {
    hide Early;
  }

  lemma EarlySame(b: Batch, p: Phase, q: Phase)
    requires SamePhase(b, p, q)
    ensures Early(b, p) <==> Early(b, q)
    ensures !Early(b, p) && !p.Reporting? && !p.Done? ==> q == p
    ensures p.Reporting? ==> q.Reporting? && SameOutcome(p.outcome, q.outcome) && (b.locks ==> p.lock == q.lock)
    ensures p.Done? ==> q.Done? && SameOutcome(p.outcome, q.outcome)
  {
  }

  lemma SignalAlike(b: Batch, c: Batch, jobs: set<nat>, s: State, t: State, a: Action, s': State) returns (t': State)
    requires SemaphoreApart(b, c, jobs) && Alike(b, jobs, s, t) && (a.Cancel? || a.PassDeadline?) && Step(b, s, a, s')
    ensures Leads(c, t, t') && Alike(b, jobs, s', t')
  {
    hide WellFormed;
    t' := if a.Cancel? then t.(cancelled := true) else t.(late := true);
    LeadsStep(c, t, a, t');
  }

  lemma GrantAlike(b: Batch, c: Batch, jobs: set<nat>, s: State, t: State, a: Action, s': State) returns (t': State)
    requires SemaphoreApart(b, c, jobs) && Alike(b, jobs, s, t) && Queues(s) && (a.GrantLock? || a.Finish?)
             && Step(b, s, a, s')
    ensures Leads(c, t, t') && Alike(b, jobs, s', t')
  {
    hide WellFormed, LockFree, Alike, SamePhase;
    var i := a.job;
    AlikeAt(b, jobs, s, t, i);
    EarlySame(b, s.phase[i], t.phase[i]);
    var p := if a.GrantLock? then LockReady else Reporting(Answered(a.output), true, true);
    if a.GrantLock? {
      SameLockFree(b, c, jobs, s, t, i);
      t' := To(t, i, p).(lockQueue := t.lockQueue[1..]);
    } else {
      t' := To(t, i, p);
    }
    LeadsStep(c, t, a, t');
    SameItself(b, p);
    AlikeMove(b, jobs, s, t, i, p, p, s', t');
  }

  lemma AlikeAt(b: Batch, jobs: set<nat>, s: State, t: State, i: nat)
    requires Alike(b, jobs, s, t) && i in s.phase
    ensures i in jobs && i in t.phase && SamePhase(b, s.phase[i], t.phase[i])
    ensures s.permitQueue == [] && t.permitQueue == [] && s.lockQueue == t.lockQueue
    ensures s.cancelled == t.cancelled && s.late == t.late && s.reported == t.reported && s.started == t.started
    ensures !s.phase[i].PermitQueued? && !s.phase[i].PermitReady?
    ensures s.phase.Keys == jobs && t.phase.Keys == jobs && NoPermitWait(t)
  {
  }

  lemma SameItself(b: Batch, p: Phase)
    ensures SamePhase(b, p, p)
  {
  }

  /** Before the lock: the job of `t` catches up if need be. */
  lemma EarlyAdvance(b: Batch, c: Batch, jobs: set<nat>, s: State, t: State, i: nat, s': State) returns (t': State)
    requires SemaphoreApart(b, c, jobs) && Alike(b, jobs, s, t) && Inv(b, jobs, s) && Inv(c, jobs, t)
    requires i in s.phase && Early(b, s.phase[i]) && Advances(b, s, i, s') && i in s'.phase && !Early(b, s'.phase[i])
    requires Turn(c, t, i)
    ensures Leads(c, t, t') && Alike(b, jobs, s', t')
  {
    hide WellFormed, LockFree, PermitFree, Alike, SamePhase, Turn, Inv;
    AlikeAt(b, jobs, s, t, i);
    EarlySame(b, s.phase[i], t.phase[i]);
    var p := s'.phase[i];
    SameItself(b, p);
    if s.phase[i].Idle? {
      AmpleFree(b, jobs, s, i);
    }
    if b.locks {
      ReachLock(c, jobs, t, i);
      var u := To(t, i, AtLock);
      t' := CrossLock(b, c, jobs, s, t, i, s');
      UnseenMove(t, i, u.phase[i], u);
      LeadsTransitive(c, t, u, t');
      AlikeMove(b, jobs, s, t, i, p, p, s', t');
    } else {
      ReachTool(c, jobs, t, i);
      var u := To(t, i, AtTool);
      t' := To(t, i, Running).(started := t.started + {i});
      assert t' == To(u, i, Running).(started := u.started + {i});
      LeadsStep(c, u, Advance(i), t');
      UnseenMove(t, i, u.phase[i], u);
      LeadsTransitive(c, t, u, t');
      AlikeMove(b, jobs, s, t, i, p, p, s', t');
    }
  }

  lemma AmpleFree(b: Batch, jobs: set<nat>, s: State, i: nat)
    requires Ample(b, jobs) && s.phase.Keys == jobs && i in jobs && s.phase[i].Idle?
    ensures PermitFree(b, s)
  {
    AmplePermit(b, jobs, s, i);
  }

  lemma CrossLock(b: Batch, c: Batch, jobs: set<nat>, s: State, t: State, i: nat, s': State) returns (t': State)
    requires SemaphoreApart(b, c, jobs) && Alike(b, jobs, s, t) && b.locks
    requires i in s.phase && s.phase[i].AtLock? && Advances(b, s, i, s') && Early(b, t.phase[i]) && i in t.phase
    ensures Leads(c, To(t, i, AtLock), t') && i in s'.phase
    ensures t' == To(t, i, s'.phase[i]).(lockQueue := s'.lockQueue)
  {
    hide WellFormed, SamePhase, LockFree;
    var u := To(t, i, AtLock);
    AlikeAt(b, jobs, s, t, i);
    LockFreeThere(b, c, jobs, s, t, u, i);
    t' := To(t, i, s'.phase[i]).(lockQueue := s'.lockQueue);
    assert t' == if s'.phase[i].AtTool?
           then To(u, i, AtTool) else To(u, i, LockQueued).(lockQueue := u.lockQueue + [i]);
    LeadsStep(c, u, Advance(i), t');
  }

  lemma LockFreeThere(b: Batch, c: Batch, jobs: set<nat>, s: State, t: State, u: State, i: nat)
    requires SameBatch(b, c) && b.locks == c.locks && Alike(b, jobs, s, t) && b.locks
    requires i in jobs && Early(b, t.phase[i]) && u == To(t, i, AtLock)
    ensures LockFree(b, s, i) <==> LockFree(c, u, i)
  {
    SameLockHolders(b, jobs, s, t);
    assert LockHolders(u) == LockHolders(t);
  }

  lemma LateAdvance(b: Batch, c: Batch, jobs: set<nat>, s: State, t: State, i: nat, s': State) returns (t': State)
    requires SemaphoreApart(b, c, jobs) && Alike(b, jobs, s, t) && Inv(b, jobs, s)
    requires i in s.phase && !Early(b, s.phase[i]) && Advances(b, s, i, s')
    ensures Leads(c, t, t') && Alike(b, jobs, s', t')
  {
    hide WellFormed, LockFree, PermitFree, Alike, SamePhase, Turn, Inv;
    AlikeAt(b, jobs, s, t, i);
    EarlySame(b, s.phase[i], t.phase[i]);
    var p := s'.phase[i];
    if s.phase[i].Reporting? {
      var q := Done(t.phase[i].outcome);
      t' := To(t, i, q).(reported := t.reported + multiset{i});
      LeadsStep(c, t, Advance(i), t');
      SameDone(b, p, q);
      AlikeMove(b, jobs, s, t, i, p, q, s', t');
    } else {
      SameItself(b, p);
      t' := To(t, i, p).(started := s'.started);
      LeadsStep(c, t, Advance(i), t');
      AlikeMove(b, jobs, s, t, i, p, p, s', t');
    }
  }

  lemma SameDone(b: Batch, p: Phase, q: Phase)
    requires p.Done? && q.Done? && SameOutcome(p.outcome, q.outcome)
    ensures SamePhase(b, p, q)
  {
  }

  lemma InterruptAlike(b: Batch, c: Batch, jobs: set<nat>, s: State, t: State, i: nat, cause: Cause, s': State)
    returns (t': State)
    requires SemaphoreApart(b, c, jobs) && Alike(b, jobs, s, t) && Inv(b, jobs, s) && Inv(c, jobs, t)
    requires i in s.phase && Interrupts(b, s, i, cause, s') && Turn(c, t, i)
    ensures Leads(c, t, t') && Alike(b, jobs, s', t')
  {
    hide WellFormed, Alike, SamePhase, Turn, Inv, Without, Leads, Interrupts, Early;
    if Early(b, s.phase[i]) {
      t' := EarlyInterrupt(b, c, jobs, s, t, i, cause, s');
    } else {
      t' := LateInterrupt(b, c, jobs, s, t, i, cause, s');
    }
  }

  lemma EarlyInterrupt(b: Batch, c: Batch, jobs: set<nat>, s: State, t: State, i: nat, cause: Cause, s': State)
    returns (t': State)
    requires SemaphoreApart(b, c, jobs) && Alike(b, jobs, s, t)
    requires i in s.phase && Early(b, s.phase[i]) && Interrupts(b, s, i, cause, s') && Turn(c, t, i)
    ensures Leads(c, t, t') && Alike(b, jobs, s', t')
  {
    hide WellFormed, Alike, SamePhase, Turn, Without, Leads;
    AlikeAt(b, jobs, s, t, i);
    EarlySame(b, s.phase[i], t.phase[i]);
    var p := s'.phase[i];
    var q := ReachCancelled(c, jobs, t, i);
    t' := To(t, i, q);
    SameStop(b, p, q);
    AlikeMove(b, jobs, s, t, i, p, q, s', t');
  }

  lemma LateInterrupt(b: Batch, c: Batch, jobs: set<nat>, s: State, t: State, i: nat, cause: Cause, s': State)
    returns (t': State)
    requires SemaphoreApart(b, c, jobs) && Alike(b, jobs, s, t)
    requires i in s.phase && !Early(b, s.phase[i]) && Interrupts(b, s, i, cause, s')
    ensures Leads(c, t, t') && Alike(b, jobs, s', t')
  {
    hide WellFormed, Alike, SamePhase, Turn, Without, Leads;
    AlikeAt(b, jobs, s, t, i);
    EarlySame(b, s.phase[i], t.phase[i]);
    var p := s'.phase[i];
    t' := To(t, i, p).(lockQueue := s'.lockQueue);
    assert Interrupts(c, t, i, cause, t');
    hide Interrupts, Early;
    LeadsStep(c, t, Interrupt(i, cause), t');
    SameItself(b, p);
    AlikeMove(b, jobs, s, t, i, p, p, s', t');
  }

  lemma SameStop(b: Batch, p: Phase, q: Phase)
    requires p.Reporting? && q.Reporting? && SameOutcome(p.outcome, q.outcome) && (b.locks ==> p.lock == q.lock)
    ensures SamePhase(b, p, q)
  {
  }

  /** One step of a batch with or without its semaphore is matched by steps
      of the other. */
  lemma SemaphoreStep(b: Batch, c: Batch, jobs: set<nat>, s: State, t: State, a: Action, s': State) returns (t': State)
    requires SemaphoreApart(b, c, jobs) && Alike(b, jobs, s, t) && Inv(b, jobs, s) && Inv(c, jobs, t)
             && Step(b, s, a, s')
    ensures Leads(c, t, t') && Alike(b, jobs, s', t')
  {
    hide WellFormed, Alike, SamePhase, Turn, Inv, Advances, Interrupts, LockFree, PermitFree;
    match a
    case Cancel => t' := SignalAlike(b, c, jobs, s, t, a, s');
    case PassDeadline => t' := SignalAlike(b, c, jobs, s, t, a, s');
    case GrantPermit(i) => AlikeAt(b, jobs, s, t, i); t' := t;
    case GrantLock(i) => InvQueues(b, jobs, s); t' := GrantAlike(b, c, jobs, s, t, a, s');
    case Finish(i, _) => InvQueues(b, jobs, s); t' := GrantAlike(b, c, jobs, s, t, a, s');
    case Advance(i) => t' := AdvanceAlike(b, c, jobs, s, t, i, s');
    case Interrupt(i, cause) =>
      ActorTurn(b, c, jobs, s, t, a, s');
      t' := InterruptAlike(b, c, jobs, s, t, i, cause, s');
  }

  lemma InvQueues(b: Batch, jobs: set<nat>, s: State)
    requires Inv(b, jobs, s)
    ensures Queues(s) && s.phase.Keys == jobs
  {
  }

  lemma ActorTurn(b: Batch, c: Batch, jobs: set<nat>, s: State, t: State, a: Action, s': State)
    requires SemaphoreApart(b, c, jobs) && Alike(b, jobs, s, t) && Inv(b, jobs, s) && Step(b, s, a, s')
    requires a.Advance? || a.Interrupt?
    ensures Turn(c, t, a.job)
  {
    hide WellFormed, Alike, Turn, Inv, Advances, Interrupts;
    InvQueues(b, jobs, s);
    StepMoves(b, s, a, s');
    if !s.phase[a.job].Idle? {
      EarlyTurn(b, jobs, s, a.job);
    }
    SameTurn(b, c, jobs, s, t, a.job);
  }

  lemma AdvanceAlike(b: Batch, c: Batch, jobs: set<nat>, s: State, t: State, i: nat, s': State) returns (t': State)
    requires SemaphoreApart(b, c, jobs) && Alike(b, jobs, s, t) && Inv(b, jobs, s) && Inv(c, jobs, t)
    requires i in s.phase && Advances(b, s, i, s')
    ensures Leads(c, t, t') && Alike(b, jobs, s', t')
  {
    hide WellFormed, Alike, SamePhase, Turn, Inv, LockFree, PermitFree, Advances;
    InvQueues(b, jobs, s);
    AdvanceMoves(b, s, i, s');
    ActorTurn(b, c, jobs, s, t, Advance(i), s');
    if !Early(b, s.phase[i]) {
      t' := LateAdvance(b, c, jobs, s, t, i, s');
    } else if !Early(b, s'.phase[i]) {
      EarlyIsNot(b, jobs, s, t, i, s');
      t' := EarlyAdvance(b, c, jobs, s, t, i, s');
    } else {
      t' := t;
      LeadsStay(c, t);
      EarlyStays(b, jobs, s, t, i, s');
    }
  }

  lemma EarlyIsNot(b: Batch, jobs: set<nat>, s: State, t: State, i: nat, s': State)
    requires Alike(b, jobs, s, t) && i in s.phase
    ensures i in t.phase && s.phase.Keys == jobs
  {
  }

  lemma EarlyStays(b: Batch, jobs: set<nat>, s: State, t: State, i: nat, s': State)
    requires Alike(b, jobs, s, t) && i in s.phase && Advances(b, s, i, s') && i in s'.phase
    requires Early(b, s.phase[i]) && Early(b, s'.phase[i])
    ensures Alike(b, jobs, s', t)
  {
    hide Turn, LockFree, PermitFree;
    assert t.phase[i := t.phase[i]] == t.phase;
    AlikeMove(b, jobs, s, t, i, s'.phase[i], t.phase[i], s', t);
  }

  // ----- leaving out the lock -----

  /** Phases between the permit and the tool. */
  predicate Holding(p: Phase) {
    p.AtLock? || p.AtTool?
  }

  ghost predicate SameView(p: Phase, q: Phase) {
    || (Holding(p) && Holding(q))
    || (!Holding(p) && p == q)
    || (p.Reporting? && q.Reporting? && SameOutcome(p.outcome, q.outcome) && p.permit == q.permit)
    || (p.Done? && q.Done? && SameOutcome(p.outcome, q.outcome))
  }

  ghost predicate NoLockWait(s: State) {
    s.lockQueue == [] && forall i :: i in s.phase ==> !s.phase[i].LockQueued? && !s.phase[i].LockReady?
  }

  ghost predicate Similar(jobs: set<nat>, s: State, t: State) {
    && s.phase.Keys == jobs && t.phase.Keys == jobs
    && (forall i :: i in jobs ==> SameView(s.phase[i], t.phase[i]))
    && NoLockWait(s) && NoLockWait(t)
    && s.permitQueue == t.permitQueue
    && s.cancelled == t.cancelled && s.late == t.late
    && s.reported == t.reported && s.started == t.started
  }

  /** Two batches of the same jobs, none of them exclusive, that differ in
      the lock only. */
  ghost predicate LockApart(b: Batch, c: Batch, jobs: set<nat>) {
    SameBatch(b, c) && b.permits == c.permits && WellFormed(b, jobs) && WellFormed(c, jobs) && b.exclusive !! jobs
  }

  lemma SimilarAt(jobs: set<nat>, s: State, t: State, i: nat)
    requires Similar(jobs, s, t) && i in s.phase
    ensures i in jobs && i in t.phase && SameView(s.phase[i], t.phase[i])
    ensures s.lockQueue == [] && t.lockQueue == [] && s.permitQueue == t.permitQueue
    ensures s.cancelled == t.cancelled && s.late == t.late && s.reported == t.reported && s.started == t.started
    ensures !s.phase[i].LockQueued? && !s.phase[i].LockReady?
    ensures s.phase.Keys == jobs && t.phase.Keys == jobs && NoLockWait(t)
  {
  }

  lemma ViewSame(p: Phase, q: Phase)
    requires SameView(p, q)
    ensures Holding(p) <==> Holding(q)
    ensures !Holding(p) && !p.Reporting? && !p.Done? ==> q == p
    ensures p.Reporting? ==> q.Reporting? && SameOutcome(p.outcome, q.outcome) && p.permit == q.permit
    ensures p.Done? ==> q.Done? && SameOutcome(p.outcome, q.outcome)
  {
  }

  lemma SimilarTurn(b: Batch, c: Batch, jobs: set<nat>, s: State, t: State, i: nat)
    requires SameBatch(b, c) && Similar(jobs, s, t) && Turn(b, s, i) && WellFormed(b, jobs)
    ensures Turn(c, t, i)
  {
    var u, x :| Place(b, i, u, x) && Behind(b, s, u, x);
    forall y | 0 <= y < x
      ensures b.units[u][y] in t.phase && t.phase[b.units[u][y]].Done?
    {
      assert SameView(s.phase[b.units[u][y]], t.phase[b.units[u][y]]);
    }
    assert Place(c, i, u, x) && Behind(c, t, u, x);
  }

  lemma SamePermitFree(b: Batch, c: Batch, jobs: set<nat>, s: State, t: State)
    requires SameBatch(b, c) && Similar(jobs, s, t)
    ensures PermitFree(b, s) <==> PermitFree(c, t)
  {
    forall i | i in jobs
      ensures HasPermit(s.phase[i]) <==> HasPermit(t.phase[i])
    {
      assert SameView(s.phase[i], t.phase[i]);
    }
    assert PermitHolders(s) == PermitHolders(t);
  }

  lemma ReadersOnly(b: Batch, jobs: set<nat>, s: State, i: nat)
    requires b.exclusive !! jobs && s.phase.Keys == jobs && i in jobs
    ensures LockFree(b, s, i)
  {
  }

  lemma SimilarMove(jobs: set<nat>, s: State, t: State, i: nat, p: Phase, q: Phase, s': State, t': State)
    requires Similar(jobs, s, t) && i in jobs && SameView(p, q)
    requires !p.LockQueued? && !p.LockReady? && !q.LockQueued? && !q.LockReady?
    requires s'.phase == s.phase[i := p] && t'.phase == t.phase[i := q]
    requires s'.lockQueue == [] && t'.lockQueue == [] && s'.permitQueue == t'.permitQueue
    requires s'.cancelled == s.cancelled && t'.cancelled == t.cancelled && s'.late == s.late && t'.late == t.late
    requires s'.reported == t'.reported && s'.started == t'.started
    ensures Similar(jobs, s', t')
  {
  }

  lemma ViewItself(p: Phase)
    ensures SameView(p, p)
  {
  }

  lemma ReachToolOfHolding(c: Batch, jobs: set<nat>, t: State, i: nat)
    requires t.phase.Keys == jobs && NoLockWait(t) && i in jobs && Holding(t.phase[i]) && c.exclusive !! jobs
    requires c.locks && t.phase[i].AtLock? ==> !t.cancelled
    ensures Leads(c, t, To(t, i, AtTool))
  {
    hide Turn, PermitFree;
    if t.phase[i].AtLock? {
      ReadersOnly(c, jobs, t, i);
      LeadsStep(c, t, Advance(i), To(t, i, AtTool));
    } else {
      assert To(t, i, AtTool) == t;
      LeadsStay(c, t);
    }
  }

  lemma CancelHolding(c: Batch, jobs: set<nat>, t: State, i: nat) returns (q: Phase)
    requires t.phase.Keys == jobs && NoLockWait(t) && i in jobs && Holding(t.phase[i]) && c.exclusive !! jobs
             && t.cancelled
    ensures q.Reporting? && q.outcome.Stopped? && q.outcome.cause.Cancelled? && q.permit
    ensures Leads(c, t, To(t, i, q))
  {
    if t.phase[i].AtLock? && c.locks {
      q := Reporting(Stopped(Cancelled, Before), true, false);
      LeadsStep(c, t, Interrupt(i, Cancelled), To(t, i, q));
    } else {
      q := Reporting(Stopped(Cancelled, During), true, true);
      ReachToolOfHolding(c, jobs, t, i);
      var u := To(t, i, AtTool);
      LeadsStep(c, u, Interrupt(i, Cancelled), To(u, i, q));
      UnseenMove(t, i, u.phase[i], u);
      LeadsTransitive(c, t, u, To(u, i, q));
      assert To(u, i, q) == To(t, i, q);
    }
  }

  lemma HoldingAdvance(b: Batch, c: Batch, jobs: set<nat>, s: State, t: State, i: nat, s': State) returns (t': State)
    requires LockApart(b, c, jobs) && Similar(jobs, s, t) && i in s.phase && Holding(s.phase[i])
             && Advances(b, s, i, s')
    ensures Leads(c, t, t') && Similar(jobs, s', t')
  {
    hide WellFormed, Similar, SameView, Turn, PermitFree;
    SimilarAt(jobs, s, t, i);
    ViewSame(s.phase[i], t.phase[i]);
    ReadersOnly(b, jobs, s, i);
    if s.phase[i].AtLock? {
      t' := t;
      LeadsStay(c, t);
      assert t.phase[i := t.phase[i]] == t.phase;
      BothHolding(AtTool, t.phase[i]);
      SimilarMove(jobs, s, t, i, AtTool, t.phase[i], s', t');
    } else {
      ReachToolOfHolding(c, jobs, t, i);
      var u := To(t, i, AtTool);
      t' := To(t, i, Running).(started := t.started + {i});
      assert t' == To(u, i, Running).(started := u.started + {i});
      LeadsStep(c, u, Advance(i), t');
      UnseenMove(t, i, u.phase[i], u);
      LeadsTransitive(c, t, u, t');
      ViewItself(Running);
      SimilarMove(jobs, s, t, i, Running, Running, s', t');
    }
  }

  lemma BothHolding(p: Phase, q: Phase)
    requires Holding(p) && Holding(q)
    ensures SameView(p, q)
  {
  }

  lemma OtherAdvance(b: Batch, c: Batch, jobs: set<nat>, s: State, t: State, i: nat, s': State) returns (t': State)
    requires LockApart(b, c, jobs) && Similar(jobs, s, t) && i in s.phase && !Holding(s.phase[i])
             && Advances(b, s, i, s')
    requires Turn(c, t, i)
    ensures Leads(c, t, t') && Similar(jobs, s', t')
  {
    hide WellFormed, Similar, SameView, Turn, PermitFree, LockFree;
    SimilarAt(jobs, s, t, i);
    ViewSame(s.phase[i], t.phase[i]);
    SamePermitFree(b, c, jobs, s, t);
    var p := s'.phase[i];
    if s.phase[i].Reporting? {
      var q := Done(t.phase[i].outcome);
      t' := To(t, i, q).(reported := t.reported + multiset{i});
      LeadsStep(c, t, Advance(i), t');
      BothDone(p, q);
      SimilarMove(jobs, s, t, i, p, q, s', t');
    } else {
      ViewItself(p);
      t' := To(t, i, p).(permitQueue := s'.permitQueue);
      LeadsStep(c, t, Advance(i), t');
      SimilarMove(jobs, s, t, i, p, p, s', t');
    }
  }

  lemma BothDone(p: Phase, q: Phase)
    requires p.Done? && q.Done? && SameOutcome(p.outcome, q.outcome)
    ensures SameView(p, q)
  {
  }

  lemma InterruptSimilar(b: Batch, c: Batch, jobs: set<nat>, s: State, t: State, i: nat, cause: Cause, s': State)
    returns (t': State)
    requires LockApart(b, c, jobs) && Similar(jobs, s, t) && i in s.phase && Interrupts(b, s, i, cause, s')
             && Turn(c, t, i)
    ensures Leads(c, t, t') && Similar(jobs, s', t')
  {
    hide WellFormed, Similar, SameView, Turn, Without;
    SimilarAt(jobs, s, t, i);
    ViewSame(s.phase[i], t.phase[i]);
    var p := s'.phase[i];
    if Holding(s.phase[i]) {
      var q := CancelHolding(c, jobs, t, i);
      t' := To(t, i, q);
      BothStopped(p, q);
      SimilarMove(jobs, s, t, i, p, q, s', t');
    } else {
      t' := To(t, i, p).(permitQueue := s'.permitQueue);
      LeadsStep(c, t, Interrupt(i, cause), t');
      ViewItself(p);
      SimilarMove(jobs, s, t, i, p, p, s', t');
    }
  }

  lemma BothStopped(p: Phase, q: Phase)
    requires p.Reporting? && q.Reporting? && SameOutcome(p.outcome, q.outcome) && p.permit == q.permit
    ensures SameView(p, q)
  {
  }

  lemma GrantSimilar(b: Batch, c: Batch, jobs: set<nat>, s: State, t: State, a: Action, s': State) returns (t': State)
    requires LockApart(b, c, jobs) && Similar(jobs, s, t) && Queues(s) && (a.GrantPermit? || a.Finish?)
             && Step(b, s, a, s')
    ensures Leads(c, t, t') && Similar(jobs, s', t')
  {
    hide WellFormed, PermitFree, Similar, SameView;
    var i := a.job;
    SimilarAt(jobs, s, t, i);
    ViewSame(s.phase[i], t.phase[i]);
    SamePermitFree(b, c, jobs, s, t);
    var p := if a.GrantPermit? then PermitReady else Reporting(Answered(a.output), true, true);
    t' := if a.GrantPermit? then To(t, i, p).(permitQueue := t.permitQueue[1..]) else To(t, i, p);
    LeadsStep(c, t, a, t');
    ViewItself(p);
    SimilarMove(jobs, s, t, i, p, p, s', t');
  }

  lemma SignalSimilar(b: Batch, c: Batch, jobs: set<nat>, s: State, t: State, a: Action, s': State) returns (t': State)
    requires LockApart(b, c, jobs) && Similar(jobs, s, t) && (a.Cancel? || a.PassDeadline?) && Step(b, s, a, s')
    ensures Leads(c, t, t') && Similar(jobs, s', t')
  {
    hide WellFormed;
    t' := if a.Cancel? then t.(cancelled := true) else t.(late := true);
    LeadsStep(c, t, a, t');
  }

  lemma TurnOfActor(b: Batch, c: Batch, jobs: set<nat>, s: State, t: State, a: Action, s': State)
    requires LockApart(b, c, jobs) && Similar(jobs, s, t) && Inv(b, jobs, s) && Step(b, s, a, s')
    requires a.Advance? || a.Interrupt?
    ensures Turn(c, t, a.job)
  {
    hide WellFormed, Similar, Turn, Inv, Advances, Interrupts;
    InvQueues(b, jobs, s);
    StepMoves(b, s, a, s');
    if !s.phase[a.job].Idle? {
      EarlyTurn(b, jobs, s, a.job);
    }
    SimilarTurn(b, c, jobs, s, t, a.job);
  }

  /** One step of a batch with or without its lock is matched by steps of
      the other. */
  lemma LockStep(b: Batch, c: Batch, jobs: set<nat>, s: State, t: State, a: Action, s': State) returns (t': State)
    requires LockApart(b, c, jobs) && Similar(jobs, s, t) && Inv(b, jobs, s) && Inv(c, jobs, t) && Step(b, s, a, s')
    ensures Leads(c, t, t') && Similar(jobs, s', t')
  {
    hide WellFormed, Similar, SameView, Turn, Inv, Advances, Interrupts, LockFree, PermitFree;
    InvQueues(b, jobs, s);
    match a
    case Cancel => t' := SignalSimilar(b, c, jobs, s, t, a, s');
    case PassDeadline => t' := SignalSimilar(b, c, jobs, s, t, a, s');
    case GrantLock(i) => SimilarAt(jobs, s, t, i); t' := t;
    case GrantPermit(_) => t' := GrantSimilar(b, c, jobs, s, t, a, s');
    case Finish(_, _) => t' := GrantSimilar(b, c, jobs, s, t, a, s');
    case Advance(i) =>
      TurnOfActor(b, c, jobs, s, t, a, s');
      if Holding(s.phase[i]) {
        t' := HoldingAdvance(b, c, jobs, s, t, i, s');
      } else {
        t' := OtherAdvance(b, c, jobs, s, t, i, s');
      }
    case Interrupt(i, cause) =>
      TurnOfActor(b, c, jobs, s, t, a, s');
      t' := InterruptSimilar(b, c, jobs, s, t, i, cause, s');
  }

  // ----- whole runs -----

  lemma {:induction false} PathKeepsInv(c: Batch, jobs: set<nat>, mid: seq<State>, as_: seq<Action>, k: nat)
    requires WellFormed(c, jobs) && Run(c, mid, as_) && Inv(c, jobs, mid[0]) && k <= |as_|
    ensures Inv(c, jobs, mid[k])
    decreases k
  {
    hide WellFormed, Inv, Step;
    if k > 0 {
      PathKeepsInv(c, jobs, mid, as_, k - 1);
      StepKeepsInv(c, jobs, mid[k - 1], as_[k - 1], mid[k]);
    }
  }

  lemma LastInv(c: Batch, jobs: set<nat>, tt: seq<State>, bs: seq<Action>)
    requires WellFormed(c, jobs) && RunOf(c, jobs, tt, bs)
    ensures Inv(c, jobs, tt[|bs|])
  {
    hide WellFormed, Inv, Step;
    RunKeepsInv(c, jobs, tt, bs, |bs|);
  }

  lemma TraceMore(ss: seq<State>, s: State)
    ensures Trace(ss + [s]) == Extended(Trace(ss), Seen(s))
  {
    hide Seen, Extended;
    assert (ss + [s])[..|ss|] == ss;
  }

  /** What a run shows when it goes on along states that first look like its
      last one and from the `m`th on like `v`. */
  lemma {:induction false} TraceAlong(tt: seq<State>, mid: seq<State>, m: nat, v: Visible, k: nat)
    requires tt != [] && k < |mid|
    requires forall x :: 0 <= x <= k ==> Seen(mid[x]) == if x <= m then Seen(tt[|tt| - 1]) else v
    ensures Trace(tt + mid[1..k + 1]) == if k <= m then Trace(tt) else Extended(Trace(tt), v)
    decreases k
  {
    hide Seen, Trace;
    TraceEnds(tt);
    if k == 0 {
      assert tt + mid[1..1] == tt;
    } else {
      TraceAlong(tt, mid, m, v, k - 1);
      TraceMore(tt + mid[1..k], mid[k]);
      assert tt + mid[1..k + 1] == tt + mid[1..k] + [mid[k]];
    }
  }

  lemma JoinRuns(c: Batch, tt: seq<State>, bs: seq<Action>, mid: seq<State>, as_: seq<Action>)
    requires Run(c, tt, bs) && Run(c, mid, as_) && mid[0] == tt[|bs|]
    ensures Run(c, tt + mid[1..], bs + as_)
    ensures (tt + mid[1..])[0] == tt[0] && (tt + mid[1..])[|bs + as_|] == mid[|as_|]
  {
    hide Step;
    var all, acts := tt + mid[1..], bs + as_;
    forall k | 0 <= k < |acts|
      ensures Step(c, all[k], acts[k], all[k + 1])
    {
      if k < |bs| {
        assert all[k] == tt[k] && all[k + 1] == tt[k + 1];
      } else {
        assert all[k] == mid[k - |bs|] && all[k + 1] == mid[k + 1 - |bs|];
      }
    }
  }

  /** A run can be prolonged along a path, and shows at most the end of it in
      addition. */
  lemma Prolong(c: Batch, jobs: set<nat>, tt: seq<State>, bs: seq<Action>, t': State)
    returns (tt': seq<State>, bs': seq<Action>)
    requires RunOf(c, jobs, tt, bs) && Leads(c, tt[|bs|], t')
    ensures RunOf(c, jobs, tt', bs') && tt'[|bs'|] == t'
    ensures Trace(tt') == Extended(Trace(tt), Seen(t'))
  {
    hide Step, Seen, Trace;
    var mid, as_, m :| Path(c, tt[|bs|], t', mid, as_, m);
    tt', bs' := tt + mid[1..], bs + as_;
    JoinRuns(c, tt, bs, mid, as_);
    TraceAlong(tt, mid, m, Seen(t'), |as_|);
    assert mid[1..|as_| + 1] == mid[1..];
    TraceEnds(tt);
  }

  lemma AlikeSeen(b: Batch, jobs: set<nat>, s: State, t: State)
    requires Alike(b, jobs, s, t)
    ensures Seen(s) == Seen(t)
  {
    forall i | i in jobs
      ensures (s.phase[i].Running? <==> t.phase[i].Running?) && (s.phase[i].Done? <==> t.phase[i].Done?)
      ensures s.phase[i].Done? ==> Plain(s.phase[i].outcome) == Plain(t.phase[i].outcome)
    {
      assert SamePhase(b, s.phase[i], t.phase[i]);
    }
  }

  lemma SimilarSeen(jobs: set<nat>, s: State, t: State)
    requires Similar(jobs, s, t)
    ensures Seen(s) == Seen(t)
  {
    forall i | i in jobs
      ensures (s.phase[i].Running? <==> t.phase[i].Running?) && (s.phase[i].Done? <==> t.phase[i].Done?)
      ensures s.phase[i].Done? ==> Plain(s.phase[i].outcome) == Plain(t.phase[i].outcome)
    {
      assert SameView(s.phase[i], t.phase[i]);
    }
  }

  lemma RunPrefix(b: Batch, jobs: set<nat>, ss: seq<State>, as_: seq<Action>)
    requires RunOf(b, jobs, ss, as_) && as_ != []
    ensures RunOf(b, jobs, ss[..|as_|], as_[..|as_| - 1])
    ensures Step(b, ss[|as_| - 1], as_[|as_| - 1], ss[|as_|])
    ensures Trace(ss) == Extended(Trace(ss[..|as_|]), Seen(ss[|as_|]))
  {
    hide Step, Seen;
    assert ss[..|ss| - 1] == ss[..|as_|];
  }

  /** Every run with or without the semaphore has a run of the other kind
      that shows the same. */
  lemma {:induction false} SemaphoreRun(b: Batch, c: Batch, jobs: set<nat>, ss: seq<State>, as_: seq<Action>)
    returns (tt: seq<State>, bs: seq<Action>)
    requires SemaphoreApart(b, c, jobs) && RunOf(b, jobs, ss, as_)
    ensures RunOf(c, jobs, tt, bs) && Trace(tt) == Trace(ss) && Alike(b, jobs, ss[|as_|], tt[|bs|])
    decreases |as_|
  {
    hide WellFormed, Step, Alike, Inv, Leads, Trace, Seen, Extended;
    if as_ == [] {
      tt, bs := ss, [];
      AlikeInitially(b, jobs);
    } else {
      RunPrefix(b, jobs, ss, as_);
      var front, acts := ss[..|as_|], as_[..|as_| - 1];
      var uu, cs := SemaphoreRun(b, c, jobs, front, acts);
      LastInv(b, jobs, front, acts);
      LastInv(c, jobs, uu, cs);
      var t := SemaphoreStep(b, c, jobs, ss[|as_| - 1], uu[|cs|], as_[|as_| - 1], ss[|as_|]);
      AlikeSeen(b, jobs, ss[|as_|], t);
      tt, bs := Prolong(c, jobs, uu, cs, t);
    }
  }

  lemma AlikeInitially(b: Batch, jobs: set<nat>)
    ensures Alike(b, jobs, Initial(jobs), Initial(jobs))
    ensures Similar(jobs, Initial(jobs), Initial(jobs))
  {
  }

  /** The same for the lock. */
  lemma {:induction false} LockRun(b: Batch, c: Batch, jobs: set<nat>, ss: seq<State>, as_: seq<Action>)
    returns (tt: seq<State>, bs: seq<Action>)
    requires LockApart(b, c, jobs) && RunOf(b, jobs, ss, as_)
    ensures RunOf(c, jobs, tt, bs) && Trace(tt) == Trace(ss) && Similar(jobs, ss[|as_|], tt[|bs|])
    decreases |as_|
  {
    hide WellFormed, Step, Similar, Inv, Leads, Trace, Seen, Extended;
    if as_ == [] {
      tt, bs := ss, [];
      AlikeInitially(b, jobs);
    } else {
      RunPrefix(b, jobs, ss, as_);
      var front, acts := ss[..|as_|], as_[..|as_| - 1];
      var uu, cs := LockRun(b, c, jobs, front, acts);
      LastInv(b, jobs, front, acts);
      LastInv(c, jobs, uu, cs);
      var t := LockStep(b, c, jobs, ss[|as_| - 1], uu[|cs|], as_[|as_| - 1], ss[|as_|]);
      SimilarSeen(jobs, ss[|as_|], t);
      tt, bs := Prolong(c, jobs, uu, cs, t);
    }
  }

  /** The batch as the dispatcher sets it up: a semaphore only when there
      are more jobs than permits, a lock only when some job is exclusive. */
  ghost predicate Elided(b: Batch, jobs: set<nat>) {
    b.permits == (|jobs| > b.limit) && b.locks == (exists i :: i in jobs && i in b.exclusive)
  }

  lemma ElidedWellFormed(full: Batch, elided: Batch, jobs: set<nat>)
    requires WellFormed(full, jobs) && full.permits && full.locks
    requires SameBatch(full, elided) && Elided(elided, jobs)
    ensures WellFormed(elided, jobs) && WellFormed(full.(permits := elided.permits), jobs)
  {
    forall i, u, x, v, y | Place(elided, i, u, x) && Place(elided, i, v, y)
      ensures u == v && x == y
    {
      assert Place(full, i, u, x) && Place(full, i, v, y);
    }
    var half := full.(permits := elided.permits);
    forall i, u, x, v, y | Place(half, i, u, x) && Place(half, i, v, y)
      ensures u == v && x == y
    {
      assert Place(full, i, u, x) && Place(full, i, v, y);
    }
    assert forall i :: Member(full, i) <==> Member(elided, i);
    assert forall i :: Member(full, i) <==> Member(half, i);
  }

  /** Every run of the fully synchronised batch has a run of the elided one
      that shows the same: the same tools begin and end in the same order,
      with the same results and reports. */
  lemma ElisionIsInvisible(full: Batch, elided: Batch, jobs: set<nat>, ss: seq<State>, as_: seq<Action>)
    returns (tt: seq<State>, bs: seq<Action>)
    requires WellFormed(full, jobs) && full.permits && full.locks
    requires SameBatch(full, elided) && Elided(elided, jobs) && RunOf(full, jobs, ss, as_)
    ensures RunOf(elided, jobs, tt, bs) && Trace(tt) == Trace(ss)
  {
    hide WellFormed, RunOf, Trace, Alike, Similar;
    ElidedWellFormed(full, elided, jobs);
    var half := full.(permits := elided.permits);
    tt, bs := ss, as_;
    if !elided.permits {
      tt, bs := SemaphoreRun(full, half, jobs, tt, bs);
    } else {
      assert half == full;
    }
    if !elided.locks {
      tt, bs := LockRun(half, elided, jobs, tt, bs);
    } else {
      assert half == elided;
    }
  }

  /** And back: the elided batch shows nothing that the full one could not. */
  lemma ElisionAddsNothing(full: Batch, elided: Batch, jobs: set<nat>, tt: seq<State>, bs: seq<Action>)
    returns (ss: seq<State>, as_: seq<Action>)
    requires WellFormed(full, jobs) && full.permits && full.locks
    requires SameBatch(full, elided) && Elided(elided, jobs) && RunOf(elided, jobs, tt, bs)
    ensures RunOf(full, jobs, ss, as_) && Trace(ss) == Trace(tt)
  {
    hide WellFormed, RunOf, Trace, Alike, Similar;
    ElidedWellFormed(full, elided, jobs);
    var half := full.(permits := elided.permits);
    ss, as_ := tt, bs;
    if !elided.locks {
      ss, as_ := LockRun(elided, half, jobs, ss, as_);
    } else {
      assert half == elided;
    }
    if !elided.permits {
      ss, as_ := SemaphoreRun(half, full, jobs, ss, as_);
    } else {
      assert half == full;
    }
  }
}
