/** Concurrent execution of one batch of tool calls: every job first takes a
    permit, then a lock, then runs its tool, and reports before it gives both
    back. Jobs of one unit run one after the other; units run concurrently. */
module Execution {
  import opened Wrappers

  datatype Cause = Cancelled | DeadlineExceeded

  /** How the message for a stopped call places the interruption. */
  datatype When = Before | During

  datatype Outcome =
    | Answered(output: Result<string, string>)
    | Stopped(cause: Cause, when_: When)

  datatype Phase =
    | Idle
    | PermitQueued
    | PermitReady
    | AtLock
    | LockQueued
    | LockReady
    | AtTool
    | Running
    | Reporting(outcome: Outcome, permit: bool, lock: bool)
    | Done(outcome: Outcome)

  /** `permits` and `locks` say whether the batch has a semaphore and a
      read/write lock at all. */
  datatype Batch = Batch(
    units: seq<seq<nat>>,
    exclusive: set<nat>,
    limit: nat,
    permits: bool,
    locks: bool,
    deadline: bool)

  /** `reported` and `started` remember which jobs have been reported, and
      whose tool has begun to run. */
  datatype State = State(
    phase: map<nat, Phase>,
    permitQueue: seq<nat>,
    lockQueue: seq<nat>,
    cancelled: bool,
    late: bool,
    reported: multiset<nat>,
    started: set<nat>)

  ghost predicate Member(b: Batch, i: nat) {
    exists u :: 0 <= u < |b.units| && i in b.units[u]
  }

  /** Where a job stands: unit `u`, position `x`. */
  ghost predicate Place(b: Batch, i: nat, u: int, x: int) {
    0 <= u < |b.units| && 0 <= x < |b.units[u]| && b.units[u][x] == i
  }

  ghost predicate WellFormed(b: Batch, jobs: set<nat>) {
    && b.limit >= 1
    && (forall i :: i in jobs <==> Member(b, i))
    && (forall i, u, x, v, y :: Place(b, i, u, x) && Place(b, i, v, y) ==> u == v && x == y)
    && (!b.permits ==> |jobs| <= b.limit)
    && (!b.locks ==> b.exclusive !! jobs)
  }

  function Initial(jobs: set<nat>): State {
    State(map i | i in jobs :: Idle, [], [], false, false, multiset{}, {})
  }

  // ----- who holds what -----

  predicate HasPermit(p: Phase) {
    match p
    case PermitReady | AtLock | LockQueued | LockReady | AtTool | Running => true
    case Reporting(_, permit, _) => permit
    case Idle | PermitQueued | Done(_) => false
  }

  predicate HasLock(p: Phase) {
    match p
    case LockReady | AtTool | Running => true
    case Reporting(_, _, lock) => lock
    case Idle | PermitQueued | PermitReady | AtLock | LockQueued | Done(_) => false
  }

  ghost function PermitHolders(s: State): set<nat> {
    set i | i in s.phase && HasPermit(s.phase[i])
  }

  ghost function LockHolders(s: State): set<nat> {
    set i | i in s.phase && HasLock(s.phase[i])
  }

  ghost predicate PermitFree(b: Batch, s: State) {
    |PermitHolders(s)| < b.limit
  }

  /** A writer needs the lock to itself, a reader only excludes writers. */
  ghost predicate LockFree(b: Batch, s: State, i: nat) {
    forall j :: j in LockHolders(s) ==> i !in b.exclusive && j !in b.exclusive
  }

  /** It is the job's turn in its unit. */
  ghost predicate Turn(b: Batch, s: State, i: nat) {
    && i in s.phase
    && exists u, x :: Place(b, i, u, x) && Behind(b, s, u, x)
  }

  ghost predicate Behind(b: Batch, s: State, u: int, x: int)
    requires 0 <= u < |b.units| && x <= |b.units[u]|
  {
    forall y :: 0 <= y < x ==> b.units[u][y] in s.phase && s.phase[b.units[u][y]].Done?
  }

  // ----- steps -----

  datatype Action =
    | Cancel
    | PassDeadline
    | GrantPermit(job: nat)
    | GrantLock(job: nat)
    | Advance(job: nat)
    | Interrupt(job: nat, cause: Cause)
    | Finish(job: nat, output: Result<string, string>)

  function Without(q: seq<nat>, i: nat): (r: seq<nat>) {
    if q == [] then []
    else if q[0] == i then q[1..]
    else [q[0]] + Without(q[1..], i)
  }

  function To(s: State, i: nat, p: Phase): State {
    s.(phase := s.phase[i := p])
  }

  ghost predicate Signalled(s: State, cause: Cause) {
    match cause
    case Cancelled => s.cancelled
    case DeadlineExceeded => s.late
  }

  /** A job takes its next step. Where it has to await something it does so
      only while the run is not cancelled. */
  ghost predicate Advances(b: Batch, s: State, i: nat, s': State)
    requires i in s.phase
  {
    match s.phase[i]
    case Idle =>
      Turn(b, s, i) &&
      if !b.permits then s' == To(s, i, AtLock)
      else
        && !s.cancelled
        && s' == if PermitFree(b, s) && s.permitQueue == [] then To(s, i, AtLock)
                 else To(s, i, PermitQueued).(permitQueue := s.permitQueue + [i])
    case PermitReady =>
      !s.cancelled && s' == To(s, i, AtLock)
    case AtLock =>
      if !b.locks then s' == To(s, i, AtTool)
      else
        && !s.cancelled
        && s' == if LockFree(b, s, i) && s.lockQueue == [] then To(s, i, AtTool)
                 else To(s, i, LockQueued).(lockQueue := s.lockQueue + [i])
    case LockReady =>
      !s.cancelled && s' == To(s, i, AtTool)
    case AtTool =>
      !s.cancelled && s' == To(s, i, Running).(started := s.started + {i})
    case Reporting(outcome, _, _) =>
      s' == To(s, i, Done(outcome)).(reported := s.reported + multiset{i})
    case PermitQueued | LockQueued | Running | Done(_) => false
  }

  /** A job gives up what it waits for and reports; what it already holds it
      keeps until it has reported. Only a future that had to wait can run
      into the deadline. */
  ghost predicate Interrupts(b: Batch, s: State, i: nat, cause: Cause, s': State)
    requires i in s.phase
  {
    && Signalled(s, cause)
    && match s.phase[i]
       case Idle =>
         b.permits && Turn(b, s, i) && cause.Cancelled?
         && s' == To(s, i, Reporting(Stopped(cause, Before), false, false))
       case PermitQueued =>
         s' == To(s, i, Reporting(Stopped(cause, Before), false, false)).(permitQueue := Without(s.permitQueue, i))
       case PermitReady =>
         s' == To(s, i, Reporting(Stopped(cause, Before), false, false))
       case AtLock =>
         b.locks && cause.Cancelled? && s' == To(s, i, Reporting(Stopped(cause, Before), true, false))
       case LockQueued =>
         s' == To(s, i, Reporting(Stopped(cause, Before), true, false)).(lockQueue := Without(s.lockQueue, i))
       case LockReady =>
         s' == To(s, i, Reporting(Stopped(cause, Before), true, false))
       case AtTool =>
         cause.Cancelled? && s' == To(s, i, Reporting(Stopped(cause, During), true, true))
       case Running =>
         s' == To(s, i, Reporting(Stopped(cause, During), true, true))
       case Reporting(_, _, _) | Done(_) => false
  }

  ghost predicate Step(b: Batch, s: State, a: Action, s': State) {
    match a
    case Cancel => s' == s.(cancelled := true)
    case PassDeadline => b.deadline && s' == s.(late := true)
    case GrantPermit(i) =>
      && i in s.phase && s.permitQueue != [] && s.permitQueue[0] == i && PermitFree(b, s)
      && s' == To(s, i, PermitReady).(permitQueue := s.permitQueue[1..])
    case GrantLock(i) =>
      && i in s.phase && s.lockQueue != [] && s.lockQueue[0] == i && LockFree(b, s, i)
      && s' == To(s, i, LockReady).(lockQueue := s.lockQueue[1..])
    case Advance(i) => i in s.phase && Advances(b, s, i, s')
    case Interrupt(i, cause) => i in s.phase && Interrupts(b, s, i, cause, s')
    case Finish(i, output) =>
      i in s.phase && s.phase[i].Running? && s' == To(s, i, Reporting(Answered(output), true, true))
  }

  ghost predicate AllDone(s: State) {
    forall i :: i in s.phase ==> s.phase[i].Done?
  }

  // ----- invariant -----

  ghost predicate Queues(s: State) {
    && (forall x, y :: 0 <= x < y < |s.permitQueue| ==> s.permitQueue[x] != s.permitQueue[y])
    && (forall x, y :: 0 <= x < y < |s.lockQueue| ==> s.lockQueue[x] != s.lockQueue[y])
    && (forall i :: i in s.permitQueue <==> i in s.phase && s.phase[i].PermitQueued?)
    && (forall i :: i in s.lockQueue <==> i in s.phase && s.phase[i].LockQueued?)
  }

  ghost predicate PermitsRespected(b: Batch, s: State) {
    |PermitHolders(s)| <= b.limit
  }

  ghost predicate LocksRespected(b: Batch, s: State) {
    forall i, j :: i in LockHolders(s) && j in LockHolders(s) && i != j ==> i !in b.exclusive && j !in b.exclusive
  }

  /** Nobody is ahead of his turn. */
  ghost predicate InOrder(b: Batch, s: State) {
    forall u, x, y :: 0 <= u < |b.units| && 0 <= y < x < |b.units[u]| ==> Orderly(s, b.units[u][y], b.units[u][x])
  }

  ghost predicate Orderly(s: State, first: nat, later: nat) {
    later in s.phase && !s.phase[later].Idle? ==> first in s.phase && s.phase[first].Done?
  }

  ghost predicate ReportedOnce(s: State) {
    forall i :: s.reported[i] == if i in s.phase && s.phase[i].Done? then 1 else 0
  }

  /** What a phase says of whether the tool has begun: only a cancellation
      reported as during execution leaves it open. */
  ghost predicate Tells(p: Phase, started: bool) {
    match p
    case Running => started
    case Reporting(outcome, _, _) => ToldBy(outcome, started)
    case Done(outcome) => ToldBy(outcome, started)
    case Idle | PermitQueued | PermitReady | AtLock | LockQueued | LockReady | AtTool => !started
  }

  ghost predicate ToldBy(outcome: Outcome, started: bool) {
    match outcome
    case Answered(_) => started
    case Stopped(_, Before) => !started
    case Stopped(DeadlineExceeded, During) => started
    case Stopped(Cancelled, During) => true
  }

  ghost predicate StartedRight(s: State) {
    forall i :: if i in s.phase then Tells(s.phase[i], i in s.started) else i !in s.started
  }

  ghost predicate Inv(b: Batch, jobs: set<nat>, s: State) {
    && s.phase.Keys == jobs
    && Queues(s)
    && PermitsRespected(b, s)
    && LocksRespected(b, s)
    && InOrder(b, s)
    && ReportedOnce(s)
    && StartedRight(s)
  }

  lemma {:induction false} WithoutMeaning(q: seq<nat>, i: nat)
    requires forall x, y :: 0 <= x < y < |q| ==> q[x] != q[y]
    ensures var r := Without(q, i);
            && (forall j :: j in r <==> j in q && j != i)
            && (forall x, y :: 0 <= x < y < |r| ==> r[x] != r[y])
  {
    if q != [] && q[0] != i {
      WithoutMeaning(q[1..], i);
      assert forall j :: j in q <==> j == q[0] || j in q[1..];
      var t := Without(q[1..], i);
      forall x | 0 <= x < |t|
        ensures t[x] != q[0]
      {
        assert t[x] in t;
      }
    }
  }

  lemma InitialInv(b: Batch, jobs: set<nat>)
    requires WellFormed(b, jobs)
    ensures Inv(b, jobs, Initial(jobs))
  {
    assert PermitHolders(Initial(jobs)) == {};
  }

  /** Only the phase of one job changes, to `p`, and the queues follow. */
  ghost predicate Moves(s: State, i: nat, p: Phase, s': State) {
    && i in s.phase
    && s'.phase == s.phase[i := p]
    && (forall j :: j != i ==> (j in s'.permitQueue <==> j in s.permitQueue))
    && (forall j :: j != i ==> (j in s'.lockQueue <==> j in s.lockQueue))
    && (i in s'.permitQueue <==> p.PermitQueued?)
    && (i in s'.lockQueue <==> p.LockQueued?)
    && (forall x, y :: 0 <= x < y < |s'.permitQueue| ==> s'.permitQueue[x] != s'.permitQueue[y])
    && (forall x, y :: 0 <= x < y < |s'.lockQueue| ==> s'.lockQueue[x] != s'.lockQueue[y])
  }

  lemma MoveQueues(s: State, i: nat, p: Phase, s': State)
    requires Queues(s) && Moves(s, i, p, s')
    ensures Queues(s')
  {
  }

  lemma MoveHolders(s: State, i: nat, p: Phase, s': State)
    requires i in s.phase && s'.phase == s.phase[i := p]
    ensures PermitHolders(s') == if HasPermit(p) then PermitHolders(s) + {i} else PermitHolders(s) - {i}
    ensures LockHolders(s') == if HasLock(p) then LockHolders(s) + {i} else LockHolders(s) - {i}
  {
  }

  lemma SizeBound(a: set<nat>, c: set<nat>)
    requires a <= c
    ensures |a| <= |c|
  {
    assert c == a + (c - a);
  }

  lemma MovePermits(b: Batch, jobs: set<nat>, s: State, i: nat, p: Phase, s': State)
    requires WellFormed(b, jobs) && s.phase.Keys == jobs && PermitsRespected(b, s) && i in s.phase
             && s'.phase == s.phase[i := p]
    requires HasPermit(p) ==> HasPermit(s.phase[i]) || PermitFree(b, s) || !b.permits
    ensures PermitsRespected(b, s')
  {
    MoveHolders(s, i, p, s');
    if !b.permits {
      SizeBound(PermitHolders(s'), jobs);
    } else if HasPermit(p) && HasPermit(s.phase[i]) {
      assert PermitHolders(s) + {i} == PermitHolders(s);
    } else if !HasPermit(p) {
      SizeBound(PermitHolders(s) - {i}, PermitHolders(s));
    }
  }

  lemma MoveLocks(b: Batch, jobs: set<nat>, s: State, i: nat, p: Phase, s': State)
    requires WellFormed(b, jobs) && s.phase.Keys == jobs && LocksRespected(b, s) && i in s.phase
             && s'.phase == s.phase[i := p]
    requires HasLock(p) ==> HasLock(s.phase[i]) || LockFree(b, s, i) || !b.locks
    ensures LocksRespected(b, s')
  {
    MoveHolders(s, i, p, s');
  }

  lemma MoveOrder(b: Batch, jobs: set<nat>, s: State, i: nat, p: Phase, s': State)
    requires WellFormed(b, jobs) && InOrder(b, s) && i in s.phase && s'.phase == s.phase[i := p]
    requires s.phase[i].Idle? ==> Turn(b, s, i)
    requires !s.phase[i].Done?
    ensures InOrder(b, s')
  {
    forall u, x, y | 0 <= u < |b.units| && 0 <= y < x < |b.units[u]|
      ensures Orderly(s', b.units[u][y], b.units[u][x])
    {
      assert Orderly(s, b.units[u][y], b.units[u][x]);
      if b.units[u][x] == i && s.phase[i].Idle? {
        var v, z :| Place(b, i, v, z) && Behind(b, s, v, z);
        assert Place(b, i, u, x);
      }
    }
  }

  lemma MoveReports(s: State, i: nat, p: Phase, s': State)
    requires ReportedOnce(s) && i in s.phase && s'.phase == s.phase[i := p] && !s.phase[i].Done?
    requires s'.reported == if p.Done? then s.reported + multiset{i} else s.reported
    ensures ReportedOnce(s')
  {
  }

  lemma MoveStarted(s: State, i: nat, p: Phase, s': State)
    requires StartedRight(s) && i in s.phase && s'.phase == s.phase[i := p]
    requires s'.started == if p.Running? then s.started + {i} else s.started
    requires Tells(s.phase[i], i in s.started) ==> Tells(p, i in s'.started)
    ensures StartedRight(s')
  {
    hide Tells;
  }

  /** What every step does to its job. */
  ghost predicate GoodMove(b: Batch, s: State, i: nat, p: Phase, s': State) {
    Moves(s, i, p, s') && Sound(b, s, i, p, s')
  }

  ghost predicate Sound(b: Batch, s: State, i: nat, p: Phase, s': State) {
    && i in s.phase && !s.phase[i].Done?
    && (s.phase[i].Idle? ==> Turn(b, s, i))
    && (HasPermit(p) ==> HasPermit(s.phase[i]) || PermitFree(b, s) || !b.permits)
    && (HasLock(p) ==> HasLock(s.phase[i]) || LockFree(b, s, i) || !b.locks)
    && s'.reported == (if p.Done? then s.reported + multiset{i} else s.reported)
    && s'.started == (if p.Running? then s.started + {i} else s.started)
    && (Tells(s.phase[i], i in s.started) ==> Tells(p, i in s'.started))
    && s'.cancelled == s.cancelled && s'.late == s.late
    && Rank(p) < Rank(s.phase[i])
    && (p.Done? ==> s.phase[i].Reporting? && p.outcome == s.phase[i].outcome)
  }

  /** How far a job is from its end. */
  function Rank(p: Phase): nat {
    match p
    case Idle => 9
    case PermitQueued => 8
    case PermitReady => 7
    case AtLock => 6
    case LockQueued => 5
    case LockReady => 4
    case AtTool => 3
    case Running => 2
    case Reporting(_, _, _) => 1
    case Done(_) => 0
  }

  predicate Waiting(p: Phase) {
    p.PermitQueued? || p.LockQueued?
  }

  lemma PlainMove(s: State, i: nat, p: Phase, s': State)
    requires Queues(s) && i in s.phase && !Waiting(s.phase[i]) && !Waiting(p)
    requires s'.phase == s.phase[i := p] && s'.permitQueue == s.permitQueue && s'.lockQueue == s.lockQueue
    ensures Moves(s, i, p, s')
  {
  }

  lemma JoinMove(s: State, i: nat, p: Phase, s': State)
    requires Queues(s) && i in s.phase && !Waiting(s.phase[i]) && Waiting(p)
    requires s'.phase == s.phase[i := p]
    requires s'.permitQueue == if p.PermitQueued? then s.permitQueue + [i] else s.permitQueue
    requires s'.lockQueue == if p.LockQueued? then s.lockQueue + [i] else s.lockQueue
    ensures Moves(s, i, p, s')
  {
  }

  lemma LeaveMove(s: State, i: nat, p: Phase, s': State)
    requires Queues(s) && i in s.phase && !Waiting(p) && Waiting(s.phase[i])
    requires s'.phase == s.phase[i := p]
    requires s'.permitQueue == if s.phase[i].PermitQueued? then Without(s.permitQueue, i) else s.permitQueue
    requires s'.lockQueue == if s.phase[i].LockQueued? then Without(s.lockQueue, i) else s.lockQueue
    ensures Moves(s, i, p, s')
  {
    WithoutMeaning(s.permitQueue, i);
    WithoutMeaning(s.lockQueue, i);
  }

  lemma AdvanceFields(b: Batch, s: State, i: nat, s': State)
    requires i in s.phase && Advances(b, s, i, s')
    ensures i in s'.phase && s'.phase == s.phase[i := s'.phase[i]]
    ensures s'.cancelled == s.cancelled && s'.late == s.late
  {
    hide Turn, PermitFree, LockFree;
  }

  lemma AdvanceReports(b: Batch, s: State, i: nat, s': State)
    requires i in s.phase && Advances(b, s, i, s')
    ensures i in s'.phase && s'.reported == if s'.phase[i].Done? then s.reported + multiset{i} else s.reported
  {
    hide Turn, PermitFree, LockFree;
  }

  lemma AdvanceStarts(b: Batch, s: State, i: nat, s': State)
    requires i in s.phase && Advances(b, s, i, s')
    ensures i in s'.phase && s'.started == if s'.phase[i].Running? then s.started + {i} else s.started
  {
    hide Turn, PermitFree, LockFree;
  }

  lemma AdvancePhase(b: Batch, s: State, i: nat, s': State)
    requires i in s.phase && Advances(b, s, i, s')
    ensures i in s'.phase && Rank(s'.phase[i]) < Rank(s.phase[i])
    ensures s.phase[i].Idle? ==> Turn(b, s, i)
    ensures s'.phase[i].Done? ==> s.phase[i].Reporting? && s'.phase[i].outcome == s.phase[i].outcome
    ensures !s.phase[i].Done? && (s'.phase[i].Running? ==> s.phase[i].AtTool?)
    ensures !s'.phase[i].Reporting? && !s.phase[i].Running?
  {
    hide Turn, PermitFree, LockFree;
  }

  lemma AdvanceHolds(b: Batch, s: State, i: nat, s': State)
    requires i in s.phase && Advances(b, s, i, s')
    ensures i in s'.phase
    ensures HasPermit(s'.phase[i]) ==> HasPermit(s.phase[i]) || PermitFree(b, s) || !b.permits
    ensures HasLock(s'.phase[i]) ==> HasLock(s.phase[i]) || LockFree(b, s, i) || !b.locks
  {
    hide Turn, PermitFree, LockFree;
  }

  lemma AdvanceTells(p: Phase, q: Phase, before: bool, after: bool)
    requires Tells(p, before) && !p.Done? && !p.Running? && !q.Reporting?
    requires q.Done? ==> p.Reporting? && q.outcome == p.outcome
    requires q.Running? ==> p.AtTool?
    requires Rank(q) < Rank(p) && after == (q.Running? || before)
    ensures Tells(q, after)
  {
  }

  lemma AdvanceSound(b: Batch, s: State, i: nat, s': State)
    requires i in s.phase && Advances(b, s, i, s')
    ensures i in s'.phase && Sound(b, s, i, s'.phase[i], s')
  {
    hide Turn, PermitFree, LockFree, Advances, HasPermit, HasLock, Rank, Tells;
    AdvanceFields(b, s, i, s');
    AdvanceReports(b, s, i, s');
    AdvanceStarts(b, s, i, s');
    AdvancePhase(b, s, i, s');
    AdvanceHolds(b, s, i, s');
    if Tells(s.phase[i], i in s.started) {
      AdvanceTells(s.phase[i], s'.phase[i], i in s.started, i in s'.started);
    }
  }

  lemma AdvanceMoves(b: Batch, s: State, i: nat, s': State)
    requires Queues(s) && i in s.phase && Advances(b, s, i, s')
    ensures i in s'.phase && GoodMove(b, s, i, s'.phase[i], s')
  {
    hide Turn, Queues, Moves, PermitFree, LockFree, Sound;
    AdvanceSound(b, s, i, s');
    AdvanceFields(b, s, i, s');
    if Waiting(s'.phase[i]) {
      JoinMove(s, i, s'.phase[i], s');
    } else {
      PlainMove(s, i, s'.phase[i], s');
    }
  }

  /** What a job reports that is stopped in a phase. */
  function StopOf(p: Phase, cause: Cause): Phase
    requires !p.Reporting? && !p.Done?
  {
    match p
    case Idle | PermitQueued | PermitReady => Reporting(Stopped(cause, Before), false, false)
    case AtLock | LockQueued | LockReady => Reporting(Stopped(cause, Before), true, false)
    case AtTool | Running => Reporting(Stopped(cause, During), true, true)
  }

  lemma InterruptFields(b: Batch, s: State, i: nat, cause: Cause, s': State)
    requires i in s.phase && Interrupts(b, s, i, cause, s')
    ensures !s.phase[i].Reporting? && !s.phase[i].Done?
    ensures s'.phase == s.phase[i := StopOf(s.phase[i], cause)]
    ensures s'.reported == s.reported && s'.started == s.started && s'.cancelled == s.cancelled && s'.late == s.late
    ensures s.phase[i].Idle? ==> Turn(b, s, i)
    ensures s.phase[i].AtTool? ==> cause.Cancelled?
  {
    hide Turn, Signalled, Without;
  }

  lemma StopOfSound(p: Phase, cause: Cause, started: bool)
    requires !p.Reporting? && !p.Done? && (p.AtTool? ==> cause.Cancelled?)
    ensures var q := StopOf(p, cause);
            && q.Reporting? && Rank(q) < Rank(p) && (Tells(p, started) ==> Tells(q, started))
            && (HasPermit(q) ==> HasPermit(p)) && (HasLock(q) ==> HasLock(p))
  {
  }

  lemma InterruptMoves(b: Batch, s: State, i: nat, cause: Cause, s': State)
    requires Queues(s) && i in s.phase && Interrupts(b, s, i, cause, s')
    ensures i in s'.phase && GoodMove(b, s, i, s'.phase[i], s')
  {
    hide Turn, Queues, Moves, PermitFree, LockFree, Signalled, Without, Sound, StopOf, Tells, Rank, HasPermit, HasLock;
    InterruptFields(b, s, i, cause, s');
    StopOfSound(s.phase[i], cause, i in s.started);
    assert Sound(b, s, i, s'.phase[i], s') by {
      StopIsSound(b, s, i, s'.phase[i], s');
    }
    if Waiting(s.phase[i]) {
      LeaveMove(s, i, s'.phase[i], s');
    } else {
      PlainMove(s, i, s'.phase[i], s');
    }
  }

  lemma StopIsSound(b: Batch, s: State, i: nat, q: Phase, s': State)
    requires i in s.phase && !s.phase[i].Done? && q.Reporting? && Rank(q) < Rank(s.phase[i])
    requires Tells(s.phase[i], i in s.started) ==> Tells(q, i in s.started)
    requires (HasPermit(q) ==> HasPermit(s.phase[i])) && (HasLock(q) ==> HasLock(s.phase[i]))
    requires s'.reported == s.reported && s'.started == s.started && s'.cancelled == s.cancelled && s'.late == s.late
    requires s.phase[i].Idle? ==> Turn(b, s, i)
    ensures Sound(b, s, i, q, s')
  {
    hide Turn, PermitFree, LockFree, Tells, Rank, HasPermit, HasLock;
  }

  lemma GrantSound(b: Batch, s: State, a: Action, s': State)
    requires (a.GrantPermit? || a.GrantLock? || a.Finish?) && Step(b, s, a, s')
    requires a.GrantPermit? ==> s.phase[a.job].PermitQueued?
    requires a.GrantLock? ==> s.phase[a.job].LockQueued?
    ensures a.job in s'.phase && Sound(b, s, a.job, s'.phase[a.job], s')
  {
    hide Turn, PermitFree, LockFree;
  }

  lemma HeadMove(s: State, i: nat, p: Phase, s': State)
    requires Queues(s) && i in s.phase && !Waiting(p)
    requires s'.phase == s.phase[i := p]
    requires || (s.permitQueue != [] && s.permitQueue[0] == i && s'.permitQueue == s.permitQueue[1..]
                 && s'.lockQueue == s.lockQueue)
             || (s.lockQueue != [] && s.lockQueue[0] == i && s'.lockQueue == s.lockQueue[1..]
                 && s'.permitQueue == s.permitQueue)
    ensures Moves(s, i, p, s')
  {
    assert s.permitQueue != [] ==> forall j :: j in s.permitQueue <==> j == s.permitQueue[0] || j in s.permitQueue[1..];
    assert s.lockQueue != [] ==> forall j :: j in s.lockQueue <==> j == s.lockQueue[0] || j in s.lockQueue[1..];
  }

  lemma HeadsWait(s: State)
    requires Queues(s)
    ensures s.permitQueue != [] ==> s.permitQueue[0] in s.phase && s.phase[s.permitQueue[0]].PermitQueued?
    ensures s.lockQueue != [] ==> s.lockQueue[0] in s.phase && s.phase[s.lockQueue[0]].LockQueued?
  {
  }

  lemma GrantMoves(b: Batch, s: State, a: Action, s': State)
    requires Queues(s) && (a.GrantPermit? || a.GrantLock? || a.Finish?) && Step(b, s, a, s')
    ensures a.job in s'.phase && GoodMove(b, s, a.job, s'.phase[a.job], s')
  {
    hide Turn, Queues, Moves, PermitFree, LockFree, Sound;
    HeadsWait(s);
    GrantSound(b, s, a, s');
    assert s'.phase == s.phase[a.job := s'.phase[a.job]];
    if a.Finish? {
      PlainMove(s, a.job, s'.phase[a.job], s');
    } else {
      HeadMove(s, a.job, s'.phase[a.job], s');
    }
  }

  lemma StepMoves(b: Batch, s: State, a: Action, s': State)
    requires Queues(s) && Step(b, s, a, s') && !a.Cancel? && !a.PassDeadline?
    ensures a.job in s'.phase && GoodMove(b, s, a.job, s'.phase[a.job], s')
  {
    hide Advances, Interrupts, GoodMove;
    match a
    case Advance(i) => AdvanceMoves(b, s, i, s');
    case Interrupt(i, cause) => InterruptMoves(b, s, i, cause, s');
    case GrantPermit(_) => GrantMoves(b, s, a, s');
    case GrantLock(_) => GrantMoves(b, s, a, s');
    case Finish(_, _) => GrantMoves(b, s, a, s');
  }

  lemma GoodMoveKeeps(b: Batch, jobs: set<nat>, s: State, i: nat, p: Phase, s': State)
    requires WellFormed(b, jobs) && Inv(b, jobs, s) && GoodMove(b, s, i, p, s')
    ensures Inv(b, jobs, s')
  {
    hide WellFormed, Queues, PermitsRespected, LocksRespected, InOrder, ReportedOnce, StartedRight, Tells, Turn,
         HasLock, HasPermit, LockFree, PermitFree, Rank;
    MoveQueues(s, i, p, s');
    MovePermits(b, jobs, s, i, p, s');
    MoveLocks(b, jobs, s, i, p, s');
    MoveOrder(b, jobs, s, i, p, s');
    MoveReports(s, i, p, s');
    MoveStarted(s, i, p, s');
  }

  lemma StepKeepsInv(b: Batch, jobs: set<nat>, s: State, a: Action, s': State)
    requires WellFormed(b, jobs) && Inv(b, jobs, s) && Step(b, s, a, s')
    ensures Inv(b, jobs, s')
  {
    hide WellFormed, Advances, Interrupts, GoodMove, Queues;
    if a.Cancel? || a.PassDeadline? {
      SignalKeeps(b, jobs, s, s');
    } else {
      StepMoves(b, s, a, s');
      GoodMoveKeeps(b, jobs, s, a.job, s'.phase[a.job], s');
    }
  }

  lemma SignalKeeps(b: Batch, jobs: set<nat>, s: State, s': State)
    requires Inv(b, jobs, s)
    requires s' == s.(cancelled := true) || s' == s.(late := true)
    ensures Inv(b, jobs, s')
  {
    assert PermitHolders(s') == PermitHolders(s) && LockHolders(s') == LockHolders(s);
    forall u, x, y | 0 <= u < |b.units| && 0 <= y < x < |b.units[u]|
      ensures Orderly(s', b.units[u][y], b.units[u][x])
    {
      assert Orderly(s, b.units[u][y], b.units[u][x]);
    }
  }

  // ----- runs -----

  ghost predicate Run(b: Batch, ss: seq<State>, as_: seq<Action>) {
    && |ss| == |as_| + 1
    && forall k :: 0 <= k < |as_| ==> Step(b, ss[k], as_[k], ss[k + 1])
  }

  ghost predicate RunOf(b: Batch, jobs: set<nat>, ss: seq<State>, as_: seq<Action>) {
    Run(b, ss, as_) && ss[0] == Initial(jobs)
  }

  lemma {:induction false} RunKeepsInv(b: Batch, jobs: set<nat>, ss: seq<State>, as_: seq<Action>, k: nat)
    requires WellFormed(b, jobs) && RunOf(b, jobs, ss, as_) && k <= |as_|
    ensures Inv(b, jobs, ss[k])
    decreases k
  {
    hide WellFormed, Inv, Step;
    if k == 0 {
      InitialInv(b, jobs);
    } else {
      RunKeepsInv(b, jobs, ss, as_, k - 1);
      StepKeepsInv(b, jobs, ss[k - 1], as_[k - 1], ss[k]);
    }
  }

  // ----- safety -----

  ghost function Active(s: State): set<nat> {
    set i | i in s.phase && s.phase[i].Running?
  }

  /** In every state of every run: an exclusive call runs alone, and at most
      `limit` calls run at once. */
  lemma NeverTooMany(b: Batch, jobs: set<nat>, ss: seq<State>, as_: seq<Action>, k: nat)
    requires WellFormed(b, jobs) && RunOf(b, jobs, ss, as_) && k <= |as_|
    ensures |Active(ss[k])| <= b.limit
    ensures forall i :: i in Active(ss[k]) && i in b.exclusive ==> Active(ss[k]) == {i}
  {
    hide WellFormed, Step;
    RunKeepsInv(b, jobs, ss, as_, k);
    var s := ss[k];
    assert Active(s) <= PermitHolders(s) && Active(s) <= LockHolders(s);
    SizeBound(Active(s), PermitHolders(s));
    forall i | i in Active(s) && i in b.exclusive
      ensures Active(s) == {i}
    {
      assert forall j :: j in Active(s) ==> j == i;
    }
  }

  /** Calls of one unit never overlap and start in their order. */
  lemma UnitInOrder(b: Batch, jobs: set<nat>, ss: seq<State>, as_: seq<Action>, k: nat, u: nat, x: nat, y: nat)
    requires WellFormed(b, jobs) && RunOf(b, jobs, ss, as_) && k <= |as_|
    requires u < |b.units| && x < y < |b.units[u]|
    ensures var first, later := b.units[u][x], b.units[u][y];
            && first in ss[k].phase && later in ss[k].phase
            && (!ss[k].phase[later].Idle? ==> ss[k].phase[first].Done?)
  {
    hide Step;
    RunKeepsInv(b, jobs, ss, as_, k);
    assert Orderly(ss[k], b.units[u][x], b.units[u][y]);
    assert Member(b, b.units[u][x]) && Member(b, b.units[u][y]);
  }

  /** A finished call keeps its result, whatever happens afterwards. */
  lemma {:induction false} DoneStays(b: Batch, jobs: set<nat>, ss: seq<State>, as_: seq<Action>, k: nat, l: nat, i: nat)
    requires WellFormed(b, jobs) && RunOf(b, jobs, ss, as_) && k <= l <= |as_|
    requires i in ss[k].phase && ss[k].phase[i].Done?
    ensures i in ss[l].phase && ss[l].phase[i] == ss[k].phase[i]
    decreases l
  {
    hide Step, WellFormed;
    if k < l {
      DoneStays(b, jobs, ss, as_, k, l - 1, i);
      RunKeepsInv(b, jobs, ss, as_, l - 1);
      DoneStep(b, ss[l - 1], as_[l - 1], ss[l], i);
    }
  }

  lemma DoneStep(b: Batch, s: State, a: Action, s': State, i: nat)
    requires Queues(s) && Step(b, s, a, s') && i in s.phase && s.phase[i].Done?
    ensures i in s'.phase && s'.phase[i] == s.phase[i]
  {
    hide Turn, PermitFree, LockFree, Without, Advances, Interrupts;
    if Program(a) {
      StepMoves(b, s, a, s');
    }
  }

  // ----- termination -----

  ghost function Total(phase: map<nat, Phase>, jobs: set<nat>): nat
    requires jobs <= phase.Keys
  {
    if jobs == {} then 0
    else
      var i :| i in jobs;
      Rank(phase[i]) + Total(phase, jobs - {i})
  }

  lemma {:induction false} TotalRemove(phase: map<nat, Phase>, jobs: set<nat>, i: nat)
    requires jobs <= phase.Keys && i in jobs
    ensures Total(phase, jobs) == Rank(phase[i]) + Total(phase, jobs - {i})
    decreases |jobs|
  {
    var j :| j in jobs && Total(phase, jobs) == Rank(phase[j]) + Total(phase, jobs - {j});
    if j != i {
      TotalRemove(phase, jobs - {j}, i);
      TotalRemove(phase, jobs - {i}, j);
      assert jobs - {j} - {i} == jobs - {i} - {j};
    }
  }

  lemma {:induction false} TotalSame(p: map<nat, Phase>, q: map<nat, Phase>, jobs: set<nat>)
    requires jobs <= p.Keys && jobs <= q.Keys && forall i :: i in jobs ==> p[i] == q[i]
    ensures Total(p, jobs) == Total(q, jobs)
    decreases |jobs|
  {
    if jobs != {} {
      var i :| i in jobs;
      TotalRemove(p, jobs, i);
      TotalRemove(q, jobs, i);
      TotalSame(p, q, jobs - {i});
    }
  }

  lemma {:induction false} TotalBound(p: map<nat, Phase>, jobs: set<nat>)
    requires jobs <= p.Keys
    ensures Total(p, jobs) <= 9 * |jobs|
    decreases |jobs|
  {
    if jobs != {} {
      var i :| i in jobs;
      TotalRemove(p, jobs, i);
      TotalBound(p, jobs - {i});
    }
  }

  predicate Program(a: Action) {
    !a.Cancel? && !a.PassDeadline?
  }

  lemma StepShrinks(b: Batch, jobs: set<nat>, s: State, a: Action, s': State)
    requires WellFormed(b, jobs) && Inv(b, jobs, s) && Step(b, s, a, s')
    ensures s'.phase.Keys == jobs
    ensures if Program(a)
            then Total(s'.phase, jobs) < Total(s.phase, jobs) else Total(s'.phase, jobs) == Total(s.phase, jobs)
  {
    hide WellFormed, Advances, Interrupts;
    if Program(a) {
      StepMoves(b, s, a, s');
      var i := a.job;
      TotalRemove(s.phase, jobs, i);
      TotalRemove(s'.phase, jobs, i);
      TotalSame(s.phase, s'.phase, jobs - {i});
    }
  }

  function ProgramSteps(as_: seq<Action>, n: nat): nat
    requires n <= |as_|
  {
    if n == 0 then 0 else ProgramSteps(as_, n - 1) + if Program(as_[n - 1]) then 1 else 0
  }

  /** A batch ends: no run takes more than nine program steps per job. */
  lemma {:induction false} RunsEnd(b: Batch, jobs: set<nat>, ss: seq<State>, as_: seq<Action>, n: nat)
    requires WellFormed(b, jobs) && RunOf(b, jobs, ss, as_) && n <= |as_|
    ensures ss[n].phase.Keys == jobs
    ensures ProgramSteps(as_, n) + Total(ss[n].phase, jobs) <= 9 * |jobs|
    decreases n
  {
    hide WellFormed, Step;
    RunKeepsInv(b, jobs, ss, as_, n);
    if n == 0 {
      TotalBound(ss[0].phase, jobs);
    } else {
      RunsEnd(b, jobs, ss, as_, n - 1);
      RunKeepsInv(b, jobs, ss, as_, n - 1);
      StepShrinks(b, jobs, ss[n - 1], as_[n - 1], ss[n]);
    }
  }

  // ----- no deadlock -----

  ghost predicate Enabled(b: Batch, s: State) {
    exists a, s' :: Program(a) && Step(b, s, a, s')
  }

  lemma Enable(b: Batch, s: State, a: Action, s': State)
    requires Program(a) && Step(b, s, a, s')
    ensures Enabled(b, s)
  {
  }

  /** A job that waits for nobody can move. */
  lemma BusyMoves(b: Batch, s: State, i: nat)
    requires i in s.phase && !Waiting(s.phase[i]) && !s.phase[i].Done?
    requires s.phase[i].Idle? ==> Turn(b, s, i)
    ensures Enabled(b, s)
  {
    hide Turn, PermitFree, LockFree, Enabled;
    match s.phase[i]
    case Idle =>
      if s.cancelled && b.permits {
        Enable(b, s, Interrupt(i, Cancelled), To(s, i, Reporting(Stopped(Cancelled, Before), false, false)));
      } else if !b.permits || (PermitFree(b, s) && s.permitQueue == []) {
        Enable(b, s, Advance(i), To(s, i, AtLock));
      } else {
        Enable(b, s, Advance(i), To(s, i, PermitQueued).(permitQueue := s.permitQueue + [i]));
      }
    case PermitReady =>
      if s.cancelled {
        Enable(b, s, Interrupt(i, Cancelled), To(s, i, Reporting(Stopped(Cancelled, Before), false, false)));
      } else {
        Enable(b, s, Advance(i), To(s, i, AtLock));
      }
    case AtLock =>
      if s.cancelled && b.locks {
        Enable(b, s, Interrupt(i, Cancelled), To(s, i, Reporting(Stopped(Cancelled, Before), true, false)));
      } else if !b.locks || (LockFree(b, s, i) && s.lockQueue == []) {
        Enable(b, s, Advance(i), To(s, i, AtTool));
      } else {
        Enable(b, s, Advance(i), To(s, i, LockQueued).(lockQueue := s.lockQueue + [i]));
      }
    case LockReady =>
      if s.cancelled {
        Enable(b, s, Interrupt(i, Cancelled), To(s, i, Reporting(Stopped(Cancelled, Before), true, false)));
      } else {
        Enable(b, s, Advance(i), To(s, i, AtTool));
      }
    case AtTool =>
      if s.cancelled {
        Enable(b, s, Interrupt(i, Cancelled), To(s, i, Reporting(Stopped(Cancelled, During), true, true)));
      } else {
        Enable(b, s, Advance(i), To(s, i, Running).(started := s.started + {i}));
      }
    case Running =>
      Enable(b, s, Finish(i, Ok("")), To(s, i, Reporting(Answered(Ok("")), true, true)));
    case Reporting(outcome, _, _) =>
      Enable(b, s, Advance(i), To(s, i, Done(outcome)).(reported := s.reported + multiset{i}));
  }

  lemma LockWaiterMoves(b: Batch, s: State)
    requires Queues(s) && s.lockQueue != []
    ensures Enabled(b, s)
  {
    hide Enabled;
    var f := s.lockQueue[0];
    if LockFree(b, s, f) {
      Enable(b, s, GrantLock(f), To(s, f, LockReady).(lockQueue := s.lockQueue[1..]));
    } else {
      var h :| h in LockHolders(s);
      BusyMoves(b, s, h);
    }
  }

  lemma PermitWaiterMoves(b: Batch, s: State)
    requires Queues(s) && b.limit >= 1 && s.permitQueue != []
    ensures Enabled(b, s)
  {
    hide Enabled;
    var f := s.permitQueue[0];
    if PermitFree(b, s) {
      Enable(b, s, GrantPermit(f), To(s, f, PermitReady).(permitQueue := s.permitQueue[1..]));
    } else {
      var h :| h in PermitHolders(s);
      if s.phase[h].LockQueued? {
        LockWaiterMoves(b, s);
      } else {
        BusyMoves(b, s, h);
      }
    }
  }

  /** The first job of the unit that is not done. */
  lemma {:induction false} FirstPending(b: Batch, jobs: set<nat>, s: State, u: nat, x: nat) returns (i: nat)
    requires WellFormed(b, jobs) && s.phase.Keys == jobs && u < |b.units| && x < |b.units[u]|
    requires b.units[u][x] in jobs && !s.phase[b.units[u][x]].Done?
    ensures i in jobs && !s.phase[i].Done? && Turn(b, s, i)
    decreases x
  {
    if y :| 0 <= y < x && !(b.units[u][y] in jobs && s.phase[b.units[u][y]].Done?) {
      assert Member(b, b.units[u][y]);
      i := FirstPending(b, jobs, s, u, y);
    } else {
      i := b.units[u][x];
      assert Place(b, i, u, x) && Behind(b, s, u, x);
    }
  }

  /** Every state that is not final has a step of the program, even if no
      answer ever comes from outside. */
  lemma NoDeadlock(b: Batch, jobs: set<nat>, s: State)
    requires WellFormed(b, jobs) && Inv(b, jobs, s) && !AllDone(s)
    ensures Enabled(b, s)
  {
    hide Enabled, InOrder, LocksRespected, PermitsRespected, Turn;
    var j :| j in s.phase && !s.phase[j].Done?;
    assert Member(b, j);
    var u :| 0 <= u < |b.units| && j in b.units[u];
    var x :| 0 <= x < |b.units[u]| && b.units[u][x] == j;
    var i := FirstPending(b, jobs, s, u, x);
    if s.phase[i].PermitQueued? {
      PermitWaiterMoves(b, s);
    } else if s.phase[i].LockQueued? {
      LockWaiterMoves(b, s);
    } else {
      BusyMoves(b, s, i);
    }
  }

  /** At the end every job has a result and was reported exactly once. */
  lemma EndOfRun(b: Batch, jobs: set<nat>, ss: seq<State>, as_: seq<Action>)
    requires WellFormed(b, jobs) && RunOf(b, jobs, ss, as_)
    ensures var s := ss[|as_|];
            && s.phase.Keys == jobs
            && (AllDone(s) <==> !Enabled(b, s))
            && (AllDone(s) ==> s.reported == multiset(jobs))
            && forall i :: s.reported[i] <= 1
  {
    hide WellFormed, Step, Enabled;
    RunKeepsInv(b, jobs, ss, as_, |as_|);
    var s := ss[|as_|];
    if !AllDone(s) {
      NoDeadlock(b, jobs, s);
    } else {
      FinalIsStuck(b, jobs, s);
    }
  }

  lemma FinalIsStuck(b: Batch, jobs: set<nat>, s: State)
    requires WellFormed(b, jobs) && Inv(b, jobs, s) && AllDone(s)
    ensures !Enabled(b, s)
  {
    if Enabled(b, s) {
      var a, s' :| Program(a) && Step(b, s, a, s');
      StepMoves(b, s, a, s');
      assert false;
    }
  }

  lemma {:induction false} RunCanEnd(b: Batch, jobs: set<nat>, ss: seq<State>, as_: seq<Action>)
    returns (tt: seq<State>, bs: seq<Action>)
    requires WellFormed(b, jobs) && RunOf(b, jobs, ss, as_)
    ensures RunOf(b, jobs, tt, bs) && AllDone(tt[|bs|])
    decreases if ss[|as_|].phase.Keys >= jobs then Total(ss[|as_|].phase, jobs) else 0
  {
    hide WellFormed, Step, Inv, AllDone;
    var s := ss[|as_|];
    if AllDone(s) {
      tt, bs := ss, as_;
    } else {
      RunKeepsInv(b, jobs, ss, as_, |as_|);
      NoDeadlock(b, jobs, s);
      var a, s' :| Program(a) && Step(b, s, a, s');
      StepShrinks(b, jobs, s, a, s');
      InvKeys(b, jobs, s);
      OneStepMore(b, jobs, ss, as_, a, s');
      assert (ss + [s'])[|as_ + [a]|] == s';
      tt, bs := RunCanEnd(b, jobs, ss + [s'], as_ + [a]);
    }
  }

  lemma InvKeys(b: Batch, jobs: set<nat>, s: State)
    requires Inv(b, jobs, s)
    ensures s.phase.Keys == jobs
  {
  }

  lemma OneStepMore(b: Batch, jobs: set<nat>, ss: seq<State>, as_: seq<Action>, a: Action, s': State)
    requires RunOf(b, jobs, ss, as_) && Step(b, ss[|as_|], a, s')
    ensures RunOf(b, jobs, ss + [s'], as_ + [a])
  {
    hide Step;
  }

  /** Every batch has a complete run, and every run can be completed. */
  lemma SomeRunEnds(b: Batch, jobs: set<nat>) returns (ss: seq<State>, as_: seq<Action>)
    requires WellFormed(b, jobs)
    ensures RunOf(b, jobs, ss, as_) && AllDone(ss[|as_|])
  {
    hide WellFormed, Step, AllDone;
    ss, as_ := RunCanEnd(b, jobs, [Initial(jobs)], []);
  }

  // ----- what an interruption says -----

  /** In every state of every run: an answer or a missed deadline during
      execution means that the tool had begun, and an interruption before
      execution that it never did. */
  lemma OutcomeTells(b: Batch, jobs: set<nat>, ss: seq<State>, as_: seq<Action>, k: nat, i: nat)
    requires WellFormed(b, jobs) && RunOf(b, jobs, ss, as_) && k <= |as_|
    requires i in ss[k].phase && ss[k].phase[i].Done?
    ensures var outcome := ss[k].phase[i].outcome;
            && (outcome.Answered? ==> i in ss[k].started)
            && (outcome == Stopped(DeadlineExceeded, During) ==> i in ss[k].started)
            && (outcome.Stopped? && outcome.when_.Before? ==> i !in ss[k].started)
  {
    hide WellFormed, Step;
    RunKeepsInv(b, jobs, ss, as_, k);
  }

  /** The cancellation reached the job between its lock and its tool. */
  ghost predicate CaughtAtTool(ss: seq<State>, as_: seq<Action>, n: nat, i: nat)
    requires n <= |as_| < |ss|
  {
    exists k :: 0 <= k < n && as_[k] == Interrupt(i, Cancelled) && i in ss[k].phase && ss[k].phase[i].AtTool?
  }

  function OutcomeOf(p: Phase): Option<Outcome> {
    match p
    case Reporting(outcome, _, _) => Some(outcome)
    case Done(outcome) => Some(outcome)
    case Idle | PermitQueued | PermitReady | AtLock | LockQueued | LockReady | AtTool | Running => None
  }

  /** The call is said to have been stopped during execution, and its tool
      never began. */
  ghost predicate Misreported(s: State, i: nat) {
    i in s.phase && OutcomeOf(s.phase[i]) == Some(Stopped(Cancelled, During)) && i !in s.started
  }

  lemma OwnAdvance(b: Batch, s: State, s': State, i: nat)
    requires StartedRight(s) && i in s.phase && Advances(b, s, i, s')
    ensures Misreported(s', i) <==> Misreported(s, i)
  {
    hide Turn, PermitFree, LockFree, StartedRight;
    StartedAt(s, i);
  }

  lemma OwnInterrupt(b: Batch, s: State, cause: Cause, s': State, i: nat)
    requires StartedRight(s) && i in s.phase && Interrupts(b, s, i, cause, s')
    ensures Misreported(s', i) <==> cause.Cancelled? && s.phase[i].AtTool?
    ensures !Misreported(s, i)
  {
    hide Turn, Without, Signalled, StartedRight;
    StartedAt(s, i);
  }

  lemma StartedAt(s: State, i: nat)
    requires StartedRight(s) && i in s.phase
    ensures Tells(s.phase[i], i in s.started)
  {
  }

  lemma OtherStep(b: Batch, s: State, a: Action, s': State, i: nat)
    requires Queues(s) && Step(b, s, a, s') && i in s.phase
             && (Program(a) ==> a.job != i || a.GrantPermit? || a.GrantLock? || a.Finish?)
    ensures Misreported(s', i) <==> Misreported(s, i)
  {
    hide Turn, PermitFree, LockFree, Without, Advances, Interrupts;
    if Program(a) {
      StepMoves(b, s, a, s');
    }
  }

  lemma StepMisreports(b: Batch, s: State, a: Action, s': State, i: nat)
    requires Queues(s) && StartedRight(s) && Step(b, s, a, s') && i in s.phase
    ensures Misreported(s', i) <==>
              Misreported(s, i) || (a == Interrupt(i, Cancelled) && s.phase[i].AtTool?)
  {
    hide Misreported, Queues, StartedRight, Advances, Interrupts;
    if a.Advance? && a.job == i {
      OwnAdvance(b, s, s', i);
    } else if a.Interrupt? && a.job == i {
      OwnInterrupt(b, s, a.cause, s', i);
    } else {
      OtherStep(b, s, a, s', i);
    }
  }

  /** A call is misreported exactly if the cancellation caught it there. */
  lemma {:induction false} MisreportedIff(b: Batch, jobs: set<nat>, ss: seq<State>, as_: seq<Action>, n: nat, i: nat)
    requires WellFormed(b, jobs) && RunOf(b, jobs, ss, as_) && n <= |as_| && i in jobs
    ensures Misreported(ss[n], i) <==> CaughtAtTool(ss, as_, n, i)
    decreases n
  {
    hide WellFormed, Step, Queues, StartedRight, Misreported;
    RunKeepsInv(b, jobs, ss, as_, n);
    if n == 0 {
      NotYetMisreported(jobs, i);
    } else {
      RunKeepsInv(b, jobs, ss, as_, n - 1);
      MisreportedIff(b, jobs, ss, as_, n - 1, i);
      StepMisreports(b, ss[n - 1], as_[n - 1], ss[n], i);
    }
  }

  lemma NotYetMisreported(jobs: set<nat>, i: nat)
    ensures !Misreported(Initial(jobs), i)
  {
  }

  /** The first job of its unit, caught on its way with nobody else about:
      permit, lock, cancellation, report. */
  lemma CaughtFirst(b: Batch, jobs: set<nat>, u: nat) returns (ss: seq<State>, as_: seq<Action>)
    requires WellFormed(b, jobs) && u < |b.units| && b.units[u] != []
    ensures RunOf(b, jobs, ss, as_) && b.units[u][0] in jobs && Misreported(ss[|as_|], b.units[u][0])
    ensures forall k :: 0 <= k <= |as_| ==> ss[k].started == {}
  {
    hide WellFormed;
    var i := b.units[u][0];
    FirstMayBegin(b, jobs, u);
    hide Turn, PermitFree, LockFree;
    var s0 := Initial(jobs);
    var s1 := To(s0, i, AtLock);
    var s2 := To(s1, i, AtTool);
    var s3 := s2.(cancelled := true);
    var s4 := To(s3, i, Reporting(Stopped(Cancelled, During), true, true));
    AloneLockFree(b, s1, i);
    assert Step(b, s0, Advance(i), s1);
    assert Step(b, s1, Advance(i), s2);
    assert Step(b, s2, Cancel, s3);
    assert Step(b, s3, Interrupt(i, Cancelled), s4);
    ss, as_ := [s0, s1, s2, s3, s4], [Advance(i), Advance(i), Cancel, Interrupt(i, Cancelled)];
  }

  lemma FirstMayBegin(b: Batch, jobs: set<nat>, u: nat)
    requires WellFormed(b, jobs) && u < |b.units| && b.units[u] != []
    ensures b.units[u][0] in jobs && Turn(b, Initial(jobs), b.units[u][0]) && PermitFree(b, Initial(jobs))
  {
    assert Member(b, b.units[u][0]);
    assert Place(b, b.units[u][0], u, 0) && Behind(b, Initial(jobs), u, 0);
    assert PermitHolders(Initial(jobs)) == {};
  }

  lemma AloneLockFree(b: Batch, s: State, i: nat)
    requires forall j :: j in s.phase ==> !HasLock(s.phase[j])
    ensures LockFree(b, s, i)
  {
  }

  /** The wording is right in all runs of a batch exactly if the batch is
      empty: any first job can be caught between its lock and its tool. */
  lemma WordingRightIff(b: Batch, jobs: set<nat>)
    requires WellFormed(b, jobs)
    ensures (forall ss, as_, i :: RunOf(b, jobs, ss, as_) ==> !Misreported(ss[|as_|], i)) <==> jobs == {}
  {
    hide WellFormed, Step, Misreported;
    if jobs == {} {
      forall ss, as_, i | RunOf(b, jobs, ss, as_)
        ensures !Misreported(ss[|as_|], i)
      {
        RunKeepsInv(b, jobs, ss, as_, |as_|);
        AbsentNotMisreported(ss[|as_|], i);
      }
    } else {
      var u := SomeUnit(b, jobs);
      var ss, as_ := CaughtFirst(b, jobs, u);
    }
  }

  lemma AbsentNotMisreported(s: State, i: nat)
    requires i !in s.phase
    ensures !Misreported(s, i)
  {
  }

  lemma SomeUnit(b: Batch, jobs: set<nat>) returns (u: nat)
    requires WellFormed(b, jobs) && jobs != {}
    ensures u < |b.units| && b.units[u] != []
  {
    var i :| i in jobs;
    assert Member(b, i);
    u :| 0 <= u < |b.units| && i in b.units[u];
  }

  // ----- where outcomes come from -----

  /** What gives a job that outcome: its tool's answer, or the signal. */
  ghost predicate GivenAt(as_: seq<Action>, j: nat, i: nat, outcome: Outcome) {
    && j < |as_|
    && match outcome
       case Answered(output) => as_[j] == Finish(i, output)
       case Stopped(cause, _) => if cause.Cancelled? then as_[j].Cancel? else as_[j].PassDeadline?
  }

  ghost predicate Given(as_: seq<Action>, n: nat, i: nat, outcome: Outcome) {
    exists j: nat :: j < n && GivenAt(as_, j, i, outcome)
  }

  ghost predicate HasOutcome(p: Phase, outcome: Outcome) {
    (p.Reporting? || p.Done?) && p.outcome == outcome
  }

  lemma OutcomeStep(b: Batch, s: State, a: Action, s': State, i: nat, outcome: Outcome)
    requires Queues(s) && Step(b, s, a, s') && i in s'.phase && HasOutcome(s'.phase[i], outcome)
    ensures || (i in s.phase && HasOutcome(s.phase[i], outcome))
            || (outcome.Answered? && a == Finish(i, outcome.output))
            || (outcome.Stopped? && a == Interrupt(i, outcome.cause) && Signalled(s, outcome.cause))
  {
    hide Turn, PermitFree, LockFree, Without, Queues;
    if a.Interrupt? {
      InterruptFields(b, s, a.job, a.cause, s');
    } else if a.Advance? {
      hide Signalled;
      AdvanceFields(b, s, a.job, s');
      AdvancePhase(b, s, a.job, s');
      hide Advances;
    }
  }

  lemma SignalStep(b: Batch, s: State, a: Action, s': State, cause: Cause)
    requires Step(b, s, a, s') && Signalled(s', cause)
    ensures Signalled(s, cause) || (if cause.Cancelled? then a.Cancel? else a.PassDeadline?)
  {
    hide Turn, PermitFree, LockFree, Without;
    if a.Interrupt? {
      InterruptFields(b, s, a.job, a.cause, s');
    } else if a.Advance? {
      AdvanceFields(b, s, a.job, s');
    }
  }

  lemma {:induction false} SignalGiven(b: Batch, jobs: set<nat>, ss: seq<State>, as_: seq<Action>, n: nat, cause: Cause)
    requires RunOf(b, jobs, ss, as_) && n <= |as_| && Signalled(ss[n], cause)
    ensures exists j: nat :: j < n && if cause.Cancelled? then as_[j].Cancel? else as_[j].PassDeadline?
    decreases n
  {
    hide Step;
    if n > 0 {
      SignalStep(b, ss[n - 1], as_[n - 1], ss[n], cause);
      if Signalled(ss[n - 1], cause) {
        SignalGiven(b, jobs, ss, as_, n - 1, cause);
      }
    }
  }

  /** No outcome is made up: an answer is what the job's own tool gave, and
      only a run that was cancelled, or late, is stopped for that. */
  lemma {:induction false} OutcomesAreGiven(b: Batch, jobs: set<nat>, ss: seq<State>, as_: seq<Action>, n: nat, i: nat,
                                            outcome: Outcome)
    requires WellFormed(b, jobs) && RunOf(b, jobs, ss, as_) && n <= |as_|
    requires i in ss[n].phase && HasOutcome(ss[n].phase[i], outcome)
    ensures Given(as_, n, i, outcome)
    decreases n
  {
    hide WellFormed, Step, Signalled;
    if n > 0 {
      RunKeepsInv(b, jobs, ss, as_, n - 1);
      OutcomeStep(b, ss[n - 1], as_[n - 1], ss[n], i, outcome);
      if i in ss[n - 1].phase && HasOutcome(ss[n - 1].phase[i], outcome) {
        OutcomesAreGiven(b, jobs, ss, as_, n - 1, i, outcome);
        var j: nat :| j < n - 1 && GivenAt(as_, j, i, outcome);
      } else if outcome.Answered? {
        assert GivenAt(as_, n - 1, i, outcome);
      } else {
        SignalGiven(b, jobs, ss, as_, n - 1, outcome.cause);
        var j: nat :| j < n - 1 && if outcome.cause.Cancelled? then as_[j].Cancel? else as_[j].PassDeadline?;
        assert GivenAt(as_, j, i, outcome);
      }
    }
  }

  /** A batch without a deadline is never stopped for being late. */
  lemma {:induction false} NeverLate(b: Batch, jobs: set<nat>, ss: seq<State>, as_: seq<Action>, n: nat)
    requires RunOf(b, jobs, ss, as_) && n <= |as_| && !b.deadline
    ensures !ss[n].late
    decreases n
  {
    hide Step;
    if n > 0 {
      NeverLate(b, jobs, ss, as_, n - 1);
      StillInTime(b, ss[n - 1], as_[n - 1], ss[n]);
    }
  }

  lemma StillInTime(b: Batch, s: State, a: Action, s': State)
    requires Step(b, s, a, s') && !b.deadline && !s.late
    ensures !s'.late
  {
    hide Turn, PermitFree, LockFree, Without;
    if a.Interrupt? {
      InterruptFields(b, s, a.job, a.cause, s');
    } else if a.Advance? {
      AdvanceFields(b, s, a.job, s');
    }
  }

  lemma StartedStep(b: Batch, s: State, a: Action, s': State)
    requires s.cancelled && Step(b, s, a, s')
    ensures s'.cancelled && s'.started == s.started
  {
    hide Turn, PermitFree, LockFree, Without;
    if a.Interrupt? {
      InterruptFields(b, s, a.job, a.cause, s');
    } else if a.Advance? {
      AdvanceFields(b, s, a.job, s');
    }
  }

  /** Once a run is cancelled no tool begins. */
  lemma {:induction false} NothingStartsCancelled(b: Batch, jobs: set<nat>, ss: seq<State>, as_: seq<Action>, k: nat,
                                                  l: nat)
    requires RunOf(b, jobs, ss, as_) && k <= l <= |as_| && ss[k].cancelled
    ensures ss[l].cancelled && ss[l].started == ss[k].started
    decreases l
  {
    hide Step;
    if k < l {
      NothingStartsCancelled(b, jobs, ss, as_, k, l - 1);
      StartedStep(b, ss[l - 1], as_[l - 1], ss[l]);
    }
  }

  /** Whatever a job waits for, and while its tool runs, a cancellation stops
      it in one step; so does the deadline, but for the poll of the tool. */
  lemma StopsAtOnce(b: Batch, s: State, i: nat, cause: Cause) returns (s': State)
    requires i in s.phase && Signalled(s, cause)
    requires var p := s.phase[i];
             || Waiting(p) || p.PermitReady? || p.LockReady? || p.Running? || (p.AtTool? && cause.Cancelled?)
    ensures Step(b, s, Interrupt(i, cause), s')
    ensures i in s'.phase && s'.phase[i].Reporting? && s'.phase[i].outcome.Stopped?
            && s'.phase[i].outcome.cause == cause
  {
    hide Without, Signalled;
    s' := To(s, i, StopOf(s.phase[i], cause));
    if s.phase[i].PermitQueued? {
      s' := s'.(permitQueue := Without(s.permitQueue, i));
    } else if s.phase[i].LockQueued? {
      s' := s'.(lockQueue := Without(s.lockQueue, i));
    }
  }
}
