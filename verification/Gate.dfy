/** Shared admission to a provider: requests enter one at a time in order of
    arrival, wait for a free place and for the cooldown, and failures extend
    the cooldown before they give their place back. */
module Gate {
  import opened Wrappers

  /** Instants above this cannot be represented. */
  const MAX_INSTANT: nat := 0xFFFF_FFFF_FFFF_FFFF

  /** Where a request is. `seen` is the version of the active count that it
      last looked at. */
  datatype Phase =
    | Away
    | Queued
    | Looking
    | Blocked(seen: nat)
    | Passing
    | Sleeping(until: Option<nat>)
    | Cleared
    | Active
    | Published

  /** `cooldown` is None once it has left the representable range. */
  datatype State = State(
    phase: map<nat, Phase>,
    queue: seq<nat>,
    active: nat,
    version: nat,
    cooldown: Option<nat>,
    now: nat,
    published: seq<Option<nat>>)

  datatype Action =
    | Request(id: nat)
    | Enter(id: nat)
    | Look(id: nat)
    | Wake(id: nat)
    | Check(id: nat)
    | Admit(id: nat)
    | Fail(id: nat, delay: nat)
    | Release(id: nat)
    | Abandon(id: nat)
    | Tick(to: nat)

  function Initial(ids: set<nat>, now: nat): State {
    State(map i | i in ids :: Away, [], 0, 0, Some(now), now, [])
  }

  function Later(now: nat, delay: nat): Option<nat> {
    if now + delay <= MAX_INSTANT then Some(now + delay) else None
  }

  /** The later of two instants; what cannot be represented is latest. */
  function Latest(a: Option<nat>, b: Option<nat>): Option<nat> {
    if a.None? || b.None? then None else Some(if a.value >= b.value then a.value else b.value)
  }

  predicate NotBefore(a: Option<nat>, b: Option<nat>) {
    a.None? || (b.Some? && a.value >= b.value)
  }

  /** The request holds the admission lock. */
  predicate Inside(p: Phase) {
    p.Looking? || p.Blocked? || p.Passing? || p.Sleeping? || p.Cleared?
  }

  /** The request holds a place. */
  predicate HoldsPlace(p: Phase) {
    p.Active? || p.Published?
  }

  function Without(q: seq<nat>, i: nat): seq<nat> {
    if q == [] then [] else if q[0] == i then q[1..] else [q[0]] + Without(q[1..], i)
  }

  function To(s: State, i: nat, p: Phase): State {
    s.(phase := s.phase[i := p])
  }

  ghost predicate LockFree(s: State) {
    forall i :: i in s.phase ==> !Inside(s.phase[i])
  }

  ghost predicate Step(limit: nat, s: State, a: Action, s': State) {
    match a
    case Request(i) =>
      i in s.phase && s.phase[i].Away? && s' == To(s, i, Queued).(queue := s.queue + [i])
    case Enter(i) =>
      && i in s.phase && s.queue != [] && s.queue[0] == i && LockFree(s)
      && s' == To(s, i, Looking).(queue := s.queue[1..])
    case Look(i) =>
      && i in s.phase && s.phase[i].Looking?
      && s' == To(s, i, if limit == 0 || s.active < limit then Passing else Blocked(s.version))
    case Wake(i) =>
      && i in s.phase && s' == To(s, i, Looking)
      && (match s.phase[i]
          case Blocked(seen) => s.version > seen
          case Sleeping(until) => until.Some? && until.value <= s.now
          case _ => false)
    case Check(i) =>
      && i in s.phase && s.phase[i].Passing?
      && s' == To(s, i, if s.cooldown.Some? && s.cooldown.value <= s.now then Cleared else Sleeping(s.cooldown))
    case Admit(i) =>
      && i in s.phase && s.phase[i].Cleared?
      && s' == To(s, i, Active).(active := s.active + 1, version := s.version + 1)
    case Fail(i, delay) =>
      && i in s.phase && s.phase[i].Active?
      && var until := Later(s.now, delay);
         s' == To(s, i, Published).(cooldown := Latest(s.cooldown, until), published := s.published + [until])
    case Release(i) =>
      && i in s.phase && HoldsPlace(s.phase[i]) && s.active > 0
      && s' == To(s, i, Away).(active := s.active - 1, version := s.version + 1)
    case Abandon(i) =>
      && i in s.phase && (s.phase[i].Queued? || Inside(s.phase[i]))
      && s' == To(s, i, Away).(queue := Without(s.queue, i))
    case Tick(to) =>
      s.now <= to <= MAX_INSTANT && s' == s.(now := to)
  }

  /** A failure publishes the end of its delay, or that it lies beyond all
      instants, and extends the cooldown to it; nothing else publishes. */
  lemma FailPublishes(limit: nat, s: State, a: Action, s': State)
    requires Step(limit, s, a, s')
    ensures if a.Fail? then
              var until := if s.now + a.delay > 0xFFFF_FFFF_FFFF_FFFF then None else Some(s.now + a.delay);
              && s'.published == s.published + [until]
              && s'.cooldown == (if until.None? || s.cooldown.None? then None
                                 else if s.cooldown.value > until.value then s.cooldown else until)
            else s'.published == s.published && s'.cooldown == s.cooldown
  {
    hide LockFree;
  }

  /** Nothing holds a request up that finds the lock free, room, and the
      cooldown over: four steps of its own admit it. */
  lemma AdmittedAtOnce(limit: nat, s: State, i: nat) returns (s1: State, s2: State, s3: State, s4: State)
    requires i in s.phase && s.phase[i].Queued? && s.queue != [] && s.queue[0] == i && LockFree(s)
    requires limit == 0 || s.active < limit
    requires s.cooldown.Some? && s.cooldown.value <= s.now
    ensures Step(limit, s, Enter(i), s1) && Step(limit, s1, Look(i), s2)
    ensures Step(limit, s2, Check(i), s3) && Step(limit, s3, Admit(i), s4)
    ensures i in s4.phase && s4.phase[i].Active? && s4.active == s.active + 1
  {
    hide LockFree;
    s1 := To(s, i, Looking).(queue := s.queue[1..]);
    s2 := To(s1, i, Passing);
    s3 := To(s2, i, Cleared);
    s4 := To(s3, i, Active).(active := s3.active + 1, version := s3.version + 1);
  }

  // ----- invariant -----

  ghost function Holders(s: State): set<nat> {
    set i | i in s.phase && HoldsPlace(s.phase[i])
  }

  ghost predicate OneInside(s: State) {
    forall i, j :: i in s.phase && j in s.phase && Inside(s.phase[i]) && Inside(s.phase[j]) ==> i == j
  }

  ghost predicate QueueRight(s: State) {
    && (forall x, y :: 0 <= x < y < |s.queue| ==> s.queue[x] != s.queue[y])
    && (forall i :: i in s.queue <==> i in s.phase && s.phase[i].Queued?)
  }

  /** A request on its way in has seen room, and nobody else can take it. */
  ghost predicate RoomAhead(limit: nat, s: State) {
    limit > 0 ==> s.active <= limit
                  && forall i :: i in s.phase && (s.phase[i].Passing? || s.phase[i].Cleared?) ==> s.active < limit
  }

  /** No wake-up is lost: who still waits for a change has seen a full gate. */
  ghost predicate NothingMissed(limit: nat, s: State) {
    forall i :: i in s.phase && s.phase[i].Blocked? ==>
      s.phase[i].seen <= s.version && (s.phase[i].seen == s.version ==> limit > 0 && s.active >= limit)
  }

  ghost predicate CooldownCovers(s: State) {
    forall k :: 0 <= k < |s.published| ==> NotBefore(s.cooldown, s.published[k])
  }

  ghost predicate Inv(limit: nat, ids: set<nat>, s: State) {
    && s.phase.Keys == ids
    && OneInside(s)
    && QueueRight(s)
    && s.active == |Holders(s)|
    && RoomAhead(limit, s)
    && NothingMissed(limit, s)
    && CooldownCovers(s)
  }

  lemma InitialInv(limit: nat, ids: set<nat>, now: nat)
    ensures Inv(limit, ids, Initial(ids, now))
  {
    assert Holders(Initial(ids, now)) == {};
  }

  lemma {:induction false} WithoutMeaning(q: seq<nat>, i: nat)
    requires forall x, y :: 0 <= x < y < |q| ==> q[x] != q[y]
    ensures forall j :: j in Without(q, i) <==> j in q && j != i
    ensures forall x, y :: 0 <= x < y < |Without(q, i)| ==> Without(q, i)[x] != Without(q, i)[y]
  {
    if q != [] && q[0] != i {
      WithoutMeaning(q[1..], i);
      assert forall j :: j in q <==> j == q[0] || j in q[1..];
      var t := Without(q[1..], i);
      forall x | 0 <= x < |t|
        ensures t[x] != q[0]
      {
        assert t[x] in t;
      }
    }
  }

  lemma HoldersMove(s: State, i: nat, p: Phase, s': State)
    requires i in s.phase && s'.phase == s.phase[i := p]
    ensures |Holders(s')| == |Holders(s)| + (if HoldsPlace(p) then 1 else 0) - (if HoldsPlace(s.phase[i]) then 1 else 0)
  {
    var gone := Holders(s) - {i};
    assert Holders(s') == if HoldsPlace(p) then gone + {i} else gone;
    assert Holders(s) == if HoldsPlace(s.phase[i]) then gone + {i} else gone;
  }

  lemma StepQueue(limit: nat, s: State, a: Action, s': State)
    requires QueueRight(s) && Step(limit, s, a, s')
    ensures QueueRight(s')
  {
    hide Inside, LockFree, Without;
    if a.Abandon? {
      WithoutMeaning(s.queue, a.id);
    } else if a.Enter? {
      assert forall j :: j in s.queue <==> j == s.queue[0] || j in s.queue[1..];
    }
  }

  lemma StepInside(limit: nat, s: State, a: Action, s': State)
    requires OneInside(s) && Step(limit, s, a, s')
    ensures OneInside(s')
  {
    hide Without;
  }

  lemma StepHolders(limit: nat, s: State, a: Action, s': State)
    requires s.active == |Holders(s)| && QueueRight(s) && Step(limit, s, a, s')
    ensures s'.active == |Holders(s')| && s'.phase.Keys == s.phase.Keys
  {
    hide Without, LockFree, Holders;
    if a.Tick? {
      SameHolders(s, s');
    } else {
      HoldersMove(s, a.id, s'.phase[a.id], s');
      PlacesCounted(limit, s, a, s');
    }
  }

  lemma PlacesCounted(limit: nat, s: State, a: Action, s': State)
    requires QueueRight(s) && Step(limit, s, a, s') && !a.Tick?
    ensures a.id in s.phase && a.id in s'.phase
    ensures s'.active == s.active + (if HoldsPlace(s'.phase[a.id]) then 1 else 0)
                           - (if HoldsPlace(s.phase[a.id]) then 1 else 0)
  {
    hide Without;
    if a.Enter? {
      assert s.queue[0] in s.queue;
    }
  }

  lemma SameHolders(s: State, s': State)
    requires s'.phase == s.phase
    ensures Holders(s') == Holders(s)
  {
  }

  lemma StepRoom(limit: nat, s: State, a: Action, s': State)
    requires RoomAhead(limit, s) && OneInside(s) && Step(limit, s, a, s')
    ensures RoomAhead(limit, s')
  {
    hide Without;
  }

  lemma StepMissed(limit: nat, s: State, a: Action, s': State)
    requires NothingMissed(limit, s) && Step(limit, s, a, s')
    ensures NothingMissed(limit, s')
  {
    hide Without, LockFree, Inside;
  }

  lemma StepCovers(limit: nat, s: State, a: Action, s': State)
    requires CooldownCovers(s) && Step(limit, s, a, s')
    ensures CooldownCovers(s') && NotBefore(s'.cooldown, s.cooldown)
  {
    hide Without, LockFree, Inside;
  }

  lemma StepKeepsInv(limit: nat, ids: set<nat>, s: State, a: Action, s': State)
    requires Inv(limit, ids, s) && Step(limit, s, a, s')
    ensures Inv(limit, ids, s')
  {
    hide Step, OneInside, QueueRight, Holders, RoomAhead, NothingMissed, CooldownCovers;
    StepQueue(limit, s, a, s');
    StepInside(limit, s, a, s');
    StepHolders(limit, s, a, s');
    StepRoom(limit, s, a, s');
    StepMissed(limit, s, a, s');
    StepCovers(limit, s, a, s');
  }

  // ----- runs -----

  ghost predicate RunOf(limit: nat, ids: set<nat>, now: nat, ss: seq<State>, as_: seq<Action>) {
    && |ss| == |as_| + 1
    && ss[0] == Initial(ids, now)
    && forall k :: 0 <= k < |as_| ==> Step(limit, ss[k], as_[k], ss[k + 1])
  }

  lemma {:induction false} RunKeepsInv(limit: nat, ids: set<nat>, now: nat, ss: seq<State>, as_: seq<Action>, k: nat)
    requires RunOf(limit, ids, now, ss, as_) && k <= |as_|
    ensures Inv(limit, ids, ss[k])
    decreases k
  {
    hide Inv, Step;
    if k == 0 {
      InitialInv(limit, ids, now);
    } else {
      RunKeepsInv(limit, ids, now, ss, as_, k - 1);
      StepKeepsInv(limit, ids, ss[k - 1], as_[k - 1], ss[k]);
    }
  }

  /** In no interleaving are more places taken than the limit allows. */
  lemma LimitHolds(limit: nat, ids: set<nat>, now: nat, ss: seq<State>, as_: seq<Action>, k: nat)
    requires RunOf(limit, ids, now, ss, as_) && k <= |as_| && limit > 0
    ensures |Holders(ss[k])| == ss[k].active <= limit
  {
    hide Step;
    RunKeepsInv(limit, ids, now, ss, as_, k);
  }

  /** The cooldown never moves back; once it is out of range it stays there. */
  lemma {:induction false} CooldownOnlyGrows(limit: nat, ids: set<nat>, now: nat, ss: seq<State>, as_: seq<Action>,
                                             k: nat, l: nat)
    requires RunOf(limit, ids, now, ss, as_) && k <= l <= |as_|
    ensures NotBefore(ss[l].cooldown, ss[k].cooldown)
    ensures ss[k].cooldown.None? ==> ss[l].cooldown.None?
    decreases l
  {
    hide Step;
    if k < l {
      CooldownOnlyGrows(limit, ids, now, ss, as_, k, l - 1);
      RunKeepsInv(limit, ids, now, ss, as_, l - 1);
      StepCovers(limit, ss[l - 1], as_[l - 1], ss[l]);
    }
  }

  ghost predicate AllPast(s: State) {
    forall k :: 0 <= k < |s.published| ==> s.published[k].Some? && s.published[k].value <= s.now
  }

  /** Who has passed the cooldown check finds every published delay over. */
  ghost predicate ClearMeansPast(s: State) {
    forall i :: i in s.phase && s.phase[i].Cleared? ==> AllPast(s)
  }

  /** One place, or nobody to share with. */
  ghost predicate OneAtATime(limit: nat, ids: set<nat>) {
    limit == 1 || |ids| <= 1
  }

  /** Nobody fails while another request is between its check and its
      admission. */
  lemma NoFailureMeanwhile(limit: nat, ids: set<nat>, s: State, i: nat, j: nat)
    requires Inv(limit, ids, s) && OneAtATime(limit, ids) && i in ids && j in ids
    requires s.phase[i].Active?
    ensures !s.phase[j].Cleared?
  {
    hide QueueRight, NothingMissed, CooldownCovers, OneInside;
    assert i in Holders(s) && s.active >= 1;
    if |ids| <= 1 {
      OnlyOne(ids, i, j);
    }
  }

  lemma OnlyOne(ids: set<nat>, i: nat, j: nat)
    requires |ids| <= 1 && i in ids && j in ids
    ensures i == j
  {
    var rest := ids - {i};
    assert ids == {i} + rest;
    assert |rest| == 0;
  }

  lemma StepClear(limit: nat, ids: set<nat>, s: State, a: Action, s': State)
    requires Inv(limit, ids, s) && OneAtATime(limit, ids) && ClearMeansPast(s) && Step(limit, s, a, s')
    ensures ClearMeansPast(s')
  {
    hide Without, LockFree, QueueRight, NothingMissed, RoomAhead, OneInside, Holders, OneAtATime;
    if a.Fail? {
      forall j | j in s'.phase
        ensures !s'.phase[j].Cleared?
      {
        if j != a.id {
          NoFailureMeanwhile(limit, ids, s, a.id, j);
        }
      }
    }
  }

  lemma {:induction false} RunKeepsClear(limit: nat, ids: set<nat>, now: nat, ss: seq<State>, as_: seq<Action>, k: nat)
    requires RunOf(limit, ids, now, ss, as_) && OneAtATime(limit, ids) && k <= |as_|
    ensures ClearMeansPast(ss[k])
    decreases k
  {
    hide Inv, Step, ClearMeansPast, OneAtATime;
    if k == 0 {
      NobodyCleared(ids, now);
    } else {
      RunKeepsClear(limit, ids, now, ss, as_, k - 1);
      RunKeepsInv(limit, ids, now, ss, as_, k - 1);
      StepClear(limit, ids, ss[k - 1], as_[k - 1], ss[k]);
    }
  }

  lemma NobodyCleared(ids: set<nat>, now: nat)
    ensures ClearMeansPast(Initial(ids, now))
  {
  }

  /** With one place, or one request, no admission falls inside a delay that
      any earlier failure has published. */
  lemma NoAdmissionInsideDelay(limit: nat, ids: set<nat>, now: nat, ss: seq<State>, as_: seq<Action>, k: nat)
    requires RunOf(limit, ids, now, ss, as_) && OneAtATime(limit, ids) && k < |as_| && as_[k].Admit?
    ensures AllPast(ss[k])
  {
    hide OneAtATime, AllPast;
    RunKeepsClear(limit, ids, now, ss, as_, k);
    assert Step(limit, ss[k], as_[k], ss[k + 1]);
  }

  /** Two requests: `b` has passed the check when `a` fails. */
  function Race(ids: set<nat>, now: nat, a: nat, b: nat, k: nat): State {
    var first := match k
      case 0 => Away
      case 1 => Queued
      case 2 => Looking
      case 3 => Passing
      case 4 => Cleared
      case _ => if k <= 9 then Active else Published;
    var second := match k
      case 6 => Queued
      case 7 => Looking
      case 8 => Passing
      case 9 => Cleared
      case 10 => Cleared
      case _ => if k < 6 then Away else Active;
    State(map i | i in ids :: if i == a then first else if i == b then second else Away,
          if k == 1 then [a] else if k == 6 then [b] else [],
          if k < 5 then 0 else if k < 11 then 1 else 2,
          if k < 5 then 0 else if k < 11 then 1 else 2,
          if k < 10 then Some(now) else Latest(Some(now), Later(now, 1)),
          now,
          if k < 10 then [] else [Later(now, 1)])
  }

  function RaceAction(a: nat, b: nat, k: nat): Action {
    match k
    case 0 => Request(a)
    case 1 => Enter(a)
    case 2 => Look(a)
    case 3 => Check(a)
    case 4 => Admit(a)
    case 5 => Request(b)
    case 6 => Enter(b)
    case 7 => Look(b)
    case 8 => Check(b)
    case 9 => Fail(a, 1)
    case _ => Admit(b)
  }

  lemma RaceStep(limit: nat, ids: set<nat>, now: nat, a: nat, b: nat, k: nat)
    requires k < 11 && limit != 1 && a in ids && b in ids && a != b
    ensures Step(limit, Race(ids, now, a, b, k), RaceAction(a, b, k), Race(ids, now, a, b, k + 1))
  {
    hide Latest, Later;
    var s, s' := Race(ids, now, a, b, k), Race(ids, now, a, b, k + 1);
    assert s'.phase == s.phase[RaceAction(a, b, k).id := s'.phase[RaceAction(a, b, k).id]];
  }

  /** A run in which an admission falls inside a published delay. */
  lemma RaceRun(limit: nat, ids: set<nat>, now: nat, a: nat, b: nat) returns (ss: seq<State>, as_: seq<Action>)
    requires limit != 1 && a in ids && b in ids && a != b
    ensures RunOf(limit, ids, now, ss, as_) && |as_| == 11 && as_[10].Admit? && !AllPast(ss[10])
  {
    hide Step;
    ss := seq(12, k requires 0 <= k < 12 => Race(ids, now, a, b, k));
    as_ := seq(11, k requires 0 <= k < 11 => RaceAction(a, b, k));
    forall k | 0 <= k < 11
      ensures Step(limit, ss[k], as_[k], ss[k + 1])
    {
      RaceStep(limit, ids, now, a, b, k);
    }
    assert ss[0] == Initial(ids, now);
    assert ss[10].published[0] == Later(now, 1) && ss[10].now == now;
  }

  ghost predicate DelaysRespected(limit: nat, ids: set<nat>, now: nat) {
    forall ss, as_: seq<Action>, k :: RunOf(limit, ids, now, ss, as_) && 0 <= k < |as_| && as_[k].Admit? ==>
      AllPast(ss[k])
  }

  /** Published delays are respected in every run exactly if the gate has one
      place or at most one request uses it. With more places, or without a
      limit, any two requests can race. */
  lemma DelaysRespectedIff(limit: nat, ids: set<nat>, now: nat)
    ensures DelaysRespected(limit, ids, now) <==> OneAtATime(limit, ids)
  {
    hide Step, AllPast;
    if OneAtATime(limit, ids) {
      forall ss, as_: seq<Action>, k | RunOf(limit, ids, now, ss, as_) && 0 <= k < |as_| && as_[k].Admit?
        ensures AllPast(ss[k])
      {
        NoAdmissionInsideDelay(limit, ids, now, ss, as_, k);
      }
    } else {
      var a :| a in ids;
      assert ids == {a} + (ids - {a});
      assert ids - {a} != {};
      var b :| b in ids - {a};
      var ss, as_ := RaceRun(limit, ids, now, a, b);
    }
  }

  // ----- nobody waits in vain -----

  /** The request itself can move on; asking for admission anew, giving up
      and the passing of time do not count. */
  ghost predicate CanMove(limit: nat, s: State, i: nat) {
    exists a: Action, s' :: !a.Request? && !a.Abandon? && !a.Tick? && a.id == i && Step(limit, s, a, s')
  }

  lemma Move(limit: nat, s: State, a: Action, s': State)
    requires !a.Request? && !a.Abandon? && !a.Tick? && Step(limit, s, a, s')
    ensures CanMove(limit, s, a.id)
  {
  }

  /** It sleeps until a cooldown is over, for ever if that is out of range. */
  ghost predicate Sleeps(s: State, i: nat) {
    i in s.phase && s.phase[i].Sleeping? && (s.phase[i].until.None? || s.phase[i].until.value > s.now)
  }

  /** It has looked at a full gate that has not changed since. */
  ghost predicate SeesFull(limit: nat, s: State, i: nat) {
    i in s.phase && s.phase[i].Blocked? && s.phase[i].seen == s.version && limit > 0 && s.active >= limit
  }

  /** Whom a request waits for: itself; when queued, the holder of the
      admission lock, or the head of the queue if the lock is free; and whoever
      holds a place while it, or the lock holder before it, sees a full gate. */
  ghost predicate Before(limit: nat, s: State, j: nat, i: nat)
    requires i in s.phase && j in s.phase
  {
    || j == i
    || (s.phase[i].Queued? && Inside(s.phase[j]))
    || (s.phase[i].Queued? && LockFree(s) && s.queue != [] && s.queue[0] == j)
    || (HoldsPlace(s.phase[j]) && exists h :: SeesFull(limit, s, h) && (h == i || s.phase[i].Queued?))
  }

  /** Whoever is on its way waits for a request before it that can move by
      itself, or that sleeps out a cooldown. */
  lemma WaitsForSomebody(limit: nat, ids: set<nat>, s: State, i: nat)
    requires Inv(limit, ids, s) && i in ids && !s.phase[i].Away?
    ensures exists j :: j in s.phase && Before(limit, s, j, i) && (CanMove(limit, s, j) || Sleeps(s, j))
  {
    hide CanMove, Sleeps, Inside, QueueRight, RoomAhead, NothingMissed, CooldownCovers, OneInside, Holders, SeesFull;
    if s.phase[i].Queued? {
      if h :| h in ids && Inside(s.phase[h]) {
        var j := InsideWaits(limit, ids, s, h);
        assert Before(limit, s, j, i);
      } else {
        var f := FrontMoves(limit, ids, s, i);
        assert Before(limit, s, f, i);
      }
    } else if HoldsPlace(s.phase[i]) {
      PlaceMoves(limit, ids, s, i);
      assert Before(limit, s, i, i);
    } else {
      NeitherPlace(s.phase[i]);
      var j := InsideWaits(limit, ids, s, i);
      assert Before(limit, s, j, i);
    }
  }

  lemma NeitherPlace(p: Phase)
    requires !p.Away? && !p.Queued? && !HoldsPlace(p)
    ensures Inside(p)
  {
  }

  lemma FrontMoves(limit: nat, ids: set<nat>, s: State, i: nat) returns (f: nat)
    requires Inv(limit, ids, s) && i in ids && s.phase[i].Queued? && LockFree(s)
    ensures f in s.phase && s.queue != [] && s.queue[0] == f && CanMove(limit, s, f)
  {
    hide CanMove, RoomAhead, NothingMissed, CooldownCovers, OneInside;
    f := s.queue[0];
    assert f in s.queue;
    Move(limit, s, Enter(f), To(s, f, Looking).(queue := s.queue[1..]));
  }

  lemma PlaceMoves(limit: nat, ids: set<nat>, s: State, i: nat)
    requires Inv(limit, ids, s) && i in ids && HoldsPlace(s.phase[i])
    ensures CanMove(limit, s, i)
  {
    hide CanMove;
    assert i in Holders(s);
    Move(limit, s, Release(i), To(s, i, Away).(active := s.active - 1, version := s.version + 1));
  }

  /** The lock holder can move, sleeps, or sees a full gate, and then whoever
      holds a place can release it. */
  lemma InsideWaits(limit: nat, ids: set<nat>, s: State, i: nat) returns (j: nat)
    requires Inv(limit, ids, s) && i in ids && Inside(s.phase[i])
    ensures j in s.phase && (CanMove(limit, s, j) || Sleeps(s, j))
    ensures j == i || (HoldsPlace(s.phase[j]) && SeesFull(limit, s, i))
  {
    hide CanMove, QueueRight, RoomAhead, CooldownCovers, OneInside;
    j := i;
    match s.phase[i]
    case Looking =>
      Move(limit, s, Look(i), To(s, i, if limit == 0 || s.active < limit then Passing else Blocked(s.version)));
    case Blocked(seen) =>
      if s.version > seen {
        Move(limit, s, Wake(i), To(s, i, Looking));
      } else {
        j :| j in Holders(s);
        PlaceMoves(limit, ids, s, j);
      }
    case Passing =>
      Move(limit, s, Check(i),
           To(s, i, if s.cooldown.Some? && s.cooldown.value <= s.now then Cleared else Sleeping(s.cooldown)));
    case Sleeping(until) =>
      if until.Some? && until.value <= s.now {
        Move(limit, s, Wake(i), To(s, i, Looking));
      }
    case Cleared =>
      Move(limit, s, Admit(i), To(s, i, Active).(active := s.active + 1, version := s.version + 1));
  }
}
