/** Repeating a failing model call with growing, bounded waits. */
module Retry {
  import opened Wrappers

  const MAX_DURATION: nat := 0xFFFF_FFFF_FFFF_FFFF
  const MAX_ATTEMPT: nat := 0xFFFF_FFFF

  datatype Config = Config(maxAttempts: Option<nat>, backoff: nat, maxBackoff: Option<nat>)

  /** What one attempt comes to: for a failure, the minimum wait of the
      provider's policy if it may be retried, whether output was already
      streamed, the settings at that moment, and the random part of the wait. */
  datatype Attempt =
    | Success(response: string)
    | Failure(error: string, minimum: Option<nat>, emitted: bool, config: Config, jitter: nat -> nat)

  function Min(a: nat, b: nat): nat {
    if a <= b then a else b
  }

  function Max(a: nat, b: nat): nat {
    if a >= b then a else b
  }

  function Saturated(d: nat): nat {
    Min(d, MAX_DURATION)
  }

  ghost function Power(n: nat): nat {
    if n == 0 then 1 else 2 * Power(n - 1)
  }

  /** How many failures in a row before number `k` had the same base. */
  ghost function Streak(attempts: seq<Attempt>, k: nat): nat
    requires k < |attempts| && forall j :: 0 <= j <= k ==> attempts[j].Failure?
  {
    if k > 0 && attempts[k - 1].config.backoff == attempts[k].config.backoff then Streak(attempts, k - 1) + 1 else 0
  }

  /** The random wait is at most this: the base doubled once per failure of
      the streak, saturating, and capped. */
  ghost function Bound(attempts: seq<Attempt>, k: nat): nat
    requires k < |attempts| && forall j :: 0 <= j <= k ==> attempts[j].Failure?
  {
    var config := attempts[k].config;
    var ceiling := Saturated(config.backoff * Power(Streak(attempts, k)));
    if config.maxBackoff.Some? then Min(ceiling, config.maxBackoff.value) else ceiling
  }

  /** The random factor is at most one. */
  ghost predicate Fair(attempts: seq<Attempt>) {
    forall k :: 0 <= k < |attempts| && attempts[k].Failure? ==>
      attempts[k].config.backoff <= MAX_DURATION && forall d :: attempts[k].jitter(d) <= d
  }

  predicate GivesUp(attempts: seq<Attempt>, k: nat)
    requires k < |attempts| && attempts[k].Failure?
  {
    var f := attempts[k];
    || f.minimum.None?
    || (f.config.maxAttempts.Some? && Min(k + 1, MAX_ATTEMPT) >= f.config.maxAttempts.value)
    || f.emitted
  }

  /** Every attempt before the `n`th failed and was followed by another one. */
  ghost predicate Repeated(attempts: seq<Attempt>, n: nat) {
    n <= |attempts| && forall k :: 0 <= k < n ==> attempts[k].Failure? && !GivesUp(attempts, k)
  }

  /** Every wait is the minimum of the provider's policy or the random part of
      the bound, whichever is longer; so it lies between the two. */
  ghost predicate WaitsRight(attempts: seq<Attempt>, n: nat, waits: seq<nat>)
    requires n <= |attempts| && forall j :: 0 <= j < n ==> attempts[j].Failure?
  {
    && |waits| == n
    && forall k :: 0 <= k < n && attempts[k].minimum.Some? ==>
         && waits[k] == Max(attempts[k].minimum.value, attempts[k].jitter(Bound(attempts, k)))
         && attempts[k].minimum.value <= waits[k] <= Max(attempts[k].minimum.value, Bound(attempts, k))
  }

  /** What the loop goes on after: a failure that may be retried, nothing
      streamed yet, and attempts left. */
  ghost predicate Retried(a: Attempt, number: nat) {
    && a.Failure? && a.minimum.Some? && !a.emitted
    && match a.config.maxAttempts
       case None => true
       case Some(limit) => if number <= 0xFFFF_FFFF then number < limit else 0xFFFF_FFFF < limit
  }

  lemma RetriedIff(attempts: seq<Attempt>, k: nat)
    requires k < |attempts| && attempts[k].Failure?
    ensures Retried(attempts[k], k + 1) <==> !GivesUp(attempts, k)
  {
  }

  datatype Ending = Response(response: string) | GaveUp(error: string) | Ongoing

  lemma RepeatedMore(attempts: seq<Attempt>, n: nat)
    requires Repeated(attempts, n) && n < |attempts| && attempts[n].Failure? && !GivesUp(attempts, n)
    ensures Repeated(attempts, n + 1)
  {
  }

  lemma NoStreak(attempts: seq<Attempt>, k: nat)
    requires k < |attempts| && forall j :: 0 <= j <= k ==> attempts[j].Failure?
    ensures Streak(attempts, k)
            == if k > 0 && attempts[k - 1].config.backoff == attempts[k].config.backoff
               then Streak(attempts, k - 1) + 1 else 0
  {
  }

  /** The wait after failure `n` extends the list of bounded waits. */
  lemma WaitsMore(attempts: seq<Attempt>, n: nat, waits: seq<nat>, bounded: nat)
    requires Fair(attempts) && n < |attempts| && (forall j :: 0 <= j <= n ==> attempts[j].Failure?)
    requires WaitsRight(attempts, n, waits) && attempts[n].minimum.Some? && bounded == Bound(attempts, n)
    ensures WaitsRight(attempts, n + 1, waits + [Max(attempts[n].minimum.value, attempts[n].jitter(bounded))])
  {
    hide Bound;
    assert attempts[n].jitter(bounded) <= bounded;
  }

  lemma Doubles(a: nat, n: nat)
    requires a <= MAX_DURATION
    ensures Saturated(2 * Saturated(a * Power(n))) == Saturated(a * Power(n + 1))
  {
    assert a * Power(n + 1) == 2 * (a * Power(n));
  }

  /** The loop over the attempts. `waits` are the delays published to the
      gate, the last one also when no further attempt follows. */
  method Run(backoff: nat, attempts: seq<Attempt>) returns (r: Ending, waits: seq<nat>, calls: nat)
    requires Fair(attempts) && backoff <= MAX_DURATION
    ensures calls <= |attempts|
    ensures r.Ongoing? ==> calls == |attempts| && Repeated(attempts, calls)
    ensures !r.Ongoing? ==> calls > 0 && Repeated(attempts, calls - 1)
    ensures r.Response? ==> attempts[calls - 1] == Success(r.response)
    ensures r.GaveUp? ==>
              attempts[calls - 1].Failure? && GivesUp(attempts, calls - 1) && r.error == attempts[calls - 1].error
    ensures var n := |waits|;
            && n <= |attempts|
            && (forall j :: 0 <= j < n ==> attempts[j].Failure?)
            && WaitsRight(attempts, n, waits)
    ensures forall k :: 0 <= k < calls - 1 ==> Retried(attempts[k], k + 1)
    ensures r.Ongoing? ==> forall k :: 0 <= k < calls ==> Retried(attempts[k], k + 1)
    ensures r.GaveUp? ==> !Retried(attempts[calls - 1], calls)
    ensures |waits| == (if r.Ongoing? || (r.GaveUp? && attempts[calls - 1].minimum.Some?) then calls else calls - 1)
  {
    hide Streak, Power, WaitsRight, Repeated, Saturated, Retried;
    var attempt, base, ceiling := 1, backoff, backoff;
    waits, calls := [], 0;
    NothingYet(attempts);
    while calls < |attempts|
      invariant calls <= |attempts| && forall k :: 0 <= k < calls ==> Retried(attempts[k], k + 1)
      invariant Repeated(attempts, calls) && attempt == Min(calls + 1, MAX_ATTEMPT)
      invariant (forall j :: 0 <= j < calls ==> attempts[j].Failure?) && |waits| == calls
      invariant WaitsRight(attempts, calls, waits)
      invariant calls == 0 ==> base == ceiling == backoff
      invariant calls > 0 ==> base == attempts[calls - 1].config.backoff
                              && ceiling == Saturated(base * Power(Streak(attempts, calls - 1) + 1))
    {
      var a := attempts[calls];
      ghost var n := calls;
      calls := calls + 1;
      if a.Success? {
        return Response(a.response), waits, calls;
      }
      RetriedIff(attempts, n);
      if a.minimum.None? {
        return GaveUp(a.error), waits, calls;
      }
      NoStreak(attempts, n);
      PowerZero(a.config.backoff);
      if base != a.config.backoff {
        base := a.config.backoff;
        ceiling := base;
      }
      assert ceiling == Saturated(base * Power(Streak(attempts, n)));
      var bounded := if a.config.maxBackoff.Some? then Min(ceiling, a.config.maxBackoff.value) else ceiling;
      var delay := Max(a.minimum.value, a.jitter(bounded));
      WaitsMore(attempts, n, waits, bounded);
      waits := waits + [delay];
      if (a.config.maxAttempts.Some? && attempt >= a.config.maxAttempts.value) || a.emitted {
        return GaveUp(a.error), waits, calls;
      }
      attempt := Min(attempt + 1, MAX_ATTEMPT);
      RepeatedMore(attempts, n);
      Doubles(base, Streak(attempts, n));
      ceiling := Saturated(2 * ceiling);
    }
    r := Ongoing;
  }

  lemma NothingYet(attempts: seq<Attempt>)
    ensures Repeated(attempts, 0) && WaitsRight(attempts, 0, [])
  {
  }

  lemma PowerZero(base: nat)
    ensures base * Power(0) == base
    ensures base <= MAX_DURATION ==> Saturated(base * Power(0)) == base
  {
  }

  /** With a fixed limit no more attempts are made than it allows. */
  lemma AttemptsBounded(attempts: seq<Attempt>, n: nat, limit: nat)
    requires Repeated(attempts, n) && 1 <= limit <= MAX_ATTEMPT
    requires forall k :: 0 <= k < n ==> attempts[k].Failure? && attempts[k].config.maxAttempts == Some(limit)
    ensures n < limit
  {
    if n > 0 {
      assert !GivesUp(attempts, n - 1);
    }
  }

  /** The bound is the doubled base as long as that can be represented and is
      below the cap; it is never more than either. */
  lemma BoundMeaning(attempts: seq<Attempt>, k: nat)
    requires k < |attempts| && forall j :: 0 <= j <= k ==> attempts[j].Failure?
    ensures var config, doubled := attempts[k].config, attempts[k].config.backoff * Power(Streak(attempts, k));
            && Bound(attempts, k) <= 0xFFFF_FFFF_FFFF_FFFF
            && Bound(attempts, k) <= doubled
            && (config.maxBackoff.Some? ==> Bound(attempts, k) <= config.maxBackoff.value)
            && (doubled <= 0xFFFF_FFFF_FFFF_FFFF && (config.maxBackoff.Some? ==> doubled <= config.maxBackoff.value) ==>
                  Bound(attempts, k) == doubled)
  {
    hide Streak, Power;
  }

  /** With fixed settings the bound of failure `k` is the base doubled `k`
      times, saturating, and capped. */
  lemma {:induction false} FixedStreak(attempts: seq<Attempt>, k: nat, config: Config)
    requires k < |attempts| && forall j :: 0 <= j <= k ==> attempts[j].Failure? && attempts[j].config == config
    ensures Streak(attempts, k) == k
    ensures var ceiling := Saturated(config.backoff * Power(k));
            Bound(attempts, k) == if config.maxBackoff.Some? then Min(ceiling, config.maxBackoff.value) else ceiling
  {
    if k > 0 {
      FixedStreak(attempts, k - 1, config);
    }
  }
}
