/** Ordered sets of identifiers: the iteration order of the sorted maps and
    sets of the original, as a strictly increasing sequence. */
module Ids {
  type StageId = string

  /** Code-point order, which is the byte order of the UTF-8 encodings. */
  predicate Less(a: StageId, b: StageId)
    decreases |a|
  {
    if b == [] then false
    else if a == [] then true
    else if a[0] != b[0] then a[0] < b[0]
    else Less(a[1..], b[1..])
  }

  /** The order of ids: at the first difference the smaller character comes
      first, and a proper prefix before what it begins. */
  lemma {:induction false} LessMeaning(a: StageId, b: StageId) returns (n: nat)
    ensures n <= |a| && n <= |b| && a[..n] == b[..n]
    ensures n < |a| && n < |b| ==> a[n] != b[n]
    ensures Less(a, b) <==> n < |b| && (n == |a| || a[n] < b[n])
    decreases |a|
  {
    if a != [] && b != [] && a[0] == b[0] {
      n := LessMeaning(a[1..], b[1..]);
      assert a[..n + 1] == [a[0]] + a[1..][..n] && b[..n + 1] == [b[0]] + b[1..][..n];
      n := n + 1;
    } else {
      n := 0;
    }
  }

  lemma {:induction false} LessTotal(a: StageId, b: StageId)
    ensures Less(a, b) || a == b || Less(b, a)
    decreases |a|
  {
    if a != [] && b != [] && a[0] == b[0] {
      LessTotal(a[1..], b[1..]);
      assert a == [a[0]] + a[1..] && b == [b[0]] + b[1..];
    }
  }

  lemma {:induction false} LessIrreflexive(a: StageId)
    ensures !Less(a, a)
    decreases |a|
  {
    if a != [] {
      LessIrreflexive(a[1..]);
    }
  }

  lemma {:induction false} LessTransitive(a: StageId, b: StageId, c: StageId)
    requires Less(a, b) && Less(b, c)
    ensures Less(a, c)
    decreases |a|
  {
    if a != [] && a[0] == b[0] == c[0] {
      LessTransitive(a[1..], b[1..], c[1..]);
    }
  }

  ghost predicate Ordered(s: seq<StageId>) {
    forall i, j :: 0 <= i < j < |s| ==> Less(s[i], s[j])
  }

  lemma OrderedDistinct(s: seq<StageId>)
    requires Ordered(s)
    ensures forall i, j :: 0 <= i < j < |s| ==> s[i] != s[j]
  {
    forall i, j | 0 <= i < j < |s|
      ensures s[i] != s[j]
    {
      LessIrreflexive(s[i]);
    }
  }

  /** Sorted-set insertion. */
  function Insert(s: seq<StageId>, x: StageId): seq<StageId> {
    if s == [] || Less(x, s[0]) then [x] + s
    else if x == s[0] then s
    else [s[0]] + Insert(s[1..], x)
  }

  lemma {:induction false} InsertMember(s: seq<StageId>, x: StageId)
    ensures forall y :: y in Insert(s, x) <==> y in s || y == x
  {
    if s != [] && !Less(x, s[0]) && x != s[0] {
      InsertMember(s[1..], x);
      assert forall y :: y in s <==> y == s[0] || y in s[1..];
    }
  }

  lemma {:induction false} InsertOrdered(s: seq<StageId>, x: StageId)
    requires Ordered(s)
    ensures Ordered(Insert(s, x))
  {
    if s != [] {
      if Less(x, s[0]) {
        forall j | 0 <= j < |s|
          ensures Less(x, s[j])
        {
          if j > 0 { LessTransitive(x, s[0], s[j]); }
        }
      } else if x != s[0] {
        LessTotal(x, s[0]);
        var t := Insert(s[1..], x);
        InsertOrdered(s[1..], x);
        InsertMember(s[1..], x);
        forall j | 0 <= j < |t|
          ensures Less(s[0], t[j])
        {
          assert t[j] in t;
        }
      }
    }
  }

  lemma {:induction false} InsertLength(s: seq<StageId>, x: StageId)
    requires x !in s
    ensures |Insert(s, x)| == |s| + 1
  {
    if s != [] && !Less(x, s[0]) {
      InsertLength(s[1..], x);
    }
  }

  /** Sort and drop repetitions. */
  function SortDedup(s: seq<StageId>): seq<StageId> {
    if s == [] then [] else Insert(SortDedup(s[..|s| - 1]), s[|s| - 1])
  }

  lemma {:induction false} SortDedupMeaning(s: seq<StageId>)
    ensures Ordered(SortDedup(s))
    ensures forall y :: y in SortDedup(s) <==> y in s
  {
    if s != [] {
      var front, last := s[..|s| - 1], s[|s| - 1];
      SortDedupMeaning(front);
      InsertOrdered(SortDedup(front), last);
      InsertMember(SortDedup(front), last);
      assert s == front + [last];
    }
  }

  /** An ordered sequence is determined by its members. */
  lemma {:induction false} OrderedUnique(a: seq<StageId>, b: seq<StageId>)
    requires Ordered(a) && Ordered(b)
    requires forall y :: y in a <==> y in b
    ensures a == b
  {
    EmptyMembers(a);
    EmptyMembers(b);
    if a != [] {
      OrderedDistinct(a);
      OrderedDistinct(b);
      HeadsAgree(a, b);
      HeadsAgree(b, a);
      LessIrreflexive(a[0]);
      LessTotal(a[0], b[0]);
      assert forall y :: y in a[1..] <==> y in a && y != a[0];
      assert forall y :: y in b[1..] <==> y in b && y != b[0];
      OrderedUnique(a[1..], b[1..]);
      assert a == [a[0]] + a[1..] && b == [b[0]] + b[1..];
    }
  }

  lemma EmptyMembers(a: seq<StageId>)
    ensures a == [] <==> forall y :: y !in a
  {
    if a != [] {
      assert a[0] in a;
    }
  }

  lemma HeadsAgree(a: seq<StageId>, b: seq<StageId>)
    requires Ordered(a) && Ordered(b) && a != [] && b != []
    requires forall y :: y in a <==> y in b
    ensures !Less(b[0], a[0])
  {
    if Less(b[0], a[0]) {
      assert b[0] in a;
      var j :| 0 <= j < |a| && a[j] == b[0];
      LessIrreflexive(a[0]);
      if j > 0 {
        LessTransitive(a[0], b[0], a[0]);
      }
    }
  }
}
