/** Bit sets packed into 64-bit words. */
module Bits {
  const WORD := 64

  type Words = seq<bv64>

  /** Number of words for `n` bits. */
  function WordCount(n: nat): nat { (n + WORD - 1) / WORD }

  function Mask(i: nat): bv64
    requires i < WORD
  {
    (1 as bv64) << i
  }

  predicate Test(words: Words, i: nat)
    requires i < |words| * WORD
  {
    words[i / WORD] & Mask(i % WORD) != 0
  }

  function Zero(n: nat): (words: Words)
    ensures |words| == n
    ensures forall k :: 0 <= k < n ==> words[k] == 0
  {
    seq(n, _ => 0)
  }

  function Set(words: Words, i: nat): (r: Words)
    requires i < |words| * WORD
    ensures |r| == |words|
  {
    words[i / WORD := words[i / WORD] | Mask(i % WORD)]
  }

  /** ORs `b` into `a` word by word, over the words both have. */
  method Merge(a: Words, b: Words) returns (r: Words)
    requires |a| == |b|
    ensures |r| == |a|
    ensures forall i :: 0 <= i < |a| * WORD ==> (Test(r, i) <==> Test(a, i) || Test(b, i))
  {
    r := a;
    for k := 0 to |a|
      invariant |r| == |a|
      invariant forall j :: 0 <= j < k ==> r[j] == a[j] | b[j]
      invariant forall j :: k <= j < |a| ==> r[j] == a[j]
    {
      r := r[k := r[k] | b[k]];
    }
    forall i | 0 <= i < |a| * WORD
      ensures Test(r, i) <==> Test(a, i) || Test(b, i)
    {
      OrBits(a[i / WORD], b[i / WORD], Mask(i % WORD));
    }
  }

  lemma OrBits(a: bv64, b: bv64, m: bv64)
    ensures (a | b) & m != 0 <==> a & m != 0 || b & m != 0
  {
  }

  lemma ZeroBits(m: bv64)
    ensures 0 & m == 0
  {
  }

  lemma ShiftsApart(i: bv6, j: bv6)
    ensures ((1 as bv64) << i) & ((1 as bv64) << j) != 0 <==> i == j
  {
  }

  lemma NarrowShift(i: nat)
    requires i < WORD
    ensures (i as bv6) as int == i
    ensures Mask(i) == (1 as bv64) << (i as bv6)
  {
  }

  lemma MasksApart(i: nat, j: nat)
    requires i < WORD && j < WORD
    ensures Mask(i) & Mask(j) != 0 <==> i == j
  {
    NarrowShift(i);
    NarrowShift(j);
    ShiftsApart(i as bv6, j as bv6);
  }

  /** Setting bit `i` adds `i` to the set and nothing else, across words. */
  lemma SetTest(words: Words, i: nat, j: nat)
    requires i < |words| * WORD && j < |words| * WORD
    ensures Test(Set(words, i), j) <==> i == j || Test(words, j)
  {
    if i / WORD == j / WORD {
      OrBits(words[i / WORD], Mask(i % WORD), Mask(j % WORD));
      MasksApart(i % WORD, j % WORD);
    }
  }

  lemma ZeroTest(n: nat, j: nat)
    requires j < n * WORD
    ensures !Test(Zero(n), j)
  {
    ZeroBits(Mask(j % WORD));
  }
}
