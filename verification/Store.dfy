/** The byte-budgeted store of tool outputs that were cut from the context. */
module Store {
  import opened Wrappers

  /** Bytes of a character in UTF-8. */
  function Width(c: char): nat {
    if c < '\U{0080}' then 1 else if c < '\U{0800}' then 2 else if c < '\U{10000}' then 3 else 4
  }

  function Size(text: string): nat {
    if text == "" then 0 else Size(text[..|text| - 1]) + Width(text[|text| - 1])
  }

  datatype Entry = Entry(toolName: string, full: string)

  datatype Record = Record(id: string, entry: Entry)

  function Bytes(log: seq<Record>): nat {
    if log == [] then 0 else Bytes(log[..|log| - 1]) + Size(log[|log| - 1].entry.full)
  }

  ghost predicate DistinctIds(log: seq<Record>) {
    forall i, j :: 0 <= i < j < |log| ==> log[i].id != log[j].id
  }

  // ----- what the store holds, oldest first -----

  /** The longest suffix that fits the budget. */
  function Fit(budget: nat, log: seq<Record>): seq<Record> {
    if Bytes(log) <= budget || log == [] then log else Fit(budget, log[1..])
  }

  function Remove(log: seq<Record>, id: string): seq<Record> {
    if log == [] then []
    else
      var before := Remove(log[..|log| - 1], id);
      if log[|log| - 1].id == id then before else before + [log[|log| - 1]]
  }

  /** One insertion: too large a text is not stored, an old one of the same id
      goes, and the oldest make room. */
  function Inserted(budget: nat, log: seq<Record>, r: Record): seq<Record> {
    if Size(r.entry.full) > budget then log else Fit(budget, Remove(log, r.id) + [r])
  }

  function Replay(budget: nat, log: seq<Record>, more: seq<Record>): seq<Record> {
    if more == [] then log
    else Inserted(budget, Replay(budget, log, more[..|more| - 1]), more[|more| - 1])
  }

  /** The insertions that are not refused. */
  function Accepted(budget: nat, more: seq<Record>): seq<Record> {
    if more == [] then []
    else
      var before := Accepted(budget, more[..|more| - 1]);
      if Size(more[|more| - 1].entry.full) > budget then before else before + [more[|more| - 1]]
  }

  lemma {:induction false} BytesAppend(a: seq<Record>, b: seq<Record>)
    ensures Bytes(a + b) == Bytes(a) + Bytes(b)
  {
    if b == [] {
      assert a + b == a;
    } else {
      assert (a + b)[..|a + b| - 1] == a + b[..|b| - 1];
      BytesAppend(a, b[..|b| - 1]);
    }
  }

  lemma BytesAdded(log: seq<Record>, r: Record)
    ensures Bytes(log + [r]) == Bytes(log) + Size(r.entry.full)
  {
    hide Size;
    assert (log + [r])[..|log|] == log;
  }

  lemma BytesFirst(log: seq<Record>)
    requires log != []
    ensures Bytes(log) == Size(log[0].entry.full) + Bytes(log[1..])
  {
    BytesAppend([log[0]], log[1..]);
    assert [log[0]] + log[1..] == log;
    assert [log[0]][..0] == [];
  }

  /** `Fit` is the longest suffix within the budget. */
  lemma {:induction false} FitIsLongest(budget: nat, log: seq<Record>) returns (f: nat)
    ensures f <= |log| && Fit(budget, log) == log[f..] && Bytes(log[f..]) <= budget
    ensures forall i :: 0 <= i < f ==> Bytes(log[i..]) > budget
  {
    f := 0;
    if Bytes(log) > budget && log != [] {
      var rest := log[1..];
      var g := FitIsLongest(budget, rest);
      f := g + 1;
      assert rest[g..] == log[f..];
      forall i | 0 <= i < f
        ensures Bytes(log[i..]) > budget
      {
        assert i > 0 ==> log[i..] == rest[i - 1..];
        assert log[0..] == log;
      }
    } else {
      assert log[0..] == log;
    }
  }

  lemma LongerIsLarger(log: seq<Record>, i: nat, j: nat)
    requires i <= j <= |log|
    ensures Bytes(log[j..]) <= Bytes(log[i..])
  {
    BytesAppend(log[i..j], log[j..]);
    assert log[i..] == log[i..j] + log[j..];
  }

  /** A suffix that fits and cannot be extended is the one `Fit` gives. */
  lemma FitUnique(budget: nat, log: seq<Record>, k: nat)
    requires k <= |log| && Bytes(log[k..]) <= budget && (k > 0 ==> Bytes(log[k - 1..]) > budget)
    ensures Fit(budget, log) == log[k..]
  {
    hide Bytes, Fit;
    var f := FitIsLongest(budget, log);
    if f < k {
      LongerIsLarger(log, f, k - 1);
    }
  }

  /** Evicting early and late is the same. */
  lemma FitAppend(budget: nat, log: seq<Record>, r: Record)
    requires Size(r.entry.full) <= budget
    ensures Fit(budget, Fit(budget, log) + [r]) == Fit(budget, log + [r])
  {
    hide Bytes, Fit;
    var all := log + [r];
    var f := FitIsLongest(budget, log);
    var kept := log[f..] + [r];
    assert kept == all[f..];
    var g := FitIsLongest(budget, kept);
    assert kept[g..] == all[f + g..];
    if g > 0 {
      assert kept[g - 1..] == all[f + g - 1..];
    } else if f > 0 {
      BytesAppend(log[f - 1..], [r]);
      assert all[f - 1..] == log[f - 1..] + [r];
    }
    FitUnique(budget, all, f + g);
  }

  lemma {:induction false} RemoveOthers(log: seq<Record>, id: string)
    requires forall i :: 0 <= i < |log| ==> log[i].id != id
    ensures Remove(log, id) == log
  {
    if log != [] {
      RemoveOthers(log[..|log| - 1], id);
    }
  }

  lemma {:induction false} AcceptedFrom(budget: nat, more: seq<Record>, x: Record)
    ensures x in Accepted(budget, more) <==> x in more && Size(x.entry.full) <= budget
  {
    if more != [] {
      AcceptedFrom(budget, more[..|more| - 1], x);
      assert more == more[..|more| - 1] + [more[|more| - 1]];
    }
  }

  /** For distinct ids the store holds the longest fitting suffix of what it
      accepted. */
  lemma {:induction false} HoldsLongestSuffix(budget: nat, more: seq<Record>)
    requires DistinctIds(more)
    ensures Replay(budget, [], more) == Fit(budget, Accepted(budget, more))
  {
    if more != [] {
      var front, last := more[..|more| - 1], more[|more| - 1];
      HoldsLongestSuffix(budget, front);
      var log := Replay(budget, [], front);
      var f := FitIsLongest(budget, Accepted(budget, front));
      if Size(last.entry.full) <= budget {
        forall i | 0 <= i < |log|
          ensures log[i].id != last.id
        {
          assert log[i] in Accepted(budget, front);
          AcceptedFrom(budget, front, log[i]);
        }
        RemoveOthers(log, last.id);
        FitAppend(budget, Accepted(budget, front), last);
      }
    }
  }

  /** What a store can hold. */
  ghost predicate Contents(budget: nat, log: seq<Record>) {
    DistinctIds(log) && Bytes(log) <= budget
  }

  lemma EachFits(log: seq<Record>, i: nat)
    requires i < |log|
    ensures Size(log[i].entry.full) <= Bytes(log)
  {
    hide Size, Bytes;
    BytesAppend(log[..i], log[i..]);
    assert log[..i] + log[i..] == log;
    BytesFirst(log[i..]);
  }

  lemma FitsWhole(budget: nat, log: seq<Record>)
    requires Bytes(log) <= budget
    ensures Fit(budget, log) == log
  {
  }

  /** Replaying the contents in order, as loading and copying do, rebuilds
      them. */
  lemma {:induction false} ReplayRebuilds(budget: nat, log: seq<Record>)
    requires Contents(budget, log)
    ensures Replay(budget, [], log) == log
  {
    if log != [] {
      hide Remove, Fit, Bytes, Size;
      var front, last := log[..|log| - 1], log[|log| - 1];
      assert front + [last] == log;
      BytesAppend(front, [last]);
      ReplayRebuilds(budget, front);
      RemoveOthers(front, last.id);
      EachFits(log, |log| - 1);
      FitsWhole(budget, log);
    }
  }

  lemma {:induction false} RemoveKeeps(log: seq<Record>, id: string)
    ensures forall x :: x in Remove(log, id) <==> x in log && x.id != id
    ensures DistinctIds(log) ==> DistinctIds(Remove(log, id))
    ensures Bytes(Remove(log, id)) <= Bytes(log)
  {
    if log != [] {
      hide Size;
      var front, last := log[..|log| - 1], log[|log| - 1];
      RemoveKeeps(front, id);
      assert log == front + [last];
      var before := Remove(front, id);
      if last.id != id {
        assert (before + [last])[..|before|] == before;
        if DistinctIds(log) {
          KeepsDistinct(before, front, last);
        }
      }
    }
  }

  lemma KeepsDistinct(kept: seq<Record>, front: seq<Record>, last: Record)
    requires DistinctIds(kept) && DistinctIds(front + [last]) && forall x :: x in kept ==> x in front
    ensures DistinctIds(kept + [last])
  {
    forall i | 0 <= i < |kept|
      ensures kept[i].id != last.id
    {
      assert kept[i] in front;
      var j :| 0 <= j < |front| && front[j] == kept[i];
      assert (front + [last])[j].id != (front + [last])[|front|].id;
    }
  }

  /** Every insertion keeps the contents proper. */
  lemma InsertedContents(budget: nat, log: seq<Record>, r: Record)
    requires Contents(budget, log)
    ensures Contents(budget, Inserted(budget, log, r))
  {
    hide Bytes, Fit, Remove;
    RemoveKeeps(log, r.id);
    var kept := Remove(log, r.id);
    var all := kept + [r];
    var f := FitIsLongest(budget, all);
    forall i | 0 <= i < |kept|
      ensures kept[i].id != r.id
    {
      assert kept[i] in kept;
    }
  }

  // ----- an insertion batch that fits survives -----

  ghost predicate EndsWith(log: seq<Record>, tail: seq<Record>) {
    |tail| <= |log| && log[|log| - |tail|..] == tail
  }

  lemma {:induction false} RemoveAppend(a: seq<Record>, b: seq<Record>, id: string)
    ensures Remove(a + b, id) == Remove(a, id) + Remove(b, id)
  {
    if b == [] {
      assert a + b == a;
    } else {
      assert (a + b)[..|a + b| - 1] == a + b[..|b| - 1];
      RemoveAppend(a, b[..|b| - 1], id);
    }
  }

  lemma StartsBefore(budget: nat, log: seq<Record>, f: nat, k: nat)
    requires f <= |log| && k <= |log| && Bytes(log[k..]) <= budget
    requires forall i :: 0 <= i < f ==> Bytes(log[i..]) > budget
    ensures f <= k
  {
  }

  lemma FitKeepsTail(budget: nat, log: seq<Record>, tail: seq<Record>)
    requires EndsWith(log, tail) && Bytes(tail) <= budget
    ensures EndsWith(Fit(budget, log), tail)
  {
    hide Bytes, Fit;
    var f := FitIsLongest(budget, log);
    StartsBefore(budget, log, f, |log| - |tail|);
  }

  /** One more record behind what has survived. */
  lemma InsertSurvives(budget: nat, before: seq<Record>, tail: seq<Record>, last: Record)
    requires EndsWith(before, tail)
    requires Size(last.entry.full) <= budget && Bytes(Remove(tail, last.id) + [last]) <= budget
    ensures EndsWith(Inserted(budget, before, last), Remove(tail, last.id) + [last])
  {
    hide Fit, Remove, Size, Bytes;
    var head := before[..|before| - |tail|];
    assert before == head + tail;
    RemoveAppend(head, tail, last.id);
    var kept, more := Remove(head, last.id), Remove(tail, last.id) + [last];
    assert Remove(before, last.id) + [last] == kept + more;
    assert EndsWith(kept + more, more);
    FitKeepsTail(budget, kept + more, more);
  }

  /** Whatever the store held before, a batch of distinct ids that fits the
      budget is held completely afterwards. */
  lemma {:induction false} BatchSurvives(budget: nat, log: seq<Record>, more: seq<Record>)
    requires DistinctIds(more) && Bytes(more) <= budget
    ensures EndsWith(Replay(budget, log, more), more)
  {
    if more != [] {
      hide Fit, Remove, Size, Inserted, Bytes;
      var front, last := more[..|more| - 1], more[|more| - 1];
      EachFits(more, |more| - 1);
      BytesAppend(front, [last]);
      assert front + [last] == more;
      BatchSurvives(budget, log, front);
      RemoveOthers(front, last.id);
      InsertSurvives(budget, Replay(budget, log, front), front, last);
    }
  }

  // ----- exactly what the store holds -----

  lemma {:induction false} ReplayAppend(budget: nat, log: seq<Record>, a: seq<Record>, b: seq<Record>)
    ensures Replay(budget, log, a + b) == Replay(budget, Replay(budget, log, a), b)
  {
    hide Inserted;
    if b == [] {
      assert a + b == a;
    } else {
      assert (a + b)[..|a + b| - 1] == a + b[..|b| - 1];
      ReplayAppend(budget, log, a, b[..|b| - 1]);
    }
  }

  lemma {:induction false} ReplayKeeps(budget: nat, log: seq<Record>, more: seq<Record>)
    requires Contents(budget, log)
    ensures Contents(budget, Replay(budget, log, more))
  {
    if more != [] {
      ReplayKeeps(budget, log, more[..|more| - 1]);
      InsertedContents(budget, Replay(budget, log, more[..|more| - 1]), more[|more| - 1]);
    }
  }

  /** What a batch would leave if nothing were evicted: every id at its last
      accepted place. */
  function Latest(budget: nat, more: seq<Record>): seq<Record> {
    if more == [] then []
    else
      var before, last := Latest(budget, more[..|more| - 1]), more[|more| - 1];
      if Size(last.entry.full) > budget then before else Remove(before, last.id) + [last]
  }

  /** At no time is what the batch leaves more than the budget. */
  ghost predicate AlwaysFits(budget: nat, more: seq<Record>) {
    forall n :: 0 <= n <= |more| ==> FitsAt(budget, more, n)
  }

  ghost predicate FitsAt(budget: nat, more: seq<Record>, n: int)
    requires 0 <= n <= |more|
  {
    Bytes(Latest(budget, more[..n])) <= budget
  }

  lemma AlwaysFitsLast(budget: nat, more: seq<Record>)
    requires more != []
    ensures AlwaysFits(budget, more) <==>
              AlwaysFits(budget, more[..|more| - 1]) && Bytes(Latest(budget, more)) <= budget
  {
    hide FitsAt;
    var front := more[..|more| - 1];
    FitsAtEnd(budget, more);
    forall n | 0 <= n <= |front|
      ensures FitsAt(budget, front, n) <==> FitsAt(budget, more, n)
    {
      FitsAtFront(budget, more, n);
    }
  }

  lemma FitsAtEnd(budget: nat, more: seq<Record>)
    ensures FitsAt(budget, more, |more|) <==> Bytes(Latest(budget, more)) <= budget
  {
    hide Latest, Bytes;
    assert more[..|more|] == more;
  }

  lemma FitsAtFront(budget: nat, more: seq<Record>, n: nat)
    requires n < |more|
    ensures FitsAt(budget, more[..|more| - 1], n) <==> FitsAt(budget, more, n)
  {
    hide Latest, Bytes;
    assert more[..|more| - 1][..n] == more[..n];
  }

  /** What is always small enough is held completely, whatever the store held
      before. */
  lemma {:induction false} LatestSurvives(budget: nat, log: seq<Record>, more: seq<Record>)
    requires AlwaysFits(budget, more)
    ensures EndsWith(Replay(budget, log, more), Latest(budget, more))
  {
    if more != [] {
      hide AlwaysFits, Remove, Fit, Bytes, Size;
      var front, last := more[..|more| - 1], more[|more| - 1];
      AlwaysFitsLast(budget, more);
      LatestSurvives(budget, log, front);
      if Size(last.entry.full) <= budget {
        InsertSurvives(budget, Replay(budget, log, front), Latest(budget, front), last);
      }
    }
  }

  /** No record of that id is accepted. */
  ghost predicate NoneAccepted(budget: nat, more: seq<Record>, id: string) {
    forall i :: 0 <= i < |more| && more[i].id == id ==> Size(more[i].entry.full) > budget
  }

  /** The last accepted record of an id. */
  ghost predicate LastOf(budget: nat, more: seq<Record>, id: string, j: nat) {
    j < |more| && more[j].id == id && Size(more[j].entry.full) <= budget && NoneAccepted(budget, more[j + 1..], id)
  }

  /** The record was accepted last under its id. */
  ghost predicate Newest(budget: nat, more: seq<Record>, x: Record) {
    exists j: nat :: LastOf(budget, more, x.id, j) && more[j] == x
  }

  /** The record was accepted last under its id, at `j`, and there has been
      room for it and all that came after it. */
  ghost predicate Kept(budget: nat, more: seq<Record>, x: Record, j: nat) {
    LastOf(budget, more, x.id, j) && more[j] == x && AlwaysFits(budget, more[j..])
  }

  /** Some record of that id and text was accepted last under the id, and has
      had room since. */
  ghost predicate TextKept(budget: nat, more: seq<Record>, id: string, full: string) {
    exists j: nat :: LastOf(budget, more, id, j) && more[j].entry.full == full && AlwaysFits(budget, more[j..])
  }

  lemma NewestAt(budget: nat, more: seq<Record>, x: Record) returns (j: nat)
    requires Newest(budget, more, x)
    ensures LastOf(budget, more, x.id, j) && j < |more| && more[j] == x
  {
    j :| LastOf(budget, more, x.id, j) && more[j] == x;
  }

  lemma {:induction false} LastAccepted(budget: nat, more: seq<Record>, id: string) returns (j: Option<nat>)
    ensures match j
            case None => NoneAccepted(budget, more, id)
            case Some(i) => LastOf(budget, more, id, i)
  {
    hide Size;
    if more == [] {
      j := None;
    } else {
      j := LastAccepted(budget, more[1..], id);
      match j {
        case Some(i) =>
          assert more[1..][i + 1..] == more[i + 2..];
          j := Some(i + 1);
        case None =>
          assert forall i :: 0 < i < |more| ==> more[i] == more[1..][i - 1];
          if more[0].id == id && Size(more[0].entry.full) <= budget {
            j := Some(0);
          }
      }
    }
  }

  lemma NoneFront(budget: nat, rest: seq<Record>, id: string)
    requires NoneAccepted(budget, rest, id) && rest != []
    ensures NoneAccepted(budget, rest[..|rest| - 1], id)
    ensures var last := rest[|rest| - 1]; last.id == id ==> Size(last.entry.full) > budget
  {
    hide Size;
  }

  lemma RemoveHead(log: seq<Record>, id: string)
    requires log != [] && log[0].id != id
    ensures Remove(log, id) != [] && Remove(log, id)[0] == log[0]
  {
    RemoveAppend([log[0]], log[1..], id);
    assert [log[0]] + log[1..] == log;
    assert [log[0]][..0] == [];
    assert Remove([log[0]], id) == [log[0]];
  }

  /** A record that is not replaced stays in front of all that comes after. */
  lemma {:induction false} LatestHead(budget: nat, r: Record, rest: seq<Record>)
    requires Size(r.entry.full) <= budget && NoneAccepted(budget, rest, r.id)
    ensures Latest(budget, [r] + rest) != [] && Latest(budget, [r] + rest)[0] == r
  {
    hide Size, Remove, NoneAccepted;
    var more := [r] + rest;
    if rest == [] {
      assert more[..0] == [] && Latest(budget, []) == [];
      RemoveNothing(r.id);
    } else {
      var front, last := rest[..|rest| - 1], rest[|rest| - 1];
      assert more[..|more| - 1] == [r] + front;
      NoneFront(budget, rest, r.id);
      LatestHead(budget, r, front);
      if Size(last.entry.full) <= budget {
        RemoveHead(Latest(budget, [r] + front), last.id);
      }
    }
  }

  lemma RemoveNothing(id: string)
    ensures Remove([], id) == []
  {
  }

  lemma {:induction false} RemovedFrom(log: seq<Record>, id: string)
    ensures forall x :: x in Remove(log, id) ==> x in log && x.id != id
  {
    if log != [] {
      RemovedFrom(log[..|log| - 1], id);
    }
  }

  /** An insertion brings in nothing but its record. */
  lemma InsertedFrom(budget: nat, log: seq<Record>, r: Record, x: Record)
    requires x in Inserted(budget, log, r)
    ensures x in log || (x == r && Size(r.entry.full) <= budget)
  {
    hide Bytes, Fit, Size, Remove;
    if Size(r.entry.full) <= budget {
      var all := Remove(log, r.id) + [r];
      var f := FitIsLongest(budget, all);
      assert x in all;
      RemovedFrom(log, r.id);
    }
  }

  /** An insertion that leaves no room for the head of a tail takes it out. */
  lemma InsertEvicts(budget: nat, before: seq<Record>, tail: seq<Record>, last: Record, x: Record)
    requires DistinctIds(before) && EndsWith(before, tail) && tail != [] && tail[0].id != last.id
    requires Size(last.entry.full) <= budget && Bytes(Remove(tail, last.id) + [last]) > budget
    requires x in Inserted(budget, before, last)
    ensures x.id != tail[0].id
  {
    hide Fit, Remove, Size, Bytes, DistinctIds;
    var head := before[..|before| - |tail|];
    assert before == head + tail;
    RemoveAppend(head, tail, last.id);
    RemoveHead(tail, last.id);
    var kept, more := Remove(head, last.id), Remove(tail, last.id) + [last];
    var all := Remove(before, last.id) + [last];
    assert all == kept + more && all[|kept|..] == more;
    InsertDistinct(before, last);
    var f := FitIsLongest(budget, all);
    if f <= |kept| {
      LongerIsLarger(all, f, |kept|);
    }
    var q :| 0 <= q < |all[f..]| && all[f..][q] == x;
    DistinctAt(all, |kept|, f + q);
  }

  lemma DistinctAt(log: seq<Record>, i: nat, j: nat)
    requires DistinctIds(log) && i < j < |log|
    ensures log[i].id != log[j].id
  {
  }

  lemma InsertDistinct(log: seq<Record>, r: Record)
    requires DistinctIds(log)
    ensures DistinctIds(Remove(log, r.id) + [r])
  {
    hide Bytes, Remove;
    RemoveKeeps(log, r.id);
    var kept := Remove(log, r.id);
    forall i | 0 <= i < |kept|
      ensures kept[i].id != r.id
    {
      assert kept[i] in kept;
    }
  }

  /** Once something of the batch had to give way, a record that is not
      replaced is gone for good. */
  lemma {:induction false} GoneForGood(budget: nat, log: seq<Record>, r: Record, rest: seq<Record>, x: Record)
    requires Contents(budget, log) && Size(r.entry.full) <= budget && NoneAccepted(budget, rest, r.id)
    requires !AlwaysFits(budget, [r] + rest) && x in Replay(budget, log, [r] + rest)
    ensures x.id != r.id
    decreases |rest|
  {
    hide Size, NoneAccepted, AlwaysFits, Contents, Latest, Replay, Inserted, Remove;
    var more := [r] + rest;
    AlwaysFitsLast(budget, more);
    var front := more[..|more| - 1];
    var before := Replay(budget, log, front);
    ReplayLast(budget, log, more);
    if rest == [] {
      AloneFits(budget, r);
    } else {
      var last := rest[|rest| - 1];
      assert front == [r] + rest[..|rest| - 1] && last == more[|more| - 1];
      NoneFront(budget, rest, r.id);
      if !AlwaysFits(budget, front) {
        InsertedFrom(budget, before, last, x);
        if x in before {
          GoneForGood(budget, log, r, rest[..|rest| - 1], x);
        }
      } else {
        LatestSurvives(budget, log, front);
        LatestHead(budget, r, rest[..|rest| - 1]);
        AlwaysFitsWhole(budget, front);
        LatestLast(budget, more);
        ContentsDistinct(budget, log, front);
        InsertEvicts(budget, before, Latest(budget, front), last, x);
      }
    }
  }

  lemma ReplayLast(budget: nat, log: seq<Record>, more: seq<Record>)
    requires more != []
    ensures Replay(budget, log, more) == Inserted(budget, Replay(budget, log, more[..|more| - 1]), more[|more| - 1])
  {
    hide Inserted;
  }

  lemma LatestLast(budget: nat, more: seq<Record>)
    requires more != []
    ensures var before, last := Latest(budget, more[..|more| - 1]), more[|more| - 1];
            Latest(budget, more) == if Size(last.entry.full) > budget then before else Remove(before, last.id) + [last]
  {
    hide Size, Remove;
  }

  lemma AlwaysFitsWhole(budget: nat, more: seq<Record>)
    requires AlwaysFits(budget, more)
    ensures Bytes(Latest(budget, more)) <= budget
  {
    hide FitsAt;
    FitsAtEnd(budget, more);
  }

  lemma ContentsDistinct(budget: nat, log: seq<Record>, more: seq<Record>)
    requires Contents(budget, log)
    ensures DistinctIds(Replay(budget, log, more))
  {
    hide Bytes, Replay, DistinctIds;
    ReplayKeeps(budget, log, more);
  }

  lemma AloneFits(budget: nat, r: Record)
    requires Size(r.entry.full) <= budget
    ensures AlwaysFits(budget, [r] + [])
  {
    hide Size;
    assert [r] + [] == [r] && [r][..0] == [] && [r][..1] == [r];
    assert Latest(budget, []) == [] && Bytes([]) == 0;
    RemoveNothing(r.id);
    assert Latest(budget, [r]) == [r];
    assert Bytes([r]) == Bytes([]) + Size(r.entry.full);
    assert FitsAt(budget, [r], 0) && FitsAt(budget, [r], 1);
  }

  /** The last accepted record of an id decides what the id gives: nothing but
      that record, and that exactly if it and all that came after it were
      always small enough together. */
  lemma LastDecides(budget: nat, log: seq<Record>, more: seq<Record>, id: string, j: nat)
    requires Contents(budget, log) && LastOf(budget, more, id, j)
    ensures var after := Replay(budget, log, more);
            && (more[j] in after <==> AlwaysFits(budget, more[j..]))
            && (forall x :: x in after && x.id == id ==> x == more[j])
  {
    hide Size, Replay, AlwaysFits, NoneAccepted, Latest, Contents;
    var r, rest := more[j], more[j + 1..];
    var before, after := Replay(budget, log, more[..j]), Replay(budget, log, more);
    assert more[j..] == [r] + rest && more[..j] + more[j..] == more;
    ReplayAppend(budget, log, more[..j], more[j..]);
    ReplayKeeps(budget, log, more[..j]);
    forall x | x in after && x.id == id
      ensures AlwaysFits(budget, more[j..])
    {
      if !AlwaysFits(budget, more[j..]) {
        GoneForGood(budget, before, r, rest, x);
      }
    }
    if AlwaysFits(budget, more[j..]) {
      LatestSurvives(budget, before, more[j..]);
      LatestHead(budget, r, rest);
      HeadIn(after, Latest(budget, more[j..]));
      ContentsDistinct(budget, log, more);
      forall x | x in after && x.id == id
        ensures x == r
      {
        SameRecord(after, x, r);
      }
    }
  }

  lemma HeadIn(log: seq<Record>, tail: seq<Record>)
    requires EndsWith(log, tail) && tail != []
    ensures tail[0] in log
  {
    assert log[|log| - |tail|] == log[|log| - |tail|..][0];
  }

  lemma SameRecord(log: seq<Record>, x: Record, y: Record)
    requires DistinctIds(log) && x in log && y in log && x.id == y.id
    ensures x == y
  {
    var i :| 0 <= i < |log| && log[i] == x;
    var j :| 0 <= j < |log| && log[j] == y;
  }

  /** An id of which nothing is accepted gives what it gave before, if that is
      still there. */
  lemma {:induction false} NothingNew(budget: nat, log: seq<Record>, more: seq<Record>, x: Record)
    requires x in Replay(budget, log, more) && NoneAccepted(budget, more, x.id)
    ensures x in log
    decreases |more|
  {
    hide Size, NoneAccepted, Inserted;
    if more != [] {
      var front, last := more[..|more| - 1], more[|more| - 1];
      NoneFront(budget, more, x.id);
      InsertedFrom(budget, Replay(budget, log, front), last, x);
      NothingNew(budget, log, front, x);
    }
  }

  /** The contents after any insertions, whatever their ids: exactly the
      records that were accepted last under their id and have had room since.
      What the store held before counts as inserted first. */
  lemma HeldIff(budget: nat, log: seq<Record>, more: seq<Record>, x: Record)
    requires Contents(budget, log)
    ensures x in Replay(budget, log, more) <==> exists j: nat :: Kept(budget, log + more, x, j)
  {
    hide Size, Replay, AlwaysFits, LastOf, Contents;
    var all := log + more;
    ReplayAppend(budget, [], log, more);
    ReplayRebuilds(budget, log);
    NothingIsContents(budget);
    var last := LastAccepted(budget, all, x.id);
    match last {
      case None =>
        if x in Replay(budget, [], all) {
          NothingNew(budget, [], all, x);
        }
        NoLast(budget, all, x.id);
      case Some(j) =>
        LastDecides(budget, [], all, x.id, j);
        forall i | LastOf(budget, all, x.id, i)
          ensures i == j
        {
          LastUnique(budget, all, x.id, i, j);
        }
        LastIs(budget, all, x.id, j);
        assert AlwaysFits(budget, all[j..]) && x == all[j] ==> Kept(budget, all, x, j);
    }
  }

  lemma LastIs(budget: nat, more: seq<Record>, id: string, j: nat)
    requires LastOf(budget, more, id, j)
    ensures j < |more| && more[j].id == id
  {
  }

  lemma NothingIsContents(budget: nat)
    ensures Contents(budget, [])
  {
  }

  lemma NoLast(budget: nat, more: seq<Record>, id: string)
    requires NoneAccepted(budget, more, id)
    ensures forall j :: !LastOf(budget, more, id, j)
  {
    hide Size;
  }

  lemma NotAfter(budget: nat, more: seq<Record>, id: string, i: nat, j: nat)
    requires LastOf(budget, more, id, i) && i < j < |more|
    ensures !LastOf(budget, more, id, j)
  {
    hide Size;
    assert more[i + 1..][j - i - 1] == more[j];
  }

  lemma LastUnique(budget: nat, more: seq<Record>, id: string, i: nat, j: nat)
    requires LastOf(budget, more, id, i) && LastOf(budget, more, id, j)
    ensures i == j
  {
    hide Size;
    if i < j {
      NotAfter(budget, more, id, i, j);
    } else if j < i {
      NotAfter(budget, more, id, j, i);
    }
  }

  lemma FitsAlone(budget: nat, log: seq<Record>, x: Record)
    requires Contents(budget, log) && x in log
    ensures Size(x.entry.full) <= budget
  {
    var i :| 0 <= i < |log| && log[i] == x;
    EachFits(log, i);
  }

  /** What is found under an id after a batch: the last record of that id that
      the batch had accepted, be it a later one than the reader meant; or, if
      it had none accepted, what the store held under the id before. */
  lemma FoundUnder(budget: nat, log: seq<Record>, more: seq<Record>, x: Record)
    requires Contents(budget, log) && x in Replay(budget, log, more)
    ensures Newest(budget, more, x) || (x in log && NoneAccepted(budget, more, x.id))
  {
    hide Size, Replay, LastOf, NoneAccepted, Contents;
    var last := LastAccepted(budget, more, x.id);
    match last
    case None => NothingNew(budget, log, more, x);
    case Some(j) => LastIs(budget, more, x.id, j); LastDecides(budget, log, more, x.id, j);
  }

  /** A record of a batch is held afterwards exactly if it is what the batch
      had accepted last under its id, and has had room since. */
  lemma RetainedIff(budget: nat, log: seq<Record>, more: seq<Record>, k: nat)
    requires Contents(budget, log) && k < |more|
    ensures more[k] in Replay(budget, log, more) <==> exists j: nat :: Kept(budget, more, more[k], j)
  {
    hide Size, Replay, LastOf, NoneAccepted, Contents, AlwaysFits;
    var x := more[k];
    if j: nat :| Kept(budget, more, x, j) {
      LastDecides(budget, log, more, x.id, j);
    }
    if x in Replay(budget, log, more) {
      FoundUnder(budget, log, more, x);
      OldTextAccepted(budget, log, more, k, x);
      var j := NewestAt(budget, more, x);
      LastDecides(budget, log, more, x.id, j);
      assert Kept(budget, more, x, j);
    }
  }

  /** Reading the id of a record of the batch gives its text exactly if the
      last record accepted under the id has that text and has had room since. */
  lemma ReadsBackIff(budget: nat, log: seq<Record>, more: seq<Record>, k: nat)
    requires Contents(budget, log) && k < |more|
    ensures var after := Replay(budget, log, more);
            (exists x :: x in after && x.id == more[k].id && x.entry.full == more[k].entry.full) <==>
            TextKept(budget, more, more[k].id, more[k].entry.full)
  {
    hide Size, Replay, LastOf, NoneAccepted, Contents, AlwaysFits;
    var after, id, full := Replay(budget, log, more), more[k].id, more[k].entry.full;
    if TextKept(budget, more, id, full) {
      var j := TextAt(budget, more, id, full);
      LastDecides(budget, log, more, id, j);
    }
    forall x | x in after && x.id == id && x.entry.full == full
      ensures TextKept(budget, more, id, full)
    {
      FoundUnder(budget, log, more, x);
      OldTextAccepted(budget, log, more, k, x);
      var j := NewestAt(budget, more, x);
      LastDecides(budget, log, more, id, j);
    }
  }

  lemma TextAt(budget: nat, more: seq<Record>, id: string, full: string) returns (j: nat)
    requires TextKept(budget, more, id, full)
    ensures LastOf(budget, more, id, j) && j < |more| && more[j].id == id && more[j].entry.full == full
    ensures AlwaysFits(budget, more[j..])
  {
    hide AlwaysFits, Size, NoneAccepted;
    j :| LastOf(budget, more, id, j) && more[j].entry.full == full && AlwaysFits(budget, more[j..]);
  }

  lemma OldTextAccepted(budget: nat, log: seq<Record>, more: seq<Record>, k: nat, x: Record)
    requires Contents(budget, log) && k < |more| && x.entry.full == more[k].entry.full
    ensures x in log ==> !NoneAccepted(budget, more, more[k].id)
  {
    hide Size, Contents;
    if x in log {
      FitsAlone(budget, log, x);
    }
  }

  lemma NoneOfBoth(budget: nat, a: seq<Record>, b: seq<Record>, id: string)
    ensures NoneAccepted(budget, a + b, id) <==> NoneAccepted(budget, a, id) && NoneAccepted(budget, b, id)
  {
    hide Size;
    forall i | 0 <= i < |a| + |b|
      ensures (a + b)[i] == if i < |a| then a[i] else b[i - |a|]
    {
    }
    assert forall i :: 0 <= i < |b| ==> b[i] == (a + b)[|a| + i];
  }

  /** A first record that nothing replaces. */
  lemma FirstKept(budget: nat, r: Record, more: seq<Record>)
    requires NoneAccepted(budget, more, r.id)
    ensures TextKept(budget, [r] + more, r.id, r.entry.full) <==>
            Size(r.entry.full) <= budget && AlwaysFits(budget, [r] + more)
  {
    hide Size, AlwaysFits;
    var all := [r] + more;
    assert all[0..] == all && all[1..] == more;
    if Size(r.entry.full) <= budget {
      assert LastOf(budget, all, r.id, 0);
    }
    forall j: nat | 0 < j
      ensures !LastOf(budget, all, r.id, j)
    {
      NotInRest(budget, r, more, j);
    }
  }

  lemma NotInRest(budget: nat, r: Record, more: seq<Record>, j: nat)
    requires NoneAccepted(budget, more, r.id) && 0 < j
    ensures !LastOf(budget, [r] + more, r.id, j)
  {
    hide Size;
    assert j <= |more| ==> ([r] + more)[j] == more[j - 1];
  }

  // ----- batches of distinct ids -----

  lemma {:induction false} AcceptedPrefix(budget: nat, more: seq<Record>, n: nat)
    requires n <= |more|
    ensures Bytes(Accepted(budget, more[..n])) <= Bytes(Accepted(budget, more))
    decreases |more|
  {
    hide Size;
    if n == |more| {
      assert more[..n] == more;
    } else {
      var front, last := more[..|more| - 1], more[|more| - 1];
      assert front[..n] == more[..n];
      AcceptedPrefix(budget, front, n);
      BytesAppend(Accepted(budget, front), [last]);
    }
  }

  lemma {:induction false} LatestDistinct(budget: nat, more: seq<Record>)
    requires DistinctIds(more)
    ensures Latest(budget, more) == Accepted(budget, more)
  {
    hide Size, Remove;
    if more != [] {
      var front, last := more[..|more| - 1], more[|more| - 1];
      LatestDistinct(budget, front);
      assert front + [last] == more;
      AcceptedNew(budget, front, last);
      RemoveOthers(Accepted(budget, front), last.id);
    }
  }

  lemma AcceptedNew(budget: nat, front: seq<Record>, last: Record)
    requires DistinctIds(front + [last])
    ensures forall i :: 0 <= i < |Accepted(budget, front)| ==> Accepted(budget, front)[i].id != last.id
  {
    var a := Accepted(budget, front);
    forall i | 0 <= i < |a|
      ensures a[i].id != last.id
    {
      AcceptedFrom(budget, front, a[i]);
      var j :| 0 <= j < |front| && front[j] == a[i];
      assert (front + [last])[j].id != (front + [last])[|front|].id;
    }
  }

  /** Without repeated ids it is the end that decides. */
  lemma DistinctFits(budget: nat, more: seq<Record>)
    requires DistinctIds(more)
    ensures AlwaysFits(budget, more) <==> Bytes(Accepted(budget, more)) <= budget
  {
    hide Bytes, Latest, Accepted;
    forall n | 0 <= n <= |more|
      ensures Bytes(Latest(budget, more[..n])) <= Bytes(Accepted(budget, more))
    {
      LatestDistinct(budget, more[..n]);
      AcceptedPrefix(budget, more, n);
    }
    LatestDistinct(budget, more);
    FitsAtEnd(budget, more);
  }

  lemma DistinctNewest(budget: nat, more: seq<Record>, k: nat, x: Record)
    requires DistinctIds(more) && k < |more| && x.id == more[k].id
    ensures Newest(budget, more, x) ==> x == more[k]
    ensures NoneAccepted(budget, more, x.id) ==> Size(more[k].entry.full) > budget
  {
    hide Size;
  }

  /** A record of a batch of distinct ids is kept exactly if it fits the budget
      together with everything accepted after it. */
  lemma DistinctKept(budget: nat, more: seq<Record>, k: nat)
    requires DistinctIds(more) && k < |more|
    ensures TextKept(budget, more, more[k].id, more[k].entry.full) <==>
            Size(more[k].entry.full) <= budget && Bytes(Accepted(budget, more[k..])) <= budget
  {
    hide Size, Bytes, Accepted, AlwaysFits;
    DistinctFits(budget, more[k..]);
    if Size(more[k].entry.full) <= budget {
      assert LastOf(budget, more, more[k].id, k);
    }
    forall j: nat | LastOf(budget, more, more[k].id, j)
      ensures j == k
    {
    }
  }

  /** A text that is refused leaves an older one of its id to be read. */
  lemma StaleRemains()
    ensures var old_ := Record("c", Entry("shell", "a"));
            var new_ := Record("c", Entry("shell", "bb"));
            Contents(1, [old_]) && Replay(1, [old_], [new_]) == [old_]
  {
    var old_ := Record("c", Entry("shell", "a"));
    var new_ := Record("c", Entry("shell", "bb"));
    SizeOne('a');
    SizeTwo('b');
    assert [old_][..0] == [] && [new_][..0] == [];
    assert Replay(1, [old_], []) == [old_];
  }

  /** Of two texts with one id the later is read. */
  lemma LaterWins(budget: nat, a: Record, b: Record)
    requires a.id == b.id && Size(a.entry.full) <= budget && Size(b.entry.full) <= budget
    ensures Replay(budget, [], [a, b]) == [b]
  {
    hide Size;
    assert [a, b][..1] == [a] && [a][..0] == [] && [b][..0] == [];
    assert Replay(budget, [], []) == [];
    FitsOne(budget, a);
    FitsOne(budget, b);
    assert Remove([], a.id) == [] && Remove([a], b.id) == [];
    assert [] + [a] == [a] && [] + [b] == [b];
    assert Replay(budget, [], [a]) == [a];
  }

  lemma FitsOne(budget: nat, r: Record)
    requires Size(r.entry.full) <= budget
    ensures Fit(budget, [r]) == [r]
  {
    hide Size;
    assert [r][..0] == [];
    assert Bytes([]) == 0;
  }

  lemma SizeOne(c: char)
    ensures Size([c]) == Width(c)
  {
    assert [c][..0] == "";
  }

  /** One, two, three and four bytes. */
  lemma SizeMixed()
    ensures Size("a\U{00E9}\U{20AC}\U{1F600}") == 10
  {
    var text := "a\U{00E9}\U{20AC}\U{1F600}";
    assert text[..3][..2][..1][..0] == "";
    assert text[..3] == "a\U{00E9}\U{20AC}" && text[..3][..2] == "a\U{00E9}" && text[..3][..2][..1] == "a";
    assert Size(text[..3][..2][..1]) == 1 && Size(text[..3][..2]) == 3 && Size(text[..3]) == 6;
  }

  lemma SizeTwo(c: char)
    ensures Size([c, c]) == 2 * Width(c)
  {
    SizeOne(c);
    assert [c, c][..1] == [c];
  }

  // ----- the object -----

  class TruncationStore {
    var entries: map<string, Entry>
    var order: seq<string>
    var bytes: nat
    const budget: nat

    ghost predicate Consistent()
      reads this
    {
      && Unrepeated(order)
      && (forall id :: id in order <==> id in entries)
    }

    ghost function View(): (log: seq<Record>)
      reads this
      requires forall id :: id in order ==> id in entries
    {
      Listed(order, entries)
    }

    ghost predicate Valid()
      reads this
    {
      Consistent() && bytes == Bytes(View()) && bytes <= budget
    }

    constructor (budget: nat)
      ensures Valid() && View() == [] && this.budget == budget
    {
      entries, order, bytes := map[], [], 0;
      this.budget := budget;
    }

    method Insert(id: string, toolName: string, full: string)
      requires Valid()
      modifies this
      ensures Valid() && View() == Inserted(budget, old(View()), Record(id, Entry(toolName, full)))
    {
      hide Size, Bytes, Remove, Fit;
      if Size(full) > budget {
        return;
      }
      ghost var log := View();
      ghost var r := Record(id, Entry(toolName, full));
      Drop(id);
      ghost var kept := View();
      ListedInsert(order, entries, id, Entry(toolName, full));
      BytesAdded(kept, r);
      bytes := bytes + Size(full);
      entries := entries[id := Entry(toolName, full)];
      order := order + [id];
      assert View() == Remove(log, id) + [r];
      Evict();
    }

    method Drop(id: string)
      requires Valid()
      modifies this
      ensures Valid() && View() == Remove(old(View()), id) && id !in entries
    {
      ListedRemove(order, entries, id);
      if id in entries {
        bytes := bytes - Size(entries[id].full);
        entries := entries - {id};
        order := Except(order, id);
      } else {
        RemoveOthers(View(), id);
      }
    }

    method Evict()
      requires Consistent() && bytes == Bytes(View())
      modifies this`entries, this`order, this`bytes
      ensures Valid() && View() == Fit(budget, old(View()))
    {
      ghost var all := View();
      while bytes > budget
        invariant Consistent() && bytes == Bytes(View()) && Fit(budget, View()) == Fit(budget, all)
        decreases |order|
      {
        BytesFirst(View());
        ListedFirst(order, entries);
        var oldest := order[0];
        bytes := bytes - Size(entries[oldest].full);
        entries := entries - {oldest};
        order := order[1..];
      }
    }

    method Get(id: string) returns (r: Option<Entry>)
      requires Valid()
      ensures r.Some? ==> Record(id, r.value) in View()
      ensures r.None? ==> forall x :: x in View() ==> x.id != id
    {
      if id in entries {
        var i :| 0 <= i < |order| && order[i] == id;
        assert View()[i] == Record(id, entries[id]);
        r := Some(entries[id]);
      } else {
        r := None;
      }
    }

    /** The records as written to disk, oldest first. */
    method Save() returns (records: seq<Record>)
      requires Valid()
      ensures records == View()
    {
      records := [];
      for i := 0 to |order|
        invariant records == View()[..i]
      {
        if order[i] in entries {
          records := records + [Record(order[i], entries[order[i]])];
        }
      }
    }

    /** An independent copy. */
    method Snapshot() returns (copy: TruncationStore)
      requires Valid()
      ensures fresh(copy) && copy.Valid() && copy.budget == budget && copy.View() == View()
    {
      var records := Save();
      ValidContents(this);
      ReplayRebuilds(budget, records);
      copy := Load(records, budget);
    }
  }

  method Load(records: seq<Record>, budget: nat) returns (store: TruncationStore)
    ensures fresh(store) && store.Valid() && store.budget == budget && store.View() == Replay(budget, [], records)
  {
    store := new TruncationStore(budget);
    for i := 0 to |records|
      invariant fresh(store) && store.Valid() && store.budget == budget
                && store.View() == Replay(budget, [], records[..i])
    {
      assert records[..i + 1][..i] == records[..i];
      store.Insert(records[i].id, records[i].entry.toolName, records[i].entry.full);
    }
    assert records[..|records|] == records;
  }

  /** Saving and loading at the same budget gives the same store. */
  method SaveAndLoad(store: TruncationStore) returns (again: TruncationStore)
    requires store.Valid()
    ensures fresh(again) && again.Valid() && again.View() == store.View()
  {
    var records := store.Save();
    ValidContents(store);
    ReplayRebuilds(store.budget, records);
    again := Load(records, store.budget);
  }

  lemma ValidContents(store: TruncationStore)
    requires store.Valid()
    ensures Contents(store.budget, store.View())
  {
  }

  ghost function Listed(order: seq<string>, entries: map<string, Entry>): (log: seq<Record>)
    requires forall id :: id in order ==> id in entries
    ensures |log| == |order|
  {
    seq(|order|, i requires 0 <= i < |order| => Record(order[i], entries[order[i]]))
  }

  function Except(order: seq<string>, id: string): seq<string> {
    if order == [] then []
    else
      var before := Except(order[..|order| - 1], id);
      if order[|order| - 1] == id then before else before + [order[|order| - 1]]
  }

  lemma {:induction false} ExceptMeaning(order: seq<string>, id: string)
    requires Unrepeated(order)
    ensures forall x :: x in Except(order, id) <==> x in order && x != id
    ensures Unrepeated(Except(order, id))
  {
    if order != [] {
      var front, last := order[..|order| - 1], order[|order| - 1];
      ExceptMeaning(front, id);
      assert order == front + [last];
      forall i | 0 <= i < |Except(front, id)|
        ensures Except(front, id)[i] != last
      {
        assert Except(front, id)[i] in front;
      }
    }
  }

  ghost predicate Unrepeated(order: seq<string>) {
    forall i, j :: 0 <= i < j < |order| ==> order[i] != order[j]
  }

  lemma ListedRemove(order: seq<string>, entries: map<string, Entry>, id: string)
    requires (forall x :: x in order ==> x in entries) && Unrepeated(order)
    ensures forall x :: x in Except(order, id) <==> x in order && x != id
    ensures Unrepeated(Except(order, id))
    ensures Listed(Except(order, id), entries - {id}) == Remove(Listed(order, entries), id)
    ensures id in order ==>
              Bytes(Remove(Listed(order, entries), id)) + Size(entries[id].full) == Bytes(Listed(order, entries))
    ensures id !in order ==> Remove(Listed(order, entries), id) == Listed(order, entries)
  {
    ExceptMeaning(order, id);
    ListedExcept(order, entries, id);
    RemovedBytes(order, entries, id);
    if id !in order {
      RemoveOthers(Listed(order, entries), id);
    }
  }

  lemma {:induction false} ListedExcept(order: seq<string>, entries: map<string, Entry>, id: string)
    requires (forall x :: x in order ==> x in entries) && Unrepeated(order)
    ensures forall x :: x in Except(order, id) ==> x in entries - {id}
    ensures Listed(Except(order, id), entries - {id}) == Remove(Listed(order, entries), id)
  {
    hide Bytes, Size;
    ExceptMeaning(order, id);
    if order != [] {
      var front, last := order[..|order| - 1], order[|order| - 1];
      ListedExcept(front, entries, id);
      RemoveFront(order, entries, id);
    }
  }

  lemma {:induction false} RemovedBytes(order: seq<string>, entries: map<string, Entry>, id: string)
    requires (forall x :: x in order ==> x in entries) && Unrepeated(order)
    ensures Bytes(Listed(order, entries))
            == Bytes(Remove(Listed(order, entries), id)) + if id in order then Size(entries[id].full) else 0
  {
    hide Remove, Size;
    if order == [] {
      assert Listed(order, entries) == [];
      RemoveOthers([], id);
    } else {
      var front, last := order[..|order| - 1], order[|order| - 1];
      RemovedBytes(front, entries, id);
      RemoveFront(order, entries, id);
      assert order == front + [last];
    }
  }

  /** Both listings lose or keep their last element together. */
  lemma RemoveFront(order: seq<string>, entries: map<string, Entry>, id: string)
    requires order != [] && (forall x :: x in order ==> x in entries)
    ensures var front, last := order[..|order| - 1], order[|order| - 1];
            && Listed(order, entries) == Listed(front, entries) + [Record(last, entries[last])]
            && Remove(Listed(order, entries), id)
               == (if last == id then Remove(Listed(front, entries), id)
                   else Remove(Listed(front, entries), id) + [Record(last, entries[last])])
            && Bytes(Listed(order, entries)) == Bytes(Listed(front, entries)) + Size(entries[last].full)
            && Bytes(Remove(Listed(order, entries), id))
               == Bytes(Remove(Listed(front, entries), id)) + (if last == id then 0 else Size(entries[last].full))
  {
    var front, last := order[..|order| - 1], order[|order| - 1];
    var log := Listed(order, entries);
    assert log[..|log| - 1] == Listed(front, entries);
    var before := Remove(Listed(front, entries), id);
    assert (before + [Record(last, entries[last])])[..|before|] == before;
  }

  lemma ListedInsert(order: seq<string>, entries: map<string, Entry>, id: string, e: Entry)
    requires (forall x :: x in order ==> x in entries) && id !in order
    ensures Listed(order + [id], entries[id := e]) == Listed(order, entries) + [Record(id, e)]
  {
  }

  lemma ListedFirst(order: seq<string>, entries: map<string, Entry>)
    requires order != [] && forall x :: x in order ==> x in entries
    requires Unrepeated(order)
    ensures forall x :: x in order[1..] ==> x in entries - {order[0]}
    ensures Listed(order[1..], entries - {order[0]}) == Listed(order, entries)[1..]
  {
  }
}
