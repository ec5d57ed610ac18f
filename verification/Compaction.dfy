/** Replacing the head of a conversation by a summary, with its large outputs
    kept aside, and reading them back in slices. */
module Compaction {
  import opened Wrappers
  import opened Transcript
  import S = Store

  const ELIDE_MIN_BYTES := 256
  const HINT_CHARS := 120
  const APPROX_BYTES_PER_TOKEN := 4

  /** What serialisation says of messages and outputs: the size of a message,
      the text of an output without its images, and how many it has. */
  datatype Codec = Codec(bytes: Message -> nat, serial: Output -> string, images: Output -> nat)

  // ----- the cut -----

  function TokensOf(c: Codec, m: Message): nat {
    c.bytes(m) / APPROX_BYTES_PER_TOKEN
  }

  function Tokens(c: Codec, ms: seq<Message>): nat {
    if ms == [] then 0 else TokensOf(c, ms[0]) + Tokens(c, ms[1..])
  }

  function TotalBytes(c: Codec, ms: seq<Message>): nat {
    if ms == [] then 0 else c.bytes(ms[0]) + TotalBytes(c, ms[1..])
  }

  /** Four bytes count as a token, with less than one token lost a message. */
  lemma {:induction false} TokensMeaning(c: Codec, ms: seq<Message>)
    ensures 4 * Tokens(c, ms) <= TotalBytes(c, ms) <= 4 * Tokens(c, ms) + 3 * |ms|
  {
    if ms != [] {
      TokensMeaning(c, ms[1..]);
    }
  }

  /** Where the budget is spent, counting back from the end. */
  ghost predicate BudgetCut(c: Codec, ms: seq<Message>, budget: nat, start: nat, raw: nat) {
    && start <= raw <= |ms|
    && Tokens(c, ms[raw..]) <= budget
    && (raw > start ==> Tokens(c, ms[raw - 1..]) > budget)
  }

  /** The first index from `raw` on that is not a result message. */
  ghost predicate BoundaryCut(ms: seq<Message>, raw: nat, cut: nat) {
    && raw <= cut <= |ms|
    && (forall k :: raw <= k < cut ==> ms[k].Tool?)
    && (cut < |ms| ==> !ms[cut].Tool?)
  }

  /** The cut the budget allows, moved forward to a safe boundary. */
  ghost predicate TailCut(c: Codec, ms: seq<Message>, budget: nat, start: nat, cut: nat) {
    exists raw :: BudgetCut(c, ms, budget, start, raw) && BoundaryCut(ms, raw, cut)
  }

  method FindTailCut(c: Codec, ms: seq<Message>, budget: nat, start: nat) returns (cut: nat)
    requires start <= |ms|
    ensures TailCut(c, ms, budget, start, cut)
    ensures start <= cut <= |ms| && (cut < |ms| ==> !ms[cut].Tool?)
  {
    var acc := 0;
    cut := |ms|;
    var index := |ms|;
    assert ms[|ms|..] == [];
    while index > start
      invariant start <= index <= |ms| && cut == index
      invariant acc == Tokens(c, ms[index..]) <= budget
    {
      assert ms[index - 1..][1..] == ms[index..];
      acc := acc + TokensOf(c, ms[index - 1]);
      if acc > budget {
        break;
      }
      index := index - 1;
      cut := index;
    }
    ghost var raw := cut;
    while cut < |ms| && ms[cut].Tool?
      invariant raw <= cut <= |ms| && forall k :: raw <= k < cut ==> ms[k].Tool?
    {
      cut := cut + 1;
    }
    assert BudgetCut(c, ms, budget, start, raw) && BoundaryCut(ms, raw, cut);
  }

  // ----- eliding results -----

  predicate Large(c: Codec, r: ToolResult) {
    S.Size(c.serial(r.output)) >= ELIDE_MIN_BYTES || c.images(r.output) != 0
  }

  /** An output of 256 bytes or more, or with an image. */
  ghost predicate Bulky(c: Codec, output: Output) {
    S.Size(c.serial(output)) >= 256 || c.images(output) > 0
  }

  /** What comes back for a result: a bulky one is a stub with the first 120
      characters and its own id, any other is as it was. */
  ghost predicate ElidedRight(c: Codec, r: ToolResult, o: ToolResult) {
    var full := c.serial(r.output);
    if Bulky(c, r.output) then
      o == ToolResult(r.callId, r.toolName,
                      Stub(if |full| > 120 then full[..120] else full, r.callId, c.images(r.output)), r.isError)
    else o == r
  }

  ghost predicate MessageRight(c: Codec, m: Message, o: Message) {
    if m.Tool? then
      && o.Tool? && |o.results| == |m.results|
      && forall j :: 0 <= j < |m.results| ==> ElidedRight(c, m.results[j], o.results[j])
    else o == m
  }

  lemma ElidedMeaning(c: Codec, ms: seq<Message>, i: nat)
    requires i < |ms|
    ensures MessageRight(c, ms[i], ElidedMessages(c, ms)[i])
  {
  }

  /** A bulky result and its place. */
  datatype Place = Place(message: nat, result: nat)

  ghost predicate BulkyAt(c: Codec, ms: seq<Message>, p: Place) {
    && p.message < |ms| && ms[p.message].Tool? && p.result < |ms[p.message].results|
    && Bulky(c, ms[p.message].results[p.result].output)
  }

  ghost predicate Precedes(a: Place, b: Place) {
    a.message < b.message || (a.message == b.message && a.result < b.result)
  }

  /** The record keeps the whole text under the result's own id. */
  ghost predicate KeepsText(c: Codec, ms: seq<Message>, p: Place, x: S.Record) {
    && p.message < |ms| && ms[p.message].Tool? && p.result < |ms[p.message].results|
    && var r := ms[p.message].results[p.result];
       x == S.Record(r.callId, S.Entry(r.toolName, c.serial(r.output)))
  }

  /** The records are those of all bulky results and no others, in order. */
  ghost predicate Listed(c: Codec, ms: seq<Message>, records: seq<S.Record>, places: seq<Place>) {
    && |places| == |records|
    && (forall k :: 0 <= k < |places| ==> BulkyAt(c, ms, places[k]) && KeepsText(c, ms, places[k], records[k]))
    && (forall k, l :: 0 <= k < l < |places| ==> Precedes(places[k], places[l]))
    && forall p :: BulkyAt(c, ms, p) ==> p in places
  }

  ghost predicate MessagesRight(c: Codec, ms: seq<Message>, out: seq<Message>) {
    |out| == |ms| && forall i :: 0 <= i < |ms| ==> MessageRight(c, ms[i], out[i])
  }

  /** The ids are those of the records of all bulky results, which went into
      the store one after the other. */
  ghost predicate HeadStored(c: Codec, ms: seq<Message>, ids: seq<string>, budget: nat, log: seq<S.Record>,
                             after: seq<S.Record>)
  {
    exists records, places ::
      Listed(c, ms, records, places) && ids == IdsOf(records) && after == S.Replay(budget, log, records)
  }

  lemma {:induction false} OriginalsListed(c: Codec, ms: seq<Message>, i: nat, n: nat) returns (places: seq<Place>)
    requires i < |ms| && ms[i].Tool? && n <= |ms[i].results|
    ensures |places| == |Originals(c, ms[i].results[..n])|
    ensures forall k :: 0 <= k < |places| ==>
              && places[k].message == i && places[k].result < n && BulkyAt(c, ms, places[k])
              && KeepsText(c, ms, places[k], Originals(c, ms[i].results[..n])[k])
    ensures forall k, l :: 0 <= k < l < |places| ==> Precedes(places[k], places[l])
    ensures forall p :: BulkyAt(c, ms, p) && p.message == i && p.result < n ==> p in places
    decreases n
  {
    hide S.Size;
    if n == 0 {
      places := [];
    } else {
      places := OriginalsListed(c, ms, i, n - 1);
      assert ms[i].results[..n][..n - 1] == ms[i].results[..n - 1];
      if Large(c, ms[i].results[n - 1]) {
        places := places + [Place(i, n - 1)];
      }
    }
  }

  lemma {:induction false} AllListed(c: Codec, ms: seq<Message>, n: nat) returns (places: seq<Place>)
    requires n <= |ms|
    ensures |places| == |AllOriginals(c, ms[..n])|
    ensures forall k :: 0 <= k < |places| ==>
              && places[k].message < n && BulkyAt(c, ms, places[k])
              && KeepsText(c, ms, places[k], AllOriginals(c, ms[..n])[k])
    ensures forall k, l :: 0 <= k < l < |places| ==> Precedes(places[k], places[l])
    ensures forall p :: BulkyAt(c, ms, p) && p.message < n ==> p in places
    decreases n
  {
    hide Originals, Bulky;
    if n == 0 {
      places := [];
    } else {
      places := AllListed(c, ms, n - 1);
      assert ms[..n][..n - 1] == ms[..n - 1];
      if ms[n - 1].Tool? {
        var more := OriginalsListed(c, ms, n - 1, |ms[n - 1].results|);
        assert ms[n - 1].results[..|ms[n - 1].results|] == ms[n - 1].results;
        places := places + more;
      }
    }
  }

  /** Compaction stores the texts of all bulky results, and nothing else, in
      the order of the conversation. */
  lemma OriginalsMeaning(c: Codec, ms: seq<Message>) returns (places: seq<Place>)
    ensures Listed(c, ms, AllOriginals(c, ms), places)
  {
    hide AllOriginals, BulkyAt, KeepsText, Precedes;
    places := AllListed(c, ms, |ms|);
    assert ms[..|ms|] == ms;
    PlacesInside(c, ms);
  }

  lemma PlacesInside(c: Codec, ms: seq<Message>)
    ensures forall p :: BulkyAt(c, ms, p) ==> p.message < |ms|
  {
  }

  function StubOf(c: Codec, r: ToolResult): ToolResult {
    var full := c.serial(r.output);
    r.(output := Stub(if |full| <= HINT_CHARS then full else full[..HINT_CHARS], r.callId, c.images(r.output)))
  }

  function RecordOf(c: Codec, r: ToolResult): S.Record {
    S.Record(r.callId, S.Entry(r.toolName, c.serial(r.output)))
  }

  function ElidedResults(c: Codec, rs: seq<ToolResult>): (out: seq<ToolResult>)
    ensures |out| == |rs|
  {
    seq(|rs|, k requires 0 <= k < |rs| => if Large(c, rs[k]) then StubOf(c, rs[k]) else rs[k])
  }

  /** The originals of the elided results, in order. */
  function Originals(c: Codec, rs: seq<ToolResult>): seq<S.Record> {
    if rs == [] then []
    else
      var before := Originals(c, rs[..|rs| - 1]);
      if Large(c, rs[|rs| - 1]) then before + [RecordOf(c, rs[|rs| - 1])] else before
  }

  function AllOriginals(c: Codec, ms: seq<Message>): seq<S.Record> {
    if ms == [] then []
    else
      var before := AllOriginals(c, ms[..|ms| - 1]);
      if ms[|ms| - 1].Tool? then before + Originals(c, ms[|ms| - 1].results) else before
  }

  function ElidedMessages(c: Codec, ms: seq<Message>): (out: seq<Message>)
    ensures |out| == |ms|
  {
    seq(|ms|, k requires 0 <= k < |ms| =>
          if ms[k].Tool? then ms[k].(results := ElidedResults(c, ms[k].results)) else ms[k])
  }

  function IdsOf(records: seq<S.Record>): (ids: seq<string>)
    ensures |ids| == |records|
  {
    seq(|records|, k requires 0 <= k < |records| => records[k].id)
  }

  method ElideOne(c: Codec, rs: seq<ToolResult>, store: S.TruncationStore, ids: seq<string>)
    returns (out: seq<ToolResult>, ids': seq<string>)
    requires store.Valid()
    modifies store
    ensures store.Valid() && store.View() == S.Replay(store.budget, old(store.View()), Originals(c, rs))
    ensures out == ElidedResults(c, rs) && ids' == ids + IdsOf(Originals(c, rs))
  {
    hide Originals, IdsOf, S.Replay, Large, StubOf, ElidedResults, S.Inserted;
    out, ids' := [], ids;
    NothingStored(c, rs, store, ids);
    for k := 0 to |rs|
      invariant store.Valid() && store.View() == S.Replay(store.budget, old(store.View()), Originals(c, rs[..k]))
      invariant out == ElidedResults(c, rs)[..k]
      invariant ids' == ids + IdsOf(Originals(c, rs[..k]))
    {
      NextOriginal(c, rs, k);
      NextElided(c, rs, k);
      ghost var before := Originals(c, rs[..k]);
      if Large(c, rs[k]) {
        var full := c.serial(rs[k].output);
        store.Insert(rs[k].callId, rs[k].toolName, full);
        ReplayOne(store.budget, old(store.View()), before, RecordOf(c, rs[k]));
        out := out + [StubOf(c, rs[k])];
        ids' := ids' + [rs[k].callId];
      } else {
        out := out + [rs[k]];
      }
    }
    assert rs[..|rs|] == rs;
  }

  lemma NothingStored(c: Codec, rs: seq<ToolResult>, store: S.TruncationStore, ids: seq<string>)
    requires store.Valid()
    ensures Originals(c, rs[..0]) == [] && ids + IdsOf([]) == ids
    ensures S.Replay(store.budget, store.View(), []) == store.View()
  {
  }

  lemma NextElided(c: Codec, rs: seq<ToolResult>, k: nat)
    requires k < |rs|
    ensures ElidedResults(c, rs)[..k + 1]
            == ElidedResults(c, rs)[..k] + [if Large(c, rs[k]) then StubOf(c, rs[k]) else rs[k]]
  {
    hide Large, StubOf;
  }

  lemma NextOriginal(c: Codec, rs: seq<ToolResult>, k: nat)
    requires k < |rs|
    ensures var before := Originals(c, rs[..k]);
            && Originals(c, rs[..k + 1]) == (if Large(c, rs[k]) then before + [RecordOf(c, rs[k])] else before)
            && IdsOf(before + [RecordOf(c, rs[k])]) == IdsOf(before) + [rs[k].callId]
  {
    hide Large;
    assert rs[..k + 1][..k] == rs[..k];
  }

  lemma ReplayOne(budget: nat, log: seq<S.Record>, before: seq<S.Record>, r: S.Record)
    ensures S.Replay(budget, log, before + [r]) == S.Inserted(budget, S.Replay(budget, log, before), r)
  {
    hide S.Inserted;
    assert (before + [r])[..|before|] == before;
  }

  method ElideToolResults(c: Codec, ms: seq<Message>, store: S.TruncationStore)
    returns (out: seq<Message>, ids: seq<string>)
    requires store.Valid()
    modifies store
    ensures store.Valid() && store.View() == S.Replay(store.budget, old(store.View()), AllOriginals(c, ms))
    ensures out == ElidedMessages(c, ms) && ids == IdsOf(AllOriginals(c, ms))
    ensures MessagesRight(c, ms, out) && HeadStored(c, ms, ids, store.budget, old(store.View()), store.View())
  {
    hide Originals, AllOriginals, ElidedMessages, IdsOf, S.Replay, Listed, MessageRight, HeadStored;
    out, ids := [], [];
    NothingElided(c, ms, store);
    for k := 0 to |ms|
      invariant store.Valid() && store.View() == S.Replay(store.budget, old(store.View()), AllOriginals(c, ms[..k]))
      invariant out == ElidedMessages(c, ms)[..k]
      invariant ids == IdsOf(AllOriginals(c, ms[..k]))
    {
      NextOriginals(c, ms, k);
      NextMessage(c, ms, k);
      if ms[k].Tool? {
        ghost var before, more := AllOriginals(c, ms[..k]), Originals(c, ms[k].results);
        var rs;
        rs, ids := ElideOne(c, ms[k].results, store, ids);
        out := out + [ms[k].(results := rs)];
        S.ReplayAppend(store.budget, old(store.View()), before, more);
        IdsAppend(before, more);
      } else {
        out := out + [ms[k]];
      }
    }
    assert ms[..|ms|] == ms;
    forall i | 0 <= i < |ms|
      ensures MessageRight(c, ms[i], out[i])
    {
      ElidedMeaning(c, ms, i);
    }
    ghost var places := OriginalsMeaning(c, ms);
    StoredDef(c, ms, AllOriginals(c, ms), places, store.budget, old(store.View()));
  }

  lemma StoredDef(c: Codec, ms: seq<Message>, records: seq<S.Record>, places: seq<Place>, budget: nat,
                  log: seq<S.Record>)
    requires Listed(c, ms, records, places)
    ensures HeadStored(c, ms, IdsOf(records), budget, log, S.Replay(budget, log, records))
  {
    hide Listed, IdsOf, S.Replay;
  }

  lemma NextMessage(c: Codec, ms: seq<Message>, k: nat)
    requires k < |ms|
    ensures ElidedMessages(c, ms)[..k + 1]
            == ElidedMessages(c, ms)[..k]
               + [if ms[k].Tool? then ms[k].(results := ElidedResults(c, ms[k].results)) else ms[k]]
  {
    hide ElidedResults;
  }

  lemma NothingElided(c: Codec, ms: seq<Message>, store: S.TruncationStore)
    requires store.Valid()
    ensures AllOriginals(c, ms[..0]) == [] && IdsOf([]) == []
            && S.Replay(store.budget, store.View(), []) == store.View()
  {
  }

  lemma NextOriginals(c: Codec, ms: seq<Message>, k: nat)
    requires k < |ms|
    ensures AllOriginals(c, ms[..k + 1])
            == if ms[k].Tool? then AllOriginals(c, ms[..k]) + Originals(c, ms[k].results) else AllOriginals(c, ms[..k])
  {
    hide Originals;
    assert ms[..k + 1][..k] == ms[..k];
  }

  lemma IdsAppend(a: seq<S.Record>, b: seq<S.Record>)
    ensures IdsOf(a + b) == IdsOf(a) + IdsOf(b)
  {
  }

  // ----- compaction -----

  function Start(ms: seq<Message>): nat {
    if ms != [] && ms[0].System? then 1 else 0
  }

  datatype Compacted = Compacted(context: seq<Message>, elided: seq<string>, head: nat)

  /** Rebuilds the context as system prompt, summary and verbatim tail. The
      result is paired whenever the context was, for every tail budget. */
  method Compact(c: Codec, ms: seq<Message>, store: S.TruncationStore, budget: nat,
                 summary: (seq<Message>, seq<string>) -> string)
    returns (r: Option<Compacted>, ghost cut: nat)
    requires store.Valid()
    modifies store
    ensures store.Valid()
    ensures Start(ms) <= cut <= |ms| && TailCut(c, ms, budget, Start(ms), cut)
    ensures r.None? <==> cut <= Start(ms) + 1
    ensures r.None? ==> store.View() == old(store.View())
    ensures r.Some? ==>
              var head := ms[Start(ms)..cut];
              && store.View() == S.Replay(store.budget, old(store.View()), AllOriginals(c, head))
              && r.value.elided == IdsOf(AllOriginals(c, head))
              && r.value.head == |head|
              && r.value.context == ms[..Start(ms)]
                                    + [User(summary(ElidedMessages(c, head), r.value.elided), [])] + ms[cut..]
    ensures r.Some? ==>
              && ms != []
              && r.value.context != []
              && (if ms[0].System? then r.value.context[0] == ms[0] else r.value.context[0].User?)
              && var head := ms[cut - r.value.head..cut];
                 && MessagesRight(c, head, ElidedMessages(c, head))
                 && HeadStored(c, head, r.value.elided, store.budget, old(store.View()), store.View())
    ensures r.Some? && Paired(ms) ==> Paired(r.value.context)
  {
    hide AllOriginals, ElidedMessages, Paired, MessagesRight, HeadStored, S.Replay;
    var start := Start(ms);
    var at := FindTailCut(c, ms, budget, start);
    cut := at;
    if at <= start + 1 {
      return None, cut;
    }
    var head, ids := ElideToolResults(c, ms[start..at], store);
    var note := summary(head, ids);
    var rebuilt: seq<Message> := [];
    if ms != [] && ms[0].System? {
      rebuilt := rebuilt + [ms[0]];
    }
    assert rebuilt == ms[..start];
    rebuilt := rebuilt + [User(note, [])];
    RebuiltPaired(ms, start, at, note);
    rebuilt := AppendTail(rebuilt, ms, at);
    r := Some(Compacted(rebuilt, ids, at - start));
  }

  method AppendTail(front: seq<Message>, ms: seq<Message>, cut: nat) returns (all: seq<Message>)
    requires cut <= |ms|
    ensures all == front + ms[cut..]
  {
    all := front;
    for k := cut to |ms|
      invariant all == front + ms[cut..k]
    {
      all := all + [ms[k]];
    }
  }

  lemma RebuiltPaired(ms: seq<Message>, start: nat, cut: nat, note: string)
    requires start == Start(ms) && cut <= |ms| && (cut < |ms| ==> !ms[cut].Tool?) && start <= |ms|
    ensures Paired(ms) ==> Paired(ms[..start] + [User(note, [])] + ms[cut..])
  {
    if Paired(ms) {
      SuffixPaired(ms, cut);
      FrontPaired(ms[..start] + [User(note, [])], ms[cut..]);
    }
  }

  // ----- reading back in slices -----

  datatype Slice = Slice(toolName: string, totalChars: nat, offset: nat, content: string, hasMore: bool,
                         nextOffset: Option<nat>)

  /** Between one character and the reader's cap. */
  function Clamp(n: nat, cap: nat): nat
    requires cap >= 1
  {
    if n < 1 then 1 else if n > cap then cap else n
  }

  function ReadSlice(entry: S.Entry, offset: nat, chars: nat): Slice {
    var full := entry.full;
    var lo := if offset <= |full| then offset else |full|;
    var hi := if lo + chars <= |full| then lo + chars else |full|;
    var end := offset + (hi - lo);
    Slice(entry.toolName, |full|, offset, full[lo..hi], end < |full|, if end < |full| then Some(end) else None)
  }

  /** A slice is the text from the offset on, as far as it goes, and says where
      the text goes on. */
  lemma SliceMeaning(entry: S.Entry, offset: nat, chars: nat) returns (before: string, after: string)
    requires offset <= |entry.full|
    ensures var slice := ReadSlice(entry, offset, chars);
            && entry.full == before + slice.content + after && |before| == offset
            && (|slice.content| == chars || (|slice.content| < chars && after == ""))
            && (slice.hasMore <==> after != "")
            && slice.nextOffset == (if after == "" then None else Some(offset + |slice.content|))
            && slice.toolName == entry.toolName && slice.totalChars == |entry.full| && slice.offset == offset
  {
    var slice := ReadSlice(entry, offset, chars);
    before, after := entry.full[..offset], entry.full[offset + |slice.content|..];
  }

  /** Behind the end there is nothing. */
  lemma SliceBehind(entry: S.Entry, offset: nat, chars: nat)
    requires offset > |entry.full|
    ensures ReadSlice(entry, offset, chars) == Slice(entry.toolName, |entry.full|, offset, "", false, None)
  {
  }

  /** The tool: a slice of the stored original, or nothing if none is kept. */
  method ReadToolResult(store: S.TruncationStore, id: string, offset: nat, maxChars: Option<nat>, defaultChars: nat,
                        cap: nat)
    returns (r: Option<Slice>)
    requires store.Valid() && cap >= 1
    ensures r.None? <==> forall x :: x in store.View() ==> x.id != id
    ensures r.Some? ==>
              exists entry :: S.Record(id, entry) in store.View()
                && var wanted := if maxChars.Some? then maxChars.value else defaultChars;
                   r.value == ReadSlice(entry, offset, if wanted < 1 then 1 else if wanted > cap then cap else wanted)
  {
    var entry := store.Get(id);
    match entry
    case None => r := None;
    case Some(e) =>
      r := Some(ReadSlice(e, offset, Clamp(if maxChars.Some? then maxChars.value else defaultChars, cap)));
  }

  /** Following `nextOffset` from `offset` on. */
  function Pages(entry: S.Entry, offset: nat, chars: nat): string
    requires chars >= 1
    decreases |entry.full| - offset
  {
    var slice := ReadSlice(entry, offset, chars);
    if slice.nextOffset.Some? then slice.content + Pages(entry, slice.nextOffset.value, chars) else slice.content
  }

  /** Paging from any offset yields exactly the rest of the text. */
  lemma {:induction false} PagesAreWhole(entry: S.Entry, offset: nat, chars: nat)
    requires chars >= 1 && offset <= |entry.full|
    ensures Pages(entry, offset, chars) == entry.full[offset..]
    decreases |entry.full| - offset
  {
    var slice := ReadSlice(entry, offset, chars);
    if slice.hasMore {
      PagesAreWhole(entry, offset + chars, chars);
      assert entry.full[offset..] == entry.full[offset..offset + chars] + entry.full[offset + chars..];
    }
  }

  // ----- recovery from end to end -----

  /** Paging the id of an elided output gives the text that the transcript
      held exactly if the last record that the compaction stored under the id
      has that text, and had room with all that was stored after it. Otherwise
      the id gives nothing, or the text of a later result of the same id, or,
      if all of that id were too large to be stored, what it gave before. */
  lemma RecoveredIff(c: Codec, head: seq<Message>, budget: nat, log: seq<S.Record>, k: nat, chars: nat)
    requires S.Contents(budget, log) && k < |AllOriginals(c, head)| && chars >= 1
    ensures var more := AllOriginals(c, head);
            var after := S.Replay(budget, log, more);
            && ((exists x :: x in after && x.id == more[k].id && Pages(x.entry, 0, chars) == more[k].entry.full) <==>
                  S.TextKept(budget, more, more[k].id, more[k].entry.full))
            && (forall x :: x in after && x.id == more[k].id ==>
                  S.Newest(budget, more, x) || (x in log && S.NoneAccepted(budget, more, x.id)))
  {
    hide AllOriginals, S.Replay, S.Contents, S.Newest, S.NoneAccepted, S.TextKept, Pages;
    var more := AllOriginals(c, head);
    var after := S.Replay(budget, log, more);
    S.ReadsBackIff(budget, log, more, k);
    forall x | x in after && x.id == more[k].id
      ensures S.Newest(budget, more, x) || (x in log && S.NoneAccepted(budget, more, x.id))
      ensures Pages(x.entry, 0, chars) == x.entry.full
    {
      S.FoundUnder(budget, log, more, x);
      WholeText(x.entry, chars);
    }
  }

  lemma WholeText(entry: S.Entry, chars: nat)
    requires chars >= 1
    ensures Pages(entry, 0, chars) == entry.full
  {
    PagesAreWhole(entry, 0, chars);
    assert entry.full[0..] == entry.full;
  }

  /** If no id is repeated, an output is recovered exactly if it fits the
      budget together with all that was stored after it, and its id gives
      nothing else, unless it was too large to be stored at all. */
  lemma DistinctRecoveredIff(c: Codec, head: seq<Message>, budget: nat, log: seq<S.Record>, k: nat, chars: nat)
    requires S.DistinctIds(AllOriginals(c, head)) && S.Contents(budget, log) && k < |AllOriginals(c, head)|
             && chars >= 1
    ensures var more := AllOriginals(c, head);
            var after := S.Replay(budget, log, more);
            && ((exists x :: x in after && x.id == more[k].id && Pages(x.entry, 0, chars) == more[k].entry.full) <==>
                  S.Size(more[k].entry.full) <= budget && S.Bytes(S.Accepted(budget, more[k..])) <= budget)
            && (forall x :: x in after && x.id == more[k].id ==>
                  x == more[k] || (x in log && S.Size(more[k].entry.full) > budget))
  {
    hide AllOriginals, S.Replay, S.Accepted, S.Bytes, S.Size, S.Contents, S.TextKept, S.Newest, S.NoneAccepted, Pages;
    var more := AllOriginals(c, head);
    RecoveredIff(c, head, budget, log, k, chars);
    S.DistinctKept(budget, more, k);
    forall x: S.Record | x.id == more[k].id
      ensures S.Newest(budget, more, x) ==> x == more[k]
      ensures S.NoneAccepted(budget, more, x.id) ==> S.Size(more[k].entry.full) > budget
    {
      S.DistinctNewest(budget, more, k, x);
    }
  }

  /** Two turns of a conversation whose calls were numbered alike: the first
      stub promises one text and its id gives the other, for every budget that
      can hold either. */
  lemma RepeatedId(c: Codec, budget: nat)
    requires c.serial(Value("a")) == "a" && c.images(Value("a")) == 1
    requires c.serial(Value("b")) == "b" && c.images(Value("b")) == 1
    requires budget >= 1
    ensures var first := ToolResult("call_0", "shell", Value("a"), false);
            var second := ToolResult("call_0", "shell", Value("b"), false);
            var head := [Tool([first]), Tool([second])];
            && ElidedMessages(c, head) == [Tool([first.(output := Stub("a", "call_0", 1))]),
                                           Tool([second.(output := Stub("b", "call_0", 1))])]
            && AllOriginals(c, head) == [RecordOf(c, first), RecordOf(c, second)]
            && S.Replay(budget, [], AllOriginals(c, head)) == [RecordOf(c, second)]
  {
    var first := ToolResult("call_0", "shell", Value("a"), false);
    var second := ToolResult("call_0", "shell", Value("b"), false);
    TwoOriginals(c, first, second);
    S.SizeOne('a');
    S.SizeOne('b');
    S.LaterWins(budget, RecordOf(c, first), RecordOf(c, second));
    assert ElidedResults(c, [first]) == [StubOf(c, first)];
    assert ElidedResults(c, [second]) == [StubOf(c, second)];
  }

  lemma TwoOriginals(c: Codec, first: ToolResult, second: ToolResult)
    requires Large(c, first) && Large(c, second)
    ensures AllOriginals(c, [Tool([first]), Tool([second])]) == [RecordOf(c, first), RecordOf(c, second)]
  {
    hide Large;
    OneOriginal(c, first);
    var head := [Tool([first]), Tool([second])];
    assert head[..1] == [Tool([first])];
    assert [second][..0] == [] && Originals(c, []) == [];
    assert Originals(c, [second]) == [RecordOf(c, second)];
  }

  /** A stub that promises what cannot be read: a store without room, and an
      output with an image, so that it is elided however short it is. */
  lemma PromiseBroken(c: Codec)
    requires c.serial(Value("x")) == "x" && c.images(Value("x")) == 1
    ensures var head := [Tool([ToolResult("c1", "shell", Value("x"), false)])];
            && ElidedMessages(c, head) == [Tool([ToolResult("c1", "shell", Stub("x", "c1", 1), false)])]
            && S.Replay(0, [], AllOriginals(c, head)) == []
  {
    var result := ToolResult("c1", "shell", Value("x"), false);
    OneOriginal(c, result);
    assert ElidedResults(c, [result]) == [StubOf(c, result)];
    NoRoom(RecordOf(c, result), 'x');
  }

  lemma OneOriginal(c: Codec, result: ToolResult)
    requires Large(c, result)
    ensures AllOriginals(c, [Tool([result])]) == [RecordOf(c, result)]
  {
    hide Large;
    assert [result][..0] == [] && [Tool([result])][..0] == [];
    assert Originals(c, []) == [] && AllOriginals(c, []) == [];
    assert [] + [RecordOf(c, result)] == [RecordOf(c, result)];
  }

  lemma NoRoom(r: S.Record, x: char)
    requires r.entry.full == [x]
    ensures S.Replay(0, [], [r]) == []
  {
    S.SizeOne(x);
    assert [r][..0] == [];
    assert S.Replay(0, [], []) == [];
  }

  lemma {:induction false} OriginalOf(c: Codec, ms: seq<Message>, i: nat, j: nat)
    requires i < |ms| && ms[i].Tool? && j < |ms[i].results| && Large(c, ms[i].results[j])
    ensures RecordOf(c, ms[i].results[j]) in AllOriginals(c, ms)
    decreases |ms|
  {
    hide Large;
    if i == |ms| - 1 {
      OriginalIn(c, ms[i].results, j);
    } else {
      OriginalOf(c, ms[..|ms| - 1], i, j);
    }
  }

  lemma {:induction false} OriginalIn(c: Codec, rs: seq<ToolResult>, j: nat)
    requires j < |rs| && Large(c, rs[j])
    ensures RecordOf(c, rs[j]) in Originals(c, rs)
    decreases |rs|
  {
    hide Large;
    if j < |rs| - 1 {
      OriginalIn(c, rs[..|rs| - 1], j);
    }
  }

  /** If what one compaction elides has distinct ids and fits the budget, then
      whatever the store held before, reading the id of any elided result from
      offset 0 gives the exact text that the transcript held. */
  lemma EverythingRecovered(c: Codec, head: seq<Message>, budget: nat, log: seq<S.Record>, i: nat, j: nat, chars: nat)
    requires S.DistinctIds(AllOriginals(c, head)) && S.Bytes(AllOriginals(c, head)) <= budget && chars >= 1
    requires S.Contents(budget, log)
    requires i < |head| && head[i].Tool? && j < |head[i].results| && Bulky(c, head[i].results[j].output)
    ensures var result := head[i].results[j];
            var after := S.Replay(budget, log, AllOriginals(c, head));
            && (exists x :: x in after && x.id == result.callId)
            && (forall x :: x in after && x.id == result.callId ==>
                  x.entry.toolName == result.toolName && Pages(x.entry, 0, chars) == c.serial(result.output))
  {
    hide AllOriginals, S.Replay, S.Bytes, S.Size, Pages;
    var more := AllOriginals(c, head);
    var after := S.Replay(budget, log, more);
    var record := RecordOf(c, head[i].results[j]);
    OriginalOf(c, head, i, j);
    S.BatchSurvives(budget, log, more);
    S.ReplayKeeps(budget, log, more);
    InSuffix(after, more, record);
    forall x | x in after && x.id == record.id
      ensures x == record
    {
    }
    PagesAreWhole(record.entry, 0, chars);
    assert record.entry.full[0..] == record.entry.full;
  }

  /** Three hundred characters are kept whole behind a stub of the first 120,
      and a hundred stay as they are. */
  lemma LongIsKept(c: Codec)
    requires var long_, short := seq(300, _ => 'x'), seq(100, _ => 'x');
             && c.serial(Value("long")) == long_ && c.images(Value("long")) == 0
             && c.serial(Value("short")) == short && c.images(Value("short")) == 0
    ensures var long_, result := seq(300, _ => 'x'), ToolResult("c1", "shell", Value("long"), false);
            var other := ToolResult("c2", "shell", Value("short"), false);
            var head := [Tool([result]), Tool([other])];
            && ElidedMessages(c, head)
               == [Tool([result.(output := Stub(seq(120, _ => 'x'), "c1", 0))]), Tool([other])]
            && AllOriginals(c, head) == [S.Record("c1", S.Entry("shell", long_))]
  {
    var long_, short := seq(300, _ => 'x'), seq(100, _ => 'x');
    var result := ToolResult("c1", "shell", Value("long"), false);
    var other := ToolResult("c2", "shell", Value("short"), false);
    SizeOfXs(long_);
    SizeOfXs(short);
    LongOriginals(c, result, other);
    assert long_[..120] == seq(120, _ => 'x');
    hide S.Size;
    assert ElidedResults(c, [result]) == [StubOf(c, result)];
    assert ElidedResults(c, [other]) == [other];
  }

  lemma LongOriginals(c: Codec, result: ToolResult, other: ToolResult)
    requires Large(c, result) && !Large(c, other)
    ensures AllOriginals(c, [Tool([result]), Tool([other])]) == [RecordOf(c, result)]
  {
    hide Large;
    OneOriginal(c, result);
    var head := [Tool([result]), Tool([other])];
    assert head[..1] == [Tool([result])];
    assert [other][..0] == [] && Originals(c, []) == [];
    assert Originals(c, [other]) == [];
  }

  lemma {:induction false} SizeOfXs(text: string)
    requires forall i :: 0 <= i < |text| ==> text[i] == 'x'
    ensures S.Size(text) == |text|
  {
    if text != "" {
      SizeOfXs(text[..|text| - 1]);
    }
  }

  lemma InSuffix(log: seq<S.Record>, tail: seq<S.Record>, r: S.Record)
    requires S.EndsWith(log, tail) && r in tail
    ensures r in log
  {
    var k :| 0 <= k < |tail| && tail[k] == r;
    assert log[|log| - |tail| + k] == log[|log| - |tail|..][k];
  }
}
