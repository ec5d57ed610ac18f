/** One store behind the cutting of outputs and the compaction of the
    conversation, as a session shares it. */
module Recovery {
  import opened Wrappers
  import opened Transcript
  import S = Store
  import T = Truncation
  import C = Compaction

  /** The j-th result of the i-th message has that id, and compaction puts it
      into the store. */
  ghost predicate StoredAt(c: C.Codec, head: seq<Message>, budget: nat, id: string, i: nat, j: nat) {
    && i < |head| && head[i].Tool? && j < |head[i].results|
    && head[i].results[j].callId == id
    && C.Bulky(c, head[i].results[j].output)
    && S.Size(c.serial(head[i].results[j].output)) <= budget
  }

  ghost predicate TakesOver(c: C.Codec, head: seq<Message>, budget: nat, id: string) {
    exists i: nat, j: nat :: StoredAt(c, head, budget, id, i, j)
  }

  lemma {:induction false} ResultOf(c: C.Codec, rs: seq<ToolResult>, x: S.Record) returns (j: nat)
    requires x in C.Originals(c, rs)
    ensures j < |rs| && C.Large(c, rs[j]) && x == C.RecordOf(c, rs[j])
  {
    hide C.Large;
    if C.Large(c, rs[|rs| - 1]) && x == C.RecordOf(c, rs[|rs| - 1]) {
      j := |rs| - 1;
    } else {
      j := ResultOf(c, rs[..|rs| - 1], x);
    }
  }

  lemma {:induction false} MessageOf(c: C.Codec, head: seq<Message>, x: S.Record) returns (i: nat, j: nat)
    requires x in C.AllOriginals(c, head)
    ensures i < |head| && head[i].Tool? && j < |head[i].results|
    ensures C.Large(c, head[i].results[j]) && x == C.RecordOf(c, head[i].results[j])
  {
    hide C.Large, C.Originals;
    var last := head[|head| - 1];
    if last.Tool? && x in C.Originals(c, last.results) {
      i := |head| - 1;
      j := ResultOf(c, last.results, x);
    } else {
      i, j := MessageOf(c, head[..|head| - 1], x);
    }
  }

  /** Compaction stores something under an id exactly if one of its results is
      large and fits the budget. */
  lemma TakesOverIff(c: C.Codec, head: seq<Message>, budget: nat, id: string)
    ensures TakesOver(c, head, budget, id) <==> !S.NoneAccepted(budget, C.AllOriginals(c, head), id)
  {
    hide C.AllOriginals, S.Size;
    var more := C.AllOriginals(c, head);
    if i: nat, j: nat :| StoredAt(c, head, budget, id, i, j) {
      C.OriginalOf(c, head, i, j);
      var k :| 0 <= k < |more| && more[k] == C.RecordOf(c, head[i].results[j]);
    }
    if k :| 0 <= k < |more| && more[k].id == id && S.Size(more[k].entry.full) <= budget {
      var i, j := MessageOf(c, head, more[k]);
      assert StoredAt(c, head, budget, id, i, j);
    }
  }

  /** An original is put aside when its output is cut, other outputs are put
      aside after it, and then the conversation is compacted. If compaction
      stores the cut output under the same id, the id never again gives the
      record of the original, only what was stored after it. Otherwise the id
      gives the original exactly if that was accepted and there has been room
      for it since. */
  lemma OriginalReadIff(c: C.Codec, head: seq<Message>, budget: nat, log: seq<S.Record>, original: S.Record,
                        between: seq<S.Record>, chars: nat)
    requires S.Contents(budget, log) && chars >= 1
    ensures var id, more := original.id, between + C.AllOriginals(c, head);
            var after := S.Replay(budget, log, [original] + more);
            if TakesOver(c, head, budget, id) || !S.NoneAccepted(budget, between, id)
            then forall x :: x in after && x.id == id ==> S.Newest(budget, more, x)
            else (exists x :: x in after && x.id == id && C.Pages(x.entry, 0, chars) == original.entry.full) <==>
                 S.Size(original.entry.full) <= budget && S.AlwaysFits(budget, [original] + more)
  {
    hide C.AllOriginals, C.Pages, TakesOver, S.Contents, S.Replay, S.AlwaysFits, S.NoneAccepted, S.Newest, S.Size,
         S.TextKept;
    var id, more := original.id, between + C.AllOriginals(c, head);
    var after := S.Replay(budget, log, [original] + more);
    TakesOverIff(c, head, budget, id);
    S.NoneOfBoth(budget, between, C.AllOriginals(c, head), id);
    if S.NoneAccepted(budget, more, id) {
      S.ReadsBackIff(budget, log, [original] + more, 0);
      S.FirstKept(budget, original, more);
      forall x: S.Record
        ensures C.Pages(x.entry, 0, chars) == x.entry.full
      {
        C.WholeText(x.entry, chars);
      }
    } else {
      S.ReplayAppend(budget, log, [original], more);
      S.ReplayKeeps(budget, log, [original]);
      forall x | x in after && x.id == id
        ensures S.Newest(budget, more, x)
      {
        S.FoundUnder(budget, S.Replay(budget, log, [original]), more, x);
      }
    }
  }

  /** A tool's output is cut and the conversation that holds it is compacted,
      with one store for both. */
  method CutThenCompact(v: T.Json, id: string, toolName: string, max: nat, serialize: T.Json -> string, c: C.Codec,
                        conversation: T.Json -> seq<Message>, store: S.TruncationStore)
    returns (cut: T.Json, out: seq<Message>, ids: seq<string>)
    requires store.Valid() && toolName != T.READ_TOOL_RESULT && T.NeedsTruncation(v, max)
    modifies store
    ensures store.Valid() && cut == T.Marked(T.Cut(v, max), id, true) && out == C.ElidedMessages(c, conversation(cut))
    ensures var original := S.Record(id, S.Entry(toolName, serialize(v)));
            var more := C.AllOriginals(c, conversation(cut));
            && store.View() == S.Replay(store.budget, old(store.View()), [original] + more)
            && if TakesOver(c, conversation(cut), store.budget, id)
               then forall x :: x in store.View() && x.id == id ==> S.Newest(store.budget, more, x)
               else (exists x :: x in store.View() && x.id == id && x.entry.full == serialize(v)) <==>
                    S.Size(serialize(v)) <= store.budget && S.AlwaysFits(store.budget, [original] + more)
  {
    hide T.NeedsTruncation, T.Cut, T.Marked, C.AllOriginals, C.ElidedMessages, S.Replay, S.Inserted, S.Size, TakesOver,
         S.AlwaysFits, S.Newest, S.Contents, C.Pages;
    ghost var log, original := store.View(), S.Record(id, S.Entry(toolName, serialize(v)));
    S.ValidContents(store);
    cut := T.AfterTool(v, id, toolName, max, store, serialize);
    ghost var more := C.AllOriginals(c, conversation(cut));
    T.ReplayOne(store.budget, log, original);
    S.ReplayAppend(store.budget, log, [original], more);
    out, ids := C.ElideToolResults(c, conversation(cut), store);
    OriginalReadAtOnce(c, conversation(cut), store.budget, log, original);
  }

  lemma OriginalReadAtOnce(c: C.Codec, head: seq<Message>, budget: nat, log: seq<S.Record>, original: S.Record)
    requires S.Contents(budget, log)
    ensures var more := C.AllOriginals(c, head);
            var after := S.Replay(budget, log, [original] + more);
            if TakesOver(c, head, budget, original.id)
            then forall x :: x in after && x.id == original.id ==> S.Newest(budget, more, x)
            else (exists x :: x in after && x.id == original.id && x.entry.full == original.entry.full) <==>
                 S.Size(original.entry.full) <= budget && S.AlwaysFits(budget, [original] + more)
  {
    hide C.AllOriginals, C.Pages, TakesOver, S.Contents, S.Replay, S.AlwaysFits, S.Newest, S.Size;
    OriginalReadIff(c, head, budget, log, original, [], 1);
    assert [] + C.AllOriginals(c, head) == C.AllOriginals(c, head);
    forall x: S.Record
      ensures C.Pages(x.entry, 0, 1) == x.entry.full
    {
      C.WholeText(x.entry, 1);
    }
  }

  /** The cut output, elided itself, takes the place of the original that it
      points to: the id gives the cut text. */
  lemma PointerTakenOver(c: C.Codec, cut: ToolResult, original: S.Record, budget: nat)
    requires C.Bulky(c, cut.output) && cut.callId == original.id
    requires S.Size(c.serial(cut.output)) <= budget && S.Size(original.entry.full) <= budget
    ensures S.Replay(budget, [], [original] + C.AllOriginals(c, [Tool([cut])])) == [C.RecordOf(c, cut)]
  {
    hide C.AllOriginals, S.Replay, S.Size;
    C.OneOriginal(c, cut);
    S.LaterWins(budget, original, C.RecordOf(c, cut));
    assert [original] + [C.RecordOf(c, cut)] == [original, C.RecordOf(c, cut)];
  }
}
