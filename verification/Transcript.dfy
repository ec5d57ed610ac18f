/** The conversation: messages, tool calls and their results. */
module Transcript {
  import opened Wrappers

  datatype ToolCall = ToolCall(id: string, name: string, arguments: string)

  /** The JSON value of a tool result: the tool's own, an error object, or the
      stub that compaction leaves behind. */
  datatype Output =
    | Value(text: string)
    | Error(message: string)
    | Stub(hint: string, callId: string, imagesDropped: nat)

  datatype ToolResult = ToolResult(callId: string, toolName: string, output: Output, isError: bool)

  datatype Image = Image(mediaType: string, data: string, sourceUrl: Option<string>)

  datatype Message =
    | System(content: string)
    | User(content: string, images: seq<Image>)
    | Assistant(note: Option<string>, calls: seq<ToolCall>)
    | Tool(results: seq<ToolResult>)

  /** The results answer the calls, one by one and in order. */
  predicate Answers(calls: seq<ToolCall>, results: seq<ToolResult>) {
    |results| == |calls| && forall k :: 0 <= k < |calls| ==> results[k].callId == calls[k].id
  }

  /** The message fits what stands before it. */
  predicate FitsAfter(ms: seq<Message>, k: nat)
    requires k < |ms|
  {
    ms[k].Tool? ==> k > 0 && ms[k - 1].Assistant? && Answers(ms[k - 1].calls, ms[k].results)
  }

  predicate Unanswered(ms: seq<Message>, k: nat)
    requires k < |ms|
  {
    ms[k].Assistant? && ms[k].calls != [] && !(k + 1 < |ms| && ms[k + 1].Tool?)
  }

  /** Every result message answers the assistant message before it, and every
      assistant message with calls is answered. */
  ghost predicate Paired(ms: seq<Message>) {
    forall k :: 0 <= k < |ms| ==> FitsAfter(ms, k) && !Unanswered(ms, k)
  }

  /** Paired but for the last message, which may wait for its results. */
  ghost predicate NearlyPaired(ms: seq<Message>) {
    forall k :: 0 <= k < |ms| ==> FitsAfter(ms, k) && (k < |ms| - 1 ==> !Unanswered(ms, k))
  }

  /** What a transcript may be cut to after the first `n` messages. */
  lemma PrefixNearlyPaired(ms: seq<Message>, n: nat)
    requires Paired(ms) && n <= |ms|
    ensures NearlyPaired(ms[..n])
  {
    forall k | 0 <= k < n
      ensures FitsAfter(ms[..n], k) && (k < n - 1 ==> !Unanswered(ms[..n], k))
    {
      assert FitsAfter(ms, k) && !Unanswered(ms, k);
    }
  }

  /** A suffix that does not begin with results is paired. */
  lemma SuffixPaired(ms: seq<Message>, cut: nat)
    requires Paired(ms) && cut <= |ms| && (cut < |ms| ==> !ms[cut].Tool?)
    ensures Paired(ms[cut..])
  {
    forall k | 0 <= k < |ms| - cut
      ensures FitsAfter(ms[cut..], k) && !Unanswered(ms[cut..], k)
    {
      assert FitsAfter(ms, cut + k) && !Unanswered(ms, cut + k);
    }
  }

  /** Messages without calls or results can stand in front. */
  lemma FrontPaired(front: seq<Message>, ms: seq<Message>)
    requires forall k :: 0 <= k < |front| ==> !front[k].Tool? && !front[k].Assistant?
    requires Paired(ms) && (ms != [] ==> !ms[0].Tool?)
    ensures Paired(front + ms)
  {
    var all := front + ms;
    forall k | 0 <= k < |all|
      ensures FitsAfter(all, k) && !Unanswered(all, k)
    {
      if k >= |front| {
        assert FitsAfter(ms, k - |front|) && !Unanswered(ms, k - |front|);
      }
    }
  }

  /** Dropping a trailing message that waits for results repairs the rest. */
  function DropUnanswered(ms: seq<Message>): seq<Message> {
    if ms != [] && ms[|ms| - 1].Assistant? && ms[|ms| - 1].calls != [] then ms[..|ms| - 1] else ms
  }

  lemma DropRepairs(ms: seq<Message>)
    requires NearlyPaired(ms)
    ensures Paired(DropUnanswered(ms))
  {
    var r := DropUnanswered(ms);
    forall k | 0 <= k < |r|
      ensures FitsAfter(r, k) && !Unanswered(r, k)
    {
      assert FitsAfter(ms, k) && (k < |ms| - 1 ==> !Unanswered(ms, k));
    }
  }

  // ----- messages at the end -----

  lemma AppendText(ms: seq<Message>, text: string)
    requires Paired(ms)
    ensures Paired(ms + [Assistant(Some(text), [])])
  {
    var r := ms + [Assistant(Some(text), [])];
    forall k | 0 <= k < |r|
      ensures FitsAfter(r, k) && !Unanswered(r, k)
    {
      if k < |ms| {
        assert FitsAfter(ms, k) && !Unanswered(ms, k);
      }
    }
  }

  lemma AppendCalls(ms: seq<Message>, note: Option<string>, calls: seq<ToolCall>)
    requires Paired(ms)
    ensures NearlyPaired(ms + [Assistant(note, calls)])
    ensures forall results :: Answers(calls, results) ==> Paired(ms + [Assistant(note, calls)] + [Tool(results)])
  {
    var r := ms + [Assistant(note, calls)];
    forall k | 0 <= k < |ms|
      ensures FitsAfter(r, k) && !Unanswered(r, k)
    {
      assert FitsAfter(ms, k) && !Unanswered(ms, k);
    }
    forall results | Answers(calls, results)
      ensures Paired(r + [Tool(results)])
    {
      var t := r + [Tool(results)];
      forall k | 0 <= k < |t|
        ensures FitsAfter(t, k) && !Unanswered(t, k)
      {
        if k < |ms| {
          assert FitsAfter(r, k) && !Unanswered(r, k);
        }
      }
    }
  }
}
