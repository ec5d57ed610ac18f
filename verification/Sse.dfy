/** Incremental framing of event streams that arrive in arbitrary chunks. */
module Sse {
  import opened Wrappers
  import Text

  newtype byte = x: int | 0 <= x < 256

  type Bytes = seq<byte>

  const LF: byte := 10
  const CR: byte := 13

  function Concat(chunks: seq<Bytes>): Bytes {
    if chunks == [] then [] else Concat(chunks[..|chunks| - 1]) + chunks[|chunks| - 1]
  }

  // ----- lines -----

  /** Position of the first line feed at or after `p`. */
  function NextLine(s: Bytes, p: nat): Option<nat>
    decreases |s| - p
  {
    if p >= |s| then None
    else if s[p] == LF then Some(p)
    else NextLine(s, p + 1)
  }

  lemma {:induction false} NextLineMeaning(s: Bytes, p: nat)
    ensures match NextLine(s, p)
            case None => forall q :: p <= q < |s| ==> s[q] != LF
            case Some(e) => p <= e < |s| && s[e] == LF && forall q :: p <= q < e ==> s[q] != LF
    decreases |s| - p
  {
    if p < |s| && s[p] != LF {
      NextLineMeaning(s, p + 1);
    }
  }

  /** The terminated lines of a stream, from `p` on. */
  function Lines(s: Bytes, p: nat): seq<Bytes>
    decreases |s| - p
  {
    NextLineMeaning(s, p);
    match NextLine(s, p)
    case None => []
    case Some(e) => [s[p..e]] + Lines(s, e + 1)
  }

  /** Where the unterminated rest begins. */
  function LineRest(s: Bytes, p: nat): (r: nat)
    requires p <= |s|
    ensures p <= r <= |s|
    decreases |s| - p
  {
    NextLineMeaning(s, p);
    match NextLine(s, p)
    case None => p
    case Some(e) => LineRest(s, e + 1)
  }

  /** Nothing but the text matters: a position is decided by what follows. */
  lemma {:induction false} NextLineShift(s: Bytes, t: Bytes, p: nat, q: nat)
    requires p <= |s| && q <= |t| && s[p..] == t[q..]
    ensures match NextLine(s, p)
            case None => NextLine(t, q) == None
            case Some(e) => e >= p && NextLine(t, q) == Some(q + (e - p))
    decreases |s| - p
  {
    assert |s| - p == |t| - q;
    if p < |s| {
      assert s[p] == s[p..][0] == t[q..][0] == t[q];
      if s[p] != LF {
        assert s[p + 1..] == s[p..][1..] == t[q..][1..] == t[q + 1..];
        NextLineShift(s, t, p + 1, q + 1);
      }
    }
  }

  lemma OneLine(s: Bytes, p: nat, e: nat)
    requires NextLine(s, p) == Some(e)
    ensures p <= e < |s| && Lines(s, p) == [s[p..e]] + Lines(s, e + 1) && LineRest(s, p) == LineRest(s, e + 1)
  {
    NextLineMeaning(s, p);
  }

  lemma NoLine(s: Bytes, p: nat)
    requires p <= |s| && NextLine(s, p) == None
    ensures Lines(s, p) == [] && LineRest(s, p) == p
  {
  }

  lemma SliceShift(s: Bytes, t: Bytes, p: nat, q: nat, n: nat)
    requires p + n <= |s| && q <= |t| && s[p..] == t[q..]
    ensures |s| - p == |t| - q && s[p..p + n] == t[q..q + n] && s[p + n..] == t[q + n..]
  {
    assert |s[p..]| == |t[q..]|;
    assert s[p..p + n] == s[p..][..n] && t[q..q + n] == t[q..][..n];
    assert s[p + n..] == s[p..][n..] && t[q + n..] == t[q..][n..];
  }

  lemma {:induction false} LinesShift(s: Bytes, t: Bytes, p: nat, q: nat)
    requires p <= |s| && q <= |t| && s[p..] == t[q..]
    ensures Lines(s, p) == Lines(t, q) && LineRest(s, p) - p == LineRest(t, q) - q
    decreases |s| - p
  {
    hide NextLine, Lines, LineRest;
    NextLineShift(s, t, p, q);
    if NextLine(s, p).None? {
      NoLine(s, p);
      NoLine(t, q);
    } else {
      var n := NextLine(s, p).value - p;
      OneLine(s, p, p + n);
      OneLine(t, q, q + n);
      SliceShift(s, t, p, q, n);
      SliceShift(s, t, p, q, n + 1);
      LinesShift(s, t, p + n + 1, q + n + 1);
    }
  }

  lemma NextLineFirst(a: Bytes, s: Bytes, p: nat, e: nat)
    requires a <= s && NextLine(a, p) == Some(e)
    ensures NextLine(s, p) == Some(e) && p <= e < |a| && s[p..e] == a[p..e]
  {
    NextLineMeaning(a, p);
    NextLineMeaning(s, p);
    assert s[e] == LF;
    match NextLine(s, p)
    case None =>
    case Some(f) =>
      assert f <= e;
      assert s[f] == a[f];
  }

  /** More bytes only add lines; the rest is where the new ones begin. */
  lemma {:induction false} LinesAppend(a: Bytes, s: Bytes, p: nat)
    requires p <= |a| && a <= s
    ensures Lines(s, p) == Lines(a, p) + Lines(s, LineRest(a, p))
    ensures LineRest(s, p) == LineRest(s, LineRest(a, p))
    decreases |a| - p
  {
    hide NextLine, Lines, LineRest;
    if NextLine(a, p).None? {
      NoLine(a, p);
      assert [] + Lines(s, p) == Lines(s, p);
    } else {
      var e := NextLine(a, p).value;
      NextLineFirst(a, s, p, e);
      OneLine(s, p, e);
      OneLine(a, p, e);
      LinesAppend(a, s, e + 1);
    }
  }

  ghost predicate NoFeed(line: Bytes) {
    forall i :: 0 <= i < |line| ==> line[i] != LF
  }

  /** The lines put together again, each with its line feed. */
  ghost function Terminated(lines: seq<Bytes>): Bytes {
    if lines == [] then [] else lines[0] + [LF] + Terminated(lines[1..])
  }

  /** The stream is its lines, each ended by a line feed, and the rest; there
      is no other line feed. */
  lemma {:induction false} LinesSpell(s: Bytes, p: nat)
    requires p <= |s|
    ensures Terminated(Lines(s, p)) + s[LineRest(s, p)..] == s[p..]
    ensures forall k :: 0 <= k < |Lines(s, p)| ==> NoFeed(Lines(s, p)[k])
    ensures NoFeed(s[LineRest(s, p)..])
    decreases |s| - p
  {
    hide NextLine, Lines, LineRest, Terminated, NoFeed;
    if NextLine(s, p).None? {
      NoLine(s, p);
      FeedFree(s, p, |s|);
      TerminatedNone();
      assert s[p..|s|] == s[p..];
    } else {
      var e := NextLine(s, p).value;
      OneLine(s, p, e);
      FeedFree(s, p, e);
      LinesSpell(s, e + 1);
      TerminatedFirst(s[p..e], Lines(s, e + 1));
      SplitAtFeed(s, p, e, Terminated(Lines(s, e + 1)), s[LineRest(s, p)..]);
    }
  }

  lemma FeedFree(s: Bytes, p: nat, e: nat)
    requires p <= e <= |s| && (NextLine(s, p) == Some(e) || (NextLine(s, p) == None && e == |s|))
    ensures NoFeed(s[p..e]) && (e < |s| ==> s[e] == LF)
  {
    NextLineMeaning(s, p);
  }

  lemma TerminatedNone()
    ensures Terminated([]) == []
  {
  }

  lemma TerminatedFirst(line: Bytes, rest: seq<Bytes>)
    ensures Terminated([line] + rest) == line + [LF] + Terminated(rest)
  {
    assert ([line] + rest)[1..] == rest;
  }

  lemma SplitAtFeed(s: Bytes, p: nat, e: nat, lines: Bytes, rest: Bytes)
    requires p <= e < |s| && s[e] == LF && lines + rest == s[e + 1..]
    ensures s[p..e] + [LF] + lines + rest == s[p..]
  {
    assert s[p..] == s[p..e] + [LF] + s[e + 1..];
    assert s[p..e] + [LF] + lines + rest == s[p..e] + [LF] + (lines + rest);
  }

  /** A line as the decoder reads it. */
  type Lossy = Bytes -> string

  function Payload(lossy: Lossy, line: Bytes): Option<string> {
    match Text.StripPrefix(Text.Trim(lossy(line)), "data:")
    case None => None
    case Some(rest) => Some(Text.Trim(rest))
  }

  /** A line carries data exactly if it begins with `data:` once trimmed; what
      it carries is the rest, trimmed again. */
  lemma PayloadMeaning(lossy: Lossy, line: Bytes)
    ensures match Payload(lossy, line)
            case Some(payload) => exists rest :: Text.Trim(lossy(line)) == "data:" + rest && payload == Text.Trim(rest)
            case None => forall rest :: Text.Trim(lossy(line)) != "data:" + rest
  {
    hide Text.Trim;
    var trimmed := Text.Trim(lossy(line));
    if "data:" <= trimmed {
      assert trimmed == "data:" + trimmed[5..];
    }
    forall rest | trimmed == "data:" + rest
      ensures Payload(lossy, line).Some?
    {
      assert trimmed[..5] == "data:";
    }
  }

  function Payloads(lossy: Lossy, lines: seq<Bytes>): seq<string> {
    if lines == [] then []
    else
      var before := Payloads(lossy, lines[..|lines| - 1]);
      match Payload(lossy, lines[|lines| - 1])
      case None => before
      case Some(payload) => before + [payload]
  }

  lemma {:induction false} PayloadsAppend(lossy: Lossy, a: seq<Bytes>, b: seq<Bytes>)
    ensures Payloads(lossy, a + b) == Payloads(lossy, a) + Payloads(lossy, b)
  {
    if b == [] {
      assert a + b == a;
    } else {
      assert (a + b)[..|a + b| - 1] == a + b[..|b| - 1];
      PayloadsAppend(lossy, a, b[..|b| - 1]);
    }
  }

  lemma NoPayloads(lossy: Lossy)
    ensures Payloads(lossy, []) == []
  {
  }

  lemma OnePayload(lossy: Lossy, lines: seq<Bytes>, line: Bytes)
    ensures Payloads(lossy, lines + [line])
            == match Payload(lossy, line)
               case None => Payloads(lossy, lines)
               case Some(payload) => Payloads(lossy, lines) + [payload]
  {
    hide Payload;
    assert (lines + [line])[..|lines|] == lines;
  }

  lemma NextLineEnds(s: Bytes)
    ensures NextLine(s, |s|) == None
  {
  }

  lemma NextLineStep(s: Bytes, p: nat)
    requires p < |s|
    ensures NextLine(s, p) == if s[p] == LF then Some(p) else NextLine(s, p + 1)
  {
  }

  /** Bytes of a partial line, and how much of it has been searched. */
  class SseLineBuffer {
    var buf: Bytes
    var scanned: nat
    const lossy: Lossy
    /** Everything pushed so far. */
    ghost var stream: Bytes

    ghost predicate Valid()
      reads this
    {
      && buf == stream[LineRest(stream, 0)..]
      && scanned <= |buf|
      && forall q :: 0 <= q < scanned ==> buf[q] != LF
    }

    constructor (lossy: Lossy)
      ensures Valid() && stream == [] && this.lossy == lossy
    {
      buf, scanned, stream := [], 0, [];
      this.lossy := lossy;
    }

    /** Hands out the payloads of the lines completed by `bytes`. */
    method Push(bytes: Bytes) returns (payloads: seq<string>)
      requires Valid()
      modifies this
      ensures Valid() && stream == old(stream) + bytes
      ensures Payloads(lossy, Lines(stream, 0)) == Payloads(lossy, Lines(old(stream), 0)) + payloads
    {
      hide NextLine, Lines, LineRest, Payloads;
      ghost var before := stream;
      ghost var rest := LineRest(before, 0);
      stream := stream + bytes;
      buf := buf + bytes;
      assert stream[rest..] == buf;
      ghost var taken;
      payloads, taken := Scan();
      StreamGrows(before, stream, rest);
      PayloadsAppend(lossy, Lines(before, 0), taken);
    }

    /** Takes the complete lines out of the buffer. */
    method Scan() returns (payloads: seq<string>, ghost taken: seq<Bytes>)
      requires scanned <= |buf| && forall q :: 0 <= q < scanned ==> buf[q] != LF
      modifies this`buf, this`scanned
      ensures taken == Lines(old(buf), 0) && payloads == Payloads(lossy, taken)
      ensures buf == old(buf)[LineRest(old(buf), 0)..] && scanned == |buf|
      ensures forall q :: 0 <= q < |buf| ==> buf[q] != LF
    {
      hide NextLine, Lines, LineRest, Payloads, Payload;
      payloads := [];
      var done := 0;
      taken := [];
      NoPayloads(lossy);
      SkipSearched(buf, 0, scanned);
      var pos := scanned;
      while pos < |buf|
        invariant buf == old(buf) && done <= pos <= |buf|
        invariant NextLine(buf, done) == NextLine(buf, pos)
        invariant Lines(buf, 0) == taken + Lines(buf, done) && LineRest(buf, 0) == LineRest(buf, done)
        invariant payloads == Payloads(lossy, taken)
        invariant forall q :: done <= q < pos ==> buf[q] != LF
      {
        NextLineStep(buf, pos);
        if buf[pos] == LF {
          var line := buf[done..pos];
          var payload := Payload(lossy, line);
          OneLine(buf, done, pos);
          OnePayload(lossy, taken, line);
          if payload.Some? {
            payloads := payloads + [payload.value];
          }
          taken := taken + [line];
          done := pos + 1;
        }
        pos := pos + 1;
      }
      NextLineEnds(buf);
      NoLine(buf, done);
      assert taken + [] == taken;
      buf := buf[done..];
      scanned := |buf|;
    }

    /** The rest counts as a line at the end of the stream. */
    method Finish() returns (payloads: seq<string>)
      requires Valid()
      modifies this
      ensures payloads == Payloads(lossy, [old(stream)[LineRest(old(stream), 0)..]])
      ensures Valid() && stream == []
    {
      scanned := 0;
      var line := buf;
      buf, stream := [], [];
      var payload := Payload(lossy, line);
      assert [line][..0] == [];
      payloads := if payload.Some? then [payload.value] else [];
    }
  }

  lemma SkipSearched(s: Bytes, p: nat, q: nat)
    requires p <= q <= |s| && forall x :: p <= x < q ==> s[x] != LF
    ensures NextLine(s, p) == NextLine(s, q)
    decreases q - p
  {
    if p < q {
      SkipSearched(s, p + 1, q);
    }
  }

  lemma StreamGrows(a: Bytes, s: Bytes, rest: nat)
    requires a <= s && rest == LineRest(a, 0)
    ensures var t := s[rest..];
            && Lines(s, 0) == Lines(a, 0) + Lines(t, 0)
            && s[LineRest(s, 0)..] == t[LineRest(t, 0)..]
  {
    var t := s[rest..];
    LinesAppend(a, s, 0);
    assert t[0..] == s[rest..];
    LinesShift(s, t, rest, 0);
    assert t[LineRest(t, 0)..] == s[rest + LineRest(t, 0)..];
  }

  /** Whatever the chunks, one buffer hands out the payloads of the whole
      stream, terminated lines first and then the rest. */
  method DecodeLines(lossy: Lossy, chunks: seq<Bytes>) returns (payloads: seq<string>)
    ensures var s := Concat(chunks);
            payloads == Payloads(lossy, Lines(s, 0)) + Payloads(lossy, [s[LineRest(s, 0)..]])
  {
    var buffer := new SseLineBuffer(lossy);
    payloads := [];
    for k := 0 to |chunks|
      invariant buffer.Valid() && fresh(buffer) && buffer.lossy == lossy
      invariant buffer.stream == Concat(chunks[..k])
      invariant payloads == Payloads(lossy, Lines(buffer.stream, 0))
    {
      assert chunks[..k + 1][..k] == chunks[..k];
      var more := buffer.Push(chunks[k]);
      payloads := payloads + more;
    }
    assert chunks[..|chunks|] == chunks;
    var last := buffer.Finish();
    payloads := payloads + last;
  }

  // ----- frames -----

  /** Length of a frame delimiter at `p`, 0 if there is none. */
  function DelimiterAt(s: Bytes, p: nat): nat {
    if p + 2 <= |s| && s[p] == LF && s[p + 1] == LF then 2
    else if p + 4 <= |s| && s[p] == CR && s[p + 1] == LF && s[p + 2] == CR && s[p + 3] == LF then 4
    else 0
  }

  /** A delimiter is an empty line, with or without carriage returns. */
  lemma DelimiterMeaning(s: Bytes, p: nat)
    ensures DelimiterAt(s, p) == if p <= |s| && [10, 10] <= s[p..] then 2
                                 else if p <= |s| && [13, 10, 13, 10] <= s[p..] then 4 else 0
  {
    if p <= |s| {
      var t := s[p..];
      assert forall i :: 0 <= i < |t| ==> t[i] == s[p + i];
    }
  }

  /** End of the first delimiter that begins at or after `p`. */
  function NextEnd(s: Bytes, p: nat): Option<nat>
    decreases |s| - p
  {
    if p >= |s| then None
    else if DelimiterAt(s, p) > 0 then Some(p + DelimiterAt(s, p))
    else NextEnd(s, p + 1)
  }

  lemma {:induction false} NextEndMeaning(s: Bytes, p: nat)
    ensures match NextEnd(s, p)
            case None => forall q :: p <= q < |s| ==> DelimiterAt(s, q) == 0
            case Some(e) => p < e <= |s| &&
                            exists q :: p <= q < e && DelimiterAt(s, q) > 0 && e == q + DelimiterAt(s, q)
                                        && forall r :: p <= r < q ==> DelimiterAt(s, r) == 0
    decreases |s| - p
  {
    if p < |s| && DelimiterAt(s, p) == 0 {
      NextEndMeaning(s, p + 1);
    }
  }

  lemma NextEndRange(s: Bytes, p: nat)
    ensures NextEnd(s, p).Some? ==> p < NextEnd(s, p).value <= |s|
  {
    NextEndMeaning(s, p);
  }

  /** The terminated frames of a stream, delimiters included. */
  function Frames(s: Bytes, p: nat): seq<Bytes>
    decreases |s| - p
  {
    NextEndRange(s, p);
    match NextEnd(s, p)
    case None => []
    case Some(e) => [s[p..e]] + Frames(s, e)
  }

  function FrameRest(s: Bytes, p: nat): (r: nat)
    requires p <= |s|
    ensures p <= r <= |s|
    decreases |s| - p
  {
    NextEndRange(s, p);
    match NextEnd(s, p)
    case None => p
    case Some(e) => FrameRest(s, e)
  }

  lemma {:induction false} NextEndShift(s: Bytes, t: Bytes, p: nat, q: nat)
    requires p <= |s| && q <= |t| && s[p..] == t[q..]
    ensures match NextEnd(s, p)
            case None => NextEnd(t, q) == None
            case Some(e) => e >= p && NextEnd(t, q) == Some(q + (e - p))
    decreases |s| - p
  {
    assert |s| - p == |t| - q;
    if p < |s| {
      assert forall x :: 0 <= x < |s| - p ==> s[p + x] == s[p..][x] == t[q..][x] == t[q + x];
      assert DelimiterAt(s, p) == DelimiterAt(t, q);
      if DelimiterAt(s, p) == 0 {
        assert s[p + 1..] == s[p..][1..] == t[q..][1..] == t[q + 1..];
        NextEndShift(s, t, p + 1, q + 1);
      }
    }
  }

  lemma {:induction false} FramesShift(s: Bytes, t: Bytes, p: nat, q: nat)
    requires p <= |s| && q <= |t| && s[p..] == t[q..]
    ensures Frames(s, p) == Frames(t, q) && FrameRest(s, p) - p == FrameRest(t, q) - q
    decreases |s| - p
  {
    hide NextEnd;
    NextEndShift(s, t, p, q);
    NextEndRange(s, p);
    assert |s| - p == |t| - q;
    match NextEnd(s, p)
    case None =>
    case Some(e) =>
      var f := q + (e - p);
      assert s[p..e] == s[p..][..e - p] == t[q..][..e - p] == t[q..f];
      assert s[e..] == s[p..][e - p..] == t[q..][e - p..] == t[f..];
      FramesShift(s, t, e, f);
  }

  /** A delimiter that is there stays there, and none appears before it. */
  lemma NextEndFirst(a: Bytes, s: Bytes, p: nat, e: nat)
    requires a <= s && NextEnd(a, p) == Some(e)
    ensures NextEnd(s, p) == Some(e) && p < e <= |a| && s[p..e] == a[p..e]
    decreases |a| - p
  {
    NextEndMeaning(a, p);
    DelimiterKept(a, s, p);
    if DelimiterAt(a, p) == 0 {
      NextEndFirst(a, s, p + 1, e);
      NextEndMeaning(a, p + 1);
      DelimiterNew(a, s, p, e);
    }
  }

  lemma DelimiterKept(a: Bytes, s: Bytes, p: nat)
    requires a <= s
    ensures DelimiterAt(a, p) > 0 ==> DelimiterAt(s, p) == DelimiterAt(a, p)
  {
  }

  /** A later delimiter already in `a` leaves no room for a new one at `p`. */
  lemma DelimiterNew(a: Bytes, s: Bytes, p: nat, e: nat)
    requires a <= s && DelimiterAt(a, p) == 0 && NextEnd(a, p + 1) == Some(e)
    ensures DelimiterAt(s, p) == 0
  {
    NextEndMeaning(a, p + 1);
  }

  lemma {:induction false} FramesAppend(a: Bytes, s: Bytes, p: nat)
    requires p <= |a| && a <= s
    ensures Frames(s, p) == Frames(a, p) + Frames(s, FrameRest(a, p))
    ensures FrameRest(s, p) == FrameRest(s, FrameRest(a, p))
    decreases |a| - p
  {
    hide NextEnd, Frames, FrameRest;
    if NextEnd(a, p).None? {
      NoFrame(a, p);
      assert [] + Frames(s, p) == Frames(s, p);
    } else {
      var e := NextEnd(a, p).value;
      NextEndFirst(a, s, p, e);
      OneFrame(s, p, e);
      OneFrame(a, p, e);
      FramesAppend(a, s, e);
    }
  }

  lemma OneFrame(s: Bytes, p: nat, e: nat)
    requires NextEnd(s, p) == Some(e)
    ensures p < e <= |s| && Frames(s, p) == [s[p..e]] + Frames(s, e) && FrameRest(s, p) == FrameRest(s, e)
  {
    NextEndRange(s, p);
  }

  lemma NoFrame(s: Bytes, p: nat)
    requires p <= |s| && NextEnd(s, p) == None
    ensures Frames(s, p) == [] && FrameRest(s, p) == p
  {
  }

  /** A decoder that refuses what is not UTF-8. */
  type Strict = Bytes -> Option<string>

  /** The data lines of a frame joined by line feeds. */
  function JoinData(lines: seq<string>, n: nat): Option<string>
    requires n <= |lines|
  {
    if n == 0 then None
    else
      var before := JoinData(lines, n - 1);
      match Text.StripPrefix(lines[n - 1], "data:")
      case None => before
      case Some(payload) =>
        Some(if before.None? then Text.Trim(payload) else before.value + "\n" + Text.Trim(payload))
  }

  /** What a frame delivers: nothing if it has no data. */
  function FrameData(text: string): Option<string> {
    var lines := Text.CutLines(text);
    match JoinData(lines, |lines|)
    case None => None
    case Some(data) => if data == "" then None else Some(data)
  }

  /** The parts with a line feed between each two. */
  ghost function Joined(parts: seq<string>): string {
    if parts == [] then ""
    else if |parts| == 1 then parts[0]
    else Joined(parts[..|parts| - 1]) + "\n" + parts[|parts| - 1]
  }

  /** What stands behind the first five characters, trimmed. */
  ghost function CarriedBy(line: string): string {
    if |line| >= 5 then Text.Trim(line[5..]) else ""
  }

  ghost function Carried(lines: seq<string>, picks: seq<nat>): (r: seq<string>)
    ensures |r| == |picks|
  {
    seq(|picks|, k requires 0 <= k < |picks| => if picks[k] < |lines| then CarriedBy(lines[picks[k]]) else "")
  }

  predicate HasData(line: string) {
    "data:" <= line
  }

  /** The lines that begin with `data:`, in order. */
  ghost predicate DataLines(lines: seq<string>, n: nat, picks: seq<nat>) {
    && (forall k :: 0 <= k < |picks| ==> picks[k] < n && picks[k] < |lines| && HasData(lines[picks[k]]))
    && (forall k, l :: 0 <= k < l < |picks| ==> picks[k] < picks[l])
    && forall i :: 0 <= i < n && i < |lines| && HasData(lines[i]) ==> i in picks
  }

  lemma PickNext(lines: seq<string>, n: nat, picks: seq<nat>)
    requires n < |lines| && DataLines(lines, n, picks)
    ensures DataLines(lines, n + 1, if HasData(lines[n]) then picks + [n] else picks)
  {
    hide HasData;
    var more := if HasData(lines[n]) then picks + [n] else picks;
    assert forall k :: 0 <= k < |picks| ==> more[k] == picks[k];
    forall i | 0 <= i < n + 1 && HasData(lines[i])
      ensures i in more
    {
      if i == n {
        assert more[|picks|] == n;
      } else {
        assert i in picks;
      }
    }
  }

  lemma NothingPicked(lines: seq<string>)
    ensures DataLines(lines, 0, []) && JoinData(lines, 0) == None
  {
  }

  lemma CarryNext(lines: seq<string>, picks: seq<nat>, i: nat)
    requires i < |lines|
    ensures Joined(Carried(lines, picks + [i]))
            == if picks == [] then CarriedBy(lines[i]) else Joined(Carried(lines, picks)) + "\n" + CarriedBy(lines[i])
  {
    hide CarriedBy;
    var more := Carried(lines, picks + [i]);
    assert more[..|picks|] == Carried(lines, picks);
  }

  lemma JoinNext(lines: seq<string>, n: nat)
    requires n < |lines|
    ensures JoinData(lines, n + 1)
            == if HasData(lines[n]) then
                 Some(if JoinData(lines, n).None? then CarriedBy(lines[n])
                      else JoinData(lines, n).value + "\n" + CarriedBy(lines[n]))
               else JoinData(lines, n)
  {
    hide Text.Trim;
  }

  lemma {:induction false} JoinMeaning(lines: seq<string>, n: nat) returns (picks: seq<nat>)
    requires n <= |lines|
    ensures DataLines(lines, n, picks)
    ensures JoinData(lines, n) == if picks == [] then None else Some(Joined(Carried(lines, picks)))
  {
    hide DataLines, JoinData, Joined, Carried, CarriedBy, HasData;
    if n == 0 {
      picks := [];
      NothingPicked(lines);
    } else {
      picks := JoinMeaning(lines, n - 1);
      PickNext(lines, n - 1, picks);
      JoinNext(lines, n - 1);
      if HasData(lines[n - 1]) {
        CarryNext(lines, picks, n - 1);
        picks := picks + [n - 1];
      }
    }
  }

  /** A frame delivers what its data lines carry, one per line, or nothing if
      that is empty. */
  lemma FrameMeaning(text: string) returns (picks: seq<nat>)
    ensures var lines := Text.CutLines(text);
            && DataLines(lines, |lines|, picks)
            && var joined := Joined(Carried(lines, picks));
               FrameData(text) == if joined == "" then None else Some(joined)
  {
    hide Text.CutLines, JoinData;
    picks := JoinMeaning(Text.CutLines(text), |Text.CutLines(text)|);
  }

  method DecodeFrame(text: string) returns (r: Option<string>)
    ensures r == FrameData(text)
  {
    var lines := Text.CutLines(text);
    var data, first := "", true;
    for n := 0 to |lines|
      invariant JoinData(lines, n) == if first then None else Some(data)
      invariant first ==> data == ""
    {
      var payload := Text.StripPrefix(lines[n], "data:");
      if payload.Some? {
        var line := Text.Trim(payload.value);
        assert "" + line == line;
        data := (if first then data else data + "\n") + line;
        first := false;
      }
    }
    r := if data == "" then None else Some(data);
  }

  predicate Valid(strict: Strict, frame: Bytes) {
    strict(frame).Some?
  }

  /** The data of the first `n` frames. */
  function DataOf(strict: Strict, frames: seq<Bytes>): seq<string> {
    if frames == [] then []
    else
      var before := DataOf(strict, frames[..|frames| - 1]);
      match strict(frames[|frames| - 1])
      case None => before
      case Some(text) =>
        match FrameData(text)
        case None => before
        case Some(data) => before + [data]
  }

  ghost predicate AllValid(strict: Strict, frames: seq<Bytes>) {
    forall k :: 0 <= k < |frames| ==> Valid(strict, frames[k])
  }

  /** What one push does, whatever has been searched before: the data of the
      frames that are complete, or an error at the first invalid one, whose
      push loses the data before it and leaves the frames behind it. */
  function Pushed(strict: Strict, buf: Bytes, p: nat, out: seq<string>): (Option<seq<string>>, Bytes)
    requires p <= |buf|
    decreases |buf| - p
  {
    NextEndRange(buf, p);
    match NextEnd(buf, p)
    case None => (Some(out), buf[p..])
    case Some(e) =>
      match strict(buf[p..e])
      case None => (None, buf[e..])
      case Some(text) =>
        match FrameData(text)
        case None => Pushed(strict, buf, e, out)
        case Some(data) => Pushed(strict, buf, e, out + [data])
  }

  class SseBuffer {
    var buf: Bytes
    var scanned: nat
    const strict: Strict

    /** No delimiter begins in the searched part, nor will one: each position
        has been seen with its full lookahead. */
    ghost predicate Valid()
      reads this
    {
      scanned <= |buf| && (scanned == 0 || scanned + 3 <= |buf|)
      && forall q :: 0 <= q < scanned ==> DelimiterAt(buf, q) == 0
    }

    constructor (strict: Strict)
      ensures Valid() && buf == [] && this.strict == strict
    {
      buf, scanned := [], 0;
      this.strict := strict;
    }

    method Push(bytes: Bytes) returns (r: Option<seq<string>>)
      requires Valid()
      modifies this
      ensures Valid()
      ensures (r, buf) == Pushed(strict, old(buf) + bytes, 0, [])
    {
      hide NextEnd, Pushed, FrameData;
      SearchedStays(buf, bytes, scanned);
      buf := buf + bytes;
      ghost var whole := buf;
      var out: seq<string> := [];
      var consumed, pos := 0, scanned;
      while pos < |buf|
        invariant buf == whole && consumed <= pos <= |buf|
        invariant NextEnd(buf, consumed) == NextEnd(buf, pos)
        invariant Pushed(strict, buf, 0, []) == Pushed(strict, buf, consumed, out)
        invariant forall q :: consumed <= q < pos ==> DelimiterAt(buf, q) == 0
        decreases |buf| - pos
      {
        NextEndStep(buf, pos);
        var delimiter := DelimiterAt(buf, pos);
        if delimiter == 0 {
          pos := pos + 1;
        } else {
          var end := pos + delimiter;
          PushedStep(strict, buf, consumed, end, out);
          var frame := strict(buf[consumed..end]);
          if frame.None? {
            buf := buf[end..];
            scanned := 0;
            return None;
          }
          var data := DecodeFrame(frame.value);
          if data.Some? {
            out := out + [data.value];
          }
          consumed, pos := end, end;
        }
      }
      PushedEnd(strict, buf, consumed, out);
      NoDelimiterShift(buf, consumed);
      buf := buf[consumed..];
      scanned := if |buf| >= 3 then |buf| - 3 else 0;
      r := Some(out);
    }
  }

  lemma SearchedStays(buf: Bytes, bytes: Bytes, scanned: nat)
    requires scanned <= |buf| && (scanned == 0 || scanned + 3 <= |buf|)
    requires forall q :: 0 <= q < scanned ==> DelimiterAt(buf, q) == 0
    ensures forall q :: 0 <= q < scanned ==> DelimiterAt(buf + bytes, q) == 0
    ensures NextEnd(buf + bytes, 0) == NextEnd(buf + bytes, scanned)
  {
    forall q | 0 <= q < scanned
      ensures DelimiterAt(buf + bytes, q) == 0
    {
      assert DelimiterAt(buf, q) == 0;
      assert q + 4 <= |buf|;
    }
    SkipFrames(buf + bytes, 0, scanned);
  }

  lemma {:induction false} SkipFrames(s: Bytes, p: nat, q: nat)
    requires p <= q <= |s| && forall x :: p <= x < q ==> DelimiterAt(s, x) == 0
    ensures NextEnd(s, p) == NextEnd(s, q)
    decreases q - p
  {
    if p < q {
      SkipFrames(s, p + 1, q);
    }
  }

  lemma NextEndStep(s: Bytes, p: nat)
    requires p < |s|
    ensures NextEnd(s, p) == if DelimiterAt(s, p) > 0 then Some(p + DelimiterAt(s, p)) else NextEnd(s, p + 1)
    ensures p + DelimiterAt(s, p) <= |s|
  {
  }

  lemma PushedStep(strict: Strict, s: Bytes, p: nat, e: nat, out: seq<string>)
    requires p < e <= |s| && NextEnd(s, p) == Some(e)
    ensures Pushed(strict, s, p, out)
            == match strict(s[p..e])
               case None => (None, s[e..])
               case Some(text) =>
                 Pushed(strict, s, e, if FrameData(text).Some? then out + [FrameData(text).value] else out)
  {
    hide FrameData;
  }

  lemma PushedEnd(strict: Strict, s: Bytes, p: nat, out: seq<string>)
    requires p <= |s| && NextEnd(s, p) == NextEnd(s, |s|)
    ensures Pushed(strict, s, p, out) == (Some(out), s[p..])
  {
  }

  lemma NoDelimiterShift(s: Bytes, p: nat)
    requires p <= |s| && forall q :: p <= q < |s| ==> DelimiterAt(s, q) == 0
    ensures forall q :: 0 <= q < |s| - p ==> DelimiterAt(s[p..], q) == 0
  {
    forall q | 0 <= q < |s| - p
      ensures DelimiterAt(s[p..], q) == 0
    {
      assert DelimiterAt(s, p + q) == 0;
    }
  }

  // ----- any chunking -----

  /** Everything a caller gets who pushes the chunks one after the other and
      goes on after an error; and the bytes kept at the end. */
  function Session(strict: Strict, chunks: seq<Bytes>): (seq<string>, Bytes) {
    if chunks == [] then ([], [])
    else
      var (out, buf) := Session(strict, chunks[..|chunks| - 1]);
      var (r, rest) := Pushed(strict, buf + chunks[|chunks| - 1], 0, []);
      (out + (if r.Some? then r.value else []), rest)
  }

  /** The buffer object does just that. */
  method DecodeFrames(strict: Strict, chunks: seq<Bytes>) returns (out: seq<string>, rest: Bytes)
    ensures (out, rest) == Session(strict, chunks)
  {
    hide Pushed;
    var buffer := new SseBuffer(strict);
    out := [];
    for k := 0 to |chunks|
      invariant buffer.Valid() && fresh(buffer) && buffer.strict == strict
      invariant (out, buffer.buf) == Session(strict, chunks[..k])
    {
      assert chunks[..k + 1][..k] == chunks[..k];
      var r := buffer.Push(chunks[k]);
      out := out + (if r.Some? then r.value else []);
    }
    assert chunks[..|chunks|] == chunks;
    rest := buffer.buf;
  }

  lemma {:induction false} DataOfAppend(strict: Strict, a: seq<Bytes>, b: seq<Bytes>)
    ensures DataOf(strict, a + b) == DataOf(strict, a) + DataOf(strict, b)
  {
    hide FrameData;
    if b == [] {
      assert a + b == a;
    } else {
      assert (a + b)[..|a + b| - 1] == a + b[..|b| - 1];
      DataOfAppend(strict, a, b[..|b| - 1]);
    }
  }

  lemma OneData(strict: Strict, frame: Bytes)
    ensures DataOf(strict, [frame])
            == match strict(frame)
               case None => []
               case Some(text) => if FrameData(text).Some? then [FrameData(text).value] else []
  {
    hide FrameData;
    assert [frame][..0] == [];
  }

  lemma {:induction false} PushedValid(strict: Strict, s: Bytes, p: nat, out: seq<string>)
    requires p <= |s| && AllValid(strict, Frames(s, p))
    ensures Pushed(strict, s, p, out) == (Some(out + DataOf(strict, Frames(s, p))), s[FrameRest(s, p)..])
    decreases |s| - p
  {
    hide NextEnd, Frames, FrameRest, FrameData, DataOf;
    if NextEnd(s, p).None? {
      NoFrame(s, p);
      NoData(strict);
      assert out + [] == out;
    } else {
      var e := NextEnd(s, p).value;
      OneFrame(s, p, e);
      assert Frames(s, p)[0] == s[p..e];
      assert Frames(s, e) == Frames(s, p)[1..];
      DataOfAppend(strict, [s[p..e]], Frames(s, e));
      OneData(strict, s[p..e]);
      var text := strict(s[p..e]).value;
      var out' := if FrameData(text).Some? then out + [FrameData(text).value] else out;
      PushedValid(strict, s, e, out');
      assert out' + DataOf(strict, Frames(s, e)) == out + (DataOf(strict, [s[p..e]]) + DataOf(strict, Frames(s, e)));
    }
  }

  lemma NoData(strict: Strict)
    ensures DataOf(strict, []) == []
  {
  }

  /** For every chunking of a stream whose frames are all valid, the caller
      gets the data of the unsplit stream. */
  lemma {:induction false} FramesSplitInvariant(strict: Strict, chunks: seq<Bytes>)
    requires AllValid(strict, Frames(Concat(chunks), 0))
    ensures var s := Concat(chunks);
            Session(strict, chunks) == (DataOf(strict, Frames(s, 0)), s[FrameRest(s, 0)..])
  {
    hide Pushed, Frames, FrameRest, DataOf;
    if chunks == [] {
      NoFrame([], 0);
      NoData(strict);
    } else {
      var front, last := chunks[..|chunks| - 1], chunks[|chunks| - 1];
      var a, s := Concat(front), Concat(chunks);
      FramesAppend(a, s, 0);
      var rest := FrameRest(a, 0);
      assert forall k :: 0 <= k < |Frames(a, 0)| ==> Frames(a, 0)[k] == Frames(s, 0)[k];
      FramesSplitInvariant(strict, front);
      var t := a[rest..] + last;
      assert s[rest..] == t && t[0..] == t;
      FramesShift(s, t, rest, 0);
      assert forall k :: 0 <= k < |Frames(t, 0)| ==> Frames(t, 0)[k] == Frames(s, 0)[|Frames(a, 0)| + k];
      PushedValid(strict, t, 0, []);
      DataOfAppend(strict, Frames(a, 0), Frames(t, 0));
      assert [] + DataOf(strict, Frames(t, 0)) == DataOf(strict, Frames(t, 0));
      assert s[rest + FrameRest(t, 0)..] == t[FrameRest(t, 0)..];
    }
  }

  // ----- exactly when the chunking does not matter -----

  /** No valid frame carries data. */
  ghost predicate Silent(strict: Strict, frames: seq<Bytes>) {
    forall k :: 0 <= k < |frames| ==> strict(frames[k]).None? || FrameData(strict(frames[k]).value).None?
  }

  lemma {:induction false} SilentData(strict: Strict, frames: seq<Bytes>)
    ensures DataOf(strict, frames) == [] <==> Silent(strict, frames)
  {
    hide FrameData;
    if frames != [] {
      var front, last := frames[..|frames| - 1], frames[|frames| - 1];
      SilentData(strict, front);
      if Silent(strict, front) && (strict(last).None? || FrameData(strict(last).value).None?) {
        assert forall k :: 0 <= k < |front| ==> frames[k] == front[k];
      }
      if Silent(strict, frames) {
        assert forall k :: 0 <= k < |front| ==> front[k] == frames[k];
        assert frames[|frames| - 1] == last;
      }
    }
  }

  lemma {:induction false} PushedInvalid(strict: Strict, s: Bytes, p: nat, out: seq<string>)
    requires p <= |s| && !AllValid(strict, Frames(s, p))
    ensures Pushed(strict, s, p, out).0 == None
    decreases |s| - p
  {
    hide NextEnd, Frames, FrameRest, FrameData;
    if NextEnd(s, p).None? {
      NoFrame(s, p);
    } else {
      var e := NextEnd(s, p).value;
      OneFrame(s, p, e);
      if strict(s[p..e]).Some? {
        var text := strict(s[p..e]).value;
        assert forall k :: 0 < k < |Frames(s, p)| ==> Frames(s, p)[k] == Frames(s, e)[k - 1];
        PushedInvalid(strict, s, e, if FrameData(text).Some? then out + [FrameData(text).value] else out);
      }
    }
  }

  /** A frame on its own is one frame. */
  lemma FrameAlone(s: Bytes, p: nat, e: nat)
    requires NextEnd(s, p) == Some(e) && p <= e <= |s|
    ensures NextEnd(s[p..e], 0) == Some(e - p)
  {
    var t := s[..e];
    TruncatedFrame(s, p, e);
    assert t[p..] == s[p..e] && s[p..e][0..] == s[p..e];
    NextEndShift(t, s[p..e], p, 0);
  }

  lemma {:induction false} TruncatedFrame(s: Bytes, p: nat, e: nat)
    requires NextEnd(s, p) == Some(e) && p <= e <= |s|
    ensures NextEnd(s[..e], p) == Some(e)
    decreases e - p
  {
    DelimiterKept(s[..e], s, p);
    if DelimiterAt(s, p) == 0 {
      NextEndRange(s, p + 1);
      TruncatedFrame(s, p + 1, e);
    }
  }

  lemma PushFrame(strict: Strict, frame: Bytes)
    requires NextEnd(frame, 0) == Some(|frame|)
    ensures Pushed(strict, [] + frame, 0, []).1 == []
    ensures var r := Pushed(strict, [] + frame, 0, []).0; (if r.Some? then r.value else []) == DataOf(strict, [frame])
  {
    hide FrameData, DataOf, NextEnd;
    assert [] + frame == frame && frame[0..|frame|] == frame;
    NextEndRange(frame, 0);
    PushedStep(strict, frame, 0, |frame|, []);
    OneData(strict, frame);
    var none: seq<string> := [];
    forall out: seq<string>
      ensures Pushed(strict, frame, |frame|, out) == (Some(out), [])
    {
      PushedEnd(strict, frame, |frame|, out);
    }
  }

  lemma {:induction false} FramesAlone(s: Bytes, p: nat)
    requires p <= |s|
    ensures forall k :: 0 <= k < |Frames(s, p)| ==> NextEnd(Frames(s, p)[k], 0) == Some(|Frames(s, p)[k]|)
    decreases |s| - p
  {
    hide NextEnd, Frames;
    if NextEnd(s, p).None? {
      NoFrame(s, p);
    } else {
      var e := NextEnd(s, p).value;
      OneFrame(s, p, e);
      FrameAlone(s, p, e);
      FramesAlone(s, e);
    }
  }

  /** One frame per push: an invalid frame costs only itself. */
  lemma {:induction false} FrameByFrame(strict: Strict, frames: seq<Bytes>)
    requires forall k :: 0 <= k < |frames| ==> NextEnd(frames[k], 0) == Some(|frames[k]|)
    ensures Session(strict, frames) == (DataOf(strict, frames), [])
  {
    hide NextEnd, Pushed, DataOf;
    if frames == [] {
      NoData(strict);
    } else {
      var front, last := frames[..|frames| - 1], frames[|frames| - 1];
      FrameByFrame(strict, front);
      assert frames[|frames| - 1] == last;
      PushFrame(strict, last);
      DataOfAppend(strict, front, [last]);
      assert frames == front + [last];
    }
  }

  lemma {:induction false} FramesConcat(s: Bytes, p: nat)
    requires p <= |s|
    ensures Concat(Frames(s, p)) + s[FrameRest(s, p)..] == s[p..]
    decreases |s| - p
  {
    hide NextEnd, Frames, FrameRest, Concat;
    if NextEnd(s, p).None? {
      NoFrame(s, p);
      ConcatEnds();
    } else {
      var e := NextEnd(s, p).value;
      OneFrame(s, p, e);
      FramesConcat(s, e);
      ConcatFirst(s[p..e], Frames(s, e));
      assert s[p..] == s[p..e] + s[e..];
    }
  }

  lemma ConcatEnds()
    ensures Concat([]) == []
  {
  }

  lemma {:induction false} ConcatFirst(a: Bytes, rest: seq<Bytes>)
    ensures Concat([a] + rest) == a + Concat(rest)
  {
    if rest == [] {
      assert ([a] + rest)[..0] == [];
      assert [a] + rest == [a];
    } else {
      assert ([a] + rest)[..|rest|] == [a] + rest[..|rest| - 1];
      ConcatFirst(a, rest[..|rest| - 1]);
    }
  }

  /** The chunking that ends a chunk with every frame. */
  function ByFrame(s: Bytes): seq<Bytes> {
    Frames(s, 0) + [s[FrameRest(s, 0)..]]
  }

  lemma ByFrameSession(strict: Strict, s: Bytes)
    ensures Concat(ByFrame(s)) == s && Session(strict, ByFrame(s)).0 == DataOf(strict, Frames(s, 0))
  {
    hide NextEnd, Pushed, DataOf, Frames, FrameRest;
    FramesConcat(s, 0);
    FramesAlone(s, 0);
    FrameByFrame(strict, Frames(s, 0));
    var rest := s[FrameRest(s, 0)..];
    assert ByFrame(s)[..|ByFrame(s)| - 1] == Frames(s, 0);
    RestHasNoFrame(s, 0);
    assert [] + rest == rest;
    PushedNothing(strict, rest);
    assert s[0..] == s;
    assert DataOf(strict, Frames(s, 0)) + [] == DataOf(strict, Frames(s, 0));
  }

  lemma PushedNothing(strict: Strict, s: Bytes)
    requires NextEnd(s, 0) == None
    ensures Pushed(strict, s, 0, []).0 == Some([])
  {
  }

  lemma {:induction false} RestHasNoFrame(s: Bytes, p: nat)
    requires p <= |s|
    ensures NextEnd(s[FrameRest(s, p)..], 0) == None
    decreases |s| - p
  {
    hide NextEnd, Frames, FrameRest;
    if NextEnd(s, p).None? {
      NoFrame(s, p);
      assert s[p..][0..] == s[p..];
      NextEndShift(s, s[p..], p, 0);
    } else {
      OneFrame(s, p, NextEnd(s, p).value);
      RestHasNoFrame(s, NextEnd(s, p).value);
    }
  }

  lemma WholeSession(strict: Strict, s: Bytes)
    ensures Session(strict, [s]).0 == if Pushed(strict, s, 0, []).0.Some? then Pushed(strict, s, 0, []).0.value else []
  {
    hide Pushed;
    assert [s][..0] == [];
    assert [] + s == s;
    var r := Pushed(strict, s, 0, []).0;
    assert [] + (if r.Some? then r.value else []) == (if r.Some? then r.value else []);
  }

  /** From a frame boundary on, no push of a silent stream delivers data, and
      each ends at a frame boundary. */
  lemma {:induction false} PushedSilent(strict: Strict, s: Bytes, p: nat) returns (q: nat)
    requires p <= |s| && Silent(strict, Frames(s, p))
    ensures p <= q <= |s| && Pushed(strict, s, p, []).1 == s[q..]
    ensures Pushed(strict, s, p, []).0.Some? ==> Pushed(strict, s, p, []).0.value == []
    ensures |Frames(s, q)| <= |Frames(s, p)| && Frames(s, q) == Frames(s, p)[|Frames(s, p)| - |Frames(s, q)|..]
    ensures FrameRest(s, q) == FrameRest(s, p)
    decreases |s| - p
  {
    hide NextEnd, Frames, FrameRest, FrameData;
    if NextEnd(s, p).None? {
      NoFrame(s, p);
      q := p;
    } else {
      var e := NextEnd(s, p).value;
      OneFrame(s, p, e);
      if strict(s[p..e]).None? {
        q := e;
        assert Frames(s, e) == Frames(s, p)[1..];
      } else {
        assert Frames(s, p)[0] == s[p..e];
        assert forall k :: 0 <= k < |Frames(s, e)| ==> Frames(s, e)[k] == Frames(s, p)[k + 1];
        q := PushedSilent(strict, s, e);
        assert Frames(s, q) == Frames(s, p)[|Frames(s, p)| - |Frames(s, q)|..];
      }
    }
  }

  lemma {:induction false} SilentSession(strict: Strict, chunks: seq<Bytes>) returns (q: nat)
    requires Silent(strict, Frames(Concat(chunks), 0))
    ensures var s := Concat(chunks);
            && q <= |s|
            && Session(strict, chunks) == ([], s[q..])
            && |Frames(s, q)| <= |Frames(s, 0)|
            && Frames(s, q) == Frames(s, 0)[|Frames(s, 0)| - |Frames(s, q)|..]
            && FrameRest(s, q) == FrameRest(s, 0)
  {
    hide NextEnd, Frames, FrameRest, FrameData, Pushed;
    if chunks == [] {
      q := 0;
    } else {
      var front, last := chunks[..|chunks| - 1], chunks[|chunks| - 1];
      var a, s := Concat(front), Concat(chunks);
      FramesAppend(a, s, 0);
      assert forall k :: 0 <= k < |Frames(a, 0)| ==> Frames(a, 0)[k] == Frames(s, 0)[k];
      var p := SilentSession(strict, front);
      q := SilentPush(strict, a, s, p, last);
      var none: seq<string> := [];
      assert none + none == none;
    }
  }

  lemma SilentPush(strict: Strict, a: Bytes, s: Bytes, p: nat, last: Bytes) returns (q: nat)
    requires s == a + last && p <= |a| && Silent(strict, Frames(s, 0))
    requires |Frames(a, p)| <= |Frames(a, 0)| && Frames(a, p) == Frames(a, 0)[|Frames(a, 0)| - |Frames(a, p)|..]
    requires FrameRest(a, p) == FrameRest(a, 0)
    ensures q <= |s| && Pushed(strict, a[p..] + last, 0, []).1 == s[q..]
    ensures var r := Pushed(strict, a[p..] + last, 0, []).0; r.Some? ==> r.value == []
    ensures |Frames(s, q)| <= |Frames(s, 0)| && Frames(s, q) == Frames(s, 0)[|Frames(s, 0)| - |Frames(s, q)|..]
    ensures FrameRest(s, q) == FrameRest(s, 0)
  {
    hide NextEnd, Frames, FrameRest, FrameData, Pushed;
    FramesAppend(a, s, 0);
    FramesAppend(a, s, p);
    var t := a[p..] + last;
    assert s[p..] == t && t[0..] == t;
    FramesShift(s, t, p, 0);
    assert Frames(s, p) == Frames(s, 0)[|Frames(s, 0)| - |Frames(s, p)|..];
    assert Silent(strict, Frames(t, 0));
    var x := PushedSilent(strict, t, 0);
    q := p + x;
    assert t[x..] == s[q..];
    FramesShift(s, t, q, x);
  }

  ghost predicate ChunkingIrrelevant(strict: Strict, s: Bytes) {
    forall chunks :: Concat(chunks) == s ==> Session(strict, chunks).0 == Session(strict, [s]).0
  }

  /** The chunking does not matter exactly if every frame is valid or none
      carries data: otherwise an invalid frame takes the data of the frames
      before it in the same push, and leaves those behind it. */
  lemma WhenChunkingIsIrrelevant(strict: Strict, s: Bytes)
    ensures ChunkingIrrelevant(strict, s) <==> AllValid(strict, Frames(s, 0)) || Silent(strict, Frames(s, 0))
  {
    hide NextEnd, Frames, FrameRest, FrameData, Pushed, AllValid, Silent, Session, Concat;
    ConcatOne(s);
    if AllValid(strict, Frames(s, 0)) {
      forall chunks | Concat(chunks) == s
        ensures Session(strict, chunks).0 == Session(strict, [s]).0
      {
        FramesSplitInvariant(strict, chunks);
        FramesSplitInvariant(strict, [s]);
      }
    } else if Silent(strict, Frames(s, 0)) {
      forall chunks | Concat(chunks) == s
        ensures Session(strict, chunks).0 == Session(strict, [s]).0
      {
        var q := SilentSession(strict, chunks);
        var r := SilentSession(strict, [s]);
      }
    } else {
      PushedInvalid(strict, s, 0, []);
      WholeSession(strict, s);
      SilentData(strict, Frames(s, 0));
      ByFrameSession(strict, s);
    }
  }

  lemma ConcatOne(s: Bytes)
    ensures Concat([s]) == s
  {
    assert [s][..0] == [];
    assert [] + s == s;
  }

  /** A frame that delivers "a", and one that is not text. */
  const GOOD: Bytes := [100, 97, 116, 97, 58, 97, 10, 10]
  const BAD: Bytes := [255, 10, 10]

  /** Pushed together the invalid frame takes the data of the valid one with
      it; pushed one by one the data arrives. */
  lemma DataLost(strict: Strict)
    requires strict(GOOD) == Some("data:a\n\n") && strict(BAD) == None
    ensures Session(strict, [GOOD + BAD]).0 == [] && Session(strict, [GOOD, BAD]).0 == ["a"]
  {
    hide Pushed, FrameData, Session, DataOf;
    FramesOfBoth();
    var s := GOOD + BAD;
    assert !Valid(strict, Frames(s, 0)[1]);
    PushedInvalid(strict, s, 0, []);
    WholeSession(strict, s);
    assert NextEnd(GOOD, 0) == Some(|GOOD|) && NextEnd(BAD, 0) == Some(|BAD|) by { FramesOfBoth(); }
    FrameByFrame(strict, [GOOD, BAD]);
    GoodData();
    OneData(strict, GOOD);
    OneData(strict, BAD);
    DataOfAppend(strict, [GOOD], [BAD]);
    assert [GOOD] + [BAD] == [GOOD, BAD];
    assert ["a"] + [] == ["a"];
  }

  lemma FramesOfBoth()
    ensures NextEnd(GOOD, 0) == Some(|GOOD|) && NextEnd(BAD, 0) == Some(|BAD|)
    ensures Frames(GOOD + BAD, 0) == [GOOD, BAD]
  {
    var s := GOOD + BAD;
    SkipFrames(GOOD, 0, 6);
    SkipFrames(BAD, 0, 1);
    SkipFrames(s, 0, 6);
    SkipFrames(s, 8, 9);
    NextEndStep(GOOD, 6);
    NextEndStep(BAD, 1);
    NextEndStep(s, 6);
    NextEndStep(s, 9);
    OneFrame(s, 0, 8);
    OneFrame(s, 8, 11);
    assert NextEnd(s, 11) == None;
    NoFrame(s, 11);
    assert s[0..8] == GOOD && s[8..11] == BAD;
  }

  lemma GoodLines()
    ensures Text.CutLines("data:a\n\n") == ["data:a", ""]
  {
    hide Text.CutLines;
    assert "data:a" + "\n" + "\n" == "data:a\n\n" && "" + "\n" + "" == "\n";
    Text.CutTerminated("data:a", "\n");
    Text.CutTerminated("", "");
    Text.CutLast("");
  }

  lemma GoodPayload()
    ensures Text.StripPrefix("data:a", "data:") == Some("a") && Text.StripPrefix("", "data:") == None
    ensures Text.Trim("a") == "a"
  {
    assert "data:a"[5..] == "a";
  }

  lemma GoodJoin()
    ensures JoinData(["data:a", ""], 2) == Some("a")
  {
    hide Text.StripPrefix, Text.Trim;
    GoodPayload();
    assert JoinData(["data:a", ""], 1) == Some("a");
  }

  lemma GoodData()
    ensures FrameData("data:a\n\n") == Some("a")
  {
    hide Text.CutLines, JoinData;
    GoodLines();
    GoodJoin();
  }
}
