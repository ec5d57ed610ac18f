/** The conversation on disk: a header line and one line per message, kept up
    to date by appending, and read back after a crash. */
module Session {
  import opened Wrappers
  import opened Transcript
  import Text

  const SESSION_FORMAT_VERSION := 1

  datatype Meta = Meta(version: nat, id: string, createdAt: nat, workspace: string, model: string,
                       parent: Option<string>)

  /** How records are written to a line and read back. */
  datatype Codec = Codec(
    line: Message -> string,
    parse: string -> Option<Message>,
    header: Meta -> string,
    parseHeader: string -> Option<Meta>)

  /** Records round-trip, are single lines, and no part of a line cut short
      reads as a record. */
  ghost predicate Faithful(c: Codec) {
    && (forall m :: c.parse(c.line(m)) == Some(m))
    && (forall m :: Text.OneLine(c.line(m)))
    && (forall m, n :: 0 <= n < |c.line(m)| ==> c.parse(c.line(m)[..n]) == None)
    && (forall h :: c.parseHeader(c.header(h)) == Some(h))
    && (forall h :: Text.OneLine(c.header(h)) && Text.Trim(c.header(h)) != "")
  }

  /** One terminated line per message. */
  function Body(c: Codec, ms: seq<Message>): string {
    if ms == [] then "" else Body(c, ms[..|ms| - 1]) + c.line(ms[|ms| - 1]) + "\n"
  }

  function Render(c: Codec, h: Meta, ms: seq<Message>): string {
    c.header(h) + "\n" + Body(c, ms)
  }

  // ----- loading -----

  datatype LoadError = MissingHeader | Corrupt(line: nat) | UnsupportedVersion(found: nat)

  datatype Loaded = Loaded(meta: Meta, messages: seq<Message>, truncated: bool, unanswered: bool)

  datatype Parsed = Parsed(messages: seq<Message>, truncated: bool)

  /** The messages of lines 2 to `n`; a last line without its line feed may be
      unreadable. */
  function ParseLines(c: Codec, lines: seq<string>, n: nat, complete: bool): Result<Parsed, LoadError>
    requires n <= |lines|
  {
    if n <= 1 then Ok(Parsed([], false))
    else
      match ParseLines(c, lines, n - 1, complete)
      case Err(e) => Err(e)
      case Ok(before) =>
        match c.parse(lines[n - 1])
        case Some(m) => Ok(Parsed(before.messages + [m], before.truncated))
        case None =>
          if n == |lines| && !complete then Ok(Parsed(before.messages, true)) else Err(Corrupt(n))
  }

  lemma {:induction false} ParseStops(c: Codec, lines: seq<string>, m: nat, n: nat, complete: bool)
    requires m <= n <= |lines| && ParseLines(c, lines, m, complete).Err?
    ensures ParseLines(c, lines, n, complete) == ParseLines(c, lines, m, complete)
    decreases n
  {
    if m < n {
      ParseStops(c, lines, m, n - 1, complete);
    }
  }

  function EndsLine(text: string): bool {
    text != "" && text[|text| - 1] == '\n'
  }

  function Loads(c: Codec, text: string): Result<Loaded, LoadError> {
    var lines := Text.CutLines(text);
    if lines == [] || Text.Trim(lines[0]) == "" then Err(MissingHeader)
    else
      match c.parseHeader(lines[0])
      case None => Err(Corrupt(1))
      case Some(meta) =>
        if meta.version != SESSION_FORMAT_VERSION then Err(UnsupportedVersion(meta.version))
        else
          match ParseLines(c, lines, |lines|, EndsLine(text))
          case Err(e) => Err(e)
          case Ok(parsed) =>
            var repaired := DropUnanswered(parsed.messages);
            Ok(Loaded(meta, repaired, parsed.truncated, |repaired| < |parsed.messages|))
  }

  method Load(c: Codec, text: string) returns (r: Result<Loaded, LoadError>)
    ensures r == Loads(c, text)
  {
    var complete := EndsLine(text);
    var lines := Text.CutLines(text);
    if lines == [] || Text.Trim(lines[0]) == "" {
      return Err(MissingHeader);
    }
    var header := c.parseHeader(lines[0]);
    if header.None? {
      return Err(Corrupt(1));
    }
    if header.value.version != SESSION_FORMAT_VERSION {
      return Err(UnsupportedVersion(header.value.version));
    }
    var messages: seq<Message> := [];
    var truncated := false;
    for n := 1 to |lines|
      invariant ParseLines(c, lines, n, complete) == Ok(Parsed(messages, truncated))
    {
      var parsed := c.parse(lines[n]);
      if parsed.Some? {
        messages := messages + [parsed.value];
      } else if n + 1 == |lines| && !complete {
        truncated := true;
      } else {
        ParseStops(c, lines, n + 1, |lines|, complete);
        return Err(Corrupt(n + 1));
      }
    }
    var unanswered := messages != [] && messages[|messages| - 1].Assistant? && messages[|messages| - 1].calls != [];
    if unanswered {
      messages := messages[..|messages| - 1];
    }
    r := Ok(Loaded(header.value, messages, truncated, unanswered));
  }

  /** The first line that cannot be read, unless it is an unfinished last one. */
  ghost predicate BadLine(c: Codec, lines: seq<string>, complete: bool, n: nat) {
    && 2 <= n <= |lines|
    && c.parse(lines[n - 1]).None?
    && (n < |lines| || complete)
    && forall k :: 1 <= k < n - 1 ==> c.parse(lines[k]).Some?
  }

  /** One message per line behind the header, but for an unfinished last one. */
  ghost predicate ReadFrom(c: Codec, lines: seq<string>, n: nat, ms: seq<Message>, truncated: bool)
    requires n <= |lines|
  {
    && |ms| == (if n <= 1 then 0 else n - 1) - (if truncated then 1 else 0)
    && forall k :: 0 <= k < |ms| ==> c.parse(lines[k + 1]) == Some(ms[k])
  }

  lemma {:induction false} ParseMeaning(c: Codec, lines: seq<string>, n: nat, complete: bool)
    requires n <= |lines|
    ensures match ParseLines(c, lines, n, complete)
            case Err(error) => error.Corrupt? && error.line <= n && BadLine(c, lines, complete, error.line)
            case Ok(parsed) =>
              && ReadFrom(c, lines, n, parsed.messages, parsed.truncated)
              && (parsed.truncated <==> n == |lines| >= 2 && !complete && c.parse(lines[n - 1]).None?)
    decreases n
  {
    if n > 1 {
      ParseMeaning(c, lines, n - 1, complete);
      var before := ParseLines(c, lines, n - 1, complete);
      if before.Ok? {
        forall k | 1 <= k < n - 1
          ensures c.parse(lines[k]).Some?
        {
          assert c.parse(lines[k - 1 + 1]) == Some(before.value.messages[k - 1]);
        }
      }
    }
  }

  /** What a file loads as, and which files are rejected for what: no header,
      a header that cannot be read, another version, or a first line that
      cannot be read and is not an unfinished last one. */
  ghost predicate LoadedRight(c: Codec, lines: seq<string>, complete: bool, r: Result<Loaded, LoadError>) {
    match r
    case Err(MissingHeader) => lines == [] || Text.Trim(lines[0]) == ""
    case Err(UnsupportedVersion(found)) =>
      && lines != [] && Text.Trim(lines[0]) != ""
      && c.parseHeader(lines[0]).Some? && c.parseHeader(lines[0]).value.version == found != 1
    case Err(Corrupt(line)) =>
      && lines != [] && Text.Trim(lines[0]) != ""
      && if c.parseHeader(lines[0]).None? then line == 1
         else c.parseHeader(lines[0]).value.version == 1 && BadLine(c, lines, complete, line)
    case Ok(loaded) =>
      && lines != [] && Text.Trim(lines[0]) != ""
      && c.parseHeader(lines[0]) == Some(loaded.meta) && loaded.meta.version == 1
      && AllRead(c, lines, complete, loaded)
  }

  ghost predicate AllRead(c: Codec, lines: seq<string>, complete: bool, loaded: Loaded) {
    && (loaded.truncated <==> |lines| >= 2 && !complete && c.parse(lines[|lines| - 1]).None?)
    && exists all :: ReadFrom(c, lines, |lines|, all, loaded.truncated) && Repaired(all, loaded)
  }

  /** A last message that waits for its results is dropped. */
  ghost predicate Repaired(all: seq<Message>, loaded: Loaded) {
    && (loaded.unanswered <==> all != [] && all[|all| - 1].Assistant? && all[|all| - 1].calls != [])
    && loaded.messages == if loaded.unanswered then all[..|all| - 1] else all
  }

  lemma AllReadDef(c: Codec, lines: seq<string>, complete: bool, meta: Meta, all: seq<Message>, truncated: bool)
    requires ReadFrom(c, lines, |lines|, all, truncated)
    requires truncated <==> |lines| >= 2 && !complete && c.parse(lines[|lines| - 1]).None?
    ensures AllRead(c, lines, complete,
                    Loaded(meta, DropUnanswered(all), truncated, |DropUnanswered(all)| < |all|))
  {
    assert Repaired(all, Loaded(meta, DropUnanswered(all), truncated, |DropUnanswered(all)| < |all|));
  }

  lemma LoadMeaning(c: Codec, text: string)
    ensures LoadedRight(c, Text.CutLines(text), text != "" && text[|text| - 1] == '\n', Loads(c, text))
  {
    hide Text.Trim, Text.CutLines, ParseLines, BadLine, ReadFrom, AllRead, DropUnanswered;
    var lines := Text.CutLines(text);
    ParseMeaning(c, lines, |lines|, EndsLine(text));
    var parsed := ParseLines(c, lines, |lines|, EndsLine(text));
    if Loads(c, text).Ok? {
      AllReadDef(c, lines, EndsLine(text), c.parseHeader(lines[0]).value, parsed.value.messages,
                 parsed.value.truncated);
    }
  }

  // ----- what a rendered file loads as -----

  function LinesOf(c: Codec, ms: seq<Message>): (lines: seq<string>)
    ensures |lines| == |ms|
  {
    seq(|ms|, i requires 0 <= i < |ms| => c.line(ms[i]))
  }

  lemma {:induction false} BodyAppend(c: Codec, a: seq<Message>, b: seq<Message>)
    ensures Body(c, a + b) == Body(c, a) + Body(c, b)
  {
    if b == [] {
      assert a + b == a;
    } else {
      assert (a + b)[..|a + b| - 1] == a + b[..|b| - 1];
      BodyAppend(c, a, b[..|b| - 1]);
    }
  }

  lemma BodyFirst(c: Codec, ms: seq<Message>)
    requires ms != []
    ensures Body(c, ms) == c.line(ms[0]) + "\n" + Body(c, ms[1..])
  {
    BodyAppend(c, [ms[0]], ms[1..]);
    assert [ms[0]] + ms[1..] == ms;
    assert [ms[0]][..0] == [];
    assert "" + c.line(ms[0]) == c.line(ms[0]);
  }

  lemma LinesFirst(c: Codec, ms: seq<Message>)
    requires ms != []
    ensures LinesOf(c, ms) == [c.line(ms[0])] + LinesOf(c, ms[1..])
  {
  }

  lemma CutFirst(c: Codec, ms: seq<Message>, piece: string)
    requires Faithful(c) && ms != []
    ensures Text.CutLines(Body(c, ms) + piece) == [c.line(ms[0])] + Text.CutLines(Body(c, ms[1..]) + piece)
  {
    hide Body, Text.CutLines;
    var line, rest := c.line(ms[0]), Body(c, ms[1..]);
    BodyFirst(c, ms);
    assert line + "\n" + rest + piece == line + "\n" + (rest + piece);
    Text.CutTerminated(line, rest + piece);
  }

  /** Complete lines followed by a piece of a line. */
  lemma {:induction false} CutBody(c: Codec, ms: seq<Message>, piece: string)
    requires Faithful(c) && Text.OneLine(piece)
    ensures Text.CutLines(Body(c, ms) + piece) == LinesOf(c, ms) + if piece == "" then [] else [piece]
    decreases |ms|
  {
    hide Faithful, Text.CutLines;
    if ms == [] {
      Text.CutLast(piece);
      assert Body(c, ms) + piece == piece;
    } else {
      CutFirst(c, ms, piece);
      CutBody(c, ms[1..], piece);
      LinesFirst(c, ms);
    }
  }

  lemma {:induction false} ParseComplete(c: Codec, head: string, ms: seq<Message>, rest: seq<string>, n: nat,
                                         complete: bool)
    requires Faithful(c) && n <= |ms|
    ensures var lines := [head] + LinesOf(c, ms) + rest;
            ParseLines(c, lines, n + 1, complete) == Ok(Parsed(ms[..n], false))
    decreases n
  {
    var lines := [head] + LinesOf(c, ms) + rest;
    if n > 0 {
      ParseComplete(c, head, ms, rest, n - 1, complete);
      assert lines[n] == c.line(ms[n - 1]);
      assert ms[..n] == ms[..n - 1] + [ms[n - 1]];
    }
  }

  /** A file of complete records, with or without a piece of one more. */
  lemma LoadsPiece(c: Codec, h: Meta, ms: seq<Message>, piece: string)
    requires Faithful(c) && h.version == SESSION_FORMAT_VERSION && Text.OneLine(piece)
    ensures var last := if piece == "" then None else c.parse(piece);
            var all := if last.Some? then ms + [last.value] else ms;
            Loads(c, Render(c, h, ms) + piece)
            == Ok(Loaded(h, DropUnanswered(all), piece != "" && last.None?, |DropUnanswered(all)| < |all|))
  {
    hide DropUnanswered, Text.CutLines, Text.Trim;
    var text := Render(c, h, ms) + piece;
    var rest := if piece == "" then [] else [piece];
    CutBody(c, ms, piece);
    assert text == c.header(h) + "\n" + (Body(c, ms) + piece);
    Text.CutTerminated(c.header(h), Body(c, ms) + piece);
    var lines := Text.CutLines(text);
    assert lines == [c.header(h)] + LinesOf(c, ms) + rest;
    ParseComplete(c, c.header(h), ms, rest, |ms|, EndsLine(text));
    assert ms[..|ms|] == ms;
    if piece != "" {
      assert text[|text| - 1] == piece[|piece| - 1];
      assert lines[|ms| + 1] == piece;
    } else {
      assert lines == [c.header(h)] + LinesOf(c, ms);
    }
  }

  /** A rendered conversation loads as itself, but for a last message that
      waits for results. */
  lemma LoadsRendered(c: Codec, h: Meta, ms: seq<Message>)
    requires Faithful(c) && h.version == SESSION_FORMAT_VERSION
    ensures var r := Loads(c, Render(c, h, ms));
            && r.Ok? && r.value.meta == h && !r.value.truncated && r.value.messages == DropUnanswered(ms)
            && (Paired(ms) ==> r.value.messages == ms && !r.value.unanswered)
  {
    hide Loads;
    LoadsPiece(c, h, ms, "");
    assert Render(c, h, ms) + "" == Render(c, h, ms);
    if Paired(ms) && ms != [] {
      assert !Unanswered(ms, |ms| - 1);
    }
  }

  /** Where a cut falls: after some complete lines, inside the next one. */
  lemma {:induction false} CutPoint(c: Codec, ms: seq<Message>, n: nat) returns (k: nat, piece: string)
    requires n <= |Body(c, ms)|
    ensures k <= |ms| && Body(c, ms)[..n] == Body(c, ms[..k]) + piece
    ensures piece != "" ==> k < |ms| && piece <= c.line(ms[k])
  {
    if ms == [] {
      k, piece := 0, "";
    } else {
      var front, last := ms[..|ms| - 1], ms[|ms| - 1];
      var m := |Body(c, front)|;
      if n <= m {
        k, piece := CutPoint(c, front, n);
        assert Body(c, ms)[..n] == Body(c, front)[..n];
        assert front[..k] == ms[..k];
      } else if n - m <= |c.line(last)| {
        k, piece := |ms| - 1, c.line(last)[..n - m];
        assert Body(c, ms)[..n] == Body(c, front) + piece;
      } else {
        k, piece := |ms|, "";
        assert ms[..|ms|] == ms;
        assert Body(c, ms)[..n] == Body(c, ms);
      }
    }
  }

  /** A file cut anywhere behind its header line loads as a prefix of its
      conversation; if the whole was paired, so is the prefix. */
  lemma LoadsCutFile(c: Codec, h: Meta, ms: seq<Message>, n: nat) returns (k: nat)
    requires Faithful(c) && h.version == SESSION_FORMAT_VERSION
    requires |c.header(h)| + 1 <= n <= |Render(c, h, ms)|
    ensures k <= |ms|
    ensures var r := Loads(c, Render(c, h, ms)[..n]);
            r.Ok? && r.value.meta == h && r.value.messages == DropUnanswered(ms[..k]) <= ms
    ensures Paired(ms) ==> Paired(Loads(c, Render(c, h, ms)[..n]).value.messages)
  {
    hide Loads, Paired, NearlyPaired, DropUnanswered, Body;
    var m := n - (|c.header(h)| + 1);
    var piece;
    k, piece := CutPoint(c, ms, m);
    var text := Render(c, h, ms)[..n];
    assert text == c.header(h) + "\n" + Body(c, ms)[..m];
    assert text == Render(c, h, ms[..k]) + piece;
    PieceIsOneLine(c, ms, k, piece);
    LoadsPiece(c, h, ms[..k], piece);
    if piece != "" && c.parse(piece).Some? {
      WholeLine(c, ms[k], piece);
      assert ms[..k] + [ms[k]] == ms[..k + 1];
      k := k + 1;
    }
    DroppedIsPrefix(ms[..k]);
    if Paired(ms) {
      PrefixNearlyPaired(ms, k);
      DropRepairs(ms[..k]);
    }
  }

  lemma PieceIsOneLine(c: Codec, ms: seq<Message>, k: nat, piece: string)
    requires Faithful(c) && (piece != "" ==> k < |ms| && piece <= c.line(ms[k]))
    ensures Text.OneLine(piece)
  {
    if piece != "" {
      assert Text.OneLine(c.line(ms[k]));
    }
  }

  lemma WholeLine(c: Codec, m: Message, piece: string)
    requires Faithful(c) && piece <= c.line(m) && c.parse(piece).Some?
    ensures piece == c.line(m) && c.parse(piece) == Some(m)
  {
    assert piece == c.line(m)[..|piece|];
    assert c.line(m)[..|c.line(m)|] == c.line(m);
  }

  lemma RenderInjective(c: Codec, h: Meta, a: seq<Message>, b: seq<Message>)
    requires Faithful(c) && Render(c, h, a) == Render(c, h, b)
    ensures a == b
  {
    var text := Render(c, h, a);
    assert text[|c.header(h)| + 1..] == Body(c, a) == Body(c, b);
    CutBody(c, a, "");
    CutBody(c, b, "");
    assert Body(c, a) + "" == Body(c, a) && Body(c, b) + "" == Body(c, b);
    assert LinesOf(c, a) + [] == LinesOf(c, a) && LinesOf(c, b) + [] == LinesOf(c, b);
    SameLines(c, a, b);
  }

  lemma SameLines(c: Codec, a: seq<Message>, b: seq<Message>)
    requires Faithful(c) && LinesOf(c, a) == LinesOf(c, b)
    ensures a == b
  {
    forall i | 0 <= i < |a|
      ensures a[i] == b[i]
    {
      assert LinesOf(c, a)[i] == LinesOf(c, b)[i];
      assert c.parse(c.line(a[i])) == Some(a[i]);
      assert c.parse(c.line(b[i])) == Some(b[i]);
    }
  }

  // ----- recording -----

  /** A live session. `recorded` is the conversation that the file holds. */
  class Recorder {
    var meta: Meta
    var file: string
    var cursor: nat
    var disabled: bool
    const codec: Codec
    ghost var recorded: seq<Message>

    ghost predicate Valid()
      reads this
    {
      !disabled ==> file == Render(codec, meta, recorded) && cursor == |recorded|
    }

    /** A new file with its header. */
    constructor (meta: Meta, codec: Codec)
      ensures Valid() && !disabled && recorded == [] && this.meta == meta && this.codec == codec
    {
      this.meta := meta;
      this.codec := codec;
      file := codec.header(meta) + "\n";
      cursor, disabled, recorded := 0, false, [];
    }

    /** Appends one line per message. */
    method Append(ms: seq<Message>)
      modifies this`file
      ensures file == old(file) + Body(codec, ms)
    {
      assert Body(codec, ms[..0]) == "";
      for i := 0 to |ms|
        invariant file == old(file) + Body(codec, ms[..i])
      {
        assert ms[..i + 1][..i] == ms[..i];
        file := file + codec.line(ms[i]) + "\n";
      }
      assert ms[..|ms|] == ms;
    }

    /** Brings the file up to date: a shorter context is written anew, any
        other has its messages from the cursor on appended. `failed` is what a
        failing write leaves in the file. */
    method Sync(context: seq<Message>, failed: Option<string>)
      requires Valid()
      modifies this
      ensures Valid() && meta == old(meta)
      ensures old(disabled) ==> disabled && file == old(file)
      ensures !old(disabled) ==> disabled == failed.Some?
      ensures !disabled ==>
                recorded == if |context| < |old(recorded)| then context
                            else old(recorded) + context[|old(recorded)|..]
    {
      if disabled {
        return;
      }
      if failed.Some? {
        file := failed.value;
        disabled := true;
        return;
      }
      if |context| < cursor {
        file := codec.header(meta) + "\n";
        Append(context);
        recorded := context;
      } else {
        ghost var more := context[cursor..];
        BodyAppend(codec, recorded, more);
        assert file + Body(codec, more) == Render(codec, meta, recorded + more);
        Append(context[cursor..]);
        recorded := recorded + more;
      }
      cursor := |context|;
    }

    /** A fresh file; the old one is left as it is. */
    method Rotate(id: string, now: nat, parent: Option<string>)
      modifies this
      ensures Valid() && !disabled && recorded == []
      ensures meta == old(meta).(version := SESSION_FORMAT_VERSION, id := id, createdAt := now, parent := parent)
    {
      meta := meta.(version := SESSION_FORMAT_VERSION, id := id, createdAt := now, parent := parent);
      file := codec.header(meta) + "\n";
      cursor, disabled, recorded := 0, false, [];
    }
  }

  /** What a sync leaves is the context itself exactly if the context is
      shorter than what was recorded, or extends it. */
  lemma SyncedExactly(c: Codec, h: Meta, recorded: seq<Message>, context: seq<Message>)
    requires Faithful(c)
    ensures var after := if |context| < |recorded| then context else recorded + context[|recorded|..];
            Render(c, h, after) == Render(c, h, context) <==> |context| < |recorded| || recorded <= context
  {
    var after := if |context| < |recorded| then context else recorded + context[|recorded|..];
    hide Faithful, Render;
    if recorded <= context {
      assert recorded + context[|recorded|..] == context;
    }
    if |context| >= |recorded| && after == context {
      assert recorded == after[..|recorded|];
    }
    if Render(c, h, after) == Render(c, h, context) {
      RenderInjective(c, h, after, context);
    }
  }

  /** The context synced before the k-th one. */
  ghost function Before(first: seq<Message>, contexts: seq<seq<Message>>, k: nat): seq<Message>
    requires k <= |contexts|
  {
    if k == 0 then first else contexts[k - 1]
  }

  /** Each context extends the one before it or is shorter. */
  ghost predicate Chain(first: seq<Message>, contexts: seq<seq<Message>>) {
    forall k :: 0 <= k < |contexts| ==> Follows(Before(first, contexts, k), contexts[k])
  }

  ghost predicate Follows(before: seq<Message>, context: seq<Message>) {
    before <= context || |context| < |before|
  }

  /** An error-free sync along a chain leaves exactly the context. */
  method SyncNext(recorder: Recorder, context: seq<Message>)
    requires recorder.Valid() && !recorder.disabled && Follows(recorder.recorded, context)
    modifies recorder
    ensures recorder.Valid() && !recorder.disabled && recorder.meta == old(recorder.meta)
    ensures recorder.recorded == context
    ensures recorder.file == Render(recorder.codec, recorder.meta, context)
  {
    hide Render;
    Extending(recorder.recorded, context);
    recorder.Sync(context, None);
  }

  /** Through any number of error-free syncs along such a chain, the file is
      always exactly the context last synced. */
  method SyncAll(recorder: Recorder, contexts: seq<seq<Message>>) returns (ghost files: seq<string>)
    requires recorder.Valid() && !recorder.disabled && Chain(recorder.recorded, contexts)
    modifies recorder
    ensures recorder.Valid() && !recorder.disabled && recorder.meta == old(recorder.meta)
    ensures |files| == |contexts|
    ensures forall k :: 0 <= k < |contexts| ==> files[k] == Render(recorder.codec, recorder.meta, contexts[k])
    ensures contexts != [] ==> recorder.recorded == contexts[|contexts| - 1] && recorder.file == files[|contexts| - 1]
  {
    hide Render, Follows;
    files := [];
    ghost var first := recorder.recorded;
    for k := 0 to |contexts|
      invariant recorder.Valid() && !recorder.disabled && recorder.meta == old(recorder.meta)
      invariant recorder.recorded == Before(first, contexts, k)
      invariant |files| == k
      invariant forall j :: 0 <= j < k ==> files[j] == Render(recorder.codec, recorder.meta, contexts[j])
      invariant k > 0 ==> recorder.file == files[k - 1]
    {
      assert Follows(Before(first, contexts, k), contexts[k]);
      SyncNext(recorder, contexts[k]);
      files := files + [recorder.file];
    }
  }

  lemma Extending(before: seq<Message>, context: seq<Message>)
    ensures before <= context ==> before + context[|before|..] == context
  {
  }

  /** A context of the same length but with another message is not written:
      the file keeps what it had. */
  lemma ReplacedIsMissed(c: Codec, h: Meta)
    requires Faithful(c)
    ensures var recorded, context := [User("a", [])], [User("b", [])];
            Render(c, h, recorded + context[|recorded|..]) == Render(c, h, recorded) != Render(c, h, context)
  {
    hide Faithful, Render;
    var recorded, context := [User("a", [])], [User("b", [])];
    assert recorded + context[|recorded|..] == recorded;
    assert recorded[0] != context[0];
    if Render(c, h, recorded) == Render(c, h, context) {
      RenderInjective(c, h, recorded, context);
    }
  }

  /** The file when a loaded session is reopened for appending: it is written
      anew only if the loader repaired something. */
  function Reopened(c: Codec, text: string, loaded: Loaded): string {
    if !loaded.truncated && !loaded.unanswered then text else Render(c, loaded.meta, loaded.messages)
  }

  /** Reopening a file cut behind its header matches the loaded conversation
      exactly if the cut did not leave a whole record without its line feed,
      or that record was dropped for want of results. */
  lemma ReopenedExactly(c: Codec, h: Meta, ms: seq<Message>, piece: string)
    requires Faithful(c) && h.version == SESSION_FORMAT_VERSION && Text.OneLine(piece)
    ensures Loads(c, Render(c, h, ms) + piece).Ok?
    ensures var text := Render(c, h, ms) + piece;
            var loaded := Loads(c, text).value;
            (Reopened(c, text, loaded) == Render(c, loaded.meta, loaded.messages) <==>
                  piece == "" || c.parse(piece).None? || loaded.unanswered)
  {
    hide Loads, DropUnanswered;
    var text := Render(c, h, ms) + piece;
    LoadsPiece(c, h, ms, piece);
    var loaded := Loads(c, text).value;
    if piece == "" {
      assert text == Render(c, h, ms);
      Undropped(ms);
    } else if c.parse(piece).Some? && !loaded.unanswered {
      Undropped(ms + [c.parse(piece).value]);
      EndsDiffer(c, h, ms, piece, ms + [c.parse(piece).value]);
    }
  }

  /** A file cut just before its last line feed: the record is loaded, and
      the next one would be appended to its line. */
  lemma LineFeedLost(c: Codec, h: Meta, m: Message)
    requires Faithful(c) && h.version == SESSION_FORMAT_VERSION && !m.Assistant?
    ensures var text := Render(c, h, []) + c.line(m);
            && Loads(c, text) == Ok(Loaded(h, [m], false, false))
            && Reopened(c, text, Loaded(h, [m], false, false)) != Render(c, h, [m])
  {
    hide Loads;
    LoadsPiece(c, h, [], c.line(m));
    LineNotEmpty(c, m);
    assert [] + [m] == [m];
    EndsDiffer(c, h, [], c.line(m), [m]);
  }

  lemma LineNotEmpty(c: Codec, m: Message)
    requires Faithful(c)
    ensures c.line(m) != ""
  {
    var other := if m == User("a", []) then User("b", []) else User("a", []);
    assert c.parse(c.line(m)) == Some(m) && c.parse(c.line(other)) == Some(other);
    assert |c.line(other)| > 0 ==> c.parse(c.line(other)[..0]) == None && c.line(other)[..0] == "";
  }

  lemma DroppedIsPrefix(ms: seq<Message>)
    ensures DropUnanswered(ms) <= ms
  {
  }

  lemma Undropped(ms: seq<Message>)
    ensures |DropUnanswered(ms)| >= |ms| ==> DropUnanswered(ms) == ms
  {
  }

  lemma EndsDiffer(c: Codec, h: Meta, ms: seq<Message>, piece: string, all: seq<Message>)
    requires piece != "" && Text.OneLine(piece)
    ensures Render(c, h, ms) + piece != Render(c, h, all)
  {
    var text, other := Render(c, h, ms) + piece, Render(c, h, all);
    assert text[|text| - 1] == piece[|piece| - 1];
    assert other[|other| - 1] == '\n';
  }

  // ----- images of a user message -----

  /** An image given by address only, with its place in the message. */
  datatype UrlImage = UrlImage(at: nat, url: string, mediaType: string)

  predicate ByUrl(image: Image) {
    image.sourceUrl.Some? && image.data == ""
  }

  function Inline(images: seq<Image>): seq<Image> {
    if images == [] then []
    else if ByUrl(images[0]) then Inline(images[1..])
    else [images[0]] + Inline(images[1..])
  }

  function Urls(images: seq<Image>, at: nat): seq<UrlImage> {
    if images == [] then []
    else if ByUrl(images[0]) then
      [UrlImage(at, images[0].sourceUrl.value, images[0].mediaType)] + Urls(images[1..], at + 1)
    else Urls(images[1..], at + 1)
  }

  function Place(images: seq<Image>, u: UrlImage): seq<Image> {
    var at := if u.at <= |images| then u.at else |images|;
    images[..at] + [Image(u.mediaType, "", Some(u.url))] + images[at..]
  }

  function Restored(images: seq<Image>, urls: seq<UrlImage>): seq<Image>
    decreases |urls|
  {
    if urls == [] then images else Restored(Place(images, urls[0]), urls[1..])
  }

  lemma {:induction false} RestoredBehind(front: seq<Image>, rest: seq<Image>)
    ensures Restored(front + Inline(rest), Urls(rest, |front|)) == front + rest
    decreases |rest|
  {
    hide Inline, Urls, Restored;
    FirstImage(rest, |front|);
    if rest == [] {
      NothingRestored(front);
    } else {
      var x, more := rest[0], rest[1..];
      RestoredBehind(front + [x], more);
      assert front + [x] + more == front + rest;
      if ByUrl(x) {
        PlacedBehind(front, x, Inline(more), Urls(more, |front| + 1));
      } else {
        assert front + ([x] + Inline(more)) == front + [x] + Inline(more);
      }
    }
  }

  lemma NothingRestored(front: seq<Image>)
    ensures Restored(front + [], []) == front && front + [] == front
  {
  }

  lemma FirstImage(images: seq<Image>, at: nat)
    ensures images == [] ==> Inline(images) == [] && Urls(images, at) == []
    ensures images != [] ==>
              var x, more := images[0], images[1..];
              && Inline(images) == (if ByUrl(x) then Inline(more) else [x] + Inline(more))
              && Urls(images, at)
                 == (if ByUrl(x) then [UrlImage(at, x.sourceUrl.value, x.mediaType)] + Urls(more, at + 1)
                     else Urls(more, at + 1))
  {
  }

  lemma PlacedBehind(front: seq<Image>, image: Image, rest: seq<Image>, urls: seq<UrlImage>)
    requires ByUrl(image)
    ensures Restored(front + rest, [UrlImage(|front|, image.sourceUrl.value, image.mediaType)] + urls)
            == Restored(front + [image] + rest, urls)
  {
    var u := UrlImage(|front|, image.sourceUrl.value, image.mediaType);
    assert ([u] + urls)[1..] == urls;
    assert (front + rest)[..|front|] == front && (front + rest)[|front|..] == rest;
    assert Place(front + rest, u) == front + [image] + rest;
  }

  /** Images come back in their places, whatever their mix. */
  lemma ImagesRoundTrip(images: seq<Image>)
    ensures Restored(Inline(images), Urls(images, 0)) == images
  {
    RestoredBehind([], images);
    assert [] + Inline(images) == Inline(images);
    assert [] + images == images;
  }

  /** Kept inline are exactly the images with bytes of their own or without an
      address; of the others the address, the type and the place are kept. */
  lemma {:induction false} SplitMeaning(images: seq<Image>, at: nat)
    ensures |Inline(images)| + |Urls(images, at)| == |images|
    ensures forall k :: 0 <= k < |Inline(images)| ==>
              Inline(images)[k] in images && (Inline(images)[k].data != "" || Inline(images)[k].sourceUrl.None?)
    ensures forall k :: 0 <= k < |Urls(images, at)| ==>
              var u := Urls(images, at)[k];
              at <= u.at < at + |images| && images[u.at - at] == Image(u.mediaType, "", Some(u.url))
  {
    if images != [] {
      SplitMeaning(images[1..], at + 1);
      assert forall image :: image in images[1..] ==> image in images;
    }
  }

  method SplitImages(images: seq<Image>) returns (inline: seq<Image>, urls: seq<UrlImage>)
    ensures inline == Inline(images) && urls == Urls(images, 0)
  {
    inline, urls := [], [];
    for at := 0 to |images|
      invariant inline + Inline(images[at..]) == Inline(images)
      invariant urls + Urls(images[at..], at) == Urls(images, 0)
    {
      assert images[at..][1..] == images[at + 1..];
      if ByUrl(images[at]) {
        urls := urls + [UrlImage(at, images[at].sourceUrl.value, images[at].mediaType)];
      } else {
        inline := inline + [images[at]];
      }
    }
  }

  method RestoreImages(inline: seq<Image>, urls: seq<UrlImage>) returns (images: seq<Image>)
    ensures images == Restored(inline, urls)
  {
    images := inline;
    for k := 0 to |urls|
      invariant Restored(images, urls[k..]) == Restored(inline, urls)
    {
      assert urls[k..][1..] == urls[k + 1..];
      images := Place(images, urls[k]);
    }
  }
}
