/** The string operations the modelled code relies on: substring search,
    whitespace trimming and prefix/suffix stripping. Characters are Unicode
    scalar values, as in the strings of the original. */
module Text {
  import opened Wrappers

  /** `pat` occurs in `s` at position `i`. */
  predicate OccursAt(s: string, pat: string, i: int) {
    0 <= i <= |s| - |pat| && s[i..i + |pat|] == pat
  }

  predicate Contains(s: string, pat: string) {
    exists i :: 0 <= i <= |s| && OccursAt(s, pat, i)
  }

  /** Position of the leftmost occurrence at or after `from`. */
  function FindFrom(s: string, pat: string, from: nat): (r: Option<nat>)
    requires from <= |s|
    ensures r.Some? ==> r.value + |pat| <= |s|
    decreases |s| - from
  {
    if OccursAt(s, pat, from) then Some(from)
    else if from == |s| then None
    else FindFrom(s, pat, from + 1)
  }

  function Find(s: string, pat: string): (r: Option<nat>)
    ensures r.Some? ==> r.value + |pat| <= |s|
  {
    FindFrom(s, pat, 0)
  }

  lemma {:induction false} FindFromLeftmost(s: string, pat: string, from: nat)
    requires from <= |s|
    ensures match FindFrom(s, pat, from)
            case None => forall i :: from <= i ==> !OccursAt(s, pat, i)
            case Some(k) => from <= k && OccursAt(s, pat, k) && forall i :: from <= i < k ==> !OccursAt(s, pat, i)
    decreases |s| - from
  {
    if !OccursAt(s, pat, from) && from < |s| {
      FindFromLeftmost(s, pat, from + 1);
    }
  }

  lemma FindNothing(s: string, pat: string)
    ensures Find(s, pat).None? <==> !Contains(s, pat)
  {
    FindLeftmost(s, pat);
  }

  /** `Find` yields the leftmost occurrence, or nothing when there is none. */
  lemma FindLeftmost(s: string, pat: string)
    ensures match Find(s, pat)
            case None => !Contains(s, pat)
            case Some(k) => OccursAt(s, pat, k) && forall i :: 0 <= i < k ==> !OccursAt(s, pat, i)
  {
    FindFromLeftmost(s, pat, 0);
  }

  /** The code points with the Unicode White_Space property. */
  predicate IsWhitespace(c: char) {
    || '\U{0009}' <= c <= '\U{000D}'
    || c == ' '
    || c == '\U{0085}'
    || c == '\U{00A0}'
    || c == '\U{1680}'
    || '\U{2000}' <= c <= '\U{200A}'
    || c == '\U{2028}'
    || c == '\U{2029}'
    || c == '\U{202F}'
    || c == '\U{205F}'
    || c == '\U{3000}'
  }

  function TrimStart(s: string): string {
    if s != [] && IsWhitespace(s[0]) then TrimStart(s[1..]) else s
  }

  function TrimEnd(s: string): string {
    if s != [] && IsWhitespace(s[|s| - 1]) then TrimEnd(s[..|s| - 1]) else s
  }

  function Trim(s: string): string {
    TrimEnd(TrimStart(s))
  }

  ghost predicate AllWhitespace(s: string) {
    forall i :: 0 <= i < |s| ==> IsWhitespace(s[i])
  }

  lemma {:induction false} TrimStartSplits(s: string) returns (front: string)
    ensures s == front + TrimStart(s) && AllWhitespace(front)
    ensures TrimStart(s) != "" ==> !IsWhitespace(TrimStart(s)[0])
  {
    if s != [] && IsWhitespace(s[0]) {
      front := TrimStartSplits(s[1..]);
      front := [s[0]] + front;
    } else {
      front := "";
    }
  }

  lemma {:induction false} TrimEndSplits(s: string) returns (back: string)
    ensures s == TrimEnd(s) + back && AllWhitespace(back)
    ensures TrimEnd(s) != "" ==> !IsWhitespace(TrimEnd(s)[|TrimEnd(s)| - 1])
    ensures TrimEnd(s) <= s
  {
    if s != [] && IsWhitespace(s[|s| - 1]) {
      back := TrimEndSplits(s[..|s| - 1]);
      assert s == TrimEnd(s) + (back + [s[|s| - 1]]);
      back := back + [s[|s| - 1]];
    } else {
      back := "";
    }
  }

  /** Trimming takes away the whitespace on both sides and nothing else. */
  lemma TrimMeaning(s: string) returns (front: string, back: string)
    ensures s == front + Trim(s) + back && AllWhitespace(front) && AllWhitespace(back)
    ensures Trim(s) != "" ==> !IsWhitespace(Trim(s)[0]) && !IsWhitespace(Trim(s)[|Trim(s)| - 1])
  {
    hide IsWhitespace;
    front := TrimStartSplits(s);
    back := TrimEndSplits(TrimStart(s));
    assert front + (Trim(s) + back) == front + Trim(s) + back;
  }

  function StripPrefix(s: string, prefix: string): Option<string> {
    if prefix <= s then Some(s[|prefix|..]) else None
  }

  function StripSuffix(s: string, suffix: string): Option<string> {
    if |suffix| <= |s| && s[|s| - |suffix|..] == suffix
    then Some(s[..|s| - |suffix|])
    else None
  }

  function Digit(d: nat): char
    requires d < 10
  {
    '0' + d as char
  }

  /** Decimal notation without leading zeros. */
  function Decimal(n: nat): string {
    if n < 10 then [Digit(n)] else Decimal(n / 10) + [Digit(n % 10)]
  }

  /** Reads decimal notation back. */
  ghost function DecimalValue(s: string): int {
    if s == [] then 0 else 10 * DecimalValue(s[..|s| - 1]) + (s[|s| - 1] as int - '0' as int)
  }

  lemma {:induction false} DecimalRoundTrip(n: nat)
    ensures DecimalValue(Decimal(n)) == n
  {
    var s := Decimal(n);
    if n >= 10 {
      DecimalRoundTrip(n / 10);
      assert s[..|s| - 1] == Decimal(n / 10);
    } else {
      assert s[..0] == [];
    }
  }

  lemma DecimalInjective(m: nat, n: nat)
    requires Decimal(m) == Decimal(n)
    ensures m == n
  {
    DecimalRoundTrip(m);
    DecimalRoundTrip(n);
  }

  /** The text up to the first line feed, without its line ending, and what
      follows it. */
  function CutLine(text: string): (string, string)
    requires text != []
  {
    match Find(text, "\n")
    case None => (text, [])
    case Some(i) =>
      if i >= |text| then (text, [])
      else
        var line := text[..i];
        (if line != [] && line[|line| - 1] == '\r' then line[..|line| - 1] else line, text[i + 1..])
  }

  function CutLines(text: string): seq<string>
    decreases |text|
  {
    if text == [] then []
    else
      var (line, rest) := CutLine(text);
      if |rest| < |text| then [line] + CutLines(rest) else [line]
  }

  /** The text is one line. */
  ghost predicate OneLine(line: string) {
    forall i :: 0 <= i < |line| ==> line[i] != '\n' && line[i] != '\r'
  }

  ghost predicate NoFeed(line: string) {
    forall i :: 0 <= i < |line| ==> line[i] != '\n'
  }

  /** A line is what stands before a line feed, without one carriage return at
      its end. */
  lemma CutFirst(line: string, rest: string)
    requires NoFeed(line)
    ensures CutLines(line + "\n" + rest)
            == [if line != "" && line[|line| - 1] == '\r' then line[..|line| - 1] else line] + CutLines(rest)
  {
    var text := line + "\n" + rest;
    FeedAt(line, rest);
    assert text[..|line|] == line && text[|line| + 1..] == rest;
  }

  lemma FeedAt(line: string, rest: string)
    requires NoFeed(line)
    ensures Find(line + "\n" + rest, "\n") == Some(|line|)
  {
    var text := line + "\n" + rest;
    FindLeftmost(text, "\n");
    assert OccursAt(text, "\n", |line|);
    forall i | 0 <= i < |line|
      ensures !OccursAt(text, "\n", i)
    {
      assert text[i..i + 1] == [line[i]];
    }
  }

  /** What follows the last line feed is a line as it stands. */
  lemma CutRest(line: string)
    requires NoFeed(line)
    ensures CutLines(line) == if line == "" then [] else [line]
  {
    if line != "" {
      FindNothing(line, "\n");
      forall k | 0 <= k <= |line|
        ensures !OccursAt(line, "\n", k)
      {
        assert k < |line| ==> line[k..k + 1] == [line[k]];
      }
    }
  }

  /** A terminated line is cut off in front. */
  lemma CutTerminated(line: string, rest: string)
    requires OneLine(line)
    ensures CutLines(line + "\n" + rest) == [line] + CutLines(rest)
  {
    hide CutLines;
    CutFirst(line, rest);
  }

  /** What is not terminated is the last line. */
  lemma CutLast(line: string)
    requires OneLine(line)
    ensures CutLines(line) == if line == "" then [] else [line]
  {
    hide CutLines;
    CutRest(line);
  }
}
