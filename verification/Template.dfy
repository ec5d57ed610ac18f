/** Prompt templates: the parser, the upstream check and the renderer. */
module Template {
  import opened Wrappers
  import opened Text

  /** Literal text followed, except in the last part, by a trimmed
      expression between `{{` and `}}`. */
  datatype Part = Part(literal: string, expr: Option<string>)

  datatype TemplateError =
    | Unclosed
    | NotUpstream(expr: string)
    | Missing(expr: string)

  function Prepend(parts: seq<Part>, r: Result<seq<Part>, TemplateError>): Result<seq<Part>, TemplateError> {
    match r
    case Err(e) => Err(e)
    case Ok(rest) => Ok(parts + rest)
  }

  function Parts(prompt: string): Result<seq<Part>, TemplateError>
    decreases |prompt|
  {
    match Find(prompt, "{{")
    case None => Ok([Part(prompt, None)])
    case Some(start) =>
      var after := prompt[start + 2..];
      match Find(after, "}}")
      case None => Err(Unclosed)
      case Some(end) => Prepend([Part(prompt[..start], Some(Trim(after[..end])))], Parts(after[end + 2..]))
  }

  lemma PrependTwice(a: seq<Part>, b: seq<Part>, r: Result<seq<Part>, TemplateError>)
    ensures Prepend(a, Prepend(b, r)) == Prepend(a + b, r)
  {
    if r.Ok? {
      assert a + (b + r.value) == a + b + r.value;
    }
  }

  method ParseParts(prompt: string) returns (r: Result<seq<Part>, TemplateError>)
    ensures r == Parts(prompt)
  {
    hide Parts, Find, Trim;
    var rest := prompt;
    var result: seq<Part> := [];
    var open := Find(rest, "{{");
    PrependNothing(Parts(rest));
    while open.Some?
      invariant open == Find(rest, "{{")
      invariant Parts(prompt) == Prepend(result, Parts(rest))
      decreases |rest|
    {
      var start := open.value;
      var after := rest[start + 2..];
      var close := Find(after, "}}");
      if close.None? {
        UnclosedParts(rest, start);
        return Err(Unclosed);
      }
      var part := Part(rest[..start], Some(Trim(after[..close.value])));
      PartsFirst(rest, start, close.value);
      PrependTwice(result, [part], Parts(after[close.value + 2..]));
      result := result + [part];
      rest := after[close.value + 2..];
      open := Find(rest, "{{");
    }
    NoParts(rest);
    r := Ok(result + [Part(rest, None)]);
  }

  lemma PrependNothing(parts: Result<seq<Part>, TemplateError>)
    ensures Prepend([], parts) == parts
  {
    assert parts.Ok? ==> [] + parts.value == parts.value;
  }

  lemma UnclosedParts(prompt: string, start: nat)
    requires Find(prompt, "{{") == Some(start) && start + 2 <= |prompt| && Find(prompt[start + 2..], "}}") == None
    ensures Parts(prompt) == Err(Unclosed)
  {
    hide Find;
  }

  lemma PartsFirst(prompt: string, start: nat, end: nat)
    requires Find(prompt, "{{") == Some(start) && start + 2 <= |prompt|
    requires Find(prompt[start + 2..], "}}") == Some(end) && start + end + 4 <= |prompt|
    ensures Parts(prompt) == Prepend([Part(prompt[..start], Some(Trim(prompt[start + 2..][..end])))],
                                     Parts(prompt[start + 2..][end + 2..]))
  {
    hide Find, Trim;
  }

  /** The grammar, without the search order: `prompt` is the literals with
      the untrimmed expressions `raws` between them, where no `{{` starts
      inside a literal or straddles its end, and no `}}` inside an
      expression or across its end. */
  ghost predicate Spells(prompt: string, parts: seq<Part>, raws: seq<string>)
    decreases |raws|
  {
    && |parts| == |raws| + 1
    && if raws == [] then
         parts[0] == Part(prompt, None) && !Contains(prompt, "{{")
       else
         && parts[0].literal + "{{" <= prompt
         && !Contains(parts[0].literal + "{", "{{")
         && var after := prompt[|parts[0].literal| + 2..];
            && raws[0] + "}}" <= after
            && !Contains(raws[0] + "}", "}}")
            && parts[0].expr == Some(Trim(raws[0]))
            && Spells(after[|raws[0]| + 2..], parts[1..], raws[1..])
  }

  lemma PairOccurs(s: string, c: char)
    ensures forall j :: OccursAt(s, [c, c], j) <==> 0 <= j < |s| - 1 && s[j] == c && s[j + 1] == c
  {
    forall j
      ensures OccursAt(s, [c, c], j) <==> 0 <= j < |s| - 1 && s[j] == c && s[j + 1] == c
    {
      if 0 <= j < |s| - 1 {
        assert s[j..j + 2] == [s[j], s[j + 1]];
      }
    }
  }

  /** The leftmost pair of `c` sits at `i` exactly when the text before it,
      with one more `c`, has no pair. */
  lemma LeftmostPair(s: string, c: char, i: nat)
    requires i + 2 <= |s|
    ensures Find(s, [c, c]) == Some(i) <==> s[..i] + [c, c] <= s && !Contains(s[..i] + [c], [c, c])
  {
    hide Find;
    var t := s[..i] + [c];
    FindLeftmost(s, [c, c]);
    PairOccurs(s, c);
    PairOccurs(t, c);
    assert s[..i] + [c, c] <= s <==> s[i] == c && s[i + 1] == c;
    if s[i] == c && s[i + 1] == c {
      assert OccursAt(s, [c, c], i);
      PairBefore(s, c, i);
    }
  }

  /** A pair that begins before `i` shows in the text up to `i` and one more. */
  lemma PairBefore(s: string, c: char, i: nat)
    requires i + 2 <= |s| && s[i] == c && s[i + 1] == c
    ensures Contains(s[..i] + [c], [c, c]) <==> exists j :: 0 <= j < i && OccursAt(s, [c, c], j)
  {
    var t := s[..i] + [c];
    PairOccurs(s, c);
    PairOccurs(t, c);
    forall j | 0 <= j < i
      ensures OccursAt(t, [c, c], j) <==> OccursAt(s, [c, c], j)
    {
      assert t[j] == s[j] && t[j + 1] == if j + 1 < i then s[j + 1] else c;
    }
    forall j | OccursAt(t, [c, c], j)
      ensures 0 <= j < i
    {
    }
  }

  /** Parsing loses nothing: a successful parse spells the prompt back. */
  lemma {:induction false} PartsSpell(prompt: string) returns (raws: seq<string>)
    requires Parts(prompt).Ok?
    ensures Spells(prompt, Parts(prompt).value, raws)
    decreases |prompt|
  {
    FindNothing(prompt, "{{");
    match Find(prompt, "{{")
    case None => raws := [];
    case Some(start) =>
      var after := prompt[start + 2..];
      var end := Find(after, "}}").value;
      var tail := PartsSpell(after[end + 2..]);
      raws := [after[..end]] + tail;
      LeftmostPair(prompt, '{', start);
      LeftmostPair(after, '}', end);
      assert Parts(prompt).value[1..] == Parts(after[end + 2..]).value && raws[1..] == tail;
  }

  lemma PartsStep(prompt: string, start: nat, end: nat, rest: seq<Part>)
    requires Find(prompt, "{{") == Some(start) && start + 2 <= |prompt|
    requires Find(prompt[start + 2..], "}}") == Some(end) && start + end + 4 <= |prompt|
    requires Parts(prompt[start + 2..][end + 2..]) == Ok(rest)
    ensures Parts(prompt) == Ok([Part(prompt[..start], Some(Trim(prompt[start + 2..][..end])))] + rest)
  {
    hide Find, Trim;
  }

  lemma NoParts(prompt: string)
    requires Find(prompt, "{{") == None
    ensures Parts(prompt) == Ok([Part(prompt, None)])
  {
    hide Find;
  }

  /** The grammar is unambiguous and the parser accepts all of it. */
  lemma {:induction false} SpellParts(prompt: string, parts: seq<Part>, raws: seq<string>)
    requires Spells(prompt, parts, raws)
    ensures Parts(prompt) == Ok(parts)
    decreases |raws|
  {
    hide Find, Contains, Parts, Trim;
    if raws == [] {
      FindNothing(prompt, "{{");
      NoParts(prompt);
      assert parts == [Part(prompt, None)];
    } else {
      var start, end := |parts[0].literal|, |raws[0]|;
      var after := prompt[start + 2..];
      assert prompt[..start] == parts[0].literal && after[..end] == raws[0];
      LeftmostPair(prompt, '{', start);
      LeftmostPair(after, '}', end);
      SpellParts(after[end + 2..], parts[1..], raws[1..]);
      PartsStep(prompt, start, end, parts[1..]);
      assert parts == [parts[0]] + parts[1..];
    }
  }

  /** `stages.<id>.output` names stage `<id>`. */
  function Reference(expr: string): Option<string> {
    match StripPrefix(expr, "stages.")
    case None => None
    case Some(rest) => StripSuffix(rest, ".output")
  }

  lemma ReferenceNames(expr: string, id: string)
    ensures Reference(expr) == Some(id) <==> expr == "stages." + id + ".output"
  {
    if expr == "stages." + id + ".output" {
      var rest := expr[|"stages."|..];
      assert rest == id + ".output";
      assert expr == "stages." + rest;
      assert rest[|rest| - |".output"|..] == ".output";
      assert rest[..|rest| - |".output"|] == id;
    }
  }

  /** An expression the upstream check lets through. */
  predicate Admissible(expr: string, isAncestor: string -> bool, item: bool) {
    || (expr == "item" && item)
    || (Reference(expr).Some? && isAncestor(Reference(expr).value))
  }

  lemma AdmissibleMeaning(expr: string, isAncestor: string -> bool, item: bool)
    ensures Admissible(expr, isAncestor, item) <==>
              || (expr == "item" && item)
              || exists id :: expr == "stages." + id + ".output" && isAncestor(id)
  {
    if Reference(expr).Some? {
      ReferenceNames(expr, Reference(expr).value);
    }
    forall id | expr == "stages." + id + ".output"
      ensures Reference(expr) == Some(id)
    {
      ReferenceNames(expr, id);
    }
  }

  predicate ValidParts(parts: seq<Part>, isAncestor: string -> bool, item: bool) {
    forall i :: 0 <= i < |parts| && parts[i].expr.Some? ==>
      Admissible(parts[i].expr.value, isAncestor, item)
  }

  predicate ValidTemplate(prompt: string, isAncestor: string -> bool, item: bool) {
    Parts(prompt).Ok? && ValidParts(Parts(prompt).value, isAncestor, item)
  }

  /** Position of the first inadmissible expression. */
  ghost predicate FirstOffender(parts: seq<Part>, i: int, isAncestor: string -> bool, item: bool) {
    && 0 <= i < |parts|
    && parts[i].expr.Some?
    && !Admissible(parts[i].expr.value, isAncestor, item)
    && forall j :: 0 <= j < i && parts[j].expr.Some? ==> Admissible(parts[j].expr.value, isAncestor, item)
  }

  method CheckParts(parts: seq<Part>, isAncestor: string -> bool, item: bool)
    returns (r: Result<(), TemplateError>)
    ensures r.Ok? <==> ValidParts(parts, isAncestor, item)
    ensures r.Err? ==> exists i :: FirstOffender(parts, i, isAncestor, item)
                                   && r.error == NotUpstream(parts[i].expr.value)
  {
    for i := 0 to |parts|
      invariant forall j :: 0 <= j < i && parts[j].expr.Some? ==>
                  Admissible(parts[j].expr.value, isAncestor, item)
    {
      if parts[i].expr.Some? {
        var expr := parts[i].expr.value;
        if !Admissible(expr, isAncestor, item) {
          assert FirstOffender(parts, i, isAncestor, item);
          return Err(NotUpstream(expr));
        }
      }
    }
    r := Ok(());
  }

  /** Accepts exactly the prompts that parse and name only ancestors, or
      `item` where there is one; otherwise reports the first offender. */
  method Validate(prompt: string, isAncestor: string -> bool, item: bool)
    returns (r: Result<(), TemplateError>)
    ensures r.Ok? <==> ValidTemplate(prompt, isAncestor, item)
    ensures r == Err(Unclosed) <==> Parts(prompt).Err?
    ensures r.Err? && r.error != Unclosed ==>
              && Parts(prompt).Ok?
              && exists i :: FirstOffender(Parts(prompt).value, i, isAncestor, item)
                             && r.error == NotUpstream(Parts(prompt).value[i].expr.value)
  {
    var parsed := ParseParts(prompt);
    if parsed.Err? {
      return Err(Unclosed);
    }
    r := CheckParts(parsed.value, isAncestor, item);
  }

  lemma PartsErrors(prompt: string)
    ensures Parts(prompt).Err? ==> Parts(prompt).error == Unclosed
    decreases |prompt|
  {
    match Find(prompt, "{{")
    case None =>
    case Some(start) =>
      var after := prompt[start + 2..];
      match Find(after, "}}")
      case None =>
      case Some(end) => PartsErrors(after[end + 2..]);
  }

  function Lookup(expr: string, outputs: map<string, string>, item: Option<string>): Option<string> {
    if expr == "item" then item
    else match Reference(expr)
      case None => None
      case Some(id) => if id in outputs then Some(outputs[id]) else None
  }

  /** The first `n` parts with their values filled in, or the leftmost
      expression that has none. */
  function RenderParts(parts: seq<Part>, n: nat, outputs: map<string, string>, item: Option<string>)
    : Result<string, TemplateError>
    requires n <= |parts|
  {
    if n == 0 then Ok("")
    else
      match RenderParts(parts, n - 1, outputs, item)
      case Err(e) => Err(e)
      case Ok(text) =>
        var part := parts[n - 1];
        match part.expr
        case None => Ok(text + part.literal)
        case Some(expr) =>
          match Lookup(expr, outputs, item)
          case None => Err(Missing(expr))
          case Some(value) => Ok(text + part.literal + value)
  }

  function Render(prompt: string, outputs: map<string, string>, item: Option<string>)
    : Result<string, TemplateError>
  {
    match Parts(prompt)
    case Err(e) => Err(e)
    case Ok(parts) => RenderParts(parts, |parts|, outputs, item)
  }

  method RenderPrompt(prompt: string, outputs: map<string, string>, item: Option<string>)
    returns (r: Result<string, TemplateError>)
    ensures r == Render(prompt, outputs, item)
  {
    var parsed := ParseParts(prompt);
    if parsed.Err? {
      return Err(parsed.error);
    }
    var parts := parsed.value;
    var text := "";
    for i := 0 to |parts|
      invariant RenderParts(parts, i, outputs, item) == Ok(text)
    {
      text := text + parts[i].literal;
      match parts[i].expr
      case None =>
      case Some(expr) =>
        var value := Lookup(expr, outputs, item);
        if value.None? {
          RenderStuck(parts, i + 1, |parts|, outputs, item);
          return Err(Missing(expr));
        }
        text := text + value.value;
    }
    r := Ok(text);
  }

  lemma {:induction false} RenderStuck(parts: seq<Part>, m: nat, n: nat, outputs: map<string, string>,
                                       item: Option<string>)
    requires m <= n <= |parts|
    requires RenderParts(parts, m, outputs, item).Err?
    ensures RenderParts(parts, n, outputs, item) == RenderParts(parts, m, outputs, item)
  {
    if m < n {
      RenderStuck(parts, m, n - 1, outputs, item);
    }
  }

  /** Rendering fails exactly when some expression has no value. */
  lemma {:induction false} RenderPartsOk(parts: seq<Part>, n: nat, outputs: map<string, string>, item: Option<string>)
    requires n <= |parts|
    ensures RenderParts(parts, n, outputs, item).Ok? <==>
            forall i :: 0 <= i < n && parts[i].expr.Some? ==>
                          Lookup(parts[i].expr.value, outputs, item).Some?
  {
    if n > 0 {
      RenderPartsOk(parts, n - 1, outputs, item);
    }
  }

  /** What the upstream check buys: a checked prompt renders whenever every
      ancestor has an output (and, in a map, there is an item). */
  lemma CheckedPromptRenders(prompt: string, isAncestor: string -> bool, map_: bool,
                             outputs: map<string, string>, item: Option<string>)
    requires ValidTemplate(prompt, isAncestor, map_)
    requires forall id :: isAncestor(id) ==> id in outputs
    requires map_ ==> item.Some?
    ensures Render(prompt, outputs, item).Ok?
  {
    RenderPartsOk(Parts(prompt).value, |Parts(prompt).value|, outputs, item);
  }

  lemma {:induction false} RenderPartsExtend(parts: seq<Part>, n: nat, a: map<string, string>, b: map<string, string>,
                                             item: Option<string>)
    requires n <= |parts| && RenderParts(parts, n, a, item).Ok?
    requires forall id :: id in a ==> id in b && b[id] == a[id]
    ensures RenderParts(parts, n, b, item) == RenderParts(parts, n, a, item)
  {
    if n > 0 {
      RenderPartsExtend(parts, n - 1, a, b, item);
    }
  }

  /** Once a prompt renders, further outputs do not change its text. */
  lemma RenderExtends(prompt: string, a: map<string, string>, b: map<string, string>, item: Option<string>)
    requires Render(prompt, a, item).Ok?
    requires forall id :: id in a ==> id in b && b[id] == a[id]
    ensures Render(prompt, b, item) == Render(prompt, a, item)
  {
    RenderPartsExtend(Parts(prompt).value, |Parts(prompt).value|, a, b, item);
  }

  lemma {:induction false} RenderPartsFrame(parts: seq<Part>, n: nat, isAncestor: string -> bool, map_: bool,
                                            a: map<string, string>, b: map<string, string>, item: Option<string>)
    requires n <= |parts| && ValidParts(parts, isAncestor, map_)
    requires forall id :: isAncestor(id) ==> id in a && id in b && a[id] == b[id]
    ensures RenderParts(parts, n, a, item) == RenderParts(parts, n, b, item)
  {
    if n > 0 {
      RenderPartsFrame(parts, n - 1, isAncestor, map_, a, b, item);
    }
  }

  /** The text of a checked prompt depends on nothing but its ancestors'
      outputs and its item. */
  lemma RenderFrame(prompt: string, isAncestor: string -> bool, map_: bool,
                    a: map<string, string>, b: map<string, string>, item: Option<string>)
    requires ValidTemplate(prompt, isAncestor, map_)
    requires forall id :: isAncestor(id) ==> id in a && id in b && a[id] == b[id]
    ensures Render(prompt, a, item) == Render(prompt, b, item)
  {
    RenderPartsFrame(Parts(prompt).value, |Parts(prompt).value|, isAncestor, map_, a, b, item);
  }

  // ----- the text itself -----

  /** The value of an expression: the item, or the output of the stage that it
      names as `stages.id.output`. */
  lemma LookupMeaning(expr: string, outputs: map<string, string>, item: Option<string>)
    ensures expr == "item" ==> Lookup(expr, outputs, item) == item
    ensures forall id :: expr == "stages." + id + ".output" ==>
              Lookup(expr, outputs, item) == if id in outputs then Some(outputs[id]) else None
    ensures expr != "item" && (forall id :: expr != "stages." + id + ".output") ==> Lookup(expr, outputs, item) == None
  {
    forall id | expr == "stages." + id + ".output"
      ensures expr != "item" && Reference(expr) == Some(id)
    {
      ReferenceNames(expr, id);
      assert expr[0] == 's';
    }
    if Reference(expr).Some? {
      ReferenceNames(expr, Reference(expr).value);
    }
  }

  /** A first part in front of others: its literal, its value, their text. */
  lemma {:induction false} RenderFirstPart(first: Part, rest: seq<Part>, n: nat, outputs: map<string, string>,
                                           item: Option<string>)
    requires n <= |rest| && first.expr.Some?
    ensures RenderParts([first] + rest, n + 1, outputs, item)
            == match Lookup(first.expr.value, outputs, item)
               case None => Err(Missing(first.expr.value))
               case Some(value) =>
                 match RenderParts(rest, n, outputs, item)
                 case Err(e) => Err(e)
                 case Ok(text) => Ok(first.literal + (value + text))
    decreases n
  {
    hide Lookup;
    var parts := [first] + rest;
    var value := Lookup(first.expr.value, outputs, item);
    if n == 0 {
      assert RenderParts(parts, 0, outputs, item) == Ok("");
      assert "" + first.literal == first.literal;
      assert value.Some? ==> value.value + "" == value.value;
    } else {
      RenderFirstPart(first, rest, n - 1, outputs, item);
      assert parts[n] == rest[n - 1];
      var before := RenderParts(rest, n - 1, outputs, item);
      if value.Some? && before.Ok? {
        LiteralAppended(first.literal, value.value, before.value, rest[n - 1], outputs, item);
      }
    }
  }

  lemma LiteralAppended(literal: string, value: string, text: string, part: Part, outputs: map<string, string>,
                        item: Option<string>)
    ensures literal + (value + text) + part.literal == literal + (value + (text + part.literal))
    ensures part.expr.Some? && Lookup(part.expr.value, outputs, item).Some? ==>
              var last := Lookup(part.expr.value, outputs, item).value;
              literal + (value + text) + part.literal + last == literal + (value + (text + part.literal + last))
  {
    hide Lookup;
  }

  /** A prompt without an opening renders as itself. */
  lemma RenderPlain(prompt: string, outputs: map<string, string>, item: Option<string>)
    requires Find(prompt, "{{") == None
    ensures Render(prompt, outputs, item) == Ok(prompt)
  {
    hide Find;
    var parts := [Part(prompt, None)];
    assert Parts(prompt) == Ok(parts);
    assert RenderParts(parts, 0, outputs, item) == Ok("");
    assert "" + prompt == prompt;
  }

  /** Otherwise the text is what stands before the first expression, then its
      value, then the text of what follows it. */
  lemma RenderNext(prompt: string, start: nat, end: nat, outputs: map<string, string>, item: Option<string>)
    requires Find(prompt, "{{") == Some(start) && start + 2 <= |prompt|
    requires Find(prompt[start + 2..], "}}") == Some(end) && start + end + 4 <= |prompt|
    ensures var expr := Trim(prompt[start + 2..][..end]);
            var rest := prompt[start + 2..][end + 2..];
            Render(prompt, outputs, item)
            == if Parts(rest).Err? then Err(Unclosed)
               else
                 match Lookup(expr, outputs, item)
                 case None => Err(Missing(expr))
                 case Some(value) =>
                   match Render(rest, outputs, item)
                   case Err(e) => Err(e)
                   case Ok(text) => Ok(prompt[..start] + (value + text))
  {
    hide Find, Trim, Lookup, Parts, RenderParts;
    var rest := prompt[start + 2..][end + 2..];
    PartsFirst(prompt, start, end);
    PartsErrors(rest);
    if Parts(rest).Ok? {
      var parts := Parts(rest).value;
      RenderFirstPart(Part(prompt[..start], Some(Trim(prompt[start + 2..][..end]))), parts, |parts|, outputs, item);
    }
  }

  lemma RenderUnclosed(prompt: string, start: nat, outputs: map<string, string>, item: Option<string>)
    requires Find(prompt, "{{") == Some(start) && start + 2 <= |prompt| && Find(prompt[start + 2..], "}}") == None
    ensures Render(prompt, outputs, item) == Err(Unclosed)
  {
    hide Find;
    UnclosedParts(prompt, start);
  }

  /** Literal text stays on its side of a value. */
  lemma RenderExample(value: string)
    ensures Render("<{{ item }}>", map[], Some(value)) == Ok("<" + (value + ">"))
  {
    hide Lookup, Render, Trim, Find, OccursAt;
    var prompt := "<{{ item }}>";
    assert "{{" == ['{', '{'] && "}}" == ['}', '}'];
    FindPair(prompt, '{', 1);
    var after := prompt[3..];
    assert after == " item }}>";
    FindPair(after, '}', 6);
    assert Find(prompt, "{{") == Some(1) && Find(after, "}}") == Some(6);
    assert prompt[..1] == "<" && after[..6] == " item " && after[8..] == ">";
    TrimItem();
    NoPair(">", '{');
    RenderPlain(">", map[], Some(value));
    NoParts(">");
    RenderNext(prompt, 1, 6, map[], Some(value));
    LookupMeaning("item", map[], Some(value));
  }

  lemma FindPair(s: string, c: char, k: nat)
    requires k + 1 < |s| && s[k] == c && s[k + 1] == c && forall i :: 0 <= i < k ==> s[i] != c
    ensures Find(s, [c, c]) == Some(k)
  {
    FindLeftmost(s, [c, c]);
    PairOccurs(s, c);
  }

  lemma NoPair(s: string, c: char)
    requires forall i :: 0 <= i < |s| ==> s[i] != c
    ensures Find(s, [c, c]) == None
  {
    FindNothing(s, [c, c]);
    forall j | 0 <= j <= |s|
      ensures !OccursAt(s, [c, c], j)
    {
      assert j < |s| - 1 ==> s[j..j + 2][0] != c;
    }
  }

  lemma TrimItem()
    ensures Trim(" item ") == "item"
  {
    assert " item "[1..] == "item ";
    assert TrimStart("item ") == "item ";
    assert "item "[..4] == "item";
  }
}
