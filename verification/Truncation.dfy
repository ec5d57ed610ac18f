/** Cutting long strings in a tool's output, with the original kept aside. */
module Truncation {
  import opened Wrappers
  import S = Store
  import Text

  const READ_TOOL_RESULT := "read_tool_result"

  datatype Field = Field(name: string, value: Json)

  /** A JSON value; numbers, truth values and null are opaque. */
  datatype Json =
    | String(text: string)
    | List(items: seq<Json>)
    | Object(fields: seq<Field>)
    | Scalar(text: string)

  predicate NeedsTruncation(v: Json, max: nat) {
    match v
    case String(text) => |text| > max
    case List(items) => exists i :: 0 <= i < |items| && NeedsTruncation(items[i], max)
    case Object(fields) => exists i :: 0 <= i < |fields| && NeedsTruncation(fields[i].value, max)
    case Scalar(_) => false
  }

  /** The text occurs in the value. */
  ghost predicate Holds(v: Json, text: string) {
    match v
    case String(own) => own == text
    case List(items) => exists i :: 0 <= i < |items| && Holds(items[i], text)
    case Object(fields) => exists i :: 0 <= i < |fields| && Holds(fields[i].value, text)
    case Scalar(_) => false
  }

  /** Cutting is needed exactly if some text is longer than the limit. */
  lemma {:induction false} NeedsMeaning(v: Json, max: nat)
    ensures NeedsTruncation(v, max) <==> exists text :: Holds(v, text) && |text| > max
  {
    match v
    case String(text) =>
      assert Holds(v, text);
    case List(items) =>
      forall i | 0 <= i < |items|
        ensures NeedsTruncation(items[i], max) <==> exists text :: Holds(items[i], text) && |text| > max
      {
        NeedsMeaning(items[i], max);
      }
      if i :| 0 <= i < |items| && NeedsTruncation(items[i], max) {
        var text :| Holds(items[i], text) && |text| > max;
        assert Holds(v, text);
      }
    case Object(fields) =>
      forall i | 0 <= i < |fields|
        ensures NeedsTruncation(fields[i].value, max) <==> exists text :: Holds(fields[i].value, text) && |text| > max
      {
        NeedsMeaning(fields[i].value, max);
      }
      if i :| 0 <= i < |fields| && NeedsTruncation(fields[i].value, max) {
        var text :| Holds(fields[i].value, text) && |text| > max;
        assert Holds(v, text);
      }
    case Scalar(_) =>
  }

  function Marker(elided: nat): string {
    "\n\U{2026} [" + Text.Decimal(elided) + " chars elided] \U{2026}\n"
  }

  /** Head and tail of half the limit each, around a count of what is gone. */
  function CutText(text: string, max: nat): string {
    if |text| <= max then text
    else
      var keep := max / 2;
      text[..keep] + Marker(|text| - 2 * keep) + text[|text| - keep..]
  }

  /** A long text keeps its two ends, half the limit each, and the marker
      counts exactly the characters between them. */
  lemma LongIsCut(text: string, max: nat) returns (head: string, gone: string, tail: string)
    requires |text| > max
    ensures text == head + gone + tail && |head| == |tail| == max / 2
    ensures CutText(text, max) == head + Marker(|gone|) + tail
    ensures |gone| > 0
  {
    var keep := max / 2;
    head, gone, tail := text[..keep], text[keep..|text| - keep], text[|text| - keep..];
    assert text == head + gone + tail;
  }

  function Cut(v: Json, max: nat): Json {
    match v
    case String(text) => String(CutText(text, max))
    case List(items) => List(seq(|items|, i requires 0 <= i < |items| => Cut(items[i], max)))
    case Object(fields) =>
      Object(seq(|fields|, i requires 0 <= i < |fields| => Field(fields[i].name, Cut(fields[i].value, max))))
    case Scalar(_) => v
  }

  /** What cutting may do to a value: nothing but replace each text over the
      limit by its two ends, half the limit each, around a count of the
      characters between them. */
  ghost predicate CutsTo(v: Json, w: Json, max: nat) {
    match v
    case String(text) =>
      w.String? && if |text| <= max then w.text == text else Shortened(text, w.text, max)
    case List(items) =>
      w.List? && |w.items| == |items| && forall i :: 0 <= i < |items| ==> CutsTo(items[i], w.items[i], max)
    case Object(fields) =>
      && w.Object? && |w.fields| == |fields|
      && forall i :: 0 <= i < |fields| ==>
           w.fields[i].name == fields[i].name && CutsTo(fields[i].value, w.fields[i].value, max)
    case Scalar(_) => w == v
  }

  ghost predicate Shortened(text: string, short: string, max: nat) {
    var keep := max / 2;
    && |text| > max
    && short == text[..keep] + ("\n\U{2026} [" + Text.Decimal(|text| - 2 * keep) + " chars elided] \U{2026}\n")
                + text[|text| - keep..]
  }

  lemma {:induction false} CutMeaning(v: Json, max: nat)
    ensures CutsTo(v, Cut(v, max), max)
  {
    match v
    case String(_) =>
    case List(items) =>
      forall i | 0 <= i < |items|
        ensures CutsTo(items[i], Cut(items[i], max), max)
      {
        CutMeaning(items[i], max);
      }
    case Object(fields) =>
      forall i | 0 <= i < |fields|
        ensures CutsTo(fields[i].value, Cut(fields[i].value, max), max)
      {
        CutMeaning(fields[i].value, max);
      }
    case Scalar(_) =>
  }

  /** What is short enough everywhere is left exactly as it is. */
  lemma {:induction false} ShortStays(v: Json, max: nat)
    requires !NeedsTruncation(v, max)
    ensures Cut(v, max) == v
  {
    match v
    case String(_) =>
    case List(items) =>
      forall i | 0 <= i < |items|
        ensures Cut(items[i], max) == items[i]
      {
        ShortStays(items[i], max);
      }
    case Object(fields) =>
      forall i | 0 <= i < |fields|
        ensures Cut(fields[i].value, max) == fields[i].value
      {
        ShortStays(fields[i].value, max);
      }
    case Scalar(_) =>
  }

  /** Cuts a value and says whether anything was too long. */
  method TruncateValue(v: Json, max: nat) returns (r: Json, any: bool)
    ensures r == Cut(v, max) && any == NeedsTruncation(v, max)
    decreases v, 1
  {
    match v
    case String(text) =>
      r, any := String(CutText(text, max)), |text| > max;
    case List(items) =>
      var out: seq<Json>;
      out, any := TruncateItems(v, items, max);
      r := List(out);
    case Object(fields) =>
      var out: seq<Field>;
      out, any := TruncateFields(v, fields, max);
      r := Object(out);
    case Scalar(_) =>
      r, any := v, false;
  }

  method TruncateItems(v: Json, items: seq<Json>, max: nat) returns (out: seq<Json>, any: bool)
    requires v == List(items)
    ensures out == seq(|items|, i requires 0 <= i < |items| => Cut(items[i], max))
    ensures any == exists i :: 0 <= i < |items| && NeedsTruncation(items[i], max)
    decreases v, 0
  {
    hide Cut, NeedsTruncation;
    out, any := [], false;
    for k := 0 to |items|
      invariant |out| == k && forall i :: 0 <= i < k ==> out[i] == Cut(items[i], max)
      invariant any == exists i :: 0 <= i < k && NeedsTruncation(items[i], max)
    {
      var item, long := TruncateValue(items[k], max);
      out, any := out + [item], any || long;
    }
  }

  method TruncateFields(v: Json, fields: seq<Field>, max: nat) returns (out: seq<Field>, any: bool)
    requires v == Object(fields)
    ensures out == seq(|fields|, i requires 0 <= i < |fields| => Field(fields[i].name, Cut(fields[i].value, max)))
    ensures any == exists i :: 0 <= i < |fields| && NeedsTruncation(fields[i].value, max)
    decreases v, 0
  {
    hide Cut, NeedsTruncation;
    out, any := [], false;
    for k := 0 to |fields|
      invariant |out| == k && forall i :: 0 <= i < k ==> out[i] == Field(fields[i].name, Cut(fields[i].value, max))
      invariant any == exists i :: 0 <= i < k && NeedsTruncation(fields[i].value, max)
    {
      var value, long := TruncateValue(fields[k].value, max);
      out, any := out + [Field(fields[k].name, value)], any || long;
    }
  }

  /** Sets a field, in place if there is one of that name. */
  function Put(fields: seq<Field>, name: string, value: Json): seq<Field> {
    if fields == [] then [Field(name, value)]
    else if fields[0].name == name then [Field(name, value)] + fields[1..]
    else [fields[0]] + Put(fields[1..], name, value)
  }

  /** The first field of that name gets the value; if there is none, one is
      added at the end. The other fields stay as they are. */
  lemma {:induction false} PutMeaning(fields: seq<Field>, name: string, value: Json) returns (i: nat)
    ensures i <= |fields| && forall j :: 0 <= j < i ==> fields[j].name != name
    ensures if i == |fields| then Put(fields, name, value) == fields + [Field(name, value)]
            else fields[i].name == name && Put(fields, name, value) == fields[i := Field(name, value)]
  {
    if fields == [] || fields[0].name == name {
      i := 0;
    } else {
      i := PutMeaning(fields[1..], name, value);
      i := i + 1;
      assert fields == [fields[0]] + fields[1..];
    }
  }

  function ReadFull(id: string): Json {
    String("full output available: call " + READ_TOOL_RESULT + " with callId \"" + id + "\"")
  }

  /** The output with its marks: truncated, and where the original is. */
  function Marked(v: Json, id: string, stored: bool): Json {
    match v
    case Object(fields) =>
      var marked := Put(fields, "_truncated", Scalar("true"));
      Object(if stored then Put(marked, "_readFull", ReadFull(id)) else marked)
    case String(_) | List(_) | Scalar(_) => v
  }

  /** The value of a field, if there is one of that name. */
  ghost predicate HasField(v: Json, name: string, value: Json) {
    v.Object? && exists i :: 0 <= i < |v.fields| && v.fields[i] == Field(name, value)
  }

  /** An object says that it was cut, and which call reads the original. */
  lemma MarkedMeaning(v: Json, id: string)
    ensures v.Object? ==>
              && HasField(Marked(v, id, true), "_truncated", Scalar("true"))
              && HasField(Marked(v, id, true), "_readFull",
                          String("full output available: call read_tool_result with callId \"" + id + "\""))
    ensures !v.Object? ==> Marked(v, id, true) == v
  {
    hide Put;
    if v.Object? {
      var i := PutMeaning(v.fields, "_truncated", Scalar("true"));
      var marked := Put(v.fields, "_truncated", Scalar("true"));
      assert marked[i] == Field("_truncated", Scalar("true"));
      var j := PutMeaning(marked, "_readFull", ReadFull(id));
      var both := Put(marked, "_readFull", ReadFull(id));
      assert both[j] == Field("_readFull", ReadFull(id));
      assert both[i] == marked[i];
      ReadFullText(id);
    }
  }

  lemma ReadFullText(id: string)
    ensures ReadFull(id) == String("full output available: call read_tool_result with callId \"" + id + "\"")
  {
    assert "full output available: call " + READ_TOOL_RESULT + " with callId \""
        == "full output available: call read_tool_result with callId \"";
  }

  /** After a tool has run: cuts its output and hands the original to the
      store. The store has it exactly if it fits the budget, although the
      output points to it either way. */
  method AfterTool(v: Json, id: string, toolName: string, max: nat, store: S.TruncationStore, serialize: Json -> string)
    returns (r: Json)
    requires store.Valid()
    modifies store
    ensures store.Valid()
    ensures toolName == READ_TOOL_RESULT || !NeedsTruncation(v, max) ==> r == v && store.View() == old(store.View())
    ensures toolName != READ_TOOL_RESULT && NeedsTruncation(v, max) ==>
              && r == Marked(Cut(v, max), id, true)
              && store.View()
                 == S.Inserted(store.budget, old(store.View()), S.Record(id, S.Entry(toolName, serialize(v))))
  {
    if toolName == READ_TOOL_RESULT {
      return v;
    }
    var cut, truncated := TruncateValue(v, max);
    if !truncated {
      ShortStays(v, max);
      return cut;
    }
    store.Insert(id, toolName, serialize(v));
    r := Marked(cut, id, true);
  }

  /** Right after the insertion the pointer gives the original exactly if the
      original fits the budget; otherwise it gives nothing, or an older text
      of the same id. Later insertions may evict it. */
  lemma PointerIsGood(budget: nat, log: seq<S.Record>, r: S.Record)
    requires S.Contents(budget, log)
    ensures var after := S.Inserted(budget, log, r);
            && ((exists x :: x in after && x.id == r.id && x.entry.full == r.entry.full) <==>
                 S.Size(r.entry.full) <= budget)
            && (forall x :: x in after && x.id == r.id ==> x == r || (x in log && S.Size(r.entry.full) > budget))
  {
    hide S.Bytes, S.Size, S.Contents, S.Replay, S.Inserted, S.Accepted, S.Newest, S.NoneAccepted, S.TextKept;
    var more := [r];
    ReplayOne(budget, log, r);
    S.ReadsBackIff(budget, log, more, 0);
    S.DistinctKept(budget, more, 0);
    AcceptedOne(budget, r);
    assert more[0..] == more;
    forall x | x in S.Inserted(budget, log, r) && x.id == r.id
      ensures x == r || (x in log && S.Size(r.entry.full) > budget)
    {
      S.FoundUnder(budget, log, more, x);
      S.DistinctNewest(budget, more, 0, x);
    }
  }

  lemma ReplayOne(budget: nat, log: seq<S.Record>, r: S.Record)
    ensures S.Replay(budget, log, [r]) == S.Inserted(budget, log, r)
  {
    hide S.Inserted;
    assert [r][..0] == [];
    assert S.Replay(budget, log, []) == log;
  }

  lemma AcceptedOne(budget: nat, r: S.Record)
    ensures S.Size(r.entry.full) <= budget ==> S.Bytes(S.Accepted(budget, [r])) == S.Size(r.entry.full)
  {
    OneFits(r);
    assert [r][..0] == [];
    assert S.Accepted(budget, []) == [];
  }

  /** An output that points to a text nobody can read. */
  lemma PointerLost()
    ensures var v := Object([Field("out", String("abc"))]);
            && Marked(Cut(v, 1), "c1", true)
               == Object([Field("out", String(CutText("abc", 1))), Field("_truncated", Scalar("true")),
                          Field("_readFull", ReadFull("c1"))])
            && S.Inserted(0, [], S.Record("c1", S.Entry("shell", "{}"))) == []
  {
    SizeBraces();
    var v := Object([Field("out", String("abc"))]);
    var cut := Field("out", String(CutText("abc", 1)));
    hide CutText, ReadFull, S.Size;
    assert Cut(v, 1) == Object([cut]);
    var mark := Field("_truncated", Scalar("true"));
    assert Put([], "_truncated", Scalar("true")) == [mark];
    assert Put([cut], "_truncated", Scalar("true")) == [cut, mark];
    assert [cut, mark][1..] == [mark] && [mark][1..] == [];
    assert Put([mark], "_readFull", ReadFull("c1")) == [mark, Field("_readFull", ReadFull("c1"))];
  }

  lemma SizeBraces()
    ensures S.Size("{}") == 2
  {
    S.SizeOne('{');
    assert "{}"[..1] == ['{'];
  }

  lemma OneFits(r: S.Record)
    ensures S.Bytes([r]) == S.Size(r.entry.full)
  {
    assert [r][..0] == [];
  }
}
