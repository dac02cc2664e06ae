/** JSON values, the compact text `JSON.stringify` prints for them, and the text `JSON.parse` reads. */
module JsonValues {
  import opened Common
  import opened JsonText

  /** Object properties are kept in insertion order. Numbers are integers. */
  datatype Json = Null | Bool(b: bool) | Number(n: int) | Str(s: Text) | Array(items: seq<Json>) | Object(fields: seq<Field>)
  datatype Field = Field(key: Text, value: Json)

  const COMMA: Unit := 44
  const COLON: Unit := 58
  const OPEN_ARRAY: Unit := 91
  const CLOSE_ARRAY: Unit := 93
  const OPEN_OBJECT: Unit := 123
  const CLOSE_OBJECT: Unit := 125
  const NULL: Text := [110, 117, 108, 108]
  const TRUE: Text := [116, 114, 117, 101]
  const FALSE: Text := [102, 97, 108, 115, 101]

  predicate Distinct(fields: seq<Field>) {
    forall i, j :: 0 <= i < j < |fields| ==> fields[i].key != fields[j].key
  }

  /** A JavaScript value: no object has two properties of one name. */
  predicate Plain(v: Json)
    decreases v
  {
    match v
    case Array(items) => forall i :: 0 <= i < |items| ==> Plain(items[i])
    case Object(fields) => Distinct(fields) && forall i :: 0 <= i < |fields| ==> Plain(fields[i].value)
    case _ => true
  }

  // --------------------------------------------------------------- printing

  function Print(v: Json): Text
    decreases v
  {
    match v
    case Null => NULL
    case Bool(b) => if b then TRUE else FALSE
    case Number(n) => PrintNumber(n)
    case Str(s) => Quoted(s)
    case Array(items) => [OPEN_ARRAY] + (if items == [] then [CLOSE_ARRAY] else Print(items[0]) + PrintMoreItems(items[1..]))
    case Object(fields) =>
      [OPEN_OBJECT] + (if fields == [] then [CLOSE_OBJECT] else PrintField(fields[0]) + PrintMoreFields(fields[1..]))
  }

  /** The items behind the first one, each with its comma, and the closing bracket. */
  function PrintMoreItems(items: seq<Json>): Text
    decreases items
  {
    if items == [] then [CLOSE_ARRAY] else [COMMA] + Print(items[0]) + PrintMoreItems(items[1..])
  }

  function PrintField(field: Field): Text
    decreases field
  {
    Quoted(field.key) + [COLON] + Print(field.value)
  }

  function PrintMoreFields(fields: seq<Field>): Text
    decreases fields
  {
    if fields == [] then [CLOSE_OBJECT] else [COMMA] + PrintField(fields[0]) + PrintMoreFields(fields[1..])
  }

  // ---------------------------------------------------------------- parsing

  /** Assigning a property: a repeated name keeps its place and takes the later value. */
  function Put(fields: seq<Field>, field: Field): seq<Field> {
    if fields == [] then [field]
    else if fields[0].key == field.key then [field] + fields[1..]
    else [fields[0]] + Put(fields[1..], field)
  }

  function Assigned(pairs: seq<Field>): seq<Field> {
    if pairs == [] then [] else Put(Assigned(pairs[..|pairs| - 1]), pairs[|pairs| - 1])
  }

  function ParseValue(text: Text): (p: Parsed<Json>)
    ensures p.Reads? ==> |p.rest| < |text|
    decreases |text|, 1
  {
    var t := SkipSpace(text);
    if t == [] then Fails
    else if t[0] == QUOTE then
      match ParseString(t[1..])
      case Fails => Fails
      case Reads(s, rest) => Reads(Str(s), rest)
    else if t[0] == OPEN_ARRAY then
      match ParseItems(t[1..])
      case Fails => Fails
      case Reads(items, rest) => Reads(Array(items), rest)
    else if t[0] == OPEN_OBJECT then
      match ParseFields(t[1..])
      case Fails => Fails
      case Reads(pairs, rest) => Reads(Object(Assigned(pairs)), rest)
    else if NULL <= t then Reads(Null, t[4..])
    else if TRUE <= t then Reads(Bool(true), t[4..])
    else if FALSE <= t then Reads(Bool(false), t[5..])
    else
      match ParseNumber(t)
      case Fails => Fails
      case Reads(n, rest) => Reads(Number(n), rest)
  }

  function ParseItems(text: Text): (p: Parsed<seq<Json>>)
    ensures p.Reads? ==> |p.rest| < |text|
    decreases |text|, 2
  {
    var t := SkipSpace(text);
    if t != [] && t[0] == CLOSE_ARRAY then Reads([], t[1..])
    else
      match ParseValue(text)
      case Fails => Fails
      case Reads(v, rest) =>
        match ParseMoreItems(rest)
        case Fails => Fails
        case Reads(more, rest2) => Reads([v] + more, rest2)
  }

  function ParseMoreItems(text: Text): (p: Parsed<seq<Json>>)
    ensures p.Reads? ==> |p.rest| < |text|
    decreases |text|, 0
  {
    var t := SkipSpace(text);
    if t == [] then Fails
    else if t[0] == CLOSE_ARRAY then Reads([], t[1..])
    else if t[0] != COMMA then Fails
    else
      match ParseValue(t[1..])
      case Fails => Fails
      case Reads(v, rest) =>
        match ParseMoreItems(rest)
        case Fails => Fails
        case Reads(more, rest2) => Reads([v] + more, rest2)
  }

  function ParseField(text: Text): (p: Parsed<Field>)
    ensures p.Reads? ==> |p.rest| < |text|
    decreases |text|, 1
  {
    var t := SkipSpace(text);
    if t == [] || t[0] != QUOTE then Fails
    else
      match ParseString(t[1..])
      case Fails => Fails
      case Reads(key, rest) => ParseFieldValue(key, rest)
  }

  /** The colon and the value behind a property name. */
  function ParseFieldValue(key: Text, text: Text): (p: Parsed<Field>)
    ensures p.Reads? ==> |p.rest| < |text|
    decreases |text|, 2
  {
    var t := SkipSpace(text);
    if t == [] || t[0] != COLON then Fails
    else
      match ParseValue(t[1..])
      case Fails => Fails
      case Reads(v, rest) => Reads(Field(key, v), rest)
  }

  function ParseFields(text: Text): (p: Parsed<seq<Field>>)
    ensures p.Reads? ==> |p.rest| < |text|
    decreases |text|, 2
  {
    var t := SkipSpace(text);
    if t != [] && t[0] == CLOSE_OBJECT then Reads([], t[1..])
    else
      match ParseField(text)
      case Fails => Fails
      case Reads(field, rest) =>
        match ParseMoreFields(rest)
        case Fails => Fails
        case Reads(more, rest2) => Reads([field] + more, rest2)
  }

  function ParseMoreFields(text: Text): (p: Parsed<seq<Field>>)
    ensures p.Reads? ==> |p.rest| < |text|
    decreases |text|, 0
  {
    var t := SkipSpace(text);
    if t == [] then Fails
    else if t[0] == CLOSE_OBJECT then Reads([], t[1..])
    else if t[0] != COMMA then Fails
    else
      match ParseField(t[1..])
      case Fails => Fails
      case Reads(field, rest) =>
        match ParseMoreFields(rest)
        case Fails => Fails
        case Reads(more, rest2) => Reads([field] + more, rest2)
  }

  /** `JSON.parse`: one value with nothing but white space around it. */
  function Parse(text: Text): Option<Json> {
    match ParseValue(text)
    case Fails => None
    case Reads(v, rest) => if SkipSpace(rest) == [] then Some(v) else None
  }

  // ------------------------------------------------------------- round trip

  lemma {:induction false} NothingSkipped(c: Unit, rest: Text)
    requires !IsSpace(c)
    ensures SkipSpace([c] + rest) == [c] + rest
  {
  }

  lemma {:induction false} Behind(c: Unit, rest: Text)
    ensures ([c] + rest)[1..] == rest
  {
  }

  lemma {:induction false} StringValueReadsBack(s: Text, rest: Text)
    ensures ParseValue(Quoted(s) + rest) == Reads(Str(s), rest)
  {
    var inside := Escape(s) + ([QUOTE] + rest);
    StringReadsBack(s, rest);
    assert Quoted(s) + rest == [QUOTE] + inside;
    NothingSkipped(QUOTE, inside);
    Behind(QUOTE, inside);
  }

  lemma {:induction false} WordReadsBack(v: Json, rest: Text)
    requires v.Null? || v.Bool?
    ensures ParseValue(Print(v) + rest) == Reads(v, rest)
  {
    var word := Print(v);
    var text := word + rest;
    assert text == [word[0]] + (word[1..] + rest);
    NothingSkipped(word[0], word[1..] + rest);
    assert text[..|word|] == word && text[|word|..] == rest;
    assert text[0] == word[0];
  }

  lemma {:induction false} NumberBegins(n: int)
    ensures PrintNumber(n) != [] && (PrintNumber(n)[0] == MINUS || IsDigit(PrintNumber(n)[0]))
  {
    if n >= 0 {
      DigitsReadBack(n);
      assert IsDigit(Digits(n)[0]);
    }
  }

  lemma {:induction false} NumberValueReadsBack(n: int, rest: Text)
    requires Stops(rest)
    ensures ParseValue(PrintNumber(n) + rest) == Reads(Number(n), rest)
  {
    NumberReadsBack(n, rest);
    NumberBegins(n);
    ReadAsNumber(PrintNumber(n) + rest);
  }

  /** A text that begins with a digit or a minus sign is read as a number. */
  lemma {:induction false} ReadAsNumber(text: Text)
    requires text != [] && (text[0] == MINUS || IsDigit(text[0]))
    ensures ParseValue(text) == match ParseNumber(text)
                                case Fails => Fails
                                case Reads(n, rest) => Reads(Number(n), rest)
  {
    assert text == [text[0]] + text[1..];
    NothingSkipped(text[0], text[1..]);
  }

  /** No printed value begins with white space or a closing bracket. */
  lemma {:induction false} FirstUnit(v: Json)
    ensures Print(v) != [] && !IsSpace(Print(v)[0]) && Print(v)[0] != CLOSE_ARRAY
  {
    if v.Number? {
      NumberBegins(v.n);
    }
  }

  lemma {:induction false} FieldReadsBack(field: Field, rest: Text)
    requires ParseValue(Print(field.value) + rest) == Reads(field.value, rest)
    ensures ParseField(PrintField(field) + rest) == Reads(field, rest)
  {
    var text := Print(field.value) + rest;
    ValueBehindColon(field, text, rest);
    KeyReadsBack(field.key, [COLON] + text);
    Regroup5([QUOTE], Escape(field.key), [COLON], Print(field.value), rest);
  }

  lemma {:induction false} Regroup5(quote: Text, a: Text, colon: Text, b: Text, rest: Text)
    ensures quote + a + quote + colon + b + rest == quote + (a + (quote + (colon + (b + rest))))
  {
  }

  lemma {:induction false} ValueBehindColon(field: Field, text: Text, rest: Text)
    requires ParseValue(text) == Reads(field.value, rest)
    ensures ParseFieldValue(field.key, [COLON] + text) == Reads(field, rest)
  {
    NothingSkipped(COLON, text);
    Behind(COLON, text);
  }

  lemma {:induction false} KeyReadsBack(key: Text, after: Text)
    ensures ParseField([QUOTE] + (Escape(key) + ([QUOTE] + after))) == ParseFieldValue(key, after)
  {
    var inside := Escape(key) + ([QUOTE] + after);
    StringReadsBack(key, after);
    NothingSkipped(QUOTE, inside);
    Behind(QUOTE, inside);
  }

  lemma {:induction false} NextItemReadsBack(v: Json, more: Text, items: seq<Json>, rest: Text)
    requires ParseValue(Print(v) + more) == Reads(v, more) && ParseMoreItems(more) == Reads(items, rest)
    ensures ParseMoreItems([COMMA] + (Print(v) + more)) == Reads([v] + items, rest)
  {
    NothingSkipped(COMMA, Print(v) + more);
    Behind(COMMA, Print(v) + more);
  }

  lemma {:induction false} LastBracket(close: Unit, rest: Text)
    requires close == CLOSE_ARRAY || close == CLOSE_OBJECT
    ensures close == CLOSE_ARRAY ==> ParseMoreItems([close] + rest) == Reads([], rest)
    ensures close == CLOSE_OBJECT ==> ParseMoreFields([close] + rest) == Reads([], rest)
  {
    NothingSkipped(close, rest);
    Behind(close, rest);
  }

  lemma {:induction false} SeparatorFirst(items: seq<Json>, fields: seq<Field>, rest: Text)
    ensures Stops(PrintMoreItems(items) + rest) && Stops(PrintMoreFields(fields) + rest)
  {
  }

  lemma {:induction false} MoreItemsReadBack(items: seq<Json>, rest: Text)
    requires forall i :: 0 <= i < |items| ==> Plain(items[i])
    ensures ParseMoreItems(PrintMoreItems(items) + rest) == Reads(items, rest)
    decreases items
  {
    if items == [] {
      LastBracket(CLOSE_ARRAY, rest);
    } else {
      var first, later := items[0], items[1..];
      MoreItemsReadBack(later, rest);
      SeparatorFirst(later, [], rest);
      ValueReadsBack(first, PrintMoreItems(later) + rest);
      NextItemReadsBack(first, PrintMoreItems(later) + rest, later, rest);
      Regroup3([COMMA], Print(first), PrintMoreItems(later), rest);
      assert items == [first] + later;
    }
  }

  lemma {:induction false} Regroup3(a: Text, b: Text, c: Text, d: Text)
    ensures a + b + c + d == a + (b + (c + d))
  {
  }

  lemma {:induction false} NextFieldReadsBack(field: Field, more: Text, fields: seq<Field>, rest: Text)
    requires ParseField(PrintField(field) + more) == Reads(field, more) && ParseMoreFields(more) == Reads(fields, rest)
    ensures ParseMoreFields([COMMA] + (PrintField(field) + more)) == Reads([field] + fields, rest)
  {
    NothingSkipped(COMMA, PrintField(field) + more);
    Behind(COMMA, PrintField(field) + more);
  }

  lemma {:induction false} MoreFieldsReadBack(fields: seq<Field>, rest: Text)
    requires forall i :: 0 <= i < |fields| ==> Plain(fields[i].value)
    ensures ParseMoreFields(PrintMoreFields(fields) + rest) == Reads(fields, rest)
    decreases fields
  {
    if fields == [] {
      LastBracket(CLOSE_OBJECT, rest);
    } else {
      var first, later := fields[0], fields[1..];
      MoreFieldsReadBack(later, rest);
      SeparatorFirst([], later, rest);
      ValueReadsBack(first.value, PrintMoreFields(later) + rest);
      FieldReadsBack(first, PrintMoreFields(later) + rest);
      NextFieldReadsBack(first, PrintMoreFields(later) + rest, later, rest);
      Regroup3([COMMA], PrintField(first), PrintMoreFields(later), rest);
      assert fields == [first] + later;
    }
  }

  lemma {:induction false} PutNew(fields: seq<Field>, field: Field)
    requires forall i :: 0 <= i < |fields| ==> fields[i].key != field.key
    ensures Put(fields, field) == fields + [field]
  {
    if fields != [] {
      PutNew(fields[1..], field);
    }
  }

  lemma {:induction false} AssignedDistinct(pairs: seq<Field>)
    requires Distinct(pairs)
    ensures Assigned(pairs) == pairs
  {
    if pairs != [] {
      var front := pairs[..|pairs| - 1];
      AssignedDistinct(front);
      PutNew(front, pairs[|pairs| - 1]);
    }
  }

  lemma {:induction false} ArrayReadsBack(items: seq<Json>, rest: Text)
    requires items != [] && Plain(Array(items))
    requires ParseValue(Print(items[0]) + (PrintMoreItems(items[1..]) + rest)) == Reads(items[0], PrintMoreItems(items[1..]) + rest)
    requires ParseMoreItems(PrintMoreItems(items[1..]) + rest) == Reads(items[1..], rest)
    ensures ParseValue(Print(Array(items)) + rest) == Reads(Array(items), rest)
  {
    var inside := Print(items[0]) + (PrintMoreItems(items[1..]) + rest);
    FirstUnit(items[0]);
    assert inside == [inside[0]] + inside[1..];
    NothingSkipped(inside[0], inside[1..]);
    assert items == [items[0]] + items[1..];
    assert ParseItems(inside) == Reads(items, rest);
    assert Print(Array(items)) + rest == [OPEN_ARRAY] + inside;
    NothingSkipped(OPEN_ARRAY, inside);
    Behind(OPEN_ARRAY, inside);
  }

  lemma {:induction false} ObjectReadsBack(fields: seq<Field>, rest: Text)
    requires fields != [] && Distinct(fields)
    requires ParseField(PrintField(fields[0]) + (PrintMoreFields(fields[1..]) + rest)) == Reads(fields[0], PrintMoreFields(fields[1..]) + rest)
    requires ParseMoreFields(PrintMoreFields(fields[1..]) + rest) == Reads(fields[1..], rest)
    ensures ParseValue(Print(Object(fields)) + rest) == Reads(Object(fields), rest)
  {
    var inside := PrintField(fields[0]) + (PrintMoreFields(fields[1..]) + rest);
    assert inside[0] == QUOTE;
    assert inside == [QUOTE] + inside[1..];
    NothingSkipped(QUOTE, inside[1..]);
    assert fields == [fields[0]] + fields[1..];
    assert ParseFields(inside) == Reads(fields, rest);
    AssignedDistinct(fields);
    assert Print(Object(fields)) + rest == [OPEN_OBJECT] + inside;
    NothingSkipped(OPEN_OBJECT, inside);
    Behind(OPEN_OBJECT, inside);
  }

  lemma {:induction false} EmptyReadsBack(v: Json, rest: Text)
    requires v == Array([]) || v == Object([])
    ensures ParseValue(Print(v) + rest) == Reads(v, rest)
  {
    var open, close := Print(v)[0], Print(v)[1];
    assert Print(v) + rest == [open] + ([close] + rest);
    NothingSkipped(open, [close] + rest);
    Behind(open, [close] + rest);
    NothingSkipped(close, rest);
    Behind(close, rest);
  }

  /** What is printed for a value is read back as that value, in every context a value can stand in. */
  lemma {:induction false} ValueReadsBack(v: Json, rest: Text)
    requires Plain(v) && Stops(rest)
    ensures ParseValue(Print(v) + rest) == Reads(v, rest)
    decreases v
  {
    if v.Str? {
      StringValueReadsBack(v.s, rest);
    } else if v.Number? {
      NumberValueReadsBack(v.n, rest);
    } else if v.Array? && v.items != [] {
      MoreItemsReadBack(v.items[1..], rest);
      SeparatorFirst(v.items[1..], [], rest);
      ValueReadsBack(v.items[0], PrintMoreItems(v.items[1..]) + rest);
      ArrayReadsBack(v.items, rest);
    } else if v.Object? && v.fields != [] {
      MoreFieldsReadBack(v.fields[1..], rest);
      SeparatorFirst([], v.fields[1..], rest);
      ValueReadsBack(v.fields[0].value, PrintMoreFields(v.fields[1..]) + rest);
      FieldReadsBack(v.fields[0], PrintMoreFields(v.fields[1..]) + rest);
      ObjectReadsBack(v.fields, rest);
    } else if v.Array? || v.Object? {
      EmptyReadsBack(v, rest);
    } else {
      WordReadsBack(v, rest);
    }
  }

  /** Parsing the printed text, with or without white space behind it, gives back the value. */
  lemma {:induction false} ParsePrint(v: Json, space: Text)
    requires Plain(v) && (forall i :: 0 <= i < |space| ==> IsSpace(space[i]))
    ensures Parse(Print(v) + space) == Some(v)
  {
    ValueReadsBack(v, space);
    OnlySpace(space);
  }

  lemma {:induction false} OnlySpace(space: Text)
    requires forall i :: 0 <= i < |space| ==> IsSpace(space[i])
    ensures SkipSpace(space) == []
  {
    if space != [] {
      OnlySpace(space[1..]);
    }
  }
}
