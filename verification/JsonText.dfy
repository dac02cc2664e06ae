/** JSON text as UTF-16 code units: string literals, decimal numbers and white space. */
module JsonText {
  type Unit = x: int | 0 <= x < 0x10000
  type Text = seq<Unit>

  const QUOTE: Unit := 34
  const BACKSLASH: Unit := 92
  const MINUS: Unit := 45

  /** A parse that consumed the front of the text and left `rest`. */
  datatype Parsed<+T> = Fails | Reads(value: T, rest: Text)

  predicate IsSpace(c: Unit) {
    c == 32 || c == 9 || c == 10 || c == 13
  }

  function SkipSpace(text: Text): (rest: Text)
    ensures |rest| <= |text|
  {
    if text != [] && IsSpace(text[0]) then SkipSpace(text[1..]) else text
  }

  // ---------------------------------------------------------------- strings

  predicate IsLead(c: Unit) {
    0xD800 <= c < 0xDC00
  }

  predicate IsTrail(c: Unit) {
    0xDC00 <= c < 0xE000
  }

  /** Lower-case hexadecimal digit. */
  function HexDigit(d: nat): Unit
    requires d < 16
  {
    if d < 10 then 48 + d else 87 + d
  }

  function HexValue(c: Unit): (d: int)
    ensures -1 <= d < 16
  {
    if 48 <= c < 58 then c - 48
    else if 97 <= c < 103 then c - 87
    else if 65 <= c < 71 then c - 55
    else -1
  }

  function Hex4(c: Unit): Text {
    [HexDigit(c / 16 / 16 / 16), HexDigit(c / 16 / 16 % 16), HexDigit(c / 16 % 16), HexDigit(c % 16)]
  }

  /** The letter behind the backslash of a two-character escape, or 0. */
  function ShortEscape(c: Unit): Unit {
    if c == QUOTE || c == BACKSLASH then c
    else if c == 8 then 98
    else if c == 12 then 102
    else if c == 10 then 110
    else if c == 13 then 114
    else if c == 9 then 116
    else 0
  }

  /** How many units are escaped together: two for a surrogate pair. */
  function Taken(s: Text): (k: nat)
    requires s != []
    ensures 1 <= k <= |s|
  {
    if IsLead(s[0]) && |s| > 1 && IsTrail(s[1]) then 2 else 1
  }

  /** What is written for them: control characters and lone surrogates are escaped, surrogate pairs stay. */
  function Written(s: Text): Text
    requires s != []
  {
    if ShortEscape(s[0]) != 0 then [BACKSLASH, ShortEscape(s[0])]
    else if IsLead(s[0]) && |s| > 1 && IsTrail(s[1]) then [s[0], s[1]]
    else if s[0] < 32 || IsLead(s[0]) || IsTrail(s[0]) then [BACKSLASH, 117] + Hex4(s[0])
    else [s[0]]
  }

  /** The inside of `JSON.stringify(s)`. */
  function Escape(s: Text): Text {
    if s == [] then [] else Written(s) + Escape(s[Taken(s)..])
  }

  function Quoted(s: Text): Text {
    [QUOTE] + Escape(s) + [QUOTE]
  }

  /** The character that a two-character escape stands for, or -1. */
  function Unescape(letter: Unit): int {
    if letter == QUOTE || letter == BACKSLASH || letter == 47 then letter
    else if letter == 98 then 8
    else if letter == 102 then 12
    else if letter == 110 then 10
    else if letter == 114 then 13
    else if letter == 116 then 9
    else -1
  }

  /** The code unit that four hexadecimal digits spell, or -1. */
  function Hex4Value(text: Text): (c: int)
    requires |text| >= 4
    ensures -1 <= c < 0x10000
  {
    var a, b, c, d := HexValue(text[0]), HexValue(text[1]), HexValue(text[2]), HexValue(text[3]);
    if a < 0 || b < 0 || c < 0 || d < 0 then -1 else 4096 * a + 256 * b + 16 * c + d
  }

  /** `JSON.parse` on a string literal, behind its opening quote. */
  function ParseString(text: Text): (p: Parsed<Text>)
    ensures p.Reads? ==> |p.rest| < |text|
  {
    if text == [] || text[0] < 32 then Fails
    else if text[0] == QUOTE then Reads([], text[1..])
    else if text[0] != BACKSLASH then Before(text[0], ParseString(text[1..]))
    else if |text| >= 2 && Unescape(text[1]) >= 0 then Before(Unescape(text[1]), ParseString(text[2..]))
    else if |text| >= 6 && text[1] == 117 && Hex4Value(text[2..6]) >= 0 then
      Before(Hex4Value(text[2..6]), ParseString(text[6..]))
    else Fails
  }

  function Before(c: Unit, p: Parsed<Text>): Parsed<Text> {
    match p
    case Fails => Fails
    case Reads(s, rest) => Reads([c] + s, rest)
  }

  lemma HexDigitValue(d: nat)
    requires d < 16
    ensures HexValue(HexDigit(d)) == d
  {
  }

  lemma HexReadsBack(c: Unit)
    ensures Hex4Value(Hex4(c)) == c
  {
    var b := c / 16;
    var a := b / 16;
    HexDigitValue(a / 16);
    HexDigitValue(a % 16);
    HexDigitValue(b % 16);
    HexDigitValue(c % 16);
    assert a == 16 * (a / 16) + a % 16 && b == 16 * a + b % 16 && c == 16 * b + c % 16;
  }

  lemma ReadPlain(c: Unit, rest: Text)
    requires c >= 32 && c != QUOTE && c != BACKSLASH
    ensures ParseString([c] + rest) == Before(c, ParseString(rest))
  {
    assert ([c] + rest)[1..] == rest;
  }

  lemma ReadShort(letter: Unit, rest: Text)
    requires Unescape(letter) >= 0
    ensures ParseString([BACKSLASH, letter] + rest) == Before(Unescape(letter), ParseString(rest))
  {
    assert ([BACKSLASH, letter] + rest)[2..] == rest;
  }

  lemma ReadHex(c: Unit, rest: Text)
    ensures ParseString([BACKSLASH, 117] + Hex4(c) + rest) == Before(c, ParseString(rest))
  {
    HexReadsBack(c);
    var text := [BACKSLASH, 117] + Hex4(c) + rest;
    assert text[2..6] == Hex4(c) && text[6..] == rest;
  }

  /** What is written for the first units is read back as these units. */
  lemma WrittenReadsBack(s: Text, value: Text, rest: Text, rest2: Text)
    requires s != [] && ParseString(rest) == Reads(value, rest2)
    ensures ParseString(Written(s) + rest) == Reads(s[..Taken(s)] + value, rest2)
  {
    if ShortEscape(s[0]) != 0 {
      ReadShort(ShortEscape(s[0]), rest);
      assert s[..1] == [s[0]];
    } else if Taken(s) == 2 {
      ReadPlain(s[1], rest);
      ReadPlain(s[0], [s[1]] + rest);
      assert [s[0], s[1]] + rest == [s[0]] + ([s[1]] + rest);
      assert s[..2] + value == [s[0]] + ([s[1]] + value);
    } else if s[0] < 32 || IsLead(s[0]) || IsTrail(s[0]) {
      ReadHex(s[0], rest);
      assert s[..1] == [s[0]];
    } else {
      ReadPlain(s[0], rest);
      assert s[..1] == [s[0]];
    }
  }

  lemma Associative(a: Text, b: Text, c: Text)
    ensures a + b + c == a + (b + c)
  {
  }

  /** Every string is read back unit by unit, whatever controls, quotes or unpaired surrogates it holds. */
  lemma {:induction false} StringReadsBack(s: Text, rest: Text)
    ensures ParseString(Escape(s) + ([QUOTE] + rest)) == Reads(s, rest)
  {
    var tail := [QUOTE] + rest;
    if s == [] {
      assert Escape(s) + tail == tail && tail[1..] == rest;
    } else {
      var k := Taken(s);
      var more := Escape(s[k..]);
      StringReadsBack(s[k..], rest);
      WrittenReadsBack(s, s[k..], more + tail, rest);
      Associative(Written(s), more, tail);
      assert s == s[..k] + s[k..];
    }
  }

  // ---------------------------------------------------------------- numbers

  predicate IsDigit(c: Unit) {
    48 <= c < 58
  }

  /** Decimal digits without leading zeros. */
  function Digits(n: nat): (text: Text)
    ensures |text| > 0
  {
    if n < 10 then [48 + n] else Digits(n / 10) + [48 + n % 10]
  }

  function PrintNumber(n: int): Text {
    if n < 0 then [MINUS] + Digits(-n) else Digits(n)
  }

  predicate AllDigits(text: Text) {
    forall i :: 0 <= i < |text| ==> IsDigit(text[i])
  }

  /** How many digits the text starts with. */
  function DigitCount(text: Text): (k: nat)
    ensures k <= |text| && (forall i :: 0 <= i < k ==> IsDigit(text[i])) && (k < |text| ==> !IsDigit(text[k]))
  {
    if text != [] && IsDigit(text[0]) then 1 + DigitCount(text[1..]) else 0
  }

  function DigitsValue(text: Text): nat
    requires AllDigits(text)
  {
    if text == [] then 0 else assert IsDigit(text[|text| - 1]); 10 * DigitsValue(text[..|text| - 1]) + (text[|text| - 1] as int - 48)
  }

  /** `JSON.parse` on an integer; fractions and exponents are refused, as they are outside this model. */
  function ParseNumber(text: Text): (p: Parsed<int>)
    ensures p.Reads? ==> |p.rest| < |text|
  {
    if text != [] && text[0] == MINUS then
      match ParseDigits(text[1..])
      case Fails => Fails
      case Reads(n, rest) => Reads(-(n as int), rest)
    else
      match ParseDigits(text)
      case Fails => Fails
      case Reads(n, rest) => Reads(n, rest)
  }

  function ParseDigits(text: Text): (p: Parsed<nat>)
    ensures p.Reads? ==> |p.rest| < |text|
  {
    var k := DigitCount(text);
    if k == 0 || (k > 1 && text[0] == 48) || (k < |text| && text[k] in [46, 69, 101]) then Fails
    else Reads(DigitsValue(text[..k]), text[k..])
  }

  /** What may follow a value: nothing, white space or a separator. */
  predicate Stops(rest: Text) {
    rest != [] ==> IsSpace(rest[0]) || rest[0] in [44, 58, 93, 125]
  }

  /** Decimal texts: digits, no leading zero, and the number they stand for. */
  lemma {:induction false} DigitsReadBack(n: nat)
    ensures AllDigits(Digits(n))
    ensures DigitsValue(Digits(n)) == n
    ensures Digits(n)[0] == 48 ==> n == 0
  {
    if n >= 10 {
      DigitsReadBack(n / 10);
      var front := Digits(n / 10);
      assert Digits(n)[..|front|] == front;
    } else {
      assert Digits(n)[..0] == [];
    }
  }

  lemma DigitCountExact(text: Text, k: nat)
    requires k <= |text| && (forall i :: 0 <= i < k ==> IsDigit(text[i])) && (k < |text| ==> !IsDigit(text[k]))
    ensures DigitCount(text) == k
  {
  }

  lemma ParseDigitsBack(n: nat, rest: Text)
    requires Stops(rest)
    ensures ParseDigits(Digits(n) + rest) == Reads(n, rest)
  {
    DigitsReadBack(n);
    var text := Digits(n) + rest;
    DigitCountExact(text, |Digits(n)|);
    assert text[..|Digits(n)|] == Digits(n) && text[|Digits(n)|..] == rest;
    if n < 10 {
      assert |Digits(n)| == 1;
    }
  }

  lemma NegativeNumber(text: Text, n: nat, rest: Text)
    requires ParseDigits(text) == Reads(n, rest)
    ensures ParseNumber([MINUS] + text) == Reads(-(n as int), rest)
  {
    assert ([MINUS] + text)[1..] == text;
  }

  lemma NaturalNumber(text: Text, n: nat, rest: Text)
    requires text != [] && text[0] != MINUS && ParseDigits(text) == Reads(n, rest)
    ensures ParseNumber(text) == Reads(n, rest)
  {
  }

  /** Every integer is read back, whatever value separator follows it. */
  lemma NumberReadsBack(n: int, rest: Text)
    requires Stops(rest)
    ensures ParseNumber(PrintNumber(n) + rest) == Reads(n, rest)
  {
    if n < 0 {
      ParseDigitsBack(-n, rest);
      NegativeNumber(Digits(-n) + rest, -n, rest);
      assert PrintNumber(n) + rest == [MINUS] + (Digits(-n) + rest);
    } else {
      ParseDigitsBack(n, rest);
      DigitsReadBack(n);
      assert IsDigit(Digits(n)[0]);
      NaturalNumber(Digits(n) + rest, n, rest);
    }
  }

  /** `^(0|[1-9][0-9]*)$`. */
  predicate IsDecimal(t: Text) {
    t != [] && AllDigits(t) && (t[0] == 48 ==> |t| == 1)
  }

  /** A decimal text is what its number prints to. */
  lemma {:induction false} DecimalIsDigits(text: Text)
    requires IsDecimal(text)
    ensures Digits(DigitsValue(text)) == text
    ensures text[0] != 48 ==> DigitsValue(text) > 0
  {
    var front, last := text[..|text| - 1], text[|text| - 1];
    assert IsDigit(last);
    if front == [] {
      assert text == [last];
    } else {
      DecimalIsDigits(front);
      assert text == front + [last];
    }
  }

  /** Comparing decimal texts is comparing numbers. */
  lemma SizeTexts(text: Text, n: nat)
    requires IsDecimal(text)
    ensures Digits(n) == text <==> DigitsValue(text) == n
  {
    DecimalIsDigits(text);
    DigitsReadBack(n);
  }
}
