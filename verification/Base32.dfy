/**
 * Base32 for the second-factor secrets (section 6 of RFC 4648, unpadded). The
 * reference is the bit string of the bytes; the loops keep their window of it
 * in a 32-bit register that wraps around and is never masked.
 */
module Base32 {
  import opened Common

  const ALPHABET: string := "ABCDEFGHIJKLMNOPQRSTUVWXYZ234567"

  type byte = x: int | 0 <= x < 256

  // -------------------------------------------------------------- reference

  function Pow2(k: nat): nat {
    if k == 0 then 1 else 2 * Pow2(k - 1)
  }

  /** The low `k` bits of a number, most significant first. */
  function BitsOf(x: int, k: nat): (bits: seq<bool>)
    ensures |bits| == k
    decreases k, x
  {
    if k == 0 then [] else BitsOf(x / 2, k - 1) + [x % 2 == 1]
  }

  function NumberOf(bits: seq<bool>): (x: nat)
    ensures x < Pow2(|bits|)
  {
    if bits == [] then 0 else 2 * NumberOf(bits[..|bits| - 1]) + (if bits[|bits| - 1] then 1 else 0)
  }

  function Zeros(n: nat): (bits: seq<bool>)
    ensures |bits| == n
  {
    if n == 0 then [] else Zeros(n - 1) + [false]
  }

  /** The bit string of a list of `k`-bit numbers. */
  function Join(xs: seq<int>, k: nat): seq<bool> {
    if xs == [] then [] else BitsOf(xs[0], k) + Join(xs[1..], k)
  }

  /** A bit string cut into `k`-bit numbers; left-over bits are dropped. */
  function Split(bits: seq<bool>, k: nat): seq<nat>
    requires k > 0
  {
    if |bits| < k then [] else [NumberOf(bits[..k])] + Split(bits[k..], k)
  }

  /** How many zero bits complete the last letter. */
  function Padding(bytes: nat): nat {
    if bytes == 0 then 0 else (Padding(bytes - 1) + 2) % 5
  }

  lemma {:induction false} PaddingCompletes(bytes: nat)
    ensures Padding(bytes) < 5 && (8 * bytes + Padding(bytes)) % 5 == 0
  {
    if bytes > 0 {
      PaddingCompletes(bytes - 1);
      var before := Padding(bytes - 1);
      var letters := (8 * (bytes - 1) + before) / 5;
      assert 8 * (bytes - 1) + before == 5 * letters;
      assert Padding(bytes) == if before < 3 then before + 2 else before - 3;
    }
  }

  function PaddedBits(value: seq<byte>): seq<bool> {
    Join(value, 8) + Zeros(Padding(|value|))
  }

  predicate AreIndexes(xs: seq<int>) {
    forall k :: 0 <= k < |xs| ==> 0 <= xs[k] < 32
  }

  function Letters(indexes: seq<int>): string
    requires AreIndexes(indexes)
  {
    if indexes == [] then "" else Letters(indexes[..|indexes| - 1]) + [ALPHABET[indexes[|indexes| - 1]]]
  }

  /** The bits of the bytes, filled up with zero bits, five to a letter. */
  function Encode(value: seq<byte>): string {
    SplitFives(PaddedBits(value));
    Letters(Split(PaddedBits(value), 5))
  }

  /** First position of a letter in the alphabet at or behind `k`, or -1. */
  function IndexFrom(c: char, k: nat): (i: int)
    ensures i == -1 || (k <= i < 32 && ALPHABET[i] == c)
    ensures i == -1 ==> forall j :: k <= j < 32 ==> ALPHABET[j] != c
    decreases 32 - k, c
  {
    if k >= 32 then -1 else if ALPHABET[k] == c then k else IndexFrom(c, k + 1)
  }

  function WithoutPadding(text: string): string {
    if text == [] then [] else (if text[0] == '=' then [] else [text[0]]) + WithoutPadding(text[1..])
  }

  /** All that is asked of `toUpperCase`, whatever it makes of other characters: upper-case letters and digits stay. */
  ghost predicate KeepsLetters(upper: string -> string) {
    forall indexes :: AreIndexes(indexes) ==> upper(Letters(indexes)) == Letters(indexes)
  }

  /** The numbers of the letters, unless one is not in the alphabet. */
  function Indexes(letters: string): Option<seq<int>> {
    if letters == [] then Some([]) else
      var i := IndexFrom(letters[|letters| - 1], 0);
      match Indexes(letters[..|letters| - 1])
      case None => None
      case Some(before) => if i < 0 then None else Some(before + [i])
  }

  datatype DecodeError = InvalidBase32

  function Decode(text: string, upper: string -> string): Result<seq<byte>, DecodeError> {
    DecodeLetters(WithoutPadding(upper(text)))
  }

  /** The bits of the letters, eight to a byte. */
  function DecodeLetters(letters: string): Result<seq<byte>, DecodeError> {
    match Indexes(letters)
    case None => Err(InvalidBase32)
    case Some(indexes) => SplitEights(Join(indexes, 5)); Ok(Split(Join(indexes, 5), 8))
  }

  lemma {:induction false} SplitFives(bits: seq<bool>)
    ensures AreIndexes(Split(bits, 5))
  {
    if |bits| >= 5 {
      SplitFives(bits[5..]);
    }
  }

  lemma {:induction false} SplitEights(bits: seq<bool>)
    ensures forall k :: 0 <= k < |Split(bits, 8)| ==> 0 <= Split(bits, 8)[k] < 256
  {
    if |bits| >= 8 {
      SplitEights(bits[8..]);
    }
  }

  // ------------------------------------------------------------- round trip

  /** A number is made of its bits, and bits of the number they make. */
  lemma {:induction false} NumberOfBits(x: int, k: nat)
    requires 0 <= x < Pow2(k)
    ensures NumberOf(BitsOf(x, k)) == x
    decreases k
  {
    if k > 0 {
      NumberOfBits(x / 2, k - 1);
      assert BitsOf(x, k)[..k - 1] == BitsOf(x / 2, k - 1);
    }
  }

  lemma {:induction false} BitsOfNumber(bits: seq<bool>)
    ensures BitsOf(NumberOf(bits), |bits|) == bits
  {
    if bits != [] {
      BitsOfNumber(bits[..|bits| - 1]);
      assert bits == bits[..|bits| - 1] + [bits[|bits| - 1]];
    }
  }

  lemma {:induction false} SplitJoin(xs: seq<int>, k: nat, tail: seq<bool>)
    requires |tail| < k && forall i :: 0 <= i < |xs| ==> 0 <= xs[i] < Pow2(k)
    ensures Split(Join(xs, k) + tail, k) == xs
  {
    if xs == [] {
      assert Join(xs, k) + tail == tail;
    } else {
      SplitJoin(xs[1..], k, tail);
      NumberOfBits(xs[0], k);
      SplitFirst(BitsOf(xs[0], k), Join(xs[1..], k) + tail, k);
      assert Join(xs, k) + tail == BitsOf(xs[0], k) + (Join(xs[1..], k) + tail);
    }
  }

  lemma SplitFirst(first: seq<bool>, rest: seq<bool>, k: nat)
    requires |first| == k > 0
    ensures Split(first + rest, k) == [NumberOf(first)] + Split(rest, k)
  {
    assert (first + rest)[..k] == first && (first + rest)[k..] == rest;
  }

  lemma {:induction false} JoinSplit(bits: seq<bool>)
    requires |bits| % 5 == 0
    ensures Join(Split(bits, 5), 5) == bits
  {
    if bits != [] {
      JoinSplit(bits[5..]);
      BitsOfNumber(bits[..5]);
      assert Split(bits, 5)[1..] == Split(bits[5..], 5);
      assert bits == bits[..5] + bits[5..];
    }
  }

  lemma {:induction false} JoinEights(xs: seq<int>)
    ensures |Join(xs, 8)| == 8 * |xs|
  {
    if xs != [] {
      JoinEights(xs[1..]);
    }
  }

  /** The letters are distinct, so looking one up undoes writing it. */
  lemma IndexOfLetter(i: nat)
    requires i < 32
    ensures IndexFrom(ALPHABET[i], 0) == i
  {
    LetterCode(i);
    LetterCode(IndexFrom(ALPHABET[i], 0));
  }

  lemma LetterCode(i: nat)
    requires i < 32
    ensures ALPHABET[i] as int == if i < 26 then 65 + i else 24 + i
  {
  }

  lemma {:induction false} IndexesOfLetters(indexes: seq<int>)
    requires AreIndexes(indexes)
    ensures Indexes(Letters(indexes)) == Some(indexes) && WithoutPadding(Letters(indexes)) == Letters(indexes)
  {
    if indexes != [] {
      var before, i := indexes[..|indexes| - 1], indexes[|indexes| - 1];
      IndexesOfLetters(before);
      IndexOfLetter(i);
      LetterCode(i);
      PaddingAppend(Letters(before), ALPHABET[i]);
      assert (Letters(before) + [ALPHABET[i]])[..|Letters(before)|] == Letters(before);
      assert before + [i] == indexes;
    }
  }

  lemma {:induction false} PaddingAppend(text: string, c: char)
    ensures WithoutPadding(text + [c]) == WithoutPadding(text) + (if c == '=' then [] else [c])
  {
    if text != [] {
      PaddingAppend(text[1..], c);
      assert (text + [c])[1..] == text[1..] + [c];
    }
  }

  /** The letters carry exactly the bits of the bytes and fewer than five zero bits behind them. */
  lemma EncodedBits(value: seq<byte>)
    ensures WithoutPadding(Encode(value)) == Encode(value) && Indexes(Encode(value)).Some?
    ensures Join(Indexes(Encode(value)).value, 5) == Join(value, 8) + Zeros(Padding(|value|))
  {
    SplitFives(PaddedBits(value));
    IndexesOfLetters(Split(PaddedBits(value), 5));
    WholeLetters(value);
    JoinSplit(PaddedBits(value));
  }

  lemma WholeLetters(value: seq<byte>)
    ensures |PaddedBits(value)| % 5 == 0
  {
    PaddingCompletes(|value|);
    JoinEights(value);
  }

  /** Decoding what was encoded gives back the bytes, for every byte sequence: the dropped tail is the padding. */
  lemma DecodeEncode(value: seq<byte>, upper: string -> string)
    requires KeepsLetters(upper)
    ensures Decode(Encode(value), upper) == Ok(value)
  {
    SplitFives(PaddedBits(value));
    assert upper(Encode(value)) == Encode(value);
    EncodedBits(value);
    assert Pow2(8) == 256;
    PaddingCompletes(|value|);
    SplitJoin(value, 8, Zeros(Padding(|value|)));
  }

  // ---------------------------------------------------- the 32-bit register

  /** One more than the largest 32-bit word; words are kept as their unsigned value. */
  const WORD: int := 0x1_0000_0000

  /** `word << k`: one place at a time, wrapping around at 32 bits. */
  function ShiftLeft(word: int, k: nat): int
    decreases k, word
  {
    if k == 0 then word else ShiftLeft(word, k - 1) * 2 % WORD
  }

  /** `word >>> k`. */
  function ShiftRight(word: int, k: nat): int
    decreases k, word
  {
    if k == 0 then word else ShiftRight(word / 2, k - 1)
  }

  /** `word & (2^k - 1)`. */
  function LowBits(word: int, k: nat): nat
    decreases k, word
  {
    if k == 0 then 0 else 2 * LowBits(word / 2, k - 1) + word % 2
  }

  /** `x | y`, bit by bit. */
  function Or(x: int, y: int): int
    decreases x, y
  {
    if x <= 0 then y else if y <= 0 then x
    else 2 * Or(x / 2, y / 2) + (if x % 2 == 1 || y % 2 == 1 then 1 else 0)
  }

  /** `(word << k) | low`. */
  function ShiftIn(word: int, k: nat, low: int): int {
    Or(ShiftLeft(word, k), low)
  }

  /** Where the operands share no bit, the `|` adds. */
  lemma {:induction false} OrAdds(x: int, k: nat, low: int)
    requires 0 <= x && 0 <= low < Pow2(k) && BitsOf(x, k) == BitsOf(0, k)
    ensures Or(x, low) == x + low
    decreases k
  {
    if k > 0 {
      assert BitsOf(x, k)[..k - 1] == BitsOf(x / 2, k - 1) && BitsOf(0, k)[..k - 1] == BitsOf(0, k - 1);
      assert BitsOf(x, k)[k - 1] == (x % 2 == 1) && BitsOf(0, k)[k - 1] == false;
      OrAdds(x / 2, k - 1, low / 2);
    }
  }

  lemma {:induction false} OrBelow(x: int, y: int, p: nat)
    requires 0 <= x < Pow2(p) && 0 <= y < Pow2(p)
    ensures 0 <= Or(x, y) < Pow2(p)
    decreases p
  {
    if p > 0 {
      OrBelow(x / 2, y / 2, p - 1);
    }
  }

  lemma {:induction false} LowBitsNumber(word: int, k: nat)
    ensures LowBits(word, k) == NumberOf(BitsOf(word, k))
    decreases k
  {
    if k > 0 {
      LowBitsNumber(word / 2, k - 1);
      assert BitsOf(word, k)[..k - 1] == BitsOf(word / 2, k - 1);
    }
  }

  /** Bits at and above the `n`-th do not show in the low `n` bits. */
  lemma {:induction false} HighBitsHidden(x: int, p: nat, n: nat)
    requires n <= p
    ensures BitsOf(x - Pow2(p), n) == BitsOf(x, n)
    decreases n
  {
    if n > 0 {
      HighBitsHidden(x / 2, p - 1, n - 1);
      assert (x - Pow2(p)) / 2 == x / 2 - Pow2(p - 1) && (x - Pow2(p)) % 2 == x % 2;
    }
  }

  lemma HalfWord()
    ensures Pow2(31) * 2 == Pow2(32) == WORD
  {
    assert Pow2(8) == 256;
    assert Pow2(16) == 0x1_0000;
    assert Pow2(24) == 0x100_0000;
  }

  /** Doubling wraps around, which the low 31 bits do not notice. */
  lemma DoubleWraps(s: int, low: int, n: nat)
    requires 0 <= s < WORD && n <= 31
    ensures 0 <= s * 2 % WORD < WORD
    ensures BitsOf(s * 2 % WORD + low, n + 1) == BitsOf(s + low / 2, n) + [low % 2 == 1]
  {
    HalfWord();
    var wrapped := if s < Pow2(31) then s else s - Pow2(31);
    assert s * 2 % WORD == 2 * wrapped;
    assert (2 * wrapped + low) / 2 == wrapped + low / 2 && (2 * wrapped + low) % 2 == low % 2;
    HighBitsHidden(s + low / 2, 31, n);
    BitsOfDouble(wrapped, low, n);
  }

  lemma BitsOfDouble(x: int, low: int, n: nat)
    ensures BitsOf(2 * x + low, n + 1) == BitsOf(x + low / 2, n) + [low % 2 == 1]
  {
    assert (2 * x + low) / 2 == x + low / 2 && (2 * x + low) % 2 == low % 2;
  }

  lemma {:induction false} ShiftLeftAppends(word: int, k: nat, low: int, n: nat)
    requires 0 <= word < WORD && n + k <= 31 && 0 <= low < Pow2(k)
    ensures 0 <= ShiftLeft(word, k) < WORD
    ensures BitsOf(ShiftLeft(word, k) + low, n + k) == BitsOf(word, n) + BitsOf(low, k)
    decreases k
  {
    if k > 0 {
      ShiftLeftAppends(word, k - 1, low / 2, n);
      DoubleWraps(ShiftLeft(word, k - 1), low, n + k - 1);
      assert BitsOf(low, k) == BitsOf(low / 2, k - 1) + [low % 2 == 1];
    }
  }

  lemma {:induction false} PositivePow2(k: nat)
    ensures Pow2(k) > 0
  {
    if k > 0 {
      PositivePow2(k - 1);
    }
  }

  /** What was shifted left has room for the new bits. */
  lemma ShiftLeftMakesRoom(word: int, k: nat)
    requires 0 <= word < WORD && k <= 31
    ensures BitsOf(ShiftLeft(word, k), k) == BitsOf(0, k)
  {
    PositivePow2(k);
    ShiftLeftAppends(word, k, 0, 0);
  }

  /** Shifting `k` bits into the register, wrap-around or not, appends them to its low bits. */
  lemma ShiftInAppends(word: int, k: nat, low: int, n: nat)
    requires 0 <= word < WORD && n + k <= 31 && 0 <= low < Pow2(k) && low < 256
    ensures 0 <= ShiftIn(word, k, low) < WORD
    ensures BitsOf(ShiftIn(word, k, low), n + k) == BitsOf(word, n) + BitsOf(low, k)
  {
    ShiftLeftAppends(word, k, low, n);
    ShiftLeftMakesRoom(word, k);
    OrAdds(ShiftLeft(word, k), k, low);
    HalfWord();
    OrBelow(ShiftLeft(word, k), low, 32);
  }

  /** Shifting right exposes the upper bits of a window. */
  lemma {:induction false} ShiftRightExposes(word: int, s: nat, k: nat)
    ensures BitsOf(ShiftRight(word, s), k) == BitsOf(word, k + s)[..k]
    decreases s
  {
    if s > 0 {
      ShiftRightExposes(word / 2, s - 1, k);
      assert BitsOf(word, k + s)[..k] == BitsOf(word / 2, k + s - 1)[..k];
    }
  }

  /** The lower bits of a window are the smaller window. */
  lemma {:induction false} SmallerWindow(word: int, s: nat, k: nat)
    ensures BitsOf(word, s) == BitsOf(word, k + s)[k..]
    decreases s
  {
    if s > 0 {
      SmallerWindow(word / 2, s - 1, k);
      assert BitsOf(word, k + s)[k..] == BitsOf(word / 2, k + s - 1)[k..] + [word % 2 == 1];
    }
  }

  lemma {:induction false} JoinAppend(xs: seq<int>, x: int, k: nat)
    ensures Join(xs + [x], k) == Join(xs, k) + BitsOf(x, k)
  {
    if xs == [] {
      assert xs + [x] == [x];
      assert Join([x], k) == BitsOf(x, k) + Join([], k);
    } else {
      JoinAppend(xs[1..], x, k);
      assert (xs + [x])[1..] == xs[1..] + [x];
    }
  }

  lemma {:induction false} JoinFives(xs: seq<int>)
    ensures |Join(xs, 5)| == 5 * |xs|
  {
    if xs != [] {
      JoinFives(xs[1..]);
    }
  }

  /** The numbers written so far and the low bits of the register are the bit string read so far. */
  predicate Window(written: seq<int>, size: nat, buffer: int, bits: nat, stream: seq<bool>) {
    0 <= buffer < WORD && Join(written, size) + BitsOf(buffer, bits) == stream
  }

  /** `buffer = (buffer << k) | x` reads `k` more bits. */
  lemma Read(written: seq<int>, size: nat, buffer: int, bits: nat, stream: seq<bool>, x: int, k: nat)
    requires Window(written, size, buffer, bits, stream) && bits + k <= 31 && 0 <= x < Pow2(k) && x < 256
    ensures Window(written, size, ShiftIn(buffer, k, x), bits + k, stream + BitsOf(x, k))
  {
    ShiftInAppends(buffer, k, x, bits);
  }

  /** A window is its upper bits, then its lower bits. */
  lemma CutWindow(word: int, s: nat, k: nat)
    ensures BitsOf(word, k + s) == BitsOf(ShiftRight(word, s), k) + BitsOf(word, s)
  {
    ShiftRightExposes(word, s, k);
    SmallerWindow(word, s, k);
    var window := BitsOf(word, k + s);
    assert window == window[..k] + window[k..];
  }

  lemma MaskKeepsLowBits(word: int, k: nat)
    ensures LowBits(word, k) < Pow2(k) && BitsOf(LowBits(word, k), k) == BitsOf(word, k)
  {
    LowBitsNumber(word, k);
    BitsOfNumber(BitsOf(word, k));
  }

  /** `(buffer >>> s) & (2^size - 1)` is the next number to write; `s` bits stay. */
  lemma Write(written: seq<int>, size: nat, buffer: int, s: nat, stream: seq<bool>)
    requires Window(written, size, buffer, size + s, stream)
    ensures LowBits(ShiftRight(buffer, s), size) < Pow2(size)
    ensures Window(written + [LowBits(ShiftRight(buffer, s), size)], size, buffer, s, stream)
  {
    var x := LowBits(ShiftRight(buffer, s), size);
    MaskKeepsLowBits(ShiftRight(buffer, s), size);
    CutWindow(buffer, s, size);
    JoinAppend(written, x, size);
  }

  /** The bits left over at the end, filled up with zeros, are the last number. */
  lemma WriteLast(written: seq<int>, size: nat, buffer: int, bits: nat, zeros: nat, stream: seq<bool>)
    requires Window(written, size, buffer, bits, stream) && bits + zeros == size <= 31
    ensures LowBits(ShiftLeft(buffer, zeros), size) < Pow2(size)
    ensures Join(written + [LowBits(ShiftLeft(buffer, zeros), size)], size) == stream + Zeros(zeros)
  {
    var x := LowBits(ShiftLeft(buffer, zeros), size);
    MaskKeepsLowBits(ShiftLeft(buffer, zeros), size);
    PositivePow2(zeros);
    ShiftLeftAppends(buffer, zeros, 0, bits);
    ZeroBits(zeros);
    JoinAppend(written, x, size);
  }

  lemma ByteAndLetterSizes()
    ensures Pow2(8) == 256 && Pow2(5) == 32
  {
  }

  lemma {:induction false} ZeroBits(k: nat)
    ensures BitsOf(0, k) == Zeros(k)
  {
    if k > 0 {
      ZeroBits(k - 1);
    }
  }

  /** One turn of the encoding loop reads the next byte. */
  lemma ReadByte(written: seq<int>, buffer: int, bits: nat, value: seq<byte>, i: nat)
    requires i < |value| && bits <= 12 && Window(written, 5, buffer, bits, Join(value[..i], 8))
    ensures Window(written, 5, ShiftIn(buffer, 8, value[i]), bits + 8, Join(value[..i + 1], 8))
  {
    ByteAndLetterSizes();
    var size, k := 5, 8;
    assert value[..i + 1] == value[..i] + [value[i]];
    JoinAppend(value[..i], value[i], k);
    Read(written, size, buffer, bits, Join(value[..i], 8), value[i], k);
  }

  lemma WriteLetter(written: seq<int>, buffer: int, s: nat, stream: seq<bool>)
    requires AreIndexes(written) && Window(written, 5, buffer, 5 + s, stream)
    ensures var x := LowBits(ShiftRight(buffer, s), 5);
            x < 32 && Window(written + [x], 5, buffer, s, stream) && AreIndexes(written + [x])
            && Letters(written + [x]) == Letters(written) + [ALPHABET[x]]
  {
    ByteAndLetterSizes();
    Write(written, 5, buffer, s, stream);
  }

  /** One turn of the decoding loop reads the next letter. */
  lemma ReadLetter(output: seq<int>, buffer: int, bits: nat, read: seq<int>, index: nat)
    requires bits < 8 && index < 32 && Window(output, 8, buffer, bits, Join(read, 5))
    ensures Window(output, 8, ShiftIn(buffer, 5, index), bits + 5, Join(read + [index], 5))
  {
    ByteAndLetterSizes();
    var size, k := 8, 5;
    JoinAppend(read, index, k);
    Read(output, size, buffer, bits, Join(read, 5), index, k);
  }

  lemma NextLetter(letters: string, i: nat)
    requires i < |letters|
    ensures Indexes(letters[..i + 1]) == match Indexes(letters[..i])
                                         case None => None
                                         case Some(before) => if IndexFrom(letters[i], 0) < 0 then None else Some(before + [IndexFrom(letters[i], 0)])
  {
    assert letters[..i + 1][..i] == letters[..i];
  }

  lemma WriteByte(output: seq<int>, buffer: int, s: nat, stream: seq<bool>)
    requires Window(output, 8, buffer, 8 + s, stream)
    ensures var x := LowBits(ShiftRight(buffer, s), 8);
            x < 256 && Window(output + [x], 8, buffer, s, stream)
  {
    ByteAndLetterSizes();
    Write(output, 8, buffer, s, stream);
  }

  lemma PaddingUnique(letters: nat, bytes: nat, zeros: nat)
    requires 5 * letters == 8 * bytes + zeros && zeros < 5
    ensures zeros == Padding(bytes)
  {
    PaddingCompletes(bytes);
    var other := (8 * bytes + Padding(bytes)) / 5;
    assert 8 * bytes + Padding(bytes) == 5 * other;
    assert -1 < letters - other < 1;
  }

  /** Whole letters carry the bits of the bytes only with the right padding. */
  lemma OnlyPadding(written: seq<int>, value: seq<byte>, zeros: nat)
    requires zeros < 5 && Join(written, 5) == Join(value, 8) + Zeros(zeros)
    ensures Join(written, 5) == PaddedBits(value)
  {
    JoinFives(written);
    JoinEights(value);
    PaddingUnique(|written|, |value|, zeros);
  }

  /** Behind the loop: the last letter takes the bits that are left over, if any. */
  lemma WriteLastLetter(written: seq<int>, buffer: int, bits: nat, value: seq<byte>)
    requires AreIndexes(written) && bits < 5 && Window(written, 5, buffer, bits, Join(value, 8))
    ensures bits == 0 ==> Letters(written) == Encode(value)
    ensures var x := LowBits(ShiftLeft(buffer, 5 - bits), 5);
            x < 32 && (bits > 0 ==> Letters(written) + [ALPHABET[x]] == Encode(value))
  {
    ByteAndLetterSizes();
    WriteLast(written, 5, buffer, bits, 5 - bits, Join(value, 8));
    if bits == 0 {
      assert Join(written, 5) == Join(value, 8) + Zeros(0);
      OnlyPadding(written, value, 0);
      WrittenLetters(written, value);
    } else {
      var x := LowBits(ShiftLeft(buffer, 5 - bits), 5);
      OnlyPadding(written + [x], value, 5 - bits);
      WrittenLetters(written + [x], value);
    }
  }

  lemma WrittenLetters(written: seq<int>, value: seq<byte>)
    requires AreIndexes(written) && Join(written, 5) == PaddedBits(value)
    ensures Letters(written) == Encode(value)
  {
    ByteAndLetterSizes();
    SplitJoin(written, 5, []);
    assert Join(written, 5) + [] == Join(written, 5);
  }

  lemma WrittenBytes(output: seq<byte>, buffer: int, bits: nat, read: seq<int>, letters: string)
    requires Indexes(letters) == Some(read)
    requires bits < 8 && Window(output, 8, buffer, bits, Join(read, 5))
    ensures DecodeLetters(letters) == Ok(output)
  {
    ByteAndLetterSizes();
    SplitJoin(output, 8, BitsOf(buffer, bits));
  }

  /** A character outside the alphabet anywhere makes the text invalid. */
  lemma {:induction false} NoLetter(letters: string, i: nat)
    requires i <= |letters| && Indexes(letters[..i]) == None
    ensures Indexes(letters) == None && DecodeLetters(letters) == Err(InvalidBase32)
  {
    if i < |letters| {
      assert letters[..|letters| - 1][..i] == letters[..i];
      NoLetter(letters[..|letters| - 1], i);
    } else {
      assert letters[..i] == letters;
    }
  }

  /** The inner loop: as long as the register holds five bits, the upper five leave as a letter. */
  method WriteLetters(buffer: int, held: nat, before: string, ghost writtenBefore: seq<int>, ghost stream: seq<bool>)
      returns (bits: nat, output: string, ghost written: seq<int>)
    requires held <= 12 && Window(writtenBefore, 5, buffer, held, stream)
    requires AreIndexes(writtenBefore) && before == Letters(writtenBefore)
    ensures bits < 5 && Window(written, 5, buffer, bits, stream)
    ensures AreIndexes(written) && output == Letters(written)
  {
    bits, output, written := held, before, writtenBefore;
    while bits >= 5
      invariant bits <= 12 && Window(written, 5, buffer, bits, stream)
      invariant AreIndexes(written) && output == Letters(written)
    {
      WriteLetter(written, buffer, bits - 5, stream);
      var x := LowBits(ShiftRight(buffer, bits - 5), 5);
      output := output + [ALPHABET[x]];
      written := written + [x];
      bits := bits - 5;
    }
  }

  method EncodeBase32(value: seq<byte>) returns (output: string)
    ensures output == Encode(value)
  {
    var bits: nat, buffer := 0, 0;
    output := "";
    ghost var written: seq<int> := [];
    for i := 0 to |value|
      invariant bits < 5 && Window(written, 5, buffer, bits, Join(value[..i], 8))
      invariant AreIndexes(written) && output == Letters(written)
    {
      ReadByte(written, buffer, bits, value, i);
      buffer := ShiftIn(buffer, 8, value[i]);
      bits, output, written := WriteLetters(buffer, bits + 8, output, written, Join(value[..i + 1], 8));
    }
    assert value[..|value|] == value;
    WriteLastLetter(written, buffer, bits, value);
    if bits > 0 {
      output := output + [ALPHABET[LowBits(ShiftLeft(buffer, 5 - bits), 5)]];
    }
  }

  /** One turn of the loop: the five bits of a letter enter, and eight leave as a byte when there are so many. */
  method ReadAndWrite(buffer: int, held: nat, index: nat, before: seq<byte>, ghost read: seq<int>)
      returns (register: int, bits: nat, output: seq<byte>)
    requires held < 8 && index < 32 && Window(before, 8, buffer, held, Join(read, 5))
    ensures bits < 8 && Window(output, 8, register, bits, Join(read + [index], 5))
  {
    ReadLetter(before, buffer, held, read, index);
    register, bits, output := ShiftIn(buffer, 5, index), held + 5, before;
    if bits >= 8 {
      WriteByte(output, register, bits - 8, Join(read + [index], 5));
      output := output + [LowBits(ShiftRight(register, bits - 8), 8)];
      bits := bits - 8;
    }
  }

  method DecodeBase32(text: string, upper: string -> string) returns (r: Result<seq<byte>, DecodeError>)
    ensures r == Decode(text, upper)
  {
    var letters := WithoutPadding(upper(text));
    var bits: nat, buffer := 0, 0;
    var output: seq<byte> := [];
    ghost var read: seq<int> := [];
    for i := 0 to |letters|
      invariant bits < 8
      invariant Indexes(letters[..i]) == Some(read)
      invariant Window(output, 8, buffer, bits, Join(read, 5))
    {
      NextLetter(letters, i);
      var index := IndexFrom(letters[i], 0);
      if index < 0 {
        NoLetter(letters, i + 1);
        return Err(InvalidBase32);
      }
      buffer, bits, output := ReadAndWrite(buffer, bits, index, output, read);
      read := read + [index];
    }
    assert letters[..|letters|] == letters;
    WrittenBytes(output, buffer, bits, read, letters);
    return Ok(output);
  }
}
