/** How an upload of a known size is cut into parts, and the parts received so far. */
module BlobParts {
  import opened Common

  // ---------------------------------------------------------- part arithmetic

  /** Size of the part with this number; None when it would start behind the end of the blob. */
  function PartSize(expected: int, partBytes: int, number: int): Option<int> {
    var start := (number - 1) * partBytes;
    if start >= expected then None
    else if expected - start > partBytes then Some(partBytes) else Some(expected - start)
  }

  function PartCount(expected: nat, partBytes: nat): nat
    requires partBytes > 0
  {
    (expected + partBytes - 1) / partBytes
  }

  /** The parts of a complete upload. */
  function Tiling(expected: nat, partBytes: nat): map<nat, nat>
    requires partBytes > 0
  {
    FirstParts(expected, partBytes, PartCount(expected, partBytes))
  }

  function FirstParts(expected: nat, partBytes: nat, k: nat): map<nat, nat> {
    map n: nat | 1 <= n <= k :: SizeIn(expected, partBytes, n)
  }

  function SizeIn(expected: nat, partBytes: nat, number: int): nat {
    match PartSize(expected, partBytes, number)
    case Some(size) => if size < 0 then 0 else size
    case None => 0
  }

  function Bytes(size: nat): nat {
    size
  }

  lemma CountBounds(expected: nat, partBytes: nat)
    requires partBytes > 0
    ensures var count := PartCount(expected, partBytes);
            expected <= count * partBytes < expected + partBytes && (expected > 0 ==> count > 0)
  {
    var total := expected + partBytes - 1;
    assert total == PartCount(expected, partBytes) * partBytes + total % partBytes;
  }

  lemma TimesMonotone(a: int, b: int, partBytes: int)
    requires a <= b && partBytes > 0
    ensures a * partBytes <= b * partBytes
  {
  }

  lemma NextMultiple(a: int, partBytes: int)
    ensures (a - 1) * partBytes == a * partBytes - partBytes
  {
  }

  /** Exactly the numbers 1..PartCount name parts; each has between 1 and `partBytes` bytes, and only the last may be short. */
  lemma PartsTile(expected: nat, partBytes: nat, number: int)
    requires partBytes > 0 && number >= 1
    ensures PartSize(expected, partBytes, number).Some? <==> number <= PartCount(expected, partBytes)
    ensures number <= PartCount(expected, partBytes) ==>
              var size := PartSize(expected, partBytes, number).value;
              && 0 < size <= partBytes && size == SizeIn(expected, partBytes, number)
              && (number - 1) * partBytes + size == if number < PartCount(expected, partBytes) then number * partBytes else expected
  {
    var count := PartCount(expected, partBytes);
    CountBounds(expected, partBytes);
    NextMultiple(number, partBytes);
    if number < count {
      NextMultiple(count, partBytes);
      TimesMonotone(number, count - 1, partBytes);
    } else if number > count {
      TimesMonotone(count, number - 1, partBytes);
    }
  }

  ghost predicate Covers(expected: nat, partBytes: nat, number: int, offset: int) {
    PartSize(expected, partBytes, number).Some?
    && (number - 1) * partBytes <= offset < (number - 1) * partBytes + PartSize(expected, partBytes, number).value
  }

  /** Every byte of the blob lies in exactly one part. */
  lemma EveryByteInOnePart(expected: nat, partBytes: nat, offset: nat)
    requires partBytes > 0 && offset < expected
    ensures Covers(expected, partBytes, offset / partBytes + 1, offset)
    ensures forall n :: n >= 1 && Covers(expected, partBytes, n, offset) ==> n == offset / partBytes + 1
  {
    var q := offset / partBytes;
    assert offset == q * partBytes + offset % partBytes;
    forall n | n >= 1 && Covers(expected, partBytes, n, offset)
      ensures n == q + 1
    {
      NextMultiple(n, partBytes);
      NextMultiple(q + 1, partBytes);
      if n > q + 1 {
        TimesMonotone(q + 1, n - 1, partBytes);
      } else if n < q + 1 {
        TimesMonotone(n, q, partBytes);
      }
    }
  }

  /** The 10000-part limit is a limit on the size: exactly the blobs of at most 10000 full parts fit. */
  lemma PartLimit(expected: nat, partBytes: nat)
    requires partBytes > 0
    ensures PartCount(expected, partBytes) <= 10_000 <==> expected <= 10_000 * partBytes
  {
    CountBounds(expected, partBytes);
    var count := PartCount(expected, partBytes);
    if count <= 10_000 {
      TimesMonotone(count, 10_000, partBytes);
    } else {
      TimesMonotone(10_001, count, partBytes);
    }
  }

  // ------------------------------------------------------------- summing up

  lemma {:induction false} FirstPartsSum(expected: nat, partBytes: nat, k: nat)
    requires partBytes > 0 && k <= PartCount(expected, partBytes)
    ensures SumOver(FirstParts(expected, partBytes, k), Bytes) == if k < PartCount(expected, partBytes) then k * partBytes else expected
  {
    CountBounds(expected, partBytes);
    if k == 0 {
      assert FirstParts(expected, partBytes, 0) == map[];
    } else {
      FirstPartsSum(expected, partBytes, k - 1);
      PartsTile(expected, partBytes, k);
      NextMultiple(k, partBytes);
      OneMorePart(expected, partBytes, k);
    }
  }

  lemma OneMorePart(expected: nat, partBytes: nat, k: nat)
    requires k > 0
    ensures SumOver(FirstParts(expected, partBytes, k), Bytes)
         == SumOver(FirstParts(expected, partBytes, k - 1), Bytes) + SizeIn(expected, partBytes, k)
  {
    var before := FirstParts(expected, partBytes, k - 1);
    SumUpdate(before, Bytes, k, SizeIn(expected, partBytes, k));
    assert FirstParts(expected, partBytes, k) == before[k := SizeIn(expected, partBytes, k)];
  }

  /** The sizes of all parts add up to the size of the blob. */
  lemma TilingSum(expected: nat, partBytes: nat)
    requires partBytes > 0
    ensures SumOver(Tiling(expected, partBytes), Bytes) == expected
  {
    FirstPartsSum(expected, partBytes, PartCount(expected, partBytes));
  }

  /** Some of the parts of a complete upload, each of its right size. */
  ghost predicate PartOf(parts: map<nat, nat>, whole: map<nat, nat>) {
    forall n :: n in parts ==> n in whole && parts[n] == whole[n]
  }

  lemma {:induction false} PartialSum(parts: map<nat, nat>, whole: map<nat, nat>)
    requires PartOf(parts, whole) && forall n :: n in whole ==> whole[n] > 0
    ensures SumOver(parts, Bytes) <= SumOver(whole, Bytes)
    ensures SumOver(parts, Bytes) == SumOver(whole, Bytes) <==> parts == whole
    decreases |whole|
  {
    if n :| n in whole {
      var fewer, rest := parts - {n}, whole - {n};
      SumSplit(whole, Bytes, n);
      PartialSum(fewer, rest);
      if n in parts {
        SumSplit(parts, Bytes, n);
        SameBut(parts, whole, n);
      } else {
        assert fewer == parts;
      }
    } else {
      assert forall n :: n !in whole && n !in parts;
      assert parts == whole;
    }
  }

  lemma SameBut(parts: map<nat, nat>, whole: map<nat, nat>, n: nat)
    requires n in parts && n in whole && parts[n] == whole[n]
    ensures parts - {n} == whole - {n} <==> parts == whole
  {
    assert parts == (parts - {n})[n := parts[n]];
    assert whole == (whole - {n})[n := parts[n]];
  }

  /** What was received never exceeds the blob, and reaches its size exactly when every part is there. */
  lemma ReceivedBounds(parts: map<nat, nat>, expected: nat, partBytes: nat)
    requires partBytes > 0 && PartOf(parts, Tiling(expected, partBytes))
    ensures SumOver(parts, Bytes) <= expected
    ensures SumOver(parts, Bytes) == expected <==> parts == Tiling(expected, partBytes)
  {
    forall n | n in Tiling(expected, partBytes)
      ensures Tiling(expected, partBytes)[n] > 0
    {
      PartsTile(expected, partBytes, n);
    }
    PartialSum(parts, Tiling(expected, partBytes));
    TilingSum(expected, partBytes);
  }

  // ------------------------------------------------- the test at completion

  datatype Part = Part(number: nat, size: int)

  function Total(rows: seq<Part>): int {
    if rows == [] then 0 else Total(rows[..|rows| - 1]) + rows[|rows| - 1].size
  }

  /** The per-part test: as many rows as parts, numbered from 1, each of the expected size. */
  predicate PartsValid(rows: seq<Part>, expected: nat, partBytes: nat)
    requires partBytes > 0
  {
    && |rows| == PartCount(expected, partBytes)
    && forall i :: 0 <= i < |rows| ==>
         rows[i].number == i + 1 && PartSize(expected, partBytes, i + 1) == Some(rows[i].size)
  }

  lemma {:induction false} FirstRowsTotal(rows: seq<Part>, expected: nat, partBytes: nat, k: nat)
    requires partBytes > 0 && PartsValid(rows, expected, partBytes) && k <= |rows|
    ensures Total(rows[..k]) == if k < |rows| then k * partBytes else expected
  {
    CountBounds(expected, partBytes);
    if k > 0 {
      FirstRowsTotal(rows, expected, partBytes, k - 1);
      PartsTile(expected, partBytes, k);
      NextMultiple(k, partBytes);
      assert rows[..k][..k - 1] == rows[..k - 1];
      assert rows[k - 1].number == k;
    }
  }

  /** The per-part test implies the separate test of the sum. */
  lemma PartsTestImpliesSumTest(rows: seq<Part>, expected: nat, partBytes: nat)
    requires partBytes > 0 && PartsValid(rows, expected, partBytes)
    ensures Total(rows) == expected
  {
    FirstRowsTotal(rows, expected, partBytes, |rows|);
    assert rows[..|rows|] == rows;
  }

  /** `rows` are the stored parts in ascending order, as the query returns them. */
  ghost predicate Lists(rows: seq<Part>, parts: map<nat, nat>) {
    && (forall i, j :: 0 <= i < j < |rows| ==> rows[i].number < rows[j].number)
    && (forall i :: 0 <= i < |rows| ==> rows[i].number in parts && parts[rows[i].number] == rows[i].size)
    && forall n :: n in parts ==> exists i :: 0 <= i < |rows| && rows[i].number == n
  }

  lemma {:induction false} NumbersGrow(rows: seq<Part>, parts: map<nat, nat>, i: nat)
    requires Lists(rows, parts) && (forall n :: n in parts ==> n >= 1) && i < |rows|
    ensures rows[i].number >= i + 1
  {
    if i > 0 {
      NumbersGrow(rows, parts, i - 1);
      assert rows[i - 1].number < rows[i].number;
    }
  }

  /** When the stored numbers are 1..count, the rows are numbered without gaps. */
  lemma {:induction false} RowNumbers(rows: seq<Part>, parts: map<nat, nat>, count: nat, i: nat)
    requires Lists(rows, parts) && (forall n :: n in parts <==> 1 <= n <= count) && i <= count
    ensures i <= |rows| && forall k :: 0 <= k < i ==> rows[k].number == k + 1
  {
    if i > 0 {
      RowNumbers(rows, parts, count, i - 1);
      assert i in parts;
      var j :| 0 <= j < |rows| && rows[j].number == i;
      NumbersGrow(rows, parts, j);
      assert j == i - 1;
    }
  }

  /** And there are no more rows than that. */
  lemma RowCount(rows: seq<Part>, parts: map<nat, nat>, count: nat)
    requires Lists(rows, parts) && forall n :: n in parts <==> 1 <= n <= count
    ensures |rows| == count && forall k :: 0 <= k < count ==> rows[k].number == k + 1
  {
    RowNumbers(rows, parts, count, count);
    if |rows| > 0 {
      NumbersGrow(rows, parts, |rows| - 1);
      assert rows[|rows| - 1].number in parts;
    }
  }

  /** The test accepts exactly when the stored parts are all the parts of the blob. */
  lemma ValidMeansComplete(rows: seq<Part>, parts: map<nat, nat>, expected: nat, partBytes: nat)
    requires partBytes > 0 && Lists(rows, parts)
    ensures PartsValid(rows, expected, partBytes) <==> parts == Tiling(expected, partBytes)
  {
    var count, tiling := PartCount(expected, partBytes), Tiling(expected, partBytes);
    if PartsValid(rows, expected, partBytes) {
      forall n
        ensures n in parts <==> n in tiling
        ensures n in parts ==> parts[n] == tiling[n]
      {
        if n in parts {
          var i :| 0 <= i < |rows| && rows[i].number == n;
          PartsTile(expected, partBytes, i + 1);
        }
        if n in tiling {
          assert rows[n - 1].number == n;
          PartsTile(expected, partBytes, n);
        }
      }
    }
    if parts == tiling {
      RowCount(rows, parts, count);
      forall i | 0 <= i < |rows|
        ensures PartSize(expected, partBytes, i + 1) == Some(rows[i].size)
      {
        assert rows[i].number == i + 1;
        PartsTile(expected, partBytes, i + 1);
      }
    }
  }

  /** Both tests together accept exactly the complete uploads. */
  lemma TestMeansComplete(rows: seq<Part>, parts: map<nat, nat>, expected: nat, partBytes: nat)
    requires partBytes > 0 && Lists(rows, parts)
    ensures Total(rows) == expected && PartsValid(rows, expected, partBytes) <==> parts == Tiling(expected, partBytes)
  {
    ValidMeansComplete(rows, parts, expected, partBytes);
    if PartsValid(rows, expected, partBytes) {
      PartsTestImpliesSumTest(rows, expected, partBytes);
    }
  }
}
