/**
 How a large object is cut into parts: the plan of DoS3MultiPartUpload
 (ECSUtil/FileSupport.cpp) and the copy ranges of CopyS3 (ECSUtil/ECSConnection.cpp).
 */
module PartPlan {

  const MB: nat := 0x10_0000
  const GB: nat := 0x4000_0000
  const DWORD_RANGE: nat := 0x1_0000_0000
  const MAX_PARTS: nat := 1000
  const MIN_PART: nat := 5 * MB

  datatype Slice = Slice(num: nat, base: nat, size: nat)

  /** The slices cover [0, total) without gap or overlap, numbered from 1, all but the last full. */
  ghost predicate Tiles(parts: seq<Slice>, total: nat, len: nat) {
    && |parts| > 0 && parts[0].base == 0
    && (forall i :: 0 <= i < |parts| ==> parts[i].num == i + 1 && 0 < parts[i].size <= len)
    && (forall i :: 0 <= i < |parts| - 1 ==>
          parts[i].size == len && parts[i].base + len == parts[i + 1].base)
    && parts[|parts| - 1].base + parts[|parts| - 1].size == total
  }

  function Align(size: nat, unit: nat): nat
    requires unit > 0
  {
    ((size + unit - 1) / unit) * unit
  }

  /** The length of a full part. */
  function PartLength(total: nat, partMB: nat): nat
    requires partMB > 0
  {
    var len := Align(partMB * MB, 0x1_0000);
    if total / len > MAX_PARTS then total / (MAX_PARTS - 1) else len
  }

  lemma AlignedMegabytes(partMB: nat)
    ensures Align(partMB * MB, 0x1_0000) == partMB * MB
  {
    assert partMB * MB == (partMB * 16) * 0x1_0000;
    assert (partMB * MB + 0xFFFF) / 0x1_0000 == partMB * 16;
  }

  datatype Plan = TooSmall | Parts(parts: seq<Slice>)

  /** The loop that lists the parts. */
  method Cut(total: nat, len: nat) returns (parts: seq<Slice>)
    requires 0 < len
    ensures total == 0 <==> parts == []
    ensures total > 0 ==> Tiles(parts, total, len)
    ensures |parts| >= 2 <==> total > len
  {
    parts := [];
    var offset := 0;
    while offset < total
      invariant offset <= total
      invariant offset == 0 <==> parts == []
      invariant parts != [] ==> Tiles(parts, offset, len)
      invariant offset < total ==> forall i :: 0 <= i < |parts| ==> parts[i].size == len
      invariant |parts| >= 2 <==> offset > len
    {
      var size := if total - offset < len then total - offset else len;
      parts := parts + [Slice(|parts| + 1, offset, size)];
      offset := offset + size;
    }
  }

  /**
   The planning phase of DoS3MultiPartUpload. `partMB` is the configured part size; the first
   size test is done in 32-bit arithmetic, the part length in 64-bit arithmetic.
   */
  method PlanUpload(total: nat, partMB: nat) returns (plan: Plan)
    requires 0 < partMB < DWORD_RANGE
    ensures plan.TooSmall? <==>
      (total < (partMB * MB) % DWORD_RANGE || PartLength(total, partMB) < MIN_PART || total <= PartLength(total, partMB))
    ensures plan.Parts? ==> Tiles(plan.parts, total, PartLength(total, partMB)) && |plan.parts| >= 2
  {
    if total < (partMB * MB) % DWORD_RANGE {
      return TooSmall;
    }
    var len := Align(partMB * MB, 0x1_0000);
    if total / len > MAX_PARTS {
      len := total / (MAX_PARTS - 1);
    }
    assert len == PartLength(total, partMB);
    if len < MIN_PART {
      return TooSmall;
    }
    var parts := Cut(total, len);
    if |parts| <= 1 {
      return TooSmall;
    }
    return Parts(parts);
  }

  lemma {:induction false} BaseOfPart(parts: seq<Slice>, total: nat, len: nat, i: nat)
    requires Tiles(parts, total, len) && i < |parts|
    ensures parts[i].base == i * len
  {
    if i > 0 {
      BaseOfPart(parts, total, len, i - 1);
      assert (i - 1) * len + len == i * len;
    }
  }

  /** The number of parts is the rounded-up quotient. */
  lemma NumberOfParts(parts: seq<Slice>, total: nat, len: nat)
    requires Tiles(parts, total, len)
    ensures len > 0 && (|parts| - 1) * len < total <= |parts| * len
    ensures |parts| == total / len + if total % len == 0 then 0 else 1
  {
    var n := |parts|;
    var rest := parts[n - 1].size;
    BaseOfPart(parts, total, len, n - 1);
    assert n * len == (n - 1) * len + len;
    if rest == len { DivUnique(total, len, n, 0); } else { DivUnique(total, len, n - 1, rest); }
  }

  lemma MulMonotone(x: nat, y: nat, d: nat)
    ensures x <= y ==> x * d <= y * d
  {
  }

  /**
   The promised ceiling of 1000 parts holds exactly unless the undivided length goes into the
   total 1000 times with a remainder; then there are 1001 parts, and never more.
   */
  lemma PartCountLimit(total: nat, partMB: nat, parts: seq<Slice>)
    requires 0 < partMB && PartLength(total, partMB) >= MIN_PART
    requires Tiles(parts, total, PartLength(total, partMB))
    ensures var len := Align(partMB * MB, 0x1_0000);
      && (|parts| <= MAX_PARTS <==> !(total / len == MAX_PARTS && total % len != 0))
      && |parts| <= MAX_PARTS + 1
  {
    AlignedMegabytes(partMB);
    var len := Align(partMB * MB, 0x1_0000);
    NumberOfParts(parts, total, PartLength(total, partMB));
    if total / len > MAX_PARTS {
      var d := total / (MAX_PARTS - 1);
      assert total / d <= MAX_PARTS - 1 + (total % (MAX_PARTS - 1)) / d by { Redivided(total, MAX_PARTS - 1, d); }
    }
  }

  /** Dividing by the quotient gives the divisor back when the quotient is the larger one. */
  lemma Redivided(total: nat, k: nat, d: nat)
    requires k > 0 && d == total / k && d > k
    ensures total / d == k
  {
    assert total == k * d + total % k;
    assert total % k < k < d;
    DivUnique(total, d, k, total % k);
  }

  lemma DivUnique(a: nat, d: nat, q: nat, r: nat)
    requires d > 0 && r < d && a == q * d + r
    ensures a / d == q && a % d == r
  {
    assert a == (a / d) * d + a % d;
    MulMonotone(a / d + 1, q, d);
    MulMonotone(q + 1, a / d, d);
    assert (a / d + 1) * d == (a / d) * d + d && (q + 1) * d == q * d + d;
  }

  /** A total that needs 1001 parts of 5 MB, although at most 1000 are announced. */
  lemma ThousandAndOneParts(parts: seq<Slice>)
    requires Tiles(parts, 1000 * 5 * MB + 1, PartLength(1000 * 5 * MB + 1, 5))
    ensures |parts| == 1001
  {
    AlignedMegabytes(5);
    NumberOfParts(parts, 1000 * 5 * MB + 1, 5 * MB);
  }

  // ---------------------------------------------------------------- copy

  /** A byte range of the copy source with both ends included, as the request header writes it. */
  datatype Range = Range(first: nat, last: nat)

  /** CopyS3 for an object of at least 5 GB: one part and one source range per gigabyte. */
  method PlanCopy(size: nat) returns (parts: seq<Slice>, ranges: seq<Range>)
    requires size >= 5 * GB
    ensures Tiles(parts, size, GB) && |ranges| == |parts| >= 5
    ensures forall i :: 0 <= i < |parts| ==>
      ranges[i].first == parts[i].base && ranges[i].last - ranges[i].first + 1 == parts[i].size
    ensures ranges[0].first == 0 && ranges[|ranges| - 1].last == size - 1
    ensures forall i :: 0 <= i < |ranges| - 1 ==> ranges[i].last + 1 == ranges[i + 1].first
  {
    parts, ranges := [], [];
    var offset := 0;
    while true
      invariant offset <= size && |ranges| == |parts|
      invariant offset == 0 <==> parts == []
      invariant parts != [] ==> Tiles(parts, offset, GB)
      invariant offset < size ==> forall i :: 0 <= i < |parts| ==> parts[i].size == GB
      invariant forall i :: 0 <= i < |parts| ==>
        ranges[i].first == parts[i].base && ranges[i].last - ranges[i].first + 1 == parts[i].size
      decreases size - offset
    {
      var partSize := if size - offset < GB then size - offset else GB;
      if partSize == 0 || size <= offset {
        break;
      }
      parts := parts + [Slice(|parts| + 1, offset, partSize)];
      ranges := ranges + [Range(offset, offset + partSize - 1)];
      offset := offset + partSize;
    }
    NumberOfParts(parts, size, GB);
  }
}
