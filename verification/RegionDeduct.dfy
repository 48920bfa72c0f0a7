/** Recovering the region of a registered object that an access with fewer dimensions refers to: the missing
    lower bounds are the digits of the distance between the two base addresses. */
module RegionDeduct {
  import opened Arithmetic
  import opened RegionGeometry

  datatype DeductResult = Fatal | Deduced(dims: Region)

  const TWO_64 := 0x1_0000_0000_0000_0000

  /** A copy descriptor, as far as this operation looks at it. */
  datatype CopyData = CopyData(baseAddress: nat, dims: Region)

  /** The distance of the base addresses, in 64-bit unsigned arithmetic. */
  function Distance(cd: CopyData, ref: CopyData): nat {
    (cd.baseAddress - ref.baseAddress) % TWO_64
  }

  // ----- The code accepts -----

  /** The leading sizes match and the distance is a whole number of the blocks they make up. */
  predicate Accepts(cd: CopyData, ref: CopyData, n: nat)
    requires n <= |cd.dims| <= |ref.dims| && Valid(ref.dims)
  {
    forall i :: 0 <= i < n ==> AcceptsDim(cd, ref, i)
  }

  predicate AcceptsDim(cd: CopyData, ref: CopyData, i: nat)
    requires i < |cd.dims| <= |ref.dims| && Valid(ref.dims)
  {
    StridePositive(ref.dims, i + 1);
    cd.dims[i].size == ref.dims[i].size && Distance(cd, ref) % Stride(ref.dims, i + 1) == 0
  }

  function Digit(ref: Region, off: nat, i: nat): nat
    requires Valid(ref) && i < |ref|
  {
    StridePositive(ref, i);
    StridePositive(ref, i + 1);
    off % Stride(ref, i + 1) / Stride(ref, i)
  }

  function DeducedDims(cd: CopyData, ref: CopyData): Region
    requires Valid(ref.dims)
  {
    seq(|ref.dims|, i requires 0 <= i < |ref.dims| =>
      if i < |cd.dims| then cd.dims[i] else Dim(ref.dims[i].size, Digit(ref.dims, Distance(cd, ref), i), 1))
  }

  /** An access is accepted exactly when its sizes are the leading sizes of the object and it starts a whole number of
      accesses' arrays away from it: the tests on the smaller blocks follow. */
  lemma AcceptedIff(cd: CopyData, ref: CopyData)
    requires Valid(cd.dims) && Valid(ref.dims) && 0 < |cd.dims| <= |ref.dims|
    ensures Total(cd.dims) > 0
    ensures Accepts(cd, ref, |cd.dims|) <==>
      && (forall i :: 0 <= i < |cd.dims| ==> cd.dims[i].size == ref.dims[i].size)
      && Distance(cd, ref) % Total(cd.dims) == 0
  {
    var m, off := |cd.dims|, Distance(cd, ref);
    TotalPositive(cd.dims);
    if forall i :: 0 <= i < m ==> cd.dims[i].size == ref.dims[i].size {
      SameTotal(cd.dims, ref.dims[..m]);
      assert Stride(ref.dims, m) == Total(cd.dims);
      if off % Total(cd.dims) == 0 {
        forall i | 0 <= i < m ensures AcceptsDim(cd, ref, i) { SmallerBlock(ref.dims, off, i + 1, m); }
      }
      if Accepts(cd, ref, m) { assert AcceptsDim(cd, ref, m - 1); }
    } else {
      var i :| 0 <= i < m && cd.dims[i].size != ref.dims[i].size;
      assert !AcceptsDim(cd, ref, i);
    }
  }

  lemma {:induction false} SmallerBlock(ref: Region, off: nat, i: nat, k: nat)
    requires Valid(ref) && i <= k <= |ref| && Stride(ref, k) > 0 && off % Stride(ref, k) == 0
    ensures Stride(ref, i) > 0 && off % Stride(ref, i) == 0
    decreases k
  {
    StridePositive(ref, i);
    if i < k {
      StridePositive(ref, k - 1);
      StrideStep(ref, k - 1);
      ModOfMod(off, Stride(ref, k - 1), ref[k - 1].size);
      DivModUnique(0, Stride(ref, k - 1), 0, 0);
      SmallerBlock(ref, off, i, k - 1);
    }
  }

  // ----- The loops -----

  method DeductCd(cd: CopyData, ref: CopyData) returns (res: DeductResult)
    requires Valid(cd.dims) && Valid(ref.dims) && cd.dims != [] && ref.dims != []
    ensures |ref.dims| < |cd.dims| ==> res.Fatal?
    ensures |ref.dims| > |cd.dims| ==>
      res == if Accepts(cd, ref, |cd.dims|) then Deduced(DeducedDims(cd, ref)) else Fatal
    ensures Total(cd.dims) > 0
    ensures |ref.dims| > |cd.dims| ==>
      (res.Deduced? <==>
        && (forall i :: 0 <= i < |cd.dims| ==> cd.dims[i].size == ref.dims[i].size)
        && Distance(cd, ref) % Total(cd.dims) == 0)
    ensures |ref.dims| == |cd.dims| == 1 ==>
      res == Deduced(DeducedOne(cd, ref))
    ensures |ref.dims| == |cd.dims| > 1 ==> res == Deduced(cd.dims)
  {
    TotalPositive(cd.dims);
    if |ref.dims| < |cd.dims| {
      res := Fatal;
    } else if |ref.dims| > |cd.dims| {
      res := DeductMissing(cd, ref);
      AcceptedIff(cd, ref);
    } else if |cd.dims| == 1 {
      res := Deduced([Dim(ref.dims[0].size, Distance(cd, ref), cd.dims[0].length)]);
    } else {
      res := Deduced(cd.dims);
    }
  }

  method DeductMissing(cd: CopyData, ref: CopyData) returns (res: DeductResult)
    requires Valid(ref.dims) && 0 < |cd.dims| < |ref.dims|
    ensures res == if Accepts(cd, ref, |cd.dims|) then Deduced(DeducedDims(cd, ref)) else Fatal
  {
    var newDims := new Dim[|ref.dims|](_ => Dim(0, 0, 0));
    var elemSize := new nat[|ref.dims|](_ => 1);
    var ok := MatchLeading(cd, ref, newDims, elemSize);
    if !ok { return Fatal; }
    FillStrides(ref, |cd.dims|, elemSize);
    FillDigits(cd, ref, newDims, elemSize);
    res := Deduced(newDims[..]);
    assert newDims[..] == DeducedDims(cd, ref);
  }

  /** The dimensions that both have: equal sizes, aligned distance. */
  method MatchLeading(cd: CopyData, ref: CopyData, newDims: array<Dim>, elemSize: array<nat>) returns (ok: bool)
    requires Valid(ref.dims) && |cd.dims| <= |ref.dims| == newDims.Length == elemSize.Length
    modifies newDims, elemSize
    ensures ok == Accepts(cd, ref, |cd.dims|)
    ensures ok ==> forall i :: 0 <= i < |cd.dims| ==> elemSize[i] == Stride(ref.dims, i + 1)
    ensures ok ==> forall i :: 0 <= i < |cd.dims| ==> newDims[i] == cd.dims[i]
  {
    var off := Distance(cd, ref);
    var current := 1;
    assert ref.dims[..0] == [];
    var dimIdx := 0;
    while dimIdx < |cd.dims|
      invariant 0 <= dimIdx <= |cd.dims| && current == Stride(ref.dims, dimIdx)
      invariant Accepts(cd, ref, dimIdx)
      invariant forall i :: 0 <= i < dimIdx ==> elemSize[i] == Stride(ref.dims, i + 1)
      invariant forall i :: 0 <= i < dimIdx ==> newDims[i] == cd.dims[i]
    {
      if ref.dims[dimIdx].size == cd.dims[dimIdx].size {
        newDims[dimIdx] := cd.dims[dimIdx];
        StrideStep(ref.dims, dimIdx);
        StridePositive(ref.dims, dimIdx + 1);
        current := current * ref.dims[dimIdx].size;
        elemSize[dimIdx] := current;
        if off % elemSize[dimIdx] != 0 {
          assert !AcceptsDim(cd, ref, dimIdx);
          return false;
        }
      } else {
        assert !AcceptsDim(cd, ref, dimIdx);
        return false;
      }
      dimIdx := dimIdx + 1;
    }
    ok := true;
  }

  /** The block sizes of the remaining dimensions. */
  method FillStrides(ref: CopyData, from: nat, elemSize: array<nat>)
    requires 0 < from <= |ref.dims| == elemSize.Length
    requires forall i :: 0 <= i < from ==> elemSize[i] == Stride(ref.dims, i + 1)
    modifies elemSize
    ensures forall i :: 0 <= i < |ref.dims| ==> elemSize[i] == Stride(ref.dims, i + 1)
  {
    var dimIdx, current := from, elemSize[from - 1];
    while dimIdx < |ref.dims|
      invariant from <= dimIdx <= |ref.dims| && current == Stride(ref.dims, dimIdx)
      invariant forall i :: 0 <= i < dimIdx ==> elemSize[i] == Stride(ref.dims, i + 1)
    {
      StrideStep(ref.dims, dimIdx);
      current := current * ref.dims[dimIdx].size;
      elemSize[dimIdx] := current;
      dimIdx := dimIdx + 1;
    }
  }

  /** The lower bounds of the remaining dimensions. */
  method FillDigits(cd: CopyData, ref: CopyData, newDims: array<Dim>, elemSize: array<nat>)
    requires Valid(ref.dims) && 0 < |cd.dims| <= |ref.dims| == newDims.Length == elemSize.Length
    requires forall i :: 0 <= i < |ref.dims| ==> elemSize[i] == Stride(ref.dims, i + 1)
    requires forall i :: 0 <= i < |cd.dims| ==> newDims[i] == cd.dims[i]
    modifies newDims
    ensures newDims[..] == DeducedDims(cd, ref)
  {
    var off := Distance(cd, ref);
    for idx := |cd.dims| to |ref.dims|
      invariant forall i :: 0 <= i < idx ==> newDims[i] == DeducedDims(cd, ref)[i]
    {
      assert elemSize[idx - 1] == Stride(ref.dims, idx);
      StridePositive(ref.dims, idx);
      StridePositive(ref.dims, idx + 1);
      var lowerBound := off % elemSize[idx] / elemSize[idx - 1];
      assert lowerBound == Digit(ref.dims, off, idx);
      newDims[idx] := Dim(ref.dims[idx].size, lowerBound, 1);
    }
  }

  // ----- The digits -----

  /** A recovered lower bound is an element of its dimension. */
  lemma DigitBelowSize(ref: Region, off: nat, i: nat)
    requires Valid(ref) && i < |ref|
    ensures Digit(ref, off, i) < ref[i].size
  {
    StridePositive(ref, i);
    StridePositive(ref, i + 1);
    StrideStep(ref, i);
    QuotientBelow(off % Stride(ref, i + 1), Stride(ref, i), ref[i].size);
  }

  lemma DigitStep(ref: Region, off: nat, i: nat)
    requires Valid(ref) && i < |ref|
    ensures Stride(ref, i) > 0 && Stride(ref, i + 1) > 0
    ensures off % Stride(ref, i + 1) == off % Stride(ref, i) + Digit(ref, off, i) * Stride(ref, i)
  {
    StridePositive(ref, i);
    StridePositive(ref, i + 1);
    StrideStep(ref, i);
    ModOfMod(off, Stride(ref, i), ref[i].size);
    DivModIdentity(off % Stride(ref, i + 1), Stride(ref, i));
  }

  /** The point of the deduced region that stands for `p`. */
  function Extend(ref: Region, off: nat, p: Point): Point
    requires Valid(ref)
  {
    seq(|ref|, i requires 0 <= i < |ref| => if i < |p| then p[i] else Digit(ref, off, i))
  }

  /** The digits above dimension `m` add up to the distance, as far as the object reaches. */
  lemma {:induction false} ExtendedOffset(s: Region, ref: Region, off: nat, p: Point, m: nat, j: nat)
    requires Valid(ref) && |s| == |ref| && (forall i :: 0 <= i < |s| ==> s[i].size == ref[i].size)
    requires |p| == m <= j <= |ref| && Stride(ref, m) > 0 && off % Stride(ref, m) == 0
    ensures Stride(ref, j) > 0
    ensures Linear(s[..j], Extend(ref, off, p)[..j]) == Linear(s[..m], p) + off % Stride(ref, j)
    decreases j
  {
    var q := Extend(ref, off, p);
    if j == m {
      assert q[..m] == p;
    } else {
      ExtendedOffset(s, ref, off, p, m, j - 1);
      InitOfPrefix(s, j - 1);
      assert q[..j][..j - 1] == q[..j - 1];
      DigitStep(ref, off, j - 1);
      SameTotal(s[..j - 1], ref[..j - 1]);
    }
  }

  // ----- The round trip -----

  lemma AcceptedSizes(cd: CopyData, ref: CopyData)
    requires Valid(cd.dims) && Valid(ref.dims) && 0 < |cd.dims| < |ref.dims| && Accepts(cd, ref, |cd.dims|)
    ensures var s := DeducedDims(cd, ref);
      && |s| == |ref.dims| && s[..|cd.dims|] == cd.dims
      && (forall i :: 0 <= i < |s| ==> s[i].size == ref.dims[i].size)
    ensures Stride(ref.dims, |cd.dims|) > 0 && Distance(cd, ref) % Stride(ref.dims, |cd.dims|) == 0
  {
    forall i | 0 <= i < |cd.dims| ensures cd.dims[i].size == ref.dims[i].size { assert AcceptsDim(cd, ref, i); }
    StridePositive(ref.dims, |cd.dims|);
    assert AcceptsDim(cd, ref, |cd.dims| - 1);
  }

  /** The deduced region lies inside the object, and its points are the points of the access, extended. */
  lemma DeducedBox(cd: CopyData, ref: CopyData, q: Point)
    requires Valid(cd.dims) && Valid(ref.dims) && 0 < |cd.dims| < |ref.dims| && Accepts(cd, ref, |cd.dims|)
    ensures Valid(DeducedDims(cd, ref))
    ensures InBox(DeducedDims(cd, ref), q) <==>
      && |q| == |ref.dims| && InBox(cd.dims, q[..|cd.dims|])
      && q == Extend(ref.dims, Distance(cd, ref), q[..|cd.dims|])
  {
    var s, m := DeducedDims(cd, ref), |cd.dims|;
    forall i | 0 <= i < |s| ensures DimOk(s[i]) {
      if i < m { assert DimOk(cd.dims[i]); } else {
        DigitBelowSize(ref.dims, Distance(cd, ref), i);
      }
    }
    if |q| == |ref.dims| {
      var e := Extend(ref.dims, Distance(cd, ref), q[..m]);
      if InBox(s, q) {
        forall i | 0 <= i < m ensures cd.dims[i].lowerBound <= q[i] < cd.dims[i].lowerBound + cd.dims[i].length {
          assert s[i] == cd.dims[i];
        }
        forall i | 0 <= i < |q| ensures q[i] == e[i] { assert s[i].lowerBound <= q[i] < s[i].lowerBound + s[i].length; }
      }
      if InBox(cd.dims, q[..m]) && q == e {
        forall i | 0 <= i < |s| ensures s[i].lowerBound <= q[i] < s[i].lowerBound + s[i].length {
          if i < m { assert q[..m][i] == q[i]; } else { assert q[i] == e[i]; }
        }
      }
    }
  }

  /** Numbers that differ by less than the modulus are congruent only when they do not differ. */
  lemma DifferBy(x: int, y: int, k: int, d: int, m: int)
    requires 0 <= d < m && x - y == k * m + d
    ensures x % m == y % m <==> d == 0
  {
    var q, r := y / m, y % m;
    DivModIdentity(y, m);
    assert (q + k) * m == q * m + k * m && (q + k + 1) * m == q * m + k * m + m;
    if r + d < m { DivModUnique(x, m, q + k, r + d); } else { DivModUnique(x, m, q + k + 1, r + d - m); }
  }

  lemma DistanceInside(a: nat, b: nat, total: nat)
    requires a < TWO_64 && b < TWO_64 && total > 0
    ensures b + (a - b) % TWO_64 % total == a <==> 0 <= a - b < total
  {
    var d := (a - b) % TWO_64;
    if a >= b { DivModUnique(a - b, TWO_64, 0, a - b); }
    DivModIdentity(d, total);
    if 0 <= a - b < total { DivModUnique(d, total, 0, d); }
  }

  /** Every point of the access has the address of the corresponding point of the deduced region exactly when
      the access starts inside the registered object; in 64-bit arithmetic, exactly when the wrapped distance does. */
  lemma DeductRoundTrip(cd: CopyData, ref: CopyData, p: Point)
    requires Valid(cd.dims) && Valid(ref.dims) && 0 < |cd.dims| < |ref.dims| && Accepts(cd, ref, |cd.dims|)
    requires cd.baseAddress < TWO_64 && ref.baseAddress < TWO_64 && InBox(cd.dims, p)
    ensures var q := Extend(ref.dims, Distance(cd, ref), p);
      && InBox(DeducedDims(cd, ref), q)
      && (ref.baseAddress + Linear(DeducedDims(cd, ref), q) == cd.baseAddress + Linear(cd.dims, p)
          <==> 0 <= cd.baseAddress - ref.baseAddress < Total(ref.dims))
      && ((ref.baseAddress + Linear(DeducedDims(cd, ref), q)) % TWO_64 == (cd.baseAddress + Linear(cd.dims, p)) % TWO_64
          <==> Distance(cd, ref) < Total(ref.dims))
  {
    var q := Extend(ref.dims, Distance(cd, ref), p);
    assert q[..|cd.dims|] == p;
    DeducedBox(cd, ref, q);
    DeducedOffset(cd, ref, p);
    TotalPositive(ref.dims);
    DistanceInside(cd.baseAddress, ref.baseAddress, Total(ref.dims));
    DistanceWraps(cd.baseAddress, ref.baseAddress, Linear(cd.dims, p), Total(ref.dims));
  }

  lemma DistanceWraps(a: nat, b: nat, l: nat, total: nat)
    requires total > 0
    ensures var off := (a - b) % TWO_64; (b + l + off % total) % TWO_64 == (a + l) % TWO_64 <==> off < total
  {
    var off := (a - b) % TWO_64;
    DivModIdentity(a - b, TWO_64);
    DivModIdentity(off, total);
    MulMonotone(0, off / total, total);
    var d := off - off % total;
    DifferBy(a + l, b + l + off % total, (a - b) / TWO_64, d, TWO_64);
    if off < total { DivModUnique(off, total, 0, off); }
  }

  lemma DeducedOffset(cd: CopyData, ref: CopyData, p: Point)
    requires Valid(cd.dims) && Valid(ref.dims) && 0 < |cd.dims| < |ref.dims| && Accepts(cd, ref, |cd.dims|)
    requires |p| == |cd.dims|
    ensures Total(ref.dims) > 0
    ensures Linear(DeducedDims(cd, ref), Extend(ref.dims, Distance(cd, ref), p))
         == Linear(cd.dims, p) + Distance(cd, ref) % Total(ref.dims)
  {
    var s, off, n := DeducedDims(cd, ref), Distance(cd, ref), |ref.dims|;
    var q := Extend(ref.dims, off, p);
    AcceptedSizes(cd, ref);
    ExtendedOffset(s, ref.dims, off, p, |cd.dims|, n);
    assert s[..n] == s && q[..n] == q && ref.dims[..n] == ref.dims;
  }

  /** What the code deduces when both sides have one dimension. */
  function DeducedOne(cd: CopyData, ref: CopyData): Region
    requires |cd.dims| == |ref.dims| == 1
  {
    [Dim(ref.dims[0].size, Distance(cd, ref), cd.dims[0].length)]
  }

  /** A region of one dimension starts at its lower bound. */
  lemma FirstOfOne(r: Region)
    requires |r| == 1
    ensures First(r) == r[0].lowerBound
  {
    FirstStep(r);
    assert Init(r) == [];
  }

  /** With one dimension on both sides the lower bound of the access is dropped: in 64-bit arithmetic the deduced
      region starts where the access starts exactly when that bound is zero. */
  lemma DeductOneDimension(cd: CopyData, ref: CopyData)
    requires |cd.dims| == |ref.dims| == 1 && cd.dims[0].lowerBound < TWO_64
    ensures (ref.baseAddress + First(DeducedOne(cd, ref))) % TWO_64 == (cd.baseAddress + First(cd.dims)) % TWO_64
        <==> cd.dims[0].lowerBound == 0
  {
    FirstOfOne(DeducedOne(cd, ref));
    FirstOfOne(cd.dims);
    var k, l := (cd.baseAddress - ref.baseAddress) / TWO_64, cd.dims[0].lowerBound;
    DivModIdentity(cd.baseAddress - ref.baseAddress, TWO_64);
    DifferBy(cd.baseAddress + l, ref.baseAddress + Distance(cd, ref), k, l, TWO_64);
  }

  /** The deduced dimension lies in the object exactly when the distance of the addresses leaves room for the access:
      never when the access starts before the object, unless the object reaches around the address space. */
  lemma DeductOneInside(cd: CopyData, ref: CopyData)
    requires |cd.dims| == |ref.dims| == 1 && Valid(cd.dims) && Valid(ref.dims)
    requires cd.baseAddress < TWO_64 && ref.baseAddress < TWO_64
    ensures Valid(DeducedOne(cd, ref)) <==>
      && cd.baseAddress - ref.baseAddress + (if cd.baseAddress < ref.baseAddress then TWO_64 else 0) + cd.dims[0].length
         <= ref.dims[0].size
  {
    var d := cd.baseAddress - ref.baseAddress;
    if d >= 0 { DivModUnique(d, TWO_64, 0, d); } else { DivModUnique(d, TWO_64, -1, d + TWO_64); }
    var r := DeducedOne(cd, ref);
    assert Valid(r) <==> DimOk(r[0]);
    assert DimOk(cd.dims[0]) && DimOk(ref.dims[0]);
  }

  /** The bound is lost: an access to elements 2 to 4 of a ten-element object is taken for elements 0 to 2. */
  lemma DeductLosesBound()
    ensures var cd, ref := CopyData(4096, [Dim(10, 2, 3)]), CopyData(4096, [Dim(10, 0, 10)]);
      && Valid(cd.dims) && Valid(ref.dims) && DeducedOne(cd, ref) == [Dim(10, 0, 3)]
      && (ref.baseAddress + First(DeducedOne(cd, ref))) % TWO_64 != (cd.baseAddress + First(cd.dims)) % TWO_64
  {
    var cd, ref := CopyData(4096, [Dim(10, 2, 3)]), CopyData(4096, [Dim(10, 0, 10)]);
    DeductOneDimension(cd, ref);
  }
}
