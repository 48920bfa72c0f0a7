/** The "fit" of a region: the box that is transferred or allocated in one piece.  It is computed twice,
    recursively from the copy descriptor and by a loop from the region. */
module RegionFit {
  import opened Wrappers
  import opened Arithmetic
  import opened RegionGeometry

  predicate UnitAbove(r: Region, i: int) {
    forall j :: 0 <= j < |r| && i < j ==> r[j].length == 1
  }

  function Widened(d: Dim): Dim {
    Dim(d.size, 0, d.size)
  }

  /** Dimensions are kept down to the slowest one that is not a single element; those below become full. */
  function Fit(r: Region): Region {
    seq(|r|, i requires 0 <= i < |r| => if UnitAbove(r, i) then r[i] else Widened(r[i]))
  }

  // ----- The loops -----

  /** getFitRegionId of a region. */
  method GetFitRegion(r: Region) returns (fit: Region)
    ensures fit == Fit(r)
  {
    var fitDimensions := new Dim[|r|](_ => Dim(0, 0, 0));
    var keepFitting := true;
    var idx := |r|;
    while idx > 0
      invariant 0 <= idx <= |r|
      invariant keepFitting == UnitAbove(r, idx - 1)
      invariant forall i :: idx <= i < |r| ==> fitDimensions[i] == Fit(r)[i]
    {
      idx := idx - 1;
      if keepFitting {
        fitDimensions[idx] := Dim(r[idx].size, r[idx].lowerBound, r[idx].length);
        if r[idx].length != 1 {
          keepFitting := false;
        }
      } else {
        fitDimensions[idx] := Dim(r[idx].size, 0, r[idx].size);
      }
    }
    fit := fitDimensions[..];
  }

  /** getFitDimensions of a copy descriptor, written to the caller's array. */
  method GetFitDimensions(r: Region, outDimensions: array<Dim>)
    requires outDimensions.Length == |r|
    modifies outDimensions
    ensures outDimensions[..] == Fit(r)
  {
    var keepFitting := true;
    var idx := |r|;
    while idx > 0
      invariant 0 <= idx <= |r|
      invariant keepFitting == UnitAbove(r, idx - 1)
      invariant forall i :: idx <= i < |r| ==> outDimensions[i] == Fit(r)[i]
    {
      idx := idx - 1;
      outDimensions[idx] := outDimensions[idx].(size := r[idx].size);
      if keepFitting {
        outDimensions[idx] := outDimensions[idx].(length := r[idx].length);
        outDimensions[idx] := outDimensions[idx].(lowerBound := r[idx].lowerBound);
        if r[idx].length != 1 {
          keepFitting := false;
        }
      } else {
        outDimensions[idx] := outDimensions[idx].(lowerBound := 0);
        outDimensions[idx] := outDimensions[idx].(length := r[idx].size);
      }
    }
  }

  /** getSize: the same product as getDataSize, from the fastest dimension up. */
  method GetSize(r: Region) returns (size: nat)
    requires r != [] && Valid(r)
    ensures size == Volume(r) == |Offsets(r)|
  {
    size := r[0].length;
    InitOfPrefix(r, 0);
    for i := 1 to |r|
      invariant size == Volume(r[..i])
    {
      InitOfPrefix(r, i);
      size := size * r[i].length;
    }
    assert r[..|r|] == r;
    VolumeCountsOffsets(r);
  }

  method GetMaxSize(r: Region) returns (size: nat)
    requires r != []
    ensures size == Total(r)
  {
    size := r[0].size;
    InitOfPrefix(r, 0);
    for i := 1 to |r|
      invariant size == Total(r[..i])
    {
      InitOfPrefix(r, i);
      size := size * r[i].size;
    }
    assert r[..|r|] == r;
  }

  // ----- The fit is the least contiguous box around the region -----

  predicate DimWithin(a: Dim, b: Dim) {
    a.size == b.size && b.lowerBound <= a.lowerBound && a.lowerBound + a.length <= b.lowerBound + b.length
  }

  predicate Within(a: Region, b: Region) {
    |a| == |b| && forall i :: 0 <= i < |a| ==> DimWithin(a[i], b[i])
  }

  lemma {:induction false} WithinLinear(a: Region, b: Region, p: Point)
    requires Within(a, b) && |p| == |a|
    ensures Linear(a, p) == Linear(b, p) && Total(a) == Total(b)
  {
    if a != [] {
      assert DimWithin(Last(a), Last(b));
      WithinLinear(Init(a), Init(b), p[..|p| - 1]);
    }
  }

  /** A box inside another covers fewer offsets. */
  lemma WithinOffsets(a: Region, b: Region)
    requires Within(a, b)
    ensures Offsets(a) <= Offsets(b)
  {
    forall x | x in Offsets(a) ensures x in Offsets(b) {
      var p: Point :| InBox(a, p) && Linear(a, p) == x;
      WithinLinear(a, b, p);
      forall i | 0 <= i < |b| ensures b[i].lowerBound <= p[i] < b[i].lowerBound + b[i].length {
        assert DimWithin(a[i], b[i]);
      }
      assert InBox(b, p);
    }
  }

  lemma FitContains(r: Region)
    requires Valid(r)
    ensures Valid(Fit(r)) && Within(r, Fit(r)) && FullBelow(Fit(r))
  {
    forall i | 0 <= i < |r| ensures DimOk(Fit(r)[i]) && DimWithin(r[i], Fit(r)[i]) { assert DimOk(r[i]); }
    forall i, j | 0 <= i < j < |r| && Fit(r)[j].length != 1 ensures Fit(r)[i].length == Fit(r)[i].size {
    }
  }

  /** Any contiguous box around the region is around its fit. */
  lemma FitLeast(r: Region, b: Region)
    requires Valid(r) && Valid(b) && Within(r, b) && Contiguous(b)
    ensures Within(Fit(r), b)
  {
    ContiguousIffFullBelow(b);
    forall i | 0 <= i < |r| ensures DimWithin(Fit(r)[i], b[i]) {
      assert DimWithin(r[i], b[i]) && DimOk(b[i]);
      if !UnitAbove(r, i) {
        var j :| i < j < |r| && r[j].length != 1;
        assert DimWithin(r[j], b[j]) && DimOk(r[j]);
        assert b[i].length == b[i].size;
      }
    }
  }

  lemma FitIdempotent(r: Region)
    requires Valid(r)
    ensures Fit(Fit(r)) == Fit(r)
  {
    var f := Fit(r);
    forall i | 0 <= i < |r| ensures Fit(f)[i] == f[i] {
      if UnitAbove(r, i) {
        forall j | i < j < |r| ensures f[j].length == 1 { assert UnitAbove(r, j); }
        assert UnitAbove(f, i);
      }
    }
  }

  /** The fit contains the region, is contiguous, lies inside every other such box, and is its own fit. */
  lemma FitIsLeastContiguousBox(r: Region)
    requires Valid(r)
    ensures Valid(Fit(r)) && Within(r, Fit(r)) && Contiguous(Fit(r)) && Offsets(r) <= Offsets(Fit(r))
    ensures forall b :: Valid(b) && Within(r, b) && Contiguous(b) ==> Within(Fit(r), b)
    ensures Fit(Fit(r)) == Fit(r)
    ensures Contiguous(r) <==> Fit(r) == r
  {
    FitContains(r);
    ContiguousIffFullBelow(Fit(r));
    WithinOffsets(r, Fit(r));
    forall b | Valid(b) && Within(r, b) && Contiguous(b) ensures Within(Fit(r), b) { FitLeast(r, b); }
    FitIdempotent(r);
    if Contiguous(r) {
      WithinSelf(r);
      FitLeast(r, r);
      WithinBoth(r, Fit(r));
    }
  }

  lemma WithinSelf(r: Region)
    ensures Within(r, r)
  {
  }

  lemma WithinBoth(a: Region, b: Region)
    requires Within(a, b) && Within(b, a)
    ensures a == b
  {
    forall i | 0 <= i < |a| ensures a[i] == b[i] { assert DimWithin(a[i], b[i]) && DimWithin(b[i], a[i]); }
  }

  // ----- The recursive form -----

  function WideSizeRecursive(dims: Region, i: nat): nat
    requires i < |dims|
  {
    if i == 0 then dims[0].size else dims[i].size * WideSizeRecursive(dims, i - 1)
  }

  function FitSizeRecursive(dims: Region, i: nat): nat
    requires i < |dims|
  {
    if i == 0 then dims[0].length
    else if dims[i].length == 1 then FitSizeRecursive(dims, i - 1)
    else dims[i].length * WideSizeRecursive(dims, i - 1)
  }

  /** None when the recursion runs past dimension 0. */
  function FitOffsetRecursive(dims: Region, i: int): Option<nat>
    requires i < |dims|
    decreases if i < 0 then 0 else i + 1
  {
    if i < 0 then None
    else
      var off := dims[i].lowerBound * (if i == 0 then 1 else WideSizeRecursive(dims, i - 1));
      if dims[i].length == 1 then
        match FitOffsetRecursive(dims, i - 1)
        case None => None
        case Some(rest) => Some(off + rest)
      else Some(off)
  }

  lemma {:induction false} WideSizeIsTotal(dims: Region, i: nat)
    requires i < |dims|
    ensures WideSizeRecursive(dims, i) == Total(dims[..i + 1])
  {
    InitOfPrefix(dims, i);
    if i > 0 { WideSizeIsTotal(dims, i - 1); } else { assert dims[..0] == []; }
  }

  function Wide(r: Region): Region {
    seq(|r|, i requires 0 <= i < |r| => Widened(r[i]))
  }

  lemma {:induction false} WideProducts(r: Region)
    ensures Volume(Wide(r)) == Total(r) == Total(Wide(r)) && First(Wide(r)) == 0
  {
    if r != [] {
      WideProducts(Init(r));
      assert Init(Wide(r)) == Wide(Init(r));
      FirstStep(Wide(r));
    }
  }

  /** The fit, dimension by dimension from the slowest. */
  lemma FitStep(r: Region)
    requires r != []
    ensures Fit(r) != [] && Last(Fit(r)) == Last(r)
    ensures Init(Fit(r)) == if Last(r).length == 1 then Fit(Init(r)) else Wide(Init(r))
  {
    var n := |r| - 1;
    forall i | 0 <= i < n ensures Fit(r)[i] == if Last(r).length == 1 then Fit(Init(r))[i] else Wide(Init(r))[i] {
      if Last(r).length == 1 {
        assert UnitAbove(r, i) <==> UnitAbove(Init(r), i) by {
          if UnitAbove(Init(r), i) {
            forall j | 0 <= j < |r| && i < j ensures r[j].length == 1 { if j < n { assert Init(r)[j] == r[j]; } }
          }
        }
      } else {
        assert !UnitAbove(r, i);
      }
    }
  }

  lemma {:induction false} FitTotal(r: Region)
    ensures Total(Fit(r)) == Total(r)
  {
    if r != [] {
      FitStep(r);
      FitTotal(Init(r));
      WideProducts(Init(r));
    }
  }

  lemma {:induction false} FitSizeIsVolume(dims: Region, i: nat)
    requires i < |dims|
    ensures FitSizeRecursive(dims, i) == Volume(Fit(dims[..i + 1]))
  {
    InitOfPrefix(dims, i);
    FitStep(dims[..i + 1]);
    if i == 0 {
      assert dims[..0] == [];
      assert Volume(Fit([])) == 1 && Volume(Wide([])) == 1;
    } else if dims[i].length == 1 {
      FitSizeIsVolume(dims, i - 1);
    } else {
      WideSizeIsTotal(dims, i - 1);
      WideProducts(dims[..i]);
    }
  }

  /** Defined exactly when some dimension is not a single element, and then the first offset of the fit. */
  lemma {:induction false} FitOffsetIsFirst(dims: Region, i: int)
    requires -1 <= i < |dims|
    ensures FitOffsetRecursive(dims, i).None? <==> UnitAbove(dims[..i + 1], -1)
    ensures FitOffsetRecursive(dims, i).Some? ==> FitOffsetRecursive(dims, i).value == First(Fit(dims[..i + 1]))
    decreases i + 1
  {
    if i >= 0 {
      var r := dims[..i + 1];
      InitOfPrefix(dims, i);
      FitStep(r);
      FirstStep(Fit(r));
      FitTotal(dims[..i]);
      WideProducts(dims[..i]);
      if i > 0 { WideSizeIsTotal(dims, i - 1); } else { assert Total(dims[..0]) == 1; }
      assert r == dims[..i] + [dims[i]];
      assert UnitAbove(r, -1) <==> UnitAbove(dims[..i], -1) && dims[i].length == 1;
      if dims[i].length == 1 { FitOffsetIsFirst(dims, i - 1); }
    }
  }

  function GetFitSize(dims: Region): nat
    requires dims != []
  {
    FitSizeRecursive(dims, |dims| - 1)
  }

  function GetFitAddress(dims: Region, baseAddress: nat): Option<nat> {
    match FitOffsetRecursive(dims, |dims| - 1)
    case None => None
    case Some(off) => Some(baseAddress + off)
  }

  /** The recursive size and address describe the same box as the loops: the interval they give is the set of
      offsets of the fit.  The address exists exactly when some accessed length differs from one. */
  lemma RecursionMatchesFit(r: Region, baseAddress: nat)
    requires r != [] && Valid(r)
    ensures Valid(Fit(r)) && GetFitSize(r) == Volume(Fit(r)) == Breadth(Fit(r))
    ensures GetFitAddress(r, baseAddress).Some? <==> exists i :: 0 <= i < |r| && r[i].length != 1
    ensures GetFitAddress(r, baseAddress).Some? ==>
      GetFitAddress(r, baseAddress).value == baseAddress + First(Fit(r))
    ensures Offsets(Fit(r)) == Interval(First(Fit(r)), First(Fit(r)) + GetFitSize(r))
  {
    FitContains(r);
    assert r[..|r|] == r;
    FitSizeIsVolume(r, |r| - 1);
    AddressMatchesFit(r, baseAddress);
    VolumeAtMostBreadth(Fit(r));
    FullBelowIsInterval(Fit(r));
  }

  lemma AddressMatchesFit(r: Region, baseAddress: nat)
    requires r != []
    ensures GetFitAddress(r, baseAddress).Some? <==> exists i :: 0 <= i < |r| && r[i].length != 1
    ensures GetFitAddress(r, baseAddress).Some? ==>
      GetFitAddress(r, baseAddress).value == baseAddress + First(Fit(r))
  {
    assert r[..|r|] == r;
    FitOffsetIsFirst(r, |r| - 1);
  }

  /** A region that is a single element has no fit address, although its fit is the element itself. */
  lemma SingleElementHasNoFitAddress(r: Region, baseAddress: nat)
    requires r != [] && Valid(r) && Volume(r) == 1
    ensures GetFitAddress(r, baseAddress) == None && Fit(r) == r && GetFitSize(r) == 1
  {
    UnitVolume(r);
    assert Fit(r) == r;
    RecursionMatchesFit(r, baseAddress);
  }

  lemma {:induction false} UnitVolume(r: Region)
    requires Valid(r) && Volume(r) == 1
    ensures forall i :: 0 <= i < |r| ==> r[i].length == 1
  {
    if r != [] {
      VolumeAtMostTotal(Init(r));
      ProductEqual(1, Volume(Init(r)), 1, Last(r).length);
      UnitVolume(Init(r));
      assert r == Init(r) + [Last(r)];
    }
  }
}
