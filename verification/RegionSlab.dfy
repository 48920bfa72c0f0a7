/** Slabs: aligned pieces of an object, all of one size, from which regions are allocated. */
module RegionSlab {
  import opened Arithmetic
  import opened RegionGeometry
  import opened RegionFit

  datatype SlabResult = Fatal | Unchanged | Slab(dims: Region)

  /** Lower bounds are copied through an array of 32-bit unsigned integers. */
  function Narrowed(x: nat): nat {
    x % 0x1_0000_0000
  }

  // ----- When the code accepts a slab size -----

  /** A whole number of blocks of `acc` elements. */
  predicate Covers(slabSize: nat, acc: nat) {
    slabSize == acc || (slabSize > acc > 0 && slabSize % acc == 0)
  }

  /** A whole number of slabs makes up a block of `acc` elements. */
  predicate Splits(slabSize: nat, acc: nat) {
    0 < slabSize < acc && acc % slabSize == 0
  }

  /** Expansion stops at dimension `k`; `k == |r|` when the slab covers the whole object. */
  predicate StopsAt(r: Region, slabSize: nat, k: nat) {
    && k <= |r|
    && (forall i :: 1 <= i <= k ==> Covers(slabSize, Stride(r, i)))
    && (k < |r| ==> Splits(slabSize, Stride(r, k + 1)))
  }

  // ----- What a slab is -----

  /** Full below `k`, `elems` elements from `bound` at `k`, and the constant bound 1 above. */
  function BoxAt(r: Region, k: nat, bound: nat, elems: nat): Region {
    seq(|r|, i requires 0 <= i < |r| =>
      if i < k then Widened(r[i]) else if i == k then Dim(r[i].size, bound, elems) else Dim(r[i].size, 1, 1))
  }

  /** The region's bound, rounded down to whole slabs. */
  function SlabBound(r: Region, k: nat, elems: nat): nat
    requires elems > 0
  {
    if k < |r| then Narrowed(r[k].lowerBound) / elems * elems else 0
  }

  function SlabDims(r: Region, k: nat, elems: nat): Region
    requires elems > 0
  {
    BoxAt(r, k, SlabBound(r, k, elems), elems)
  }

  /** Slabs of `elems` steps in dimension `k` have `slabSize` elements and divide the dimension. */
  predicate Shape(r: Region, slabSize: nat, k: nat, elems: nat) {
    && k <= |r| && elems > 0 && Stride(r, k) * elems == slabSize
    && (k < |r| ==> elems < r[k].size && r[k].size % elems == 0)
  }

  /** An accepted slab size has a shape. */
  lemma StopsShape(r: Region, slabSize: nat, k: nat)
    requires Valid(r) && slabSize > 0 && StopsAt(r, slabSize, k)
    ensures Stride(r, k) > 0 && Shape(r, slabSize, k, slabSize / Stride(r, k))
  {
    var w := Stride(r, k);
    StridePositive(r, k);
    if k > 0 { assert Covers(slabSize, w); } else { assert r[..0] == []; }
    ExactQuotient(slabSize, w);
    if k < |r| {
      StrideStep(r, k);
      Cancel(w, r[k].size, slabSize / w, slabSize);
    }
  }

  lemma ExactQuotient(x: nat, w: nat)
    requires w > 0 && (x == w || w == 1 || Covers(x, w)) && x > 0
    ensures x / w > 0 && w * (x / w) == x
  {
    if x == w { DivModUnique(x, w, 1, 0); } else if w == 1 { DivModUnique(x, w, x, 0); } else {
      DivModIdentity(x, w);
      if x / w <= 0 { MulMonotone(x / w, 0, w); }
    }
  }

  lemma Cancel(w: nat, n: nat, e: nat, s: nat)
    requires w > 0 && e > 0 && w * e == s && Splits(s, w * n)
    ensures n % e == 0 && e < n
  {
    var q := (w * n) / s;
    DivModIdentity(w * n, s);
    assert w * n == q * (w * e);
    assert q * (w * e) == w * (q * e);
    SameFactor(w, n, q * e);
    DivModUnique(n, e, q, 0);
    if e >= n { MulMonotone(n, e, w); }
  }

  lemma SameFactor(w: int, a: int, b: int)
    requires w > 0 && w * a == w * b
    ensures a == b
  {
    if a < b { ProductLess(w, a, b); } else if b < a { ProductLess(w, b, a); }
  }

  lemma ProductLess(w: int, a: int, b: int)
    requires w > 0 && a < b
    ensures w * a < w * b
  {
    MulMonotone(a + 1, b, w);
    assert (a + 1) * w == w * a + w && b * w == w * b;
  }

  // ----- The loops -----

  method GetSlabRegion(r: Region, slabSize: nat, isWholeObject: bool)
    returns (res: SlabResult, ghost k: nat, ghost elems: nat)
    requires r != [] && Valid(r)
    ensures res.Unchanged? <==> Breadth(r) < slabSize && isWholeObject
    ensures res.Fatal? <==>
      slabSize < Breadth(r) || (!res.Unchanged? && forall i: nat, e: nat :: !Shape(r, slabSize, i, e))
    ensures res.Slab? ==> Shape(r, slabSize, k, elems) && res.dims == SlabDims(r, k, elems)
  {
    k, elems := 0, 1;
    var breadth := GetBreadth(r);
    VolumeAtMostBreadth(r);
    VolumeAtMostTotal(r);
    if slabSize < breadth { return Fatal, 0, 1; }
    if breadth < slabSize && isWholeObject { return Unchanged, 0, 1; }
    var lowerBounds := CopyLowerBounds(r);
    var ok, dims, k', e' := FillSlabDimensions(r, slabSize, lowerBounds);
    k, elems := k', e';
    res := if ok then Slab(dims) else Fatal;
  }

  method CopyLowerBounds(r: Region) returns (bounds: seq<nat>)
    ensures |bounds| == |r| && forall i :: 0 <= i < |r| ==> bounds[i] == Narrowed(r[i].lowerBound)
  {
    var lowerBounds := new nat[|r|](_ => 0);
    var idx := |r|;
    while idx > 0
      invariant 0 <= idx <= |r|
      invariant forall i :: idx <= i < |r| ==> lowerBounds[i] == Narrowed(r[i].lowerBound)
    {
      idx := idx - 1;
      lowerBounds[idx] := Narrowed(r[idx].lowerBound);
    }
    bounds := lowerBounds[..];
  }

  lemma NoStop(r: Region, slabSize: nat, k: nat)
    requires k < |r| && !Covers(slabSize, Stride(r, k + 1)) && !Splits(slabSize, Stride(r, k + 1))
    requires forall i :: 1 <= i <= k ==> Covers(slabSize, Stride(r, i))
    ensures forall i: nat :: !StopsAt(r, slabSize, i)
  {
    forall i: nat ensures !StopsAt(r, slabSize, i) {
      if i < k { assert Covers(slabSize, Stride(r, i + 1)); }
    }
  }

  lemma {:induction false} StridesDivide(r: Region, i: nat, k: nat)
    requires Valid(r) && i <= k <= |r|
    ensures Stride(r, i) > 0 && Stride(r, k) % Stride(r, i) == 0
    decreases k
  {
    StridePositive(r, i);
    if i == k {
      DivModUnique(Stride(r, k), Stride(r, i), 1, 0);
    } else {
      StridesDivide(r, i, k - 1);
      StrideStep(r, k - 1);
      MultipleTimes(Stride(r, k - 1), r[k - 1].size, Stride(r, i));
    }
  }

  /** A slab size that has a shape passes every test: it is a whole number of blocks of every faster dimension, and the
      narrowed dimension is a whole number of slabs. */
  lemma ShapeStops(r: Region, slabSize: nat, k: nat, elems: nat)
    requires Valid(r) && Shape(r, slabSize, k, elems)
    ensures StopsAt(r, slabSize, k)
  {
    var w := Stride(r, k);
    forall i | 1 <= i <= k ensures Covers(slabSize, Stride(r, i)) {
      StridesDivide(r, i, k);
      StrideGrows(r, i, k);
      MulMonotone(1, elems, w);
      MultipleTimes(w, elems, Stride(r, i));
    }
    if k < |r| {
      StridePositive(r, k);
      StrideStep(r, k);
      MulMonotone(1, elems, w);
      ProductLess(w, elems, r[k].size);
      WholeSlabs(w, r[k].size, elems, slabSize);
    }
  }

  lemma WholeSlabs(w: nat, n: nat, e: nat, s: nat)
    requires e > 0 && n % e == 0 && w * e == s && s > 0
    ensures (w * n) % s == 0
  {
    DivModIdentity(n, e);
    var q := n / e;
    assert w * n == w * (q * e) == q * (w * e);
    DivModUnique(w * n, s, q, 0);
  }

  lemma NoShape(r: Region, slabSize: nat)
    requires Valid(r) && forall i: nat :: !StopsAt(r, slabSize, i)
    ensures forall i: nat, e: nat :: !Shape(r, slabSize, i, e)
  {
    forall i: nat, e: nat ensures !Shape(r, slabSize, i, e) {
      if Shape(r, slabSize, i, e) { ShapeStops(r, slabSize, i, e); }
    }
  }

  lemma StrideOf(r: Region, k: nat)
    requires Valid(r) && k < |r|
    ensures Stride(r, k + 1) / r[k].size == Stride(r, k)
  {
    StrideStep(r, k);
    DivModUnique(Stride(r, k + 1), r[k].size, Stride(r, k), 0);
  }

  method FillSlabDimensions(r: Region, slabSize: nat, lowerBounds: seq<nat>)
    returns (ok: bool, dims: Region, ghost k: nat, ghost elems: nat)
    requires Valid(r) && slabSize > 0
    requires |lowerBounds| == |r| && forall i :: 0 <= i < |r| ==> lowerBounds[i] == Narrowed(r[i].lowerBound)
    ensures ok <==> exists i: nat, e: nat :: Shape(r, slabSize, i, e)
    ensures ok ==> Shape(r, slabSize, k, elems) && dims == SlabDims(r, k, elems)
  {
    var fitDimensions := new Dim[|r|](_ => Dim(0, 0, 0));
    var accSize, keepExpanding := 1, true;
    ghost var bound := 0;
    k, elems := 0, 1;
    var idx := 0;
    assert r[..0] == [];
    while idx < |r|
      invariant 0 <= idx <= |r| && k <= |r| && elems > 0
      invariant forall i :: 1 <= i <= k ==> Covers(slabSize, Stride(r, i))
      invariant keepExpanding ==> k == idx && accSize == Stride(r, idx)
      invariant !keepExpanding ==> k < idx && StopsAt(r, slabSize, k) && Shape(r, slabSize, k, elems)
      invariant !keepExpanding ==> bound == SlabBound(r, k, elems)
      invariant forall i :: 0 <= i < idx ==> fitDimensions[i] == BoxAt(r, k, bound, elems)[i]
    {
      if keepExpanding {
        StrideStep(r, idx);
        StridePositive(r, idx + 1);
        accSize := accSize * r[idx].size;
        if slabSize == accSize || (slabSize > accSize && slabSize % accSize == 0) {
          fitDimensions[idx] := Dim(r[idx].size, 0, r[idx].size);
          k := k + 1;
        } else if slabSize < accSize && accSize % slabSize == 0 {
          var slabElems, lowerBound := NarrowDimension(r, slabSize, idx, accSize, lowerBounds[idx]);
          fitDimensions[idx] := Dim(r[idx].size, lowerBound, slabElems);
          keepExpanding := false;
          elems, bound := slabElems, lowerBound;
        } else {
          NoStop(r, slabSize, idx);
          NoShape(r, slabSize);
          return false, [], 0, 1;
        }
      } else {
        fitDimensions[idx] := Dim(r[idx].size, 1, 1);
      }
      idx := idx + 1;
    }
    assert StopsAt(r, slabSize, k);
    ok, dims := true, fitDimensions[..];
    if keepExpanding {
      StopsShape(r, slabSize, k);
      elems := slabSize / Stride(r, k);
    }
    assert dims == SlabDims(r, k, elems);
  }

  lemma RoundedNat(x: nat, e: nat)
    requires e > 0
    ensures x / e * e >= 0
  {
    MulMonotone(0, x / e, e);
  }

  /** The dimension in which the slab ends. */
  method NarrowDimension(r: Region, slabSize: nat, k: nat, accSize: nat, bound: nat)
    returns (slabElems: nat, lowerBound: nat)
    requires Valid(r) && k < |r| && slabSize > 0 && StopsAt(r, slabSize, k)
    requires accSize == Stride(r, k + 1) && bound == Narrowed(r[k].lowerBound)
    ensures Shape(r, slabSize, k, slabElems) && lowerBound == SlabBound(r, k, slabElems)
  {
    StopsShape(r, slabSize, k);
    StrideOf(r, k);
    slabElems := slabSize / (accSize / r[k].size);
    RoundedNat(bound, slabElems);
    lowerBound := bound / slabElems * slabElems;
  }

  // ----- Size -----

  lemma {:induction false} UnitTailVolume(s: Region, n: nat)
    requires n <= |s| && forall i :: n <= i < |s| ==> s[i].length == 1
    ensures Volume(s) == Volume(s[..n])
    decreases |s|
  {
    if n < |s| {
      UnitTailVolume(Init(s), n);
      assert Init(s)[..n] == s[..n];
    } else {
      assert s[..n] == s;
    }
  }

  lemma BoxPrefix(r: Region, k: nat, bound: nat, elems: nat)
    requires k <= |r|
    ensures BoxAt(r, k, bound, elems)[..k] == Wide(r[..k])
  {
  }

  lemma BoxStride(r: Region, k: nat, bound: nat, elems: nat, i: nat)
    requires i <= |r|
    ensures Stride(BoxAt(r, k, bound, elems), i) == Stride(r, i)
  {
    SameTotal(BoxAt(r, k, bound, elems)[..i], r[..i]);
  }

  lemma BoxVolume(r: Region, slabSize: nat, k: nat, bound: nat, elems: nat)
    requires k <= |r| && Stride(r, k) * elems == slabSize
    ensures Volume(BoxAt(r, k, bound, elems)) == if k < |r| then slabSize else Total(r)
  {
    var s := BoxAt(r, k, bound, elems);
    BoxPrefix(r, k, bound, elems);
    WideProducts(r[..k]);
    if k < |r| {
      UnitTailVolume(s, k + 1);
      InitOfPrefix(s, k);
    } else {
      assert s[..k] == s && r[..k] == r;
    }
  }

  /** A slab has `slabSize` elements, or is the whole object. */
  lemma SlabVolume(r: Region, slabSize: nat, k: nat, elems: nat)
    requires Shape(r, slabSize, k, elems)
    ensures Volume(SlabDims(r, k, elems)) == if k < |r| then slabSize else Total(r)
  {
    BoxVolume(r, slabSize, k, SlabBound(r, k, elems), elems);
  }

  // ----- Alignment -----

  /** A first offset stays a multiple when dimensions with multiple strides are added. */
  lemma {:induction false} FirstMultiple(s: Region, n: nat, i: nat, m: nat)
    requires m > 0 && n <= i <= |s| && First(s[..n]) % m == 0 && Stride(s, n) % m == 0
    ensures First(s[..i]) % m == 0 && Stride(s, i) % m == 0
    decreases i
  {
    if n < i {
      FirstMultiple(s, n, i - 1, m);
      InitOfPrefix(s, i - 1);
      FirstStep(s[..i]);
      StrideStep(s, i - 1);
      MultipleTimes(Stride(s, i - 1), s[i - 1].lowerBound, m);
      MultipleTimes(Stride(s, i - 1), s[i - 1].size, m);
      MultiplePlus(First(s[..i - 1]), s[i - 1].lowerBound * Stride(s, i - 1), m);
    }
  }

  lemma BoxStart(r: Region, k: nat, bound: nat, elems: nat)
    requires k < |r|
    ensures First(BoxAt(r, k, bound, elems)[..k + 1]) == bound * Stride(r, k)
  {
    var s := BoxAt(r, k, bound, elems);
    BoxPrefix(r, k, bound, elems);
    WideProducts(r[..k]);
    InitOfPrefix(s, k);
    FirstStep(s[..k + 1]);
  }

  lemma SlabStart(r: Region, slabSize: nat, k: nat, elems: nat)
    requires Shape(r, slabSize, k, elems) && k < |r| && slabSize > 0
    ensures (SlabBound(r, k, elems) * Stride(r, k)) % slabSize == 0
    ensures Stride(r, k + 1) % slabSize == 0
  {
    Regroup(Narrowed(r[k].lowerBound) / elems, elems, Stride(r, k), slabSize);
    StrideStep(r, k);
    DivModIdentity(r[k].size, elems);
    Regroup(r[k].size / elems, elems, Stride(r, k), slabSize);
  }

  lemma Regroup(q: nat, e: nat, w: nat, s: nat)
    requires w * e == s && s > 0
    ensures q * e * w == q * s && (q * e * w) % s == 0 && (w * (q * e)) % s == 0
  {
    assert q * e * w == q * (w * e) == w * (q * e);
    DivModUnique(q * s, s, q, 0);
  }

  /** A slab starts at a multiple of the slab size. */
  lemma SlabAligned(r: Region, slabSize: nat, k: nat, elems: nat)
    requires Shape(r, slabSize, k, elems) && slabSize > 0
    ensures First(SlabDims(r, k, elems)) % slabSize == 0
  {
    var bound := SlabBound(r, k, elems);
    var s := BoxAt(r, k, bound, elems);
    if k < |r| {
      SlabStart(r, slabSize, k, elems);
      BoxStart(r, k, bound, elems);
      BoxStride(r, k, bound, elems, k + 1);
      FirstMultiple(s, k + 1, |s|, slabSize);
      assert s[..|s|] == s;
    } else {
      BoxPrefix(r, k, bound, elems);
      WideProducts(r[..k]);
      assert s[..k] == s;
    }
  }

  // ----- Position -----

  /** Rounding down to a multiple stays inside a dimension of whole slabs. */
  lemma RoundedDown(x: nat, e: nat, n: nat)
    requires e > 0 && x < n && n % e == 0
    ensures x / e * e + e <= n
  {
    DivModIdentity(x, e);
    DivModIdentity(n, e);
    assert x / e >= 0;
    var q, m := x / e, n / e;
    if q >= m { MulMonotone(m, q, e); } else {
      MulMonotone(q + 1, m, e);
      assert (q + 1) * e == q * e + e;
    }
  }

  /** A slab lies inside the object exactly when every dimension above `k` has an element 1. */
  lemma SlabInside(r: Region, slabSize: nat, k: nat, elems: nat)
    requires Valid(r) && Shape(r, slabSize, k, elems)
    ensures Valid(SlabDims(r, k, elems)) <==> forall i :: k < i < |r| ==> r[i].size >= 2
  {
    var s := SlabDims(r, k, elems);
    forall i | 0 <= i < |r| ensures DimOk(s[i]) <==> (i <= k || r[i].size >= 2) {
      assert DimOk(r[i]);
      if i == k { RoundedDown(Narrowed(r[i].lowerBound), elems, r[i].size); }
    }
    if Valid(s) { assert forall i :: k < i < |r| ==> DimOk(s[i]); }
  }

  lemma BoxFullBelow(r: Region, k: nat, bound: nat, elems: nat)
    ensures FullBelow(BoxAt(r, k, bound, elems))
  {
  }

  /** The slab holds the region's first element exactly when the region has lower bound 1 in every dimension
      above `k`, and the narrowing to 32 bits does not change the slab that its bound in `k` falls into. */
  lemma SlabHoldsFirst(r: Region, slabSize: nat, k: nat, elems: nat)
    requires Valid(r) && Shape(r, slabSize, k, elems)
    ensures InBox(SlabDims(r, k, elems), Lows(r)) <==>
      && (forall i :: k < i < |r| ==> r[i].lowerBound == 1)
      && (k < |r| ==> Narrowed(r[k].lowerBound) / elems == r[k].lowerBound / elems)
  {
    var s, p := SlabDims(r, k, elems), Lows(r);
    forall i | 0 <= i < |r|
      ensures s[i].lowerBound <= p[i] < s[i].lowerBound + s[i].length <==>
        if i < k then true
        else if i == k then Narrowed(r[i].lowerBound) / elems == r[i].lowerBound / elems
        else r[i].lowerBound == 1
    {
      assert DimOk(r[i]);
      if i == k { InSameSlab(Narrowed(r[i].lowerBound) / elems, r[i].lowerBound, elems); }
    }
  }

  lemma InSameSlab(q: nat, x: nat, e: nat)
    requires e > 0
    ensures q * e <= x < q * e + e <==> q == x / e
  {
    DivModIdentity(x, e);
    if q * e <= x < q * e + e { DivModUnique(x, e, q, x - q * e); }
  }

  /** The number of elements of a slab. */
  function SlabVolumeOf(r: Region, slabSize: nat, k: nat): nat {
    if k < |r| then slabSize else Total(r)
  }

  lemma SlabInterval(r: Region, slabSize: nat, k: nat, elems: nat)
    requires Valid(r) && Shape(r, slabSize, k, elems) && forall i :: k < i < |r| ==> r[i].size >= 2
    ensures var s := SlabDims(r, k, elems);
      Valid(s) && Offsets(s) == Interval(First(s), First(s) + SlabVolumeOf(r, slabSize, k))
  {
    var s := SlabDims(r, k, elems);
    SlabInside(r, slabSize, k, elems);
    SlabVolume(r, slabSize, k, elems);
    BoxFullBelow(r, k, SlabBound(r, k, elems), elems);
    IntervalOf(s, SlabVolumeOf(r, slabSize, k));
  }

  lemma IntervalOf(s: Region, n: nat)
    requires Valid(s) && FullBelow(s) && Volume(s) == n
    ensures Offsets(s) == Interval(First(s), First(s) + n)
  {
    FullBelowIsInterval(s);
  }

  // ----- Two slabs -----

  lemma {:induction false} StrideGrows(r: Region, i: nat, j: nat)
    requires Valid(r) && i <= j <= |r|
    ensures Stride(r, i) <= Stride(r, j)
    decreases j
  {
    if i < j {
      StrideGrows(r, i, j - 1);
      StrideStep(r, j - 1);
      MulMonotone(1, r[j - 1].size, Stride(r, j - 1));
    }
  }

  /** The point at which expansion stops depends on the object and the slab size only. */
  lemma ShapeUnique(r: Region, slabSize: nat, k: nat, elems: nat, k': nat, elems': nat)
    requires Valid(r) && Shape(r, slabSize, k, elems) && Shape(r, slabSize, k', elems')
    ensures k == k' && elems == elems'
  {
    ShapeBounds(r, slabSize, k, elems);
    ShapeBounds(r, slabSize, k', elems');
    if k < k' { StrideGrows(r, k + 1, k'); } else if k' < k { StrideGrows(r, k' + 1, k); } else {
      StridePositive(r, k);
      SameFactor(Stride(r, k), elems, elems');
    }
  }

  lemma ShapeBounds(r: Region, slabSize: nat, k: nat, elems: nat)
    requires Valid(r) && Shape(r, slabSize, k, elems)
    ensures Stride(r, k) <= slabSize && (k < |r| ==> slabSize < Stride(r, k + 1))
  {
    StridePositive(r, k);
    MulMonotone(1, elems, Stride(r, k));
    if k < |r| {
      StrideStep(r, k);
      ProductLess(Stride(r, k), elems, r[k].size);
    }
  }

  lemma ShapeOfObject(r: Region, r': Region, slabSize: nat, k: nat, elems: nat)
    requires |r| == |r'| && (forall i :: 0 <= i < |r| ==> r[i].size == r'[i].size) && Shape(r, slabSize, k, elems)
    ensures Shape(r', slabSize, k, elems) && Total(r') == Total(r)
  {
    SameTotal(r[..k], r'[..k]);
    SameTotal(r, r');
  }

  /** Two slabs of one object, for one slab size, are the same or have no element in common. */
  lemma SlabsEqualOrDisjoint(r: Region, r': Region, slabSize: nat, k: nat, elems: nat, k': nat, elems': nat)
    requires Valid(r) && Valid(r') && slabSize > 0
    requires |r| == |r'| && (forall i :: 0 <= i < |r| ==> r[i].size == r'[i].size)
    requires Shape(r, slabSize, k, elems) && Shape(r', slabSize, k', elems')
    requires forall i :: k < i < |r| ==> r[i].size >= 2
    ensures var s, s' := SlabDims(r, k, elems), SlabDims(r', k', elems');
      Offsets(s) == Offsets(s') || Offsets(s) !! Offsets(s')
  {
    ShapeOfObject(r, r', slabSize, k, elems);
    ShapeUnique(r', slabSize, k, elems, k', elems');
    SlabInterval(r, slabSize, k, elems);
    SlabInterval(r', slabSize, k, elems);
    SlabAligned(r, slabSize, k, elems);
    SlabAligned(r', slabSize, k, elems);
    if k < |r| {
      AlignedApart(First(SlabDims(r, k, elems)), First(SlabDims(r', k, elems)), slabSize);
    } else {
      assert SlabDims(r, k, elems) == SlabDims(r', k, elems);
    }
  }

  lemma AlignedApart(a: nat, b: nat, m: nat)
    requires m > 0 && a % m == 0 && b % m == 0
    ensures a == b || a + m <= b || b + m <= a
  {
    DivModIdentity(a, m);
    DivModIdentity(b, m);
    if a < b < a + m { DivModUnique(b, m, a / m, b - a); }
    if b < a < b + m { DivModUnique(a, m, b / m, a - b); }
  }

  /** Narrowing at the slowest dimension: the slab has the size asked for, lies in the object, is aligned and
      contiguous, and holds the region's first element if its bound fits in 32 bits. */
  lemma SlabAtSlowestDimension(r: Region, slabSize: nat, elems: nat)
    requires r != [] && Valid(r) && slabSize > 0 && Shape(r, slabSize, |r| - 1, elems)
    requires Last(r).lowerBound < 0x1_0000_0000
    ensures var s := SlabDims(r, |r| - 1, elems);
      && Valid(s) && |Offsets(s)| == slabSize && First(s) % slabSize == 0
      && Offsets(s) == Interval(First(s), First(s) + slabSize)
      && First(r) in Offsets(s)
  {
    var k := |r| - 1;
    var s := SlabDims(r, k, elems);
    SlabInterval(r, slabSize, k, elems);
    SlabAligned(r, slabSize, k, elems);
    IntervalSize(First(s), First(s) + slabSize);
    SlabHoldsFirst(r, slabSize, k, elems);
    SameLinear(r, s, Lows(r));
    OffsetMember(s, First(r));
  }

  lemma {:induction false} SameLinear(r: Region, s: Region, p: Point)
    requires |r| == |s| == |p| && forall i :: 0 <= i < |r| ==> r[i].size == s[i].size
    ensures Linear(r, p) == Linear(s, p)
  {
    if r != [] {
      SameLinear(Init(r), Init(s), p[..|p| - 1]);
      SameTotal(Init(r), Init(s));
    }
  }

  /** Below the slowest dimension it can miss the region altogether: a 4 by 4 object, slabs of two elements,
      and the region made of element (0, 2). */
  lemma SlabMissesRegion()
    ensures var r := [Dim(4, 0, 1), Dim(4, 2, 1)];
      Valid(r) && StopsAt(r, 2, 0) && Shape(r, 2, 0, 2) && !InBox(SlabDims(r, 0, 2), Lows(r))
  {
    var r := [Dim(4, 0, 1), Dim(4, 2, 1)];
    assert r[..0] == [] && r[..1] == [r[0]] && Init(r[..1]) == [];
    SlabHoldsFirst(r, 2, 0, 2);
    assert r[1].lowerBound != 1;
  }

  /** ... or lie outside the object: one dimension of four elements and one of a single element. */
  lemma SlabOutsideObject()
    ensures var r := [Dim(4, 0, 1), Dim(1, 0, 1)];
      Valid(r) && StopsAt(r, 2, 0) && Shape(r, 2, 0, 2) && !Valid(SlabDims(r, 0, 2))
  {
    var r := [Dim(4, 0, 1), Dim(1, 0, 1)];
    assert r[..0] == [] && r[..1] == [r[0]] && Init(r[..1]) == [];
    SlabInside(r, 2, 0, 2);
    assert r[1].size < 2;
  }
}
