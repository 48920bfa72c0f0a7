/** Boxes inside an n-dimensional array: the offsets they cover and the loops that compute their first
    address, breadth and size.  Dimension 0 varies fastest. */
module RegionGeometry {
  import opened Arithmetic

  datatype Dim = Dim(size: nat, lowerBound: nat, length: nat)

  type Region = seq<Dim>
  type Point = seq<nat>

  predicate DimOk(d: Dim) {
    d.size >= 1 && d.length >= 1 && d.lowerBound + d.length <= d.size
  }

  predicate Valid(r: Region) {
    forall i :: 0 <= i < |r| ==> DimOk(r[i])
  }

  function Init(r: Region): Region
    requires r != []
  {
    r[..|r| - 1]
  }

  function Last(r: Region): Dim
    requires r != []
  {
    r[|r| - 1]
  }

  /** The number of elements of the whole object. */
  function Total(r: Region): nat {
    if r == [] then 1 else Total(Init(r)) * Last(r).size
  }

  /** The number of elements in one step of dimension `k`. */
  function Stride(r: Region, k: nat): nat
    requires k <= |r|
  {
    Total(r[..k])
  }

  // ----- What a region means -----

  predicate InBox(r: Region, p: Point) {
    |p| == |r| && forall i :: 0 <= i < |r| ==> r[i].lowerBound <= p[i] < r[i].lowerBound + r[i].length
  }

  /** The mixed-radix offset of a point. */
  function Linear(r: Region, p: Point): nat
    requires |p| == |r|
  {
    if r == [] then 0 else Linear(Init(r), p[..|p| - 1]) + p[|p| - 1] * Total(Init(r))
  }

  ghost predicate IsOffset(r: Region, x: int) {
    exists p: Point :: InBox(r, p) && Linear(r, p) == x
  }

  ghost function Offsets(r: Region): set<nat> {
    set x: nat | x < Total(r) && IsOffset(r, x)
  }

  function Lows(r: Region): Point {
    seq(|r|, i requires 0 <= i < |r| => r[i].lowerBound)
  }

  function Highs(r: Region): Point
    requires Valid(r)
  {
    seq(|r|, i requires 0 <= i < |r| => r[i].lowerBound + r[i].length - 1)
  }

  function First(r: Region): nat {
    Linear(r, Lows(r))
  }

  function Farthest(r: Region): nat
    requires Valid(r)
  {
    Linear(r, Highs(r))
  }

  /** The product of the accessed lengths. */
  function Volume(r: Region): nat {
    if r == [] then 1 else Volume(Init(r)) * Last(r).length
  }

  // ----- Steps from a region to the region without its slowest dimension -----

  lemma {:induction false} TotalPositive(r: Region)
    requires forall i :: 0 <= i < |r| ==> r[i].size >= 1
    ensures Total(r) >= 1
  {
    if r != [] {
      TotalPositive(Init(r));
      MulMonotone(1, Total(Init(r)), Last(r).size);
    }
  }

  lemma FirstStep(r: Region)
    requires r != []
    ensures First(r) == First(Init(r)) + Last(r).lowerBound * Total(Init(r))
  {
    assert Lows(r)[..|r| - 1] == Lows(Init(r));
  }

  lemma FarthestStep(r: Region)
    requires r != [] && Valid(r)
    ensures Farthest(r) == Farthest(Init(r)) + (Last(r).lowerBound + Last(r).length - 1) * Total(Init(r))
  {
    assert Highs(r)[..|r| - 1] == Highs(Init(r));
  }

  /** Points of the box have offsets between those of its two corners, inside the object. */
  lemma {:induction false} LinearBounds(r: Region, p: Point)
    requires Valid(r) && InBox(r, p)
    ensures First(r) <= Linear(r, p) <= Farthest(r) < Total(r)
  {
    if r != [] {
      var w, c := Total(Init(r)), p[|p| - 1];
      LinearBounds(Init(r), p[..|p| - 1]);
      FirstStep(r);
      FarthestStep(r);
      MulMonotone(Last(r).lowerBound, c, w);
      MulMonotone(c, Last(r).lowerBound + Last(r).length - 1, w);
      MulMonotone(Last(r).lowerBound + Last(r).length, Last(r).size, w);
      assert (Last(r).lowerBound + Last(r).length) * w == (Last(r).lowerBound + Last(r).length - 1) * w + w;
    }
  }

  lemma CornersInBox(r: Region)
    requires Valid(r)
    ensures InBox(r, Lows(r)) && InBox(r, Highs(r))
  {
  }

  /** The first and the farthest offset are the least and the greatest of all. */
  lemma FirstIsLeast(r: Region)
    requires Valid(r)
    ensures IsOffset(r, First(r)) && IsOffset(r, Farthest(r))
    ensures forall x :: IsOffset(r, x) ==> First(r) <= x <= Farthest(r) < Total(r)
  {
    CornersInBox(r);
    forall x | IsOffset(r, x) ensures First(r) <= x <= Farthest(r) < Total(r) {
      var p: Point :| InBox(r, p) && Linear(r, p) == x;
      LinearBounds(r, p);
    }
  }

  lemma OffsetAppend(r: Region, y: nat, c: nat)
    requires r != [] && IsOffset(Init(r), y) && Last(r).lowerBound <= c < Last(r).lowerBound + Last(r).length
    ensures IsOffset(r, c * Total(Init(r)) + y)
  {
    var q: Point :| InBox(Init(r), q) && Linear(Init(r), q) == y;
    var p := q + [c];
    assert p[..|q|] == q;
    assert InBox(r, p);
  }

  /** The coordinates of a point, read off its offset. */
  lemma PointDigits(r: Region, p: Point)
    requires r != [] && Valid(r) && InBox(r, p)
    ensures InBox(Init(r), p[..|p| - 1]) && Total(Init(r)) >= 1
    ensures Linear(r, p) / Total(Init(r)) == p[|p| - 1]
    ensures Linear(r, p) % Total(Init(r)) == Linear(Init(r), p[..|p| - 1])
  {
    var q := p[..|p| - 1];
    LinearBounds(Init(r), q);
    DivModUnique(Linear(r, p), Total(Init(r)), p[|p| - 1], Linear(Init(r), q));
  }

  /** Offsets are mixed-radix numbers: the slowest coordinate is the quotient, the others the remainder. */
  lemma OffsetDigits(r: Region, x: nat)
    requires r != [] && Valid(r)
    ensures Total(Init(r)) >= 1
    ensures IsOffset(r, x) <==>
      && Last(r).lowerBound <= x / Total(Init(r)) < Last(r).lowerBound + Last(r).length
      && IsOffset(Init(r), x % Total(Init(r)))
  {
    var w := Total(Init(r));
    TotalPositive(Init(r));
    if IsOffset(r, x) {
      var p: Point :| InBox(r, p) && Linear(r, p) == x;
      PointDigits(r, p);
    }
    var c := x / w;
    if Last(r).lowerBound <= c < Last(r).lowerBound + Last(r).length && IsOffset(Init(r), x % w) {
      DivModIdentity(x, w);
      OffsetAppend(r, x % w, c);
    }
  }

  /** Different points have different offsets. */
  lemma {:induction false} LinearInjective(r: Region, p: Point, q: Point)
    requires Valid(r) && InBox(r, p) && InBox(r, q) && Linear(r, p) == Linear(r, q)
    ensures p == q
  {
    if r != [] {
      var p', q' := p[..|p| - 1], q[..|q| - 1];
      PointDigits(r, p);
      PointDigits(r, q);
      LinearInjective(Init(r), p', q');
      assert p == p' + [p[|p| - 1]] && q == q' + [q[|q| - 1]];
    }
  }

  // ----- Counting -----

  ghost function Rows(s: set<nat>, w: nat, from: nat, count: nat): set<nat>
    requires w >= 1
  {
    set x: nat | from * w <= x < (from + count) * w && x % w in s
  }

  lemma RowShift(s: set<nat>, w: nat, from: nat)
    requires w >= 1 && forall x :: x in s ==> x < w
    ensures |Rows(s, w, from, 1)| == |s|
  {
    var d := from * w;
    forall y: nat ensures y in Rows(s, w, from, 1) <==> y in Shift(s, d) {
      if y in Shift(s, d) { ShiftMember(s, d, y); RowMember(s, w, from, d, y - d); }
      if y in Rows(s, w, from, 1) { RowStart(s, w, from, d, y); }
    }
    assert Rows(s, w, from, 1) == Shift(s, d);
    ShiftSize(s, d);
  }

  lemma RowMember(s: set<nat>, w: nat, from: nat, d: nat, x: nat)
    requires x < w && d == from * w
    ensures x + d in Rows(s, w, from, 1) <==> x in s
  {
    DivModUnique(x + d, w, from, x);
    assert (from + 1) * w == d + w;
  }

  lemma RowStart(s: set<nat>, w: nat, from: nat, d: nat, y: nat)
    requires w >= 1 && d == from * w && y in Rows(s, w, from, 1)
    ensures y in Shift(s, d)
  {
    assert (from + 1) * w == d + w;
    RowMember(s, w, from, d, y - d);
    ShiftMember(s, d, y);
  }

  function Shift(a: set<nat>, d: nat): set<nat> {
    set x | x in a :: x + d
  }

  lemma ShiftMember(a: set<nat>, d: nat, y: nat)
    ensures y in Shift(a, d) <==> y >= d && y - d in a
  {
    if y >= d && y - d in a {
      var x := y - d;
      assert x + d in Shift(a, d);
    }
  }

  lemma {:induction false} ShiftSize(a: set<nat>, d: nat)
    ensures |Shift(a, d)| == |a|
    decreases a
  {
    if a != {} {
      var x :| x in a;
      var a' := a - {x};
      ShiftSize(a', d);
      forall y: nat ensures y in Shift(a, d) <==> y in Shift(a', d) + {x + d} {
        ShiftMember(a, d, y);
        ShiftMember(a', d, y);
      }
      ShiftMember(a', d, x + d);
      assert Shift(a, d) == Shift(a', d) + {x + d};
    }
  }

  lemma {:induction false} CountRows(s: set<nat>, w: nat, from: nat, count: nat)
    requires w >= 1 && forall x :: x in s ==> x < w
    ensures |Rows(s, w, from, count)| == |s| * count
    decreases count
  {
    if count > 0 {
      var a, b := Rows(s, w, from, count - 1), Rows(s, w, from + count - 1, 1);
      CountRows(s, w, from, count - 1);
      RowShift(s, w, from + count - 1);
      MulMonotone(from, from + count - 1, w);
      MulMonotone(from + count - 1, from + count, w);
      assert Rows(s, w, from, count) == a + b;
      assert a !! b;
      assert |s| * count == |s| * (count - 1) + |s|;
    }
  }

  lemma QuotientRange(x: int, w: nat, from: nat, to: nat)
    requires w >= 1
    ensures from * w <= x < to * w <==> from <= x / w < to
  {
    DivModIdentity(x, w);
    var q := x / w;
    if q < from {
      MulMonotone(q + 1, from, w);
      assert (q + 1) * w == q * w + w;
    } else {
      MulMonotone(from, q, w);
    }
    if q < to {
      MulMonotone(q + 1, to, w);
      assert (q + 1) * w == q * w + w;
    } else {
      MulMonotone(to, q, w);
    }
  }

  lemma OffsetRows(r: Region)
    requires r != [] && Valid(r)
    ensures Total(Init(r)) >= 1
    ensures Offsets(r) == Rows(Offsets(Init(r)), Total(Init(r)), Last(r).lowerBound, Last(r).length)
  {
    var w, lb, n := Total(Init(r)), Last(r).lowerBound, Last(r).length;
    TotalPositive(Init(r));
    forall x: nat ensures x in Offsets(r) <==> x in Rows(Offsets(Init(r)), w, lb, n) {
      QuotientRange(x, w, lb, lb + n);
      MulMonotone(0, lb, w);
      OffsetDigits(r, x);
      FirstIsLeast(r);
    }
  }

  /** The data size is the number of different offsets. */
  lemma {:induction false} VolumeCountsOffsets(r: Region)
    requires Valid(r)
    ensures |Offsets(r)| == Volume(r)
  {
    if r == [] {
      FirstIsLeast(r);
      assert IsOffset(r, 0) && Total(r) == 1;
      assert Offsets(r) == {0};
    } else {
      VolumeCountsOffsets(Init(r));
      OffsetRows(r);
      CountRows(Offsets(Init(r)), Total(Init(r)), Last(r).lowerBound, Last(r).length);
    }
  }

  // ----- Breadth -----

  function Breadth(r: Region): int
    requires Valid(r)
  {
    Farthest(r) - First(r) + 1
  }

  ghost predicate Contiguous(r: Region) {
    forall x, y, z :: IsOffset(r, x) && IsOffset(r, z) && x <= y <= z ==> IsOffset(r, y)
  }

  /** Every dimension below a non-unit one is full. */
  predicate FullBelow(r: Region) {
    forall i, j :: 0 <= i < j < |r| && r[j].length != 1 ==> r[i].length == r[i].size
  }

  predicate Full(r: Region) {
    forall i :: 0 <= i < |r| ==> r[i].length == r[i].size
  }

  lemma BreadthStep(r: Region)
    requires r != [] && Valid(r)
    ensures Breadth(r) == Breadth(Init(r)) + (Last(r).length - 1) * Total(Init(r))
  {
    FirstStep(r);
    FarthestStep(r);
    var lb, n, w := Last(r).lowerBound, Last(r).length, Total(Init(r));
    assert (lb + n - 1) * w == lb * w + (n - 1) * w;
  }

  lemma ProductEqual(a: nat, b: nat, m: nat, n: nat)
    requires a <= b && m <= n && m >= 1 && a >= 1
    ensures a * m <= b * n && (a * m == b * n <==> a == b && m == n)
  {
    MulMonotone(a, b, m);
    MulMonotone(m, n, b);
    if a < b {
      MulMonotone(a + 1, b, m);
      assert (a + 1) * m == a * m + m;
    }
    if m < n {
      MulMonotone(m + 1, n, b);
      assert (m + 1) * b == m * b + b;
    }
  }

  lemma {:induction false} VolumeAtMostTotal(r: Region)
    requires Valid(r)
    ensures 1 <= Volume(r) <= Total(r) && (Volume(r) == Total(r) <==> Full(r))
  {
    if r != [] {
      VolumeAtMostTotal(Init(r));
      ProductEqual(Volume(Init(r)), Total(Init(r)), Last(r).length, Last(r).size);
      ProductEqual(1, Volume(Init(r)), 1, Last(r).length);
      assert r == Init(r) + [Last(r)];
      assert Full(r) <==> Full(Init(r)) && Last(r).length == Last(r).size;
    }
  }

  lemma FullBelowStep(r: Region)
    requires r != []
    ensures FullBelow(r) <==> FullBelow(Init(r)) && (Last(r).length == 1 || Full(Init(r)))
  {
    var n := |r| - 1;
    if FullBelow(Init(r)) && (Last(r).length == 1 || Full(Init(r))) {
      forall i, j | 0 <= i < j < |r| && r[j].length != 1 ensures r[i].length == r[i].size {
        assert Init(r)[i] == r[i];
        if j < n { assert Init(r)[j] == r[j]; }
      }
    }
  }

  lemma FullIsFullBelow(r: Region)
    requires Full(r)
    ensures FullBelow(r)
  {
  }

  /** The data size never exceeds the breadth; they are equal exactly when every dimension below the highest
      non-unit one is full. */
  lemma {:induction false} VolumeAtMostBreadth(r: Region)
    requires Valid(r)
    ensures Volume(r) <= Breadth(r) && (Volume(r) == Breadth(r) <==> FullBelow(r))
  {
    if r != [] {
      var a, w, n := Volume(Init(r)), Total(Init(r)), Last(r).length;
      VolumeAtMostBreadth(Init(r));
      VolumeAtMostTotal(Init(r));
      BreadthStep(r);
      FullBelowStep(r);
      SlowestRow(a, Breadth(Init(r)), w, n);
      if Full(Init(r)) { FullIsFullBelow(Init(r)); }
    }
  }

  /** `n` rows of `a` elements each, a stride `w` apart, in a row of breadth `b`. */
  lemma SlowestRow(a: int, b: int, w: int, n: int)
    requires 1 <= a <= b && a <= w && n >= 1
    ensures a * n <= b + (n - 1) * w
    ensures a * n == b + (n - 1) * w <==> a == b && (n == 1 || a == w)
  {
    assert a * n == a + (n - 1) * a;
    if n > 1 { ProductEqual(a, w, n - 1, n - 1); }
    assert a * (n - 1) == (n - 1) * a && w * (n - 1) == (n - 1) * w;
  }

  function Interval(lo: nat, hi: nat): set<nat> {
    set x: nat | lo <= x < hi && Between(lo, x, hi)
  }

  predicate Between(lo: int, x: int, hi: int) {
    lo <= x < hi
  }

  lemma {:induction false} IntervalSize(lo: nat, hi: nat)
    requires lo <= hi
    ensures |Interval(lo, hi)| == hi - lo
    decreases hi - lo
  {
    if lo < hi {
      IntervalSize(lo, hi - 1);
      assert Interval(lo, hi) == Interval(lo, hi - 1) + {hi - 1};
    }
  }

  lemma SubsetSize(a: set<nat>, b: set<nat>)
    requires a <= b && |a| == |b|
    ensures a == b
  {
    assert |b| == |a| + |b - a|;
    assert b == a + (b - a);
  }

  /** The region covers the interval between its corners exactly when its size is its breadth. */
  lemma OffsetsFillBreadth(r: Region)
    requires Valid(r)
    ensures Offsets(r) <= Interval(First(r), Farthest(r) + 1)
    ensures Offsets(r) == Interval(First(r), Farthest(r) + 1) <==> FullBelow(r)
  {
    var all := Interval(First(r), Farthest(r) + 1);
    VolumeAtMostBreadth(r);
    VolumeCountsOffsets(r);
    FirstIsLeast(r);
    IntervalSize(First(r), Farthest(r) + 1);
    assert Offsets(r) <= all;
    if FullBelow(r) { SubsetSize(Offsets(r), all); }
  }

  lemma FullBelowIsInterval(r: Region)
    requires Valid(r) && FullBelow(r)
    ensures Offsets(r) == Interval(First(r), First(r) + Volume(r))
  {
    OffsetsFillBreadth(r);
    VolumeAtMostBreadth(r);
  }

  lemma OffsetMember(r: Region, x: nat)
    requires Valid(r)
    ensures IsOffset(r, x) <==> x in Offsets(r)
  {
    FirstIsLeast(r);
  }

  lemma NoGaps(r: Region)
    requires Valid(r) && Contiguous(r)
    ensures Offsets(r) == Interval(First(r), Farthest(r) + 1)
  {
    FirstIsLeast(r);
    OffsetsFillBreadth(r);
    forall y: nat | First(r) <= y <= Farthest(r) ensures y in Offsets(r) { assert IsOffset(r, y); }
  }

  /** The offsets have no gaps exactly when every dimension below a non-unit one is full. */
  lemma ContiguousIffFullBelow(r: Region)
    requires Valid(r)
    ensures Contiguous(r) <==> FullBelow(r)
  {
    OffsetsFillBreadth(r);
    if Contiguous(r) { NoGaps(r); }
    if FullBelow(r) {
      FirstIsLeast(r);
      forall y: nat ensures IsOffset(r, y) <==> First(r) <= y <= Farthest(r) { OffsetMember(r, y); }
    }
  }

  // ----- The loops of global_reg_t -----

  lemma InitOfPrefix(r: Region, k: nat)
    requires k < |r|
    ensures Init(r[..k + 1]) == r[..k] && Last(r[..k + 1]) == r[k]
  {
  }

  lemma StrideStep(r: Region, k: nat)
    requires k < |r|
    ensures Stride(r, k + 1) == Stride(r, k) * r[k].size
  {
    InitOfPrefix(r, k);
  }

  lemma StridePositive(r: Region, k: nat)
    requires Valid(r) && k <= |r|
    ensures Stride(r, k) > 0
  {
    TotalPositive(r[..k]);
  }

  lemma {:induction false} SameTotal(r: Region, r': Region)
    requires |r| == |r'| && (forall i :: 0 <= i < |r| ==> r[i].size == r'[i].size)
    ensures Total(r) == Total(r')
  {
    if r != [] { SameTotal(Init(r), Init(r')); }
  }

  /** The stride of the slowest dimension. */
  method SlowestStride(r: Region) returns (acumSizes: nat)
    requires r != []
    ensures acumSizes == Total(Init(r))
  {
    acumSizes := 1;
    for dimIdx := 0 to |r| - 1
      invariant acumSizes == Total(r[..dimIdx])
    {
      InitOfPrefix(r, dimIdx);
      acumSizes := acumSizes * r[dimIdx].size;
    }
  }

  /** From the stride of a dimension to that of the one below, by division. */
  lemma StrideBelow(r: Region, k: nat)
    requires Valid(r) && 0 < k < |r|
    ensures Total(r[..k]) / r[k - 1].size == Total(r[..k - 1])
  {
    InitOfPrefix(r, k - 1);
    DivModUnique(Total(r[..k]), r[k - 1].size, Total(r[..k - 1]), 0);
  }

  method GetFirstAddress(r: Region, baseAddress: nat) returns (address: nat)
    requires r != [] && Valid(r)
    ensures address == baseAddress + First(r)
  {
    var offset := 0;
    var acumSizes := SlowestStride(r);
    var dimIdx := |r|;
    assert r[..|r|] == r;
    while dimIdx > 0
      invariant 0 <= dimIdx <= |r|
      invariant dimIdx > 0 ==> acumSizes == Total(r[..dimIdx - 1])
      invariant offset + First(r[..dimIdx]) == First(r)
    {
      dimIdx := dimIdx - 1;
      CornerSteps(r, dimIdx, acumSizes);
      offset := offset + acumSizes * r[dimIdx].lowerBound;
      if dimIdx >= 1 {
        StrideBelow(r, dimIdx);
        acumSizes := acumSizes / r[dimIdx - 1].size;
      }
    }
    address := baseAddress + offset;
  }

  lemma CornerSteps(r: Region, k: nat, stride: nat)
    requires Valid(r) && k < |r| && stride == Total(r[..k])
    ensures First(r[..k + 1]) == First(r[..k]) + stride * r[k].lowerBound
    ensures Farthest(r[..k + 1]) == Farthest(r[..k]) + stride * (r[k].lowerBound + r[k].length - 1)
  {
    InitOfPrefix(r, k);
    FirstStep(r[..k + 1]);
    FarthestStep(r[..k + 1]);
  }

  method GetBreadth(r: Region) returns (breadth: int)
    requires r != [] && Valid(r)
    ensures breadth == Breadth(r)
  {
    var offset, lastOffset := 0, 0;
    var acumSizes := SlowestStride(r);
    var dimIdx := |r|;
    assert r[..|r|] == r;
    while dimIdx > 0
      invariant 0 <= dimIdx <= |r|
      invariant dimIdx > 0 ==> acumSizes == Total(r[..dimIdx - 1])
      invariant offset + First(r[..dimIdx]) == First(r)
      invariant lastOffset + Farthest(r[..dimIdx]) == Farthest(r)
    {
      dimIdx := dimIdx - 1;
      CornerSteps(r, dimIdx, acumSizes);
      offset := offset + acumSizes * r[dimIdx].lowerBound;
      lastOffset := lastOffset + acumSizes * (r[dimIdx].lowerBound + r[dimIdx].length - 1);
      if dimIdx >= 1 {
        StrideBelow(r, dimIdx);
        acumSizes := acumSizes / r[dimIdx - 1].size;
      }
    }
    breadth := lastOffset - offset + 1;
  }

  /** Counted from the slowest dimension. */
  method GetDataSize(r: Region) returns (dataSize: nat)
    requires Valid(r)
    ensures dataSize == Volume(r) == |Offsets(r)|
  {
    dataSize := 1;
    var dimIdx := |r|;
    assert r[..|r|] == r;
    while dimIdx > 0
      invariant 0 <= dimIdx <= |r|
      invariant Volume(r[..dimIdx]) * dataSize == Volume(r)
    {
      dimIdx := dimIdx - 1;
      InitOfPrefix(r, dimIdx);
      MulAssociates(Volume(r[..dimIdx]), r[dimIdx].length, dataSize);
      dataSize := dataSize * r[dimIdx].length;
    }
    VolumeCountsOffsets(r);
  }

  lemma MulAssociates(a: nat, b: nat, c: nat)
    ensures a * b * c == a * (c * b)
  {
  }
}
