/** The recursive test whether an unsigned value has more than one bit set.  A value of width `w` is the
    sequence of its `w` bits, least significant first. */
module BitCounter {
  import opened Arithmetic

  type Word = seq<bool>

  /** 2, 4, 8, ...: the widths on which the recursion ends. */
  predicate Width(w: nat) {
    w == 2 || (w > 2 && w % 2 == 0 && Width(w / 2))
  }

  function ShiftRight(v: Word, n: nat): (r: Word)
    requires n <= |v|
    ensures |r| == |v|
    ensures forall i :: 0 <= i < |v| ==> r[i] == (i + n < |v| && v[i + n])
  {
    v[n..] + seq(n, _ => false)
  }

  function And(a: Word, b: Word): (r: Word)
    requires |a| == |b|
    ensures |r| == |a| && forall i :: 0 <= i < |a| ==> r[i] == (a[i] && b[i])
  {
    seq(|a|, i requires 0 <= i < |a| => a[i] && b[i])
  }

  function Xor(a: Word, b: Word): (r: Word)
    requires |a| == |b|
    ensures |r| == |a| && forall i :: 0 <= i < |a| ==> r[i] == (a[i] != b[i])
  {
    seq(|a|, i requires 0 <= i < |a| => a[i] != b[i])
  }

  predicate NonZero(v: Word) {
    exists i :: 0 <= i < |v| && v[i]
  }

  /** The mask is all ones shifted by half the CURRENT width, so below the top level it keeps bits that lie
      above that width. */
  function LowPart(v: Word, bits: nat): (r: Word)
    requires bits <= |v|
    ensures |r| == |v| && forall i :: 0 <= i < |v| ==> r[i] == (i < |v| - bits / 2 && v[i])
  {
    And(v, ShiftRight(seq(|v|, _ => true), bits / 2))
  }

  function HighPart(v: Word, bits: nat): (r: Word)
    requires bits <= |v|
    ensures |r| == |v|
  {
    ShiftRight(v, bits / 2)
  }

  function HasMoreThanOneOne(v: Word, bits: nat): bool
    requires Width(bits) && bits <= |v|
    decreases bits
  {
    if bits == 2 then v[0] && v[1]
    else
      || NonZero(And(LowPart(v, bits), HighPart(v, bits)))
      || HasMoreThanOneOne(Xor(LowPart(v, bits), HighPart(v, bits)), bits / 2)
  }

  // ----- What a level does to the bits -----

  function Fold(v: Word, bits: nat): Word
    requires bits <= |v|
  {
    Xor(LowPart(v, bits), HighPart(v, bits))
  }

  predicate Clash(v: Word, bits: nat)
    requires bits <= |v|
  {
    NonZero(And(LowPart(v, bits), HighPart(v, bits)))
  }

  predicate IsSet(v: Word, i: nat) {
    i < |v| && v[i]
  }

  /** Two bits half the width apart are what the conjunction finds ... */
  lemma ClashIff(v: Word, bits: nat)
    requires bits <= |v|
    ensures Clash(v, bits) <==> exists i: nat :: IsSet(v, i) && IsSet(v, i + bits / 2)
  {
    var c := And(LowPart(v, bits), HighPart(v, bits));
    forall i: nat | IsSet(v, i) && IsSet(v, i + bits / 2) ensures c[i] { }
    if Clash(v, bits) {
      var i :| 0 <= i < |c| && c[i];
      assert IsSet(v, i) && IsSet(v, i + bits / 2);
    }
  }

  /** ... and without such a pair every bit stays where it is or moves down by half the width. */
  lemma FoldBits(v: Word, bits: nat, i: nat)
    requires bits <= |v| && !Clash(v, bits)
    ensures IsSet(Fold(v, bits), i) <==>
      i + bits / 2 < |v| && (IsSet(v, i) || IsSet(v, i + bits / 2))
  {
    ClashIff(v, bits);
  }

  // ----- A single bit is never taken for two -----

  /** All set bits have one residue modulo the current width. */
  ghost predicate Congruent(v: Word, bits: nat)
    requires bits > 0
  {
    forall i: nat, j: nat :: IsSet(v, i) && IsSet(v, j) ==> i % bits == j % bits
  }

  lemma HalfResidue(i: nat, j: nat, bits: nat)
    requires bits > 0 && bits % 2 == 0 && i % bits == j % bits
    ensures i % (bits / 2) == j % (bits / 2)
  {
    ResidueOfHalf(i, bits);
    ResidueOfHalf(j, bits);
  }

  lemma ResidueOfHalf(i: nat, bits: nat)
    requires bits > 0 && bits % 2 == 0
    ensures i % (bits / 2) == if i % bits < bits / 2 then i % bits else i % bits - bits / 2
  {
    Halves(i, bits, bits / 2, i / bits, i % bits);
  }

  lemma Halves(i: nat, bits: nat, h: nat, q: nat, r: nat)
    requires h > 0 && bits == 2 * h && i == q * bits + r && r < bits
    ensures i % h == if r < h then r else r - h
  {
    assert q * bits == 2 * q * h;
    if r < h { DivModUnique(i, h, 2 * q, r); } else { DivModUnique(i, h, 2 * q + 1, r - h); }
  }

  lemma ModStep(i: nat, n: nat)
    requires n > 0
    ensures (i + n) % n == i % n
  {
    DivModUnique(i + n, n, i / n + 1, i % n);
  }

  lemma NotHalfApart(i: nat, bits: nat, h: nat)
    requires h > 0 && bits == 2 * h
    ensures i % bits != (i + h) % bits
  {
    var q, r := i / bits, i % bits;
    if r < h { DivModUnique(i + h, bits, q, r + h); } else { DivModUnique(i + h, bits, q + 1, r - h); }
  }

  lemma {:induction false} CongruentIsSingle(v: Word, bits: nat)
    requires Width(bits) && bits <= |v| && Congruent(v, bits)
    ensures !HasMoreThanOneOne(v, bits)
    decreases bits
  {
    if bits == 2 {
      assert IsSet(v, 0) == v[0] && IsSet(v, 1) == v[1];
    } else {
      ClashIff(v, bits);
      if Clash(v, bits) {
        var i: nat :| IsSet(v, i) && IsSet(v, i + bits / 2);
        NotHalfApart(i, bits, bits / 2);
        assert false;
      }
      FoldCongruent(v, bits);
      CongruentIsSingle(Fold(v, bits), bits / 2);
    }
  }

  lemma FoldCongruent(v: Word, bits: nat)
    requires bits > 2 && bits % 2 == 0 && bits <= |v| && Congruent(v, bits) && !Clash(v, bits)
    ensures Congruent(Fold(v, bits), bits / 2)
  {
    forall i: nat, j: nat | IsSet(Fold(v, bits), i) && IsSet(Fold(v, bits), j)
      ensures i % (bits / 2) == j % (bits / 2)
    {
      var p := Origin(v, bits, i);
      var q := Origin(v, bits, j);
      HalfResidue(p, q, bits);
    }
  }

  /** The bit from which bit `i` of the next level comes. */
  lemma Origin(v: Word, bits: nat, i: nat) returns (p: nat)
    requires bits >= 2 && bits <= |v| && !Clash(v, bits) && IsSet(Fold(v, bits), i)
    ensures IsSet(v, p) && p % (bits / 2) == i % (bits / 2) && (p == i || p == i + bits / 2)
  {
    FoldBits(v, bits, i);
    ModStep(i, bits / 2);
    p := if IsSet(v, i) then i else i + bits / 2;
  }

  // ----- Two bits are never missed -----

  /** The residue of every set bit is itself a set bit: nothing is hidden above the current width. */
  ghost predicate Grounded(v: Word, bits: nat)
    requires bits > 0
  {
    forall i: nat :: IsSet(v, i) ==> IsSet(v, i % bits)
  }

  lemma FoldResidue(v: Word, bits: nat, i: nat)
    requires bits > 2 && bits % 2 == 0 && bits <= |v| && !Clash(v, bits) && IsSet(v, i % bits)
    ensures IsSet(Fold(v, bits), i % (bits / 2))
  {
    ResidueOfHalf(i, bits);
    FoldBits(v, bits, i % (bits / 2));
  }

  lemma FoldGrounded(v: Word, bits: nat)
    requires bits > 2 && bits % 2 == 0 && bits <= |v| && Grounded(v, bits) && !Clash(v, bits)
    ensures Grounded(Fold(v, bits), bits / 2)
    ensures forall i: nat :: IsSet(v, i) ==> IsSet(Fold(v, bits), i % (bits / 2))
  {
    forall i: nat | IsSet(v, i) ensures IsSet(Fold(v, bits), i % (bits / 2)) {
      FoldResidue(v, bits, i);
    }
    forall i: nat | IsSet(Fold(v, bits), i) ensures IsSet(Fold(v, bits), i % (bits / 2)) {
      var p := Origin(v, bits, i);
    }
  }

  lemma {:induction false} DistinctIsFound(v: Word, bits: nat, p: nat, q: nat)
    requires Width(bits) && bits <= |v| && Grounded(v, bits)
    requires IsSet(v, p) && IsSet(v, q) && p % bits != q % bits
    ensures HasMoreThanOneOne(v, bits)
    decreases bits
  {
    var i, j := p % bits, q % bits;
    assert IsSet(v, i) && IsSet(v, j);
    if bits > 2 && !Clash(v, bits) {
      ResidueOfHalf(p, bits);
      ResidueOfHalf(q, bits);
      ClashIff(v, bits);
      var i', j' := p % (bits / 2), q % (bits / 2);
      FoldGrounded(v, bits);
      SmallMod(i', bits / 2);
      SmallMod(j', bits / 2);
      DistinctIsFound(Fold(v, bits), bits / 2, i', j');
    }
  }

  lemma SmallMod(i: nat, n: nat)
    requires i < n
    ensures i % n == i
  {
    DivModUnique(i, n, 0, i);
  }

  // ----- The specification -----

  function Ones(v: Word): set<nat> {
    set i: nat | i < |v| && v[i]
  }

  lemma TwoOnes(v: Word)
    ensures |Ones(v)| >= 2 <==> exists p: nat, q: nat :: IsSet(v, p) && IsSet(v, q) && p != q
  {
    if p: nat, q: nat :| IsSet(v, p) && IsSet(v, q) && p != q {
      assert {p, q} <= Ones(v);
      assert |Ones(v)| == |Ones(v) - {p, q}| + |{p, q}|;
    } else if |Ones(v)| >= 2 {
      var p :| p in Ones(v);
      assert |Ones(v) - {p}| >= 1;
      var q :| q in Ones(v) - {p};
      assert IsSet(v, p) && IsSet(v, q) && p != q;
    }
  }

  /** For every width and every value: true exactly when at least two bits are set. */
  lemma HasMoreThanOneOneCorrect(v: Word)
    requires Width(|v|)
    ensures HasMoreThanOneOne(v, |v|) <==> |Ones(v)| >= 2
  {
    TwoOnes(v);
    forall i: nat | i < |v| ensures i % |v| == i { SmallMod(i, |v|); }
    if p: nat, q: nat :| IsSet(v, p) && IsSet(v, q) && p != q {
      DistinctIsFound(v, |v|, p, q);
    } else {
      CongruentIsSingle(v, |v|);
    }
  }

  /** Inner levels do see bits above their width: with one bit set out of eight, the last level is given two. */
  lemma HighBitsSurvive()
    ensures var v := [false, false, true, false, false, false, false, false];
      && Fold(Fold(v, 8), 4) == [true, false, true, false, false, false, false, false]
      && !HasMoreThanOneOne(v, 8)
  {
    var v := [false, false, true, false, false, false, false, false];
    assert Fold(v, 8) == v;
    assert Fold(v, 4) == [true, false, true, false, false, false, false, false];
    assert forall i: nat :: IsSet(v, i) ==> i == 2;
    CongruentIsSingle(v, 8);
  }
}
