/** Uniform binning axis (`axisDef`): a bin count and the two edges of the binned
    range. Bin i covers the half-open interval (low + i*w, low + (i+1)*w], so the
    value `low` itself belongs to no bin. Doubles are modelled as reals. */
module Axis {

  datatype AxisDef = AxisDef(nBins: nat, low: real, high: real)

  /** The default-constructed axis: one bin over (0, 1]. */
  const DefaultAxis := AxisDef(1, 0.0, 1.0)

  /** Width of one bin. */
  function Width(a: AxisDef): (w: real)
    requires a.nBins > 0
    ensures w * (a.nBins as real) == a.high - a.low
  {
    (a.high - a.low) / (a.nBins as real)
  }

  /** An axis is usable when it has bins of positive width. */
  predicate Valid(a: AxisDef)
  {
    a.nBins > 0 && Width(a) > 0.0
  }

  /** Lower edge of bin i (the upper edge of bin i-1). */
  function Edge(a: AxisDef, i: int): real
    requires a.nBins > 0
  {
    a.low + (i as real) * Width(a)
  }

  /** The membership test the source applies to bin i. */
  predicate InBin(a: AxisDef, v: real, i: int)
    requires a.nBins > 0
  {
    Edge(a, i) < v <= Edge(a, i + 1)
  }

  /** The search of `bin` from index i on: the first index j in [i, nBins) whose
      interval holds v, or -1 when there is none. */
  function BinFrom(a: AxisDef, v: real, i: nat): (r: int)
    requires i <= a.nBins
    decreases a.nBins - i
    ensures r == -1 || i <= r < a.nBins
    ensures r != -1 ==> InBin(a, v, r) && forall j :: i <= j < r ==> !InBin(a, v, j)
    ensures r == -1 ==> forall j :: i <= j < a.nBins ==> !InBin(a, v, j)
  {
    if i == a.nBins then -1
    else if InBin(a, v, i) then i
    else BinFrom(a, v, i + 1)
  }

  /** `bin(val)`: the first bin whose interval holds v, or -1. */
  function Bin(a: AxisDef, v: real): (r: int)
    ensures -1 <= r < a.nBins
    ensures r >= 0 ==> InBin(a, v, r) && forall j :: 0 <= j < r ==> !InBin(a, v, j)
    ensures r == -1 ==> forall j :: 0 <= j < a.nBins ==> !InBin(a, v, j)
  {
    BinFrom(a, v, 0)
  }

  /** The loop of `bin` as the source runs it. */
  method FindBin(a: AxisDef, v: real) returns (r: int)
    ensures r == Bin(a, v)
  {
    var i := 0;
    while i < a.nBins
      invariant 0 <= i <= a.nBins
      invariant BinFrom(a, v, i) == Bin(a, v)
    {
      if Edge(a, i) < v && v <= Edge(a, i + 1) {
        return i;
      }
      i := i + 1;
    }
    return -1;
  }

  /** `valid()` holds exactly for a positive bin count and low < high. */
  lemma ValidIff(a: AxisDef)
    ensures Valid(a) <==> a.nBins > 0 && a.low < a.high
  {
    if a.nBins > 0 {
      var w := Width(a);
      var n := a.nBins as real;
      assert w * n == a.high - a.low;
      if w > 0.0 {
        assert w * n > 0.0;
      } else {
        assert w * n <= 0.0;
      }
    }
  }

  /** The default-constructed axis (1, 0, 1) is valid. */
  lemma DefaultAxisValid()
    ensures DefaultAxis.nBins == 1 && DefaultAxis.low == 0.0 && DefaultAxis.high == 1.0
    ensures Valid(DefaultAxis)
  {
  }

  /** The top edge of the last bin is `high`. */
  lemma TopEdgeIsHigh(a: AxisDef)
    requires a.nBins > 0
    ensures Edge(a, a.nBins) == a.high
  {
  }

  /** Edges grow with the index when the width is positive. */
  lemma EdgeMonotone(a: AxisDef, i: int, j: int)
    requires Valid(a) && i <= j
    ensures Edge(a, i) <= Edge(a, j)
  {
    var w := Width(a);
    assert (j as real) * w - (i as real) * w == ((j - i) as real) * w;
    assert ((j - i) as real) * w >= 0.0;
  }

  /** A value at or below `low` (in particular `low` itself) falls in no bin. */
  lemma BinAtOrBelowLow(a: AxisDef, v: real)
    requires Valid(a) && v <= a.low
    ensures Bin(a, v) == -1
  {
    if Bin(a, v) >= 0 {
      EdgeMonotone(a, 0, Bin(a, v));
      assert Edge(a, 0) == a.low;
    }
  }

  /** A value above `high` = low + nBins*width falls in no bin. */
  lemma BinAboveHigh(a: AxisDef, v: real)
    requires Valid(a) && v > a.high
    ensures Bin(a, v) == -1
  {
    var r := Bin(a, v);
    if r >= 0 {
      EdgeMonotone(a, r + 1, a.nBins);
      TopEdgeIsHigh(a);
    }
  }

  /** At most one bin's interval holds a value. */
  lemma BinUnique(a: AxisDef, v: real, i: int, j: int)
    requires Valid(a) && InBin(a, v, i) && InBin(a, v, j)
    ensures i == j
  {
    if i < j {
      EdgeMonotone(a, i + 1, j);
    } else if j < i {
      EdgeMonotone(a, j + 1, i);
    }
  }

  /** Some bin in [0, k) holds v when low < v <= Edge(k). */
  lemma {:induction false} SomeBinBelow(a: AxisDef, v: real, k: nat)
    requires Valid(a) && a.low < v && k <= a.nBins && v <= Edge(a, k)
    ensures exists i :: 0 <= i < k && InBin(a, v, i)
  {
    assert k > 0;
    if v > Edge(a, k - 1) {
      assert InBin(a, v, k - 1);
    } else {
      SomeBinBelow(a, v, k - 1);
    }
  }

  /** On a valid axis every value in (low, high] lands in exactly one bin,
      and `bin` returns it. */
  lemma BinCovers(a: AxisDef, v: real)
    requires Valid(a) && a.low < v <= a.high
    ensures 0 <= Bin(a, v) < a.nBins
    ensures forall j :: 0 <= j < a.nBins && InBin(a, v, j) ==> j == Bin(a, v)
  {
    TopEdgeIsHigh(a);
    SomeBinBelow(a, v, a.nBins);
    forall j | 0 <= j < a.nBins && InBin(a, v, j)
      ensures j == Bin(a, v)
    {
      BinUnique(a, v, j, Bin(a, v));
    }
  }

  /** An axis whose width is not positive (an unchecked vz axis, say) puts no value
      in any bin, so it drops every value rather than indexing out of range. */
  lemma NonPositiveWidthBinsNothing(a: AxisDef, v: real)
    requires a.nBins > 0 && Width(a) <= 0.0
    ensures Bin(a, v) == -1
  {
  }

  /** The default vertex-z axis (5, -30, 30): bins of width 12 with edges
      -30, -18, -6, 6, 18, 30. */
  lemma VzAxisExamples()
    ensures Bin(AxisDef(5, -30.0, 30.0), -30.0) == -1
    ensures Bin(AxisDef(5, -30.0, 30.0), -29.9) == 0
    ensures Bin(AxisDef(5, -30.0, 30.0), -18.0) == 0
    ensures Bin(AxisDef(5, -30.0, 30.0), 6.0) == 2
    ensures Bin(AxisDef(5, -30.0, 30.0), 30.0) == 4
    ensures Bin(AxisDef(5, -30.0, 30.0), 30.1) == -1
  {
    var a := AxisDef(5, -30.0, 30.0);
    assert Width(a) == 12.0;
    BinAtOrBelowLow(a, -30.0);
    BinAboveHigh(a, 30.1);
    assert InBin(a, -29.9, 0);
    BinCovers(a, -29.9);
    assert InBin(a, -18.0, 0);
    BinCovers(a, -18.0);
    assert InBin(a, 6.0, 2);
    BinCovers(a, 6.0);
    assert InBin(a, 30.0, 4);
    BinCovers(a, 30.0);
  }

  /** `CheckAxes`: the luminosity, centrality, pt, eta and phi axes must be valid;
      the vz axis is not looked at. Both makers
      apply the same test. */
  predicate AxesValid(lumi: AxisDef, cent: AxisDef, vz: AxisDef,
                      pt: AxisDef, eta: AxisDef, phi: AxisDef)
  {
    Valid(lumi) && Valid(cent) && Valid(pt) && Valid(eta) && Valid(phi)
  }

  /** Whether `vz` is valid or not never changes the verdict of `CheckAxes`. */
  lemma CheckAxesIgnoresVz(lumi: AxisDef, cent: AxisDef, vz1: AxisDef, vz2: AxisDef,
                           pt: AxisDef, eta: AxisDef, phi: AxisDef)
    ensures AxesValid(lumi, cent, vz1, pt, eta, phi) == AxesValid(lumi, cent, vz2, pt, eta, phi)
    ensures AxesValid(lumi, cent, vz1, pt, eta, phi) ==>
      AxesValid(lumi, cent, AxisDef(0, 0.0, 0.0), pt, eta, phi)
  {
  }
}
