/** When the clamping rounds of the sizing reach their bounds, and when they only approach them. */
module SizingBounds {
  import opened Options
  import opened Reals
  import opened Sizing

  // ---- when the bounds hold ----------------------------------------------------------------------------------------------

  /** The loop runs `k` rounds without stopping early. */
  ghost predicate NeverStops(w: seq<real>, lo: real, hi: real, k: nat)
    decreases k
  {
    k > 0 ==> !WithinBounds(Round(w, lo, hi), lo, hi) && NeverStops(Round(w, lo, hi), lo, hi, k - 1)
  }

  /** The result is within its bounds exactly when some round stopped the loop. */
  lemma {:induction false} BoundsHoldIffStopped(w: seq<real>, lo: real, hi: real, k: nat)
    requires 0 < k
    ensures WithinBounds(Rounds(w, lo, hi, k), lo, hi) <==> !NeverStops(w, lo, hi, k)
    decreases k
  {
    var v := Round(w, lo, hi);
    if !WithinBounds(v, lo, hi) && k > 1 {
      BoundsHoldIffStopped(v, lo, hi, k - 1);
      assert NeverStops(v, lo, hi, k - 1) <==> NeverStops(w, lo, hi, k);
    } else {
      assert NeverStops(v, lo, hi, 0);
    }
  }

  /** A book that is within its bounds before the first round is left exactly as it is. */
  lemma WithinStays(w: seq<real>, lo: real, hi: real, k: nat)
    requires IsBook(w) && 0 < k && forall i :: 0 <= i < |w| ==> lo <= w[i] <= hi
    ensures Rounds(w, lo, hi, k) == w && WithinBounds(w, lo, hi)
  {
    assert Clamped(w, lo, hi) == w;
    assert Round(w, lo, hi) == w;
  }

  /** A book of `m` names within the bounds of the `n`-name scheme. */
  ghost predicate Fits(w: seq<real>, m: nat, n: nat) {
    |w| == m && IsBook(w) && WithinBounds(w, Low(n), High(n))
  }

  lemma FitNeedsNames(w: seq<real>, n: nat)
    requires IsBook(w) && WithinBounds(w, Low(n), High(n))
    ensures if n == 5 then 5 <= |w| else 7 <= |w| <= 13
  {
    SumBounds(w, High(n) + TOLERANCE);
    SumBounds(w, Low(n) - TOLERANCE);
    assert 1.0 <= |w| as real * (High(n) + TOLERANCE);
    assert |w| as real * (Low(n) - TOLERANCE) <= 1.0;
  }

  lemma EqualSharesFit(m: nat, n: nat)
    requires if n == 5 then 5 <= m else 7 <= m <= 13
    ensures Fits(EqualShares(m), m, n)
  {
    Reciprocal(m as real);
    SameSum(EqualShares(m), 1.0 / m as real);
    ShareFits(m, n);
  }

  lemma ShareFits(m: nat, n: nat)
    requires if n == 5 then 5 <= m else 7 <= m <= 13
    ensures Low(n) <= 1.0 / m as real <= High(n)
  {
    var p := 1.0 / m as real;
    Reciprocal(m as real);
    if n == 5 {
      assert 5.0 * p <= m as real * p;
    } else {
      assert 7.0 * p <= m as real * p <= 13.0 * p;
    }
  }

  /** Weights that sum to one can be within the bounds exactly with neither too few nor too many names: seven to
      thirteen for the wider books, five or more for the five-name book. */
  lemma BoundsFitIffEnoughNames(m: nat, n: nat)
    ensures (exists w :: Fits(w, m, n)) <==> if n == 5 then 5 <= m else 7 <= m <= 13
  {
    if if n == 5 then 5 <= m else 7 <= m <= 13 {
      EqualSharesFit(m, n);
    }
    forall w | Fits(w, m, n) ensures if n == 5 then 5 <= m else 7 <= m <= 13 {
      FitNeedsNames(w, n);
    }
  }

  // ---- a bound that is broken stays broken ---------------------------------------------------------------------------------

  function Power(x: real, k: nat): real {
    if k == 0 then 1.0 else x * Power(x, k - 1)
  }

  lemma {:induction false} PowerIsSmall(x: real, k: nat)
    requires 0.0 < x <= 1.0
    ensures 0.0 < Power(x, k) <= 1.0
  {
    if k > 0 {
      PowerIsSmall(x, k - 1);
      Widen(Power(x, k - 1), x, 1.0);
    }
  }

  lemma EighthPower()
    ensures Power(0.2, 8) == 0.00000256 && Power(0.15, 8) == 0.0000002562890625
  {
    assert Power(0.2, 1) == 0.2 && Power(0.2, 2) == 0.04 && Power(0.2, 3) == 0.008;
    assert Power(0.2, 4) == 0.0016 && Power(0.2, 5) == 0.00032 && Power(0.2, 6) == 0.000064;
    assert Power(0.15, 1) == 0.15 && Power(0.15, 2) == 0.0225 && Power(0.15, 3) == 0.003375;
    assert Power(0.15, 4) == 0.00050625 && Power(0.15, 5) == 0.0000759375 && Power(0.15, 6) == 0.000011390625;
  }

  lemma Widen(m: real, t: real, s: real)
    requires 0.0 <= m && t <= s
    ensures m * t <= m * s
  {
  }

  lemma {:induction false} SumFalls(w: seq<real>, c: seq<real>, i: nat)
    requires |c| == |w| && i < |w| && forall j :: 0 <= j < |w| ==> c[j] <= w[j]
    ensures Sum(c) <= Sum(w) - (w[i] - c[i])
  {
    var last := |w| - 1;
    if i < last {
      SumFalls(w[..last], c[..last], i);
    } else {
      AllFall(w[..last], c[..last]);
    }
  }

  lemma {:induction false} AllFall(w: seq<real>, c: seq<real>)
    requires |c| == |w| && forall j :: 0 <= j < |w| ==> c[j] <= w[j]
    ensures Sum(c) <= Sum(w)
  {
    if w != [] {
      AllFall(w[..|w| - 1], c[..|w| - 1]);
    }
  }

  lemma QuotientGrows(x: real, s: real)
    requires 0.0 <= x && 0.0 < s
    ensures s <= 1.0 ==> x <= x / s
    ensures 1.0 <= s ==> x / s <= x
  {
    var q := x / s;
    assert q * s == x;
    if s <= 1.0 {
      Widen(q, s, 1.0);
    }
    if 1.0 <= s {
      Widen(q, 1.0, s);
    }
  }

  lemma QuotientOrder(x: real, y: real, s: real)
    requires 0.0 < s && x <= y
    ensures x / s <= y / s
  {
    assert y / s - x / s == (y - x) / s;
  }

  ghost predicate AllAtMost(w: seq<real>, x: real) {
    forall j :: 0 <= j < |w| ==> w[j] <= x
  }

  ghost predicate AllAtLeast(w: seq<real>, x: real) {
    forall j :: 0 <= j < |w| ==> x <= w[j]
  }

  /** Name `i` is the heaviest and not under the cap; nobody is under the floor. */
  ghost predicate Topped(w: seq<real>, lo: real, hi: real, i: nat) {
    i < |w| && hi <= w[i] && forall j :: 0 <= j < |w| ==> lo <= w[j] <= w[i]
  }

  /** Name `i` is the lightest and not over the floor; nobody is over the cap. */
  ghost predicate Bottomed(w: seq<real>, lo: real, hi: real, i: nat) {
    i < |w| && w[i] <= lo && forall j :: 0 <= j < |w| ==> w[i] <= w[j] <= hi
  }

  /** At least an `x` share of `before` is left. */
  predicate Leaves(x: real, before: real, after: real) {
    x * before <= after
  }

  lemma NonNegativeProduct(x: real, y: real)
    requires 0.0 <= x && 0.0 <= y
    ensures 0.0 <= x * y
  {}

  lemma ExcessLeft(hi: real, e: real, s: real)
    requires 0.0 < hi && 0.0 <= e && 0.0 < s <= 1.0 - e
    ensures Leaves(hi, e, hi / s - hi)
  {
    var x := hi * e;
    NonNegativeProduct(hi, e);
    NonNegativeProduct(x, e);
    assert (hi + x) * (1.0 - e) == hi + x - hi * e - x * e;
    Widen(hi + x, s, 1.0 - e);
    Divided(hi + x, hi, s);
  }

  lemma Divided(m: real, x: real, s: real)
    requires 0.0 < s && m * s <= x
    ensures m <= x / s
  {
    CancelFactor(m, x / s, s);
  }

  lemma DividedBelow(m: real, x: real, s: real)
    requires 0.0 < s && x <= m * s
    ensures x / s <= m
  {
    CancelFactor(x / s, m, s);
  }

  lemma ShortfallLeft(lo: real, d: real, s: real)
    requires 0.0 <= d <= 1.0 && 0.0 <= lo && 1.0 + d <= s
    ensures Leaves(0.5 * lo, d, lo - lo / s)
  {
    var x := 0.5 * lo * d;
    NonNegativeProduct(0.5 * lo, d);
    NonNegativeProduct(0.5 * lo, 1.0 - d);
    NonNegativeProduct(x, 1.0 - d);
    assert x <= 0.5 * lo by {
      Widen(0.5 * lo, d, 1.0);
    }
    assert (lo - x) * (1.0 + d) == lo + lo * d - x - x * d;
    assert lo * d == 2.0 * x;
    assert x * (1.0 - d) == x - x * d;
    Widen(lo - x, 1.0 + d, s);
    DividedBelow(lo - x, lo, s);
  }

  /** A round leaves at least a `hi` share of what the heaviest name is over the cap. */
  lemma RoundKeepsExcess(w: seq<real>, lo: real, hi: real, i: nat)
    requires IsBook(w) && 0.0 <= lo <= hi && 0.0 < hi && Topped(w, lo, hi, i)
    ensures var v := Round(w, lo, hi);
            |v| == |w| && IsBook(v) && Topped(v, lo, hi, i) && Leaves(hi, w[i] - hi, v[i] - hi)
  {
    var c := Clamped(w, lo, hi);
    var s, v := Sum(c), Round(w, lo, hi);
    RoundIsBook(w, lo, hi);
    SumFalls(w, c, i);
    ExcessLeft(hi, w[i] - hi, s);
    ScaledUp(c, s, lo, i);
  }

  lemma ScaledUp(c: seq<real>, s: real, lo: real, i: nat)
    requires 0.0 < s <= 1.0 && 0.0 <= lo && i < |c| && forall j :: 0 <= j < |c| ==> lo <= c[j] <= c[i]
    ensures c[i] <= Scaled(c, s)[i]
    ensures forall j :: 0 <= j < |c| ==> lo <= Scaled(c, s)[j] <= Scaled(c, s)[i]
  {
    forall j | 0 <= j < |c| ensures c[j] <= Scaled(c, s)[j] <= Scaled(c, s)[i] {
      QuotientGrows(c[j], s);
      QuotientOrder(c[j], c[i], s);
    }
  }

  lemma ScaledDown(c: seq<real>, s: real, hi: real, i: nat)
    requires 1.0 <= s && i < |c| && forall j :: 0 <= j < |c| ==> 0.0 <= c[i] <= c[j] <= hi
    ensures Scaled(c, s)[i] <= c[i]
    ensures forall j :: 0 <= j < |c| ==> Scaled(c, s)[i] <= Scaled(c, s)[j] <= hi
  {
    forall j | 0 <= j < |c| ensures Scaled(c, s)[i] <= Scaled(c, s)[j] <= c[j] {
      QuotientGrows(c[j], s);
      QuotientOrder(c[i], c[j], s);
    }
  }

  /** And at least a `lo / 2` share of what the lightest name is under the floor. */
  lemma RoundKeepsShortfall(w: seq<real>, lo: real, hi: real, i: nat)
    requires IsBook(w) && 0.0 <= lo <= hi <= 1.0 && 0.0 < hi && Bottomed(w, lo, hi, i)
    ensures var v := Round(w, lo, hi);
            |v| == |w| && IsBook(v) && Bottomed(v, lo, hi, i) && Leaves(0.5 * lo, lo - w[i], lo - v[i])
  {
    var c := Clamped(w, lo, hi);
    var s, v := Sum(c), Round(w, lo, hi);
    RoundIsBook(w, lo, hi);
    SumFalls(c, w, i);
    ShortfallLeft(lo, lo - w[i], s);
    ScaledDown(c, s, hi, i);
  }

  /** `k` rounds leave at least an `x ** k` share. */
  predicate Kept(x: real, k: nat, before: real, after: real) {
    Leaves(Power(x, k), before, after)
  }

  lemma KeptChain(x: real, k: nat, d: real, e: real, f: real)
    requires 0 < k && 0.0 < x <= 1.0 && Leaves(x, d, e) && Kept(x, k - 1, e, f)
    ensures Kept(x, k, d, f)
  {
    PowerIsSmall(x, k - 1);
    Widen(Power(x, k - 1), x * d, e);
    Reordered(Power(x, k - 1), x, d);
  }

  lemma Reordered(p: real, x: real, d: real)
    ensures p * (x * d) == (x * p) * d
  {}

  lemma KeptAtOnce(x: real, k: nat, d: real, e: real)
    requires 0 < k && 0.0 < x <= 1.0 && Leaves(x, d, e) && 0.0 <= e
    ensures Kept(x, k, d, e)
  {
    PowerIsSmall(x, k - 1);
    Widen(e, Power(x, k - 1), 1.0);
    KeptChain(x, k, d, e, e);
  }

  lemma KeptIsPositive(x: real, k: nat, d: real, f: real)
    requires 0.0 < x <= 1.0 && 0.0 < d && Kept(x, k, d, f)
    ensures 0.0 < f
  {
    PowerIsSmall(x, k);
    PositiveProduct(Power(x, k), d);
  }

  lemma PositiveProduct(x: real, y: real)
    requires 0.0 < x && 0.0 < y
    ensures 0.0 < x * y
  {}

  lemma {:induction false} RoundsKeepExcess(w: seq<real>, lo: real, hi: real, i: nat, k: nat)
    requires IsBook(w) && 0.0 <= lo <= hi && 0.0 < hi <= 1.0 && Topped(w, lo, hi, i)
    ensures var v := Rounds(w, lo, hi, k);
            |v| == |w| && IsBook(v) && Topped(v, lo, hi, i) && Kept(hi, k, w[i] - hi, v[i] - hi)
    decreases k
  {
    if k > 0 {
      var v := Round(w, lo, hi);
      RoundKeepsExcess(w, lo, hi, i);
      if WithinBounds(v, lo, hi) {
        KeptAtOnce(hi, k, w[i] - hi, v[i] - hi);
      } else {
        RoundsKeepExcess(v, lo, hi, i, k - 1);
        KeptChain(hi, k, w[i] - hi, v[i] - hi, Rounds(v, lo, hi, k - 1)[i] - hi);
      }
    }
  }

  lemma {:induction false} RoundsKeepShortfall(w: seq<real>, lo: real, hi: real, i: nat, k: nat)
    requires IsBook(w) && 0.0 < lo <= hi <= 1.0 && Bottomed(w, lo, hi, i)
    ensures var v := Rounds(w, lo, hi, k);
            |v| == |w| && IsBook(v) && Bottomed(v, lo, hi, i) && Kept(0.5 * lo, k, lo - w[i], lo - v[i])
    decreases k
  {
    if k > 0 {
      var v := Round(w, lo, hi);
      RoundKeepsShortfall(w, lo, hi, i);
      if WithinBounds(v, lo, hi) {
        KeptAtOnce(0.5 * lo, k, lo - w[i], lo - v[i]);
      } else {
        RoundsKeepShortfall(v, lo, hi, i, k - 1);
        KeptChain(0.5 * lo, k, lo - w[i], lo - v[i], lo - Rounds(v, lo, hi, k - 1)[i]);
      }
    }
  }

  // ---- exactly when the cap and the floor hold, in the volatilities ----------------------------------------------------------

  /** A name's share of the inverse volatilities. */
  function InverseShare(vols: seq<Option<real>>, i: nat): real
    requires Measured(vols) && i < |vols|
  {
    PositiveSum(Inverse(vols));
    Inverse(vols)[i] / Sum(Inverse(vols))
  }

  lemma HybridOfShare(vols: seq<Option<real>>, i: nat)
    requires Measured(vols) && i < |vols|
    ensures |Hybrid(vols)| == |vols| && Hybrid(vols)[i] == 0.5 * (1.0 / |vols| as real + InverseShare(vols, i))
  {
    HybridIsBook(vols);
    HalfOfShare(Inverse(vols)[i], Sum(Inverse(vols)));
  }

  lemma HalfOfShare(x: real, tot: real)
    requires 0.0 < tot
    ensures 0.5 * x / tot == 0.5 * (x / tot)
  {}

  /** No name's share is so small that the floor would raise it. */
  ghost predicate NoneUnderFloor(vols: seq<Option<real>>, n: nat)
    requires Measured(vols)
  {
    forall j :: 0 <= j < |vols| ==> 2.0 * Low(n) - 1.0 / |vols| as real <= InverseShare(vols, j)
  }

  ghost predicate NoneOverCap(vols: seq<Option<real>>, n: nat)
    requires Measured(vols)
  {
    forall j :: 0 <= j < |vols| ==> InverseShare(vols, j) <= 2.0 * High(n) - 1.0 / |vols| as real
  }

  lemma SharesAndBounds(vols: seq<Option<real>>, n: nat)
    requires Measured(vols) && vols != []
    ensures |Hybrid(vols)| == |vols|
    ensures NoneUnderFloor(vols, n) <==> AllAtLeast(Hybrid(vols), Low(n))
    ensures NoneOverCap(vols, n) <==> AllAtMost(Hybrid(vols), High(n))
  {
    forall j | 0 <= j < |vols|
      ensures |Hybrid(vols)| == |vols| && Hybrid(vols)[j] == 0.5 * (1.0 / |vols| as real + InverseShare(vols, j))
    {
      HybridOfShare(vols, j);
    }
    HybridIsBook(vols);
  }

  /** From a book with nobody under the floor the rounds end at or under the cap exactly when they began so. */
  lemma CapHoldsFrom(h: seq<real>, lo: real, hi: real, k: nat)
    requires IsBook(h) && 0 < k && 0.0 <= lo <= hi <= 1.0 && 0.0 < hi && AllAtLeast(h, lo)
    ensures AllAtMost(Rounds(h, lo, hi, k), hi) <==> AllAtMost(h, hi)
  {
    var i := Heaviest(h);
    if h[i] <= hi {
      WithinStays(h, lo, hi, k);
    } else {
      RoundsKeepExcess(h, lo, hi, i, k);
      KeptIsPositive(hi, k, h[i] - hi, Rounds(h, lo, hi, k)[i] - hi);
    }
  }

  lemma FloorHoldsFrom(h: seq<real>, lo: real, hi: real, k: nat)
    requires IsBook(h) && 0 < k && 0.0 <= lo <= hi <= 1.0 && 0.0 < hi && AllAtMost(h, hi)
    ensures AllAtLeast(Rounds(h, lo, hi, k), lo) <==> AllAtLeast(h, lo)
  {
    var i := Lightest(h);
    if lo <= h[i] {
      WithinStays(h, lo, hi, k);
    } else {
      RoundsKeepShortfall(h, lo, hi, i, k);
      KeptIsPositive(0.5 * lo, k, lo - h[i], lo - Rounds(h, lo, hi, k)[i]);
    }
  }

  /** For a book of any number of names none of which starts under the floor: after all rounds every weight is at
      or under the cap exactly when every name's share of the inverse volatilities was at most twice the cap less
      an equal share.  Otherwise the rounds only approach it. */
  lemma CapHoldsIff(vols: seq<Option<real>>, n: nat)
    requires Measured(vols) && vols != [] && NoneUnderFloor(vols, n)
    ensures AllAtMost(Weights(vols, HybridWeight, n), High(n)) <==> NoneOverCap(vols, n)
  {
    SharesAndBounds(vols, n);
    HybridIsBook(vols);
    CapHoldsFrom(Hybrid(vols), Low(n), High(n), 8);
  }

  /** The same of the floor, when none starts over the cap. */
  lemma FloorHoldsIff(vols: seq<Option<real>>, n: nat)
    requires Measured(vols) && vols != [] && NoneOverCap(vols, n)
    ensures AllAtLeast(Weights(vols, HybridWeight, n), Low(n)) <==> NoneUnderFloor(vols, n)
  {
    SharesAndBounds(vols, n);
    HybridIsBook(vols);
    FloorHoldsFrom(Hybrid(vols), Low(n), High(n), 8);
  }

  /** Beyond the tolerance: with none under the floor and a name that starts 0.004 over the cap, the loop runs all
      eight rounds and the bound is still broken. */
  lemma EightRoundsAreNotEnough(vols: seq<Option<real>>, n: nat, i: nat)
    requires Measured(vols) && i < |vols| && NoneUnderFloor(vols, n)
    requires 2.0 * (High(n) + 0.004) - 1.0 / |vols| as real <= InverseShare(vols, i)
    ensures !WithinBounds(Weights(vols, HybridWeight, n), Low(n), High(n))
    ensures NeverStops(Hybrid(vols), Low(n), High(n), 8)
  {
    var h := Hybrid(vols);
    SharesAndBounds(vols, n);
    HybridOfShare(vols, i);
    HybridIsBook(vols);
    var top := Heaviest(h);
    RoundsKeepExcess(h, Low(n), High(n), top, 8);
    EighthPower();
    Widen(Power(High(n), 8), 0.004, h[top] - High(n));
    assert Weights(vols, HybridWeight, n)[top] > High(n) + TOLERANCE;
    BoundsHoldIffStopped(h, Low(n), High(n), 8);
  }

  lemma Heaviest(w: seq<real>) returns (i: nat)
    requires w != []
    ensures i < |w| && forall j :: 0 <= j < |w| ==> w[j] <= w[i]
  {
    i := 0;
    for k := 1 to |w|
      invariant i < k && forall j :: 0 <= j < k ==> w[j] <= w[i]
    {
      if w[i] < w[k] {
        i := k;
      }
    }
  }

  ghost predicate IsLightest(w: seq<real>, i: nat) {
    i < |w| && forall j :: 0 <= j < |w| ==> w[i] <= w[j]
  }

  lemma Lightest(w: seq<real>) returns (i: nat)
    requires w != []
    ensures IsLightest(w, i)
  {
    i := 0;
    for k := 1 to |w|
      invariant i < k && forall j :: 0 <= j < k ==> w[i] <= w[j]
    {
      if w[k] < w[i] {
        i := k;
      }
    }
  }

  // ---- five names ---------------------------------------------------------------------------------------------------------

  /** How far below the cap of a five-name book weight `i` lies. */
  function Gap(w: seq<real>, i: nat): real
    requires i < |w|
  {
    High(5) - w[i]
  }

  lemma FiveSum(w: seq<real>)
    requires |w| == 5
    ensures Sum(w) == w[0] + w[1] + w[2] + w[3] + w[4]
  {
    assert w[..4][..3] == w[..3] && w[..4][..3][..2] == w[..2] && w[..4][..3][..2][..1] == w[..1];
    assert w[..1][..0] == [];
    assert Sum(w[..1]) == w[0];
    assert Sum(w[..2]) == w[0] + w[1] by { assert w[..2][..1] == w[..1]; }
    assert Sum(w[..3]) == w[0] + w[1] + w[2] by { assert w[..3][..2] == w[..2]; }
    assert Sum(w[..4]) == w[0] + w[1] + w[2] + w[3];
  }

  /** The heaviest lies above the cap by a quarter of what the lightest lies below it. */
  lemma HeaviestExceeds(w: seq<real>, i: nat, j: nat)
    requires |w| == 5 && IsBook(w) && IsLightest(w, i)
    requires j < 5 && forall a :: 0 <= a < 5 ==> w[a] <= w[j]
    ensures High(5) + Gap(w, i) / 4.0 <= w[j] && 0.0 <= Gap(w, i)
  {
    FiveSum(w);
  }

  /** A five-name book whose lightest name starts below the cap ends with a name above it, by a fixed share
      of the initial gap: the eight rounds never reach the 0.20 bound. */
  lemma FiveNamesMissTheCap(vols: seq<Option<real>>, i: nat) returns (j: nat)
    requires Measured(vols) && |vols| == 5 && IsLightest(Hybrid(vols), i)
    ensures var w := Weights(vols, HybridWeight, 5);
            |w| == 5 && j < 5 && High(5) + 0.00000064 * Gap(Hybrid(vols), i) <= w[j]
  {
    HybridIsBook(vols);
    j := Heaviest(Hybrid(vols));
    HeaviestExceeds(Hybrid(vols), i, j);
    RoundsKeepExcess(Hybrid(vols), Low(5), High(5), j, 8);
    EighthPower();
  }

  /** So five names of a five-name book all stay at or under the cap exactly when their volatilities, with
      the stand-in for missing ones, are all equal. */
  lemma CapHoldsIffVolsEqual(vols: seq<Option<real>>)
    requires Measured(vols) && |vols| == 5
    ensures AllAtMost(Weights(vols, HybridWeight, 5), High(5))
       <==> (forall i, j :: 0 <= i < 5 && 0 <= j < 5 ==> Effective(vols, i) == Effective(vols, j))
  {
    WeightsAreABook(vols, HybridWeight, 5);
    if AllAtMost(Weights(vols, HybridWeight, 5), High(5)) {
      UnderCapMeansEqual(vols);
    }
    if forall i, j :: 0 <= i < 5 && 0 <= j < 5 ==> Effective(vols, i) == Effective(vols, j) {
      EqualMeansUnderCap(vols);
    }
  }

  lemma UnderCapMeansEqual(vols: seq<Option<real>>)
    requires Measured(vols) && |vols| == 5 && |Weights(vols, HybridWeight, 5)| == 5
    requires forall j :: 0 <= j < 5 ==> Weights(vols, HybridWeight, 5)[j] <= High(5)
    ensures forall i, j :: 0 <= i < 5 && 0 <= j < 5 ==> Effective(vols, i) == Effective(vols, j)
  {
    HybridIsBook(vols);
    var i := Lightest(Hybrid(vols));
    var k := FiveNamesMissTheCap(vols, i);
    AllAtCap(Hybrid(vols), i);
    forall a, b | 0 <= a < 5 && 0 <= b < 5 ensures Effective(vols, a) == Effective(vols, b) {
      EqualWeightsEqualVols(vols, a, b);
    }
  }

  lemma AllAtCap(h: seq<real>, i: nat)
    requires |h| == 5 && IsBook(h) && IsLightest(h, i) && Gap(h, i) <= 0.0
    ensures forall j :: 0 <= j < 5 ==> h[j] == High(5)
  {
    FiveSum(h);
  }

  lemma EqualMeansUnderCap(vols: seq<Option<real>>)
    requires Measured(vols) && |vols| == 5
    requires forall i, j :: 0 <= i < 5 && 0 <= j < 5 ==> Effective(vols, i) == Effective(vols, j)
    ensures |Weights(vols, HybridWeight, 5)| == 5
    ensures forall j :: 0 <= j < 5 ==> Weights(vols, HybridWeight, 5)[j] <= High(5)
  {
    var w := Weights(vols, HybridWeight, 5);
    WeightsAreABook(vols, HybridWeight, 5);
    FiveSum(w);
    forall j | 0 <= j < 5 ensures w[j] == w[0] {
      CalmerNamesWeighMore(vols, 5, j, 0);
      CalmerNamesWeighMore(vols, 5, 0, j);
    }
  }

  lemma EqualWeightsEqualVols(vols: seq<Option<real>>, a: nat, b: nat)
    requires Measured(vols) && vols != [] && a < |vols| && b < |vols|
    requires |Hybrid(vols)| == |vols| && Hybrid(vols)[a] == Hybrid(vols)[b]
    ensures Effective(vols, a) == Effective(vols, b)
  {
    if Effective(vols, a) <= Effective(vols, b) {
      LowerVolIsHeavier(vols, a, b);
    } else {
      LowerVolIsHeavier(vols, b, a);
    }
  }

  /** Beyond the tolerance: when the lightest name starts more than 0.0015625 under the cap, the loop runs
      all eight rounds and still breaks it. */
  lemma CapBrokenBeyondTolerance(vols: seq<Option<real>>, i: nat)
    requires Measured(vols) && |vols| == 5 && IsLightest(Hybrid(vols), i)
    requires Hybrid(vols)[i] < 0.1984375
    ensures !WithinBounds(Weights(vols, HybridWeight, 5), Low(5), High(5))
    ensures NeverStops(Hybrid(vols), Low(5), High(5), 8)
  {
    var j := FiveNamesMissTheCap(vols, i);
    assert Weights(vols, HybridWeight, 5)[j] > High(5) + TOLERANCE;
    BoundsHoldIffStopped(Hybrid(vols), Low(5), High(5), 8);
  }
}
