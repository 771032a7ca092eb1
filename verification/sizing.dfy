/** The sizing of a chosen book: half equal weight, half inverse volatility, clamped and renormalised. */
module Sizing {
  import opened Options
  import opened Reals

  // ---- sums ---------------------------------------------------------------------------------------------

  function Sum(w: seq<real>): real {
    if w == [] then 0.0 else Sum(w[..|w| - 1]) + w[|w| - 1]
  }

  function Scaled(w: seq<real>, s: real): (r: seq<real>)
    requires s != 0.0
    ensures |r| == |w| && forall i :: 0 <= i < |w| ==> r[i] == w[i] / s
  {
    seq(|w|, i requires 0 <= i < |w| => w[i] / s)
  }

  lemma {:induction false} ScaledSum(w: seq<real>, s: real)
    requires s != 0.0
    ensures Sum(Scaled(w, s)) == Sum(w) / s
  {
    if w != [] {
      var last := |w| - 1;
      ScaledSum(w[..last], s);
      assert Scaled(w, s)[..last] == Scaled(w[..last], s);
    }
  }

  ghost predicate Positive(w: seq<real>) {
    forall i :: 0 <= i < |w| ==> 0.0 < w[i]
  }

  lemma {:induction false} PositiveSum(w: seq<real>)
    requires Positive(w)
    ensures 0.0 <= Sum(w) && (w != [] ==> 0.0 < Sum(w))
  {
    if w != [] {
      PositiveSum(w[..|w| - 1]);
    }
  }

  /** Sums of values at most `m` each, and at least `m` each. */
  lemma {:induction false} SumBounds(w: seq<real>, m: real)
    ensures (forall i :: 0 <= i < |w| ==> w[i] <= m) ==> Sum(w) <= |w| as real * m
    ensures (forall i :: 0 <= i < |w| ==> m <= w[i]) ==> |w| as real * m <= Sum(w)
  {
    if w != [] {
      SumBounds(w[..|w| - 1], m);
    }
  }

  // ---- one round: clamp, then renormalise ---------------------------------------------------------------------

  function Clamp(lo: real, hi: real, x: real): real {
    var y := if lo < x then x else lo;
    if y < hi then y else hi
  }

  function Clamped(w: seq<real>, lo: real, hi: real): (r: seq<real>)
    ensures |r| == |w| && forall i :: 0 <= i < |w| ==> r[i] == Clamp(lo, hi, w[i])
  {
    seq(|w|, i requires 0 <= i < |w| => Clamp(lo, hi, w[i]))
  }

  /** A sum of zero is replaced by one before dividing. */
  function OrOne(s: real): (r: real)
    ensures r != 0.0
  {
    if s == 0.0 then 1.0 else s
  }

  function Round(w: seq<real>, lo: real, hi: real): seq<real> {
    Scaled(Clamped(w, lo, hi), OrOne(Sum(Clamped(w, lo, hi))))
  }

  const TOLERANCE := 0.000000001

  predicate WithinBounds(w: seq<real>, lo: real, hi: real) {
    forall i :: 0 <= i < |w| ==> lo - TOLERANCE <= w[i] <= hi + TOLERANCE
  }

  /** At most `k` rounds, stopping once all bounds hold. */
  function Rounds(w: seq<real>, lo: real, hi: real, k: nat): seq<real>
    decreases k
  {
    if k == 0 then w
    else
      var v := Round(w, lo, hi);
      if WithinBounds(v, lo, hi) then v else Rounds(v, lo, hi, k - 1)
  }

  // ---- from volatilities to weights ------------------------------------------------------------------------------

  predicate Ascending(s: seq<real>) {
    forall i, j :: 0 <= i < j < |s| ==> s[i] <= s[j]
  }

  function Insert(s: seq<real>, x: real): (r: seq<real>)
    ensures |r| == |s| + 1 && forall y :: y in r ==> y in s || y == x
  {
    if s == [] || s[|s| - 1] <= x then s + [x]
    else Insert(s[..|s| - 1], x) + [s[|s| - 1]]
  }

  function Sort(s: seq<real>): (r: seq<real>)
    ensures |r| == |s|
  {
    if s == [] then [] else Insert(Sort(s[..|s| - 1]), s[|s| - 1])
  }

  lemma {:induction false} InsertAscends(s: seq<real>, x: real)
    requires Ascending(s)
    ensures Ascending(Insert(s, x))
  {
    if s != [] && s[|s| - 1] > x {
      var last := |s| - 1;
      InsertAscends(s[..last], x);
      var front := Insert(s[..last], x);
      assert forall i :: 0 <= i < |front| ==> front[i] in s[..last] || front[i] == x;
      assert forall y :: y in s[..last] ==> y <= s[last];
    }
  }

  lemma {:induction false} InsertKeeps(s: seq<real>, x: real)
    ensures multiset(Insert(s, x)) == multiset(s) + multiset{x}
  {
    if s != [] && s[|s| - 1] > x {
      var last := |s| - 1;
      assert s == s[..last] + [s[last]];
      InsertKeeps(s[..last], x);
    }
  }

  lemma {:induction false} SortSorts(s: seq<real>)
    ensures Ascending(Sort(s)) && multiset(Sort(s)) == multiset(s)
  {
    if s != [] {
      var last := |s| - 1;
      assert s == s[..last] + [s[last]];
      SortSorts(s[..last]);
      InsertAscends(Sort(s[..last]), s[last]);
      InsertKeeps(Sort(s[..last]), s[last]);
    }
  }

  /** The middle value, or the mean of the two middle values. */
  function Median(s: seq<real>): real
    requires s != []
  {
    var r := Sort(s);
    if |r| % 2 == 1 then r[|r| / 2] else (r[|r| / 2 - 1] + r[|r| / 2]) / 2.0
  }

  lemma MedianIsPositive(s: seq<real>)
    requires s != [] && Positive(s)
    ensures 0.0 < Median(s)
  {
    var r := Sort(s);
    SortSorts(s);
    forall i | 0 <= i < |r| ensures 0.0 < r[i] {
      assert r[i] in multiset(r);
      assert r[i] in multiset(s);
    }
  }

  /** A measured volatility is positive; a name may have none. */
  ghost predicate Measured(vols: seq<Option<real>>) {
    forall i :: 0 <= i < |vols| && vols[i].Some? ==> 0.0 < vols[i].value
  }

  function Present(vols: seq<Option<real>>): (p: seq<real>)
    ensures Measured(vols) ==> Positive(p)
  {
    if vols == [] then []
    else
      var front := Present(vols[..|vols| - 1]);
      if vols[|vols| - 1].Some? then front + [vols[|vols| - 1].value] else front
  }

  /** What stands in for a missing volatility. */
  function Fallback(vols: seq<Option<real>>): (m: real)
    ensures Measured(vols) ==> 0.0 < m
  {
    var present := Present(vols);
    if present == [] then 1.0
    else
      assert Positive(present) ==> 0.0 < Median(present) by {
        if Positive(present) {
          MedianIsPositive(present);
        }
      }
      Median(present)
  }

  /** The volatility a name is sized by. */
  function Effective(vols: seq<Option<real>>, i: nat): (v: real)
    requires Measured(vols) && i < |vols|
    ensures 0.0 < v
  {
    if vols[i].Some? then vols[i].value else Fallback(vols)
  }

  function Inverse(vols: seq<Option<real>>): (inv: seq<real>)
    requires Measured(vols)
    ensures |inv| == |vols| && Positive(inv)
    ensures forall i :: 0 <= i < |vols| ==> inv[i] == 1.0 / Effective(vols, i)
  {
    seq(|vols|, i requires 0 <= i < |vols| => 1.0 / Effective(vols, i))
  }

  function Half(ew: real, x: real, tot: real): real
    requires tot != 0.0
  {
    0.5 * ew + 0.5 * x / tot
  }

  /** Half the equal weight plus half the share of `x`. */
  function Blend(x: seq<real>, ew: real, tot: real): (w: seq<real>)
    requires tot != 0.0
    ensures |w| == |x| && forall i :: 0 <= i < |x| ==> w[i] == Half(ew, x[i], tot)
  {
    seq(|x|, i requires 0 <= i < |x| => Half(ew, x[i], tot))
  }

  function Hybrid(vols: seq<Option<real>>): seq<real>
    requires Measured(vols) && vols != []
  {
    Blend(Inverse(vols), 1.0 / |vols| as real, OrOne(Sum(Inverse(vols))))
  }

  function EqualShares(k: nat): (w: seq<real>)
    requires 0 < k
    ensures |w| == k && forall i :: 0 <= i < k ==> w[i] == 1.0 / k as real
  {
    seq(k, _ => 1.0 / k as real)
  }

  datatype Scheme = EqualWeight | HybridWeight

  function Low(n: nat): real {
    if n == 5 then 0.0 else 0.075
  }

  function High(n: nat): real {
    if n == 5 then 0.20 else 0.15
  }

  function Weights(vols: seq<Option<real>>, scheme: Scheme, n: nat): seq<real>
    requires Measured(vols)
  {
    if vols == [] then []
    else if scheme.EqualWeight? then EqualShares(|vols|)
    else Rounds(Hybrid(vols), Low(n), High(n), 8)
  }

  // ---- the sizing as the code runs it ------------------------------------------------------------------------------

  /** `vols` holds the trailing volatility of each chosen name, in the order of the names. */
  method Weigh(vols: seq<Option<real>>, scheme: Scheme, n: nat) returns (w: seq<real>)
    requires Measured(vols)
    ensures w == Weights(vols, scheme, n)
  {
    if vols == [] {
      return [];
    }
    if scheme.EqualWeight? {
      return EqualShares(|vols|);
    }
    var inv := Inverse(vols);
    var tot := OrOne(Sum(inv));
    w := Blend(inv, 1.0 / |vols| as real, tot);
    w := ClampRounds(w, Low(n), High(n));
  }

  method ClampRounds(blended: seq<real>, lo: real, hi: real) returns (w: seq<real>)
    ensures w == Rounds(blended, lo, hi, 8)
  {
    w := blended;
    for k := 0 to 8
      invariant Rounds(w, lo, hi, 8 - k) == Rounds(blended, lo, hi, 8)
    {
      ghost var before := w;
      w := Clamped(w, lo, hi);
      w := Scaled(w, OrOne(Sum(w)));
      assert w == Round(before, lo, hi);
      if WithinBounds(w, lo, hi) {
        break;
      }
    }
  }

  // ---- weights are positive and sum to one ---------------------------------------------------------------------------

  ghost predicate IsBook(w: seq<real>) {
    w != [] && Positive(w) && Sum(w) == 1.0
  }

  lemma RoundIsBook(w: seq<real>, lo: real, hi: real)
    requires w != [] && Positive(w) && 0.0 < hi
    ensures IsBook(Round(w, lo, hi)) && |Round(w, lo, hi)| == |w|
    ensures 0.0 < Sum(Clamped(w, lo, hi))
  {
    var c := Clamped(w, lo, hi);
    assert Positive(c);
    PositiveSum(c);
    ScaledIsBook(c);
  }

  lemma ScaledIsBook(c: seq<real>)
    requires c != [] && Positive(c) && 0.0 < Sum(c)
    ensures IsBook(Scaled(c, Sum(c)))
  {
    var v := Scaled(c, Sum(c));
    ScaledSum(c, Sum(c));
    forall i | 0 <= i < |v| ensures 0.0 < v[i] {
      PositiveQuotient(c[i], Sum(c));
    }
    PositiveQuotient(Sum(c), Sum(c));
  }

  lemma PositiveQuotient(x: real, y: real)
    requires 0.0 < x && 0.0 < y
    ensures 0.0 < x / y && y / y == 1.0
  {
  }

  lemma {:induction false} RoundsAreBooks(w: seq<real>, lo: real, hi: real, k: nat)
    requires IsBook(w) && 0.0 < hi
    ensures IsBook(Rounds(w, lo, hi, k)) && |Rounds(w, lo, hi, k)| == |w|
    decreases k
  {
    if k > 0 {
      RoundIsBook(w, lo, hi);
      RoundsAreBooks(Round(w, lo, hi), lo, hi, k - 1);
    }
  }

  lemma {:induction false} BlendSum(x: seq<real>, ew: real, tot: real)
    requires tot != 0.0
    ensures Sum(Blend(x, ew, tot)) == 0.5 * (|x| as real * ew) + 0.5 * Sum(x) / tot
  {
    if x != [] {
      var last := |x| - 1;
      BlendSum(x[..last], ew, tot);
      assert Blend(x, ew, tot)[..last] == Blend(x[..last], ew, tot);
      OneMoreHalf(last as real, ew, Sum(x[..last]), x[last], tot);
    }
  }

  lemma OneMoreHalf(n: real, ew: real, sum: real, x: real, tot: real)
    requires tot != 0.0
    ensures 0.5 * (n * ew) + 0.5 * sum / tot + Half(ew, x, tot) == 0.5 * ((n + 1.0) * ew) + 0.5 * (sum + x) / tot
  {
    assert 0.5 * sum / tot + 0.5 * x / tot == (0.5 * sum + 0.5 * x) / tot;
  }

  lemma HybridIsBook(vols: seq<Option<real>>)
    requires Measured(vols) && vols != []
    ensures IsBook(Hybrid(vols)) && |Hybrid(vols)| == |vols| && 0.0 < Sum(Inverse(vols))
  {
    var inv := Inverse(vols);
    PositiveSum(inv);
    Reciprocal(|vols| as real);
    BlendIsBook(inv, 1.0 / |vols| as real);
  }

  lemma BlendIsBook(x: seq<real>, ew: real)
    requires x != [] && Positive(x) && 0.0 < Sum(x) && 0.0 < ew && |x| as real * ew == 1.0
    ensures IsBook(Blend(x, ew, Sum(x)))
  {
    BlendSum(x, ew, Sum(x));
    HalfOfOne(Sum(x));
    forall i | 0 <= i < |x| ensures 0.0 < Half(ew, x[i], Sum(x)) {
      HalfIsPositive(ew, x[i], Sum(x));
    }
  }

  lemma HalfOfOne(tot: real)
    requires 0.0 < tot
    ensures 0.5 * tot / tot == 0.5
  {
  }

  lemma HalfIsPositive(ew: real, x: real, tot: real)
    requires 0.0 < ew && 0.0 < x && 0.0 < tot
    ensures 0.0 < Half(ew, x, tot)
  {
    PositiveQuotient(0.5 * x, tot);
  }

  lemma {:induction false} SameSum(w: seq<real>, x: real)
    requires forall i :: 0 <= i < |w| ==> w[i] == x
    ensures Sum(w) == |w| as real * x
  {
    SumBounds(w, x);
  }

  /** Whatever the scheme, each chosen name gets a positive weight and the weights sum to exactly one. */
  lemma WeightsAreABook(vols: seq<Option<real>>, scheme: Scheme, n: nat)
    requires Measured(vols) && vols != []
    ensures IsBook(Weights(vols, scheme, n)) && |Weights(vols, scheme, n)| == |vols|
  {
    Reciprocal(|vols| as real);
    if scheme.EqualWeight? {
      SameSum(EqualShares(|vols|), 1.0 / |vols| as real);
    } else {
      HybridIsBook(vols);
      RoundsAreBooks(Hybrid(vols), Low(n), High(n), 8);
    }
  }

  // ---- order and ratios ------------------------------------------------------------------------------------------------

  /** From `a` to `b` every pair of weights keeps its order, and no ratio grows. */
  ghost predicate Narrows(a: seq<real>, b: seq<real>) {
    |a| == |b| && forall i, j :: 0 <= i < |a| && 0 <= j < |a| && a[j] <= a[i] ==> Closer(a[i], a[j], b[i], b[j])
  }

  /** `x2 : y2` is still in order, and no wider than `x : y`. */
  predicate Closer(x: real, y: real, x2: real, y2: real) {
    y2 <= x2 && x2 * y <= x * y2
  }

  lemma CloserTrans(x: real, y: real, x2: real, y2: real, x3: real, y3: real)
    requires 0.0 < y <= x && 0.0 < y2 && 0.0 < y3
    requires Closer(x, y, x2, y2) && Closer(x2, y2, x3, y3)
    ensures Closer(x, y, x3, y3)
  {
    assert (x3 * y2) * y <= (x2 * y3) * y;
    assert (x2 * y) * y3 <= (x * y2) * y3;
    assert (x3 * y) * y2 <= (x * y3) * y2;
    CancelFactor(x3 * y, x * y3, y2);
  }

  lemma CancelFactor(a: real, b: real, c: real)
    requires 0.0 < c && a * c <= b * c
    ensures a <= b
  {
  }

  lemma ClampNarrows(lo: real, hi: real, x: real, y: real)
    requires 0.0 <= lo <= hi && 0.0 < hi && 0.0 < y <= x
    ensures Closer(x, y, Clamp(lo, hi, x), Clamp(lo, hi, y))
  {
    var p, q := Clamp(lo, hi, x), Clamp(lo, hi, y);
    assert q <= p;
    if p <= x {
      if y <= q {
        assert p * y <= x * y <= x * q;
      } else {
        // `y` was cut to `hi`, so `x` was too.
        assert p == hi && q == hi;
        assert p * y <= p * x;
      }
    } else {
      // `x` was raised to `lo`, so `y` was too.
      assert p == lo && q == lo;
      assert p * y <= p * x;
    }
  }

  lemma RoundNarrows(w: seq<real>, lo: real, hi: real)
    requires w != [] && Positive(w) && 0.0 <= lo <= hi && 0.0 < hi
    ensures Narrows(w, Round(w, lo, hi))
  {
    RoundIsBook(w, lo, hi);
    var c, v := Clamped(w, lo, hi), Round(w, lo, hi);
    var s := Sum(c);
    forall i, j | 0 <= i < |w| && 0 <= j < |w| && w[j] <= w[i] ensures Closer(w[i], w[j], v[i], v[j]) {
      ClampNarrows(lo, hi, w[i], w[j]);
      ScaleKeepsCloser(w[i], w[j], c[i], c[j], s);
    }
  }

  lemma ScaleKeepsCloser(x: real, y: real, p: real, q: real, s: real)
    requires 0.0 < s && Closer(x, y, p, q)
    ensures Closer(x, y, p / s, q / s)
  {
    assert (p / s) * y == (p * y) / s && x * (q / s) == (x * q) / s;
  }

  lemma {:induction false} RoundsNarrow(w: seq<real>, lo: real, hi: real, k: nat)
    requires IsBook(w) && 0.0 <= lo <= hi && 0.0 < hi
    ensures Narrows(w, Rounds(w, lo, hi, k))
    decreases k
  {
    if k > 0 {
      var v := Round(w, lo, hi);
      RoundIsBook(w, lo, hi);
      RoundNarrows(w, lo, hi);
      if !WithinBounds(v, lo, hi) {
        RoundsNarrow(v, lo, hi, k - 1);
        RoundsAreBooks(v, lo, hi, k - 1);
        NarrowsTrans(w, v, Rounds(v, lo, hi, k - 1));
      }
    } else {
      assert forall i, j :: 0 <= i < |w| && 0 <= j < |w| && w[j] <= w[i] ==> Closer(w[i], w[j], w[i], w[j]);
    }
  }

  lemma NarrowsTrans(a: seq<real>, b: seq<real>, c: seq<real>)
    requires Positive(a) && Positive(b) && Positive(c) && Narrows(a, b) && Narrows(b, c)
    ensures Narrows(a, c)
  {
    forall i, j | 0 <= i < |a| && 0 <= j < |a| && a[j] <= a[i] ensures Closer(a[i], a[j], c[i], c[j]) {
      assert Closer(a[i], a[j], b[i], b[j]);
      CloserTrans(a[i], a[j], b[i], b[j], c[i], c[j]);
    }
  }

  lemma LowerVolIsHeavier(vols: seq<Option<real>>, i: nat, j: nat)
    requires Measured(vols) && i < |vols| && j < |vols|
    requires Effective(vols, i) <= Effective(vols, j)
    ensures Hybrid(vols)[j] <= Hybrid(vols)[i]
    ensures Effective(vols, i) < Effective(vols, j) ==> Hybrid(vols)[j] < Hybrid(vols)[i]
  {
    HybridIsBook(vols);
    var inv := Inverse(vols);
    InverseOrder(Effective(vols, i), Effective(vols, j));
    ShareOrder(inv[j], inv[i], Sum(inv));
  }

  lemma InverseOrder(a: real, b: real)
    requires 0.0 < a <= b
    ensures 1.0 / b <= 1.0 / a && (a < b ==> 1.0 / b < 1.0 / a)
  {
    assert 1.0 / a - 1.0 / b == (b - a) / (a * b);
    if a < b {
      PositiveQuotient(b - a, a * b);
    }
  }

  lemma ShareOrder(x: real, y: real, tot: real)
    requires 0.0 < tot && x <= y
    ensures 0.5 * x / tot <= 0.5 * y / tot && (x < y ==> 0.5 * x / tot < 0.5 * y / tot)
  {
    assert 0.5 * y / tot - 0.5 * x / tot == 0.5 * (y - x) / tot;
  }

  /** Across all rounds: a name of no larger volatility never gets a smaller weight, and clamping only
      brings the weights of any two names closer in ratio. */
  lemma CalmerNamesWeighMore(vols: seq<Option<real>>, n: nat, i: nat, j: nat)
    requires Measured(vols) && i < |vols| && j < |vols|
    requires Effective(vols, i) <= Effective(vols, j)
    ensures var w, h := Weights(vols, HybridWeight, n), Hybrid(vols);
            && |w| == |vols| && |h| == |vols|
            && Closer(h[i], h[j], w[i], w[j])
  {
    HybridIsBook(vols);
    LowerVolIsHeavier(vols, i, j);
    RoundsNarrowAt(Hybrid(vols), Low(n), High(n), i, j);
  }

  lemma RoundsNarrowAt(h: seq<real>, lo: real, hi: real, i: nat, j: nat)
    requires IsBook(h) && 0.0 <= lo <= hi && 0.0 < hi
    requires i < |h| && j < |h| && h[j] <= h[i]
    ensures var w := Rounds(h, lo, hi, 8);
            |w| == |h| && Closer(h[i], h[j], w[i], w[j])
  {
    RoundsNarrow(h, lo, hi, 8);
  }
}
