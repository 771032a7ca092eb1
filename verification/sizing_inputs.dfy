/** What a book is sized by: each name's own volatility, the middle one of the others for a name that has none, and,
    while no bound is touched, half an equal share and half a share of the inverse volatilities. */
module SizingInputs {
  import opened Options
  import opened Reals
  import opened Sizing
  import opened SizingBounds

  // ---- the volatility that stands in ---------------------------------------------------------------------------

  /** The volatilities behind the fallback are those of the measured names, each of them once. */
  lemma {:induction false} PresentAreMeasured(vols: seq<Option<real>>) returns (at: seq<nat>)
    ensures |at| == |Present(vols)|
    ensures forall k :: 0 <= k < |at| ==> at[k] < |vols| && vols[at[k]] == Some(Present(vols)[k])
    ensures forall k, l :: 0 <= k < l < |at| ==> at[k] < at[l]
    ensures forall i: nat :: i < |vols| && vols[i].Some? ==> i in at
  {
    at := [];
    if vols != [] {
      var last := |vols| - 1;
      at := PresentAreMeasured(vols[..last]);
      if vols[last].Some? { at := at + [last]; }
    }
  }

  /** No value of the one is above `m`, and none of the other below it. */
  ghost predicate Around(lower: seq<real>, m: real, upper: seq<real>) {
    && (forall k :: 0 <= k < |lower| ==> lower[k] <= m)
    && (forall k :: 0 <= k < |upper| ==> m <= upper[k])
  }

  /** Two halves of one size with the middle value between them, or the two values that meet in the middle. */
  ghost predicate Parts(s: seq<real>, lower: seq<real>, a: real, b: real, upper: seq<real>) {
    && |lower| == |upper| && a <= b && Around(lower, a, upper) && Around(lower, b, upper)
    && if |s| % 2 == 1 then a == b && multiset(s) == multiset(lower) + multiset{a} + multiset(upper)
       else multiset(s) == multiset(lower) + multiset{a, b} + multiset(upper)
  }

  /** The median is the value in the middle, or halfway between the two. */
  lemma MedianIsMiddle(s: seq<real>) returns (lower: seq<real>, a: real, b: real, upper: seq<real>)
    requires s != []
    ensures Parts(s, lower, a, b, upper) && Median(s) == (a + b) / 2.0
  {
    SortSorts(s);
    var r, h := Sort(s), |s| / 2;
    if |s| % 2 == 1 {
      OddParts(s, r, h);
      lower, a, b, upper := r[..h], r[h], r[h], r[h + 1..];
    } else {
      EvenParts(s, r, h);
      lower, a, b, upper := r[..h - 1], r[h - 1], r[h], r[h + 1..];
    }
  }

  lemma OddParts(s: seq<real>, r: seq<real>, h: nat)
    requires Ascending(r) && multiset(r) == multiset(s) && |r| == |s| == 2 * h + 1 && |s| % 2 == 1
    ensures Parts(s, r[..h], r[h], r[h], r[h + 1..])
  {
    PartsOf(r, h, h + 1);
    assert r[h..h + 1] == [r[h]];
    assert |r[..h]| == |r[h + 1..]|;
    AroundSplit(r, h, h + 1);
  }

  lemma EvenParts(s: seq<real>, r: seq<real>, h: nat)
    requires Ascending(r) && multiset(r) == multiset(s) && |r| == |s| == 2 * h && 0 < h && |s| % 2 == 0
    ensures Parts(s, r[..h - 1], r[h - 1], r[h], r[h + 1..])
  {
    PartsOf(r, h - 1, h + 1);
    assert r[h - 1..h + 1] == [r[h - 1], r[h]];
    AroundSplit(r, h - 1, h + 1);
  }

  lemma PartsOf(r: seq<real>, i: nat, j: nat)
    requires i <= j <= |r|
    ensures multiset(r) == multiset(r[..i]) + multiset(r[i..j]) + multiset(r[j..])
  {
    assert r == r[..i] + r[i..j] + r[j..];
  }

  lemma AroundSplit(r: seq<real>, i: nat, j: nat)
    requires Ascending(r) && i < j <= |r|
    ensures Around(r[..i], r[i], r[j..]) && Around(r[..i], r[j - 1], r[j..]) && r[i] <= r[j - 1]
  {}

  /** A name without a volatility is sized by the median of the measured ones. */
  lemma FallbackIsMedian(vols: seq<Option<real>>)
    requires Present(vols) != []
    ensures Fallback(vols) == Median(Present(vols))
  {}

  // ---- the weights ------------------------------------------------------------------------------------------------

  /** The volatilities the names are sized by. */
  function Sizes(vols: seq<Option<real>>): (vs: seq<real>)
    requires Measured(vols)
    ensures |vs| == |vols|
    ensures forall i :: 0 <= i < |vols| ==> vs[i] == if vols[i].Some? then vols[i].value else Fallback(vols)
    ensures forall i :: 0 <= i < |vols| ==> 0.0 < vs[i]
  {
    seq(|vols|, i requires 0 <= i < |vols| => if vols[i].Some? then vols[i].value else Fallback(vols))
  }

  function Reciprocals(vs: seq<real>): (r: seq<real>)
    requires forall i :: 0 <= i < |vs| ==> 0.0 < vs[i]
    ensures |r| == |vs| && forall i :: 0 <= i < |vs| ==> r[i] == 1.0 / vs[i] && 0.0 < r[i]
  {
    seq(|vs|, i requires 0 <= i < |vs| => 1.0 / vs[i])
  }

  function TotalInverse(vs: seq<real>): (total: real)
    requires forall i :: 0 <= i < |vs| ==> 0.0 < vs[i]
    ensures vs != [] ==> 0.0 < total
  {
    PositiveSum(Reciprocals(vs));
    Sum(Reciprocals(vs))
  }

  /** Half an equal share and half a share of the inverse volatilities. */
  function HalfAndHalf(vs: seq<real>, i: nat): real
    requires i < |vs| && forall j :: 0 <= j < |vs| ==> 0.0 < vs[j]
  {
    0.5 * (1.0 / |vs| as real) + 0.5 * (1.0 / vs[i] / TotalInverse(vs))
  }

  lemma HybridIsHalfAndHalf(vols: seq<Option<real>>, i: nat)
    requires Measured(vols) && i < |vols|
    ensures |Hybrid(vols)| == |vols| && Hybrid(vols)[i] == HalfAndHalf(Sizes(vols), i)
  {
    assert Inverse(vols) == Reciprocals(Sizes(vols));
    HybridOfShare(vols, i);
  }

  /** Where those lie between 0 and 0.20 for the five-name book, between 0.075 and 0.15 for the others, they are the
      weights. */
  lemma UntouchedWeights(vols: seq<Option<real>>, n: nat)
    requires Measured(vols) && vols != []
    requires forall i :: 0 <= i < |vols| ==>
               if n == 5 then 0.0 <= HalfAndHalf(Sizes(vols), i) <= 0.20
               else 0.075 <= HalfAndHalf(Sizes(vols), i) <= 0.15
    ensures |Weights(vols, HybridWeight, n)| == |vols|
    ensures forall i :: 0 <= i < |vols| ==> Weights(vols, HybridWeight, n)[i] == HalfAndHalf(Sizes(vols), i)
  {
    var h := Hybrid(vols);
    HybridIsBook(vols);
    forall i | 0 <= i < |h| ensures h[i] == HalfAndHalf(Sizes(vols), i) && Low(n) <= h[i] <= High(n) {
      HybridIsHalfAndHalf(vols, i);
    }
    WithinStays(h, Low(n), High(n), 8);
  }

  /** Under the equal scheme every name gets one share of as many. */
  lemma EqualWeightsAreEqual(vols: seq<Option<real>>, n: nat, i: nat)
    requires Measured(vols) && i < |vols|
    ensures |Weights(vols, EqualWeight, n)| == |vols|
    ensures Weights(vols, EqualWeight, n)[i] == 1.0 / |vols| as real
  {}
}
