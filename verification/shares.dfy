/** Cap-aware order sizing: the tightest of the account's caps, quantised to whole shares. */
module Shares {
  import opened Options

  /** The account's limits; an absent limit caps nothing. */
  datatype Limits = Limits(maxQty: Option<real>, maxNotional: Option<real>, maxGross: Option<real>)

  function Max(a: real, b: real): real {
    if a < b then b else a
  }

  function Min(a: real, b: real): real {
    if b < a then b else a
  }

  function Capped(limit: Option<real>, cap: real -> real): seq<real> {
    if limit.Some? then [cap(limit.value)] else []
  }

  /** The caps in shares, in the order they are collected. */
  function Caps(price: real, limits: Limits, grossUsed: real, buyingPower: real, ceiling: real): (caps: seq<real>)
    requires 0.0 < price
    ensures 0 < |caps|
  {
    [ceiling / price]
    + Capped(limits.maxQty, q => q)
    + Capped(limits.maxNotional, n => n / price)
    + Capped(limits.maxGross, g => Max(0.0, g - grossUsed) / price)
    + [Max(0.0, buyingPower) / price]
  }

  function Tightest(caps: seq<real>): (m: real)
    requires 0 < |caps|
    ensures m in caps && forall c :: c in caps ==> m <= c
  {
    assert caps == caps[..|caps| - 1] + [caps[|caps| - 1]];
    if |caps| == 1 then caps[0] else Min(Tightest(caps[..|caps| - 1]), caps[|caps| - 1])
  }

  /** `Decimal.quantize(D("1"))`: to the nearest integer, ties to the even one. */
  function HalfEven(x: real): int {
    var f := x.Floor;
    if RoundsUp(x) then f + 1 else f
  }

  predicate RoundsUp(x: real) {
    var f := x.Floor;
    var rest := x - f as real;
    rest > 0.5 || (rest == 0.5 && f % 2 == 1)
  }

  function AdmissibleShares(price: real, limits: Limits, grossUsed: real, buyingPower: real, ceiling: real): nat {
    if price <= 0.0 then 0
    else
      var shares := HalfEven(Tightest(Caps(price, limits, grossUsed, buyingPower, ceiling)));
      if shares < 0 then 0 else shares
  }

  // ---- rounding ----------------------------------------------------------------------------------------

  /** The result is a nearest integer, and of two nearest ones the even one. */
  lemma HalfEvenIsNearest(x: real, n: int)
    ensures -0.5 <= HalfEven(x) as real - x <= 0.5
    ensures -0.5 < n as real - x < 0.5 ==> n == HalfEven(x)
    ensures (n as real - x == 0.5 || x - n as real == 0.5) && n % 2 == 0 ==> n == HalfEven(x)
  {
    var f := x.Floor;
    assert f as real <= x < (f + 1) as real;
    if n as real - x == 0.5 {
      assert n == f + 1;
    } else if x - n as real == 0.5 {
      assert n == f;
    }
  }

  lemma HalfEvenMonotone(x: real, y: real)
    requires x <= y
    ensures HalfEven(x) <= HalfEven(y)
  {
    assert x.Floor <= y.Floor;
  }

  // ---- the order and its caps -----------------------------------------------------------------------------

  /** The order overshoots a cap by half a share at the most. */
  lemma WithinHalfAShare(price: real, limits: Limits, grossUsed: real, buyingPower: real, ceiling: real, cap: real)
    requires 0.0 < price && cap in Caps(price, limits, grossUsed, buyingPower, ceiling)
    ensures var n := AdmissibleShares(price, limits, grossUsed, buyingPower, ceiling);
            n == 0 || n as real <= cap + 0.5
  {
    HalfEvenIsNearest(Tightest(Caps(price, limits, grossUsed, buyingPower, ceiling)), 0);
  }

  /** So many shares at this price are worth at most the ceiling and half a share more. */
  predicate NearCeiling(shares: real, price: real, ceiling: real) {
    shares * price <= ceiling + price / 2.0
  }

  /** An order's notional overshoots the ceiling by at most half a share's price. */
  lemma NotionalNearCeiling(price: real, limits: Limits, grossUsed: real, buyingPower: real, ceiling: real)
    requires 0 < AdmissibleShares(price, limits, grossUsed, buyingPower, ceiling)
    ensures 0.0 < price
    ensures NearCeiling(AdmissibleShares(price, limits, grossUsed, buyingPower, ceiling) as real, price, ceiling)
  {
    var caps := Caps(price, limits, grossUsed, buyingPower, ceiling);
    var n := AdmissibleShares(price, limits, grossUsed, buyingPower, ceiling) as real;
    assert caps[0] == ceiling / price;
    WithinHalfAShare(price, limits, grossUsed, buyingPower, ceiling, caps[0]);
    Notional(n, ceiling, price);
  }

  lemma Notional(n: real, ceiling: real, price: real)
    requires 0.0 < price && n <= ceiling / price + 0.5
    ensures NearCeiling(n, price, ceiling)
  {
    assert (ceiling / price) * price == ceiling;
    MulKeepsOrder(n, ceiling / price + 0.5, price);
  }

  lemma MulKeepsOrder(a: real, b: real, c: real)
    requires a <= b && 0.0 <= c
    ensures a * c <= b * c
  {}

  lemma CancelKeepsOrder(a: real, b: real, c: real)
    requires a * c <= b * c && 0.0 < c
    ensures a <= b
  {}

  lemma DivKeepsOrder(a: real, b: real, c: real)
    requires a <= b && 0.0 < c
    ensures a / c <= b / c
  {
    assert (a / c) * c == a && (b / c) * c == b;
    CancelKeepsOrder(a / c, b / c, c);
  }

  lemma DivByMore(a: real, c: real, d: real)
    requires 0.0 <= a && 0.0 < c <= d
    ensures a / d <= a / c
  {
    assert (a / d) * d == a && (a / c) * c == a;
    DivKeepsOrder(0.0, a, d);
    MulKeepsOrder(c, d, a / d);
    CancelKeepsOrder(a / d, a / c, c);
  }

  /** The account `looser` allows at least what `tighter` does. */
  predicate NoTighter(tighter: Option<real>, looser: Option<real>) {
    looser.None? || (tighter.Some? && tighter.value <= looser.value)
  }

  /** Every cap of the second list has one in the first that is no larger. */
  ghost predicate Dominated(tight: seq<real>, loose: seq<real>) {
    forall j :: 0 <= j < |loose| ==> HasBelow(tight, loose[j])
  }

  ghost predicate HasBelow(caps: seq<real>, x: real) {
    exists i :: 0 <= i < |caps| && caps[i] <= x
  }

  lemma DominatedTightest(tight: seq<real>, loose: seq<real>)
    requires 0 < |tight| && 0 < |loose| && Dominated(tight, loose)
    ensures Tightest(tight) <= Tightest(loose)
  {
    var j :| 0 <= j < |loose| && loose[j] == Tightest(loose);
    assert HasBelow(tight, loose[j]);
    var i :| 0 <= i < |tight| && tight[i] <= loose[j];
    assert tight[i] in tight;
  }

  lemma DominatedConcat(a: seq<real>, b: seq<real>, c: seq<real>, d: seq<real>)
    requires Dominated(a, b) && Dominated(c, d)
    ensures Dominated(a + c, b + d)
  {
    forall j | 0 <= j < |b + d| ensures HasBelow(a + c, (b + d)[j]) {
      if j < |b| {
        assert HasBelow(a, b[j]);
        var i :| 0 <= i < |a| && a[i] <= b[j];
        assert (a + c)[i] <= b[j];
      } else {
        assert HasBelow(c, d[j - |b|]);
        var i :| 0 <= i < |c| && c[i] <= d[j - |b|];
        assert (a + c)[|a| + i] <= d[j - |b|];
      }
    }
  }

  /** Relaxing any limit, adding buying power, raising the ceiling or freeing gross exposure never shrinks
      the order. */
  lemma MonotoneInLimits(price: real, l: Limits, m: Limits, gross: real, gross': real,
                         power: real, power': real, ceiling: real, ceiling': real)
    requires NoTighter(l.maxQty, m.maxQty) && NoTighter(l.maxNotional, m.maxNotional) && NoTighter(l.maxGross, m.maxGross)
    requires gross' <= gross && power <= power' && ceiling <= ceiling'
    ensures AdmissibleShares(price, l, gross, power, ceiling) <= AdmissibleShares(price, m, gross', power', ceiling')
  {
    if 0.0 < price {
      var a, b := Caps(price, l, gross, power, ceiling), Caps(price, m, gross', power', ceiling');
      DivKeepsOrder(ceiling, ceiling', price);
      DivKeepsOrder(Max(0.0, power), Max(0.0, power'), price);
      if l.maxNotional.Some? && m.maxNotional.Some? { DivKeepsOrder(l.maxNotional.value, m.maxNotional.value, price); }
      if l.maxGross.Some? && m.maxGross.Some? {
        DivKeepsOrder(Max(0.0, l.maxGross.value - gross), Max(0.0, m.maxGross.value - gross'), price);
      }
      CapsDominated(price, price, l, m, gross, gross', power, power', ceiling, ceiling');
      DominatedTightest(a, b);
      HalfEvenMonotone(Tightest(a), Tightest(b));
    }
  }

  /** Cap by cap: the caps of the first account stay below those of the second. */
  lemma CapsDominated(p: real, p': real, l: Limits, m: Limits, gross: real, gross': real,
                      power: real, power': real, ceiling: real, ceiling': real)
    requires 0.0 < p && 0.0 < p'
    requires NoTighter(l.maxQty, m.maxQty)
    requires NoTighter(l.maxNotional, m.maxNotional) && NoTighter(l.maxGross, m.maxGross)
    requires ceiling / p <= ceiling' / p' && Max(0.0, power) / p <= Max(0.0, power') / p'
    requires l.maxNotional.Some? && m.maxNotional.Some? ==> l.maxNotional.value / p <= m.maxNotional.value / p'
    requires l.maxGross.Some? && m.maxGross.Some? ==>
               Max(0.0, l.maxGross.value - gross) / p <= Max(0.0, m.maxGross.value - gross') / p'
    ensures Dominated(Caps(p, l, gross, power, ceiling), Caps(p', m, gross', power', ceiling'))
  {
    var a1, b1 := [ceiling / p], [ceiling' / p'];
    var a2, b2 := Capped(l.maxQty, q => q), Capped(m.maxQty, q => q);
    var a3, b3 := Capped(l.maxNotional, n => n / p), Capped(m.maxNotional, n => n / p');
    var a4 := Capped(l.maxGross, g => Max(0.0, g - gross) / p);
    var b4 := Capped(m.maxGross, g => Max(0.0, g - gross') / p');
    var a5, b5 := [Max(0.0, power) / p], [Max(0.0, power') / p'];
    DominatedOne(a1, b1);
    DominatedOne(a2, b2);
    DominatedOne(a3, b3);
    DominatedOne(a4, b4);
    DominatedOne(a5, b5);
    DominatedConcat(a1, b1, a2, b2);
    DominatedConcat(a1 + a2, b1 + b2, a3, b3);
    DominatedConcat(a1 + a2 + a3, b1 + b2 + b3, a4, b4);
    DominatedConcat(a1 + a2 + a3 + a4, b1 + b2 + b3 + b4, a5, b5);
  }

  lemma DominatedOne(a: seq<real>, b: seq<real>)
    requires |b| <= |a| <= 1 && (|b| == 1 ==> a[0] <= b[0])
    ensures Dominated(a, b)
  {
    forall j | 0 <= j < |b| ensures HasBelow(a, b[j]) {
      assert a[0] <= b[j];
    }
  }

  /** A dearer share is never bought in larger number. */
  lemma AntitoneInPrice(price: real, dearer: real, l: Limits, gross: real, power: real, ceiling: real)
    requires 0.0 < price <= dearer
    ensures AdmissibleShares(dearer, l, gross, power, ceiling) <= AdmissibleShares(price, l, gross, power, ceiling)
  {
    if ceiling < 0.0 {
      NegativeCapBuysNothing(dearer, l, gross, power, ceiling, ceiling);
    } else if l.maxNotional.Some? && l.maxNotional.value < 0.0 {
      NegativeCapBuysNothing(dearer, l, gross, power, ceiling, l.maxNotional.value);
    } else {
      AntitoneWithCaps(price, dearer, l, gross, power, ceiling);
    }
  }

  /** A negative ceiling or notional limit admits no share at any price. */
  lemma NegativeCapBuysNothing(price: real, l: Limits, gross: real, power: real, ceiling: real, limit: real)
    requires 0.0 < price && limit < 0.0 && (limit == ceiling || l.maxNotional == Some(limit))
    ensures AdmissibleShares(price, l, gross, power, ceiling) == 0
  {
    var caps := Caps(price, l, gross, power, ceiling);
    CancelNegative(limit, price);
    assert caps[0] == ceiling / price;
    assert l.maxNotional == Some(limit) ==> Capped(l.maxNotional, n => n / price)[0] in caps;
    assert limit / price in caps;
    assert Tightest(caps) < 0.0;
  }

  lemma CancelNegative(a: real, c: real)
    requires a < 0.0 < c
    ensures a / c < 0.0
  {
    assert (a / c) * c == a;
  }

  lemma AntitoneWithCaps(price: real, dearer: real, l: Limits, gross: real, power: real, ceiling: real)
    requires 0.0 < price <= dearer && 0.0 <= ceiling
    requires l.maxNotional.Some? ==> 0.0 <= l.maxNotional.value
    ensures AdmissibleShares(dearer, l, gross, power, ceiling) <= AdmissibleShares(price, l, gross, power, ceiling)
  {
    var a, b := Caps(dearer, l, gross, power, ceiling), Caps(price, l, gross, power, ceiling);
    DivByMore(ceiling, price, dearer);
    DivByMore(Max(0.0, power), price, dearer);
    if l.maxNotional.Some? { DivByMore(l.maxNotional.value, price, dearer); }
    if l.maxGross.Some? { DivByMore(Max(0.0, l.maxGross.value - gross), price, dearer); }
    CapsDominated(dearer, price, l, l, gross, gross, power, power, ceiling, ceiling);
    DominatedTightest(a, b);
    HalfEvenMonotone(Tightest(a), Tightest(b));
  }

  // ---- "the largest order the account's own limits admit" -------------------------------------------------------

  ghost predicate Admitted(n: int, caps: seq<real>) {
    0 <= n && forall c :: c in caps ==> n as real <= c
  }

  /** That is what the function promises, and it keeps the promise exactly when the tightest cap is not
      negative and does not round up; then the result is the largest whole number of shares within every cap. */
  lemma AdmittedIff(price: real, limits: Limits, grossUsed: real, buyingPower: real, ceiling: real)
    requires 0.0 < price
    ensures var caps := Caps(price, limits, grossUsed, buyingPower, ceiling);
            var n := AdmissibleShares(price, limits, grossUsed, buyingPower, ceiling);
            && (Admitted(n, caps) <==> 0.0 <= Tightest(caps) && !RoundsUp(Tightest(caps)))
            && (Admitted(n, caps) ==> forall m: int :: Admitted(m, caps) ==> m <= n)
  {
    var caps := Caps(price, limits, grossUsed, buyingPower, ceiling);
    var t := Tightest(caps);
    var n := AdmissibleShares(price, limits, grossUsed, buyingPower, ceiling);
    assert forall m: int :: Admitted(m, caps) <==> 0 <= m && m as real <= t;
    assert t.Floor as real <= t < (t.Floor + 1) as real;
  }

  /** The driver's default ceiling of 25000 with a share at 9: 2778 shares, 25002 of notional. */
  lemma OvershootWitness()
    ensures var n := AdmissibleShares(9.0, Limits(None, None, None), 0.0, 100000.0, 25000.0);
            n == 2778 && n as real * 9.0 > 25000.0
  {
    var caps := Caps(9.0, Limits(None, None, None), 0.0, 100000.0, 25000.0);
    assert caps == [25000.0 / 9.0, 100000.0 / 9.0];
    var t := Tightest(caps);
    assert t == 25000.0 / 9.0;
    assert 2777.5 < t < 2778.0;
    assert t.Floor == 2777;
  }
}
