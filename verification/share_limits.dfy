/** The sized order against the account's limits themselves, without the list of caps. */
module ShareLimits {
  import opened Options
  import opened Shares

  /** `x` shares at this price are within the ceiling, within every limit the account has, within what its gross
      limit leaves, and within its buying power. */
  predicate Affords(x: real, price: real, limits: Limits, grossUsed: real, buyingPower: real, ceiling: real) {
    && x * price <= ceiling
    && (limits.maxQty.Some? ==> x <= limits.maxQty.value)
    && (limits.maxNotional.Some? ==> x * price <= limits.maxNotional.value)
    && (limits.maxGross.Some? ==> WithinRest(x * price, limits.maxGross.value - grossUsed))
    && WithinRest(x * price, buyingPower)
  }

  /** At most what is left, or nothing when nothing is left. */
  predicate WithinRest(notional: real, rest: real) {
    notional <= (if rest < 0.0 then 0.0 else rest)
  }

  lemma QuotientAgainst(x: real, y: real, price: real)
    requires 0.0 < price
    ensures x <= y / price <==> x * price <= y
  {
    assert (y / price) * price == y;
    if x <= y / price { MulKeepsOrder(x, y / price, price); }
    if x * price <= y { CancelKeepsOrder(x, y / price, price); }
  }

  lemma CappedIff(x: real, limit: Option<real>, cap: real -> real)
    ensures UnderAll(x, Capped(limit, cap)) <==> (limit.Some? ==> x <= cap(limit.value))
  {
    if limit.Some? { UnderOne(x, cap(limit.value)); }
  }

  ghost predicate UnderAll(x: real, caps: seq<real>) {
    forall c :: c in caps ==> x <= c
  }

  lemma UnderBoth(x: real, a: seq<real>, b: seq<real>)
    ensures UnderAll(x, a + b) <==> UnderAll(x, a) && UnderAll(x, b)
  {
    assert forall c :: c in a + b <==> c in a || c in b;
  }

  lemma UnderOne(x: real, c: real)
    ensures UnderAll(x, [c]) <==> x <= c
  {
    assert c in [c];
  }

  /** A number of shares is affordable exactly up to the tightest cap. */
  lemma AffordsIff(x: real, price: real, limits: Limits, grossUsed: real, buyingPower: real, ceiling: real)
    requires 0.0 < price
    ensures Affords(x, price, limits, grossUsed, buyingPower, ceiling)
            <==> x <= Tightest(Caps(price, limits, grossUsed, buyingPower, ceiling))
  {
    var caps := Caps(price, limits, grossUsed, buyingPower, ceiling);
    UnderCapsIff(x, price, limits, grossUsed, buyingPower, ceiling);
    assert UnderAll(x, caps) <==> x <= Tightest(caps);
  }

  lemma UnderCapsIff(x: real, price: real, limits: Limits, grossUsed: real, buyingPower: real, ceiling: real)
    requires 0.0 < price
    ensures UnderAll(x, Caps(price, limits, grossUsed, buyingPower, ceiling))
            <==> Affords(x, price, limits, grossUsed, buyingPower, ceiling)
  {
    var c1 := [ceiling / price];
    var c2 := Capped(limits.maxQty, q => q);
    var c3 := Capped(limits.maxNotional, n => n / price);
    var c4 := Capped(limits.maxGross, g => Max(0.0, g - grossUsed) / price);
    var c5 := [Max(0.0, buyingPower) / price];
    UnderBoth(x, c1 + c2 + c3 + c4, c5);
    UnderBoth(x, c1 + c2 + c3, c4);
    UnderBoth(x, c1 + c2, c3);
    UnderBoth(x, c1, c2);
    UnderOne(x, ceiling / price);
    UnderOne(x, Max(0.0, buyingPower) / price);
    CappedIff(x, limits.maxQty, q => q);
    CappedIff(x, limits.maxNotional, n => n / price);
    CappedIff(x, limits.maxGross, g => Max(0.0, g - grossUsed) / price);
    QuotientAgainst(x, ceiling, price);
    QuotientAgainst(x, Max(0.0, buyingPower), price);
    if limits.maxNotional.Some? { QuotientAgainst(x, limits.maxNotional.value, price); }
    if limits.maxGross.Some? { QuotientAgainst(x, Max(0.0, limits.maxGross.value - grossUsed), price); }
  }

  /** The order is the whole number nearest to what can be afforded: half a share less can be afforded, nothing beyond
      half a share more can, and what lies halfway goes to the even number.  These rules leave only one number. */
  lemma OrderIsNearest(price: real, limits: Limits, grossUsed: real, buyingPower: real, ceiling: real)
    ensures price <= 0.0 ==> AdmissibleShares(price, limits, grossUsed, buyingPower, ceiling) == 0
    ensures 0.0 < price ==>
              NearestTo(AdmissibleShares(price, limits, grossUsed, buyingPower, ceiling),
                        x => Affords(x, price, limits, grossUsed, buyingPower, ceiling))
  {
    if 0.0 < price {
      var t := Tightest(Caps(price, limits, grossUsed, buyingPower, ceiling));
      forall x ensures Affords(x, price, limits, grossUsed, buyingPower, ceiling) <==> x <= t {
        AffordsIff(x, price, limits, grossUsed, buyingPower, ceiling);
      }
      NearestIs(t, x => Affords(x, price, limits, grossUsed, buyingPower, ceiling));
    }
  }

  ghost predicate NearestTo(n: nat, affords: real -> bool) {
    && (0 < n ==> affords(n as real - 0.5))
    && (forall x {:trigger affords(x)} :: n as real + 0.5 < x ==> !affords(x))
    && (n % 2 == 1 ==> !affords(n as real + 0.5) && exists x :: n as real - 0.5 < x && affords(x))
  }

  lemma NearestIs(t: real, affords: real -> bool)
    requires forall x :: affords(x) <==> x <= t
    ensures NearestTo(if HalfEven(t) < 0 then 0 else HalfEven(t), affords)
  {
    HalfEvenIsNearest(t, 0);
    assert affords(t);
    assert t.Floor as real <= t < (t.Floor + 1) as real;
  }
}
