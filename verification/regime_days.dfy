/** The gauge told from the days themselves: levels against their averages, without the distances and counters. */
module RegimeDays {
  import opened Options
  import opened Regime

  predicate Readable(row: Row) {
    row.lvl.Some? && row.ma.Some? && 0.0 < row.ma.value
  }

  /** The level is at most 99% of its average; at least 101% of it. */
  predicate Under(row: Row) {
    Readable(row) && row.lvl.value <= 0.99 * row.ma.value
  }

  predicate Over(row: Row) {
    Readable(row) && 1.01 * row.ma.value <= row.lvl.value
  }

  lemma Distance(row: Row)
    requires Readable(row)
    ensures Usable(row)
    ensures Rel(row) <= -0.01 <==> Under(row)
    ensures Rel(row) >= 0.01 <==> Over(row)
    ensures Rel(row) >= 0.0 <==> row.ma.value <= row.lvl.value
    ensures Rel(row) > 0.02 <==> 1.02 * row.ma.value < row.lvl.value
    ensures Rel(row) < -0.02 <==> row.lvl.value < 0.98 * row.ma.value
  {
    var lvl, ma := row.lvl.value, row.ma.value;
    QuotientAgainst(lvl, ma, 0.99);
    QuotientAgainst(lvl, ma, 1.01);
    QuotientAgainst(lvl, ma, 1.0);
    QuotientAgainst(lvl, ma, 1.02);
    QuotientAgainst(lvl, ma, 0.98);
  }

  lemma QuotientAgainst(lvl: real, ma: real, x: real)
    requires 0.0 < ma
    ensures lvl / ma < x <==> lvl < x * ma
    ensures lvl / ma <= x <==> lvl <= x * ma
  {
    var q := lvl / ma;
    assert q * ma == lvl;
    if q < x { assert (x - q) * ma > 0.0; }
    if q > x { assert (q - x) * ma > 0.0; }
  }

  /** Without a level or a positive average the gauge fails open; the variants that look at one day only compare its
      level with its average, and all others are always fully invested. */
  lemma OneDayGauges(rows: seq<Row>, d: nat)
    requires d < |rows|
    ensures var row := rows[d];
            && (!Readable(row) ==> forall v: Variant :: GrossOn(rows, v, d) == 1.0)
            && GrossOn(rows, AlwaysOn, d) == GrossOn(rows, Unlisted, d) == 1.0
            && (Readable(row) ==>
                  && GrossOn(rows, AnyBreach, d) == (if row.ma.value <= row.lvl.value then 1.0 else 0.0)
                  && GrossOn(rows, Scaled, d)
                     == (if 1.02 * row.ma.value < row.lvl.value then 0.98
                         else if row.lvl.value < 0.98 * row.ma.value then 0.15 else 0.60))
  {
    if Readable(rows[d]) { Distance(rows[d]); }
  }

  // ---- the buffered gauge ----------------------------------------------------------------------------------------

  /** Two readable days with no readable day between them. */
  ghost predicate InARow(rows: seq<Row>, e: nat, f: nat) {
    e < f < |rows| && Readable(rows[e]) && Readable(rows[f]) && forall x :: e < x < f ==> !Readable(rows[x])
  }

  ghost predicate BothUnder(rows: seq<Row>, e: nat, f: nat) {
    InARow(rows, e, f) && Under(rows[e]) && Under(rows[f])
  }

  ghost predicate BothOver(rows: seq<Row>, e: nat, f: nat) {
    InARow(rows, e, f) && Over(rows[e]) && Over(rows[f])
  }

  ghost predicate UnderEnds(rows: seq<Row>, f: nat) {
    exists e :: BothUnder(rows, e, f)
  }

  ghost predicate OverEnds(rows: seq<Row>, f: nat) {
    exists e :: BothOver(rows, e, f)
  }

  /** Two days in a row were under, and no two in a row since were over. */
  ghost predicate Off(rows: seq<Row>, d: nat) {
    exists f: nat :: f < d && UnderEnds(rows, f) && forall g: nat :: f < g < d ==> !OverEnds(rows, g)
  }

  lemma OffStep(rows: seq<Row>, d: nat)
    ensures Off(rows, d + 1) <==> UnderEnds(rows, d) || (!OverEnds(rows, d) && Off(rows, d))
  {
    if Off(rows, d + 1) && !UnderEnds(rows, d) {
      var f: nat :| f < d + 1 && UnderEnds(rows, f) && forall g: nat :: f < g < d + 1 ==> !OverEnds(rows, g);
      assert f < d;
    }
  }

  /** The last of the distances is that of the last readable day. */
  lemma {:induction false} LastReadable(rows: seq<Row>, d: nat) returns (e: nat)
    requires d <= |rows|
    ensures var rels := Rels(rows[..d]);
            if rels == [] then forall x :: 0 <= x < d ==> !Readable(rows[x])
            else e < d && Readable(rows[e]) && Usable(rows[e]) && rels[|rels| - 1] == Rel(rows[e])
                 && forall x :: e < x < d ==> !Readable(rows[x])
  {
    e := 0;
    if d > 0 {
      assert rows[..d][..d - 1] == rows[..d - 1];
      if Readable(rows[d - 1]) { e := d - 1; } else { e := LastReadable(rows, d - 1); }
    }
  }

  /** A pair of distances that ends with day `d` is a pair of days that ends there. */
  lemma PairsEnd(rows: seq<Row>, d: nat)
    requires d < |rows| && Readable(rows[d])
    ensures var rels := Rels(rows[..d]);
            && Usable(rows[d]) && Rels(rows[..d + 1]) == rels + [Rel(rows[d])]
            && (PairBelow(rels + [Rel(rows[d])], |rels|) <==> UnderEnds(rows, d))
            && (PairAbove(rels + [Rel(rows[d])], |rels|) <==> OverEnds(rows, d))
  {
    assert rows[..d + 1][..d] == rows[..d];
    var rels := Rels(rows[..d]);
    var e := LastReadable(rows, d);
    Distance(rows[d]);
    if rels != [] {
      Distance(rows[e]);
      assert InARow(rows, e, d);
      assert forall x :: InARow(rows, x, d) ==> x == e;
      assert BothUnder(rows, e, d) <==> UnderEnds(rows, d);
      assert BothOver(rows, e, d) <==> OverEnds(rows, d);
    }
  }

  lemma {:induction false} OffIsRiskOff(rows: seq<Row>, d: nat)
    requires d <= |rows|
    ensures Off(rows, d) <==> RiskOff(Rels(rows[..d]))
  {
    if d > 0 {
      OffIsRiskOff(rows, d - 1);
      OffStep(rows, d - 1);
      assert rows[..d][..d - 1] == rows[..d - 1];
      if Readable(rows[d - 1]) {
        PairsEnd(rows, d - 1);
        OneMoreDay(Rels(rows[..d - 1]), Rel(rows[d - 1]));
      }
    }
  }

  /** The buffered gauge is off on a readable day exactly when two readable days in a row, the day itself counted,
      were at least 1% under their averages and no two in a row since were at least 1% over. */
  lemma BufferedIsOffIff(rows: seq<Row>, d: nat)
    requires d < |rows| && Readable(rows[d])
    ensures GrossOn(rows, Buffered, d) == (if Off(rows, d + 1) then 0.0 else 1.0)
  {
    OffIsRiskOff(rows, d + 1);
  }
}
