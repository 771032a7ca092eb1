/** The regime gauge: gross exposure per day from a market level and its moving average. */
module Regime {
  import opened Options

  /** One day of the proxy; level or average may be missing. */
  datatype Row = Row(lvl: Option<real>, ma: Option<real>)

  /** The variants D, A, B and C, and any other label. */
  datatype Variant = AlwaysOn | AnyBreach | Buffered | Scaled | Unlisted

  const B_BUFFER := 0.01
  const B_CONFIRM := 2
  const C_BAND := 0.02

  predicate Usable(row: Row) {
    row.lvl.Some? && row.ma.Some? && row.ma.value > 0.0
  }

  function Rel(row: Row): real
    requires Usable(row)
  {
    row.lvl.value / row.ma.value - 1.0
  }

  // ---- what the gauge means ---------------------------------------------------------------------------------

  /** The distances from the average on the usable days, oldest first. */
  function Rels(rows: seq<Row>): (rels: seq<real>)
    ensures |rels| <= |rows|
  {
    if rows == [] then []
    else
      var front := Rels(rows[..|rows| - 1]);
      if Usable(rows[|rows| - 1]) then front + [Rel(rows[|rows| - 1])] else front
  }

  /** Entries `k - 1` and `k` are both at or below the lower buffer. */
  predicate PairBelow(rels: seq<real>, k: nat) {
    1 <= k < |rels| && rels[k - 1] <= -B_BUFFER && rels[k] <= -B_BUFFER
  }

  predicate PairAbove(rels: seq<real>, k: nat) {
    1 <= k < |rels| && rels[k - 1] >= B_BUFFER && rels[k] >= B_BUFFER
  }

  /** Some two consecutive usable days were both below, and no two later ones were both above. */
  ghost predicate RiskOff(rels: seq<real>) {
    exists k :: 0 <= k < |rels| && PairBelow(rels, k) && forall j :: k < j < |rels| ==> !PairAbove(rels, j)
  }

  /** The buffered gauge, from the usable days up to and including the day. */
  ghost function BufferedGross(rels: seq<real>): real {
    if RiskOff(rels) then 0.0 else 1.0
  }

  /** The gross exposure of day `d`; a day without a usable average fails open. */
  ghost function GrossOn(rows: seq<Row>, variant: Variant, d: nat): real
    requires d < |rows|
  {
    if !Usable(rows[d]) then 1.0
    else
      match variant
      case AlwaysOn => 1.0
      case AnyBreach => if Rel(rows[d]) >= 0.0 then 1.0 else 0.0
      case Buffered => BufferedGross(Rels(rows[..d + 1]))
      case Scaled => if Rel(rows[d]) > C_BAND then 0.98 else if Rel(rows[d]) < -C_BAND then 0.15 else 0.60
      case Unlisted => 1.0
  }

  // ---- the gauge as the code runs it ----------------------------------------------------------------------------

  /** The run counters tell whether the last days form a pair, and the held state is the gauge. */
  ghost predicate Tracks(rels: seq<real>, belowRun: nat, aboveRun: nat, state: real) {
    && (belowRun >= 1 <==> rels != [] && rels[|rels| - 1] <= -B_BUFFER)
    && (aboveRun >= 1 <==> rels != [] && rels[|rels| - 1] >= B_BUFFER)
    && (belowRun >= 2 <==> rels != [] && PairBelow(rels, |rels| - 1))
    && (aboveRun >= 2 <==> rels != [] && PairAbove(rels, |rels| - 1))
    && state == BufferedGross(rels)
  }

  lemma OneMoreDay(rels: seq<real>, x: real)
    ensures var more := rels + [x];
            && (PairBelow(more, |rels|) ==> RiskOff(more))
            && (PairAbove(more, |rels|) ==> !RiskOff(more))
            && (!PairBelow(more, |rels|) && !PairAbove(more, |rels|) ==> RiskOff(more) == RiskOff(rels))
  {
    var more := rels + [x];
    assert forall k :: 0 <= k < |rels| ==> PairBelow(more, k) == PairBelow(rels, k);
    assert forall k :: 0 <= k < |rels| ==> PairAbove(more, k) == PairAbove(rels, k);
    if PairBelow(more, |rels|) {
      assert RiskOff(more);
    } else if !PairAbove(more, |rels|) {
      if RiskOff(rels) {
        var k :| 0 <= k < |rels| && PairBelow(rels, k) && forall j :: k < j < |rels| ==> !PairAbove(rels, j);
        assert PairBelow(more, k);
      }
    }
  }

  method GrossSeries(rows: seq<Row>, variant: Variant) returns (g: seq<real>)
    ensures |g| == |rows|
    ensures forall d :: 0 <= d < |rows| ==> g[d] == GrossOn(rows, variant, d)
  {
    g := [];
    var prevState := 1.0;
    var belowRun, aboveRun := 0, 0;
    for d := 0 to |rows|
      invariant |g| == d && forall e :: 0 <= e < d ==> g[e] == GrossOn(rows, variant, e)
      invariant variant.Buffered? ==> Tracks(Rels(rows[..d]), belowRun, aboveRun, prevState)
    {
      var row := rows[d];
      ghost var before := Rels(rows[..d]);
      assert rows[..d + 1][..d] == rows[..d];
      if !Usable(row) {
        g := g + [1.0];
        continue;
      }
      var rel := Rel(row);
      match variant {
        case AlwaysOn =>
          g := g + [1.0];
        case AnyBreach =>
          g := g + [if rel >= 0.0 then 1.0 else 0.0];
        case Buffered =>
          OneMoreDay(before, rel);
          belowRun := if rel <= -B_BUFFER then belowRun + 1 else 0;
          aboveRun := if rel >= B_BUFFER then aboveRun + 1 else 0;
          if belowRun >= B_CONFIRM {
            prevState := 0.0;
          } else if aboveRun >= B_CONFIRM {
            prevState := 1.0;
          }
          g := g + [prevState];
        case Scaled =>
          g := g + [if rel > C_BAND then 0.98 else if rel < -C_BAND then 0.15 else 0.60];
        case Unlisted =>
          g := g + [1.0];
      }
    }
  }

  // ---- consequences ------------------------------------------------------------------------------------------------

  /** Whatever the variant and the data, exposure is between nothing and everything. */
  lemma GrossIsAShare(rows: seq<Row>, variant: Variant, d: nat)
    requires d < |rows|
    ensures 0.0 <= GrossOn(rows, variant, d) <= 1.0
  {
  }

  lemma {:induction false} RelsSkipUnusable(before: seq<Row>, row: Row, after: seq<Row>)
    requires !Usable(row)
    ensures Rels(before + [row] + after) == Rels(before + after)
  {
    if after == [] {
      assert before + [row] + after == before + [row] && before + after == before;
      assert (before + [row])[..|before|] == before;
    } else {
      var last := |after| - 1;
      RelsSkipUnusable(before, row, after[..last]);
      assert (before + [row] + after)[..|before| + 1 + last] == before + [row] + after[..last];
      assert (before + after)[..|before| + last] == before + after[..last];
    }
  }

  /** A day that cannot be used leaves every later day's exposure as it would be without that day. */
  lemma UnusableDaysDoNotCount(before: seq<Row>, row: Row, after: seq<Row>, variant: Variant, j: nat)
    requires !Usable(row) && j < |after|
    ensures GrossOn(before + [row] + after, variant, |before| + 1 + j) == GrossOn(before + after, variant, |before| + j)
  {
    RelsSkipUnusable(before, row, after[..j + 1]);
    assert (before + [row] + after)[..|before| + 1 + j + 1] == before + [row] + after[..j + 1];
    assert (before + after)[..|before| + j + 1] == before + after[..j + 1];
  }

  /** The buffered gauge turns only on the second of two consecutive usable days beyond the same buffer, so
      two turns are at least two usable days apart: a single noisy day never trades. */
  lemma TurnsAreTwoDaysApart(rels: seq<real>, k: nat, m: nat)
    requires 0 < k < m <= |rels|
    requires BufferedGross(rels[..k - 1]) != BufferedGross(rels[..k])
    requires BufferedGross(rels[..m - 1]) != BufferedGross(rels[..m])
    ensures k + 2 <= m
    ensures PairBelow(rels, k - 1) || PairAbove(rels, k - 1)
  {
    TurnNeedsAPair(rels, k);
    TurnNeedsAPair(rels, m);
  }

  lemma TurnNeedsAPair(rels: seq<real>, k: nat)
    requires 0 < k <= |rels|
    requires BufferedGross(rels[..k - 1]) != BufferedGross(rels[..k])
    ensures BufferedGross(rels[..k]) == 0.0 ==> PairBelow(rels, k - 1)
    ensures BufferedGross(rels[..k]) == 1.0 ==> PairAbove(rels, k - 1)
  {
    OneMoreDay(rels[..k - 1], rels[k - 1]);
    assert rels[..k - 1] + [rels[k - 1]] == rels[..k];
  }
}
