/** From the day's scores to the pick the day loop trades on: selection and sizing, put together. */
module Rebalancing {
  import opened Options
  import opened Selection
  import opened Ledger
  import Theorems = SelectionTheorems
  import Sizing
  import Accounting

  function VolsOf(vols: map<Ticker, real>, chosen: seq<Ticker>): (v: seq<Option<real>>)
    ensures |v| == |chosen|
  {
    seq(|chosen|, i requires 0 <= i < |chosen| => if chosen[i] in vols then Some(vols[chosen[i]]) else None)
  }

  /** The weights by name. */
  function ByName(chosen: seq<Ticker>, w: seq<real>): (base: map<Ticker, real>)
    requires |chosen| == |w|
    ensures base.Keys == ToSet(chosen)
  {
    if chosen == [] then map[]
    else
      var last := |chosen| - 1;
      assert chosen == chosen[..last] + [chosen[last]];
      ByName(chosen[..last], w[..last])[chosen[last] := w[last]]
  }

  lemma {:induction false} ByNameIsPointwise(chosen: seq<Ticker>, w: seq<real>)
    requires |chosen| == |w| && NoDup(chosen)
    ensures forall i :: 0 <= i < |chosen| ==> Get(ByName(chosen, w), chosen[i]) == w[i]
  {
    if chosen != [] {
      var last := |chosen| - 1;
      ByNameIsPointwise(chosen[..last], w[..last]);
    }
  }

  lemma {:induction false} PointwiseTotal(chosen: seq<Ticker>, w: seq<real>, base: map<Ticker, real>)
    requires |chosen| == |w|
    requires forall i :: 0 <= i < |chosen| ==> Get(base, chosen[i]) == w[i]
    ensures Total(chosen, base) == Sizing.Sum(w)
  {
    if chosen != [] {
      PointwiseTotal(chosen[..|chosen| - 1], w[..|w| - 1], base);
    }
  }

  /** The sized names are a pick the day loop can rely on. */
  lemma SizedPickIsGood(u: seq<Ticker>, chosen: seq<Ticker>, w: seq<real>)
    requires NoDup(u) && NoDup(chosen) && |chosen| == |w|
    requires forall t :: t in chosen ==> t in u
    requires chosen != [] ==> Sizing.IsBook(w)
    ensures Accounting.GoodPick(u, Accounting.Pick(ToSet(chosen), ByName(chosen, w)))
  {
    var base := ByName(chosen, w);
    ByNameIsPointwise(chosen, w);
    forall t | t in base ensures 0.0 < base[t] {
      assert t in ToSet(chosen);
      var i :| 0 <= i < |chosen| && chosen[i] == t;
      assert Get(base, chosen[i]) == w[i];
    }
    PointwiseTotal(chosen, w, base);
    TotalIsOrderFree(u, chosen, base);
  }

  /** One scored day's decision, in the frozen configuration: five names, hybrid sizing, no sector cap. */
  method Decide(u: seq<Ticker>, ds: DayScores, held: seq<Ticker>, prevRank: Option<map<Ticker, nat>>,
                vols: map<Ticker, real>)
    returns (pick: Accounting.Pick)
    requires NoDup(u) && WellRanked(ds) && AllPositive(vols)
    requires forall t :: t in ds.ranked ==> t in u
    ensures Accounting.GoodPick(u, pick)
    ensures pick.target == ToSet(Select(ds, held, prevRank, 5, NoCap))
    ensures WeighedAsSized(Select(ds, held, prevRank, 5, NoCap), vols, pick)
  {
    var chosen := SelectN(ds, held, prevRank, 5, map[], false);
    var w := Sizing.Weigh(VolsOf(vols, chosen), Sizing.HybridWeight, 5);
    if chosen != [] {
      Sizing.WeightsAreABook(VolsOf(vols, chosen), Sizing.HybridWeight, 5);
    }
    pick := Accounting.Pick(ToSet(chosen), ByName(chosen, w));
    DecisionIsGood(u, ds, held, prevRank, chosen, w);
    ByNameIsPointwise(chosen, w);
  }

  /** Each chosen name has the weight that the hybrid sizing of a five-name book gives it. */
  ghost predicate WeighedAsSized(chosen: seq<Ticker>, vols: map<Ticker, real>, pick: Accounting.Pick)
    requires AllPositive(vols)
  {
    var w := Sizing.Weights(VolsOf(vols, chosen), Sizing.HybridWeight, 5);
    |w| == |chosen| && forall i :: 0 <= i < |chosen| ==> Get(pick.base, chosen[i]) == w[i]
  }

  lemma DecisionIsGood(u: seq<Ticker>, ds: DayScores, held: seq<Ticker>, prevRank: Option<map<Ticker, nat>>,
                       chosen: seq<Ticker>, w: seq<real>)
    requires NoDup(u) && WellRanked(ds) && forall t :: t in ds.ranked ==> t in u
    requires chosen == Select(ds, held, prevRank, 5, NoCap) && |w| == |chosen|
    requires chosen != [] ==> Sizing.IsBook(w)
    ensures Accounting.GoodPick(u, Accounting.Pick(ToSet(chosen), ByName(chosen, w)))
    ensures NoDup(chosen)
  {
    Theorems.ResultFacts(ds, Theorems.BookOf(ds, held, prevRank, 5));
    SizedPickIsGood(u, chosen, w);
  }
}
