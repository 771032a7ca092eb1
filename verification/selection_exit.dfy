/** Who leaves the book, said in ranks and scores alone: two closes below the hold band, or a newcomer that is
    0.30 better. */
module SelectionExit {
  import opened Options
  import opened Selection
  import opened SelectionTheorems

  /** Today's close and the one before both ranked the name below the first `2 * n`. */
  predicate TwiceBelow(ds: DayScores, prevRank: Option<map<Ticker, nat>>, n: nat, h: Ticker) {
    && h in ds.rank && ds.rank[h] > 2 * n
    && prevRank.Some? && h in prevRank.value && prevRank.value[h] > 2 * n
  }

  /** A chosen name that was not held is at least 0.30 above it. */
  ghost predicate Outdone(ds: DayScores, held: seq<Ticker>, chosen: seq<Ticker>, h: Ticker) {
    exists u :: u in chosen && u !in held && u in ds.score && h in ds.score && ds.score[u] >= ds.score[h] + 0.30
  }

  lemma SomeNewcomer(ds: DayScores, n: nat, k: set<Ticker>, b: set<Ticker>, h: Ticker) returns (u: Ticker)
    requires WellRanked(ds) && k <= ds.score.Keys && b <= ds.score.Keys && IsSelection(ds, n, k, b)
    requires |k| <= n && h in k - b
    ensures u in b - k && u in Top(ds, n) && Beats(ds, u, h)
  {
    if b <= k {
      Subsets(b, k - {h});
      Subsets(k, k + Top(ds, n));
    }
    u :| u in b - k;
  }

  /** Carried over are the ranked held names that were not below the band on both closes. */
  lemma CarriedIff(ds: DayScores, prevRank: Option<map<Ticker, nat>>, n: nat, h: Ticker)
    ensures Carried(ds, h, prevRank, n) <==> h in ds.rank && !TwiceBelow(ds, prevRank, n, h)
  {}

  /** A held name that is not chosen is not ranked today, or was below the hold band on both closes, or is
      outdone by a newcomer. */
  lemma LeavesOnlySo(ds: DayScores, held: seq<Ticker>, prevRank: Option<map<Ticker, nat>>, n: nat, h: Ticker)
    requires WellRanked(ds) && NoDup(held) && |held| <= n && h in held
    ensures var chosen := Select(ds, held, prevRank, n, NoCap);
            h in chosen || h !in ds.rank || TwiceBelow(ds, prevRank, n, h) || Outdone(ds, held, chosen, h)
  {
    var chosen, k := Select(ds, held, prevRank, n, NoCap), CarriedSet(ds, held, prevRank, n);
    OnePassSelects(ds, held, prevRank, n);
    if h !in chosen && h in ds.rank && !TwiceBelow(ds, prevRank, n, h) {
      CarriedIff(ds, prevRank, n, h);
      assert h in k;
      NoDupSize(Carry(ds, held, prevRank, n));
      var u := SomeNewcomer(ds, n, k, ToSet(chosen), h);
      var a := Placed(ds, u);
      assert u in chosen && u !in held;
    }
  }

  lemma {:induction false} FillTakesTop(ds: DayScores, cap: Cap, n: nat, book: seq<Ticker>, i: nat, t: Ticker)
    requires t in Fill(ds, cap, n, book, i)
    ensures t in book || InTop(ds, n, t)
    decreases Entries(ds, n) - i
  {
    if i < Entries(ds, n) && |book| < n {
      var u := ds.ranked[i];
      var enters := u !in book && CanAdd(cap, book, u);
      FillTakesTop(ds, cap, n, if enters then book + [u] else book, i + 1, t);
    }
  }

  lemma {:induction false} DisplaceTakesTop(ds: DayScores, cap: Cap, n: nat, book: seq<Ticker>, i: nat, t: Ticker)
    requires WellRanked(ds) && Ranked(ds, book) && t in Displace(ds, cap, n, book, i)
    ensures t in book || InTop(ds, n, t)
    decreases Entries(ds, n) - i
  {
    if i < Entries(ds, n) && book != [] {
      var w := Weakest(ds, book);
      DisplaceUnfolds(ds, cap, n, book, i, w);
      var u := ds.ranked[i];
      var enters := u !in book && CanAdd(cap, book, u) && Beats(ds, u, book[w]);
      DisplaceTakesTop(ds, cap, n, if enters then book[w := u] else book, i + 1, t);
    }
  }

  /** With or without the cap, and from any book: whoever is chosen is ranked today, is held or among the first
      `n`, and was not below the hold band on both closes. */
  lemma ChosenOnlySo(ds: DayScores, held: seq<Ticker>, prevRank: Option<map<Ticker, nat>>, n: nat, cap: Cap, t: Ticker)
    requires WellRanked(ds) && t in Select(ds, held, prevRank, n, cap)
    ensures t in ds.rank && (t in held || ds.rank[t] <= n) && !TwiceBelow(ds, prevRank, n, t)
  {
    var filled := Filled(ds, held, prevRank, n, cap);
    CarriedIff(ds, prevRank, n, t);
    DisplaceTakesTop(ds, cap, n, filled, 0, t);
    if t in filled {
      FillTakesTop(ds, cap, n, Carry(ds, held, prevRank, n), 0, t);
    }
  }

  /** A ranked held name that nobody chosen outdoes is chosen exactly when it was not below the band twice. */
  lemma StaysIff(ds: DayScores, held: seq<Ticker>, prevRank: Option<map<Ticker, nat>>, n: nat, h: Ticker)
    requires WellRanked(ds) && NoDup(held) && |held| <= n && h in held && h in ds.rank
    requires !Outdone(ds, held, Select(ds, held, prevRank, n, NoCap), h)
    ensures h in Select(ds, held, prevRank, n, NoCap) <==> !TwiceBelow(ds, prevRank, n, h)
  {
    LeavesOnlySo(ds, held, prevRank, n, h);
    if h in Select(ds, held, prevRank, n, NoCap) {
      ChosenOnlySo(ds, held, prevRank, n, NoCap, h);
    }
  }
}
