/** The sector cap over whole runs, and the fixed-size selection of the policy comparison. */
module SelectionCap {
  import opened Options
  import opened Selection
  import Theorems = SelectionTheorems

  // ---- the five-name selection -----------------------------------------------------------------------------

  const MAX_NAMES := 5
  const ENTRY_RANK := 5
  const HOLD_RANK := 10

  method CarryFive(ds: DayScores, held: seq<Ticker>, prevRank: Option<map<Ticker, nat>>) returns (keep: seq<Ticker>)
    ensures keep == Carry(ds, held, prevRank, 5)
  {
    keep := [];
    for i := 0 to |held|
      invariant keep == Carry(ds, held[..i], prevRank, 5)
    {
      assert held[..i + 1][..i] == held[..i];
      var h := held[i];
      if h in ds.rank {
        var confirmed := prevRank.Some? && h in prevRank.value && prevRank.value[h] > HOLD_RANK;
        if ds.rank[h] <= HOLD_RANK || !confirmed {
          keep := keep + [h];
        }
      }
    }
    assert held[..|held|] == held;
  }

  method FillFive(ds: DayScores, keep: seq<Ticker>) returns (book: seq<Ticker>)
    ensures book == Fill(ds, NoCap, 5, keep, 0)
  {
    book := keep;
    var i := 0;
    while i < Entries(ds, ENTRY_RANK)
      invariant i <= Entries(ds, 5)
      invariant Fill(ds, NoCap, 5, book, i) == Fill(ds, NoCap, 5, keep, 0)
    {
      if |book| >= MAX_NAMES {
        break;
      }
      if ds.ranked[i] !in book {
        book := book + [ds.ranked[i]];
      }
      i := i + 1;
    }
  }

  method DisplaceFive(ds: DayScores, filled: seq<Ticker>) returns (book: seq<Ticker>)
    requires WellRanked(ds) && Ranked(ds, filled)
    ensures book == Displace(ds, NoCap, 5, filled, 0)
  {
    book := filled;
    for i := 0 to Entries(ds, ENTRY_RANK)
      invariant Ranked(ds, book)
      invariant Displace(ds, NoCap, 5, book, i) == Displace(ds, NoCap, 5, filled, 0)
    {
      var t := ds.ranked[i];
      if t in book {
        continue;
      }
      var weakest := WeakestNow(ds, book);
      if weakest.None? {
        break;
      }
      var w := weakest.value;
      DisplaceUnfolds(ds, NoCap, 5, book, i, w);
      if ds.score[t] >= ds.score[book[w]] + REPLACE_ADVANTAGE {
        book := book[w := t];
      }
    }
  }

  /** The five-name rules, written out on their own, choose what the parametric rules choose at `n == 5`. */
  method ConditionalSelect(ds: DayScores, held: seq<Ticker>, prevRank: Option<map<Ticker, nat>>)
    returns (chosen: seq<Ticker>)
    requires WellRanked(ds)
    ensures chosen == Select(ds, held, prevRank, 5, NoCap)
  {
    if ds.ranked == [] {
      NothingRanked(ds, held, prevRank, 5, NoCap);
      return [];
    }
    var keep := CarryFive(ds, held, prevRank);
    FillIsRanked(ds, NoCap, 5, keep, 0);
    var book := FillFive(ds, keep);
    book := DisplaceFive(ds, book);
    chosen := AtMost(InRankOrder(ds.ranked, book), MAX_NAMES);
  }

  // ---- counting by sets ----------------------------------------------------------------------------------------

  function Members(sectors: map<Ticker, Sector>, names: set<Ticker>, s: Sector): set<Ticker> {
    set t | t in names && IsIn(sectors, t, s)
  }

  /** Without duplicates, the count of a sector is the number of its names. */
  lemma {:induction false} CountIsSize(sectors: map<Ticker, Sector>, book: seq<Ticker>, s: Sector)
    ensures |Members(sectors, ToSet(book), s)| <= InSector(sectors, book, s)
    ensures NoDup(book) ==> InSector(sectors, book, s) == |Members(sectors, ToSet(book), s)|
  {
    if book == [] {
      assert Members(sectors, ToSet(book), s) == {};
    } else {
      var last := |book| - 1;
      CountIsSize(sectors, book[..last], s);
      LastMember(sectors, book, s);
    }
  }

  lemma LastMember(sectors: map<Ticker, Sector>, book: seq<Ticker>, s: Sector)
    requires book != []
    ensures var last := book[|book| - 1];
            Members(sectors, ToSet(book), s)
            == Members(sectors, ToSet(book[..|book| - 1]), s) + (if IsIn(sectors, last, s) then {last} else {})
    ensures NoDup(book) ==> book[|book| - 1] !in book[..|book| - 1]
  {
    assert book == book[..|book| - 1] + [book[|book| - 1]];
    assert forall t :: t in book <==> t in book[..|book| - 1] || t == book[|book| - 1];
  }

  lemma FewerMembers(sectors: map<Ticker, Sector>, r: seq<Ticker>, book: seq<Ticker>, s: Sector)
    requires NoDup(r) && ToSet(r) <= ToSet(book)
    ensures InSector(sectors, r, s) <= InSector(sectors, book, s)
  {
    CountIsSize(sectors, r, s);
    CountIsSize(sectors, book, s);
    Theorems.Subsets(Members(sectors, ToSet(r), s), Members(sectors, ToSet(book), s));
  }

  // ---- one selection ------------------------------------------------------------------------------------------

  function AtLeastTwo(count: nat): nat {
    if count < 2 then 2 else count
  }

  lemma {:induction false} CarryCount(sectors: map<Ticker, Sector>, ds: DayScores, held: seq<Ticker>,
                                      prevRank: Option<map<Ticker, nat>>, n: nat, s: Sector)
    ensures InSector(sectors, Carry(ds, held, prevRank, n), s) <= InSector(sectors, held, s)
  {
    if held != [] {
      var last := |held| - 1;
      CarryCount(sectors, ds, held[..last], prevRank, n, s);
      var front := Carry(ds, held[..last], prevRank, n);
      assert (front + [held[last]])[..|front|] == front;
    }
  }

  lemma {:induction false} FillCount(sectors: map<Ticker, Sector>, ds: DayScores, n: nat, book: seq<Ticker>, i: nat, s: Sector)
    ensures InSector(sectors, Fill(ds, TwoPerSector(sectors), n, book, i), s)
         <= AtLeastTwo(InSector(sectors, book, s))
    decreases Entries(ds, n) - i
  {
    if i < Entries(ds, n) && |book| < n {
      var t := ds.ranked[i];
      if t !in book && CanAdd(TwoPerSector(sectors), book, t) {
        assert (book + [t])[..|book|] == book;
        FillCount(sectors, ds, n, book + [t], i + 1, s);
      } else {
        FillCount(sectors, ds, n, book, i + 1, s);
      }
    }
  }

  lemma {:induction false} DisplaceCount(sectors: map<Ticker, Sector>, ds: DayScores, n: nat, book: seq<Ticker>, i: nat,
                                         s: Sector, most: nat)
    requires WellRanked(ds) && Ranked(ds, book) && 2 <= most
    requires InSector(sectors, book, s) <= most
    ensures InSector(sectors, Displace(ds, TwoPerSector(sectors), n, book, i), s) <= most
    decreases Entries(ds, n) - i
  {
    if i < Entries(ds, n) && book != [] {
      var next := StepCount(sectors, ds, n, book, i, s, most);
      DisplaceCount(sectors, ds, n, next, i + 1, s, most);
    }
  }

  lemma StepCount(sectors: map<Ticker, Sector>, ds: DayScores, n: nat, book: seq<Ticker>, i: nat, s: Sector, most: nat)
    returns (next: seq<Ticker>)
    requires WellRanked(ds) && Ranked(ds, book) && 2 <= most
    requires InSector(sectors, book, s) <= most
    requires i < Entries(ds, n) && book != []
    ensures Ranked(ds, next) && InSector(sectors, next, s) <= most
    ensures Displace(ds, TwoPerSector(sectors), n, book, i) == Displace(ds, TwoPerSector(sectors), n, next, i + 1)
  {
    var cap, t, w := TwoPerSector(sectors), ds.ranked[i], Weakest(ds, book);
    DisplaceUnfolds(ds, cap, n, book, i, w);
    next := book;
    if t !in book && CanAdd(cap, book, t) && Beats(ds, t, book[w]) {
      InSectorReplace(sectors, book, w, t, s);
      next := book[w := t];
    }
  }

  lemma {:induction false} PrefixCount(sectors: map<Ticker, Sector>, book: seq<Ticker>, n: nat, s: Sector)
    ensures InSector(sectors, AtMost(book, n), s) <= InSector(sectors, book, s)
    decreases |book|
  {
    if n < |book| {
      PrefixCount(sectors, book[..|book| - 1], n, s);
      assert book[..|book| - 1][..n] == book[..n];
    }
  }

  /** No selection holds more than two names of a sector, unless more were carried. */
  lemma CapHolds(sectors: map<Ticker, Sector>, ds: DayScores, held: seq<Ticker>,
                 prevRank: Option<map<Ticker, nat>>, n: nat, s: Sector)
    requires WellRanked(ds)
    ensures InSector(sectors, Select(ds, held, prevRank, n, TwoPerSector(sectors)), s)
         <= AtLeastTwo(InSector(sectors, Carry(ds, held, prevRank, n), s))
         <= AtLeastTwo(InSector(sectors, held, s))
  {
    var cap := TwoPerSector(sectors);
    var filled := Filled(ds, held, prevRank, n, cap);
    var book := Displace(ds, cap, n, filled, 0);
    CarryCount(sectors, ds, held, prevRank, n, s);
    FillCount(sectors, ds, n, Carry(ds, held, prevRank, n), 0, s);
    DisplaceCount(sectors, ds, n, filled, 0, s, AtLeastTwo(InSector(sectors, filled, s)));
    Theorems.ResultFacts(ds, book);
    FewerMembers(sectors, InRankOrder(ds.ranked, book), book, s);
    PrefixCount(sectors, InRankOrder(ds.ranked, book), n, s);
  }

  // ---- every day of every run -----------------------------------------------------------------------------------

  /** A run from an empty book over any scored days: each book holds the names selected from the book
      before, walked in any order, under whatever earlier ranks. */
  ghost predicate CappedRun(sectors: map<Ticker, Sector>, n: nat, days: seq<DayScores>,
                            prevRanks: seq<Option<map<Ticker, nat>>>, books: seq<seq<Ticker>>)
  {
    && |books| == |days| + 1 && |prevRanks| == |days|
    && books[0] == []
    && (forall d :: 0 <= d < |books| ==> NoDup(books[d]))
    && (forall d :: 0 <= d < |days| ==> WellRanked(days[d]))
    && (forall d :: 0 <= d < |days| ==>
          ToSet(books[d + 1]) == ToSet(Select(days[d], books[d], prevRanks[d], n, TwoPerSector(sectors))))
  }

  /** Hence no day's book ever holds three names of one known sector. */
  lemma {:induction false} NeverThreeOfASector(sectors: map<Ticker, Sector>, n: nat, days: seq<DayScores>,
                                               prevRanks: seq<Option<map<Ticker, nat>>>, books: seq<seq<Ticker>>,
                                               d: nat, s: Sector)
    requires CappedRun(sectors, n, days, prevRanks, books) && d < |books|
    ensures InSector(sectors, books[d], s) <= 2
    ensures |Members(sectors, ToSet(books[d]), s)| <= 2
  {
    CountIsSize(sectors, books[d], s);
    if d > 0 {
      NeverThreeOfASector(sectors, n, days, prevRanks, books, d - 1, s);
      OneMoreDay(sectors, n, days[d - 1], prevRanks[d - 1], books[d - 1], books[d], s);
    }
  }

  lemma OneMoreDay(sectors: map<Ticker, Sector>, n: nat, ds: DayScores, prevRank: Option<map<Ticker, nat>>,
                   held: seq<Ticker>, book: seq<Ticker>, s: Sector)
    requires WellRanked(ds) && NoDup(book)
    requires ToSet(book) == ToSet(Select(ds, held, prevRank, n, TwoPerSector(sectors)))
    requires InSector(sectors, held, s) <= 2
    ensures InSector(sectors, book, s) <= 2
  {
    CapHolds(sectors, ds, held, prevRank, n, s);
    FewerMembers(sectors, book, Select(ds, held, prevRank, n, TwoPerSector(sectors)), s);
  }
}
