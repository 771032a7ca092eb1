/** When the sector cap changes the choice, and when it does not: what the uncapped rules promise, one pass to
    a fixed point and two days to a steady book, holds with the cap under conditions stated here. */
module CapEffect {
  import opened Options
  import opened Selection
  import opened SelectionCap
  import opened SelectionTrace
  import Theorems = SelectionTheorems

  // ---- exactly when the cap changes nothing ------------------------------------------------------------------------

  /** At its turn in the uncapped fill, name `j` finds room in its sector or is not taken in anyway. */
  ghost predicate FillAdmits(sectors: map<Ticker, Sector>, ds: DayScores, n: nat, b: seq<Ticker>, j: nat)
    requires j < |ds.ranked|
  {
    |b| < n && ds.ranked[j] !in b ==> CanAdd(TwoPerSector(sectors), b, ds.ranked[j])
  }

  /** The same in the uncapped displacement. */
  ghost predicate PassAdmits(sectors: map<Ticker, Sector>, ds: DayScores, b: seq<Ticker>, j: nat) {
    Enters(ds, b, j) ==> CanAdd(TwoPerSector(sectors), b, ds.ranked[j])
  }

  /** Every name the uncapped rules take in finds at most one name of its sector in the book at its turn. */
  ghost predicate CapNeverBinds(sectors: map<Ticker, Sector>, ds: DayScores, held: seq<Ticker>,
                                prevRank: Option<map<Ticker, nat>>, n: nat)
    requires WellRanked(ds)
  {
    && FillNeverBinds(sectors, ds, n, Carry(ds, held, prevRank, n), 0)
    && PassNeverBinds(sectors, ds, n, Filled(ds, held, prevRank, n, NoCap), 0)
  }

  ghost predicate FillNeverBinds(sectors: map<Ticker, Sector>, ds: DayScores, n: nat, b: seq<Ticker>, j: nat)
    decreases Entries(ds, n) - j
  {
    j >= Entries(ds, n)
    || (FillAdmits(sectors, ds, n, b, j) && FillNeverBinds(sectors, ds, n, FillTurn(ds, NoCap, n, b, j), j + 1))
  }

  ghost predicate PassNeverBinds(sectors: map<Ticker, Sector>, ds: DayScores, n: nat, b: seq<Ticker>, j: nat)
    requires WellRanked(ds) && Ranked(ds, b)
    decreases Entries(ds, n) - j
  {
    j >= Entries(ds, n) || b == []
    || (PassAdmits(sectors, ds, b, j) && PassNeverBinds(sectors, ds, n, Turn(ds, NoCap, b, j), j + 1))
  }

  /** On a trace of the uncapped fill: it never binds exactly when every turn admits its name. */
  lemma {:induction false} FillBindsOnTrace(sectors: map<Ticker, Sector>, ds: DayScores, n: nat, us: seq<seq<Ticker>>, i: nat)
    requires i <= Entries(ds, n) && IsFill(ds, NoCap, n, us, Entries(ds, n))
    ensures FillNeverBinds(sectors, ds, n, us[i], i)
            <==> forall j :: i <= j < Entries(ds, n) ==> FillAdmits(sectors, ds, n, us[j], j)
    decreases Entries(ds, n) - i
  {
    if i < Entries(ds, n) {
      assert FillTurnAt(ds, NoCap, n, us, i);
      FillBindsOnTrace(sectors, ds, n, us, i + 1);
    }
  }

  lemma {:induction false} PassBindsOnTrace(sectors: map<Ticker, Sector>, ds: DayScores, n: nat, us: seq<seq<Ticker>>, i: nat)
    requires WellRanked(ds) && i <= Entries(ds, n) && IsPass(ds, NoCap, us, Entries(ds, n)) && Ranked(ds, us[i])
    ensures PassNeverBinds(sectors, ds, n, us[i], i)
            <==> forall j :: i <= j < Entries(ds, n) ==> PassAdmits(sectors, ds, us[j], j)
    decreases Entries(ds, n) - i
  {
    if i < Entries(ds, n) {
      assert TurnAt(ds, NoCap, us, i);
      PassBindsOnTrace(sectors, ds, n, us, i + 1);
    }
  }

  /** While every name is admitted the capped trace is the uncapped one. */
  lemma {:induction false} FillSame(sectors: map<Ticker, Sector>, ds: DayScores, n: nat,
                                    us: seq<seq<Ticker>>, cs: seq<seq<Ticker>>, m: nat, j: nat)
    requires IsFill(ds, NoCap, n, us, m) && IsFill(ds, TwoPerSector(sectors), n, cs, m) && us[0] == cs[0] && j <= m
    requires forall x :: 0 <= x < j ==> FillAdmits(sectors, ds, n, us[x], x)
    ensures us[j] == cs[j]
  {
    if j > 0 {
      FillSame(sectors, ds, n, us, cs, m, j - 1);
      assert FillTurnAt(ds, NoCap, n, us, j - 1) && FillTurnAt(ds, TwoPerSector(sectors), n, cs, j - 1);
      assert FillAdmits(sectors, ds, n, us[j - 1], j - 1);
    }
  }

  lemma {:induction false} PassSame(sectors: map<Ticker, Sector>, ds: DayScores,
                                    us: seq<seq<Ticker>>, cs: seq<seq<Ticker>>, m: nat, j: nat)
    requires IsPass(ds, NoCap, us, m) && IsPass(ds, TwoPerSector(sectors), cs, m) && us[0] == cs[0] && j <= m
    requires forall x :: 0 <= x < j ==> PassAdmits(sectors, ds, us[x], x)
    ensures us[j] == cs[j]
  {
    if j > 0 {
      PassSame(sectors, ds, us, cs, m, j - 1);
      assert TurnAt(ds, NoCap, us, j - 1) && TurnAt(ds, TwoPerSector(sectors), cs, j - 1);
      assert PassAdmits(sectors, ds, us[j - 1], j - 1);
    }
  }

  lemma FillUnchanged(sectors: map<Ticker, Sector>, ds: DayScores, n: nat, book: seq<Ticker>)
    requires FillNeverBinds(sectors, ds, n, book, 0)
    ensures Fill(ds, TwoPerSector(sectors), n, book, 0) == Fill(ds, NoCap, n, book, 0)
  {
    var us := TraceFill(ds, NoCap, n, book);
    var cs := TraceFill(ds, TwoPerSector(sectors), n, book);
    FillBindsOnTrace(sectors, ds, n, us, 0);
    FillSame(sectors, ds, n, us, cs, Entries(ds, n), Entries(ds, n));
  }

  lemma PassUnchanged(sectors: map<Ticker, Sector>, ds: DayScores, n: nat, book: seq<Ticker>)
    requires WellRanked(ds) && Ranked(ds, book) && PassNeverBinds(sectors, ds, n, book, 0)
    ensures Displace(ds, TwoPerSector(sectors), n, book, 0) == Displace(ds, NoCap, n, book, 0)
  {
    if book != [] {
      var us := TracePass(ds, NoCap, n, book);
      var cs := TracePass(ds, TwoPerSector(sectors), n, book);
      PassBindsOnTrace(sectors, ds, n, us, 0);
      PassSame(sectors, ds, us, cs, Entries(ds, n), Entries(ds, n));
    }
  }

  lemma NeverBindingChangesNothing(sectors: map<Ticker, Sector>, ds: DayScores, held: seq<Ticker>,
                                   prevRank: Option<map<Ticker, nat>>, n: nat)
    requires WellRanked(ds) && CapNeverBinds(sectors, ds, held, prevRank, n)
    ensures Select(ds, held, prevRank, n, TwoPerSector(sectors)) == Select(ds, held, prevRank, n, NoCap)
  {
    FillUnchanged(sectors, ds, n, Carry(ds, held, prevRank, n));
    PassUnchanged(sectors, ds, n, Filled(ds, held, prevRank, n, NoCap));
  }

  // ---- the first refused name tells the books apart ---------------------------------------------------------------------

  lemma {:induction false} FirstRefusedInFill(sectors: map<Ticker, Sector>, ds: DayScores, n: nat,
                                              us: seq<seq<Ticker>>, i: nat) returns (j: nat)
    requires i <= Entries(ds, n) && IsFill(ds, NoCap, n, us, Entries(ds, n))
    requires !FillNeverBinds(sectors, ds, n, us[i], i)
    ensures i <= j < Entries(ds, n) && !FillAdmits(sectors, ds, n, us[j], j)
    ensures forall x :: i <= x < j ==> FillAdmits(sectors, ds, n, us[x], x)
    decreases Entries(ds, n) - i
  {
    j := i;
    if FillAdmits(sectors, ds, n, us[i], i) {
      assert FillTurnAt(ds, NoCap, n, us, i);
      j := FirstRefusedInFill(sectors, ds, n, us, i + 1);
    }
  }

  lemma {:induction false} FirstRefusedInPass(sectors: map<Ticker, Sector>, ds: DayScores, n: nat,
                                              us: seq<seq<Ticker>>, i: nat) returns (j: nat)
    requires WellRanked(ds) && i <= Entries(ds, n) && IsPass(ds, NoCap, us, Entries(ds, n)) && Ranked(ds, us[i])
    requires !PassNeverBinds(sectors, ds, n, us[i], i)
    ensures i <= j < Entries(ds, n) && !PassAdmits(sectors, ds, us[j], j)
    ensures forall x :: i <= x < j ==> PassAdmits(sectors, ds, us[x], x)
    decreases Entries(ds, n) - i
  {
    j := i;
    if PassAdmits(sectors, ds, us[i], i) {
      assert TurnAt(ds, NoCap, us, i);
      j := FirstRefusedInPass(sectors, ds, n, us, i + 1);
    }
  }

  lemma {:induction false} LongerHasMore(sectors: map<Ticker, Sector>, a: seq<Ticker>, b: seq<Ticker>, s: Sector)
    requires a <= b
    ensures InSector(sectors, a, s) <= InSector(sectors, b, s)
    decreases |b|
  {
    if |a| < |b| {
      LongerHasMore(sectors, a, b[..|b| - 1], s);
    } else {
      assert a == b;
    }
  }

  /** A full sector stays full in a longer book. */
  lemma StillRefused(sectors: map<Ticker, Sector>, a: seq<Ticker>, b: seq<Ticker>, t: Ticker)
    requires a <= b && !CanAdd(TwoPerSector(sectors), a, t)
    ensures !CanAdd(TwoPerSector(sectors), b, t)
  {
    LongerHasMore(sectors, a, b, sectors[t]);
  }

  /** A name refused while the book is filled is in no later book of the capped fill, whose sector stays full. */
  lemma RefusedInFill(sectors: map<Ticker, Sector>, ds: DayScores, n: nat, cs: seq<seq<Ticker>>, m: nat, j: nat)
    requires WellRanked(ds) && IsFill(ds, TwoPerSector(sectors), n, cs, m) && j < m
    requires ds.ranked[j] !in cs[j] && !CanAdd(TwoPerSector(sectors), cs[j], ds.ranked[j])
    ensures ds.ranked[j] !in cs[m] && !CanAdd(TwoPerSector(sectors), cs[m], ds.ranked[j])
  {
    assert FillTurnAt(ds, TwoPerSector(sectors), n, cs, j);
    OthersLater(ds, j, m);
    FillKeepsOut(ds, TwoPerSector(sectors), n, cs, m, j + 1, m, ds.ranked[j]);
    FillGrows(ds, TwoPerSector(sectors), n, cs, m, j, m);
    StillRefused(sectors, cs[j], cs[m], ds.ranked[j]);
  }

  /** It is refused in the displacement, too: by its turn nothing has changed. */
  lemma RefusedAgain(sectors: map<Ticker, Sector>, ds: DayScores, cs: seq<seq<Ticker>>, m: nat, j: nat)
    requires WellRanked(ds) && IsPass(ds, TwoPerSector(sectors), cs, m) && j < m
    requires forall x :: 0 <= x < j ==> ds.ranked[x] in cs[0]
    requires ds.ranked[j] !in cs[0] && !CanAdd(TwoPerSector(sectors), cs[0], ds.ranked[j])
    ensures ds.ranked[j] !in cs[m]
  {
    PassIdles(ds, TwoPerSector(sectors), cs, m, 0, j + 1);
    OthersLater(ds, j, m);
    PassKeepsOut(ds, TwoPerSector(sectors), cs, m, j + 1, m, ds.ranked[j]);
  }

  /** A name refused in the displacement is in the uncapped book at the end and not in the capped one. */
  lemma RefusedInPass(sectors: map<Ticker, Sector>, ds: DayScores, n: nat, k: set<Ticker>,
                      us: seq<seq<Ticker>>, cs: seq<seq<Ticker>>, j: nat)
    requires IsPass(ds, NoCap, us, Entries(ds, n)) && IsPass(ds, TwoPerSector(sectors), cs, Entries(ds, n))
    requires us[0] == cs[0] && InPass(ds, n, k, us[0], 0) && j < Entries(ds, n)
    requires forall x :: 0 <= x < j ==> PassAdmits(sectors, ds, us[x], x)
    requires !PassAdmits(sectors, ds, us[j], j)
    ensures ds.ranked[j] in us[Entries(ds, n)] && ds.ranked[j] !in cs[Entries(ds, n)]
  {
    EnteredUncapped(sectors, ds, n, k, us, j);
    PassSame(sectors, ds, us, cs, Entries(ds, n), j);
    LeftOutCapped(sectors, ds, n, cs, j);
  }

  lemma EnteredUncapped(sectors: map<Ticker, Sector>, ds: DayScores, n: nat, k: set<Ticker>, us: seq<seq<Ticker>>, j: nat)
    requires IsPass(ds, NoCap, us, Entries(ds, n)) && InPass(ds, n, k, us[0], 0) && j < Entries(ds, n)
    requires !PassAdmits(sectors, ds, us[j], j)
    ensures ds.ranked[j] in us[Entries(ds, n)]
  {
    PassKeeps(ds, n, k, us, j);
    assert TurnAt(ds, NoCap, us, j);
    TurnKeeps(ds, n, k, us, j);
    NewcomerStays(ds, n, k, us, j + 1, Entries(ds, n), ds.ranked[j]);
  }

  lemma LeftOutCapped(sectors: map<Ticker, Sector>, ds: DayScores, n: nat, cs: seq<seq<Ticker>>, j: nat)
    requires WellRanked(ds) && IsPass(ds, TwoPerSector(sectors), cs, Entries(ds, n)) && j < Entries(ds, n)
    requires ds.ranked[j] !in cs[j] && !CanAdd(TwoPerSector(sectors), cs[j], ds.ranked[j])
    ensures ds.ranked[j] !in cs[Entries(ds, n)]
  {
    assert TurnAt(ds, TwoPerSector(sectors), cs, j);
    TurnIdles(ds, TwoPerSector(sectors), cs, j);
    OthersLater(ds, j, Entries(ds, n));
    PassKeepsOut(ds, TwoPerSector(sectors), cs, Entries(ds, n), j + 1, Entries(ds, n), ds.ranked[j]);
  }

  /** The book the capped rules reach, before rank order. */
  ghost function CappedBook(sectors: map<Ticker, Sector>, ds: DayScores, held: seq<Ticker>,
                            prevRank: Option<map<Ticker, nat>>, n: nat): (book: seq<Ticker>)
    requires WellRanked(ds)
    ensures Ranked(ds, book)
  {
    Displace(ds, TwoPerSector(sectors), n, Filled(ds, held, prevRank, n, TwoPerSector(sectors)), 0)
  }

  /** The first name refused in the fill: the uncapped fill has it, the capped one has not and stays full. */
  lemma FillsDiffer(sectors: map<Ticker, Sector>, ds: DayScores, n: nat, book: seq<Ticker>) returns (j: nat)
    requires WellRanked(ds) && !FillNeverBinds(sectors, ds, n, book, 0)
    ensures j < Entries(ds, n) && ds.ranked[j] !in book && ds.ranked[j] in Fill(ds, NoCap, n, book, 0)
    ensures var filled := Fill(ds, TwoPerSector(sectors), n, book, 0);
            && (forall x :: 0 <= x < j ==> ds.ranked[x] in filled)
            && ds.ranked[j] !in filled && !CanAdd(TwoPerSector(sectors), filled, ds.ranked[j])
  {
    var m := Entries(ds, n);
    var us := TraceFill(ds, NoCap, n, book);
    var cs := TraceFill(ds, TwoPerSector(sectors), n, book);
    j := FirstRefusedInFill(sectors, ds, n, us, 0);
    FillSame(sectors, ds, n, us, cs, m, j);
    RefusedInFill(sectors, ds, n, cs, m, j);
    NotYetFull(ds, n, us, m, j);
    FillGrows(ds, TwoPerSector(sectors), n, cs, m, j, m);
    forall x | 0 <= x < j ensures ds.ranked[x] in cs[m] { InLonger(cs[j], cs[m], ds.ranked[x]); }
    assert FillTurnAt(ds, NoCap, n, us, j);
    FillGrows(ds, NoCap, n, us, m, j + 1, m);
    InLonger(us[j + 1], us[m], ds.ranked[j]);
    FillGrows(ds, NoCap, n, us, m, 0, j);
    if ds.ranked[j] in book { InLonger(book, us[j], ds.ranked[j]); }
  }

  lemma InLonger(a: seq<Ticker>, b: seq<Ticker>, t: Ticker)
    requires a <= b && t in a
    ensures t in b
  {}

  lemma NotEmptyWhenFull(sectors: map<Ticker, Sector>, b: seq<Ticker>, t: Ticker)
    requires !CanAdd(TwoPerSector(sectors), b, t)
    ensures b != []
  {}

  lemma FillTellsApart(sectors: map<Ticker, Sector>, ds: DayScores, held: seq<Ticker>,
                       prevRank: Option<map<Ticker, nat>>, n: nat) returns (t: Ticker)
    requires WellRanked(ds) && NoDup(held) && |held| <= n
    requires !FillNeverBinds(sectors, ds, n, Carry(ds, held, prevRank, n), 0)
    ensures t in Theorems.BookOf(ds, held, prevRank, n) && t !in CappedBook(sectors, ds, held, prevRank, n)
  {
    var m, carried := Entries(ds, n), Carry(ds, held, prevRank, n);
    var filled, capped := Filled(ds, held, prevRank, n, NoCap), Filled(ds, held, prevRank, n, TwoPerSector(sectors));
    var j := FillsDiffer(sectors, ds, n, carried);
    t := ds.ranked[j];
    FilledFacts(ds, held, prevRank, n);
    var us := TracePass(ds, NoCap, n, filled);
    NewcomerStays(ds, n, ToSet(carried), us, 0, m, t);
    NotEmptyWhenFull(sectors, capped, t);
    var cs := TracePass(ds, TwoPerSector(sectors), n, capped);
    RefusedAgain(sectors, ds, cs, m, j);
  }

  lemma PassTellsApart(sectors: map<Ticker, Sector>, ds: DayScores, held: seq<Ticker>,
                       prevRank: Option<map<Ticker, nat>>, n: nat) returns (t: Ticker)
    requires WellRanked(ds) && NoDup(held) && |held| <= n
    requires FillNeverBinds(sectors, ds, n, Carry(ds, held, prevRank, n), 0)
    requires !PassNeverBinds(sectors, ds, n, Filled(ds, held, prevRank, n, NoCap), 0)
    ensures t in Theorems.BookOf(ds, held, prevRank, n) && t !in CappedBook(sectors, ds, held, prevRank, n)
  {
    var m, filled := Entries(ds, n), Filled(ds, held, prevRank, n, NoCap);
    FillUnchanged(sectors, ds, n, Carry(ds, held, prevRank, n));
    FilledFacts(ds, held, prevRank, n);
    var us := TracePass(ds, NoCap, n, filled);
    var cs := TracePass(ds, TwoPerSector(sectors), n, filled);
    var j := FirstRefusedInPass(sectors, ds, n, us, 0);
    t := ds.ranked[j];
    RefusedInPass(sectors, ds, n, Theorems.CarriedSet(ds, held, prevRank, n), us, cs, j);
  }

  /** A name in the uncapped book alone is in the uncapped result alone. */
  lemma ResultsDiffer(sectors: map<Ticker, Sector>, ds: DayScores, held: seq<Ticker>,
                      prevRank: Option<map<Ticker, nat>>, n: nat, t: Ticker)
    requires WellRanked(ds) && NoDup(held) && |held| <= n
    requires t in Theorems.BookOf(ds, held, prevRank, n) && t !in CappedBook(sectors, ds, held, prevRank, n)
    ensures t in Select(ds, held, prevRank, n, NoCap) && t !in Select(ds, held, prevRank, n, TwoPerSector(sectors))
  {
    Theorems.BookIsSelection(ds, held, prevRank, n);
    Theorems.ResultFacts(ds, Theorems.BookOf(ds, held, prevRank, n));
    assert t !in InRankOrder(ds.ranked, CappedBook(sectors, ds, held, prevRank, n));
  }

  /** From at most `n` held names, the capped rules choose what the uncapped ones choose exactly when no name
      the uncapped rules take in meets a full sector at its turn.  Then whatever holds of the uncapped choice holds
      with the cap; for the fixed point alone that is more than is needed (`CapFixedPoint.FixedPointIff`). */
  lemma CapChangesNothingIff(sectors: map<Ticker, Sector>, ds: DayScores, held: seq<Ticker>,
                             prevRank: Option<map<Ticker, nat>>, n: nat)
    requires WellRanked(ds) && NoDup(held) && |held| <= n
    ensures Select(ds, held, prevRank, n, TwoPerSector(sectors)) == Select(ds, held, prevRank, n, NoCap)
            <==> CapNeverBinds(sectors, ds, held, prevRank, n)
  {
    if CapNeverBinds(sectors, ds, held, prevRank, n) {
      NeverBindingChangesNothing(sectors, ds, held, prevRank, n);
    } else if FillNeverBinds(sectors, ds, n, Carry(ds, held, prevRank, n), 0) {
      var t := PassTellsApart(sectors, ds, held, prevRank, n);
      ResultsDiffer(sectors, ds, held, prevRank, n, t);
    } else {
      var t := FillTellsApart(sectors, ds, held, prevRank, n);
      ResultsDiffer(sectors, ds, held, prevRank, n, t);
    }
  }

  // ---- a condition on the names alone ----------------------------------------------------------------------------------

  /** No known sector has three of these names. */
  ghost predicate Sparse(sectors: map<Ticker, Sector>, names: set<Ticker>) {
    forall s: Sector :: |Members(sectors, names, s)| <= 2
  }

  lemma SparserSubset(sectors: map<Ticker, Sector>, few: set<Ticker>, names: set<Ticker>)
    requires Sparse(sectors, names) && few <= names
    ensures Sparse(sectors, few)
  {
    forall s: Sector ensures |Members(sectors, few, s)| <= 2 {
      Theorems.Subsets(Members(sectors, few, s), Members(sectors, names, s));
    }
  }

  lemma RoomFor(sectors: map<Ticker, Sector>, names: set<Ticker>, book: seq<Ticker>, t: Ticker)
    requires Sparse(sectors, names) && NoDup(book) && ToSet(book) <= names && t in names && t !in book
    ensures CanAdd(TwoPerSector(sectors), book, t)
  {
    if Known(sectors, t) {
      var s := sectors[t];
      CountIsSize(sectors, book, s);
      assert t !in ToSet(book);
      Theorems.Subsets(Members(sectors, ToSet(book), s) + {t}, Members(sectors, names, s));
    }
  }

  ghost predicate Among(b: seq<Ticker>, names: set<Ticker>) {
    NoDup(b) && ToSet(b) <= names
  }

  lemma {:induction false} SparseFill(sectors: map<Ticker, Sector>, ds: DayScores, n: nat, names: set<Ticker>,
                                      us: seq<seq<Ticker>>, j: nat)
    requires IsFill(ds, NoCap, n, us, Entries(ds, n)) && j <= Entries(ds, n)
    requires Sparse(sectors, names) && Theorems.Top(ds, n) <= names && Among(us[0], names)
    ensures Among(us[j], names)
    ensures forall x :: 0 <= x < j ==> FillAdmits(sectors, ds, n, us[x], x)
  {
    if j > 0 {
      SparseFill(sectors, ds, n, names, us, j - 1);
      assert FillTurnAt(ds, NoCap, n, us, j - 1);
      SparseFillTurn(sectors, ds, n, names, us[j - 1], j - 1);
    }
  }

  lemma SparseFillTurn(sectors: map<Ticker, Sector>, ds: DayScores, n: nat, names: set<Ticker>, b: seq<Ticker>, j: nat)
    requires Sparse(sectors, names) && Theorems.Top(ds, n) <= names && Among(b, names) && j < Entries(ds, n)
    ensures FillAdmits(sectors, ds, n, b, j) && Among(FillTurn(ds, NoCap, n, b, j), names)
  {
    var t := ds.ranked[j];
    assert Theorems.InTop(ds, n, t);
    if t !in b {
      RoomFor(sectors, names, b, t);
      assert ToSet(b + [t]) == ToSet(b) + {t};
    }
  }

  lemma {:induction false} SparsePass(sectors: map<Ticker, Sector>, ds: DayScores, n: nat, names: set<Ticker>,
                                      us: seq<seq<Ticker>>, j: nat)
    requires IsPass(ds, NoCap, us, Entries(ds, n)) && j <= Entries(ds, n)
    requires Sparse(sectors, names) && Theorems.Top(ds, n) <= names && Among(us[0], names)
    ensures Among(us[j], names)
    ensures forall x :: 0 <= x < j ==> PassAdmits(sectors, ds, us[x], x)
  {
    if j > 0 {
      SparsePass(sectors, ds, n, names, us, j - 1);
      assert TurnAt(ds, NoCap, us, j - 1);
      SparseTurn(sectors, ds, n, names, us, j - 1);
    }
  }

  lemma SparseTurn(sectors: map<Ticker, Sector>, ds: DayScores, n: nat, names: set<Ticker>, us: seq<seq<Ticker>>, j: nat)
    requires Sparse(sectors, names) && Theorems.Top(ds, n) <= names && j < Entries(ds, n)
    requires j + 1 < |us| && TurnAt(ds, NoCap, us, j) && Among(us[j], names)
    ensures PassAdmits(sectors, ds, us[j], j) && Among(us[j + 1], names)
  {
    assert Theorems.InTop(ds, n, ds.ranked[j]);
    if Enters(ds, us[j], j) {
      RoomFor(sectors, names, us[j], ds.ranked[j]);
      Theorems.ReplacedSet(us[j], Weakest(ds, us[j]), ds.ranked[j]);
    }
  }

  /** If no known sector has more than two names among the carried and the entering ones, the cap changes
      nothing and the choice is made from those names. */
  lemma SparseChangesNothing(sectors: map<Ticker, Sector>, ds: DayScores, held: seq<Ticker>,
                             prevRank: Option<map<Ticker, nat>>, n: nat)
    requires WellRanked(ds) && NoDup(held)
    requires Sparse(sectors, Theorems.CarriedSet(ds, held, prevRank, n) + Theorems.Top(ds, n))
    ensures Select(ds, held, prevRank, n, TwoPerSector(sectors)) == Select(ds, held, prevRank, n, NoCap)
    ensures ToSet(Select(ds, held, prevRank, n, NoCap))
            <= Theorems.CarriedSet(ds, held, prevRank, n) + Theorems.Top(ds, n)
  {
    var k, top := Theorems.CarriedSet(ds, held, prevRank, n), Theorems.Top(ds, n);
    var m := Entries(ds, n);
    var filled := Filled(ds, held, prevRank, n, NoCap);
    Theorems.CarryNoDup(ds, held, prevRank, n);
    var fill := TraceFill(ds, NoCap, n, Carry(ds, held, prevRank, n));
    SparseFill(sectors, ds, n, k + top, fill, m);
    FillBindsOnTrace(sectors, ds, n, fill, 0);
    if filled != [] {
      var pass := TracePass(ds, NoCap, n, filled);
      SparsePass(sectors, ds, n, k + top, pass, m);
      PassBindsOnTrace(sectors, ds, n, pass, 0);
    }
    NeverBindingChangesNothing(sectors, ds, held, prevRank, n);
    forall t | t in Select(ds, held, prevRank, n, NoCap) ensures t in k + top {
      assert t in ToSet(Displace(ds, NoCap, n, filled, 0));
    }
  }

  /** Then one pass of the capped rules is a fixed point too. */
  lemma CappedPassSelects(sectors: map<Ticker, Sector>, ds: DayScores, held: seq<Ticker>,
                          prevRank: Option<map<Ticker, nat>>, n: nat)
    requires WellRanked(ds) && NoDup(held) && |held| <= n
    requires Sparse(sectors, Theorems.CarriedSet(ds, held, prevRank, n) + Theorems.Top(ds, n))
    ensures var r, k := Select(ds, held, prevRank, n, TwoPerSector(sectors)), Theorems.CarriedSet(ds, held, prevRank, n);
            && Theorems.InOrder(ds, r) && NoDup(r) && |r| <= n
            && k <= ds.score.Keys && ToSet(r) <= ds.score.Keys
            && Theorems.IsSelection(ds, n, k, ToSet(r))
  {
    SparseChangesNothing(sectors, ds, held, prevRank, n);
    Theorems.OnePassSelects(ds, held, prevRank, n);
  }

  /** And while ranks and scores stand still, the capped book is constant from the second selection on. */
  lemma CappedConverges(sectors: map<Ticker, Sector>, ds: DayScores, n: nat, prevRank: Option<map<Ticker, nat>>,
                        books: seq<seq<Ticker>>, d: nat)
    requires WellRanked(ds) && Theorems.SteadyRun(ds, n, prevRank, books, TwoPerSector(sectors))
    requires 2 <= d < |books|
    requires Sparse(sectors, ToSet(books[0]) + Theorems.Top(ds, n))
    ensures ToSet(books[d]) == ToSet(books[2])
  {
    forall e | 0 <= e < |books| - 1
      ensures ToSet(books[e + 1])
           == ToSet(Select(ds, books[e], if e == 0 then prevRank else Some(ds.rank), n, NoCap))
    {
      StaysAmong(sectors, ds, n, prevRank, books, e);
    }
    Theorems.ConvergesInTwoDays(ds, n, prevRank, books, d);
  }

  lemma {:induction false} StaysAmong(sectors: map<Ticker, Sector>, ds: DayScores, n: nat, prevRank: Option<map<Ticker, nat>>,
                                      books: seq<seq<Ticker>>, e: nat)
    requires WellRanked(ds) && Theorems.SteadyRun(ds, n, prevRank, books, TwoPerSector(sectors))
    requires e < |books| && Sparse(sectors, ToSet(books[0]) + Theorems.Top(ds, n))
    ensures ToSet(books[e]) <= ToSet(books[0]) + Theorems.Top(ds, n)
    ensures var prev := if e == 0 then prevRank else Some(ds.rank);
            Select(ds, books[e], prev, n, TwoPerSector(sectors)) == Select(ds, books[e], prev, n, NoCap)
    ensures var prev := if e == 0 then prevRank else Some(ds.rank);
            ToSet(Select(ds, books[e], prev, n, NoCap)) <= ToSet(books[0]) + Theorems.Top(ds, n)
  {
    if e > 0 {
      StaysAmong(sectors, ds, n, prevRank, books, e - 1);
    }
    var prev := if e == 0 then prevRank else Some(ds.rank);
    var k := Theorems.CarriedSet(ds, books[e], prev, n);
    assert forall t :: t in k ==> t in ToSet(books[e]);
    SparserSubset(sectors, k + Theorems.Top(ds, n), ToSet(books[0]) + Theorems.Top(ds, n));
    SparseChangesNothing(sectors, ds, books[e], prev, n);
  }
}
