/** The fill and the displacement turn by turn, as sequences of books. */
module SelectionTrace {
  import opened Options
  import opened Selection
  import Theorems = SelectionTheorems

  // ---- the two passes, turn by turn ------------------------------------------------------------------------------

  function FillTurn(ds: DayScores, cap: Cap, n: nat, book: seq<Ticker>, j: nat): seq<Ticker>
    requires j < |ds.ranked|
  {
    var t := ds.ranked[j];
    if |book| < n && t !in book && CanAdd(cap, book, t) then book + [t] else book
  }

  /** `books[j]` is the book of the fill before name `j` has its turn. */
  ghost predicate FillTurnAt(ds: DayScores, cap: Cap, n: nat, books: seq<seq<Ticker>>, j: nat)
    requires j + 1 < |books|
  {
    j < |ds.ranked| && books[j + 1] == FillTurn(ds, cap, n, books[j], j)
  }

  ghost predicate IsFill(ds: DayScores, cap: Cap, n: nat, books: seq<seq<Ticker>>, m: nat) {
    && |books| == m + 1 && m <= |ds.ranked|
    && forall j {:trigger FillTurnAt(ds, cap, n, books, j)} :: 0 <= j < m ==> FillTurnAt(ds, cap, n, books, j)
  }

  /** The same of the displacement. */
  ghost predicate TurnAt(ds: DayScores, cap: Cap, books: seq<seq<Ticker>>, j: nat)
    requires j + 1 < |books|
  {
    && WellRanked(ds) && j < |ds.ranked| && Ranked(ds, books[j]) && books[j] != []
    && books[j + 1] == Turn(ds, cap, books[j], j)
  }

  ghost predicate IsPass(ds: DayScores, cap: Cap, books: seq<seq<Ticker>>, m: nat) {
    && |books| == m + 1 && m <= |ds.ranked|
    && forall j {:trigger TurnAt(ds, cap, books, j)} :: 0 <= j < m ==> TurnAt(ds, cap, books, j)
  }

  lemma TraceFill(ds: DayScores, cap: Cap, n: nat, book: seq<Ticker>) returns (books: seq<seq<Ticker>>)
    ensures IsFill(ds, cap, n, books, Entries(ds, n))
    ensures books[0] == book && books[Entries(ds, n)] == Fill(ds, cap, n, book, 0)
  {
    books := [book];
    while |books| <= Entries(ds, n)
      invariant 0 < |books| <= Entries(ds, n) + 1 && books[0] == book
      invariant IsFill(ds, cap, n, books, |books| - 1)
      invariant Fill(ds, cap, n, books[|books| - 1], |books| - 1) == Fill(ds, cap, n, book, 0)
    {
      books := OneMoreFillTurn(ds, cap, n, books);
    }
  }

  lemma OneMoreFillTurn(ds: DayScores, cap: Cap, n: nat, books: seq<seq<Ticker>>) returns (more: seq<seq<Ticker>>)
    requires 0 < |books| <= Entries(ds, n) && IsFill(ds, cap, n, books, |books| - 1)
    ensures |more| == |books| + 1 && more[0] == books[0] && IsFill(ds, cap, n, more, |books|)
    ensures Fill(ds, cap, n, more[|books|], |books|) == Fill(ds, cap, n, books[|books| - 1], |books| - 1)
  {
    more := books + [FillTurn(ds, cap, n, books[|books| - 1], |books| - 1)];
    forall j | 0 <= j < |books| ensures FillTurnAt(ds, cap, n, more, j) {
      assert j < |books| - 1 ==> FillTurnAt(ds, cap, n, books, j);
    }
  }

  lemma TracePass(ds: DayScores, cap: Cap, n: nat, book: seq<Ticker>) returns (books: seq<seq<Ticker>>)
    requires WellRanked(ds) && Ranked(ds, book) && book != []
    ensures IsPass(ds, cap, books, Entries(ds, n))
    ensures books[0] == book && books[Entries(ds, n)] == Displace(ds, cap, n, book, 0)
  {
    books := [book];
    while |books| <= Entries(ds, n)
      invariant 0 < |books| <= Entries(ds, n) + 1 && books[0] == book
      invariant IsPass(ds, cap, books, |books| - 1)
      invariant Ranked(ds, books[|books| - 1]) && books[|books| - 1] != []
      invariant Displace(ds, cap, n, books[|books| - 1], |books| - 1) == Displace(ds, cap, n, book, 0)
    {
      books := OneMoreTurn(ds, cap, n, books);
    }
  }

  lemma OneMoreTurn(ds: DayScores, cap: Cap, n: nat, books: seq<seq<Ticker>>) returns (more: seq<seq<Ticker>>)
    requires WellRanked(ds) && 0 < |books| <= Entries(ds, n) && IsPass(ds, cap, books, |books| - 1)
    requires Ranked(ds, books[|books| - 1]) && books[|books| - 1] != []
    ensures |more| == |books| + 1 && more[0] == books[0] && IsPass(ds, cap, more, |books|)
    ensures Ranked(ds, more[|books|]) && more[|books|] != []
    ensures Displace(ds, cap, n, more[|books|], |books|) == Displace(ds, cap, n, books[|books| - 1], |books| - 1)
  {
    var b := books[|books| - 1];
    more := books + [Turn(ds, cap, b, |books| - 1)];
    forall j | 0 <= j < |books| ensures TurnAt(ds, cap, more, j) {
      assert j < |books| - 1 ==> TurnAt(ds, cap, books, j);
    }
  }

  // ---- what a turn can do -----------------------------------------------------------------------------------------

  ghost predicate Enters(ds: DayScores, b: seq<Ticker>, j: nat) {
    && WellRanked(ds) && Ranked(ds, b) && b != [] && j < |ds.ranked|
    && ds.ranked[j] !in b && Beats(ds, ds.ranked[j], b[Weakest(ds, b)])
  }

  /** The book of the fill only grows. */
  lemma {:induction false} FillGrows(ds: DayScores, cap: Cap, n: nat, books: seq<seq<Ticker>>, m: nat, j: nat, i: nat)
    requires IsFill(ds, cap, n, books, m) && j <= i <= m
    ensures books[j] <= books[i]
  {
    if j < i {
      FillGrows(ds, cap, n, books, m, j, i - 1);
      assert FillTurnAt(ds, cap, n, books, i - 1);
    }
  }

  /** A name comes into the book at its own turn or not at all. */
  lemma {:induction false} FillKeepsOut(ds: DayScores, cap: Cap, n: nat, books: seq<seq<Ticker>>, m: nat, j: nat, i: nat, t: Ticker)
    requires IsFill(ds, cap, n, books, m) && j <= i <= m
    requires t !in books[j] && forall x :: j <= x < i ==> ds.ranked[x] != t
    ensures t !in books[i]
  {
    if j < i {
      FillKeepsOut(ds, cap, n, books, m, j, i - 1, t);
      assert FillTurnAt(ds, cap, n, books, i - 1);
    }
  }

  lemma TurnAdds(ds: DayScores, cap: Cap, books: seq<seq<Ticker>>, j: nat, t: Ticker)
    requires j + 1 < |books| && TurnAt(ds, cap, books, j) && t !in books[j] && ds.ranked[j] != t
    ensures t !in books[j + 1]
  {}

  lemma {:induction false} PassKeepsOut(ds: DayScores, cap: Cap, books: seq<seq<Ticker>>, m: nat, j: nat, i: nat, t: Ticker)
    requires IsPass(ds, cap, books, m) && j <= i <= m
    requires t !in books[j] && forall x :: j <= x < i ==> ds.ranked[x] != t
    ensures t !in books[i]
  {
    if j < i {
      PassKeepsOut(ds, cap, books, m, j, i - 1, t);
      assert TurnAt(ds, cap, books, i - 1);
      TurnAdds(ds, cap, books, i - 1, t);
    }
  }

  /** Name `t` is in the book, or refused, or beats nobody in it. */
  ghost predicate Idle(ds: DayScores, cap: Cap, b: seq<Ticker>, t: Ticker) {
    t in b || !CanAdd(cap, b, t) || forall c :: c in b && c in ds.score && t in ds.score ==> !Beats(ds, t, c)
  }

  /** No turn changes the book while every name is idle. */
  lemma {:induction false} PassIdles(ds: DayScores, cap: Cap, books: seq<seq<Ticker>>, m: nat, i: nat, j: nat)
    requires IsPass(ds, cap, books, m) && i <= j <= m
    requires forall x :: i <= x < j ==> Idle(ds, cap, books[i], ds.ranked[x])
    ensures books[j] == books[i]
  {
    if i < j {
      PassIdles(ds, cap, books, m, i, j - 1);
      assert TurnAt(ds, cap, books, j - 1);
      TurnIdles(ds, cap, books, j - 1);
    }
  }

  lemma TurnIdles(ds: DayScores, cap: Cap, books: seq<seq<Ticker>>, j: nat)
    requires j + 1 < |books| && TurnAt(ds, cap, books, j)
    requires Idle(ds, cap, books[j], ds.ranked[j])
    ensures books[j + 1] == books[j]
  {
    assert books[j][Weakest(ds, books[j])] in books[j];
  }

  lemma Differ(ds: DayScores, i: nat, j: nat)
    requires WellRanked(ds) && i < |ds.ranked| && j < |ds.ranked| && i != j
    ensures ds.ranked[i] != ds.ranked[j]
  {
    assert ds.rank[ds.ranked[i]] == i + 1 && ds.rank[ds.ranked[j]] == j + 1;
  }

  lemma OthersLater(ds: DayScores, j: nat, m: nat)
    requires WellRanked(ds) && j < m <= |ds.ranked|
    ensures forall x :: j + 1 <= x < m ==> ds.ranked[x] != ds.ranked[j]
  {
    forall x | j + 1 <= x < m ensures ds.ranked[x] != ds.ranked[j] { Differ(ds, x, j); }
  }

  /** A fill that is not yet full has taken in every name it has visited. */
  lemma {:induction false} NotYetFull(ds: DayScores, n: nat, us: seq<seq<Ticker>>, m: nat, j: nat)
    requires IsFill(ds, NoCap, n, us, m) && j <= m && |us[j]| < n
    ensures forall x :: 0 <= x < j ==> ds.ranked[x] in us[j]
  {
    if j > 0 {
      assert FillTurnAt(ds, NoCap, n, us, j - 1);
      NotYetFull(ds, n, us, m, j - 1);
    }
  }

  // ---- the uncapped displacement ------------------------------------------------------------------------------------

  /** What holds of the uncapped pass before each turn. */
  ghost predicate InPass(ds: DayScores, n: nat, k: set<Ticker>, b: seq<Ticker>, j: nat) {
    WellRanked(ds) && NoDup(b) && Theorems.Displacing(ds, n, k, ToSet(b), j)
  }

  /** One turn of it: it never displaces a newcomer. */
  lemma TurnKeeps(ds: DayScores, n: nat, k: set<Ticker>, us: seq<seq<Ticker>>, j: nat)
    requires j + 1 < |us| && TurnAt(ds, NoCap, us, j) && InPass(ds, n, k, us[j], j) && j < Entries(ds, n)
    ensures InPass(ds, n, k, us[j + 1], j + 1)
    ensures forall u :: u in us[j] && u !in k ==> u in us[j + 1]
    ensures Enters(ds, us[j], j) ==> ds.ranked[j] in us[j + 1] && ds.ranked[j] !in k
  {
    var next := Theorems.StepKeeps(ds, n, k, us[j], j, Weakest(ds, us[j]));
    assert next == us[j + 1];
  }

  lemma {:induction false} PassKeeps(ds: DayScores, n: nat, k: set<Ticker>, us: seq<seq<Ticker>>, j: nat)
    requires IsPass(ds, NoCap, us, Entries(ds, n)) && InPass(ds, n, k, us[0], 0) && j <= Entries(ds, n)
    ensures InPass(ds, n, k, us[j], j)
  {
    if j > 0 {
      PassKeeps(ds, n, k, us, j - 1);
      PassStep(ds, n, k, us, j - 1);
    }
  }

  lemma PassStep(ds: DayScores, n: nat, k: set<Ticker>, us: seq<seq<Ticker>>, j: nat)
    requires IsPass(ds, NoCap, us, Entries(ds, n)) && j < Entries(ds, n) && InPass(ds, n, k, us[j], j)
    ensures InPass(ds, n, k, us[j + 1], j + 1)
  {
    assert TurnAt(ds, NoCap, us, j);
    TurnKeeps(ds, n, k, us, j);
  }

  lemma {:induction false} NewcomerStays(ds: DayScores, n: nat, k: set<Ticker>, us: seq<seq<Ticker>>, j: nat, i: nat, t: Ticker)
    requires IsPass(ds, NoCap, us, Entries(ds, n)) && InPass(ds, n, k, us[0], 0) && j <= i <= Entries(ds, n)
    requires t in us[j] && t !in k
    ensures t in us[i]
  {
    if j < i {
      NewcomerStays(ds, n, k, us, j, i - 1, t);
      SurvivesTurn(ds, n, k, us, i - 1, t);
    }
  }

  lemma SurvivesTurn(ds: DayScores, n: nat, k: set<Ticker>, us: seq<seq<Ticker>>, j: nat, t: Ticker)
    requires IsPass(ds, NoCap, us, Entries(ds, n)) && InPass(ds, n, k, us[0], 0) && j < Entries(ds, n)
    requires t in us[j] && t !in k
    ensures t in us[j + 1]
  {
    PassKeeps(ds, n, k, us, j);
    assert TurnAt(ds, NoCap, us, j);
    TurnKeeps(ds, n, k, us, j);
  }

  lemma FilledFacts(ds: DayScores, held: seq<Ticker>, prevRank: Option<map<Ticker, nat>>, n: nat)
    requires WellRanked(ds) && NoDup(held) && |held| <= n
    ensures InPass(ds, n, Theorems.CarriedSet(ds, held, prevRank, n), Filled(ds, held, prevRank, n, NoCap), 0)
  {
    var carried := Carry(ds, held, prevRank, n);
    Theorems.CarryNoDup(ds, held, prevRank, n);
    var j := Theorems.FillMeaning(ds, n, ToSet(carried), carried, 0);
    Theorems.FilledCanDisplace(ds, n, ToSet(carried), Filled(ds, held, prevRank, n, NoCap), j);
  }
}
