/** Exactly when the displacement with the cap ends at a fixed point: no name it refused has room at the end and
    beats a name that is kept. */
module CapFixedPoint {
  import opened Selection
  import opened SelectionTrace

  /** Name `t` is not in the book although it has room and beats `c`, who is. */
  ghost predicate LeftOut(ds: DayScores, cap: Cap, book: seq<Ticker>, t: Ticker, c: Ticker) {
    && t !in book && c in book && CanAdd(cap, book, t)
    && t in ds.score && c in ds.score && Beats(ds, t, c)
  }

  ghost predicate NothingLeftOut(ds: DayScores, cap: Cap, n: nat, book: seq<Ticker>) {
    forall j, c :: 0 <= j < Entries(ds, n) ==> !LeftOut(ds, cap, book, ds.ranked[j], c)
  }

  /** At its turn name `j` finds no room although it beats the weakest. */
  ghost predicate Refused(ds: DayScores, cap: Cap, book: seq<Ticker>, j: nat) {
    Enters(ds, book, j) && !CanAdd(cap, book, ds.ranked[j])
  }

  // ---- what a pass keeps ----------------------------------------------------------------------------------------

  ghost predicate Floor(ds: DayScores, book: seq<Ticker>, x: real) {
    forall c :: c in book ==> c in ds.score && x <= ds.score[c]
  }

  lemma TurnKeepsFloor(ds: DayScores, cap: Cap, books: seq<seq<Ticker>>, j: nat, x: real)
    requires j + 1 < |books| && TurnAt(ds, cap, books, j) && Floor(ds, books[j], x)
    ensures Floor(ds, books[j + 1], x)
  {
    var w := Weakest(ds, books[j]);
    assert books[j][w] in books[j];
    forall c | c in books[j + 1] ensures c in ds.score && x <= ds.score[c] {
      if c !in books[j] {
        assert c == ds.ranked[j] && Beats(ds, c, books[j][w]);
      }
    }
  }

  /** The lowest score of the book never falls. */
  lemma {:induction false} FloorHolds(ds: DayScores, cap: Cap, books: seq<seq<Ticker>>, m: nat, j: nat, i: nat, x: real)
    requires IsPass(ds, cap, books, m) && j <= i <= m && Floor(ds, books[j], x)
    ensures Floor(ds, books[i], x)
  {
    if j < i {
      FloorHolds(ds, cap, books, m, j, i - 1, x);
      assert TurnAt(ds, cap, books, i - 1);
      TurnKeepsFloor(ds, cap, books, i - 1, x);
    }
  }

  lemma TurnKeepsVisited(ds: DayScores, cap: Cap, books: seq<seq<Ticker>>, j: nat, p: nat)
    requires j + 1 < |books| && TurnAt(ds, cap, books, j) && p <= j && ds.ranked[p] in books[j]
    ensures ds.ranked[p] in books[j + 1]
  {
    var w, t := Weakest(ds, books[j]), ds.ranked[p];
    assert ds.score[ds.ranked[j]] <= ds.score[t] by {
      if p < j { assert ds.score[ds.ranked[j]] <= ds.score[ds.ranked[p]]; }
    }
    var i :| 0 <= i < |books[j]| && books[j][i] == t;
    assert i != w ==> books[j + 1][i] == t;
  }

  /** A name in the book after its own turn stays in it. */
  lemma {:induction false} VisitedStays(ds: DayScores, cap: Cap, books: seq<seq<Ticker>>, m: nat, p: nat, j: nat, i: nat)
    requires IsPass(ds, cap, books, m) && p <= j <= i <= m && p < m && ds.ranked[p] in books[j]
    ensures ds.ranked[p] in books[i]
  {
    if j < i {
      VisitedStays(ds, cap, books, m, p, j, i - 1);
      assert TurnAt(ds, cap, books, i - 1);
      TurnKeepsVisited(ds, cap, books, i - 1, p);
    }
  }

  lemma WeakestIsFloor(ds: DayScores, book: seq<Ticker>)
    requires WellRanked(ds) && Ranked(ds, book) && book != []
    ensures Floor(ds, book, ds.score[book[Weakest(ds, book)]])
  {}

  /** Whoever is left out at the end was refused at its turn. */
  lemma LeftOutWasRefused(ds: DayScores, cap: Cap, books: seq<seq<Ticker>>, m: nat, j: nat, c: Ticker)
    requires WellRanked(ds) && IsPass(ds, cap, books, m) && j < m && LeftOut(ds, cap, books[m], ds.ranked[j], c)
    ensures Refused(ds, cap, books[j], j)
  {
    assert TurnAt(ds, cap, books, j);
    var t, b := ds.ranked[j], books[j];
    if t in b {
      VisitedStays(ds, cap, books, m, j, j, m);
    }
    WeakestIsFloor(ds, b);
    FloorHolds(ds, cap, books, m, j, m, ds.score[b[Weakest(ds, b)]]);
    if CanAdd(cap, b, t) {
      assert t == books[j + 1][Weakest(ds, b)];
      VisitedStays(ds, cap, books, m, j, j + 1, m);
    }
  }

  /** Name `j` was refused at its turn; at the end it finds room and still beats the weakest. */
  ghost predicate WouldEnter(ds: DayScores, cap: Cap, turn: seq<Ticker>, end: seq<Ticker>, j: nat) {
    Refused(ds, cap, turn, j) && Enters(ds, end, j) && CanAdd(cap, end, ds.ranked[j])
  }

  lemma LeftOutIff(ds: DayScores, cap: Cap, books: seq<seq<Ticker>>, m: nat, j: nat)
    requires WellRanked(ds) && IsPass(ds, cap, books, m) && j < m && Ranked(ds, books[m]) && books[m] != []
    ensures (exists c :: LeftOut(ds, cap, books[m], ds.ranked[j], c)) <==> WouldEnter(ds, cap, books[j], books[m], j)
  {
    var end := books[m];
    if c :| LeftOut(ds, cap, end, ds.ranked[j], c) {
      LeftOutWasRefused(ds, cap, books, m, j, c);
      WeakestIsFloor(ds, end);
    }
    if WouldEnter(ds, cap, books[j], end, j) {
      assert LeftOut(ds, cap, end, ds.ranked[j], end[Weakest(ds, end)]);
    }
  }

  // ---- another pass ----------------------------------------------------------------------------------------------

  lemma IdleUnlessLeftOut(ds: DayScores, cap: Cap, book: seq<Ticker>, t: Ticker)
    requires forall c :: !LeftOut(ds, cap, book, t, c)
    ensures Idle(ds, cap, book, t)
  {
    if !Idle(ds, cap, book, t) {
      var c :| c in book && c in ds.score && t in ds.score && Beats(ds, t, c);
      assert LeftOut(ds, cap, book, t, c);
    }
  }

  lemma FirstLeftOut(ds: DayScores, cap: Cap, book: seq<Ticker>, i: nat) returns (j: nat, c: Ticker)
    requires i <= |ds.ranked| && exists x, c :: 0 <= x < i && LeftOut(ds, cap, book, ds.ranked[x], c)
    ensures j < i && LeftOut(ds, cap, book, ds.ranked[j], c)
    ensures forall x :: 0 <= x < j ==> Idle(ds, cap, book, ds.ranked[x])
  {
    if exists x, d :: 0 <= x < i - 1 && LeftOut(ds, cap, book, ds.ranked[x], d) {
      j, c := FirstLeftOut(ds, cap, book, i - 1);
    } else {
      j := i - 1;
      c :| LeftOut(ds, cap, book, ds.ranked[j], c);
      forall x | 0 <= x < j ensures Idle(ds, cap, book, ds.ranked[x]) {
        IdleUnlessLeftOut(ds, cap, book, ds.ranked[x]);
      }
    }
  }

  /** Another pass changes nothing exactly when nothing is left out. */
  lemma StandsIffNothingLeftOut(ds: DayScores, cap: Cap, n: nat, book: seq<Ticker>)
    requires WellRanked(ds) && Ranked(ds, book) && book != []
    ensures Displace(ds, cap, n, book, 0) == book <==> NothingLeftOut(ds, cap, n, book)
  {
    var m := Entries(ds, n);
    var books := TracePass(ds, cap, n, book);
    if NothingLeftOut(ds, cap, n, book) {
      forall x | 0 <= x < m ensures Idle(ds, cap, books[0], ds.ranked[x]) {
        IdleUnlessLeftOut(ds, cap, book, ds.ranked[x]);
      }
      PassIdles(ds, cap, books, m, 0, m);
    } else {
      var j, c := FirstLeftOut(ds, cap, book, m);
      PassIdles(ds, cap, books, m, 0, j);
      LeftOutEnters(ds, cap, books, m, j, c);
    }
  }

  lemma LeftOutEnters(ds: DayScores, cap: Cap, books: seq<seq<Ticker>>, m: nat, j: nat, c: Ticker)
    requires WellRanked(ds) && IsPass(ds, cap, books, m) && j < m && LeftOut(ds, cap, books[j], ds.ranked[j], c)
    ensures ds.ranked[j] in books[m]
  {
    assert TurnAt(ds, cap, books, j);
    WeakestIsFloor(ds, books[j]);
    assert books[j + 1][Weakest(ds, books[j])] == ds.ranked[j];
    VisitedStays(ds, cap, books, m, j, j + 1, m);
  }

  /** From any book, with or without the cap: after one pass another changes nothing exactly when every name
      that beat the weakest at its turn and was refused finds no room at the end or no longer beats the weakest. */
  lemma FixedPointIff(ds: DayScores, cap: Cap, n: nat, book: seq<Ticker>, books: seq<seq<Ticker>>)
    requires WellRanked(ds) && Ranked(ds, book) && book != []
    requires IsPass(ds, cap, books, Entries(ds, n)) && books[0] == book
    ensures var r := Displace(ds, cap, n, book, 0);
            && (NothingLeftOut(ds, cap, n, r)
                <==> forall j :: 0 <= j < Entries(ds, n) ==> !WouldEnter(ds, cap, books[j], r, j))
            && (Displace(ds, cap, n, r, 0) == r <==> NothingLeftOut(ds, cap, n, r))
  {
    var m, r := Entries(ds, n), Displace(ds, cap, n, book, 0);
    var trace := TracePass(ds, cap, n, book);
    OneTrace(ds, cap, books, trace, m, m);
    forall j | 0 <= j < m
      ensures (exists c :: LeftOut(ds, cap, r, ds.ranked[j], c)) <==> WouldEnter(ds, cap, books[j], r, j)
    {
      LeftOutIff(ds, cap, books, m, j);
    }
    StandsIffNothingLeftOut(ds, cap, n, r);
  }

  lemma {:induction false} OneTrace(ds: DayScores, cap: Cap, a: seq<seq<Ticker>>, b: seq<seq<Ticker>>, m: nat, j: nat)
    requires IsPass(ds, cap, a, m) && IsPass(ds, cap, b, m) && a[0] == b[0] && j <= m
    ensures a[j] == b[j]
  {
    if j > 0 {
      OneTrace(ds, cap, a, b, m, j - 1);
      assert TurnAt(ds, cap, a, j - 1) && TurnAt(ds, cap, b, j - 1);
    }
  }
}
