/** What the daily selection means, without the cap: one pass reaches a fixed point, and two days a steady book. */
module SelectionTheorems {
  import opened Options
  import opened Selection

  // ---- the declarative reference ------------------------------------------------------------------------

  predicate InTop(ds: DayScores, n: nat, t: Ticker) {
    exists i :: 0 <= i < Entries(ds, n) && ds.ranked[i] == t
  }

  function Top(ds: DayScores, n: nat): (top: set<Ticker>)
    ensures forall t :: t in top <==> InTop(ds, n, t)
  {
    assert forall t :: t in ds.ranked[..Entries(ds, n)] <==> InTop(ds, n, t);
    set t | t in ds.ranked[..Entries(ds, n)]
  }

  /** The book `b` is what the rules say it must be when the names in `k` are carried: it holds only carried
      and entering names, it is full unless they run out, the newcomers are the best entering names, the
      dropped are the weakest carried names, every dropped name is at least 0.30 below every newcomer, and
      no entering name left out is 0.30 above any name chosen. */
  ghost predicate IsSelection(ds: DayScores, n: nat, k: set<Ticker>, b: set<Ticker>)
    requires WellRanked(ds) && k <= ds.score.Keys && b <= ds.score.Keys
  {
    && b <= k + Top(ds, n)
    && |b| == (if |k + Top(ds, n)| < n then |k + Top(ds, n)| else n)
    && NewcomersAreBest(ds, n, k, b)
    && DroppedAreWeakest(ds, k, b)
    && DroppedAreBeaten(ds, k, b)
    && NoneLeftOut(ds, n, b)
  }

  ghost predicate NewcomersAreBest(ds: DayScores, n: nat, k: set<Ticker>, b: set<Ticker>)
    requires WellRanked(ds) && b <= ds.score.Keys
  {
    forall u, t :: u in b - k && t in Top(ds, n) - k - b ==> ds.rank[u] < ds.rank[t]
  }

  ghost predicate DroppedAreWeakest(ds: DayScores, k: set<Ticker>, b: set<Ticker>)
    requires k <= ds.score.Keys && b <= ds.score.Keys
  {
    forall h, c :: h in k - b && c in b ==> ds.score[h] <= ds.score[c]
  }

  ghost predicate DroppedAreBeaten(ds: DayScores, k: set<Ticker>, b: set<Ticker>)
    requires k <= ds.score.Keys && b <= ds.score.Keys
  {
    forall h, u :: h in k - b && u in b - k ==> Beats(ds, u, h)
  }

  ghost predicate NoneLeftOut(ds: DayScores, n: nat, b: set<Ticker>)
    requires WellRanked(ds) && b <= ds.score.Keys
  {
    forall t, c :: t in Top(ds, n) - b && c in b ==> !Beats(ds, t, c)
  }

  // ---- the fill -------------------------------------------------------------------------------------------

  /** What holds while filling: every entering name already visited is in the book. */
  ghost predicate Filling(ds: DayScores, n: nat, k: set<Ticker>, book: seq<Ticker>, i: nat)
    requires WellRanked(ds)
  {
    && i <= Entries(ds, n) && |book| <= n
    && Ranked(ds, book) && NoDup(book)
    && k <= ToSet(book) <= k + Top(ds, n)
    && (forall j :: 0 <= j < i ==> ds.ranked[j] in book)
    && (forall u :: u in ToSet(book) - k ==> ds.rank[u] <= i)
  }

  /** Filling stops with the book full or every entering name visited. */
  ghost predicate FillDone(ds: DayScores, n: nat, k: set<Ticker>, book: seq<Ticker>, j: nat)
    requires WellRanked(ds)
  {
    Filling(ds, n, k, book, j) && (j == Entries(ds, n) || |book| == n)
  }

  lemma {:induction false} FillMeaning(ds: DayScores, n: nat, k: set<Ticker>, book: seq<Ticker>, i: nat)
    returns (j: nat)
    requires WellRanked(ds) && Filling(ds, n, k, book, i)
    ensures FillDone(ds, n, k, Fill(ds, NoCap, n, book, i), j)
    decreases Entries(ds, n) - i
  {
    if i < Entries(ds, n) && |book| < n {
      var next := FillStep(ds, n, k, book, i);
      j := FillMeaning(ds, n, k, next, i + 1);
    } else {
      j := i;
    }
  }

  lemma FillStep(ds: DayScores, n: nat, k: set<Ticker>, book: seq<Ticker>, i: nat) returns (next: seq<Ticker>)
    requires WellRanked(ds) && Filling(ds, n, k, book, i)
    requires i < Entries(ds, n) && |book| < n
    ensures Fill(ds, NoCap, n, book, i) == Fill(ds, NoCap, n, next, i + 1)
    ensures Filling(ds, n, k, next, i + 1)
  {
    var t := ds.ranked[i];
    if t in book {
      next := book;
    } else {
      next := book + [t];
      EnteringKeeps(ds, n, k, book, i);
    }
  }

  lemma EnteringKeeps(ds: DayScores, n: nat, k: set<Ticker>, book: seq<Ticker>, i: nat)
    requires WellRanked(ds) && Filling(ds, n, k, book, i)
    requires i < Entries(ds, n) && |book| < n && ds.ranked[i] !in book
    ensures Filling(ds, n, k, book + [ds.ranked[i]], i + 1)
  {
    var t := ds.ranked[i];
    assert ToSet(book + [t]) == ToSet(book) + {t};
    assert t in Top(ds, n);
  }

  // ---- the displacement --------------------------------------------------------------------------------------

  /** No entering name visited before name `i` and left out is 0.30 above any name of the book. */
  ghost predicate NoneYetLeftOut(ds: DayScores, n: nat, b: set<Ticker>, i: nat)
    requires WellRanked(ds) && b <= ds.score.Keys && i <= Entries(ds, n)
  {
    forall j, c :: 0 <= j < i && ds.ranked[j] !in b && c in b ==> !Beats(ds, ds.ranked[j], c)
  }

  /** What holds before entering name `i` is compared with the weakest name of the book `b`. */
  ghost predicate Displacing(ds: DayScores, n: nat, k: set<Ticker>, b: set<Ticker>, i: nat)
    requires WellRanked(ds)
  {
    && i <= Entries(ds, n)
    && k <= ds.score.Keys && b <= ds.score.Keys
    && b <= k + Top(ds, n)
    && NewcomersAreBest(ds, n, k, b)
    && DroppedAreWeakest(ds, k, b)
    && DroppedAreBeaten(ds, k, b)
    && NoneYetLeftOut(ds, n, b, i)
  }

  /** Name `i` is about to take the place of `x`, a name of the lowest score. */
  ghost predicate Displaces(ds: DayScores, n: nat, k: set<Ticker>, b: set<Ticker>, i: nat, x: Ticker)
    requires WellRanked(ds)
  {
    && i < Entries(ds, n) && Displacing(ds, n, k, b, i)
    && x in b && (forall c :: c in b ==> ds.score[x] <= ds.score[c])
    && ds.ranked[i] !in b && Beats(ds, ds.ranked[i], x)
  }

  function Swapped(b: set<Ticker>, x: Ticker, t: Ticker): set<Ticker> {
    b - {x} + {t}
  }

  lemma Placed(ds: DayScores, t: Ticker) returns (a: nat)
    requires WellRanked(ds) && t in ds.ranked
    ensures a < |ds.ranked| && ds.ranked[a] == t && ds.rank[t] == a + 1
  {
    a :| 0 <= a < |ds.ranked| && ds.ranked[a] == t;
  }

  /** A name left out earlier in the pass scores no lower, so nothing was left out so far; and the names
      that came in earlier score no lower, so the name displaced is a carried one. */
  lemma FirstToEnter(ds: DayScores, n: nat, k: set<Ticker>, b: set<Ticker>, i: nat, x: Ticker)
    requires WellRanked(ds) && Displaces(ds, n, k, b, i, x)
    ensures forall j :: 0 <= j < i ==> ds.ranked[j] in b
    ensures ds.ranked[i] !in k && x in k
  {
    var t := ds.ranked[i];
    forall j | 0 <= j < i ensures ds.ranked[j] in b {
      assert ds.score[t] <= ds.score[ds.ranked[j]];
    }
    assert t in Top(ds, n);
    var a := Placed(ds, x);
    assert x !in k ==> a < i;
  }

  lemma NewcomersStayBest(ds: DayScores, n: nat, k: set<Ticker>, b: set<Ticker>, i: nat, x: Ticker)
    requires WellRanked(ds) && Displaces(ds, n, k, b, i, x)
    ensures NewcomersAreBest(ds, n, k, Swapped(b, x, ds.ranked[i]))
  {
    FirstToEnter(ds, n, k, b, i, x);
    var t := ds.ranked[i];
    var c := Swapped(b, x, t);
    forall u, v | u in c - k && v in Top(ds, n) - k - c ensures ds.rank[u] < ds.rank[v] {
      assert v !in b;
      var a := Placed(ds, v);
    }
  }

  lemma DroppedStayBeaten(ds: DayScores, n: nat, k: set<Ticker>, b: set<Ticker>, i: nat, x: Ticker)
    requires WellRanked(ds) && Displaces(ds, n, k, b, i, x)
    ensures DroppedAreBeaten(ds, k, Swapped(b, x, ds.ranked[i]))
  {
    FirstToEnter(ds, n, k, b, i, x);
    var t := ds.ranked[i];
    var c := Swapped(b, x, t);
    assert t in Top(ds, n) - k - b;
    forall h, u | h in k - c && u in c - k ensures Beats(ds, u, h) {
      if h == x && u != t {
        assert ds.rank[u] < ds.rank[t];
        var a := Placed(ds, u);
      } else if h != x && u == t {
        assert ds.score[h] <= ds.score[x];
      }
    }
  }

  lemma DroppedStayWeakest(ds: DayScores, n: nat, k: set<Ticker>, b: set<Ticker>, i: nat, x: Ticker)
    requires WellRanked(ds) && Displaces(ds, n, k, b, i, x)
    ensures DroppedAreWeakest(ds, k, Swapped(b, x, ds.ranked[i]))
  {
    var t := ds.ranked[i];
    var c := Swapped(b, x, t);
    forall h, u | h in k - c && u in c ensures ds.score[h] <= ds.score[u] {
      assert h != x ==> h in k - b && ds.score[h] <= ds.score[x];
    }
  }

  lemma NoneLeftOutYet(ds: DayScores, n: nat, k: set<Ticker>, b: set<Ticker>, i: nat, x: Ticker)
    requires WellRanked(ds) && Displaces(ds, n, k, b, i, x)
    ensures NoneYetLeftOut(ds, n, Swapped(b, x, ds.ranked[i]), i + 1)
  {
    FirstToEnter(ds, n, k, b, i, x);
    var t := ds.ranked[i];
    var c := Swapped(b, x, t);
    forall j | 0 <= j < i + 1 ensures ds.ranked[j] in c {
      assert j < i ==> ds.score[t] <= ds.score[ds.ranked[j]];
    }
  }

  lemma SwapKeeps(ds: DayScores, n: nat, k: set<Ticker>, b: set<Ticker>, i: nat, x: Ticker)
    requires WellRanked(ds) && Displaces(ds, n, k, b, i, x)
    ensures Displacing(ds, n, k, Swapped(b, x, ds.ranked[i]), i + 1)
  {
    var t := ds.ranked[i];
    NewcomersStayBest(ds, n, k, b, i, x);
    DroppedStayBeaten(ds, n, k, b, i, x);
    DroppedStayWeakest(ds, n, k, b, i, x);
    NoneLeftOutYet(ds, n, k, b, i, x);
    assert t in Top(ds, n);
    assert Swapped(b, x, t) <= k + Top(ds, n);
  }

  lemma SkipKeeps(ds: DayScores, n: nat, k: set<Ticker>, b: set<Ticker>, i: nat, x: Ticker)
    requires WellRanked(ds) && i < Entries(ds, n) && Displacing(ds, n, k, b, i)
    requires x in b && forall c :: c in b ==> ds.score[x] <= ds.score[c]
    requires ds.ranked[i] in b || !Beats(ds, ds.ranked[i], x)
    ensures Displacing(ds, n, k, b, i + 1)
  {
  }

  lemma ReplacedSet(book: seq<Ticker>, w: nat, t: Ticker)
    requires NoDup(book) && w < |book| && t !in book
    ensures NoDup(book[w := t])
    ensures ToSet(book[w := t]) == Swapped(ToSet(book), book[w], t)
  {
    var c := book[w := t];
    forall x ensures x in c <==> (x in book && x != book[w]) || x == t {
      if x in book && x != book[w] {
        var i :| 0 <= i < |book| && book[i] == x;
        assert c[i] == x;
      }
      assert c[w] == t;
    }
  }

  /** One step of the pass, from a book with a weakest name at `w`. */
  lemma StepKeeps(ds: DayScores, n: nat, k: set<Ticker>, book: seq<Ticker>, i: nat, w: nat) returns (next: seq<Ticker>)
    requires WellRanked(ds) && Ranked(ds, book) && NoDup(book) && Displacing(ds, n, k, ToSet(book), i)
    requires i < Entries(ds, n) && IsWeakest(ds, book, w)
    ensures next == if ds.ranked[i] !in book && Beats(ds, ds.ranked[i], book[w]) then book[w := ds.ranked[i]] else book
    ensures Ranked(ds, next) && NoDup(next) && Displacing(ds, n, k, ToSet(next), i + 1)
    ensures forall u :: u in book && u !in k ==> u in next
    ensures ds.ranked[i] !in book && Beats(ds, ds.ranked[i], book[w]) ==> ds.ranked[i] in next && ds.ranked[i] !in k
  {
    var t := ds.ranked[i];
    assert book[w] in ToSet(book);
    if t !in book && Beats(ds, t, book[w]) {
      ReplacedSet(book, w, t);
      SwapKeeps(ds, n, k, ToSet(book), i, book[w]);
      FirstToEnter(ds, n, k, ToSet(book), i, book[w]);
      next := book[w := t];
      assert forall u :: u in next <==> u in ToSet(next);
    } else {
      SkipKeeps(ds, n, k, ToSet(book), i, book[w]);
      next := book;
    }
  }

  lemma PassStep(ds: DayScores, n: nat, k: set<Ticker>, book: seq<Ticker>, i: nat) returns (next: seq<Ticker>)
    requires WellRanked(ds) && Ranked(ds, book) && NoDup(book) && Displacing(ds, n, k, ToSet(book), i)
    requires i < Entries(ds, n) && book != []
    ensures Ranked(ds, next) && NoDup(next) && Displacing(ds, n, k, ToSet(next), i + 1)
    ensures Displace(ds, NoCap, n, book, i) == Displace(ds, NoCap, n, next, i + 1)
  {
    var w := Weakest(ds, book);
    DisplaceUnfolds(ds, NoCap, n, book, i, w);
    next := StepKeeps(ds, n, k, book, i, w);
  }

  lemma {:induction false} DisplaceMeaning(ds: DayScores, n: nat, k: set<Ticker>, book: seq<Ticker>, i: nat, r: seq<Ticker>)
    requires WellRanked(ds) && Ranked(ds, book) && NoDup(book) && Displacing(ds, n, k, ToSet(book), i)
    requires r == Displace(ds, NoCap, n, book, i)
    ensures NoDup(r) && Displacing(ds, n, k, ToSet(r), Entries(ds, n))
    decreases Entries(ds, n) - i
  {
    if i < Entries(ds, n) {
      if book == [] {
        SkipKeepsEmpty(ds, n, k, i);
      } else {
        var next := PassStep(ds, n, k, book, i);
        DisplaceMeaning(ds, n, k, next, i + 1, r);
      }
    }
  }

  lemma SkipKeepsEmpty(ds: DayScores, n: nat, k: set<Ticker>, i: nat)
    requires WellRanked(ds) && Displacing(ds, n, k, {}, i)
    ensures Displacing(ds, n, k, {}, Entries(ds, n))
  {
  }

  // ---- the result in rank order ------------------------------------------------------------------------------

  /** The names appear in the order of their ranks, hence without duplicates. */
  ghost predicate InOrder(ds: DayScores, r: seq<Ticker>) {
    && (forall t :: t in r ==> t in ds.rank)
    && (forall i, j :: 0 <= i < j < |r| ==> ds.rank[r[i]] < ds.rank[r[j]])
  }

  lemma NextInOrder(ds: DayScores, r: seq<Ticker>, t: Ticker)
    requires InOrder(ds, r) && t in ds.rank && forall u :: u in r ==> ds.rank[u] < ds.rank[t]
    ensures InOrder(ds, r + [t])
  {
    assert forall i :: 0 <= i < |r| ==> r[i] in r;
  }

  lemma {:induction false} RankOrderIsInOrder(ds: DayScores, m: nat, book: seq<Ticker>)
    requires WellRanked(ds) && m <= |ds.ranked|
    ensures var r := InRankOrder(ds.ranked[..m], book);
            InOrder(ds, r) && forall t :: t in r ==> ds.rank[t] <= m
  {
    if m > 0 {
      var front := InRankOrder(ds.ranked[..m - 1], book);
      RankOrderIsInOrder(ds, m - 1, book);
      assert ds.ranked[..m][..m - 1] == ds.ranked[..m - 1];
      NextInOrder(ds, front, ds.ranked[m - 1]);
    }
  }

  lemma ResultFacts(ds: DayScores, book: seq<Ticker>)
    requires WellRanked(ds) && Ranked(ds, book)
    ensures var r := InRankOrder(ds.ranked, book);
            InOrder(ds, r) && NoDup(r) && ToSet(r) == ToSet(book) && (NoDup(book) ==> |r| == |book|)
  {
    assert ds.ranked[..|ds.ranked|] == ds.ranked;
    RankOrderIsInOrder(ds, |ds.ranked|, book);
    var r := InRankOrder(ds.ranked, book);
    assert ToSet(r) == ToSet(book);
    NoDupSize(r);
    NoDupSize(book);
  }

  /** The rank order of a set of names is unique. */
  lemma {:induction false} OrderIsUnique(ds: DayScores, a: seq<Ticker>, b: seq<Ticker>)
    requires WellRanked(ds) && InOrder(ds, a) && InOrder(ds, b) && ToSet(a) == ToSet(b)
    ensures a == b
    decreases |a|
  {
    SameLength(ds, a, b);
    if a != [] {
      var last := |a| - 1;
      LastIsSame(ds, a, b);
      OrderIsUnique(ds, a[..last], b[..last]);
      assert a == a[..last] + [a[last]] && b == b[..last] + [b[last]];
    }
  }

  lemma SameLength(ds: DayScores, a: seq<Ticker>, b: seq<Ticker>)
    requires InOrder(ds, a) && InOrder(ds, b) && ToSet(a) == ToSet(b)
    ensures |a| == |b|
  {
    NoDupSize(a);
    NoDupSize(b);
  }

  lemma LastIsSame(ds: DayScores, a: seq<Ticker>, b: seq<Ticker>)
    requires InOrder(ds, a) && InOrder(ds, b) && ToSet(a) == ToSet(b) && a != [] && b != []
    ensures a[|a| - 1] == b[|b| - 1]
    ensures ToSet(a[..|a| - 1]) == ToSet(b[..|b| - 1])
  {
    WithoutLast(ds, a);
    WithoutLast(ds, b);
    var x, y := a[|a| - 1], b[|b| - 1];
    assert x in ToSet(b) && y in ToSet(a);
  }

  lemma WithoutLast(ds: DayScores, a: seq<Ticker>)
    requires InOrder(ds, a) && a != []
    ensures ToSet(a[..|a| - 1]) == ToSet(a) - {a[|a| - 1]}
    ensures a[|a| - 1] in a && forall t :: t in a ==> ds.rank[t] <= ds.rank[a[|a| - 1]] && (t != a[|a| - 1] ==> ds.rank[t] < ds.rank[a[|a| - 1]])
  {
    assert a == a[..|a| - 1] + [a[|a| - 1]];
    assert forall i :: 0 <= i < |a| ==> a[i] in a;
  }

  lemma {:induction false} SameNames(ranked: seq<Ticker>, b: seq<Ticker>, c: seq<Ticker>)
    requires forall t :: t in b <==> t in c
    ensures InRankOrder(ranked, b) == InRankOrder(ranked, c)
  {
    if ranked != [] {
      SameNames(ranked[..|ranked| - 1], b, c);
    }
  }

  // ---- one pass is enough --------------------------------------------------------------------------------------

  function CarriedSet(ds: DayScores, held: seq<Ticker>, prevRank: Option<map<Ticker, nat>>, n: nat): set<Ticker> {
    ToSet(Carry(ds, held, prevRank, n))
  }

  lemma {:induction false} CarryNoDup(ds: DayScores, held: seq<Ticker>, prevRank: Option<map<Ticker, nat>>, n: nat)
    requires NoDup(held)
    ensures NoDup(Carry(ds, held, prevRank, n))
  {
    if held != [] {
      CarryNoDup(ds, held[..|held| - 1], prevRank, n);
      assert held[|held| - 1] !in held[..|held| - 1];
    }
  }

  lemma SizeOfFill(ds: DayScores, n: nat, k: set<Ticker>, book: seq<Ticker>, j: nat)
    requires WellRanked(ds) && FillDone(ds, n, k, book, j)
    ensures |book| == (if |k + Top(ds, n)| < n then |k + Top(ds, n)| else n)
  {
    NoDupSize(book);
    Subsets(ToSet(book), k + Top(ds, n));
    if j == Entries(ds, n) {
      assert Top(ds, n) <= ToSet(book);
      assert ToSet(book) == k + Top(ds, n);
    }
  }

  lemma FilledCanDisplace(ds: DayScores, n: nat, k: set<Ticker>, book: seq<Ticker>, j: nat)
    requires WellRanked(ds) && FillDone(ds, n, k, book, j)
    ensures Displacing(ds, n, k, ToSet(book), 0)
  {
    var b := ToSet(book);
    assert forall t :: t in b ==> t in book;
    assert k - b == {};
    forall u, t | u in b - k && t in Top(ds, n) - k - b ensures ds.rank[u] < ds.rank[t] {
      var a := Placed(ds, t);
    }
  }

  lemma Subsets(a: set<Ticker>, b: set<Ticker>)
    requires a <= b
    ensures |a| <= |b|
  {
    assert b == a + (b - a);
    assert |b| == |a| + |b - a|;
  }

  /** The book before it is put in rank order. */
  ghost function BookOf(ds: DayScores, held: seq<Ticker>, prevRank: Option<map<Ticker, nat>>, n: nat): (book: seq<Ticker>)
    requires WellRanked(ds)
    ensures Ranked(ds, book)
  {
    Displace(ds, NoCap, n, Filled(ds, held, prevRank, n, NoCap), 0)
  }

  lemma BookIsSelection(ds: DayScores, held: seq<Ticker>, prevRank: Option<map<Ticker, nat>>, n: nat)
    requires WellRanked(ds) && NoDup(held) && |held| <= n
    ensures var book, k := BookOf(ds, held, prevRank, n), CarriedSet(ds, held, prevRank, n);
            && NoDup(book) && |book| <= n
            && k <= ds.score.Keys && ToSet(book) <= ds.score.Keys
            && IsSelection(ds, n, k, ToSet(book))
  {
    var carried := Carry(ds, held, prevRank, n);
    var k := ToSet(carried);
    CarryNoDup(ds, held, prevRank, n);
    var filled := Filled(ds, held, prevRank, n, NoCap);
    var j := FillMeaning(ds, n, k, carried, 0);
    SizeOfFill(ds, n, k, filled, j);
    FilledCanDisplace(ds, n, k, filled, j);
    DisplaceMeaning(ds, n, k, filled, 0, BookOf(ds, held, prevRank, n));
    var book := BookOf(ds, held, prevRank, n);
    NoDupSize(book);
    AllVisited(ds, n, ToSet(book));
  }

  lemma AllVisited(ds: DayScores, n: nat, b: set<Ticker>)
    requires WellRanked(ds) && b <= ds.score.Keys && NoneYetLeftOut(ds, n, b, Entries(ds, n))
    ensures NoneLeftOut(ds, n, b)
  {
  }

  /** From at most `n` held names, the result is a duplicate-free, rank-ordered choice of at most `n` names,
      and it is the selection the rules call for. */
  lemma OnePassSelects(ds: DayScores, held: seq<Ticker>, prevRank: Option<map<Ticker, nat>>, n: nat)
    requires WellRanked(ds) && NoDup(held) && |held| <= n
    ensures var r, k := Select(ds, held, prevRank, n, NoCap), CarriedSet(ds, held, prevRank, n);
            && InOrder(ds, r) && NoDup(r) && |r| <= n
            && k <= ds.score.Keys && ToSet(r) <= ds.score.Keys
            && IsSelection(ds, n, k, ToSet(r))
  {
    BookIsSelection(ds, held, prevRank, n);
    ResultFacts(ds, BookOf(ds, held, prevRank, n));
  }

  // ---- two days to a fixed point -------------------------------------------------------------------------------

  /** A run over days that all show `ds`: each day's book holds the names selected from the previous book,
      walked in any order, under the previous day's ranks. */
  ghost predicate SteadyRun(ds: DayScores, n: nat, prevRank: Option<map<Ticker, nat>>, books: seq<seq<Ticker>>, cap: Cap)
    requires WellRanked(ds)
  {
    && (forall d :: 0 <= d < |books| ==> NoDup(books[d]))
    && (forall d :: 0 <= d < |books| - 1 ==>
          ToSet(books[d + 1])
          == ToSet(Select(ds, books[d], if d == 0 then prevRank else Some(ds.rank), n, cap)))
  }

  lemma ResultIsShort(ds: DayScores, held: seq<Ticker>, prevRank: Option<map<Ticker, nat>>, n: nat)
    requires WellRanked(ds)
    ensures |ToSet(Select(ds, held, prevRank, n, NoCap))| <= n
  {
    NoDupSize(Select(ds, held, prevRank, n, NoCap));
  }

  /** A book the rules call for, from names within the hold band, is kept as it is. */
  lemma SelectedBookStays(ds: DayScores, n: nat, k: set<Ticker>, book: seq<Ticker>)
    requires WellRanked(ds) && NoDup(book)
    requires k <= ds.score.Keys && ToSet(book) <= ds.score.Keys && IsSelection(ds, n, k, ToSet(book))
    requires forall t :: t in k ==> ds.rank[t] <= 2 * n
    ensures ToSet(Select(ds, book, Some(ds.rank), n, NoCap)) == ToSet(book)
  {
    forall t | t in book ensures Carried(ds, t, Some(ds.rank), n) {
      assert t in ToSet(book);
      if t !in k {
        assert InTop(ds, n, t);
      }
    }
    CarryAll(ds, book, Some(ds.rank), n);
    NoDupSize(book);
    FillNothing(ds, n, k, book);
    DisplaceNothing(ds, n, book, 0);
    ResultFacts(ds, book);
  }

  lemma {:induction false} CarryAll(ds: DayScores, held: seq<Ticker>, prevRank: Option<map<Ticker, nat>>, n: nat)
    requires forall t :: t in held ==> Carried(ds, t, prevRank, n)
    ensures Carry(ds, held, prevRank, n) == held
  {
    if held != [] {
      CarryAll(ds, held[..|held| - 1], prevRank, n);
      assert held == held[..|held| - 1] + [held[|held| - 1]];
    }
  }

  lemma FillNothing(ds: DayScores, n: nat, k: set<Ticker>, book: seq<Ticker>)
    requires WellRanked(ds) && NoDup(book)
    requires k <= ds.score.Keys && ToSet(book) <= ds.score.Keys && IsSelection(ds, n, k, ToSet(book))
    ensures Fill(ds, NoCap, n, book, 0) == book
  {
    NoDupSize(book);
    if |book| < n {
      SubsetOfSameSize(ToSet(book), k + Top(ds, n));
      forall i | 0 <= i < Entries(ds, n) ensures ds.ranked[i] in book {
        assert InTop(ds, n, ds.ranked[i]);
        assert ds.ranked[i] in ToSet(book);
      }
      FillSkips(ds, n, book, 0);
    }
  }

  lemma SubsetOfSameSize(a: set<Ticker>, b: set<Ticker>)
    requires a <= b && |a| == |b|
    ensures a == b
  {
    assert b == a + (b - a);
    assert |b - a| == 0;
  }

  lemma {:induction false} FillSkips(ds: DayScores, n: nat, book: seq<Ticker>, i: nat)
    requires forall j :: i <= j < Entries(ds, n) ==> ds.ranked[j] in book
    ensures Fill(ds, NoCap, n, book, i) == book
    decreases Entries(ds, n) - i
  {
    if i < Entries(ds, n) && |book| < n {
      FillSkips(ds, n, book, i + 1);
    }
  }

  lemma {:induction false} DisplaceNothing(ds: DayScores, n: nat, book: seq<Ticker>, i: nat)
    requires WellRanked(ds) && Ranked(ds, book) && ToSet(book) <= ds.score.Keys && NoneLeftOut(ds, n, ToSet(book))
    ensures Displace(ds, NoCap, n, book, i) == book
    decreases Entries(ds, n) - i
  {
    if i < Entries(ds, n) && book != [] {
      var t, w := ds.ranked[i], Weakest(ds, book);
      assert t in Top(ds, n) && book[w] in ToSet(book);
      DisplaceNothing(ds, n, book, i + 1);
    }
  }

  /** The second selection is what the rules call for, and stays. */
  lemma SecondDay(ds: DayScores, n: nat, prevRank: Option<map<Ticker, nat>>, first: seq<Ticker>, book: seq<Ticker>,
                  second: seq<Ticker>)
    requires WellRanked(ds) && NoDup(book) && NoDup(second)
    requires ToSet(book) == ToSet(Select(ds, first, prevRank, n, NoCap))
    requires ToSet(second) == ToSet(Select(ds, book, Some(ds.rank), n, NoCap))
    ensures ToSet(Select(ds, second, Some(ds.rank), n, NoCap)) == ToSet(second)
  {
    ResultIsShort(ds, first, prevRank, n);
    NoDupSize(book);
    OnePassSelects(ds, book, Some(ds.rank), n);
    var k := CarriedSet(ds, book, Some(ds.rank), n);
    assert forall t :: t in k ==> ds.rank[t] <= 2 * n;
    SelectedBookStays(ds, n, k, second);
  }

  /** While ranks and scores stand still, the book no longer changes from the second selection on, from any
      book (even an oversized one) and any earlier ranks.  So the `changed` trigger, a target other than the
      held names, is quiet from the third day on. */
  lemma {:induction false} ConvergesInTwoDays(ds: DayScores, n: nat, prevRank: Option<map<Ticker, nat>>,
                                              books: seq<seq<Ticker>>, d: nat)
    requires WellRanked(ds) && SteadyRun(ds, n, prevRank, books, NoCap)
    requires 2 <= d < |books|
    ensures ToSet(books[d]) == ToSet(books[2])
    ensures ToSet(Select(ds, books[d], Some(ds.rank), n, NoCap)) == ToSet(books[d])
  {
    if d > 2 {
      ConvergesInTwoDays(ds, n, prevRank, books, d - 1);
    }
    SecondDay(ds, n, if d == 2 then prevRank else Some(ds.rank), books[d - 2], books[d - 1], books[d]);
  }
}
