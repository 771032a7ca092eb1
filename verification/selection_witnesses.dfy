/** Days on which the selection does what one might not expect of it, each with a book of five. */
module SelectionWitnesses {
  import opened Options
  import opened Selection
  import CapFixedPoint
  import Exit = SelectionExit
  import SelectionTrace
  import Theorems = SelectionTheorems

  // ---- days and passes ---------------------------------------------------------------------------------------

  function Names(m: nat): (names: seq<Ticker>)
    ensures |names| == m && forall i :: 0 <= i < m ==> names[i] == i
    ensures forall t: Ticker :: t in names <==> t < m
  {
    if m == 0 then []
    else
      var front := Names(m - 1);
      assert forall t: Ticker :: t in front + [m - 1] <==> t in front || t == m - 1;
      front + [m - 1]
  }

  /** Names 0 to m-1 with these scores, best first. */
  function Day(scores: seq<real>): (ds: DayScores)
    ensures ds.ranked == Names(|scores|)
    ensures forall t: Ticker :: t in ds.score <==> t < |scores|
    ensures forall t: Ticker :: t in ds.rank <==> t < |scores|
    ensures forall t: Ticker :: t < |scores| ==> ds.score[t] == scores[t]
    ensures forall t: Ticker :: t < |scores| ==> ds.rank[t] == t + 1
  {
    DayScores(Names(|scores|), map t | t in Names(|scores|) :: scores[t], map t | t in Names(|scores|) :: t + 1)
  }

  lemma {:induction false} Falls(scores: seq<real>, i: nat, j: nat)
    requires i <= j < |scores| && forall k :: 0 < k < |scores| ==> scores[k] <= scores[k - 1]
    ensures scores[j] <= scores[i]
    decreases j - i
  {
    if i < j { Falls(scores, i, j - 1); }
  }

  lemma DayIsWellRanked(scores: seq<real>)
    requires forall k :: 0 < k < |scores| ==> scores[k] <= scores[k - 1]
    ensures WellRanked(Day(scores))
  {
    var ds := Day(scores);
    assert forall t: Ticker :: t in ds.ranked <==> t < |scores|;
    forall i, j | 0 <= i < j < |ds.ranked| ensures ds.score[ds.ranked[j]] <= ds.score[ds.ranked[i]] {
      Falls(scores, i, j);
    }
  }

  /** A pass in which one name enters, for the weakest. */
  lemma OneEnters(ds: DayScores, cap: Cap, n: nat, book: seq<Ticker>, w: nat, e: nat)
    requires WellRanked(ds) && Ranked(ds, book) && book != [] && e < Entries(ds, n) && IsWeakest(ds, book, w)
    requires ds.ranked[e] !in book && CanAdd(cap, book, ds.ranked[e]) && Beats(ds, ds.ranked[e], book[w])
    requires forall x :: 0 <= x < e ==> SelectionTrace.Idle(ds, cap, book, ds.ranked[x])
    requires forall x :: e < x < Entries(ds, n) ==> SelectionTrace.Idle(ds, cap, book[w := ds.ranked[e]], ds.ranked[x])
    ensures Displace(ds, cap, n, book, 0) == book[w := ds.ranked[e]]
  {
    var m := Entries(ds, n);
    var books := SelectionTrace.TracePass(ds, cap, n, book);
    SelectionTrace.PassIdles(ds, cap, books, m, 0, e);
    assert SelectionTrace.TurnAt(ds, cap, books, e);
    WeakestIsUnique(ds, book, w, Weakest(ds, book));
    SelectionTrace.PassIdles(ds, cap, books, m, e + 1, m);
  }

  /** A full book of names within the hold band goes into the pass as it is. */
  lemma FullBookIsFilled(ds: DayScores, held: seq<Ticker>, prevRank: Option<map<Ticker, nat>>, n: nat, cap: Cap)
    requires WellRanked(ds) && |held| == n && forall t :: t in held ==> t in ds.rank && ds.rank[t] <= 2 * n
    ensures Filled(ds, held, prevRank, n, cap) == held
  {
    Theorems.CarryAll(ds, held, prevRank, n);
  }

  lemma ResultIs(ds: DayScores, held: seq<Ticker>, prevRank: Option<map<Ticker, nat>>, n: nat, cap: Cap,
                 book: seq<Ticker>, r: seq<Ticker>)
    requires WellRanked(ds) && book == Displace(ds, cap, n, Filled(ds, held, prevRank, n, cap), 0)
    requires Theorems.InOrder(ds, r) && ToSet(r) == ToSet(book) && |r| <= n
    ensures Select(ds, held, prevRank, n, cap) == r
  {
    Theorems.ResultFacts(ds, book);
    Theorems.OrderIsUnique(ds, InRankOrder(ds.ranked, book), r);
  }

  /** A day of these scores on which a full book lets name `e` in for the name at `w`, and no other. */
  ghost predicate EntryScores(scores: seq<real>, held: seq<Ticker>, n: nat, cap: Cap, w: nat, e: nat) {
    && held != [] && |held| == n <= |scores| && e < n && w < n
    && (forall k :: 0 <= k < n ==> held[k] < |scores| && held[k] < 2 * n)
    && (forall k :: 0 <= k < n ==> scores[held[w]] <= scores[held[k]])
    && (forall k :: 0 <= k < w ==> scores[held[w]] < scores[held[k]])
    && e !in held && CanAdd(cap, held, e) && scores[held[w]] + REPLACE_ADVANTAGE <= scores[e]
    && (forall x: Ticker :: x < e ==> x in held || !CanAdd(cap, held, x))
    && (forall x: Ticker :: e < x < n ==> StaysOut(scores, held, w, e, x))
  }

  ghost predicate StaysOut(scores: seq<real>, held: seq<Ticker>, w: nat, e: nat, x: Ticker)
    requires w < |held|
  {
    InOrBeaten(scores, held[w := e], x)
  }

  ghost predicate InOrBeaten(scores: seq<real>, book: seq<Ticker>, x: Ticker) {
    x in book
    || (x < |scores| && forall k :: 0 <= k < |book| ==> book[k] < |scores| && scores[x] < scores[book[k]] + REPLACE_ADVANTAGE)
  }

  lemma EntryTurn(scores: seq<real>, held: seq<Ticker>, n: nat, cap: Cap, w: nat, e: nat)
    requires EntryScores(scores, held, n, cap, w, e)
    ensures var ds := Day(scores);
            && Entries(ds, n) == n && ds.ranked[e] == e
            && Ranked(ds, held) && IsWeakest(ds, held, w) && Beats(ds, e, held[w])
            && (forall t :: t in held ==> t in ds.rank && ds.rank[t] <= 2 * n)
  {}

  lemma EntryIdles(scores: seq<real>, held: seq<Ticker>, n: nat, cap: Cap, w: nat, e: nat)
    requires EntryScores(scores, held, n, cap, w, e)
    ensures var ds := Day(scores);
            && (forall x :: 0 <= x < e ==> SelectionTrace.Idle(ds, cap, held, ds.ranked[x]))
            && (forall x :: e < x < n ==> SelectionTrace.Idle(ds, cap, held[w := e], ds.ranked[x]))
  {
    var ds := Day(scores);
    forall x | e < x < n ensures SelectionTrace.Idle(ds, cap, held[w := e], ds.ranked[x]) {
      assert StaysOut(scores, held, w, e, x);
    }
  }

  /** Names listed in ascending order are in rank order. */
  lemma OrderOfScores(scores: seq<real>, r: seq<Ticker>)
    requires forall i :: 0 <= i < |r| ==> r[i] < |scores|
    requires forall i, j :: 0 <= i < j < |r| ==> r[i] < r[j]
    ensures Theorems.InOrder(Day(scores), r)
  {}

  /** So the day selects the book with that one change, in ascending order. */
  lemma EntryDay(scores: seq<real>, held: seq<Ticker>, prevRank: Option<map<Ticker, nat>>, n: nat, cap: Cap,
                 w: nat, e: nat, r: seq<Ticker>)
    requires forall k :: 0 < k < |scores| ==> scores[k] <= scores[k - 1]
    requires EntryScores(scores, held, n, cap, w, e)
    requires forall i :: 0 <= i < |r| ==> r[i] < |scores|
    requires forall i, j :: 0 <= i < j < |r| ==> r[i] < r[j]
    requires ToSet(r) == ToSet(held[w := e]) && |r| <= n
    ensures WellRanked(Day(scores)) && Select(Day(scores), held, prevRank, n, cap) == r
  {
    var ds := Day(scores);
    DayIsWellRanked(scores);
    EntryTurn(scores, held, n, cap, w, e);
    EntryIdles(scores, held, n, cap, w, e);
    FullBookIsFilled(ds, held, prevRank, n, cap);
    OneEnters(ds, cap, n, held, w, e);
    OrderOfScores(scores, r);
    ResultIs(ds, held, prevRank, n, cap, held[w := e], r);
  }

  // ---- tied scores ---------------------------------------------------------------------------------------------

  /** Names 4 and 5 are tied. */
  function TiedScores(): seq<real> {
    [5.0, 4.0, 3.0, 2.0, 1.0, 1.0]
  }

  function TiedDay(): DayScores {
    Day(TiedScores())
  }

  predicate Tied(a: Ticker, b: Ticker) {
    (a == 4 && b == 5) || (a == 5 && b == 4)
  }

  lemma TiedTurn(a: Ticker, b: Ticker)
    requires Tied(a, b)
    ensures EntryScores(TiedScores(), [1, 2, 3, a, b], 5, NoCap, 3, 0)
  {
    var held, after := [1, 2, 3, a, b], [1, 2, 3, 0, b];
    assert held[3 := 0] == after;
    forall x: Ticker | 0 < x < 5 ensures StaysOut(TiedScores(), held, 3, 0, x) {
      assert x < 4 ==> after[x - 1] == x;
      assert b == 4 ==> after[4] == 4;
    }
  }

  lemma TiedSelect(a: Ticker, b: Ticker)
    requires Tied(a, b)
    ensures WellRanked(TiedDay()) && Select(TiedDay(), [1, 2, 3, a, b], None, 5, NoCap) == [0, 1, 2, 3, b]
  {
    TiedTurn(a, b);
    assert [1, 2, 3, a, b][3 := 0] == [1, 2, 3, 0, b];
    assert ToSet([0, 1, 2, 3, b]) == ToSet([1, 2, 3, 0, b]);
    EntryDay(TiedScores(), [1, 2, 3, a, b], None, 5, NoCap, 3, 0, [0, 1, 2, 3, b]);
  }

  /** With two carried names of one score, the result depends on the order in which the held set is walked:
      the one visited first is displaced. */
  lemma TiesDependOnOrder()
    ensures WellRanked(TiedDay())
    ensures ToSet([1, 2, 3, 4, 5]) == ToSet([1, 2, 3, 5, 4])
    ensures Select(TiedDay(), [1, 2, 3, 4, 5], None, 5, NoCap) == [0, 1, 2, 3, 5]
    ensures Select(TiedDay(), [1, 2, 3, 5, 4], None, 5, NoCap) == [0, 1, 2, 3, 4]
  {
    TiedSelect(4, 5);
    TiedSelect(5, 4);
  }

  // ---- the second day --------------------------------------------------------------------------------------------

  /** Eleven names so close that none displaces another. */
  function CloseScores(): seq<real> {
    [0.20, 0.19, 0.18, 0.17, 0.16, 0.15, 0.14, 0.13, 0.12, 0.11, 0.10]
  }

  function CloseDay(): DayScores {
    Day(CloseScores())
  }

  lemma NobodyBeats(book: seq<Ticker>)
    requires WellRanked(CloseDay()) && Ranked(CloseDay(), book)
    ensures Displace(CloseDay(), NoCap, 5, book, 0) == book
  {
    var ds := CloseDay();
    Spread();
    assert ToSet(book) <= ds.score.Keys;
    Theorems.DisplaceNothing(ds, 5, book, 0);
  }

  lemma Spread()
    ensures forall t, u :: t in CloseDay().score && u in CloseDay().score ==> !Beats(CloseDay(), t, u)
  {
    forall t | t in CloseDay().score ensures 0.10 <= CloseDay().score[t] <= 0.20 {
      assert t < 11;
    }
  }

  lemma FillsFour()
    ensures Carry(CloseDay(), [10], None, 5) == [10]
    ensures Fill(CloseDay(), NoCap, 5, [10], 0) == [10, 0, 1, 2, 3]
  {
    var ds := CloseDay();
    assert [10][..0] == [];
    assert Fill(ds, NoCap, 5, [10], 0) == Fill(ds, NoCap, 5, [10, 0], 1) == Fill(ds, NoCap, 5, [10, 0, 1], 2);
    assert Fill(ds, NoCap, 5, [10, 0, 1], 2) == Fill(ds, NoCap, 5, [10, 0, 1, 2], 3)
        == Fill(ds, NoCap, 5, [10, 0, 1, 2, 3], 4);
  }

  lemma FillsOne()
    ensures Carry(CloseDay(), [0, 1, 2, 3, 10], Some(CloseDay().rank), 5) == [0, 1, 2, 3]
    ensures Fill(CloseDay(), NoCap, 5, [0, 1, 2, 3], 0) == [0, 1, 2, 3, 4]
  {
    var ds := CloseDay();
    assert [0, 1, 2, 3, 10][..4] == [0, 1, 2, 3];
    Theorems.CarryAll(ds, [0, 1, 2, 3], Some(ds.rank), 5);
    FillsFifth();
  }

  lemma FillsFifth()
    ensures Fill(CloseDay(), NoCap, 5, [0, 1, 2, 3], 0) == [0, 1, 2, 3, 4]
  {
    var ds := CloseDay();
    assert Fill(ds, NoCap, 5, [0, 1, 2, 3], 0) == Fill(ds, NoCap, 5, [0, 1, 2, 3], 2)
        == Fill(ds, NoCap, 5, [0, 1, 2, 3], 4) == Fill(ds, NoCap, 5, [0, 1, 2, 3, 4], 5);
  }

  lemma CloseResults()
    ensures Theorems.InOrder(CloseDay(), [0, 1, 2, 3, 10]) && Theorems.InOrder(CloseDay(), [0, 1, 2, 3, 4])
    ensures ToSet([0, 1, 2, 3, 10]) == ToSet([10, 0, 1, 2, 3])
    ensures Ranked(CloseDay(), [10, 0, 1, 2, 3]) && Ranked(CloseDay(), [0, 1, 2, 3, 4])
  {
    OrderOfScores(CloseScores(), [0, 1, 2, 3, 10]);
    OrderOfScores(CloseScores(), [0, 1, 2, 3, 4]);
  }

  lemma StillCarried()
    requires WellRanked(CloseDay())
    ensures Select(CloseDay(), [10], None, 5, NoCap) == [0, 1, 2, 3, 10]
  {
    CloseResults();
    FillsFour();
    NobodyBeats([10, 0, 1, 2, 3]);
    ResultIs(CloseDay(), [10], None, 5, NoCap, [10, 0, 1, 2, 3], [0, 1, 2, 3, 10]);
  }

  lemma ExitIsConfirmed()
    requires WellRanked(CloseDay())
    ensures Select(CloseDay(), [0, 1, 2, 3, 10], Some(CloseDay().rank), 5, NoCap) == [0, 1, 2, 3, 4]
  {
    CloseResults();
    FillsOne();
    NobodyBeats([0, 1, 2, 3, 4]);
    ResultIs(CloseDay(), [0, 1, 2, 3, 10], Some(CloseDay().rank), 5, NoCap, [0, 1, 2, 3, 4], [0, 1, 2, 3, 4]);
  }

  /** On an unchanged day the second selection can still differ from the first: a name below the hold band is
      carried until the second close confirms its exit. */
  lemma FirstDayIsNotFinal()
    ensures WellRanked(CloseDay())
    ensures Select(CloseDay(), [10], None, 5, NoCap) == [0, 1, 2, 3, 10]
    ensures Select(CloseDay(), [0, 1, 2, 3, 10], Some(CloseDay().rank), 5, NoCap) == [0, 1, 2, 3, 4]
  {
    DayIsWellRanked(CloseScores());
    StillCarried();
    ExitIsConfirmed();
  }

  // ---- one close below the band is not enough ---------------------------------------------------------------------

  /** Twelve names so close that none is 0.30 above another. */
  function TwelveScores(): (scores: seq<real>)
    ensures |scores| == 12 && forall i :: 0 <= i < 12 ==> scores[i] == 0.12 - 0.01 * i as real
  {
    seq(12, i requires 0 <= i < 12 => 0.12 - 0.01 * i as real)
  }

  lemma NoneOutdone(held: seq<Ticker>, chosen: seq<Ticker>, h: Ticker)
    ensures !Exit.Outdone(Day(TwelveScores()), held, chosen, h)
  {
    forall t | t in Day(TwelveScores()).score ensures 0.01 <= Day(TwelveScores()).score[t] <= 0.12 {
      assert t < 12;
    }
  }

  /** In a five-name book, a name ranked twelfth today stays if it was eighth on the close before, and goes if it
      was eleventh. */
  lemma OneCloseIsNotEnough()
    ensures WellRanked(Day(TwelveScores())) && Day(TwelveScores()).rank[11] == 12
    ensures 11 in Select(Day(TwelveScores()), [11], Some(map[11 := 8]), 5, NoCap)
    ensures 11 !in Select(Day(TwelveScores()), [11], Some(map[11 := 11]), 5, NoCap)
  {
    TwelfthStaysIff(Some(map[11 := 8]));
    TwelfthStaysIff(Some(map[11 := 11]));
  }

  lemma TwelfthStaysIff(prevRank: Option<map<Ticker, nat>>)
    ensures WellRanked(Day(TwelveScores())) && Day(TwelveScores()).rank[11] == 12
    ensures 11 in Select(Day(TwelveScores()), [11], prevRank, 5, NoCap)
       <==> !(prevRank.Some? && 11 in prevRank.value && prevRank.value[11] > 10)
  {
    var ds := Day(TwelveScores());
    DayIsWellRanked(TwelveScores());
    NoneOutdone([11], Select(ds, [11], prevRank, 5, NoCap), 11);
    Exit.StaysIff(ds, [11], prevRank, 5, 11);
  }

  // ---- with the cap, one pass is not enough ------------------------------------------------------------------------

  const TECH: Sector := 1
  const BANKS: Sector := 2

  function Crowded(): map<Ticker, Sector> {
    map[0 := BANKS, 4 := BANKS, 6 := BANKS, 1 := TECH, 5 := TECH, 7 := TECH]
  }

  function CrowdedScores(): seq<real> {
    [8.0, 7.0, 6.0, 5.0, 4.0, 3.0, 2.0, 1.0]
  }

  function CrowdedDay(): DayScores {
    Day(CrowdedScores())
  }

  lemma CountOfFront(sectors: map<Ticker, Sector>, book: seq<Ticker>, k: nat, s: Sector)
    requires k < |book|
    ensures InSector(sectors, book[..k + 1], s)
         == InSector(sectors, book[..k], s) + (if IsIn(sectors, book[k], s) then 1 else 0)
  {
    assert book[..k + 1][..k] == book[..k];
  }

  lemma CountOfFive(sectors: map<Ticker, Sector>, b: seq<Ticker>, s: Sector)
    requires |b| == 5
    ensures InSector(sectors, b, s)
         == (if IsIn(sectors, b[0], s) then 1 else 0) + (if IsIn(sectors, b[1], s) then 1 else 0)
            + (if IsIn(sectors, b[2], s) then 1 else 0) + (if IsIn(sectors, b[3], s) then 1 else 0)
            + (if IsIn(sectors, b[4], s) then 1 else 0)
  {
    CountOfFront(sectors, b, 0, s);
    CountOfFront(sectors, b, 1, s);
    CountOfFront(sectors, b, 2, s);
    CountOfFront(sectors, b, 3, s);
    CountOfFront(sectors, b, 4, s);
    assert b[..5] == b;
  }

  /** Names k to k+4. */
  function Five(k: nat): seq<Ticker> {
    [k, k + 1, k + 2, k + 3, k + 4]
  }

  /** The book of the day on which name `e` enters, and the book after it. */
  function BookBefore(e: nat): seq<Ticker> {
    Five(e + 1)
  }

  function BookAfter(e: nat): seq<Ticker> {
    [e + 1, e + 2, e + 3, e + 4, e]
  }

  /** Names 0 and 1 find their sectors full until name `e` is the one to enter. */
  lemma CrowdedSectors(e: nat)
    requires e < 3
    ensures CanAdd(TwoPerSector(Crowded()), BookBefore(e), e)
    ensures forall x: nat :: x < e ==> !CanAdd(TwoPerSector(Crowded()), BookBefore(e), x)
  {
    CountOfFive(Crowded(), BookBefore(e), BANKS);
    CountOfFive(Crowded(), BookBefore(e), TECH);
  }

  /** The last name of the book is its weakest, and name `e` beats it. */
  lemma CrowdedWeakest(e: nat)
    requires e < 3
    ensures var s, held := CrowdedScores(), BookBefore(e);
            && |s| == 8 && |held| == 5 && (forall k :: 0 <= k < 5 ==> held[k] == e + 1 + k)
            && (forall k :: 0 <= k < 8 ==> s[k] == 8.0 - k as real)
  {}

  lemma CrowdedTurn(e: nat)
    requires e < 3
    requires CanAdd(TwoPerSector(Crowded()), BookBefore(e), e)
    requires forall x: nat :: x < e ==> !CanAdd(TwoPerSector(Crowded()), BookBefore(e), x)
    ensures EntryScores(CrowdedScores(), BookBefore(e), 5, TwoPerSector(Crowded()), 4, e)
  {
    CrowdedResult(e);
    CrowdedWeakest(e);
    forall x: Ticker | e < x < 5 ensures StaysOut(CrowdedScores(), BookBefore(e), 4, e, x) {
      assert BookAfter(e)[x - e - 1] == x;
    }
  }

  lemma CrowdedResult(e: nat)
    requires e < 3
    ensures BookBefore(e)[4 := e] == BookAfter(e)
    ensures ToSet(Five(e)) == ToSet(BookAfter(e))
  {}

  /** The books of the crowded run, one day after another. */
  ghost predicate CrowdedRun(prevRank: Option<map<Ticker, nat>>, e: nat)
    requires WellRanked(CrowdedDay())
  {
    Select(CrowdedDay(), Five(e + 1), prevRank, 5, TwoPerSector(Crowded())) == Five(e)
  }

  lemma CrowdedFalls()
    ensures |CrowdedScores()| == 8 && forall k :: 0 < k < |CrowdedScores()| ==> CrowdedScores()[k] <= CrowdedScores()[k - 1]
  {}

  lemma FiveAscends(k: nat)
    requires k < 3
    ensures |Five(k)| == 5 && (forall i :: 0 <= i < |Five(k)| ==> Five(k)[i] < 8)
    ensures forall i, j :: 0 <= i < j < |Five(k)| ==> Five(k)[i] < Five(k)[j]
  {}

  lemma CrowdedSelect(prevRank: Option<map<Ticker, nat>>, e: nat)
    requires e < 3
    ensures WellRanked(CrowdedDay()) && CrowdedRun(prevRank, e)
  {
    CrowdedSectors(e);
    CrowdedTurn(e);
    CrowdedResult(e);
    CrowdedFalls();
    FiveAscends(e);
    EntryDay(CrowdedScores(), BookBefore(e), prevRank, 5, TwoPerSector(Crowded()), 4, e, Five(e));
  }

  lemma OneIsLeftOut()
    ensures CapFixedPoint.LeftOut(CrowdedDay(), TwoPerSector(Crowded()), Five(2), 1, 6)
  {
    CrowdedSectors(1);
    assert Five(2)[4] == 6;
  }

  /** With the cap, a name passed over because its sector was full is not reconsidered when a later displacement
      makes room: after the first day name 1 has room and is four points above a name that is kept.  And two
      days are not enough: on an unchanged day the book goes from names 3 to 7 to 2 to 6, 1 to 5 and 0 to 4. */
  lemma CapNeedsMorePasses()
    ensures WellRanked(CrowdedDay())
    ensures CrowdedRun(None, 2) && CrowdedRun(Some(CrowdedDay().rank), 1) && CrowdedRun(Some(CrowdedDay().rank), 0)
    ensures CapFixedPoint.LeftOut(CrowdedDay(), TwoPerSector(Crowded()), Five(2), 1, 6)
  {
    CrowdedSelect(None, 2);
    CrowdedSelect(Some(CrowdedDay().rank), 1);
    CrowdedSelect(Some(CrowdedDay().rank), 0);
    OneIsLeftOut();
  }
}
