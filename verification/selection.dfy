/** The daily selection of the book: carry, fill, displace, at most `n` names.  Names and sectors are
    numbers here, since only their equality matters. */
module Selection {
  import opened Options

  type Ticker = nat
  type Sector = nat

  /** The empty sector name, which the rules treat as no sector. */
  const UNNAMED: Sector := 0

  /** One day's eligible names, best score first, with their scores and 1-based ranks. */
  datatype DayScores = DayScores(ranked: seq<Ticker>, score: map<Ticker, real>, rank: map<Ticker, nat>)

  ghost predicate WellRanked(ds: DayScores) {
    && (forall t :: t in ds.rank <==> t in ds.ranked)
    && (forall t :: t in ds.score <==> t in ds.ranked)
    && (forall i :: 0 <= i < |ds.ranked| ==> ds.rank[ds.ranked[i]] == i + 1)
    && (forall i, j :: 0 <= i < j < |ds.ranked| ==> ds.score[ds.ranked[j]] <= ds.score[ds.ranked[i]])
  }

  const REPLACE_ADVANTAGE := 0.30

  /** The sector constraint: none, or at most two names of one known sector. */
  datatype Cap = NoCap | TwoPerSector(sectors: map<Ticker, Sector>)

  // ---- distinct sequences as sets ----------------------------------------------------------------------

  ghost predicate NoDup(s: seq<Ticker>) {
    forall i, j :: 0 <= i < j < |s| ==> s[i] != s[j]
  }

  function ToSet(s: seq<Ticker>): set<Ticker> {
    set x | x in s
  }

  lemma {:induction false} NoDupSize(s: seq<Ticker>)
    ensures |ToSet(s)| <= |s|
    ensures NoDup(s) ==> |ToSet(s)| == |s|
  {
    if s == [] {
      assert ToSet(s) == {};
    } else {
      var rest := s[..|s| - 1];
      NoDupSize(rest);
      assert s == rest + [s[|s| - 1]];
      assert ToSet(s) == ToSet(rest) + {s[|s| - 1]};
      if NoDup(s) {
        assert s[|s| - 1] !in ToSet(rest);
      }
    }
  }

  // ---- what the selection is, as functions --------------------------------------------------------------

  /** The single earlier close confirms an exit when it, too, ranked the name below the hold band. */
  predicate ExitConfirmed(h: Ticker, prevRank: Option<map<Ticker, nat>>, n: nat) {
    prevRank.Some? && h in prevRank.value && prevRank.value[h] > 2 * n
  }

  predicate Carried(ds: DayScores, h: Ticker, prevRank: Option<map<Ticker, nat>>, n: nat) {
    h in ds.rank && (ds.rank[h] <= 2 * n || !ExitConfirmed(h, prevRank, n))
  }

  function Carry(ds: DayScores, held: seq<Ticker>, prevRank: Option<map<Ticker, nat>>, n: nat): (book: seq<Ticker>)
    ensures forall h :: h in book <==> h in held && Carried(ds, h, prevRank, n)
    ensures |book| <= |held|
  {
    if held == [] then []
    else
      var last := held[|held| - 1];
      assert held == held[..|held| - 1] + [last];
      var front := Carry(ds, held[..|held| - 1], prevRank, n);
      if Carried(ds, last, prevRank, n) then front + [last] else front
  }

  predicate Known(sectors: map<Ticker, Sector>, t: Ticker) {
    t in sectors && sectors[t] != UNNAMED
  }

  /** How many names of the book are in sector `s`. */
  function InSector(sectors: map<Ticker, Sector>, book: seq<Ticker>, s: Sector): nat {
    if book == [] then 0
    else InSector(sectors, book[..|book| - 1], s) + (if IsIn(sectors, book[|book| - 1], s) then 1 else 0)
  }

  predicate IsIn(sectors: map<Ticker, Sector>, t: Ticker, s: Sector) {
    Known(sectors, t) && sectors[t] == s
  }

  predicate CanAdd(cap: Cap, book: seq<Ticker>, t: Ticker) {
    cap.NoCap? || !Known(cap.sectors, t) || InSector(cap.sectors, book, cap.sectors[t]) < 2
  }

  /** How many names may enter: the first `n`, or all when there are fewer. */
  function Entries(ds: DayScores, n: nat): (k: nat)
    ensures k <= |ds.ranked| && k <= n && (k == n || k == |ds.ranked|)
  {
    if n < |ds.ranked| then n else |ds.ranked|
  }

  function Fill(ds: DayScores, cap: Cap, n: nat, book: seq<Ticker>, i: nat): seq<Ticker>
    decreases Entries(ds, n) - i
  {
    if i >= Entries(ds, n) || |book| >= n then book
    else if ds.ranked[i] !in book && CanAdd(cap, book, ds.ranked[i]) then
      Fill(ds, cap, n, book + [ds.ranked[i]], i + 1)
    else
      Fill(ds, cap, n, book, i + 1)
  }

  /** Position `w` holds the earliest of the book's lowest scores. */
  ghost predicate IsWeakest(ds: DayScores, book: seq<Ticker>, w: nat) {
    && w < |book| && (forall b :: b in book ==> b in ds.score)
    && (forall k :: 0 <= k < |book| ==> ds.score[book[w]] <= ds.score[book[k]])
    && (forall k :: 0 <= k < w ==> ds.score[book[w]] < ds.score[book[k]])
  }

  lemma {:induction false} SomeIsWeakest(ds: DayScores, book: seq<Ticker>)
    requires 0 < |book| && forall b :: b in book ==> b in ds.score
    ensures exists w: nat :: IsWeakest(ds, book, w)
  {
    var last := |book| - 1;
    if last == 0 {
      assert IsWeakest(ds, book, 0);
    } else {
      assert forall b :: b in book[..last] ==> b in book;
      SomeIsWeakest(ds, book[..last]);
      var w: nat :| IsWeakest(ds, book[..last], w);
      assert forall k :: 0 <= k < last ==> book[..last][k] == book[k];
      assert IsWeakest(ds, book, if ds.score[book[last]] < ds.score[book[w]] then last else w);
    }
  }

  ghost function Weakest(ds: DayScores, book: seq<Ticker>): (w: nat)
    requires 0 < |book| && forall b :: b in book ==> b in ds.score
    ensures IsWeakest(ds, book, w)
  {
    SomeIsWeakest(ds, book);
    var w: nat :| IsWeakest(ds, book, w);
    w
  }

  /** All names of the book are ranked today. */
  ghost predicate Ranked(ds: DayScores, book: seq<Ticker>) {
    forall b :: b in book ==> b in ds.ranked
  }

  ghost function Displace(ds: DayScores, cap: Cap, n: nat, book: seq<Ticker>, i: nat): (r: seq<Ticker>)
    requires WellRanked(ds) && Ranked(ds, book)
    ensures Ranked(ds, r) && |r| == |book|
    decreases Entries(ds, n) - i
  {
    if i >= Entries(ds, n) || book == [] then book
    else
      var t := ds.ranked[i];
      if t !in book && CanAdd(cap, book, t) && Beats(ds, t, book[Weakest(ds, book)]) then
        Displace(ds, cap, n, book[Weakest(ds, book) := t], i + 1)
      else
        Displace(ds, cap, n, book, i + 1)
  }

  /** The book after name `i` has had its turn. */
  ghost function Turn(ds: DayScores, cap: Cap, book: seq<Ticker>, i: nat): (next: seq<Ticker>)
    requires WellRanked(ds) && Ranked(ds, book) && i < |ds.ranked| && book != []
    ensures Ranked(ds, next) && next != []
  {
    var t, w := ds.ranked[i], Weakest(ds, book);
    if t !in book && CanAdd(cap, book, t) && Beats(ds, t, book[w]) then book[w := t] else book
  }

  predicate Beats(ds: DayScores, t: Ticker, b: Ticker)
    requires t in ds.score && b in ds.score
  {
    ds.score[t] >= ds.score[b] + REPLACE_ADVANTAGE
  }

  /** The ranked names that are in the book, best first. */
  function InRankOrder(ranked: seq<Ticker>, book: seq<Ticker>): (r: seq<Ticker>)
    ensures forall t :: t in r <==> t in ranked && t in book
  {
    if ranked == [] then []
    else
      var last := ranked[|ranked| - 1];
      assert ranked == ranked[..|ranked| - 1] + [last];
      var front := InRankOrder(ranked[..|ranked| - 1], book);
      if last in book then front + [last] else front
  }

  function AtMost(s: seq<Ticker>, n: nat): seq<Ticker> {
    if |s| <= n then s else s[..n]
  }

  lemma FillIsRanked(ds: DayScores, cap: Cap, n: nat, book: seq<Ticker>, i: nat)
    requires Ranked(ds, book)
    ensures Ranked(ds, Fill(ds, cap, n, book, i))
    decreases Entries(ds, n) - i
  {
  }

  /** The book after carrying and filling. */
  ghost function Filled(ds: DayScores, held: seq<Ticker>, prevRank: Option<map<Ticker, nat>>, n: nat, cap: Cap)
    : (book: seq<Ticker>)
    requires WellRanked(ds)
    ensures Ranked(ds, book)
  {
    FillIsRanked(ds, cap, n, Carry(ds, held, prevRank, n), 0);
    Fill(ds, cap, n, Carry(ds, held, prevRank, n), 0)
  }

  ghost function Select(ds: DayScores, held: seq<Ticker>, prevRank: Option<map<Ticker, nat>>, n: nat, cap: Cap)
    : seq<Ticker>
    requires WellRanked(ds)
  {
    AtMost(InRankOrder(ds.ranked, Displace(ds, cap, n, Filled(ds, held, prevRank, n, cap), 0)), n)
  }

  // ---- the selection as the code runs it -------------------------------------------------------------------

  /** The running per-sector counter agrees with the book. */
  ghost predicate Counts(sectors: map<Ticker, Sector>, secCt: map<Sector, int>, book: seq<Ticker>) {
    forall s :: CountOf(secCt, s) == InSector(sectors, book, s)
  }

  function CountOf(secCt: map<Sector, int>, s: Sector): int {
    if s in secCt then secCt[s] else 0
  }

  lemma {:induction false} InSectorReplace(sectors: map<Ticker, Sector>, book: seq<Ticker>, w: nat, t: Ticker, s: Sector)
    requires w < |book|
    ensures InSector(sectors, book[w := t], s)
         == InSector(sectors, book, s)
            - (if IsIn(sectors, book[w], s) then 1 else 0) + (if IsIn(sectors, t, s) then 1 else 0)
  {
    var last := |book| - 1;
    if w == last {
      assert book[w := t][..last] == book[..last];
    } else {
      InSectorReplace(sectors, book[..last], w, t, s);
      assert book[w := t][..last] == book[..last][w := t];
    }
  }

  function Plus(sectors: map<Ticker, Sector>, secCt: map<Sector, int>, t: Ticker, change: int): map<Sector, int> {
    if Known(sectors, t) then secCt[sectors[t] := CountOf(secCt, sectors[t]) + change] else secCt
  }

  lemma CountsAppend(sectors: map<Ticker, Sector>, secCt: map<Sector, int>, book: seq<Ticker>, t: Ticker)
    requires Counts(sectors, secCt, book)
    ensures Counts(sectors, Plus(sectors, secCt, t, 1), book + [t])
  {
    forall s ensures InSector(sectors, book + [t], s) == InSector(sectors, book, s) + (if IsIn(sectors, t, s) then 1 else 0) {
      assert (book + [t])[..|book|] == book;
    }
  }

  lemma CountsReplace(sectors: map<Ticker, Sector>, secCt: map<Sector, int>, book: seq<Ticker>, w: nat, t: Ticker)
    requires Counts(sectors, secCt, book) && w < |book|
    ensures Counts(sectors, Plus(sectors, Plus(sectors, secCt, book[w], -1), t, 1), book[w := t])
  {
    forall s ensures InSector(sectors, book[w := t], s)
         == InSector(sectors, book, s)
            - (if IsIn(sectors, book[w], s) then 1 else 0) + (if IsIn(sectors, t, s) then 1 else 0) {
      InSectorReplace(sectors, book, w, t, s);
    }
  }

  /** No name is counted under the empty sector, so the counter lets such names pass. */
  lemma {:induction false} NoneInEmptySector(sectors: map<Ticker, Sector>, book: seq<Ticker>)
    ensures InSector(sectors, book, UNNAMED) == 0
  {
    if book != [] {
      NoneInEmptySector(sectors, book[..|book| - 1]);
    }
  }

  function CapOf(sectors: map<Ticker, Sector>, capOn: bool): Cap {
    if capOn then TwoPerSector(sectors) else NoCap
  }

  method CanAddNow(sectors: map<Ticker, Sector>, capOn: bool, secCt: map<Sector, int>, ghost book: seq<Ticker>, t: Ticker)
    returns (ok: bool)
    requires Counts(sectors, secCt, book)
    ensures ok == CanAdd(CapOf(sectors, capOn), book, t)
  {
    if !capOn {
      return true;
    }
    if t !in sectors {
      return true;
    }
    NoneInEmptySector(sectors, book);
    ok := CountOf(secCt, sectors[t]) < 2;
  }

  method WeakestNow(ds: DayScores, book: seq<Ticker>) returns (weakest: Option<nat>)
    requires forall b :: b in book ==> b in ds.score
    ensures weakest.None? <==> book == []
    ensures weakest.Some? ==> IsWeakest(ds, book, weakest.value)
  {
    weakest := None;
    for k := 0 to |book|
      invariant weakest.None? <==> k == 0
      invariant weakest.Some? ==> weakest.value < k && IsWeakest(ds, book[..k], weakest.value)
    {
      assert forall b :: b in book[..k + 1] ==> b in book;
      if weakest.None? || ds.score[book[k]] < ds.score[book[weakest.value]] {
        weakest := Some(k);
      }
    }
    assert book[..|book|] == book;
  }

  lemma WeakestIsUnique(ds: DayScores, book: seq<Ticker>, v: nat, w: nat)
    requires IsWeakest(ds, book, v) && IsWeakest(ds, book, w)
    ensures v == w
  {
    assert ds.score[book[v]] == ds.score[book[w]];
  }

  lemma DisplaceUnfolds(ds: DayScores, cap: Cap, n: nat, book: seq<Ticker>, i: nat, w: nat)
    requires WellRanked(ds) && Ranked(ds, book)
    requires i < Entries(ds, n) && IsWeakest(ds, book, w)
    ensures var t := ds.ranked[i];
            Displace(ds, cap, n, book, i)
            == if t !in book && CanAdd(cap, book, t) && Beats(ds, t, book[w])
               then Displace(ds, cap, n, book[w := t], i + 1)
               else Displace(ds, cap, n, book, i + 1)
  {
    WeakestIsUnique(ds, book, w, Weakest(ds, book));
  }

  method Replace(book: seq<Ticker>, counted: map<Sector, int>, w: nat, t: Ticker, sectors: map<Ticker, Sector>)
    returns (after: seq<Ticker>, secCt: map<Sector, int>)
    requires Counts(sectors, counted, book) && w < |book|
    ensures after == book[w := t] && Counts(sectors, secCt, after)
  {
    CountsReplace(sectors, counted, book, w, t);
    secCt := Plus(sectors, counted, book[w], -1);
    after := book[w := t];
    secCt := Plus(sectors, secCt, t, 1);
  }

  method DisplaceNow(ds: DayScores, filled: seq<Ticker>, counted: map<Sector, int>, n: nat,
                     sectors: map<Ticker, Sector>, capOn: bool)
    returns (book: seq<Ticker>)
    requires WellRanked(ds) && Ranked(ds, filled) && Counts(sectors, counted, filled)
    ensures book == Displace(ds, CapOf(sectors, capOn), n, filled, 0)
  {
    book := filled;
    var secCt := counted;
    ghost var cap := CapOf(sectors, capOn);
    for i := 0 to Entries(ds, n)
      invariant Ranked(ds, book) && Counts(sectors, secCt, book)
      invariant Displace(ds, cap, n, book, i) == Displace(ds, cap, n, filled, 0)
    {
      var t := ds.ranked[i];
      var ok := CanAddNow(sectors, capOn, secCt, book, t);
      if t in book || !ok {
        continue;
      }
      var weakest := WeakestNow(ds, book);
      if weakest.None? {
        break;
      }
      var w := weakest.value;
      DisplaceUnfolds(ds, cap, n, book, i, w);
      if ds.score[t] >= ds.score[book[w]] + REPLACE_ADVANTAGE {
        book, secCt := Replace(book, secCt, w, t, sectors);
      }
    }
  }

  lemma NothingRanked(ds: DayScores, held: seq<Ticker>, prevRank: Option<map<Ticker, nat>>, n: nat, cap: Cap)
    requires WellRanked(ds) && ds.ranked == []
    ensures Select(ds, held, prevRank, n, cap) == []
  {
  }

  method CarryNow(ds: DayScores, held: seq<Ticker>, prevRank: Option<map<Ticker, nat>>, n: nat, sectors: map<Ticker, Sector>)
    returns (book: seq<Ticker>, secCt: map<Sector, int>)
    ensures book == Carry(ds, held, prevRank, n) && Counts(sectors, secCt, book)
  {
    book, secCt := [], map[];
    for i := 0 to |held|
      invariant book == Carry(ds, held[..i], prevRank, n) && Counts(sectors, secCt, book)
    {
      assert held[..i + 1][..i] == held[..i];
      if Carried(ds, held[i], prevRank, n) {
        CountsAppend(sectors, secCt, book, held[i]);
        book := book + [held[i]];
        secCt := Plus(sectors, secCt, held[i], 1);
      }
    }
    assert held[..|held|] == held;
  }

  method FillNow(ds: DayScores, carried: seq<Ticker>, counted: map<Sector, int>, n: nat,
                 sectors: map<Ticker, Sector>, capOn: bool)
    returns (book: seq<Ticker>, secCt: map<Sector, int>)
    requires Counts(sectors, counted, carried)
    ensures book == Fill(ds, CapOf(sectors, capOn), n, carried, 0) && Counts(sectors, secCt, book)
  {
    book, secCt := carried, counted;
    var i := 0;
    while i < Entries(ds, n)
      invariant i <= Entries(ds, n) && Counts(sectors, secCt, book)
      invariant Fill(ds, CapOf(sectors, capOn), n, book, i) == Fill(ds, CapOf(sectors, capOn), n, carried, 0)
    {
      if |book| >= n {
        break;
      }
      var t := ds.ranked[i];
      var ok := CanAddNow(sectors, capOn, secCt, book, t);
      if t !in book && ok {
        CountsAppend(sectors, secCt, book, t);
        book := book + [t];
        secCt := Plus(sectors, secCt, t, 1);
      }
      i := i + 1;
    }
  }

  method SelectN(ds: DayScores, held: seq<Ticker>, prevRank: Option<map<Ticker, nat>>,
                 n: nat, sectors: map<Ticker, Sector>, capOn: bool)
    returns (chosen: seq<Ticker>)
    requires WellRanked(ds)
    ensures chosen == Select(ds, held, prevRank, n, CapOf(sectors, capOn))
  {
    ghost var cap := CapOf(sectors, capOn);
    if ds.ranked == [] {
      NothingRanked(ds, held, prevRank, n, cap);
      return [];
    }
    var book, secCt := CarryNow(ds, held, prevRank, n, sectors);
    FillIsRanked(ds, cap, n, book, 0);
    book, secCt := FillNow(ds, book, secCt, n, sectors, capOn);
    book := DisplaceNow(ds, book, secCt, n, sectors, capOn);
    chosen := AtMost(InRankOrder(ds.ranked, book), n);
  }
}
