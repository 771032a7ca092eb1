/** Exactly when the order in which the held names are walked can matter, without the cap: a carried name is
    dropped while another of the same score is kept. */
module SelectionOrder {
  import opened Options
  import opened Selection
  import opened SelectionTheorems
  import opened SelectionTrace

  // ---- two selections from the same carried names ------------------------------------------------------------

  /** When `c` leaves out a newcomer of `b`, the newcomers of `c` come before it and are in `b` too. */
  lemma NewcomersNest(ds: DayScores, n: nat, k: set<Ticker>, b: set<Ticker>, c: set<Ticker>, u: Ticker)
    requires WellRanked(ds) && b <= ds.score.Keys && c <= ds.score.Keys
    requires b <= k + Top(ds, n) && c <= k + Top(ds, n)
    requires NewcomersAreBest(ds, n, k, b) && NewcomersAreBest(ds, n, k, c)
    requires u in b - k && u !in c
    ensures c - k <= b
  {
    assert u in Top(ds, n) - k - c;
    forall v | v in c - k ensures v in b {
      assert v in Top(ds, n) - k;
      assert ds.rank[v] < ds.rank[u];
    }
  }

  /** `b` dropped `h` for `u`, so a selection that keeps `h` has `u` as well. */
  lemma Contested(ds: DayScores, n: nat, k: set<Ticker>, b: set<Ticker>, c: set<Ticker>, u: Ticker, h: Ticker)
    requires WellRanked(ds) && k <= ds.score.Keys && b <= ds.score.Keys && c <= ds.score.Keys
    requires b <= k + Top(ds, n) && DroppedAreBeaten(ds, k, b) && NoneLeftOut(ds, n, c)
    requires u in b - k && h in k - b && h in c
    ensures u in c
  {
    assert Beats(ds, u, h);
    assert u in Top(ds, n);
  }

  /** No selection takes a newcomer another one leaves out while both hold equally many names. */
  lemma NoExtraNewcomer(ds: DayScores, n: nat, k: set<Ticker>, b: set<Ticker>, c: set<Ticker>, u: Ticker)
    requires WellRanked(ds) && k <= ds.score.Keys && b <= ds.score.Keys && c <= ds.score.Keys
    requires IsSelection(ds, n, k, b) && IsSelection(ds, n, k, c)
    requires u in b - k
    ensures u in c
  {
    if u !in c {
      NewcomersNest(ds, n, k, b, c, u);
      var h := CarriedInOnly(k, b, c, u);
      Contested(ds, n, k, b, c, u, h);
    }
  }

  lemma CarriedInOnly(k: set<Ticker>, b: set<Ticker>, c: set<Ticker>, u: Ticker) returns (h: Ticker)
    requires |b| == |c| && c - k <= b && u in b - c
    ensures h in c && h !in b && h in k
  {
    if c <= b {
      Subsets(c, b - {u});
    }
    h :| h in c && h !in b;
  }

  lemma NewcomersShared(ds: DayScores, n: nat, k: set<Ticker>, b: set<Ticker>, c: set<Ticker>)
    requires WellRanked(ds) && k <= ds.score.Keys && b <= ds.score.Keys && c <= ds.score.Keys
    requires IsSelection(ds, n, k, b) && IsSelection(ds, n, k, c)
    ensures b - k <= c
  {
    forall v | v in b - k ensures v in c {
      NoExtraNewcomer(ds, n, k, b, c, v);
    }
  }

  /** A dropped name has the score of a kept one. */
  ghost predicate Tied(score: map<Ticker, real>, keep: set<Ticker>, drop: set<Ticker>) {
    exists h, c :: h in drop && c in keep && h in score && c in score && score[h] == score[c]
  }

  /** A carried name is dropped although one of the same score is kept. */
  ghost predicate TieAcross(ds: DayScores, k: set<Ticker>, b: set<Ticker>)
    requires k <= ds.score.Keys
  {
    Tied(ds.score, k * b, k - b)
  }

  /** A name in one selection alone is carried, and has the score of a carried name in the other alone. */
  lemma DifferenceIsTie(ds: DayScores, n: nat, k: set<Ticker>, b: set<Ticker>, c: set<Ticker>, u: Ticker)
    requires WellRanked(ds) && k <= ds.score.Keys && b <= ds.score.Keys && c <= ds.score.Keys
    requires IsSelection(ds, n, k, b) && IsSelection(ds, n, k, c) && u in b && u !in c
    ensures TieAcross(ds, k, b)
  {
    if u !in k {
      NoExtraNewcomer(ds, n, k, b, c, u);
    } else {
      NewcomersShared(ds, n, k, c, b);
      var h := CarriedInOnly(k, b, c, u);
      assert ds.score[u] == ds.score[h];
    }
  }

  lemma SelectionIsUnique(ds: DayScores, n: nat, k: set<Ticker>, b: set<Ticker>, c: set<Ticker>)
    requires WellRanked(ds) && k <= ds.score.Keys && b <= ds.score.Keys && c <= ds.score.Keys
    requires IsSelection(ds, n, k, b) && IsSelection(ds, n, k, c) && !TieAcross(ds, k, b)
    ensures b == c
  {
    forall u | u in b ensures u in c {
      if u !in c {
        DifferenceIsTie(ds, n, k, b, c, u);
      }
    }
    SubsetOfSameSize(b, c);
  }

  lemma SwappedParts(k: set<Ticker>, b: set<Ticker>, h: Ticker, c: Ticker)
    requires h in k - b && c in k * b
    ensures var other := Swapped(b, c, h);
            |other| == |b| && other - k == b - k && k - other == k - b - {h} + {c}
  {
    assert Swapped(b, c, h) - k == b - k;
  }

  lemma SwappedWeakest(ds: DayScores, n: nat, k: set<Ticker>, b: set<Ticker>, h: Ticker, c: Ticker)
    requires WellRanked(ds) && k <= ds.score.Keys && b <= ds.score.Keys
    requires DroppedAreWeakest(ds, k, b) && DroppedAreBeaten(ds, k, b) && NoneLeftOut(ds, n, b)
    requires h in k - b && c in k * b && ds.score[h] == ds.score[c]
    ensures var other := Swapped(b, c, h);
            other <= ds.score.Keys && DroppedAreWeakest(ds, k, other) && DroppedAreBeaten(ds, k, other)
            && NoneLeftOut(ds, n, other)
  {
    var other := Swapped(b, c, h);
    SwappedDropped(ds, k, b, h, c);
    forall t, x | t in Top(ds, n) - other && x in other ensures !Beats(ds, t, x) {
      SwappedOut(ds, n, k, b, h, c, t, x);
    }
  }

  lemma SwappedDropped(ds: DayScores, k: set<Ticker>, b: set<Ticker>, h: Ticker, c: Ticker)
    requires k <= ds.score.Keys && b <= ds.score.Keys
    requires DroppedAreWeakest(ds, k, b) && DroppedAreBeaten(ds, k, b)
    requires h in k - b && c in k * b && ds.score[h] == ds.score[c]
    ensures var other := Swapped(b, c, h);
            other <= ds.score.Keys && DroppedAreWeakest(ds, k, other) && DroppedAreBeaten(ds, k, other)
  {
    var other := Swapped(b, c, h);
    SwappedParts(k, b, h, c);
    forall g, x | g in k - other && x in other ensures ds.score[g] <= ds.score[x] {
      var below, above := if g == c then h else g, if x == h then c else x;
      assert below in k - b && above in b;
    }
    forall g, u | g in k - other && u in other - k ensures Beats(ds, u, g) {
      var below := if g == c then h else g;
      assert below in k - b && u in b - k;
      assert Beats(ds, u, below);
    }
  }

  lemma SwappedOut(ds: DayScores, n: nat, k: set<Ticker>, b: set<Ticker>, h: Ticker, c: Ticker, t: Ticker, x: Ticker)
    requires WellRanked(ds) && k <= ds.score.Keys && b <= ds.score.Keys
    requires DroppedAreWeakest(ds, k, b) && NoneLeftOut(ds, n, b)
    requires h in k - b && c in k * b && ds.score[h] == ds.score[c]
    requires t in Top(ds, n) - Swapped(b, c, h) && x in Swapped(b, c, h)
    ensures x in ds.score && !Beats(ds, t, x)
  {
    if t == c {
      assert x != h ==> ds.score[h] <= ds.score[x];
    } else {
      assert t in Top(ds, n) - b;
      assert !Beats(ds, t, if x == h then c else x);
    }
  }

  /** A kept name can change places with a dropped one of its score. */
  lemma TieGivesAnother(ds: DayScores, n: nat, k: set<Ticker>, b: set<Ticker>, h: Ticker, c: Ticker)
    requires WellRanked(ds) && k <= ds.score.Keys && b <= ds.score.Keys && IsSelection(ds, n, k, b)
    requires h in k - b && c in k * b && ds.score[h] == ds.score[c]
    ensures Swapped(b, c, h) <= ds.score.Keys && IsSelection(ds, n, k, Swapped(b, c, h))
  {
    SwappedParts(k, b, h, c);
    SwappedWeakest(ds, n, k, b, h, c);
    SameNewcomers(ds, n, k, b, Swapped(b, c, h));
  }

  lemma SameNewcomers(ds: DayScores, n: nat, k: set<Ticker>, b: set<Ticker>, other: set<Ticker>)
    requires WellRanked(ds) && b <= ds.score.Keys && other <= ds.score.Keys && other - k == b - k
    requires NewcomersAreBest(ds, n, k, b) && b <= k + Top(ds, n)
    ensures NewcomersAreBest(ds, n, k, other) && other <= k + Top(ds, n)
  {
    forall u, t | u in other - k && t in Top(ds, n) - k - other ensures ds.rank[u] < ds.rank[t] {
      assert u in b - k;
      assert t in b - k <==> t in other - k;
      assert t in Top(ds, n) - k - b;
    }
    forall u | u in other ensures u in k + Top(ds, n) {
      if u !in k { assert u in b - k; }
    }
  }

  /** The rules determine the book exactly when no dropped carried name has the score of a kept one. */
  lemma SelectionIsUniqueIff(ds: DayScores, n: nat, k: set<Ticker>, b: set<Ticker>)
    requires WellRanked(ds) && k <= ds.score.Keys && b <= ds.score.Keys && IsSelection(ds, n, k, b)
    ensures (forall c :: c <= ds.score.Keys && IsSelection(ds, n, k, c) ==> c == b) <==> !TieAcross(ds, k, b)
  {
    if TieAcross(ds, k, b) {
      var h, c :| h in k - b && c in k * b && h in ds.score && c in ds.score && ds.score[h] == ds.score[c];
      TieGivesAnother(ds, n, k, b, h, c);
      assert c !in Swapped(b, c, h);
    } else {
      forall c | c <= ds.score.Keys && IsSelection(ds, n, k, c) ensures c == b {
        SelectionIsUnique(ds, n, k, b, c);
      }
    }
  }

  // ---- where the cut falls, before the call ----------------------------------------------------------------------

  /** Of the first `m` ranked names those that are not carried, best first. */
  function Outside(ranked: seq<Ticker>, m: nat, carried: seq<Ticker>): (r: seq<Ticker>)
    requires m <= |ranked|
  {
    if m == 0 then []
    else
      var front, t := Outside(ranked, m - 1, carried), ranked[m - 1];
      if t in carried then front else front + [t]
  }

  function Newcomers(ds: DayScores, n: nat, carried: seq<Ticker>): seq<Ticker> {
    Outside(ds.ranked, Entries(ds, n), carried)
  }

  /** Once the free places are taken, the newcomers meet the carried names, weakest first; the one numbered `i`
      takes the place of the one numbered `i` when it beats it. */
  predicate TakesPlace(score: map<Ticker, real>, us: seq<Ticker>, cs: seq<Ticker>, free: nat, i: nat) {
    && i < |cs| && free + i < |us| && us[free + i] in score && cs[|cs| - 1 - i] in score
    && score[us[free + i]] >= score[cs[|cs| - 1 - i]] + REPLACE_ADVANTAGE
  }

  /** How many carried names are displaced, from number `i` on. */
  function Displaced(score: map<Ticker, real>, us: seq<Ticker>, cs: seq<Ticker>, free: nat, i: nat): (m: nat)
    ensures i <= |cs| ==> i <= m <= |cs|
    decreases |cs| - i
  {
    if TakesPlace(score, us, cs, free, i) then Displaced(score, us, cs, free, i + 1) else i
  }

  function DisplacedInAll(score: map<Ticker, real>, us: seq<Ticker>, cs: seq<Ticker>, free: nat): nat {
    Displaced(score, us, cs, free, 0)
  }

  /** Beside the cut after the last `d` names the scores differ. */
  predicate ClearCut(score: map<Ticker, real>, cs: seq<Ticker>, d: nat) {
    d == 0 || d >= |cs|
    || (cs[|cs| - d] in score && cs[|cs| - d - 1] in score && score[cs[|cs| - d]] != score[cs[|cs| - d - 1]])
  }

  /** The strongest carried name to be displaced and the weakest to be kept differ in score. */
  predicate CutIsClear(ds: DayScores, n: nat, carried: seq<Ticker>)
    requires |carried| <= n
  {
    var cs := InRankOrder(ds.ranked, carried);
    ClearCut(ds.score, cs, DisplacedInAll(ds.score, Newcomers(ds, n, carried), cs, n - |carried|))
  }

  // ---- counting in a list of falling scores -----------------------------------------------------------------------

  ghost predicate Falling(score: map<Ticker, real>, r: seq<Ticker>) {
    && NoDup(r) && (forall i :: 0 <= i < |r| ==> r[i] in score)
    && forall i, j :: 0 <= i <= j < |r| ==> score[r[j]] <= score[r[i]]
  }

  /** Too many to fit behind, or before, a position. */
  lemma SomeUpTo(r: seq<Ticker>, x: set<Ticker>, q: nat) returns (i: nat)
    requires x <= ToSet(r) && q < |r| < q + 1 + |x|
    ensures i <= q && r[i] in x
  {
    if forall i :: 0 <= i <= q ==> r[i] !in x {
      NoDupSize(r[q + 1..]);
      forall t | t in x ensures t in r[q + 1..] {
        var i :| 0 <= i < |r| && r[i] == t;
        assert r[q + 1..][i - q - 1] == t;
      }
      Subsets(x, ToSet(r[q + 1..]));
    }
    i :| 0 <= i <= q && r[i] in x;
  }

  lemma SomeFrom(r: seq<Ticker>, x: set<Ticker>, q: nat) returns (i: nat)
    requires x <= ToSet(r) && q < |x|
    ensures q <= i < |r| && r[i] in x
  {
    if forall i :: q <= i < |r| ==> r[i] !in x {
      var front := if q <= |r| then r[..q] else r;
      NoDupSize(front);
      forall t | t in x ensures t in front {
        var i :| 0 <= i < |r| && r[i] == t;
        assert front[i] == t;
      }
      Subsets(x, ToSet(front));
    }
    i :| q <= i < |r| && r[i] in x;
  }

  /** A set that holds whatever stands before one of its names is a front of the list. */
  lemma Front(r: seq<Ticker>, x: set<Ticker>, q: nat)
    requires NoDup(r) && x <= ToSet(r) && q < |r|
    requires forall i, j :: 0 <= i < j < |r| && r[j] in x ==> r[i] in x
    ensures r[q] in x <==> q < |x|
  {
    if q < |x| {
      var i := SomeFrom(r, x, q);
    } else if r[q] in x {
      NoDupSize(r[..q + 1]);
      Subsets(ToSet(r[..q + 1]), x);
    }
  }

  /** The names of a falling list, parted into `keep` and the last `d` in score. */
  ghost predicate Parted(score: map<Ticker, real>, cs: seq<Ticker>, keep: set<Ticker>, drop: set<Ticker>) {
    && Falling(score, cs) && keep !! drop && ToSet(cs) == keep + drop && |cs| == |keep| + |drop|
    && forall h, c :: h in drop && c in keep ==> h in score && c in score && score[h] <= score[c]
  }

  lemma SomeDroppedAbove(score: map<Ticker, real>, cs: seq<Ticker>, keep: set<Ticker>, drop: set<Ticker>) returns (h: Ticker)
    requires Parted(score, cs, keep, drop) && drop != {}
    ensures h in drop && h in score && 0 < |drop| <= |cs| && score[cs[|cs| - |drop|]] <= score[h]
  {
    assert |drop| > 0;
    var i := SomeUpTo(cs, drop, |cs| - |drop|);
    h := cs[i];
  }

  lemma SomeKeptBelow(score: map<Ticker, real>, cs: seq<Ticker>, keep: set<Ticker>, drop: set<Ticker>) returns (c: Ticker)
    requires Parted(score, cs, keep, drop) && |drop| < |cs|
    ensures c in keep && c in score && score[c] <= score[cs[|cs| - |drop| - 1]]
  {
    var i := SomeFrom(cs, keep, |cs| - |drop| - 1);
    c := cs[i];
  }

  lemma TieReachesTheCut(score: map<Ticker, real>, cs: seq<Ticker>, keep: set<Ticker>, drop: set<Ticker>)
    requires Parted(score, cs, keep, drop) && Tied(score, keep, drop)
    ensures !ClearCut(score, cs, |drop|)
  {
    var h, c :| h in drop && c in keep && h in score && c in score && score[h] == score[c];
    assert |drop| > 0 && |keep| > 0;
    SomeKeptPast(score, cs, keep, drop, h, c);
    SomeDroppedBefore(score, cs, keep, drop, h, c);
  }

  /** The kept names and a tied dropped one are too many to stand before the cut. */
  lemma SomeKeptPast(score: map<Ticker, real>, cs: seq<Ticker>, keep: set<Ticker>, drop: set<Ticker>, h: Ticker, c: Ticker)
    requires Parted(score, cs, keep, drop) && h in drop && c in keep && score[h] == score[c]
    ensures 0 < |drop| <= |cs| && score[h] <= score[cs[|cs| - |drop|]]
  {
    var more := keep + {h};
    assert |more| == |keep| + 1 && |drop| > 0;
    var i := SomeFrom(cs, more, |cs| - |drop|);
    assert score[h] <= score[cs[i]];
  }

  lemma SomeDroppedBefore(score: map<Ticker, real>, cs: seq<Ticker>, keep: set<Ticker>, drop: set<Ticker>, h: Ticker, c: Ticker)
    requires Parted(score, cs, keep, drop) && h in drop && c in keep && score[h] == score[c]
    ensures |drop| < |cs| && score[cs[|cs| - |drop| - 1]] <= score[h]
  {
    var more := drop + {c};
    assert |more| == |drop| + 1 && |keep| > 0;
    var i := SomeUpTo(cs, more, |cs| - |drop| - 1);
    assert score[cs[i]] <= score[c];
  }

  /** The two names beside the cut have one score exactly when there is a tie across it. */
  lemma TieIsAtTheCut(score: map<Ticker, real>, cs: seq<Ticker>, keep: set<Ticker>, drop: set<Ticker>)
    requires Parted(score, cs, keep, drop)
    ensures Tied(score, keep, drop) <==> !ClearCut(score, cs, |drop|)
  {
    if Tied(score, keep, drop) {
      TieReachesTheCut(score, cs, keep, drop);
    }
    if !ClearCut(score, cs, |drop|) {
      var h := SomeDroppedAbove(score, cs, keep, drop);
      var c := SomeKeptBelow(score, cs, keep, drop);
    }
  }

  lemma {:induction false} DisplacedIs(score: map<Ticker, real>, us: seq<Ticker>, cs: seq<Ticker>, free: nat, i: nat, d: nat)
    requires i <= d && !TakesPlace(score, us, cs, free, d)
    requires forall j :: i <= j < d ==> TakesPlace(score, us, cs, free, j)
    ensures Displaced(score, us, cs, free, i) == d
    decreases d - i
  {
    if i < d {
      DisplacedIs(score, us, cs, free, i + 1, d);
    }
  }

  lemma EarlierTakePlace(score: map<Ticker, real>, us: seq<Ticker>, cs: seq<Ticker>, free: nat, j: nat, i: nat)
    requires Falling(score, us) && Falling(score, cs) && j <= i && TakesPlace(score, us, cs, free, i)
    ensures TakesPlace(score, us, cs, free, j)
  {
    assert score[us[free + i]] <= score[us[free + j]] && score[cs[|cs| - 1 - j]] <= score[cs[|cs| - 1 - i]];
  }

  /** What a selection takes in and drops, in these terms: the newcomers are a front of their list, they beat
      what is dropped, and nobody left out beats what is kept. */
  ghost predicate Fits(score: map<Ticker, real>, us: seq<Ticker>, cs: seq<Ticker>, free: nat,
                       keep: set<Ticker>, drop: set<Ticker>, taken: set<Ticker>) {
    && Falling(score, us) && Parted(score, cs, keep, drop) && taken <= ToSet(us)
    && (forall i, j :: 0 <= i < j < |us| && us[j] in taken ==> us[i] in taken)
    && (|taken| == free + |drop| || (drop == {} && |us| < free))
    && (forall h, u :: h in drop && u in taken && u in score && h in score ==> score[u] >= score[h] + REPLACE_ADVANTAGE)
    && (forall q, c :: 0 <= q < |us| && us[q] !in taken && c in keep && c in score && us[q] in score ==>
          score[us[q]] < score[c] + REPLACE_ADVANTAGE)
  }

  lemma LastTakesPlace(score: map<Ticker, real>, us: seq<Ticker>, cs: seq<Ticker>, free: nat,
                       keep: set<Ticker>, drop: set<Ticker>, taken: set<Ticker>)
    requires Fits(score, us, cs, free, keep, drop, taken) && drop != {}
    ensures |drop| > 0 && TakesPlace(score, us, cs, free, |drop| - 1)
  {
    assert |drop| > 0;
    NoDupSize(us);
    Subsets(taken, ToSet(us));
    Front(us, taken, free + |drop| - 1);
    var h := SomeDroppedAbove(score, cs, keep, drop);
  }

  lemma NextTakesNone(score: map<Ticker, real>, us: seq<Ticker>, cs: seq<Ticker>, free: nat,
                      keep: set<Ticker>, drop: set<Ticker>, taken: set<Ticker>)
    requires Fits(score, us, cs, free, keep, drop, taken)
    ensures !TakesPlace(score, us, cs, free, |drop|)
  {
    if TakesPlace(score, us, cs, free, |drop|) {
      Front(us, taken, free + |drop|);
      var c := SomeKeptBelow(score, cs, keep, drop);
    }
  }

  /** So the count made before the call is how many are dropped. */
  lemma DisplacedAreDropped(score: map<Ticker, real>, us: seq<Ticker>, cs: seq<Ticker>, free: nat,
                            keep: set<Ticker>, drop: set<Ticker>, taken: set<Ticker>)
    requires Fits(score, us, cs, free, keep, drop, taken)
    ensures DisplacedInAll(score, us, cs, free) == |drop|
  {
    NextTakesNone(score, us, cs, free, keep, drop, taken);
    if drop != {} {
      LastTakesPlace(score, us, cs, free, keep, drop, taken);
      forall j: nat | j < |drop| ensures TakesPlace(score, us, cs, free, j) {
        EarlierTakePlace(score, us, cs, free, j, |drop| - 1);
      }
    }
    DisplacedIs(score, us, cs, free, 0, |drop|);
  }

  // ---- the lists of a day ---------------------------------------------------------------------------------------------

  lemma {:induction false} OutsideFacts(ds: DayScores, m: nat, carried: seq<Ticker>)
    requires WellRanked(ds) && m <= |ds.ranked|
    ensures var r := Outside(ds.ranked, m, carried);
            && InOrder(ds, r)
            && (forall t :: t in r <==> t in ds.rank && ds.rank[t] <= m && t !in carried)
  {
    if m > 0 {
      var front, t := Outside(ds.ranked, m - 1, carried), ds.ranked[m - 1];
      OutsideFacts(ds, m - 1, carried);
      NextRank(ds, m);
      if t !in carried {
        NextInOrder(ds, front, t);
      }
    } else {
      NextRank(ds, 0);
    }
  }

  /** One name has rank `m`, the one at that place, and none has rank 0. */
  lemma NextRank(ds: DayScores, m: nat)
    requires WellRanked(ds) && m <= |ds.ranked|
    ensures forall t :: t in ds.rank && ds.rank[t] == m ==> 0 < m && t == ds.ranked[m - 1]
    ensures 0 < m ==> ds.ranked[m - 1] in ds.rank && ds.rank[ds.ranked[m - 1]] == m
  {
    forall t | t in ds.rank && ds.rank[t] == m ensures 0 < m && t == ds.ranked[m - 1] {
      var a := Placed(ds, t);
    }
  }

  lemma ScoresFall(ds: DayScores, t: Ticker, u: Ticker)
    requires WellRanked(ds) && t in ds.rank && u in ds.rank && ds.rank[t] <= ds.rank[u]
    ensures ds.score[u] <= ds.score[t]
  {
    var a := Placed(ds, t);
    var b := Placed(ds, u);
  }

  lemma InOrderFalls(ds: DayScores, r: seq<Ticker>)
    requires WellRanked(ds) && InOrder(ds, r)
    ensures Falling(ds.score, r)
  {
    forall i | 0 <= i < |r| ensures r[i] in ds.score {
      assert r[i] in r;
    }
    forall i, j | 0 <= i <= j < |r| ensures ds.score[r[j]] <= ds.score[r[i]] {
      ScoresFall(ds, r[i], r[j]);
    }
  }

  lemma NewcomerFacts(ds: DayScores, n: nat, carried: seq<Ticker>)
    requires WellRanked(ds)
    ensures InOrder(ds, Newcomers(ds, n, carried))
    ensures ToSet(Newcomers(ds, n, carried)) == Top(ds, n) - ToSet(carried)
  {
    OutsideFacts(ds, Entries(ds, n), carried);
    forall t ensures t in Top(ds, n) <==> t in ds.rank && ds.rank[t] <= Entries(ds, n) {
      if t in ds.rank {
        var a := Placed(ds, t);
      }
    }
  }

  lemma KeptAndDropped(k: set<Ticker>, b: set<Ticker>)
    ensures |k * b| + |k - b| == |k| && |k * b| + |b - k| == |b|
  {
    assert k == k * b + (k - b) && b == k * b + (b - k);
  }

  /** What a selection takes in beyond the free places it drops. */
  lemma NewcomerCount(k: set<Ticker>, top: set<Ticker>, b: set<Ticker>, n: nat)
    requires b <= k + top && |k| <= n && |b| == (if |k + top| < n then |k + top| else n)
    ensures |b - k| == n - |k| + |k - b| || (k - b == {} && |top - k| < n - |k|)
  {
    KeptAndDropped(k, b);
    if |k + top| < n {
      SubsetOfSameSize(b, k + top);
      assert k + top == k + (top - k);
    }
  }

  lemma SelectionParts(ds: DayScores, k: set<Ticker>, b: set<Ticker>, cs: seq<Ticker>)
    requires k <= ds.score.Keys && b <= ds.score.Keys && DroppedAreWeakest(ds, k, b)
    requires Falling(ds.score, cs) && ToSet(cs) == k
    ensures Parted(ds.score, cs, k * b, k - b)
  {
    NoDupSize(cs);
    KeptAndDropped(k, b);
  }

  lemma NewcomersComeFirst(ds: DayScores, n: nat, k: set<Ticker>, b: set<Ticker>, us: seq<Ticker>)
    requires WellRanked(ds) && b <= ds.score.Keys && NewcomersAreBest(ds, n, k, b)
    requires InOrder(ds, us) && ToSet(us) == Top(ds, n) - k
    ensures forall i, j :: 0 <= i < j < |us| && us[j] in b - k ==> us[i] in b - k
  {
    forall i, j | 0 <= i < j < |us| && us[j] in b - k ensures us[i] in b - k {
      assert us[i] in ToSet(us) && ds.rank[us[i]] < ds.rank[us[j]];
    }
  }

  lemma NewcomersBeat(ds: DayScores, n: nat, k: set<Ticker>, b: set<Ticker>, us: seq<Ticker>)
    requires WellRanked(ds) && k <= ds.score.Keys && b <= ds.score.Keys && IsSelection(ds, n, k, b)
    requires ToSet(us) == Top(ds, n) - k
    ensures forall h, u :: h in k - b && u in b - k ==> ds.score[u] >= ds.score[h] + REPLACE_ADVANTAGE
    ensures forall q, c :: 0 <= q < |us| && us[q] !in b - k && c in k * b && us[q] in ds.score ==>
              ds.score[us[q]] < ds.score[c] + REPLACE_ADVANTAGE
  {
    forall h, u | h in k - b && u in b - k ensures ds.score[u] >= ds.score[h] + REPLACE_ADVANTAGE {
      assert Beats(ds, u, h);
    }
    forall q, c | 0 <= q < |us| && us[q] !in b - k && c in k * b && us[q] in ds.score
      ensures ds.score[us[q]] < ds.score[c] + REPLACE_ADVANTAGE
    {
      assert us[q] in ToSet(us);
      assert !Beats(ds, us[q], c);
    }
  }

  lemma SelectionFits(ds: DayScores, n: nat, k: set<Ticker>, b: set<Ticker>, us: seq<Ticker>, cs: seq<Ticker>, free: nat)
    requires WellRanked(ds) && k <= ds.score.Keys && b <= ds.score.Keys && IsSelection(ds, n, k, b) && free + |k| == n
    requires InOrder(ds, us) && ToSet(us) == Top(ds, n) - k && InOrder(ds, cs) && ToSet(cs) == k
    ensures Fits(ds.score, us, cs, free, k * b, k - b, b - k)
  {
    InOrderFalls(ds, cs);
    InOrderFalls(ds, us);
    SelectionParts(ds, k, b, cs);
    NoDupSize(us);
    NewcomersComeFirst(ds, n, k, b, us);
    NewcomersBeat(ds, n, k, b, us);
    NewcomerCount(k, Top(ds, n), b, n);
    assert b - k <= ToSet(us);
  }

  lemma CutOf(ds: DayScores, n: nat, carried: seq<Ticker>, free: nat)
    requires free + |carried| == n
    ensures CutIsClear(ds, n, carried) <==>
              var cs := InRankOrder(ds.ranked, carried);
              ClearCut(ds.score, cs, DisplacedInAll(ds.score, Newcomers(ds, n, carried), cs, free))
  {}

  /** Before the call: the cut is clear exactly when a selection has no tie across it. */
  lemma ClearIffNoTie(ds: DayScores, n: nat, carried: seq<Ticker>, b: set<Ticker>)
    requires WellRanked(ds) && Ranked(ds, carried) && NoDup(carried) && |carried| <= n
    requires ToSet(carried) <= ds.score.Keys && b <= ds.score.Keys && IsSelection(ds, n, ToSet(carried), b)
    ensures CutIsClear(ds, n, carried) <==> !TieAcross(ds, ToSet(carried), b)
  {
    var k, us, cs := ToSet(carried), Newcomers(ds, n, carried), InRankOrder(ds.ranked, carried);
    var free := n - |carried|;
    NewcomerFacts(ds, n, carried);
    ResultFacts(ds, carried);
    NoDupSize(carried);
    CutOf(ds, n, carried, free);
    SelectionDisplaces(ds, n, k, b, us, cs, free);
    TieOfDropped(ds, k, b, cs);
  }

  lemma TieOfDropped(ds: DayScores, k: set<Ticker>, b: set<Ticker>, cs: seq<Ticker>)
    requires WellRanked(ds) && k <= ds.score.Keys && b <= ds.score.Keys && DroppedAreWeakest(ds, k, b)
    requires InOrder(ds, cs) && ToSet(cs) == k
    ensures Tied(ds.score, k * b, k - b) <==> !ClearCut(ds.score, cs, |k - b|)
  {
    InOrderFalls(ds, cs);
    SelectionParts(ds, k, b, cs);
    TieIsAtTheCut(ds.score, cs, k * b, k - b);
  }

  /** The names displaced are as many as the selection drops. */
  lemma SelectionDisplaces(ds: DayScores, n: nat, k: set<Ticker>, b: set<Ticker>, us: seq<Ticker>, cs: seq<Ticker>, free: nat)
    requires WellRanked(ds) && k <= ds.score.Keys && b <= ds.score.Keys && IsSelection(ds, n, k, b) && free + |k| == n
    requires InOrder(ds, us) && ToSet(us) == Top(ds, n) - k && InOrder(ds, cs) && ToSet(cs) == k
    ensures DisplacedInAll(ds.score, us, cs, free) == |k - b|
  {
    SelectionFits(ds, n, k, b, us, cs, free);
    DisplacedAreDropped(ds.score, us, cs, free, k * b, k - b, b - k);
  }

  // ---- which of two tied names goes -------------------------------------------------------------------------------

  /** The books of an uncapped pass. */
  ghost predicate Pass(ds: DayScores, n: nat, k: set<Ticker>, us: seq<seq<Ticker>>) {
    IsPass(ds, NoCap, us, Entries(ds, n)) && InPass(ds, n, k, us[0], 0)
  }

  lemma TurnKeepsOut(ds: DayScores, n: nat, k: set<Ticker>, us: seq<seq<Ticker>>, j: nat, x: Ticker)
    requires Pass(ds, n, k, us) && j < Entries(ds, n) && x in k && x !in us[j]
    ensures x !in us[j + 1]
  {
    PassKeeps(ds, n, k, us, j);
    assert TurnAt(ds, NoCap, us, j);
    TurnKeeps(ds, n, k, us, j);
  }

  /** A carried name that is out stays out. */
  lemma {:induction false} CarriedStaysOut(ds: DayScores, n: nat, k: set<Ticker>, us: seq<seq<Ticker>>, j: nat, i: nat, x: Ticker)
    requires Pass(ds, n, k, us) && j <= i <= Entries(ds, n) && x in k && x !in us[j]
    ensures x !in us[i]
  {
    if j < i {
      CarriedStaysOut(ds, n, k, us, j, i - 1, x);
      TurnKeepsOut(ds, n, k, us, i - 1, x);
    }
  }

  /** One turn changes one place of the book at most: the weakest, on which the name there is out. */
  lemma TurnMovesOne(ds: DayScores, n: nat, k: set<Ticker>, us: seq<seq<Ticker>>, j: nat, a: nat)
    requires Pass(ds, n, k, us) && j < Entries(ds, n) && a < |us[j]|
    ensures |us[j + 1]| == |us[j]|
    ensures us[j + 1][a] != us[j][a] ==> us[j][a] !in us[j + 1] && IsWeakest(ds, us[j], a)
  {
    PassKeeps(ds, n, k, us, j);
    assert TurnAt(ds, NoCap, us, j);
  }

  /** A carried name stays at its place while it is in. */
  lemma {:induction false} StaysInPlace(ds: DayScores, n: nat, k: set<Ticker>, us: seq<seq<Ticker>>, j: nat, a: nat)
    requires Pass(ds, n, k, us) && j <= Entries(ds, n) && a < |us[0]| && us[0][a] in k
    ensures |us[j]| == |us[0]| && (us[0][a] in us[j] ==> us[j][a] == us[0][a])
  {
    if j > 0 {
      StaysInPlace(ds, n, k, us, j - 1, a);
      TurnMovesOne(ds, n, k, us, j - 1, a);
      if us[0][a] !in us[j - 1] {
        TurnKeepsOut(ds, n, k, us, j - 1, us[0][a]);
      }
    }
  }

  lemma {:induction false} LastTurnIn(us: seq<seq<Ticker>>, i: nat, x: Ticker) returns (j: nat)
    requires i < |us| && x in us[0] && x !in us[i]
    ensures j < i && x in us[j] && x !in us[j + 1]
  {
    if x in us[i - 1] {
      j := i - 1;
    } else {
      j := LastTurnIn(us, i - 1, x);
    }
  }

  /** Of two carried names of one score, the one that goes stood first. */
  lemma FirstGoes(ds: DayScores, n: nat, k: set<Ticker>, us: seq<seq<Ticker>>, a: nat, e: nat)
    requires Pass(ds, n, k, us) && a < |us[0]| && e < |us[0]| && a != e
    requires us[0][a] in k && us[0][e] in k && us[0][a] in ds.score && us[0][e] in ds.score
    requires ds.score[us[0][a]] == ds.score[us[0][e]]
    requires us[0][a] !in us[Entries(ds, n)] && us[0][e] in us[Entries(ds, n)]
    ensures a < e
  {
    var h, c := us[0][a], us[0][e];
    var j := LastTurnIn(us, Entries(ds, n), h);
    if c !in us[j] {
      CarriedStaysOut(ds, n, k, us, j, Entries(ds, n), c);
    }
    StaysInPlace(ds, n, k, us, j, a);
    StaysInPlace(ds, n, k, us, j, e);
    TurnMovesOne(ds, n, k, us, j, a);
  }

  lemma {:induction false} FillKeepsFront(ds: DayScores, n: nat, book: seq<Ticker>, i: nat)
    ensures book <= Fill(ds, NoCap, n, book, i)
    decreases Entries(ds, n) - i
  {
    if i < Entries(ds, n) && |book| < n {
      var t := ds.ranked[i];
      FillKeepsFront(ds, n, if t in book then book else book + [t], i + 1);
    }
  }

  /** So, of two carried names of one score, the one the book drops was carried first. */
  lemma FirstCarriedGoes(ds: DayScores, held: seq<Ticker>, prevRank: Option<map<Ticker, nat>>, n: nat, a: nat, e: nat)
    requires WellRanked(ds) && NoDup(held) && |held| <= n
    requires var carried := Carry(ds, held, prevRank, n);
             && a < |carried| && e < |carried| && a != e
             && carried[a] in ds.score && carried[e] in ds.score && ds.score[carried[a]] == ds.score[carried[e]]
             && carried[a] !in BookOf(ds, held, prevRank, n) && carried[e] in BookOf(ds, held, prevRank, n)
    ensures a < e
  {
    var carried, filled := Carry(ds, held, prevRank, n), Filled(ds, held, prevRank, n, NoCap);
    FilledFacts(ds, held, prevRank, n);
    FillKeepsFront(ds, n, carried, 0);
    var us := TracePass(ds, NoCap, n, filled);
    assert us[0][a] == carried[a] && us[0][e] == carried[e];
    FirstGoes(ds, n, ToSet(carried), us, a, e);
  }

  lemma {:induction false} CarryFirst(ds: DayScores, t: Ticker, rest: seq<Ticker>, prevRank: Option<map<Ticker, nat>>, n: nat)
    requires Carried(ds, t, prevRank, n)
    ensures Carry(ds, [t] + rest, prevRank, n) == [t] + Carry(ds, rest, prevRank, n)
  {
    if rest == [] {
      var none: seq<Ticker> := [];
      assert [t] + rest == [t] && [t][..0] == none;
    } else {
      var last := |rest| - 1;
      CarryFirst(ds, t, rest[..last], prevRank, n);
      assert ([t] + rest)[..last + 1] == [t] + rest[..last];
    }
  }

  /** Walked with a kept name first, the held names give another book than one that drops a name of its score. */
  lemma WalkedFirst(ds: DayScores, held: seq<Ticker>, prevRank: Option<map<Ticker, nat>>, n: nat, h: Ticker, c: Ticker)
    returns (other: seq<Ticker>)
    requires WellRanked(ds) && NoDup(held) && |held| <= n && h in held && c in held
    requires Carried(ds, h, prevRank, n) && Carried(ds, c, prevRank, n)
    requires h in ds.score && c in ds.score && ds.score[h] == ds.score[c]
    requires h !in BookOf(ds, held, prevRank, n) && c in BookOf(ds, held, prevRank, n)
    ensures NoDup(other) && ToSet(other) == ToSet(held)
    ensures h in BookOf(ds, other, prevRank, n) || c !in BookOf(ds, other, prevRank, n)
  {
    var rest: seq<Ticker>;
    other, rest := MovedFirst(held, c);
    NoDupSize(other);
    NoDupSize(held);
    CarryFirst(ds, c, rest, prevRank, n);
    var carried := Carry(ds, other, prevRank, n);
    assert h in ToSet(other);
    var a :| 0 <= a < |carried| && carried[a] == h;
    if h !in BookOf(ds, other, prevRank, n) && c in BookOf(ds, other, prevRank, n) {
      FirstCarriedGoes(ds, other, prevRank, n, a, 0);
    }
  }

  lemma MovedFirst(held: seq<Ticker>, c: Ticker) returns (other: seq<Ticker>, rest: seq<Ticker>)
    requires NoDup(held) && c in held
    ensures other == [c] + rest && NoDup(other) && ToSet(other) == ToSet(held)
  {
    var j :| 0 <= j < |held| && held[j] == c;
    rest := held[..j] + held[j + 1..];
    other := [c] + rest;
    assert held == held[..j] + [c] + held[j + 1..];
    assert ToSet(other) == ToSet(held);
  }

  // ---- the order of the held names ----------------------------------------------------------------------------------

  lemma SameCarried(ds: DayScores, held: seq<Ticker>, other: seq<Ticker>, prevRank: Option<map<Ticker, nat>>, n: nat)
    requires ToSet(held) == ToSet(other)
    ensures CarriedSet(ds, held, prevRank, n) == CarriedSet(ds, other, prevRank, n)
  {
    assert forall t :: t in held <==> t in ToSet(held);
    assert forall t :: t in other <==> t in ToSet(other);
  }

  /** The result holds the names of the book, in rank order. */
  lemma ResultOfBook(ds: DayScores, held: seq<Ticker>, prevRank: Option<map<Ticker, nat>>, n: nat)
    requires WellRanked(ds) && NoDup(held) && |held| <= n
    ensures InOrder(ds, Select(ds, held, prevRank, n, NoCap))
    ensures ToSet(Select(ds, held, prevRank, n, NoCap)) == ToSet(BookOf(ds, held, prevRank, n))
  {
    BookIsSelection(ds, held, prevRank, n);
    ResultFacts(ds, BookOf(ds, held, prevRank, n));
  }

  /** Books of the same names give the same result, and only those do. */
  lemma ResultIffBook(ds: DayScores, held: seq<Ticker>, other: seq<Ticker>, prevRank: Option<map<Ticker, nat>>, n: nat)
    requires WellRanked(ds) && NoDup(held) && NoDup(other) && |held| <= n && |other| <= n
    ensures Select(ds, held, prevRank, n, NoCap) == Select(ds, other, prevRank, n, NoCap)
       <==> ToSet(BookOf(ds, held, prevRank, n)) == ToSet(BookOf(ds, other, prevRank, n))
  {
    ResultOfBook(ds, held, prevRank, n);
    ResultOfBook(ds, other, prevRank, n);
    var r, q := Select(ds, held, prevRank, n, NoCap), Select(ds, other, prevRank, n, NoCap);
    if ToSet(r) == ToSet(q) {
      OrderIsUnique(ds, r, q);
    }
  }

  lemma CarriedFacts(ds: DayScores, held: seq<Ticker>, prevRank: Option<map<Ticker, nat>>, n: nat)
    requires WellRanked(ds) && NoDup(held) && |held| <= n
    ensures var carried, b := Carry(ds, held, prevRank, n), ToSet(BookOf(ds, held, prevRank, n));
            |carried| <= n && ToSet(carried) <= ds.score.Keys
            && (CutIsClear(ds, n, carried) <==> !TieAcross(ds, ToSet(carried), b))
  {
    CarryNoDup(ds, held, prevRank, n);
    BookIsSelection(ds, held, prevRank, n);
    ClearIffNoTie(ds, n, Carry(ds, held, prevRank, n), ToSet(BookOf(ds, held, prevRank, n)));
  }

  /** From at most `n` held names: every order in which they can be walked gives the same result exactly when the
      strongest carried name to be displaced and the weakest to be kept differ in score. */
  lemma OrderDoesNotMatterIff(ds: DayScores, held: seq<Ticker>, prevRank: Option<map<Ticker, nat>>, n: nat)
    requires WellRanked(ds) && NoDup(held) && |held| <= n
    ensures |Carry(ds, held, prevRank, n)| <= n
    ensures (forall other :: NoDup(other) && ToSet(other) == ToSet(held) ==>
               Select(ds, other, prevRank, n, NoCap) == Select(ds, held, prevRank, n, NoCap))
       <==> CutIsClear(ds, n, Carry(ds, held, prevRank, n))
  {
    CarriedFacts(ds, held, prevRank, n);
    var k, b := CarriedSet(ds, held, prevRank, n), ToSet(BookOf(ds, held, prevRank, n));
    if !TieAcross(ds, k, b) {
      forall other | NoDup(other) && ToSet(other) == ToSet(held)
        ensures Select(ds, other, prevRank, n, NoCap) == Select(ds, held, prevRank, n, NoCap)
      {
        AnyOrder(ds, held, other, prevRank, n);
      }
    } else {
      var h, c :| h in k - b && c in k * b && h in ds.score && c in ds.score && ds.score[h] == ds.score[c];
      var other := WalkedFirst(ds, held, prevRank, n, h, c);
      NoDupSize(held);
      NoDupSize(other);
      ResultIffBook(ds, other, held, prevRank, n);
    }
  }

  lemma AnyOrder(ds: DayScores, held: seq<Ticker>, other: seq<Ticker>, prevRank: Option<map<Ticker, nat>>, n: nat)
    requires WellRanked(ds) && NoDup(held) && |held| <= n && NoDup(other) && ToSet(other) == ToSet(held)
    requires CarriedSet(ds, held, prevRank, n) <= ds.score.Keys
    requires !TieAcross(ds, CarriedSet(ds, held, prevRank, n), ToSet(BookOf(ds, held, prevRank, n)))
    ensures Select(ds, other, prevRank, n, NoCap) == Select(ds, held, prevRank, n, NoCap)
  {
    NoDupSize(held);
    NoDupSize(other);
    SameCarried(ds, held, other, prevRank, n);
    BookIsSelection(ds, held, prevRank, n);
    BookIsSelection(ds, other, prevRank, n);
    SelectionIsUnique(ds, n, CarriedSet(ds, held, prevRank, n), ToSet(BookOf(ds, held, prevRank, n)),
                      ToSet(BookOf(ds, other, prevRank, n)));
    ResultIffBook(ds, other, held, prevRank, n);
  }
}
