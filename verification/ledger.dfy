/** What the day simulators share: sums over the names of a book, and marking sleeves to closing prices. */
module Ledger {
  import opened Options
  import opened Reals
  import opened Selection

  const INITIAL_EQUITY := 100000.0
  const COST_RATE := 0.001

  function Share(x: real, equity: real): real {
    if equity > 0.0 then x / equity else 0.0
  }

  /** What each sleeve is of the equity. */
  function CurrentWeights(sleeves: map<Ticker, real>, equity: real): (w: map<Ticker, real>)
    ensures w.Keys == sleeves.Keys
  {
    map t | t in sleeves :: Share(sleeves[t], equity)
  }

  function AfterCost(equity: real, turnover: real): real {
    equity * (1.0 - COST_RATE * turnover)
  }

  // ---- sums over names ------------------------------------------------------------------------------------

  function Get(m: map<Ticker, real>, t: Ticker): real {
    if t in m then m[t] else 0.0
  }

  /** The sum of the map's values over a listing of all names. */
  function Total(u: seq<Ticker>, m: map<Ticker, real>): real {
    if u == [] then 0.0 else Total(u[..|u| - 1], m) + Get(m, u[|u| - 1])
  }

  function TotalDiff(u: seq<Ticker>, m: map<Ticker, real>, w: map<Ticker, real>): real {
    if u == [] then 0.0
    else TotalDiff(u[..|u| - 1], m, w) + Abs(Get(m, u[|u| - 1]) - Get(w, u[|u| - 1]))
  }

  function Times(m: map<Ticker, real>, x: real): (r: map<Ticker, real>)
    ensures r.Keys == m.Keys && forall t :: t in m ==> r[t] == m[t] * x
  {
    map t | t in m :: m[t] * x
  }

  lemma {:induction false} TimesTotal(u: seq<Ticker>, m: map<Ticker, real>, x: real)
    ensures Total(u, Times(m, x)) == Total(u, m) * x
  {
    if u != [] {
      TimesTotal(u[..|u| - 1], m, x);
    }
  }

  ghost predicate NonNegative(m: map<Ticker, real>) {
    forall t :: t in m ==> 0.0 <= m[t]
  }

  ghost predicate AllPositive(m: map<Ticker, real>) {
    forall t :: t in m ==> 0.0 < m[t]
  }

  lemma {:induction false} TotalIsNonNegative(u: seq<Ticker>, m: map<Ticker, real>)
    requires NonNegative(m)
    ensures 0.0 <= Total(u, m)
    ensures forall t :: t in u ==> Get(m, t) <= Total(u, m)
  {
    if u != [] {
      TotalIsNonNegative(u[..|u| - 1], m);
      assert u == u[..|u| - 1] + [u[|u| - 1]];
    }
  }

  /** Moving from one non-negative allocation to another moves at most both of them. */
  lemma {:induction false} DiffBounds(u: seq<Ticker>, m: map<Ticker, real>, w: map<Ticker, real>)
    requires NonNegative(m) && NonNegative(w)
    ensures 0.0 <= TotalDiff(u, m, w) <= Total(u, m) + Total(u, w)
    ensures w == map[] ==> TotalDiff(u, m, w) == Total(u, m)
    ensures w == map[] ==> Total(u, w) == 0.0
  {
    if u != [] {
      DiffBounds(u[..|u| - 1], m, w);
    }
  }

  function Without(m: map<Ticker, real>, x: Ticker): map<Ticker, real> {
    map t | t in m && t != x :: m[t]
  }

  lemma {:induction false} TotalWithout(u: seq<Ticker>, m: map<Ticker, real>, x: Ticker)
    requires NoDup(u)
    ensures Total(u, m) == Total(u, Without(m, x)) + (if x in u then Get(m, x) else 0.0)
  {
    if u != [] {
      TotalWithout(u[..|u| - 1], m, x);
      assert u == u[..|u| - 1] + [u[|u| - 1]];
    }
  }

  lemma {:induction false} NothingListed(u: seq<Ticker>, m: map<Ticker, real>)
    requires forall t :: t in u ==> t !in m
    ensures Total(u, m) == 0.0
  {
    if u != [] {
      NothingListed(u[..|u| - 1], m);
    }
  }

  /** The sum does not depend on the order in which the names are listed. */
  lemma {:induction false} TotalIsOrderFree(u: seq<Ticker>, v: seq<Ticker>, m: map<Ticker, real>)
    requires NoDup(u) && NoDup(v)
    requires forall t :: t in m ==> t in u && t in v
    ensures Total(u, m) == Total(v, m)
    decreases |u|
  {
    if u == [] {
      NothingListed(v, m);
    } else {
      var last := |u| - 1;
      var x := u[last];
      assert u == u[..last] + [x];
      TotalWithout(u[..last], m, x);
      TotalWithout(v, m, x);
      TotalIsOrderFree(u[..last], v, Without(m, x));
    }
  }

  function Rise(x: real, y: real): real {
    if x < y then y - x else 0.0
  }

  /** What goes up from the weights `v` to the weights `w`. */
  function Bought(u: seq<Ticker>, v: map<Ticker, real>, w: map<Ticker, real>): real {
    if u == [] then 0.0 else Bought(u[..|u| - 1], v, w) + Rise(Get(v, u[|u| - 1]), Get(w, u[|u| - 1]))
  }

  /** The change from one allocation to another is what is bought and what is sold. */
  lemma {:induction false} BoughtAndSold(u: seq<Ticker>, v: map<Ticker, real>, w: map<Ticker, real>)
    ensures TotalDiff(u, w, v) == Bought(u, v, w) + Bought(u, w, v)
    ensures Bought(u, v, w) - Bought(u, w, v) == Total(u, w) - Total(u, v)
  {
    if u != [] {
      BoughtAndSold(u[..|u| - 1], v, w);
    }
  }

  // ---- marking one sleeve -----------------------------------------------------------------------------------

  /** A sleeve and the last price seen for it, zero while none was seen. */
  datatype Sleeve = Sleeve(amount: real, lastPx: real)

  /** The close of the day moves the sleeve by the return since the last price seen. */
  function MarkSleeve(s: Sleeve, close: Option<real>): Sleeve {
    match close
    case None => s
    case Some(p) => Sleeve(if s.lastPx > 0.0 then s.amount * (1.0 + (p / s.lastPx - 1.0)) else s.amount, p)
  }

  /** A trade's allocation, with the close of the trade day when there is one. */
  function Allocate(amount: real, close: Option<real>): Sleeve {
    Sleeve(amount, match close case None => 0.0 case Some(p) => p)
  }

  function MarkDays(s: Sleeve, closes: seq<Option<real>>): Sleeve {
    if closes == [] then s else MarkSleeve(MarkDays(s, closes[..|closes| - 1]), closes[|closes| - 1])
  }

  ghost predicate PositiveCloses(closes: seq<Option<real>>) {
    forall i :: 0 <= i < |closes| && closes[i].Some? ==> 0.0 < closes[i].value
  }

  /** `p` is the first price of the sequence. */
  ghost predicate IsFirstSeen(closes: seq<Option<real>>, p: real) {
    exists i :: 0 <= i < |closes| && closes[i] == Some(p) && forall j :: 0 <= j < i ==> closes[j].None?
  }

  ghost predicate IsLastSeen(closes: seq<Option<real>>, p: real) {
    exists i :: 0 <= i < |closes| && closes[i] == Some(p) && forall j :: i < j < |closes| ==> closes[j].None?
  }

  ghost predicate NoneSeen(closes: seq<Option<real>>) {
    forall i :: 0 <= i < |closes| ==> closes[i].None?
  }

  lemma MarkRatio(amount: real, first: real, last: real, p: real)
    requires 0.0 < first && 0.0 < last
    ensures (amount * last / first) * (1.0 + (p / last - 1.0)) == amount * p / first
  {
    assert (amount * last / first) * (p / last) == amount * p / first * (last / last);
  }

  /** The sleeve's value once `first` and `last` are its first and last prices. */
  ghost predicate Telescoped(s: Sleeve, amount: real, first: real, last: real) {
    0.0 < first && s == Sleeve(amount * last / first, last)
  }

  /** What the sleeve of an allocation must be after the given closes, the trade day's first. */
  ghost predicate TelescopesOver(s: Sleeve, amount: real, closes: seq<Option<real>>) {
    && (NoneSeen(closes) ==> s == Sleeve(amount, 0.0))
    && (forall first, last :: IsFirstSeen(closes, first) && IsLastSeen(closes, last) ==>
          Telescoped(s, amount, first, last))
  }

  /** Marking telescopes: over the closes from the trade day on, with any of them missing, a sleeve is its
      allocation times the last price seen over the first price seen. */
  lemma {:induction false} MarkingTelescopes(amount: real, closes: seq<Option<real>>)
    requires closes != [] && PositiveCloses(closes)
    ensures TelescopesOver(MarkDays(Allocate(amount, closes[0]), closes[1..]), amount, closes)
    decreases |closes|
  {
    var d := |closes| - 1;
    if d == 0 {
      OneClose(amount, closes);
    } else {
      var front := closes[..d];
      MarkingTelescopes(amount, front);
      assert closes[1..][..d - 1] == front[1..];
      forall first, last | IsFirstSeen(closes, first) && IsLastSeen(closes, last)
        ensures Telescoped(MarkDays(Allocate(amount, closes[0]), closes[1..]), amount, first, last)
      {
        OneMoreClose(amount, closes, first, last);
      }
    }
  }

  lemma OneClose(amount: real, closes: seq<Option<real>>)
    requires |closes| == 1 && PositiveCloses(closes)
    ensures TelescopesOver(MarkDays(Allocate(amount, closes[0]), closes[1..]), amount, closes)
  {
  }

  lemma MarkTelescoped(s: Sleeve, amount: real, first: real, last: real, p: real)
    requires Telescoped(s, amount, first, last) && 0.0 < last && 0.0 < p
    ensures Telescoped(MarkSleeve(s, Some(p)), amount, first, p)
  {
    MarkRatio(amount, first, last, p);
  }

  lemma MarkFirst(amount: real, p: real)
    requires 0.0 < p
    ensures Telescoped(MarkSleeve(Sleeve(amount, 0.0), Some(p)), amount, p, p)
  {
    assert amount * p / p == amount;
  }

  lemma FirstAndLastOfMore(closes: seq<Option<real>>, first: real, last: real)
    requires closes != [] && IsFirstSeen(closes, first) && IsLastSeen(closes, last)
    ensures var d := |closes| - 1;
            && (closes[d].None? ==> IsFirstSeen(closes[..d], first) && IsLastSeen(closes[..d], last))
            && (closes[d].Some? ==> last == closes[d].value)
            && (closes[d].Some? && NoneSeen(closes[..d]) ==> first == closes[d].value)
            && (closes[d].Some? && !NoneSeen(closes[..d]) ==> IsFirstSeen(closes[..d], first))
  {
  }

  lemma OneMoreClose(amount: real, closes: seq<Option<real>>, first: real, last: real)
    requires |closes| > 1 && PositiveCloses(closes)
    requires IsFirstSeen(closes, first) && IsLastSeen(closes, last)
    requires var front := closes[..|closes| - 1];
             TelescopesOver(MarkDays(Allocate(amount, closes[0]), front[1..]), amount, front)
    ensures Telescoped(MarkDays(Allocate(amount, closes[0]), closes[1..]), amount, first, last)
  {
    var d := |closes| - 1;
    var front := closes[..d];
    var s := MarkDays(Allocate(amount, closes[0]), front[1..]);
    assert closes[1..][..d - 1] == front[1..];
    assert MarkDays(Allocate(amount, closes[0]), closes[1..]) == MarkSleeve(s, closes[d]);
    FirstAndLastOfMore(closes, first, last);
    if closes[d].Some? {
      if NoneSeen(front) {
        MarkFirst(amount, last);
      } else {
        var q := SomeLastSeen(front);
        MarkTelescoped(s, amount, first, q, last);
      }
    }
  }

  lemma SomeLastSeen(closes: seq<Option<real>>) returns (q: real)
    requires PositiveCloses(closes) && !NoneSeen(closes)
    ensures IsLastSeen(closes, q) && 0.0 < q
  {
    var d := |closes| - 1;
    while closes[d].None?
      invariant 0 <= d < |closes| && forall j :: d < j < |closes| ==> closes[j].None?
      decreases d
    {
      if d == 0 {
        assert NoneSeen(closes);
      }
      d := d - 1;
    }
    q := closes[d].value;
  }

  // ---- marking a book -------------------------------------------------------------------------------------------

  function CloseOf(close: map<Ticker, real>, t: Ticker): Option<real> {
    if t in close then Some(close[t]) else None
  }

  function SleeveOf(sleeves: map<Ticker, real>, lastPx: map<Ticker, real>, t: Ticker): Sleeve {
    Sleeve(Get(sleeves, t), Get(lastPx, t))
  }

  function MarkedSleeve(sleeves: map<Ticker, real>, lastPx: map<Ticker, real>, close: map<Ticker, real>, t: Ticker): Sleeve {
    MarkSleeve(SleeveOf(sleeves, lastPx, t), CloseOf(close, t))
  }

  /** Each held name's sleeve, marked. */
  function MarkedSleeves(sleeves: map<Ticker, real>, lastPx: map<Ticker, real>, held: set<Ticker>, close: map<Ticker, real>)
    : (r: map<Ticker, real>)
    ensures r.Keys == held
  {
    map t | t in held :: MarkedSleeve(sleeves, lastPx, close, t).amount
  }

  function MarkedPrices(sleeves: map<Ticker, real>, lastPx: map<Ticker, real>, held: set<Ticker>, close: map<Ticker, real>)
    : (r: map<Ticker, real>)
    ensures r.Keys == held
  {
    map t | t in held :: MarkedSleeve(sleeves, lastPx, close, t).lastPx
  }

  method MarkOne(before: Sleeve, close: Option<real>) returns (after: Sleeve)
    ensures after == MarkSleeve(before, close)
  {
    after := before;
    if close.Some? {
      var p, lp := close.value, before.lastPx;
      if lp > 0.0 {
        var r := p / lp - 1.0;
        after := after.(amount := after.amount * (1.0 + r));
      }
      after := after.(lastPx := p);
    }
  }

  /** The names in `todo` still have their old values. */
  ghost function Partly(before: map<Ticker, real>, after: map<Ticker, real>, todo: set<Ticker>): map<Ticker, real>
    requires before.Keys == after.Keys
  {
    map t | t in before :: if t in todo then before[t] else after[t]
  }

  lemma PartlyStep(before: map<Ticker, real>, after: map<Ticker, real>, todo: set<Ticker>, t: Ticker)
    requires before.Keys == after.Keys && t in before && t in todo
    ensures Get(Partly(before, after, todo), t) == before[t]
    ensures Partly(before, after, todo)[t := after[t]] == Partly(before, after, todo - {t})
  {
  }

  lemma PartlyEnds(before: map<Ticker, real>, after: map<Ticker, real>)
    requires before.Keys == after.Keys
    ensures Partly(before, after, before.Keys) == before && Partly(before, after, {}) == after
  {
  }

  /** The marking loop: the held names are visited in any order. */
  method MarkBook(sleeves: map<Ticker, real>, lastPx: map<Ticker, real>, held: set<Ticker>, close: map<Ticker, real>)
    returns (s: map<Ticker, real>, l: map<Ticker, real>)
    requires sleeves.Keys == held && lastPx.Keys == held
    ensures s == MarkedSleeves(sleeves, lastPx, held, close)
    ensures l == MarkedPrices(sleeves, lastPx, held, close)
  {
    ghost var marked := MarkedSleeves(sleeves, lastPx, held, close);
    ghost var seen := MarkedPrices(sleeves, lastPx, held, close);
    PartlyEnds(sleeves, marked);
    PartlyEnds(lastPx, seen);
    s, l := sleeves, lastPx;
    var todo := held;
    while todo != {}
      invariant todo <= held
      invariant s == Partly(sleeves, marked, todo) && l == Partly(lastPx, seen, todo)
      decreases |todo|
    {
      var tk :| tk in todo;
      PartlyStep(sleeves, marked, todo, tk);
      PartlyStep(lastPx, seen, todo, tk);
      todo := todo - {tk};
      var sleeve := MarkOne(SleeveOf(s, l, tk), CloseOf(close, tk));
      s, l := s[tk := sleeve.amount], l[tk := sleeve.lastPx];
    }
  }

  /** A positive sleeve stays positive under positive prices. */
  lemma MarkKeepsPositive(s: Sleeve, close: Option<real>)
    requires 0.0 < s.amount && 0.0 <= s.lastPx && (close.Some? ==> 0.0 < close.value)
    ensures 0.0 < MarkSleeve(s, close).amount && 0.0 <= MarkSleeve(s, close).lastPx
  {
    if close.Some? && s.lastPx > 0.0 {
      var ratio := close.value / s.lastPx;
      assert 0.0 < ratio;
      assert 0.0 < s.amount * ratio;
    }
  }
}
