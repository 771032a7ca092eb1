/** What a day of the simulator with cash does, said without its decision rule: when it must trade, when it must
    not, and what a trade leaves. */
module AccountingLaws {
  import opened Options
  import opened Reals
  import opened Selection
  import opened Ledger
  import opened Accounting

  // ---- before the decision ------------------------------------------------------------------------------------

  /** The sleeves at the day's closes. */
  function SleevesAt(b: Account, day: Day): map<Ticker, real> {
    if b.held == {} then b.sleeves else MarkedSleeves(b.sleeves, b.lastPx, b.held, day.close)
  }

  /** What the account is worth at the day's closes. */
  function WorthAt(u: seq<Ticker>, b: Account, day: Day): real {
    if b.held == {} then b.equity else Total(u, SleevesAt(b, day)) + b.cash
  }

  /** Every held weight is within four points of its target. */
  ghost predicate OnTarget(u: seq<Ticker>, b: Account, day: Day) {
    forall t :: t in b.held ==>
      -0.04 <= Share(Get(SleevesAt(b, day), t), WorthAt(u, b, day)) - Get(b.targetW, t) <= 0.04
  }

  /** Same names, same exposure, nothing off target, and less than ten days since the last trade. */
  ghost predicate NothingToDo(u: seq<Ticker>, b: Account, day: Day)
    requires day.pick.Some?
  {
    && day.pick.value.target == b.held
    && -0.000000001 <= day.gross - b.appliedGross <= 0.000000001
    && OnTarget(u, b, day)
    && b.since < 10
  }

  // ---- what the day leaves -----------------------------------------------------------------------------------------

  /** Nothing but the marks has changed, and the day is counted. */
  ghost predicate OnlyMarked(u: seq<Ticker>, b: Account, day: Day, a: Account) {
    && a.sleeves == SleevesAt(b, day) && a.cash == b.cash && a.equity == WorthAt(u, b, day)
    && a.held == b.held && a.targetW == b.targetW && a.appliedGross == b.appliedGross
    && a.trades == b.trades && a.totalTurnover == b.totalTurnover && a.since == b.since + 1
  }

  /** What the day wants invested. */
  function Invested(day: Day): real
    requires day.pick.Some?
  {
    if day.gross > 0.0 && day.pick.value.target != {} then day.gross else 0.0
  }

  /** Ten basis points of the turnover are taken. */
  function LessCost(worth: real, turnover: real): real {
    worth * (1.0 - 0.001 * turnover)
  }

  function LeftOver(invested: real, equity: real): real {
    (1.0 - invested) * equity
  }

  /** The book is rebuilt at the day's exposure: each selected name has its base weight times the exposure of what
      is left after ten basis points of the turnover, and the rest is cash. */
  ghost predicate Rebuilt(u: seq<Ticker>, b: Account, day: Day, a: Account)
    requires day.pick.Some?
  {
    var pick, turnover := day.pick.value, a.totalTurnover - b.totalTurnover;
    && a.trades == b.trades + 1 && a.since == 0 && a.appliedGross == day.gross
    && a.equity == LessCost(WorthAt(u, b, day), turnover)
    && a.cash == LeftOver(Invested(day), a.equity)
    && a.held == (if Invested(day) > 0.0 then pick.target else {})
    && a.sleeves.Keys == a.held && a.targetW.Keys == a.held
    && (forall t :: t in a.held ==> Allotted(day, a, t))
  }

  ghost predicate Allotted(day: Day, a: Account, t: Ticker)
    requires day.pick.Some?
  {
    var base := day.pick.value.base;
    && t in base && t in a.targetW && t in a.sleeves && t in a.lastPx
    && a.targetW[t] == base[t] * day.gross && a.sleeves[t] == a.targetW[t] * a.equity && a.lastPx[t] == Get(day.close, t)
  }

  /** The turnover is what is bought, cash included: as much as is sold. */
  ghost predicate CountsPurchases(u: seq<Ticker>, b: Account, day: Day, a: Account)
    requires day.pick.Some?
  {
    var worth := WorthAt(u, b, day);
    a.totalTurnover - b.totalTurnover
    == Bought(u, CurrentWeights(SleevesAt(b, day), worth), a.targetW) + Rise(Share(b.cash, worth), 1.0 - Invested(day))
  }

  lemma TurnoverIsBought(u: seq<Ticker>, m: Account, w: map<Ticker, real>)
    requires Total(u, CurrentWeights(m.sleeves, m.equity)) + Share(m.cash, m.equity) == 1.0
    ensures Turnover(u, m, w)
         == Bought(u, CurrentWeights(m.sleeves, m.equity), w) + Rise(Share(m.cash, m.equity), 1.0 - Total(u, w))
  {
    BoughtAndSold(u, CurrentWeights(m.sleeves, m.equity), w);
  }

  // ---- the laws -----------------------------------------------------------------------------------------------------

  ghost predicate Scored(days: seq<Day>) {
    days != [] && days[|days| - 1].pick.Some?
  }

  lemma RecordedIs(u: seq<Ticker>, b: Account, day: Day)
    ensures var m := Recorded(u, b, day);
            && m.sleeves == SleevesAt(b, day) && m.cash == b.cash && m.equity == WorthAt(u, b, day)
            && m.held == b.held && m.targetW == b.targetW && m.appliedGross == b.appliedGross
            && m.trades == b.trades && m.totalTurnover == b.totalTurnover && m.since == b.since
            && m.curve == b.curve + [WorthAt(u, b, day)]
  {}

  lemma DriftIsOffTarget(u: seq<Ticker>, b: Account, day: Day)
    requires Sound(u, Recorded(u, b, day)) && day.pick.Some?
    ensures Drifted(Recorded(u, b, day)) <==> !OnTarget(u, b, day)
  {
    var m := Recorded(u, b, day);
    RecordedIs(u, b, day);
    if m.held != {} {
      var t :| t in m.held;
      assert t in m.targetW;
    }
    forall t | t in m.held
      ensures Share(Get(m.sleeves, t), m.equity) == Share(Get(SleevesAt(b, day), t), WorthAt(u, b, day))
    {}
  }

  lemma DecidesOnNothing(u: seq<Ticker>, b: Account, day: Day)
    requires Sound(u, Recorded(u, b, day)) && day.pick.Some?
    ensures Trades(Recorded(u, b, day), day.gross, day.pick.value.target) <==> !NothingToDo(u, b, day)
  {
    RecordedIs(u, b, day);
    DriftIsOffTarget(u, b, day);
    DecidesAsDrift(Recorded(u, b, day), b, day, OnTarget(u, b, day));
  }

  lemma DecidesAsDrift(m: Account, b: Account, day: Day, onTarget: bool)
    requires day.pick.Some? && (Drifted(m) <==> !onTarget)
    requires m.held == b.held && m.appliedGross == b.appliedGross && m.since == b.since
    ensures Trades(m, day.gross, day.pick.value.target)
       <==> !(day.pick.value.target == b.held && -0.000000001 <= day.gross - b.appliedGross <= 0.000000001
              && onTarget && b.since < 10)
  {}

  lemma TradedIsRebuilt(u: seq<Ticker>, b: Account, day: Day)
    requires day.pick.Some? && GoodDay(u, day)
    ensures Rebuilt(u, b, day, Traded(u, Recorded(u, b, day), NewWeights(day.gross, day.pick.value), day))
  {
    var m, w := Recorded(u, b, day), NewWeights(day.gross, day.pick.value);
    var a := Traded(u, m, w, day);
    RecordedIs(u, b, day);
    NewWeightsAreFair(u, day.gross, day.pick.value);
    NewWeightsAre(day);
    TurnoverAdds(b.totalTurnover, Turnover(u, m, w));
    AfterCostIs(m.equity, Turnover(u, m, w));
    UninvestedIs(u, w, a.equity);
    forall t | t in a.held ensures Allotted(day, a, t) {
      AllottedIs(u, m, w, day, t);
    }
  }

  lemma UninvestedIs(u: seq<Ticker>, w: map<Ticker, real>, equity: real)
    ensures Uninvested(u, w, equity) == LeftOver(Total(u, w), equity)
  {}

  lemma AllottedIs(u: seq<Ticker>, m: Account, w: map<Ticker, real>, day: Day, t: Ticker)
    requires day.pick.Some? && t in w && t in day.pick.value.base && w[t] == day.pick.value.base[t] * day.gross
    ensures Allotted(day, Traded(u, m, w, day), t)
  {}

  lemma TurnoverAdds(before: real, turnover: real)
    ensures before + turnover - before == turnover
  {}

  lemma AfterCostIs(equity: real, turnover: real)
    ensures AfterCost(equity, turnover) == LessCost(equity, turnover)
  {}

  lemma NewWeightsAre(day: Day)
    requires day.pick.Some? && day.pick.value.base.Keys == day.pick.value.target
    ensures var w := NewWeights(day.gross, day.pick.value);
            && w.Keys == (if Invested(day) > 0.0 then day.pick.value.target else {})
            && forall t :: t in w ==> t in day.pick.value.base && w[t] == day.pick.value.base[t] * day.gross
  {}

  lemma TradedCounts(u: seq<Ticker>, b: Account, day: Day)
    requires day.pick.Some? && GoodDay(u, day) && Sound(u, Recorded(u, b, day)) && b.trades > 0
    ensures CountsPurchases(u, b, day, Traded(u, Recorded(u, b, day), NewWeights(day.gross, day.pick.value), day))
  {
    RecordedIs(u, b, day);
    NewWeightsAreFair(u, day.gross, day.pick.value);
    CurrentIsWhole(u, Recorded(u, b, day));
    TurnoverIsBought(u, Recorded(u, b, day), NewWeights(day.gross, day.pick.value));
  }

  /** Over every run, a scored day changes nothing but the marks exactly when there is nothing to do, and otherwise
      rebuilds the book; the turnover of a later trade is what it buys. */
  lemma ScoredDay(u: seq<Ticker>, days: seq<Day>)
    requires GoodDays(u, days) && Scored(days)
    ensures var day := days[|days| - 1];
            var b, a := Run(u, days[..|days| - 1]), Run(u, days);
            && (NothingToDo(u, b, day) ==> OnlyMarked(u, b, day, a))
            && (!NothingToDo(u, b, day) ==> Rebuilt(u, b, day, a))
            && (!NothingToDo(u, b, day) && b.trades > 0 ==> CountsPurchases(u, b, day, a))
  {
    var day, b := days[|days| - 1], Run(u, days[..|days| - 1]);
    EquityIsConserved(u, days);
    RecordedIs(u, b, day);
    DecidesOnNothing(u, b, day);
    if !NothingToDo(u, b, day) {
      TradedIsRebuilt(u, b, day);
      if b.trades > 0 {
        TradedCounts(u, b, day);
      }
    }
  }

  /** A day without scores changes nothing but the marks. */
  lemma UnscoredDay(u: seq<Ticker>, days: seq<Day>)
    requires days != [] && !Scored(days)
    ensures OnlyMarked(u, Run(u, days[..|days| - 1]), days[|days| - 1], Run(u, days))
  {
    RecordedIs(u, Run(u, days[..|days| - 1]), days[|days| - 1]);
  }

  /** After a scored day the exposure is the one the day asks for, the names are the selected ones unless it asks
      for none, and nothing held is off target. */
  lemma ScoredDayFollows(u: seq<Ticker>, days: seq<Day>)
    requires GoodDays(u, days) && Scored(days)
    ensures var day, a := days[|days| - 1], Run(u, days);
            && -0.000000001 <= day.gross - a.appliedGross <= 0.000000001
            && (day.gross > 0.0 ==> a.held == day.pick.value.target)
            && (day.gross <= 0.0 ==> a.held == {} || a.held == day.pick.value.target)
            && (forall t :: t in a.held ==> -0.04 <= Share(Get(a.sleeves, t), a.equity) - Get(a.targetW, t) <= 0.04)
  {
    var day := days[|days| - 1];
    var b, a := Run(u, days[..|days| - 1]), Run(u, days);
    ScoredDay(u, days);
    EquityIsConserved(u, days);
    if !NothingToDo(u, b, day) {
      forall t | t in a.held ensures Share(Get(a.sleeves, t), a.equity) == Get(a.targetW, t) {
        ShareOfTarget(u, b, day, a, t);
      }
    }
  }

  lemma ShareOfTarget(u: seq<Ticker>, b: Account, day: Day, a: Account, t: Ticker)
    requires day.pick.Some? && Rebuilt(u, b, day, a) && 0.0 < a.equity && t in a.held
    ensures Share(Get(a.sleeves, t), a.equity) == Get(a.targetW, t)
  {
    WholeOf(a.targetW[t], a.equity, a.sleeves[t]);
  }

  lemma WholeOf(w: real, e: real, x: real)
    requires 0.0 < e && x == w * e
    ensures x / e == w
  {}

  /** A change of exposure alone, or of names alone, is traded at once. */
  lemma FlipTrades(u: seq<Ticker>, days: seq<Day>)
    requires GoodDays(u, days) && Scored(days)
    requires var day, b := days[|days| - 1], Run(u, days[..|days| - 1]);
             Abs(day.gross - b.appliedGross) > 0.000000001 || day.pick.value.target != b.held
    ensures Rebuilt(u, Run(u, days[..|days| - 1]), days[|days| - 1], Run(u, days))
  {
    ScoredDay(u, days);
  }

  /** The account opens with 100000 and nothing held, counted as fully exposed. */
  lemma OpensWith(u: seq<Ticker>)
    ensures var a := Run(u, []);
            a.equity == 100000.0 && a.held == {} && a.sleeves == map[] && a.cash == 0.0 && a.appliedGross == 1.0
  {}

  // ---- the counter ---------------------------------------------------------------------------------------------------

  lemma DaysPass(u: seq<Ticker>, days: seq<Day>)
    requires GoodDays(u, days) && days != []
    ensures var b, a := Run(u, days[..|days| - 1]), Run(u, days);
            (a.trades == b.trades && a.since == b.since + 1) || (a.trades == b.trades + 1 && a.since == 0)
  {
    if Scored(days) { ScoredDay(u, days); } else { UnscoredDay(u, days); }
  }

  /** The trades of the first `j` days. */
  function TradesBy(u: seq<Ticker>, days: seq<Day>, j: nat): nat
    requires j <= |days|
  {
    Run(u, days[..j]).trades
  }

  lemma TradesByFront(u: seq<Ticker>, days: seq<Day>, j: nat)
    requires days != [] && j < |days|
    ensures TradesBy(u, days, j) == TradesBy(u, days[..|days| - 1], j)
  {
    assert days[..j] == days[..|days| - 1][..j];
  }

  lemma TradesByAll(u: seq<Ticker>, days: seq<Day>)
    ensures TradesBy(u, days, |days|) == Run(u, days).trades
  {
    assert days[..|days|] == days;
  }

  /** No trade in the last `k` days. */
  ghost predicate QuietFor(u: seq<Ticker>, days: seq<Day>, k: nat) {
    k <= |days| && forall j :: |days| - k <= j <= |days| ==> TradesBy(u, days, j) == TradesBy(u, days, |days|)
  }

  lemma QuietMore(u: seq<Ticker>, days: seq<Day>, k: nat)
    requires days != [] && QuietFor(u, days[..|days| - 1], k)
    requires TradesBy(u, days, |days|) == TradesBy(u, days, |days| - 1)
    ensures QuietFor(u, days, k + 1)
  {
    TradesByFront(u, days, |days| - 1);
    forall j | |days| - k - 1 <= j <= |days| ensures TradesBy(u, days, j) == TradesBy(u, days, |days|) {
      if j < |days| { TradesByFront(u, days, j); }
    }
  }

  /** The last trade was `k` days ago, or there was none in all the `k` days. */
  ghost predicate LastTradeAgo(u: seq<Ticker>, days: seq<Day>, k: nat) {
    && QuietFor(u, days, k)
    && (if TradesBy(u, days, |days|) == 0 then k == |days|
        else k < |days| && TradesBy(u, days, |days| - k - 1) + 1 == TradesBy(u, days, |days|))
  }

  lemma OneDayMore(u: seq<Ticker>, days: seq<Day>, k: nat)
    requires days != [] && LastTradeAgo(u, days[..|days| - 1], k)
    ensures TradesBy(u, days, |days|) == TradesBy(u, days, |days| - 1) ==> LastTradeAgo(u, days, k + 1)
    ensures TradesBy(u, days, |days|) == TradesBy(u, days, |days| - 1) + 1 ==> LastTradeAgo(u, days, 0)
  {
    TradesByFront(u, days, |days| - 1);
    if TradesBy(u, days, |days|) == TradesBy(u, days, |days| - 1) {
      QuietMore(u, days, k);
      if k < |days| - 1 {
        TradesByFront(u, days, |days| - k - 2);
      }
    }
  }

  lemma TradesGrow(u: seq<Ticker>, days: seq<Day>)
    requires GoodDays(u, days) && days != []
    ensures var k := Run(u, days[..|days| - 1]).since;
            (TradesBy(u, days, |days|) == TradesBy(u, days, |days| - 1) && Run(u, days).since == k + 1)
            || (TradesBy(u, days, |days|) == TradesBy(u, days, |days| - 1) + 1 && Run(u, days).since == 0)
  {
    DaysPass(u, days);
    TradesByAll(u, days);
  }

  /** `since` is the number of days since the last trade, or since the beginning. */
  lemma {:induction false} SinceCounts(u: seq<Ticker>, days: seq<Day>)
    requires GoodDays(u, days)
    ensures LastTradeAgo(u, days, Run(u, days).since)
  {
    if days == [] {
      TradesByAll(u, days);
    } else {
      SinceCounts(u, days[..|days| - 1]);
      OneDayMore(u, days, Run(u, days[..|days| - 1]).since);
      TradesGrow(u, days);
    }
  }

  lemma CurveGrows(u: seq<Ticker>, days: seq<Day>)
    requires days != []
    ensures Run(u, days).curve
         == Run(u, days[..|days| - 1]).curve + [WorthAt(u, Run(u, days[..|days| - 1]), days[|days| - 1])]
  {
    RecordedIs(u, Run(u, days[..|days| - 1]), days[|days| - 1]);
  }

  lemma {:induction false} CurveIsLong(u: seq<Ticker>, days: seq<Day>)
    ensures |Run(u, days).curve| == |days|
  {
    if days != [] {
      CurveIsLong(u, days[..|days| - 1]);
      CurveGrows(u, days);
    }
  }

  /** The curve has one point a day: what the account is worth at that day's closes, before it trades. */
  lemma {:induction false} CurveIsWorth(u: seq<Ticker>, days: seq<Day>, d: nat)
    requires d < |days|
    ensures |Run(u, days).curve| == |days|
    ensures Run(u, days).curve[d] == WorthAt(u, Run(u, days[..d]), days[d])
  {
    var front := days[..|days| - 1];
    CurveIsLong(u, days);
    CurveIsLong(u, front);
    CurveGrows(u, days);
    if d < |front| {
      CurveIsWorth(u, front, d);
      assert front[..d] == days[..d];
    }
  }
}
