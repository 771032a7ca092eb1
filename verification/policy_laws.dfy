/** What a day of the policy simulator does, said without its own decision and trading rules. */
module PolicyLaws {
  import opened Options
  import opened Reals
  import opened Selection
  import opened Ledger
  import opened PolicyRun

  /** The sleeves at the day's closes, and what they are worth together; an account that holds nothing keeps its
      equity. */
  function SleevesAt(b: Account, day: Day): map<Ticker, real> {
    if b.held == {} then b.sleeves else MarkedSleeves(b.sleeves, b.lastPx, b.held, day.close)
  }

  function WorthAt(u: seq<Ticker>, b: Account, day: Day): real {
    if b.held == {} then b.equity else Total(u, SleevesAt(b, day))
  }

  ghost predicate OnlyMarked(u: seq<Ticker>, b: Account, day: Day, a: Account) {
    && a.sleeves == SleevesAt(b, day) && a.equity == WorthAt(u, b, day) && a.held == b.held
    && a.entryDate == b.entryDate && a.holdings == b.holdings
    && a.trades == b.trades && a.totalTurnover == b.totalTurnover
  }

  /** Each name of the target has an equal part of the equity and enters at the day's close. */
  ghost predicate SplitEvenly(target: set<Ticker>, day: Day, a: Account) {
    && a.sleeves.Keys == target && a.lastPx.Keys == target
    && forall t :: t in target ==> TimesOver(|target|, a.sleeves[t]) == a.equity && a.lastPx[t] == Get(day.close, t)
  }

  function TimesOver(parts: nat, x: real): real {
    parts as real * x
  }

  /** Ten basis points of the turnover are taken. */
  function LessCost(worth: real, turnover: real): real {
    worth * (1.0 - 0.001 * turnover)
  }

  /** Names that come in are dated, and the others keep their date; those that go out are recorded. */
  ghost predicate HandsOver(u: seq<Ticker>, b: Account, target: set<Ticker>, day: Day, a: Account) {
    && a.entryDate.Keys == b.entryDate.Keys + (target - b.held)
    && (forall t :: t in a.entryDate ==>
          a.entryDate[t] == if t in target && t !in b.held then day.date else b.entryDate[t])
    && a.holdings.completed == b.holdings.completed + |b.held - target|
  }

  /** The turnover is half of what is bought and sold, as shares of the worth. */
  ghost predicate CountsBothSides(u: seq<Ticker>, b: Account, target: set<Ticker>, day: Day, a: Account) {
    var v := CurrentWeights(SleevesAt(b, day), WorthAt(u, b, day));
    var w := map t | t in target :: 1.0 / |target| as real;
    2.0 * (a.totalTurnover - b.totalTurnover) == Bought(u, v, w) + Bought(u, w, v)
  }

  ghost predicate Rebuilt(u: seq<Ticker>, b: Account, target: set<Ticker>, day: Day, a: Account) {
    && a.trades == b.trades + 1
    && a.equity == LessCost(WorthAt(u, b, day), a.totalTurnover - b.totalTurnover)
    && a.held == target && HandsOver(u, b, target, day, a)
  }

  lemma RecordedIs(u: seq<Ticker>, b: Account, day: Day)
    ensures OnlyMarked(u, b, day, Recorded(u, b, day))
    ensures Recorded(u, b, day).curve == b.curve + [WorthAt(u, b, day)]
  {}

  lemma EvenSplit(target: set<Ticker>, equity: real)
    ensures forall t :: t in target ==> TimesOver(|target|, Times(EqualWeights(target), equity)[t]) == equity
  {
    forall t | t in target ensures TimesOver(|target|, Times(EqualWeights(target), equity)[t]) == equity {
      Parts(|target| as real, equity);
    }
  }

  lemma Parts(n: real, whole: real)
    requires 0.0 < n
    ensures n * ((1.0 / n) * whole) == whole
  {
    Reciprocal(n);
    assert n * ((1.0 / n) * whole) == (n * (1.0 / n)) * whole;
  }

  lemma TradedIsRebuilt(u: seq<Ticker>, b: Account, target: set<Ticker>, day: Day)
    requires EveryoneDated(b)
    ensures Rebuilt(u, b, target, day, Traded(u, Recorded(u, b, day), target, day))
  {
    var m := Recorded(u, b, day);
    RecordedIs(u, b, day);
    TradeTakesCost(u, m, target, day);
    TradeHandsOver(u, m, target, day);
    IsRebuilt(u, b, target, day, m, Traded(u, m, target, day));
  }

  lemma IsRebuilt(u: seq<Ticker>, b: Account, target: set<Ticker>, day: Day, m: Account, a: Account)
    requires OnlyMarked(u, b, day, m) && a.trades == m.trades + 1
    requires a.equity == LessCost(m.equity, a.totalTurnover - m.totalTurnover)
    requires a.held == target && HandsOver(u, m, target, day, a)
    ensures Rebuilt(u, b, target, day, a)
  {}

  lemma TradeTakesCost(u: seq<Ticker>, m: Account, target: set<Ticker>, day: Day)
    ensures var a := Traded(u, m, target, day);
            a.equity == LessCost(m.equity, a.totalTurnover - m.totalTurnover) && a.trades == m.trades + 1
  {
    var turnover := Turnover(u, m, EqualWeights(target));
    TurnoverAdds(m.totalTurnover, turnover);
    CostIsTaken(m.equity, turnover);
    TradedFields(u, m, target, day);
  }

  lemma CostIsTaken(worth: real, turnover: real)
    ensures AfterCost(worth, turnover) == LessCost(worth, turnover)
  {}

  lemma TradedFields(u: seq<Ticker>, m: Account, target: set<Ticker>, day: Day)
    ensures var a, turnover := Traded(u, m, target, day), Turnover(u, m, EqualWeights(target));
            && a.equity == AfterCost(m.equity, turnover) && a.totalTurnover == m.totalTurnover + turnover
            && a.trades == m.trades + 1
  {}

  lemma TurnoverAdds(before: real, turnover: real)
    ensures before + turnover - before == turnover
  {}

  lemma TradeSplits(u: seq<Ticker>, m: Account, target: set<Ticker>, day: Day)
    ensures SplitEvenly(target, day, Traded(u, m, target, day))
  {
    EvenSplit(target, Traded(u, m, target, day).equity);
  }

  lemma TradeHandsOver(u: seq<Ticker>, m: Account, target: set<Ticker>, day: Day)
    requires EveryoneDated(m)
    ensures HandsOver(u, m, target, day, Traded(u, m, target, day))
  {
    assert Dated(m.held - target, m.entryDate) == m.held - target;
  }

  lemma TradeCounts(u: seq<Ticker>, b: Account, target: set<Ticker>, day: Day)
    ensures CountsBothSides(u, b, target, day, Traded(u, Recorded(u, b, day), target, day))
  {
    var m := Recorded(u, b, day);
    RecordedIs(u, b, day);
    TurnoverAdds(m.totalTurnover, Turnover(u, m, EqualWeights(target)));
    BoughtAndSold(u, CurrentWeights(m.sleeves, m.equity), EqualWeights(target));
  }

  /** The policy asks for a trade on the last day and names a target. */
  ghost predicate Asks(days: seq<Day>) {
    days != [] && days[|days| - 1].order.Some?
    && days[|days| - 1].order.value.doTrade && days[|days| - 1].order.value.target.Some?
  }

  /** Over every run, a day on which the policy asks for it and names a target trades to that target, and any other
      day changes nothing but the marks. */
  lemma DayFollowsThePolicy(u: seq<Ticker>, days: seq<Day>)
    requires days != []
    ensures var day, b, a := days[|days| - 1], Run(u, days[..|days| - 1]), Run(u, days);
            if Asks(days) then Rebuilt(u, b, day.order.value.target.value, day, a) else OnlyMarked(u, b, day, a)
  {
    var day, b := days[|days| - 1], Run(u, days[..|days| - 1]);
    HeldAreDated(u, days[..|days| - 1]);
    RecordedIs(u, b, day);
    if Trades(day) { TradedIsRebuilt(u, b, day.order.value.target.value, day); }
  }

  /** Such a trade leaves every name of the target an equal part of the equity. */
  lemma TradeSplitsEvenly(u: seq<Ticker>, days: seq<Day>)
    requires Asks(days)
    ensures SplitEvenly(days[|days| - 1].order.value.target.value, days[|days| - 1], Run(u, days))
  {
    var day, b := days[|days| - 1], Run(u, days[..|days| - 1]);
    TradeSplits(u, Recorded(u, b, day), day.order.value.target.value, day);
  }

  /** Its turnover is half of what it buys and sells. */
  lemma TradeCountsBothSides(u: seq<Ticker>, days: seq<Day>)
    requires Asks(days)
    ensures var day := days[|days| - 1];
            CountsBothSides(u, Run(u, days[..|days| - 1]), day.order.value.target.value, day, Run(u, days))
  {
    var day := days[|days| - 1];
    TradeCounts(u, Run(u, days[..|days| - 1]), day.order.value.target.value, day);
  }

  /** The account opens with 100000 and nothing held. */
  lemma OpensWith(u: seq<Ticker>)
    ensures Run(u, []).equity == 100000.0 && Run(u, []).held == {} && Run(u, []).sleeves == map[]
  {}

  lemma CurveGrows(u: seq<Ticker>, days: seq<Day>)
    requires days != []
    ensures Run(u, days).curve
         == Run(u, days[..|days| - 1]).curve + [WorthAt(u, Run(u, days[..|days| - 1]), days[|days| - 1])]
  {
    RecordedIs(u, Run(u, days[..|days| - 1]), days[|days| - 1]);
  }

  lemma {:induction false} CurveIsLong(u: seq<Ticker>, days: seq<Day>)
    ensures |Run(u, days).curve| == |days|
  {
    if days != [] {
      CurveIsLong(u, days[..|days| - 1]);
      CurveGrows(u, days);
    }
  }

  /** The curve has one point a day: what the account is worth at that day's closes, before it trades. */
  lemma {:induction false} CurveIsWorth(u: seq<Ticker>, days: seq<Day>, d: nat)
    requires d < |days|
    ensures |Run(u, days).curve| == |days|
    ensures Run(u, days).curve[d] == WorthAt(u, Run(u, days[..d]), days[d])
  {
    var front := days[..|days| - 1];
    CurveIsLong(u, days);
    CurveIsLong(u, front);
    CurveGrows(u, days);
    if d < |front| {
      CurveIsWorth(u, front, d);
      assert front[..d] == days[..d];
    }
  }
}
