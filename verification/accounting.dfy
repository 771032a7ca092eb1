/** The day loop with cash: mark, charge cost, rebalance to a gross-scaled target. */
module Accounting {
  import opened Options
  import opened Reals
  import opened Selection
  import opened Ledger

  const WEIGHT_DRIFT_PCT := 0.04
  const BACKSTOP_DAYS := 10
  const FLIP_TOLERANCE := 0.000000001

  /** The names selected on a scored day, and the weights they would get before scaling by the gross. */
  datatype Pick = Pick(target: set<Ticker>, base: map<Ticker, real>)

  datatype Day = Day(close: map<Ticker, real>, gross: real, pick: Option<Pick>)

  /** What the loop relies on: positive closes, an exposure between nothing and everything, and positive base
      weights that sum to one over the selected names. */
  ghost predicate GoodDay(u: seq<Ticker>, day: Day) {
    && AllPositive(day.close)
    && 0.0 <= day.gross <= 1.0
    && (day.pick.Some? ==> GoodPick(u, day.pick.value))
  }

  ghost predicate GoodPick(u: seq<Ticker>, pick: Pick) {
    && pick.base.Keys == pick.target
    && (forall t :: t in pick.target ==> t in u)
    && AllPositive(pick.base)
    && (pick.target != {} ==> Total(u, pick.base) == 1.0)
  }

  datatype Account = Account(
    equity: real,
    sleeves: map<Ticker, real>,
    cash: real,
    targetW: map<Ticker, real>,
    lastPx: map<Ticker, real>,
    held: set<Ticker>,
    totalTurnover: real,
    trades: nat,
    since: nat,
    appliedGross: real,
    curve: seq<real>)

  function Opened(): Account {
    Account(INITIAL_EQUITY, map[], 0.0, map[], map[], {}, 0.0, 0, 0, 1.0, [])
  }

  // ---- one day, as functions ----------------------------------------------------------------------------------

  function Marked(u: seq<Ticker>, a: Account, close: map<Ticker, real>): Account {
    if a.held == {} then a
    else
      var sleeves := MarkedSleeves(a.sleeves, a.lastPx, a.held, close);
      a.(sleeves := sleeves, lastPx := MarkedPrices(a.sleeves, a.lastPx, a.held, close),
         equity := Total(u, sleeves) + a.cash)
  }

  predicate Drifted(a: Account) {
    && a.held != {} && a.equity > 0.0 && a.targetW != map[]
    && exists t :: t in a.held && Abs(Share(Get(a.sleeves, t), a.equity) - Get(a.targetW, t)) > WEIGHT_DRIFT_PCT
  }

  predicate Trades(a: Account, gross: real, target: set<Ticker>) {
    target != a.held || Abs(gross - a.appliedGross) > FLIP_TOLERANCE || Drifted(a) || a.since >= BACKSTOP_DAYS
  }

  function NewWeights(gross: real, pick: Pick): map<Ticker, real> {
    if gross <= 0.0 || pick.target == {} then map[] else Times(pick.base, gross)
  }

  /** Half of what moves between names, and to or from cash. */
  function Turnover(u: seq<Ticker>, a: Account, w: map<Ticker, real>): real {
    0.5 * (TotalDiff(u, w, CurrentWeights(a.sleeves, a.equity)) + Abs((1.0 - Total(u, w)) - Share(a.cash, a.equity)))
  }

  function Uninvested(u: seq<Ticker>, w: map<Ticker, real>, equity: real): real {
    (1.0 - Total(u, w)) * equity
  }

  function ClosesAt(w: map<Ticker, real>, close: map<Ticker, real>): (l: map<Ticker, real>)
    ensures l.Keys == w.Keys
  {
    map t | t in w :: Get(close, t)
  }

  function Traded(u: seq<Ticker>, a: Account, w: map<Ticker, real>, day: Day): Account {
    var turnover := Turnover(u, a, w);
    var equity := AfterCost(a.equity, turnover);
    Account(equity, Times(w, equity), Uninvested(u, w, equity), w, ClosesAt(w, day.close), w.Keys,
            a.totalTurnover + turnover, a.trades + 1, 0, day.gross, a.curve)
  }

  /** Marked and recorded, before the day's decision. */
  function Recorded(u: seq<Ticker>, a: Account, day: Day): Account {
    var m := Marked(u, a, day.close);
    m.(curve := m.curve + [m.equity])
  }

  function AfterDay(u: seq<Ticker>, a: Account, day: Day): Account {
    var m := Recorded(u, a, day);
    if day.pick.Some? && Trades(m, day.gross, day.pick.value.target) then
      Traded(u, m, NewWeights(day.gross, day.pick.value), day)
    else
      m.(since := m.since + 1)
  }

  function Run(u: seq<Ticker>, days: seq<Day>): Account {
    if days == [] then Opened() else AfterDay(u, Run(u, days[..|days| - 1]), days[|days| - 1])
  }

  // ---- the day loop ---------------------------------------------------------------------------------------------

  method Record(u: seq<Ticker>, before: Account, day: Day) returns (a: Account)
    requires before.sleeves.Keys == before.held && before.lastPx.Keys == before.held
    ensures a == Recorded(u, before, day)
    ensures a.sleeves.Keys == a.held && a.lastPx.Keys == a.held
  {
    a := before;
    if a.held != {} {
      var sleeves, lastPx := MarkBook(a.sleeves, a.lastPx, a.held, day.close);
      a := a.(sleeves := sleeves, lastPx := lastPx);
      a := a.(equity := Total(u, a.sleeves) + a.cash);
    }
    a := a.(curve := a.curve + [a.equity]);
  }

  method Rebalance(u: seq<Ticker>, before: Account, neww: map<Ticker, real>, day: Day) returns (a: Account)
    ensures a == Traded(u, before, neww, day)
  {
    var turnover := Turnover(u, before, neww);
    a := before.(totalTurnover := before.totalTurnover + turnover);
    a := a.(equity := AfterCost(a.equity, turnover));
    a := a.(sleeves := Times(neww, a.equity));
    a := a.(cash := Uninvested(u, neww, a.equity));
    a := a.(lastPx := ClosesAt(neww, day.close));
    a := a.(targetW := neww, held := neww.Keys);
    a := a.(appliedGross := day.gross);
    a := a.(trades := a.trades + 1, since := 0);
  }

  method Simulate(u: seq<Ticker>, days: seq<Day>) returns (a: Account)
    ensures a == Run(u, days)
  {
    a := Opened();
    for i := 0 to |days|
      invariant a.sleeves.Keys == a.held && a.lastPx.Keys == a.held
      invariant a == Run(u, days[..i])
    {
      assert days[..i + 1][..i] == days[..i];
      var day := days[i];
      a := Record(u, a, day);
      if day.pick.None? || !Trades(a, day.gross, day.pick.value.target) {
        a := a.(since := a.since + 1);
        continue;
      }
      a := Rebalance(u, a, NewWeights(day.gross, day.pick.value), day);
    }
    assert days[..|days|] == days;
  }

  // ---- what every day keeps ------------------------------------------------------------------------------------------

  ghost predicate SameNames(a: Account) {
    a.sleeves.Keys == a.held && a.lastPx.Keys == a.held && a.targetW.Keys == a.held
  }

  /** Before the first trade nothing is held and the equity is the initial one; from then on the equity is
      the sleeves plus the cash. */
  ghost predicate Balanced(u: seq<Ticker>, a: Account) {
    if a.trades == 0 then a.held == {} && a.cash == 0.0 && a.equity == INITIAL_EQUITY
    else a.equity == Total(u, a.sleeves) + a.cash
  }

  ghost predicate Solvent(u: seq<Ticker>, a: Account) {
    && 0.0 < a.equity && 0.0 <= a.cash
    && AllPositive(a.sleeves) && NonNegative(a.lastPx)
    && (forall t :: t in a.held ==> t in u)
  }

  ghost predicate Sound(u: seq<Ticker>, a: Account) {
    SameNames(a) && Balanced(u, a) && Solvent(u, a)
  }

  lemma MarkedIsSound(u: seq<Ticker>, a: Account, close: map<Ticker, real>)
    requires Sound(u, a) && AllPositive(close)
    ensures Sound(u, Marked(u, a, close))
  {
    if a.held != {} {
      var m := Marked(u, a, close);
      forall t | t in a.held ensures 0.0 < m.sleeves[t] && 0.0 <= m.lastPx[t] {
        MarkKeepsPositive(SleeveOf(a.sleeves, a.lastPx, t), CloseOf(close, t));
      }
      var t :| t in a.held;
      TotalIsNonNegative(u, m.sleeves);
      assert 0.0 < Get(m.sleeves, t) <= Total(u, m.sleeves);
    }
  }

  lemma NewWeightsAreFair(u: seq<Ticker>, gross: real, pick: Pick)
    requires 0.0 <= gross <= 1.0 && GoodPick(u, pick)
    ensures var w := NewWeights(gross, pick);
            && AllPositive(w) && 0.0 <= Total(u, w) <= 1.0
            && (forall t :: t in w ==> t in u)
            && (gross > 0.0 && pick.target != {} ==> Total(u, w) == gross)
            && (gross <= 0.0 || pick.target == {} ==> w == map[] && Total(u, w) == 0.0)
  {
    var w := NewWeights(gross, pick);
    if gross > 0.0 && pick.target != {} {
      TimesTotal(u, pick.base, gross);
      forall t | t in w ensures 0.0 < w[t] {
        assert w[t] == pick.base[t] * gross;
      }
    } else {
      NothingListed(u, w);
    }
  }

  lemma {:induction false} CurrentTotal(u: seq<Ticker>, a: Account)
    requires 0.0 < a.equity
    ensures Total(u, CurrentWeights(a.sleeves, a.equity)) == Total(u, a.sleeves) / a.equity
  {
    if u != [] {
      CurrentTotal(u[..|u| - 1], a);
    }
  }

  /** The weights before a trade, with the cash, make up the whole, or nothing before the first trade. */
  lemma CurrentIsWhole(u: seq<Ticker>, a: Account)
    requires Sound(u, a)
    ensures NonNegative(CurrentWeights(a.sleeves, a.equity)) && 0.0 <= Share(a.cash, a.equity)
    ensures a.trades > 0 ==> Total(u, CurrentWeights(a.sleeves, a.equity)) + Share(a.cash, a.equity) == 1.0
    ensures a.trades == 0 ==> CurrentWeights(a.sleeves, a.equity) == map[] && Share(a.cash, a.equity) == 0.0
  {
    CurrentTotal(u, a);
    forall t | t in a.sleeves ensures 0.0 <= Share(a.sleeves[t], a.equity) {
      ShareIsNonNegative(a.sleeves[t], a.equity);
    }
    ShareIsNonNegative(a.cash, a.equity);
    if a.trades > 0 {
      WholeShare(Total(u, a.sleeves), a.cash, a.equity);
    }
  }

  lemma ShareIsNonNegative(x: real, y: real)
    requires 0.0 <= x && 0.0 < y
    ensures 0.0 <= x / y
  {
  }

  lemma WholeShare(x: real, c: real, e: real)
    requires 0.0 < e && e == x + c
    ensures x / e + c / e == 1.0
  {
    assert (x + c) / e == x / e + c / e;
  }

  /** Every turnover is between zero and one; the first is one half. */
  lemma TurnoverIsAShare(u: seq<Ticker>, a: Account, gross: real, pick: Pick)
    requires Sound(u, a) && 0.0 <= gross <= 1.0 && GoodPick(u, pick)
    ensures 0.0 <= Turnover(u, a, NewWeights(gross, pick)) <= 1.0
    ensures a.trades == 0 ==> Turnover(u, a, NewWeights(gross, pick)) == 0.5
  {
    var w := NewWeights(gross, pick);
    NewWeightsAreFair(u, gross, pick);
    CurrentIsWhole(u, a);
    TotalIsNonNegative(u, CurrentWeights(a.sleeves, a.equity));
    DiffBounds(u, w, CurrentWeights(a.sleeves, a.equity));
  }

  lemma CostIsSmall(equity: real, turnover: real)
    requires 0.0 < equity && 0.0 <= turnover <= 1.0
    ensures 0.999 * equity <= AfterCost(equity, turnover) <= equity
    ensures turnover == 0.0 ==> AfterCost(equity, turnover) == equity
  {
    assert equity - AfterCost(equity, turnover) == equity * (COST_RATE * turnover);
    assert 0.0 <= COST_RATE * turnover <= COST_RATE;
    assert 0.0 <= equity * (COST_RATE * turnover) <= equity * COST_RATE;
  }

  lemma TradedIsSound(u: seq<Ticker>, a: Account, day: Day)
    requires Sound(u, a) && GoodDay(u, day) && day.pick.Some?
    ensures Sound(u, Traded(u, a, NewWeights(day.gross, day.pick.value), day))
  {
    var w := NewWeights(day.gross, day.pick.value);
    NewWeightsAreFair(u, day.gross, day.pick.value);
    TurnoverIsAShare(u, a, day.gross, day.pick.value);
    CostIsSmall(a.equity, Turnover(u, a, w));
    RebalancedIsSound(u, w, Traded(u, a, w, day), day);
  }

  lemma RebalancedIsSound(u: seq<Ticker>, w: map<Ticker, real>, a: Account, day: Day)
    requires AllPositive(w) && 0.0 <= Total(u, w) <= 1.0 && forall t :: t in w ==> t in u
    requires 0.0 < a.equity && a.trades > 0
    requires a.sleeves == Times(w, a.equity) && a.cash == Uninvested(u, w, a.equity)
    requires a.held == w.Keys && a.targetW == w && a.lastPx == ClosesAt(w, day.close) && AllPositive(day.close)
    ensures Sound(u, a)
  {
    AllocationBalances(u, w, a.equity);
    forall t | t in w ensures 0.0 < a.sleeves[t] {
      PositiveProduct(w[t], a.equity);
    }
  }

  lemma AllocationBalances(u: seq<Ticker>, w: map<Ticker, real>, equity: real)
    requires 0.0 <= Total(u, w) <= 1.0 && 0.0 < equity
    ensures Total(u, Times(w, equity)) + Uninvested(u, w, equity) == equity
    ensures 0.0 <= Uninvested(u, w, equity)
  {
    TimesTotal(u, w, equity);
    AllocationIsWhole(Total(u, w), equity);
  }

  lemma AllocationIsWhole(x: real, equity: real)
    requires 0.0 <= x <= 1.0 && 0.0 < equity
    ensures x * equity + (1.0 - x) * equity == equity && 0.0 <= (1.0 - x) * equity
  {
  }

  lemma PositiveProduct(x: real, y: real)
    requires 0.0 < x && 0.0 < y
    ensures 0.0 < x * y
  {
  }

  ghost predicate GoodDays(u: seq<Ticker>, days: seq<Day>) {
    forall d :: 0 <= d < |days| ==> GoodDay(u, days[d])
  }

  lemma DayKeepsSound(u: seq<Ticker>, a: Account, day: Day)
    requires Sound(u, a) && GoodDay(u, day)
    ensures Sound(u, Recorded(u, a, day)) && Sound(u, AfterDay(u, a, day))
  {
    MarkedIsSound(u, a, day.close);
    var m := Recorded(u, a, day);
    assert Sound(u, m);
    if day.pick.Some? && Trades(m, day.gross, day.pick.value.target) {
      TradedIsSound(u, m, day);
    }
  }

  // ---- the promises over whole runs -----------------------------------------------------------------------------------

  /** After any number of days, and again once the next day is marked: from the first trade on the equity is
      exactly the sleeves plus the cash, and it stays positive. */
  lemma {:induction false} EquityIsConserved(u: seq<Ticker>, days: seq<Day>)
    requires GoodDays(u, days)
    ensures Sound(u, Run(u, days))
    ensures days != [] ==> Sound(u, Recorded(u, Run(u, days[..|days| - 1]), days[|days| - 1]))
  {
    if days != [] {
      EquityIsConserved(u, days[..|days| - 1]);
      DayKeepsSound(u, Run(u, days[..|days| - 1]), days[|days| - 1]);
    }
  }

  /** The accounts before and after the trade of the last day. */
  ghost predicate TradesLast(u: seq<Ticker>, days: seq<Day>) {
    && days != [] && days[|days| - 1].pick.Some?
    && Trades(Recorded(u, Run(u, days[..|days| - 1]), days[|days| - 1]), days[|days| - 1].gross,
              days[|days| - 1].pick.value.target)
  }

  /** Each trade of a run turns over at most the whole book, the first exactly half of it, and costs at most
      ten basis points of the equity. */
  lemma EveryTradeIsCheap(u: seq<Ticker>, days: seq<Day>)
    requires GoodDays(u, days) && TradesLast(u, days)
    ensures var before, after := Recorded(u, Run(u, days[..|days| - 1]), days[|days| - 1]), Run(u, days);
            && after.trades == before.trades + 1
            && 0.0 <= after.totalTurnover - before.totalTurnover <= 1.0
            && (before.trades == 0 ==> after.totalTurnover - before.totalTurnover == 0.5)
            && 0.999 * before.equity <= after.equity <= before.equity
  {
    EquityIsConserved(u, days);
    var day := days[|days| - 1];
    var before := Recorded(u, Run(u, days[..|days| - 1]), day);
    TurnoverIsAShare(u, before, day.gross, day.pick.value);
    CostIsSmall(before.equity, Turnover(u, before, NewWeights(day.gross, day.pick.value)));
  }

  /** The total turnover of a run is at most the number of trades less a half. */
  lemma {:induction false} TotalTurnoverBound(u: seq<Ticker>, days: seq<Day>)
    requires GoodDays(u, days)
    ensures var a := Run(u, days);
            if a.trades == 0 then a.totalTurnover == 0.0
            else 0.5 <= a.totalTurnover <= a.trades as real - 0.5
  {
    if days != [] {
      TotalTurnoverBound(u, days[..|days| - 1]);
      if TradesLast(u, days) {
        EveryTradeIsCheap(u, days);
      }
    }
  }

  // ---- out of the market, the curve is flat ------------------------------------------------------------------------------

  /** Everything is in cash. */
  ghost predicate AllCash(a: Account) {
    a.trades > 0 && a.held == {} && a.cash == a.equity
  }

  /** The day asks for nothing: no scores, no exposure, or no eligible name. */
  predicate StaysOut(day: Day) {
    day.pick.None? || day.gross <= 0.0 || day.pick.value.target == {}
  }

  lemma TradeAtZeroGoesToCash(u: seq<Ticker>, days: seq<Day>)
    requires GoodDays(u, days) && TradesLast(u, days) && StaysOut(days[|days| - 1])
    ensures AllCash(Run(u, days))
  {
    var day := days[|days| - 1];
    NewWeightsAreFair(u, day.gross, day.pick.value);
    GoesToCash(u, Recorded(u, Run(u, days[..|days| - 1]), day), day);
  }

  lemma GoesToCash(u: seq<Ticker>, a: Account, day: Day)
    requires Total(u, map[]) == 0.0
    ensures AllCash(Traded(u, a, map[], day))
  {
  }

  /** From `a` to `b`, `k` days later, nothing moved. */
  ghost predicate FlatFor(a: Account, b: Account, k: nat) {
    && AllCash(b) && b.equity == a.equity && b.totalTurnover == a.totalTurnover
    && |b.curve| == |a.curve| + k
    && (forall d :: |a.curve| <= d < |b.curve| ==> b.curve[d] == a.equity)
  }

  lemma RunMore(u: seq<Ticker>, days: seq<Day>, more: seq<Day>)
    requires more != []
    ensures Run(u, days + more) == AfterDay(u, Run(u, days + more[..|more| - 1]), more[|more| - 1])
  {
    assert (days + more)[..|days| + |more| - 1] == days + more[..|more| - 1];
  }

  /** Once a trade has gone to cash, the equity and every point of the curve stay where they are for as long
      as the days ask for nothing, however many of them trade. */
  lemma {:induction false} FlatUntilExposureRises(u: seq<Ticker>, days: seq<Day>, more: seq<Day>)
    requires GoodDays(u, days) && GoodDays(u, more)
    requires AllCash(Run(u, days))
    requires forall d :: 0 <= d < |more| ==> StaysOut(more[d])
    ensures FlatFor(Run(u, days), Run(u, days + more), |more|)
  {
    if more == [] {
      assert days + more == days;
    } else {
      var last := |more| - 1;
      FlatUntilExposureRises(u, days, more[..last]);
      RunMore(u, days, more);
      EquityIsConserved(u, days + more[..last]);
      FlatDay(u, Run(u, days + more[..last]), more[last]);
    }
  }

  lemma FlatDay(u: seq<Ticker>, a: Account, day: Day)
    requires Sound(u, a) && AllCash(a) && GoodDay(u, day) && StaysOut(day)
    ensures var b := AfterDay(u, a, day);
            AllCash(b) && b.equity == a.equity && b.totalTurnover == a.totalTurnover && b.curve == a.curve + [a.equity]
  {
    var m := Recorded(u, a, day);
    if day.pick.Some? && Trades(m, day.gross, day.pick.value.target) {
      NewWeightsAreFair(u, day.gross, day.pick.value);
      NothingMoves(u, m);
      CostIsSmall(m.equity, 0.0);
    }
  }

  lemma NothingMoves(u: seq<Ticker>, a: Account)
    requires Sound(u, a) && AllCash(a)
    ensures Turnover(u, a, map[]) == 0.0
  {
    CurrentIsWhole(u, a);
    DiffBounds(u, map[], CurrentWeights(a.sleeves, a.equity));
    DiffBounds(u, map[], map[]);
    assert CurrentWeights(a.sleeves, a.equity) == map[];
  }
}
