/** The policy simulator: fully invested, equal weights, with the record of every holding. */
module PolicyRun {
  import opened Options
  import opened Selection
  import opened Ledger


  /** What the policy says on a scored day: whether to trade, and the target names if it names any. */
  datatype Order = Order(doTrade: bool, target: Option<set<Ticker>>)

  datatype Day = Day(date: int, close: map<Ticker, real>, order: Option<Order>)

  /** The completed holdings, as their number and the days they lasted in all. */
  datatype Holdings = Holdings(completed: nat, days: int)

  datatype Account = Account(
    equity: real,
    sleeves: map<Ticker, real>,
    lastPx: map<Ticker, real>,
    held: set<Ticker>,
    entryDate: map<Ticker, int>,
    holdings: Holdings,
    totalTurnover: real,
    trades: nat,
    curve: seq<real>)

  function Opened(): Account {
    Account(INITIAL_EQUITY, map[], map[], {}, map[], Holdings(0, 0), 0.0, 0, [])
  }

  // ---- the holdings record ------------------------------------------------------------------------------------

  /** How long the names of `s` have been held on `date`, summed over a listing of all names. */
  function HeldFor(u: seq<Ticker>, s: set<Ticker>, entryDate: map<Ticker, int>, date: int): int {
    if u == [] then 0
    else
      HeldFor(u[..|u| - 1], s, entryDate, date)
      + (if u[|u| - 1] in s && u[|u| - 1] in entryDate then date - entryDate[u[|u| - 1]] else 0)
  }

  function Dated(s: set<Ticker>, entryDate: map<Ticker, int>): set<Ticker> {
    set t | t in s && t in entryDate
  }

  function Closed(u: seq<Ticker>, h: Holdings, exits: set<Ticker>, entryDate: map<Ticker, int>, date: int): Holdings {
    Holdings(h.completed + |Dated(exits, entryDate)|, h.days + HeldFor(u, exits, entryDate, date))
  }

  function Entered(entryDate: map<Ticker, int>, entries: set<Ticker>, date: int): (r: map<Ticker, int>)
    ensures r.Keys == entryDate.Keys + entries
  {
    map t | t in entryDate.Keys + entries :: if t in entries then date else entryDate[t]
  }

  // ---- one day, as functions -----------------------------------------------------------------------------------

  function Recorded(u: seq<Ticker>, a: Account, day: Day): Account {
    var m := if a.held == {} then a
             else
               var sleeves := MarkedSleeves(a.sleeves, a.lastPx, a.held, day.close);
               a.(sleeves := sleeves, lastPx := MarkedPrices(a.sleeves, a.lastPx, a.held, day.close),
                  equity := Total(u, sleeves));
    m.(curve := m.curve + [m.equity])
  }

  function EqualWeights(target: set<Ticker>): (w: map<Ticker, real>)
    ensures w.Keys == target
  {
    map t | t in target :: 1.0 / |target| as real
  }

  function Turnover(u: seq<Ticker>, a: Account, w: map<Ticker, real>): real {
    0.5 * TotalDiff(u, w, CurrentWeights(a.sleeves, a.equity))
  }

  function PricesAt(target: set<Ticker>, close: map<Ticker, real>): (l: map<Ticker, real>)
    ensures l.Keys == target
  {
    map t | t in target :: Get(close, t)
  }

  function Traded(u: seq<Ticker>, a: Account, target: set<Ticker>, day: Day): Account {
    var w := EqualWeights(target);
    var turnover := Turnover(u, a, w);
    var equity := AfterCost(a.equity, turnover);
    Account(equity, Times(w, equity), PricesAt(target, day.close), target,
            Entered(a.entryDate, target - a.held, day.date),
            Closed(u, a.holdings, a.held - target, a.entryDate, day.date),
            a.totalTurnover + turnover, a.trades + 1, a.curve)
  }

  predicate Trades(day: Day) {
    day.order.Some? && day.order.value.doTrade && day.order.value.target.Some?
  }

  function AfterDay(u: seq<Ticker>, a: Account, day: Day): Account {
    var m := Recorded(u, a, day);
    if Trades(day) then Traded(u, m, day.order.value.target.value, day) else m
  }

  function Run(u: seq<Ticker>, days: seq<Day>): Account {
    if days == [] then Opened() else AfterDay(u, Run(u, days[..|days| - 1]), days[|days| - 1])
  }

  /** At the end the names still open are recorded as well, up to the last day of the curve. */
  function Finished(u: seq<Ticker>, days: seq<Day>): Holdings
    requires days != []
  {
    var a := Run(u, days);
    Closed(u, a.holdings, a.held, a.entryDate, days[|days| - 1].date)
  }

  // ---- the day loop ------------------------------------------------------------------------------------------------

  function SumOf(periods: seq<int>): int {
    if periods == [] then 0 else SumOf(periods[..|periods| - 1]) + periods[|periods| - 1]
  }

  function HoldingsOf(periods: seq<int>): Holdings {
    Holdings(|periods|, SumOf(periods))
  }

  lemma {:induction false} HeldForOneMore(u: seq<Ticker>, s: set<Ticker>, entryDate: map<Ticker, int>, date: int, x: Ticker)
    requires NoDup(u) && x !in s
    ensures HeldFor(u, s + {x}, entryDate, date)
         == HeldFor(u, s, entryDate, date) + (if x in u && x in entryDate then date - entryDate[x] else 0)
  {
    if u != [] {
      HeldForOneMore(u[..|u| - 1], s, entryDate, date, x);
      assert u == u[..|u| - 1] + [u[|u| - 1]];
    }
  }

  lemma {:induction false} HeldForNobody(u: seq<Ticker>, entryDate: map<Ticker, int>, date: int)
    ensures HeldFor(u, {}, entryDate, date) == 0
  {
    if u != [] {
      HeldForNobody(u[..|u| - 1], entryDate, date);
    }
  }

  lemma DatedOneMore(s: set<Ticker>, entryDate: map<Ticker, int>, x: Ticker)
    requires x !in s
    ensures |Dated(s + {x}, entryDate)| == |Dated(s, entryDate)| + (if x in entryDate then 1 else 0)
  {
    assert Dated(s + {x}, entryDate) == Dated(s, entryDate) + (if x in entryDate then {x} else {});
  }

  lemma CloseOneMore(u: seq<Ticker>, h: Holdings, exits: set<Ticker>, entryDate: map<Ticker, int>, date: int, x: Ticker)
    requires NoDup(u) && x !in exits && x in u
    ensures var some, more := Closed(u, h, exits, entryDate, date), Closed(u, h, exits + {x}, entryDate, date);
            more == if x in entryDate then Holdings(some.completed + 1, some.days + (date - entryDate[x])) else some
  {
    DatedOneMore(exits, entryDate, x);
    HeldForOneMore(u, exits, entryDate, date, x);
  }

  lemma CloseNobody(u: seq<Ticker>, h: Holdings, entryDate: map<Ticker, int>, date: int)
    ensures Closed(u, h, {}, entryDate, date) == h
  {
    HeldForNobody(u, entryDate, date);
    assert Dated({}, entryDate) == {};
  }

  /** The names of `exits` are recorded one by one, in any order. */
  method CloseHoldings(u: seq<Ticker>, before: seq<int>, exits: set<Ticker>, entryDate: map<Ticker, int>, date: int)
    returns (periods: seq<int>)
    requires NoDup(u) && forall t :: t in exits ==> t in u
    ensures HoldingsOf(periods) == Closed(u, HoldingsOf(before), exits, entryDate, date)
  {
    periods := before;
    var todo := exits;
    ghost var closed: set<Ticker> := {};
    CloseNobody(u, HoldingsOf(before), entryDate, date);
    while todo != {}
      invariant forall t :: t in todo ==> t in exits
      invariant forall t :: t in closed <==> t in exits && t !in todo
      invariant HoldingsOf(periods) == Closed(u, HoldingsOf(before), closed, entryDate, date)
      decreases |todo|
    {
      var tk :| tk in todo;
      CloseOneMore(u, HoldingsOf(before), closed, entryDate, date, tk);
      todo, closed := todo - {tk}, closed + {tk};
      if tk in entryDate {
        periods := periods + [date - entryDate[tk]];
      }
    }
    assert closed == exits;
  }

  ghost predicate GoodDay(u: seq<Ticker>, day: Day) {
    && AllPositive(day.close)
    && (Trades(day) ==> forall t :: t in day.order.value.target.value ==> t in u)
  }

  ghost predicate GoodDays(u: seq<Ticker>, days: seq<Day>) {
    forall d :: 0 <= d < |days| ==> GoodDay(u, days[d])
  }

  method Record(u: seq<Ticker>, before: Account, day: Day) returns (a: Account)
    requires before.sleeves.Keys == before.held && before.lastPx.Keys == before.held
    ensures a == Recorded(u, before, day)
    ensures a.sleeves.Keys == a.held && a.lastPx.Keys == a.held
  {
    a := before;
    if a.held != {} {
      var sleeves, lastPx := MarkBook(a.sleeves, a.lastPx, a.held, day.close);
      a := a.(sleeves := sleeves, lastPx := lastPx);
      a := a.(equity := Total(u, a.sleeves));
    }
    a := a.(curve := a.curve + [a.equity]);
  }

  /** The run, and the lengths of all holdings, those still open at the end included. */
  method Simulate(u: seq<Ticker>, days: seq<Day>) returns (a: Account, periods: seq<int>)
    requires NoDup(u) && GoodDays(u, days) && days != []
    ensures a == Run(u, days)
    ensures HoldingsOf(periods) == Finished(u, days)
  {
    a, periods := Opened(), [];
    for i := 0 to |days|
      invariant a.sleeves.Keys == a.held && a.lastPx.Keys == a.held && forall t :: t in a.held ==> t in u
      invariant a == Run(u, days[..i]) && HoldingsOf(periods) == a.holdings
    {
      assert days[..i + 1][..i] == days[..i];
      var day := days[i];
      a := Record(u, a, day);
      if !Trades(day) {
        continue;
      }
      var target := day.order.value.target.value;
      periods := CloseHoldings(u, periods, a.held - target, a.entryDate, day.date);
      a := Rebalance(u, a, target, day);
    }
    assert days[..|days|] == days;
    periods := CloseHoldings(u, periods, a.held, a.entryDate, days[|days| - 1].date);
  }

  method Rebalance(u: seq<Ticker>, before: Account, target: set<Ticker>, day: Day) returns (a: Account)
    ensures a == Traded(u, before, target, day)
  {
    var neww := EqualWeights(target);
    var turnover := Turnover(u, before, neww);
    a := before.(totalTurnover := before.totalTurnover + turnover);
    a := a.(equity := AfterCost(a.equity, turnover));
    a := a.(holdings := Closed(u, a.holdings, a.held - target, a.entryDate, day.date));
    a := a.(entryDate := Entered(a.entryDate, target - a.held, day.date));
    a := a.(sleeves := Times(neww, a.equity));
    a := a.(lastPx := PricesAt(target, day.close));
    a := a.(held := target);
    a := a.(trades := a.trades + 1);
  }

  // ---- every entry becomes one recorded holding ---------------------------------------------------------------------

  ghost predicate EveryoneDated(a: Account) {
    a.held <= a.entryDate.Keys
  }

  lemma {:induction false} HeldAreDated(u: seq<Ticker>, days: seq<Day>)
    ensures EveryoneDated(Run(u, days))
  {
    if days != [] {
      HeldAreDated(u, days[..|days| - 1]);
    }
  }

  /** How many times a name was newly entered over the run. */
  function Entries(u: seq<Ticker>, days: seq<Day>): nat {
    if days == [] then 0
    else
      var front := days[..|days| - 1];
      var day := days[|days| - 1];
      Entries(u, front) + (if Trades(day) then |day.order.value.target.value - Run(u, front).held| else 0)
  }

  lemma {:induction false} OpenAndClosed(u: seq<Ticker>, days: seq<Day>)
    ensures Run(u, days).holdings.completed + |Run(u, days).held| == Entries(u, days)
  {
    if days != [] {
      var front, day := days[..|days| - 1], days[|days| - 1];
      OpenAndClosed(u, front);
      HeldAreDated(u, front);
      var a := Run(u, front);
      if Trades(day) {
        var target := day.order.value.target.value;
        assert Dated(a.held - target, a.entryDate) == a.held - target;
        SwapSizes(a.held, target);
      }
    }
  }

  lemma SwapSizes(a: set<Ticker>, b: set<Ticker>)
    ensures |a - b| + |b| == |a| + |b - a|
  {
    assert a == (a - b) + (a * b) && b == (b - a) + (a * b);
  }

  /** Over a whole run, exits and names still open together are exactly the entries. */
  lemma HoldingsAreEntries(u: seq<Ticker>, days: seq<Day>)
    requires days != []
    ensures Finished(u, days).completed == Entries(u, days)
  {
    OpenAndClosed(u, days);
    HeldAreDated(u, days);
    assert Dated(Run(u, days).held, Run(u, days).entryDate) == Run(u, days).held;
  }

  // ---- the recorded days are the days names were held -----------------------------------------------------------------

  /** The names held between consecutive dates, times the days between them. */
  function NameDays(u: seq<Ticker>, days: seq<Day>): int {
    if |days| <= 1 then 0
    else
      var front := days[..|days| - 1];
      NameDays(u, front) + Spell(Run(u, front).held, front[|front| - 1].date, days[|days| - 1].date)
  }

  /** Waiting lengthens the holding of each held name. */
  lemma {:induction false} HeldForLater(u: seq<Ticker>, s: set<Ticker>, entryDate: map<Ticker, int>, date: int, later: int)
    requires NoDup(u) && s <= entryDate.Keys && forall t :: t in s ==> t in u
    ensures HeldFor(u, s, entryDate, later) == HeldFor(u, s, entryDate, date) + Spell(s, date, later)
    decreases |s|
  {
    if s == {} {
      HeldForNobody(u, entryDate, date);
      HeldForNobody(u, entryDate, later);
    } else {
      var x :| x in s;
      var rest := s - {x};
      assert rest + {x} == s;
      HeldForLater(u, rest, entryDate, date, later);
      HeldForOneMore(u, rest, entryDate, date, x);
      HeldForOneMore(u, rest, entryDate, later, x);
      SpellOneMore(rest, x, date, later);
    }
  }

  /** The days the names of `s` are held from one date to a later one, together. */
  function Spell(s: set<Ticker>, date: int, later: int): int {
    |s| * (later - date)
  }

  lemma SpellOneMore(s: set<Ticker>, x: Ticker, date: int, later: int)
    requires x !in s
    ensures Spell(s + {x}, date, later) == Spell(s, date, later) + (later - date)
  {
    assert |s + {x}| == |s| + 1;
  }

  /** A trade hands each held name's days to the record or keeps them open; new names start at zero. */
  lemma {:induction false} TradeKeepsDays(u: seq<Ticker>, held: set<Ticker>, target: set<Ticker>, entryDate: map<Ticker, int>, date: int)
    requires held <= entryDate.Keys
    ensures HeldFor(u, held - target, entryDate, date)
              + HeldFor(u, target, Entered(entryDate, target - held, date), date)
         == HeldFor(u, held, entryDate, date)
  {
    if u != [] {
      TradeKeepsDays(u[..|u| - 1], held, target, entryDate, date);
    }
  }

  /** One day moves days between the open and the recorded holdings, and loses none. */
  lemma DayKeepsDays(u: seq<Ticker>, a: Account, day: Day)
    requires EveryoneDated(a)
    ensures var b := AfterDay(u, a, day);
            b.holdings.days + HeldFor(u, b.held, b.entryDate, day.date)
            == a.holdings.days + HeldFor(u, a.held, a.entryDate, day.date)
  {
    if Trades(day) {
      TradeKeepsDays(u, a.held, day.order.value.target.value, a.entryDate, day.date);
    }
  }

  lemma {:induction false} HeldAreListed(u: seq<Ticker>, days: seq<Day>)
    requires GoodDays(u, days)
    ensures forall t :: t in Run(u, days).held ==> t in u
  {
    if days != [] {
      HeldAreListed(u, days[..|days| - 1]);
    }
  }

  /** The lengths of all holdings add up to the names held, times the days they were held. */
  lemma {:induction false} DaysAreConserved(u: seq<Ticker>, days: seq<Day>)
    requires NoDup(u) && GoodDays(u, days) && days != []
    ensures Finished(u, days).days == NameDays(u, days)
  {
    var last := |days| - 1;
    var front, day := days[..last], days[last];
    var a := Run(u, front);
    HeldAreDated(u, front);
    HeldAreListed(u, front);
    DayKeepsDays(u, a, day);
    if front == [] {
      HeldForNobody(u, a.entryDate, day.date);
    } else {
      DaysAreConserved(u, front);
      HeldForLater(u, a.held, a.entryDate, front[last - 1].date, day.date);
    }
  }

  // ---- marking telescopes over a run -------------------------------------------------------------------------------------

  /** The closes of a name over consecutive days. */
  function ClosesOf(days: seq<Day>, t: Ticker): (c: seq<Option<real>>)
    ensures |c| == |days| && forall d :: 0 <= d < |days| ==> c[d] == CloseOf(days[d].close, t)
  {
    seq(|days|, d requires 0 <= d < |days| => CloseOf(days[d].close, t))
  }

  function SleeveIn(a: Account, t: Ticker): Sleeve {
    SleeveOf(a.sleeves, a.lastPx, t)
  }

  lemma RunStep(u: seq<Ticker>, days: seq<Day>, day: Day)
    ensures Run(u, days + [day]) == AfterDay(u, Run(u, days), day)
  {
    assert (days + [day])[..|days|] == days;
  }

  /** The account after the first `k` of the quiet days. */
  function After(u: seq<Ticker>, days: seq<Day>, quiet: seq<Day>, k: nat): Account
    requires k <= |quiet|
  {
    Run(u, days + quiet[..k])
  }

  /** From `a` to `b` name `t`, if held, stays held and is marked to the close. */
  ghost predicate OnlyMarks(a: Account, b: Account, close: Option<real>, t: Ticker) {
    t in a.held ==> t in b.held && SleeveIn(b, t) == MarkSleeve(SleeveIn(a, t), close)
  }

  lemma QuietStep(u: seq<Ticker>, days: seq<Day>, quiet: seq<Day>, k: nat, t: Ticker)
    requires k < |quiet| && !Trades(quiet[k])
    ensures OnlyMarks(After(u, days, quiet, k), After(u, days, quiet, k + 1), CloseOf(quiet[k].close, t), t)
  {
    assert days + quiet[..k + 1] == days + quiet[..k] + [quiet[k]];
    RunStep(u, days + quiet[..k], quiet[k]);
  }

  lemma {:induction false} StepsAreMarkDays(accounts: seq<Account>, closes: seq<Option<real>>, t: Ticker)
    requires |accounts| == |closes| + 1 && t in accounts[0].held
    requires forall k :: 0 <= k < |closes| ==> OnlyMarks(accounts[k], accounts[k + 1], closes[k], t)
    ensures t in accounts[|closes|].held
    ensures SleeveIn(accounts[|closes|], t) == MarkDays(SleeveIn(accounts[0], t), closes)
  {
    if closes != [] {
      StepsAreMarkDays(accounts[..|closes|], closes[..|closes| - 1], t);
      assert OnlyMarks(accounts[|closes| - 1], accounts[|closes|], closes[|closes| - 1], t);
    }
  }

  lemma QuietDaysMark(u: seq<Ticker>, days: seq<Day>, quiet: seq<Day>, t: Ticker)
    requires t in Run(u, days).held
    requires forall d :: 0 <= d < |quiet| ==> !Trades(quiet[d])
    ensures SleeveIn(Run(u, days + quiet), t) == MarkDays(SleeveIn(Run(u, days), t), ClosesOf(quiet, t))
  {
    var accounts := Accounts(u, days, quiet);
    forall k | 0 <= k < |quiet| ensures OnlyMarks(accounts[k], accounts[k + 1], ClosesOf(quiet, t)[k], t) {
      QuietStep(u, days, quiet, k, t);
    }
    StepsAreMarkDays(accounts, ClosesOf(quiet, t), t);
  }

  /** The accounts from the end of `days` to the end of `days + quiet`. */
  function Accounts(u: seq<Ticker>, days: seq<Day>, quiet: seq<Day>): (r: seq<Account>)
    ensures |r| == |quiet| + 1
    ensures forall k :: 0 <= k <= |quiet| ==> r[k] == After(u, days, quiet, k)
    ensures r[0] == Run(u, days) && r[|quiet|] == Run(u, days + quiet)
  {
    assert days + quiet[..0] == days && quiet[..|quiet|] == quiet;
    seq(|quiet| + 1, k requires 0 <= k <= |quiet| => After(u, days, quiet, k))
  }

  lemma TradeAllocates(u: seq<Ticker>, a: Account, day: Day, t: Ticker)
    requires Trades(day) && t in day.order.value.target.value
    ensures var b := AfterDay(u, a, day);
            t in b.sleeves && SleeveIn(b, t) == Allocate(b.sleeves[t], CloseOf(day.close, t))
  {
  }

  lemma ClosesArePositive(u: seq<Ticker>, days: seq<Day>, t: Ticker)
    requires GoodDays(u, days)
    ensures PositiveCloses(ClosesOf(days, t))
  {
  }

  lemma LastTradeAllocates(u: seq<Ticker>, days: seq<Day>, t: Ticker)
    requires days != [] && Trades(days[|days| - 1]) && t in Run(u, days).held
    ensures var a := Run(u, days);
            t in a.sleeves && SleeveIn(a, t) == Allocate(a.sleeves[t], CloseOf(days[|days| - 1].close, t))
  {
    TradeAllocates(u, Run(u, days[..|days| - 1]), days[|days| - 1], t);
  }

  lemma MarkedSinceTrade(u: seq<Ticker>, day: Day, quiet: seq<Day>, t: Ticker, amount: real)
    requires GoodDay(u, day) && GoodDays(u, quiet)
    ensures TelescopesOver(MarkDays(Allocate(amount, CloseOf(day.close, t)), ClosesOf(quiet, t)), amount,
                           ClosesOf([day] + quiet, t))
  {
    var since := [day] + quiet;
    assert ClosesOf(since, t)[1..] == ClosesOf(quiet, t);
    ClosesArePositive(u, since, t);
    MarkingTelescopes(amount, ClosesOf(since, t));
  }

  /** Between a trade and the next one, whichever days lack a price, a name's sleeve is its allocation times
      the last price seen over the first price seen since the trade, or the bare allocation while no price was
      seen. */
  lemma SleevesTelescope(u: seq<Ticker>, days: seq<Day>, quiet: seq<Day>, t: Ticker)
    requires GoodDays(u, days) && GoodDays(u, quiet)
    requires days != [] && Trades(days[|days| - 1]) && t in Run(u, days).held
    requires forall d :: 0 <= d < |quiet| ==> !Trades(quiet[d])
    ensures t in Run(u, days).sleeves
    ensures TelescopesOver(SleeveIn(Run(u, days + quiet), t), Run(u, days).sleeves[t],
                           ClosesOf([days[|days| - 1]] + quiet, t))
  {
    var amount := Run(u, days).sleeves[t];
    LastTradeAllocates(u, days, t);
    QuietDaysMark(u, days, quiet, t);
    MarkedSinceTrade(u, days[|days| - 1], quiet, t, amount);
  }
}
