/** Turnover of an equal-weight book from the names selected at each rebalance. */
module BookTurnover {
  import opened Reals
  import opened Selection

  datatype Rebalance = Rebalance(tickers: seq<Ticker>, date: int)

  const DAYS_PER_YEAR := 365.25

  function Larger(a: nat, b: nat): nat {
    if a < b then b else a
  }

  /** What one rebalance turns over: the names not shared, as a share of the larger book; one half when the
      book is opened or closed. */
  function OneWay(a: set<Ticker>, b: set<Ticker>): real {
    if a == {} && b == {} then 0.0
    else if a == {} || b == {} then 0.5
    else 1.0 - |a * b| as real / Larger(|a|, |b|) as real
  }

  function AtLeastOne(k: nat): (r: nat)
    ensures 0 < r
  {
    if k == 0 then 1 else k
  }

  /** The sum of absolute weight changes when `x` names leave, `y` enter and `c` stay. */
  function Changes(x: nat, y: nat, c: nat, wa: real, wb: real): real {
    x as real * wa + y as real * wb + c as real * Abs(wb - wa)
  }

  lemma ChangesOneMore(x: nat, y: nat, c: nat, wa: real, wb: real)
    ensures Changes(x + 1, y, c, wa, wb) == Changes(x, y, c, wa, wb) + wa
    ensures Changes(x, y + 1, c, wa, wb) == Changes(x, y, c, wa, wb) + wb
    ensures Changes(x, y, c + 1, wa, wb) == Changes(x, y, c, wa, wb) + Abs(wb - wa)
  {
  }

  /** Half the summed changes of the whole books is the share not shared. */
  lemma ClosedForm(a: set<Ticker>, b: set<Ticker>)
    ensures 0.5 * Changes(|a - b|, |b - a|, |a * b|, 1.0 / AtLeastOne(|a|) as real, 1.0 / AtLeastOne(|b|) as real) == OneWay(a, b)
  {
    assert a == (a - b) + (a * b) && b == (b - a) + (a * b);
    var x, y, c := |a - b|, |b - a|, |a * b|;
    assert |a| == x + c && |b| == y + c;
    if a == {} || b == {} {
      assert c == 0;
      OneEmpty(|a|, |b|);
    } else if |b| <= |a| {
      SplitSum(x, y, c, |a| as real, |b| as real);
    } else {
      SplitSum(y, x, c, |b| as real, |a| as real);
    }
  }

  lemma OneEmpty(k: nat, m: nat)
    requires k == 0 || m == 0
    ensures 0.5 * Changes(k, m, 0, 1.0 / AtLeastOne(k) as real, 1.0 / AtLeastOne(m) as real) == if k == 0 && m == 0 then 0.0 else 0.5
  {
    Reciprocal(AtLeastOne(k) as real);
    Reciprocal(AtLeastOne(m) as real);
  }

  lemma SplitSum(x: nat, y: nat, c: nat, k: real, m: real)
    requires 0.0 < m <= k && k == (x + c) as real && m == (y + c) as real
    ensures 0.5 * Changes(x, y, c, 1.0 / k, 1.0 / m) == 1.0 - c as real / k
    ensures 0.5 * Changes(y, x, c, 1.0 / m, 1.0 / k) == 1.0 - c as real / k
  {
    var p, q := 1.0 / k, 1.0 / m;
    Reciprocal(k);
    Reciprocal(m);
    assert p <= q by {
      assert q - p == (k - m) / (k * m);
    }
    assert x as real * p + c as real * p == 1.0;
    assert y as real * q + c as real * q == 1.0;
    assert c as real / k == c as real * p;
  }

  lemma SeenOneMore(seen: set<Ticker>, t: Ticker, part: set<Ticker>)
    requires t !in seen
    ensures |(seen + {t}) * part| == |seen * part| + (if t in part then 1 else 0)
  {
    assert (seen + {t}) * part == seen * part + (if t in part then {t} else {});
  }

  function WeightIn(book: set<Ticker>, t: Ticker, w: real): real {
    if t in book then w else 0.0
  }

  /** The summed changes over the names seen. */
  function ChangesOver(seen: set<Ticker>, prev: set<Ticker>, cur: set<Ticker>, wa: real, wb: real): real {
    Changes(|seen * (prev - cur)|, |seen * (cur - prev)|, |seen * (prev * cur)|, wa, wb)
  }

  lemma ChangesOverOneMore(seen: set<Ticker>, t: Ticker, prev: set<Ticker>, cur: set<Ticker>, wa: real, wb: real)
    requires t !in seen && t in prev + cur && 0.0 <= wa && 0.0 <= wb
    ensures ChangesOver(seen + {t}, prev, cur, wa, wb)
         == ChangesOver(seen, prev, cur, wa, wb) + Abs(WeightIn(cur, t, wb) - WeightIn(prev, t, wa))
  {
    SeenOneMore(seen, t, prev - cur);
    SeenOneMore(seen, t, cur - prev);
    SeenOneMore(seen, t, prev * cur);
    ChangesOneMore(|seen * (prev - cur)|, |seen * (cur - prev)|, |seen * (prev * cur)|, wa, wb);
  }

  lemma AllSeen(prev: set<Ticker>, cur: set<Ticker>)
    ensures 0.5 * ChangesOver(prev + cur, prev, cur, 1.0 / AtLeastOne(|prev|) as real, 1.0 / AtLeastOne(|cur|) as real)
         == OneWay(prev, cur)
  {
    var seen := prev + cur;
    assert seen * (prev - cur) == prev - cur && seen * (cur - prev) == cur - prev && seen * (prev * cur) == prev * cur;
    ClosedForm(prev, cur);
  }

  /** The names of either book are visited in any order. */
  method OneWayTurnover(prev: set<Ticker>, cur: set<Ticker>) returns (half: real)
    ensures half == OneWay(prev, cur)
  {
    var wa, wb := 1.0 / AtLeastOne(|prev|) as real, 1.0 / AtLeastOne(|cur|) as real;
    Reciprocal(AtLeastOne(|prev|) as real);
    Reciprocal(AtLeastOne(|cur|) as real);
    AllSeen(prev, cur);
    var s := SumChanges(prev, cur, wa, wb);
    half := 0.5 * s;
  }

  method SumChanges(prev: set<Ticker>, cur: set<Ticker>, wa: real, wb: real) returns (s: real)
    requires 0.0 <= wa && 0.0 <= wb
    ensures s == ChangesOver(prev + cur, prev, cur, wa, wb)
  {
    s := 0.0;
    var todo := prev + cur;
    ghost var seen: set<Ticker> := {};
    while todo != {}
      invariant forall t :: t in todo ==> t in prev + cur
      invariant forall t :: t in seen <==> t in prev + cur && t !in todo
      invariant s == ChangesOver(seen, prev, cur, wa, wb)
      decreases |todo|
    {
      var t :| t in todo;
      ChangesOverOneMore(seen, t, prev, cur, wa, wb);
      todo, seen := todo - {t}, seen + {t};
      s := s + Abs(WeightIn(cur, t, wb) - WeightIn(prev, t, wa));
    }
    assert seen == prev + cur;
  }

  // ---- what the number means -----------------------------------------------------------------------------------

  /** Nothing moves exactly when the names are the same; everything does exactly when two non-empty books
      share no name; and it does not matter which book came first. */
  lemma OneWayMeaning(a: set<Ticker>, b: set<Ticker>)
    ensures 0.0 <= OneWay(a, b) <= 1.0
    ensures OneWay(a, b) == 0.0 <==> a == b
    ensures OneWay(a, b) == 1.0 <==> a != {} && b != {} && a !! b
    ensures OneWay(a, b) == OneWay(b, a)
  {
    assert a == (a - b) + (a * b) && b == (b - a) + (a * b) && a * b == b * a;
    if a != {} && b != {} {
      var c, k := |a * b| as real, Larger(|a|, |b|) as real;
      assert 0.0 <= c <= k;
      QuotientIsShare(c, k);
    }
  }

  lemma QuotientIsShare(c: real, k: real)
    requires 0.0 <= c <= k && 0.0 < k
    ensures 0.0 <= c / k <= 1.0 && (c / k == 1.0 <==> c == k) && (c / k == 0.0 <==> c == 0.0)
  {
  }

  /** Opening or closing a book turns over one half; between books of one size it is the replaced part. */
  lemma ReplacedPart(a: set<Ticker>, b: set<Ticker>)
    ensures a == {} && b != {} ==> OneWay(a, b) == OneWay(b, a) == 0.5
    ensures |a| == |b| > 0 ==> |a| as real * OneWay(a, b) == |b - a| as real
  {
    assert b == (b - a) + (a * b);
    if |a| == |b| > 0 {
      WholeLess(|a| as real, |a * b| as real);
    }
  }

  lemma WholeLess(k: real, c: real)
    requires 0.0 < k
    ensures k * (1.0 - c / k) == k - c
  {
    assert k * (c / k) == c;
  }

  function SumOneWay(holdings: seq<Rebalance>): real {
    if |holdings| < 2 then 0.0
    else
      SumOneWay(holdings[..|holdings| - 1])
      + OneWay(ToSet(holdings[|holdings| - 2].tickers), ToSet(holdings[|holdings| - 1].tickers))
  }

  lemma {:induction false} SumOneWayBounds(holdings: seq<Rebalance>)
    requires holdings != []
    ensures 0.0 <= SumOneWay(holdings) <= (|holdings| - 1) as real
  {
    if |holdings| >= 2 {
      SumOneWayBounds(holdings[..|holdings| - 1]);
      OneWayMeaning(ToSet(holdings[|holdings| - 2].tickers), ToSet(holdings[|holdings| - 1].tickers));
    }
  }

  function Span(holdings: seq<Rebalance>): int {
    if holdings == [] then 0 else holdings[|holdings| - 1].date - holdings[0].date
  }

  /** For every history, the mean turnover of a rebalance is a share of the book, and the annualised figure
      is the total turnover per year of the history. */
  method AnnualizedTurnover(holdings: seq<Rebalance>) returns (mean: real, annual: real)
    ensures 0.0 <= mean <= 1.0
    ensures |holdings| < 2 ==> mean == 0.0 && annual == 0.0
    ensures |holdings| >= 2 ==> mean == SumOneWay(holdings) / (|holdings| - 1) as real
    ensures |holdings| >= 2 && Span(holdings) <= 0 ==> annual == 0.0
    ensures |holdings| >= 2 && Span(holdings) > 0 ==>
              annual == SumOneWay(holdings) / (Span(holdings) as real / 365.25)
  {
    if |holdings| < 2 {
      return 0.0, 0.0;
    }
    var sum, count := 0.0, 0;
    for i := 1 to |holdings|
      invariant sum == SumOneWay(holdings[..i]) && count == i - 1
    {
      var one := OneWayTurnover(ToSet(holdings[i - 1].tickers), ToSet(holdings[i].tickers));
      assert holdings[..i + 1][..i] == holdings[..i];
      sum, count := sum + one, count + 1;
    }
    assert holdings[..|holdings|] == holdings;
    SumOneWayBounds(holdings);
    mean, annual := Annualized(sum, count, Span(holdings));
  }

  method Annualized(sum: real, count: nat, span: int) returns (mean: real, annual: real)
    requires 0 < count && 0.0 <= sum <= count as real
    ensures 0.0 <= mean <= 1.0 && mean == sum / count as real
    ensures annual == if span > 0 then sum / (span as real / 365.25) else 0.0
  {
    mean := sum / count as real;
    QuotientIsShare(sum, count as real);
    var years := if span > 0 then span as real / DAYS_PER_YEAR else 0.0;
    var perYear := if years > 0.0 then count as real / years else 0.0;
    annual := mean * perYear;
    if years > 0.0 {
      Cancel(sum, count as real, years);
    }
  }

  lemma Cancel(s: real, k: real, years: real)
    requires 0.0 < k && 0.0 < years
    ensures (s / k) * (k / years) == s / years
  {
  }
}
