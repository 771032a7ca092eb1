/** The log watcher's responses: restarts within a budget, alerts within a cooldown, over passes that each
    load the saved state and save it at their end.  Times are microseconds. */
module Watcher {
  import opened Counting
  import opened Options

  /** Containers and fingerprints are named by numbers: only their equality matters. */
  type Name = nat

  const SECOND := 1000000
  const DAY := 86400 * SECOND
  const RESTART_COOLDOWN := 1800 * SECOND
  const ALERT_COOLDOWN := 6 * 3600 * SECOND
  const MAX_RESTARTS_PER_DAY := 2

  /** The UTC date of a time. */
  function Date(t: nat): nat {
    t / DAY
  }

  datatype Kind = ContainerBad(container: Name) | DiskHigh | LogLine

  datatype Issue = Issue(kind: Kind, level4: bool, fingerprint: Name)

  /** An issue with what the clock says when its budget is checked and when its restart is recorded. */
  datatype Observed = Observed(issue: Issue, checkAt: nat, spendAt: nat)

  /** One pass: its start, at which alerts are stamped, and the issues it finds. */
  datatype Pass = Pass(start: nat, found: seq<Observed>)

  datatype Budget = Budget(day: nat, count: nat, last: Option<nat>)

  datatype Restart = Restart(container: Name, checkedAt: nat, recordedAt: nat)

  datatype Alert = Alert(fingerprint: Name, at: nat)

  /** The saved state, with the restarts and alerts made so far. */
  datatype State = State(budgets: map<Name, Budget>, alerted: map<Name, nat>, restarts: seq<Restart>, alerts: seq<Alert>)

  datatype Verdict = Fixed | Alerted | Suppressed

  // ---- one issue, as functions ----------------------------------------------------------------------------------

  /** The budget as of `now`: opened when missing, and started anew on a new date. */
  function Opened(budgets: map<Name, Budget>, c: Name, now: nat): Budget {
    var b := if c in budgets then budgets[c] else Budget(Date(now), 0, None);
    if b.day != Date(now) then b.(day := Date(now), count := 0) else b
  }

  predicate Admits(b: Budget, now: nat) {
    !(b.last.Some? && now - b.last.value < RESTART_COOLDOWN) && b.count < MAX_RESTARTS_PER_DAY
  }

  /** The budget is checked at one reading of the clock and the restart recorded at a later one. */
  function Attempt(s: State, c: Name, checkAt: nat, spendAt: nat): State {
    var b := Opened(s.budgets, c, checkAt);
    if Admits(b, checkAt) then
      s.(budgets := s.budgets[c := Budget(b.day, b.count + 1, Some(spendAt))],
         restarts := s.restarts + [Restart(c, checkAt, spendAt)])
    else
      s.(budgets := s.budgets[c := b])
  }

  predicate Cooling(s: State, fingerprint: Name, now: nat) {
    fingerprint in s.alerted && now - s.alerted[fingerprint] < ALERT_COOLDOWN
  }

  function Notify(s: State, fingerprint: Name, now: nat): State {
    if Cooling(s, fingerprint, now) then s
    else s.(alerted := s.alerted[fingerprint := now], alerts := s.alerts + [Alert(fingerprint, now)])
  }

  function NotifyVerdict(s: State, fingerprint: Name, now: nat): Verdict {
    if Cooling(s, fingerprint, now) then Suppressed else Alerted
  }

  /** Level-4 issues and log lines are never acted on. */
  predicate ActsOn(issue: Issue) {
    !issue.level4 && !issue.kind.LogLine?
  }

  function Remedied(s: State, o: Observed): State {
    if ActsOn(o.issue) && o.issue.kind.ContainerBad? then Attempt(s, o.issue.kind.container, o.checkAt, o.spendAt) else s
  }

  predicate IsRemedied(s: State, o: Observed) {
    && ActsOn(o.issue)
    && (o.issue.kind.DiskHigh?
        || Admits(Opened(s.budgets, o.issue.kind.container, o.checkAt), o.checkAt))
  }

  function Handled(s: State, start: nat, o: Observed): State {
    if IsRemedied(s, o) then Remedied(s, o) else Notify(Remedied(s, o), o.issue.fingerprint, start)
  }

  function Judge(s: State, start: nat, o: Observed): Verdict {
    if IsRemedied(s, o) then Fixed else NotifyVerdict(Remedied(s, o), o.issue.fingerprint, start)
  }

  function AfterPass(s: State, start: nat, found: seq<Observed>): State {
    if found == [] then s else Handled(AfterPass(s, start, found[..|found| - 1]), start, found[|found| - 1])
  }

  /** The issues of the pass with the given verdict, in order. */
  function Judged(s: State, start: nat, found: seq<Observed>, v: Verdict): seq<Issue> {
    if found == [] then []
    else
      var front, o := found[..|found| - 1], found[|found| - 1];
      if Judge(AfterPass(s, start, front), start, o) == v then Judged(s, start, front, v) + [o.issue]
      else Judged(s, start, front, v)
  }

  function AfterPasses(passes: seq<Pass>): State {
    if passes == [] then State(map[], map[], [], [])
    else
      var last := passes[|passes| - 1];
      AfterPass(AfterPasses(passes[..|passes| - 1]), last.start, last.found)
  }

  // ---- the watcher --------------------------------------------------------------------------------------------------

  class LogWatcher {
    var budgets: map<Name, Budget>
    var alerted: map<Name, nat>
    var restarts: seq<Restart>
    var alerts: seq<Alert>

    function Saved(): State
      reads this
    {
      State(budgets, alerted, restarts, alerts)
    }

    constructor ()
      ensures Saved() == AfterPasses([])
    {
      budgets, alerted, restarts, alerts := map[], map[], [], [];
    }

    /** `load_state`. */
    constructor Load(file: State)
      ensures Saved() == file
    {
      budgets, alerted, restarts, alerts := file.budgets, file.alerted, file.restarts, file.alerts;
    }

    method BudgetOk(c: Name, now: nat) returns (ok: bool)
      modifies this`budgets
      ensures budgets == old(budgets)[c := Opened(old(budgets), c, now)]
      ensures ok == Admits(Opened(old(budgets), c, now), now)
    {
      if c !in budgets {
        budgets := budgets[c := Budget(Date(now), 0, None)];
      }
      if budgets[c].day != Date(now) {
        budgets := budgets[c := budgets[c].(day := Date(now), count := 0)];
      }
      var b := budgets[c];
      if b.last.Some? {
        if now - b.last.value < RESTART_COOLDOWN {
          return false;
        }
      }
      if b.count >= MAX_RESTARTS_PER_DAY {
        return false;
      }
      return true;
    }

    method BudgetSpend(c: Name, now: nat)
      requires c in budgets
      modifies this`budgets
      ensures budgets == old(budgets)[c := Budget(old(budgets)[c].day, old(budgets)[c].count + 1, Some(now))]
    {
      budgets := budgets[c := budgets[c].(count := budgets[c].count + 1)];
      budgets := budgets[c := budgets[c].(last := Some(now))];
    }

    method Remediate(o: Observed) returns (done: bool)
      modifies this`budgets, this`restarts
      ensures done == IsRemedied(old(Saved()), o)
      ensures Saved() == Remedied(old(Saved()), o)
    {
      if o.issue.level4 {
        return false;
      }
      match o.issue.kind {
        case ContainerBad(c) =>
          var ok := BudgetOk(c, o.checkAt);
          if !ok {
            return false;
          }
          BudgetSpend(c, o.spendAt);
          restarts := restarts + [Restart(c, o.checkAt, o.spendAt)];
          assert budgets == old(budgets)[c := budgets[c]];
          return true;
        case DiskHigh =>
          return true;
        case LogLine =>
          return false;
      }
    }

    /** The body of the loop: remedy, or alert unless the fingerprint is cooling down. */
    method Handle(start: nat, o: Observed) returns (verdict: Verdict)
      modifies this
      ensures Saved() == Handled(old(Saved()), start, o)
      ensures verdict == Judge(old(Saved()), start, o)
    {
      var done := Remediate(o);
      if done {
        return Fixed;
      }
      var fp := o.issue.fingerprint;
      if fp in alerted && start - alerted[fp] < ALERT_COOLDOWN {
        return Suppressed;
      }
      alerted := alerted[fp := start];
      alerts := alerts + [Alert(fp, start)];
      return Alerted;
    }

    /** One pass over the issues found; each goes into exactly one of the three lists. */
    method RunPass(pass: Pass) returns (fixed: seq<Issue>, notified: seq<Issue>, suppressed: seq<Issue>)
      modifies this
      ensures Saved() == AfterPass(old(Saved()), pass.start, pass.found)
      ensures fixed == Judged(old(Saved()), pass.start, pass.found, Fixed)
      ensures notified == Judged(old(Saved()), pass.start, pass.found, Alerted)
      ensures suppressed == Judged(old(Saved()), pass.start, pass.found, Suppressed)
    {
      ghost var before := Saved();
      var found := pass.found;
      fixed, notified, suppressed := [], [], [];
      for i := 0 to |found|
        invariant Saved() == AfterPass(before, pass.start, found[..i])
        invariant fixed == Judged(before, pass.start, found[..i], Fixed)
        invariant notified == Judged(before, pass.start, found[..i], Alerted)
        invariant suppressed == Judged(before, pass.start, found[..i], Suppressed)
      {
        assert found[..i + 1][..i] == found[..i];
        var verdict := Handle(pass.start, found[i]);
        match verdict {
          case Fixed => fixed := fixed + [found[i].issue];
          case Alerted => notified := notified + [found[i].issue];
          case Suppressed => suppressed := suppressed + [found[i].issue];
        }
      }
      assert found[..|found|] == found;
    }
  }

  // ---- each issue is counted once -------------------------------------------------------------------------------------

  function IssuesOf(found: seq<Observed>): (r: seq<Issue>)
    ensures |r| == |found| && forall i :: 0 <= i < |found| ==> r[i] == found[i].issue
  {
    seq(|found|, i requires 0 <= i < |found| => found[i].issue)
  }

  lemma OneMoreJudged(s: State, start: nat, found: seq<Observed>, v: Verdict, x: Issue)
    requires found != []
    ensures var front, o := found[..|found| - 1], found[|found| - 1];
            var here := Judge(AfterPass(s, start, front), start, o) == v;
            && CountOf(Judged(s, start, found, v), x)
               == CountOf(Judged(s, start, front, v), x) + (if here && o.issue == x then 1 else 0)
            && |Judged(s, start, found, v)| == |Judged(s, start, front, v)| + (if here then 1 else 0)
  {
    CountAppend(Judged(s, start, found[..|found| - 1], v), found[|found| - 1].issue, x);
  }

  /** Every issue of a pass is counted in exactly one of fixed, alerted and suppressed, as often as it occurs. */
  lemma {:induction false} EachIssueOnce(s: State, start: nat, found: seq<Observed>, x: Issue)
    ensures CountOf(Judged(s, start, found, Fixed), x) + CountOf(Judged(s, start, found, Alerted), x)
              + CountOf(Judged(s, start, found, Suppressed), x) == CountOf(IssuesOf(found), x)
    ensures |Judged(s, start, found, Fixed)| + |Judged(s, start, found, Alerted)| + |Judged(s, start, found, Suppressed)|
         == |found|
  {
    if found != [] {
      var front, o := found[..|found| - 1], found[|found| - 1];
      EachIssueOnce(s, start, front, x);
      OneMoreJudged(s, start, found, Fixed, x);
      OneMoreJudged(s, start, found, Alerted, x);
      OneMoreJudged(s, start, found, Suppressed, x);
      assert IssuesOf(found) == IssuesOf(front) + [o.issue];
      CountAppend(IssuesOf(front), o.issue, x);
    }
  }

  /** What was fixed is an environment fault below level 4: automation never touches risk-control state. */
  lemma {:induction false} Level4IsNeverFixed(s: State, start: nat, found: seq<Observed>)
    ensures forall i :: 0 <= i < |Judged(s, start, found, Fixed)| ==> ActsOn(Judged(s, start, found, Fixed)[i])
  {
    if found != [] {
      Level4IsNeverFixed(s, start, found[..|found| - 1]);
    }
  }

  // ---- the clock ---------------------------------------------------------------------------------------------------------

  /** The clock readings of a pass that starts no earlier than `clock`, in the order they are taken. */
  ghost predicate InTime(clock: nat, found: seq<Observed>) {
    && (forall i :: 0 <= i < |found| ==> clock <= found[i].checkAt <= found[i].spendAt)
    && (forall i, j :: 0 <= i < j < |found| ==> found[i].spendAt <= found[j].checkAt)
  }

  function EndOf(start: nat, found: seq<Observed>): nat {
    if found == [] then start else found[|found| - 1].spendAt
  }

  /** Passes do not overlap and the clock does not run backwards. */
  ghost predicate Orderly(passes: seq<Pass>) {
    && (forall p :: 0 <= p < |passes| ==> InTime(passes[p].start, passes[p].found))
    && (forall p :: 0 < p < |passes| ==> EndOf(passes[p - 1].start, passes[p - 1].found) <= passes[p].start)
  }

  // ---- what the saved state remembers -----------------------------------------------------------------------------------------

  /** How many restarts of `c` were admitted by checks on one date. */
  function AdmittedOn(restarts: seq<Restart>, c: Name, date: nat): nat {
    if restarts == [] then 0
    else
      var r := restarts[|restarts| - 1];
      AdmittedOn(restarts[..|restarts| - 1], c, date) + (if r.container == c && Date(r.checkedAt) == date then 1 else 0)
  }

  function LastRestart(restarts: seq<Restart>, c: Name): Option<nat> {
    if restarts == [] then None
    else
      var r := restarts[|restarts| - 1];
      if r.container == c then Some(r.recordedAt) else LastRestart(restarts[..|restarts| - 1], c)
  }

  /** The budget of `c` counts the restarts admitted on its day, the latest day of any, and holds the time of
      the last one. */
  ghost predicate Remembers(s: State, c: Name) {
    if c in s.budgets then
      && AdmittedOn(s.restarts, c, s.budgets[c].day) == s.budgets[c].count
      && (forall date: nat :: date > s.budgets[c].day ==> AdmittedOn(s.restarts, c, date) == 0)
      && LastRestart(s.restarts, c) == s.budgets[c].last
    else
      && (forall date: nat :: AdmittedOn(s.restarts, c, date) == 0)
      && LastRestart(s.restarts, c) == None
  }

  ghost predicate NeverThree(restarts: seq<Restart>) {
    forall c: Name, date: nat :: AdmittedOn(restarts, c, date) <= MAX_RESTARTS_PER_DAY
  }

  /** A check that admits a restart comes at least the cooldown after every earlier restart was recorded. */
  ghost predicate Spaced(restarts: seq<Restart>) {
    forall j, k :: 0 <= j < k < |restarts| && restarts[j].container == restarts[k].container ==>
      restarts[k].checkedAt - restarts[j].recordedAt >= RESTART_COOLDOWN
  }

  ghost predicate RestartsRise(restarts: seq<Restart>, clock: nat) {
    && (forall k :: 0 <= k < |restarts| ==> restarts[k].checkedAt <= restarts[k].recordedAt <= clock)
    && (forall j, k :: 0 <= j < k < |restarts| ==> restarts[j].recordedAt <= restarts[k].recordedAt)
  }

  ghost predicate RestartInv(s: State, clock: nat) {
    && (forall c: Name :: Remembers(s, c))
    && (forall c: Name :: c in s.budgets ==> s.budgets[c].day <= Date(clock))
    && NeverThree(s.restarts) && Spaced(s.restarts) && RestartsRise(s.restarts, clock)
  }

  lemma AdmittedAppend(restarts: seq<Restart>, r: Restart, c: Name, date: nat)
    ensures AdmittedOn(restarts + [r], c, date)
         == AdmittedOn(restarts, c, date) + (if r.container == c && Date(r.checkedAt) == date then 1 else 0)
    ensures LastRestart(restarts + [r], c) == if r.container == c then Some(r.recordedAt) else LastRestart(restarts, c)
  {
    assert (restarts + [r])[..|restarts|] == restarts;
  }

  lemma {:induction false} LastIsLatest(restarts: seq<Restart>, clock: nat, j: nat)
    requires RestartsRise(restarts, clock) && j < |restarts|
    ensures LastRestart(restarts, restarts[j].container).Some?
    ensures restarts[j].recordedAt <= LastRestart(restarts, restarts[j].container).value
  {
    var last := |restarts| - 1;
    if restarts[last].container != restarts[j].container {
      assert RestartsRise(restarts[..last], clock);
      LastIsLatest(restarts[..last], clock, j);
    }
  }

  lemma DatesRise(t: nat, u: nat)
    requires t <= u
    ensures Date(t) <= Date(u)
  {
  }

  lemma OpenedRemembers(s: State, clock: nat, c: Name, now: nat)
    requires RestartInv(s, clock) && clock <= now
    ensures var b := Opened(s.budgets, c, now);
            && b.day == Date(now)
            && AdmittedOn(s.restarts, c, Date(now)) == b.count
            && (forall date: nat :: date > Date(now) ==> AdmittedOn(s.restarts, c, date) == 0)
            && LastRestart(s.restarts, c) == b.last
  {
    assert Remembers(s, c);
    DatesRise(clock, now);
  }

  lemma AdmittedIsSpaced(s: State, clock: nat, c: Name, now: nat, later: nat)
    requires RestartInv(s, clock) && clock <= now <= later
    requires Admits(Opened(s.budgets, c, now), now)
    ensures Spaced(s.restarts + [Restart(c, now, later)])
    ensures RestartsRise(s.restarts + [Restart(c, now, later)], later)
  {
    var more := s.restarts + [Restart(c, now, later)];
    OpenedRemembers(s, clock, c, now);
    forall j, k | 0 <= j < k < |more| && more[j].container == more[k].container
      ensures more[k].checkedAt - more[j].recordedAt >= RESTART_COOLDOWN
    {
      if k == |s.restarts| {
        LastIsLatest(s.restarts, clock, j);
      }
    }
  }

  lemma AdmittedIsFew(s: State, clock: nat, c: Name, now: nat, later: nat)
    requires RestartInv(s, clock) && clock <= now <= later
    requires Admits(Opened(s.budgets, c, now), now)
    ensures NeverThree(s.restarts + [Restart(c, now, later)])
  {
    OpenedRemembers(s, clock, c, now);
    forall d: Name, date: nat ensures AdmittedOn(s.restarts + [Restart(c, now, later)], d, date) <= MAX_RESTARTS_PER_DAY {
      AdmittedAppend(s.restarts, Restart(c, now, later), d, date);
    }
  }

  lemma AttemptRemembers(s: State, clock: nat, c: Name, now: nat, later: nat, d: Name)
    requires RestartInv(s, clock) && clock <= now <= later
    ensures Remembers(Attempt(s, c, now, later), d)
  {
    OpenedRemembers(s, clock, c, now);
    var t := Attempt(s, c, now, later);
    assert Remembers(s, d);
    if Admits(Opened(s.budgets, c, now), now) {
      forall date: nat ensures AdmittedOn(t.restarts, d, date)
             == AdmittedOn(s.restarts, d, date) + (if c == d && Date(now) == date then 1 else 0)
             && LastRestart(t.restarts, d) == if c == d then Some(later) else LastRestart(s.restarts, d) {
        AdmittedAppend(s.restarts, Restart(c, now, later), d, date);
      }
      AdmittedAppend(s.restarts, Restart(c, now, later), d, 0);
    }
  }

  lemma AttemptKeeps(s: State, clock: nat, c: Name, now: nat, later: nat)
    requires RestartInv(s, clock) && clock <= now <= later
    ensures RestartInv(Attempt(s, c, now, later), later)
  {
    forall d: Name ensures Remembers(Attempt(s, c, now, later), d) {
      AttemptRemembers(s, clock, c, now, later, d);
    }
    DatesRise(clock, later);
    DatesRise(now, later);
    if Admits(Opened(s.budgets, c, now), now) {
      AdmittedIsSpaced(s, clock, c, now, later);
      AdmittedIsFew(s, clock, c, now, later);
    }
  }

  // ---- what the alert record remembers ------------------------------------------------------------------------------------------

  ghost predicate AlertsSpaced(alerts: seq<Alert>) {
    forall j, k :: 0 <= j < k < |alerts| && alerts[j].fingerprint == alerts[k].fingerprint ==>
      alerts[k].at - alerts[j].at >= ALERT_COOLDOWN
  }

  /** The record holds the time of the last alert for each fingerprint. */
  ghost predicate AlertInv(s: State) {
    && AlertsSpaced(s.alerts)
    && (forall k :: 0 <= k < |s.alerts| ==>
          s.alerts[k].fingerprint in s.alerted && s.alerts[k].at <= s.alerted[s.alerts[k].fingerprint])
  }

  lemma NotifyKeeps(s: State, fingerprint: Name, now: nat)
    requires AlertInv(s)
    ensures AlertInv(Notify(s, fingerprint, now))
  {
  }

  // ---- over all sequences of passes -----------------------------------------------------------------------------------------------

  lemma HandledKeeps(s: State, clock: nat, start: nat, o: Observed)
    requires RestartInv(s, clock) && AlertInv(s) && clock <= o.checkAt <= o.spendAt
    ensures RestartInv(Handled(s, start, o), o.spendAt) && AlertInv(Handled(s, start, o))
  {
    if ActsOn(o.issue) && o.issue.kind.ContainerBad? {
      AttemptKeeps(s, clock, o.issue.kind.container, o.checkAt, o.spendAt);
    } else {
      LaterKeeps(s, clock, o.spendAt);
    }
    var t := Remedied(s, o);
    NotifyKeeps(t, o.issue.fingerprint, start);
    NotifyKeepsRestarts(t, o.spendAt, o.issue.fingerprint, start);
  }

  lemma LaterKeeps(s: State, clock: nat, later: nat)
    requires RestartInv(s, clock) && clock <= later
    ensures RestartInv(s, later)
  {
    DatesRise(clock, later);
  }

  lemma NotifyKeepsRestarts(s: State, clock: nat, fingerprint: Name, now: nat)
    requires RestartInv(s, clock)
    ensures RestartInv(Notify(s, fingerprint, now), clock)
  {
    var t := Notify(s, fingerprint, now);
    forall c: Name ensures Remembers(t, c) {
      assert Remembers(s, c);
    }
  }

  lemma {:induction false} PassKeeps(s: State, clock: nat, start: nat, found: seq<Observed>)
    requires RestartInv(s, clock) && AlertInv(s) && clock <= start && InTime(start, found)
    ensures RestartInv(AfterPass(s, start, found), EndOf(start, found)) && AlertInv(AfterPass(s, start, found))
  {
    if found == [] {
      LaterKeeps(s, clock, start);
    } else {
      var front, o := found[..|found| - 1], found[|found| - 1];
      PassKeeps(s, clock, start, front);
      HandledKeeps(AfterPass(s, start, front), EndOf(start, front), start, o);
    }
  }

  function EndOfAll(passes: seq<Pass>): nat {
    if passes == [] then 0 else EndOf(passes[|passes| - 1].start, passes[|passes| - 1].found)
  }

  lemma {:induction false} PassesKeep(passes: seq<Pass>)
    requires Orderly(passes)
    ensures RestartInv(AfterPasses(passes), EndOfAll(passes)) && AlertInv(AfterPasses(passes))
  {
    if passes != [] {
      var front, last := passes[..|passes| - 1], passes[|passes| - 1];
      PassesKeep(front);
      PassKeeps(AfterPasses(front), EndOfAll(front), last.start, last.found);
    }
  }

  /** Over every sequence of completed passes: at most two restarts of a container are admitted by checks on
      one date, each at least half an hour after every earlier restart of it was recorded, and alerts for one
      fingerprint are at least six hours apart. */
  lemma BudgetsHold(passes: seq<Pass>, c: Name, date: nat)
    requires Orderly(passes)
    ensures var s := AfterPasses(passes);
            && AdmittedOn(s.restarts, c, date) <= MAX_RESTARTS_PER_DAY
            && Spaced(s.restarts)
            && AlertsSpaced(s.alerts)
  {
    PassesKeep(passes);
  }

  // ---- the next restart ------------------------------------------------------------------------------------------------------

  predicate Restarts(s: State, o: Observed) {
    && ActsOn(o.issue) && o.issue.kind.ContainerBad?
    && Admits(Opened(s.budgets, o.issue.kind.container, o.checkAt), o.checkAt)
  }

  function RestartOf(o: Observed): Restart
    requires o.issue.kind.ContainerBad?
  {
    Restart(o.issue.kind.container, o.checkAt, o.spendAt)
  }

  /** The earliest check at which one more restart is half an hour from the last. */
  function Earliest(restarts: seq<Restart>, c: Name, clock: nat): nat {
    match LastRestart(restarts, c)
    case None => clock
    case Some(last) => if last + RESTART_COOLDOWN <= clock then clock else last + RESTART_COOLDOWN
  }
}
