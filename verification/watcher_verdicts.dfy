/** What becomes of each issue of a pass, told from the restarts and alerts that were really made. */
module WatcherVerdicts {
  import opened Options
  import opened Watcher

  // ---- the rules, in microseconds ------------------------------------------------------------------------------

  /** A restart of `c` was recorded less than half an hour before. */
  ghost predicate JustRestarted(restarts: seq<Restart>, c: Name, now: nat) {
    exists k :: 0 <= k < |restarts| && restarts[k].container == c && now - restarts[k].recordedAt < 1800000000
  }

  /** Two restarts of `c` were checked on the UTC date of `now`. */
  ghost predicate TwiceToday(restarts: seq<Restart>, c: Name, now: nat) {
    exists j, k :: 0 <= j < k < |restarts| && Today(restarts[j], c, now) && Today(restarts[k], c, now)
  }

  predicate Today(r: Restart, c: Name, now: nat) {
    r.container == c && r.checkedAt / 86400000000 == now / 86400000000
  }

  /** An alert for the fingerprint went out less than six hours before. */
  ghost predicate JustAlerted(alerts: seq<Alert>, fingerprint: Name, now: nat) {
    exists k :: 0 <= k < |alerts| && alerts[k].fingerprint == fingerprint && now - alerts[k].at < 21600000000
  }

  /** Below level 4 a full disk is always remedied, a container unless it was just restarted or twice today, and a
      log line never. */
  ghost predicate MayFix(restarts: seq<Restart>, o: Observed) {
    && !o.issue.level4
    && match o.issue.kind
       case ContainerBad(c) => !JustRestarted(restarts, c, o.checkAt) && !TwiceToday(restarts, c, o.checkAt)
       case DiskHigh => true
       case LogLine => false
  }

  /** What is not remedied is alerted, unless its fingerprint just was. */
  ghost predicate Deserves(s: State, start: nat, o: Observed, v: Verdict) {
    match v
    case Fixed => MayFix(s.restarts, o)
    case Alerted => !MayFix(s.restarts, o) && !JustAlerted(s.alerts, o.issue.fingerprint, start)
    case Suppressed => !MayFix(s.restarts, o) && JustAlerted(s.alerts, o.issue.fingerprint, start)
  }

  // ---- what the saved state knows of them ------------------------------------------------------------------------

  lemma {:induction false} LastRestartIsOne(restarts: seq<Restart>, c: Name)
    ensures var last := LastRestart(restarts, c);
            if last.Some? then exists k :: 0 <= k < |restarts| && restarts[k].container == c && restarts[k].recordedAt == last.value
            else forall k :: 0 <= k < |restarts| ==> restarts[k].container != c
  {
    if restarts != [] {
      var front := restarts[..|restarts| - 1];
      LastRestartIsOne(front, c);
      if LastRestart(restarts, c).Some? && restarts[|restarts| - 1].container != c {
        var k :| 0 <= k < |front| && front[k].container == c && front[k].recordedAt == LastRestart(front, c).value;
        assert restarts[k] == front[k];
      }
    }
  }

  lemma {:induction false} CountsToday(restarts: seq<Restart>, c: Name, now: nat)
    ensures 0 < AdmittedOn(restarts, c, Date(now)) <==> exists k :: 0 <= k < |restarts| && Today(restarts[k], c, now)
    ensures 1 < AdmittedOn(restarts, c, Date(now)) <==> TwiceToday(restarts, c, now)
  {
    if restarts != [] {
      var last := |restarts| - 1;
      var front := restarts[..last];
      CountsToday(front, c, now);
      TodayAppend(front, restarts[last], c, now);
      assert front + [restarts[last]] == restarts;
    }
  }

  lemma TodayAppend(front: seq<Restart>, r: Restart, c: Name, now: nat)
    ensures (exists k :: 0 <= k < |front + [r]| && Today((front + [r])[k], c, now))
            <==> Today(r, c, now) || exists k :: 0 <= k < |front| && Today(front[k], c, now)
    ensures TwiceToday(front + [r], c, now)
            <==> TwiceToday(front, c, now)
                 || (Today(r, c, now) && exists k :: 0 <= k < |front| && Today(front[k], c, now))
  {
    var more := front + [r];
    assert more[|front|] == r && forall k :: 0 <= k < |front| ==> more[k] == front[k];
    if Today(r, c, now) && exists k :: 0 <= k < |front| && Today(front[k], c, now) {
      var k :| 0 <= k < |front| && Today(front[k], c, now);
      assert Today(more[k], c, now) && Today(more[|front|], c, now);
    }
    if TwiceToday(front, c, now) {
      var j, k :| 0 <= j < k < |front| && Today(front[j], c, now) && Today(front[k], c, now);
      assert Today(more[j], c, now) && Today(more[k], c, now);
    }
  }

  /** The record of alerts holds times of alerts that were made. */
  ghost predicate AlertsKnown(s: State) {
    forall fp :: fp in s.alerted ==>
      exists k :: 0 <= k < |s.alerts| && s.alerts[k].fingerprint == fp && s.alerts[k].at == s.alerted[fp]
  }

  ghost predicate Known(s: State, clock: nat) {
    RestartInv(s, clock) && AlertInv(s) && AlertsKnown(s)
  }

  lemma AdmitsIff(s: State, clock: nat, c: Name, now: nat)
    requires RestartInv(s, clock) && clock <= now
    ensures Admits(Opened(s.budgets, c, now), now) <==> !JustRestarted(s.restarts, c, now) && !TwiceToday(s.restarts, c, now)
  {
    OpenedRemembers(s, clock, c, now);
    CountsToday(s.restarts, c, now);
    LastRestartIsOne(s.restarts, c);
    if JustRestarted(s.restarts, c, now) {
      var k :| 0 <= k < |s.restarts| && s.restarts[k].container == c && now - s.restarts[k].recordedAt < 1800000000;
      LastIsLatest(s.restarts, clock, k);
    }
  }

  lemma CoolingIff(s: State, fingerprint: Name, now: nat)
    requires AlertInv(s) && AlertsKnown(s)
    ensures Cooling(s, fingerprint, now) <==> JustAlerted(s.alerts, fingerprint, now)
  {}

  lemma RemediedKnows(s: State, o: Observed)
    ensures Remedied(s, o).alerts == s.alerts && Remedied(s, o).alerted == s.alerted
    ensures Remedied(s, o).restarts == if Restarts(s, o) then s.restarts + [RestartOf(o)] else s.restarts
  {}

  /** Each issue gets the verdict it deserves; a restart is made exactly for a container that is fixed, and an alert
      exactly for what is alerted. */
  lemma VerdictIsDeserved(s: State, clock: nat, start: nat, o: Observed)
    requires Known(s, clock) && clock <= o.checkAt
    ensures Deserves(s, start, o, Judge(s, start, o))
    ensures Handled(s, start, o).restarts
         == if Judge(s, start, o) == Fixed && o.issue.kind.ContainerBad?
            then s.restarts + [Restart(o.issue.kind.container, o.checkAt, o.spendAt)] else s.restarts
    ensures Handled(s, start, o).alerts
         == if Judge(s, start, o) == Alerted then s.alerts + [Alert(o.issue.fingerprint, start)] else s.alerts
  {
    if o.issue.kind.ContainerBad? { AdmitsIff(s, clock, o.issue.kind.container, o.checkAt); }
    RemediedKnows(s, o);
    CoolingIff(s, o.issue.fingerprint, start);
  }

  lemma NotifyKnows(s: State, fingerprint: Name, now: nat)
    requires AlertsKnown(s)
    ensures AlertsKnown(Notify(s, fingerprint, now))
  {
    var t := Notify(s, fingerprint, now);
    if !Cooling(s, fingerprint, now) {
      forall fp | fp in t.alerted
        ensures exists k :: 0 <= k < |t.alerts| && t.alerts[k].fingerprint == fp && t.alerts[k].at == t.alerted[fp]
      {
        if fp == fingerprint {
          assert t.alerts[|s.alerts|] == Alert(fingerprint, now);
        } else {
          var k :| 0 <= k < |s.alerts| && s.alerts[k].fingerprint == fp && s.alerts[k].at == s.alerted[fp];
          assert t.alerts[k] == s.alerts[k];
        }
      }
    }
  }

  lemma {:induction false} PassKnows(s: State, clock: nat, start: nat, found: seq<Observed>)
    requires Known(s, clock) && clock <= start && InTime(start, found)
    ensures Known(AfterPass(s, start, found), EndOf(start, found))
  {
    PassKeeps(s, clock, start, found);
    if found != [] {
      var front, o := found[..|found| - 1], found[|found| - 1];
      PassKnows(s, clock, start, front);
      var t := AfterPass(s, start, front);
      RemediedKnows(t, o);
      NotifyKnows(Remedied(t, o), o.issue.fingerprint, start);
    }
  }

  lemma {:induction false} PassesKnow(passes: seq<Pass>)
    requires Orderly(passes)
    ensures Known(AfterPasses(passes), EndOfAll(passes))
  {
    PassesKeep(passes);
    if passes != [] {
      var front, last := passes[..|passes| - 1], passes[|passes| - 1];
      PassesKnow(front);
      PassKnows(AfterPasses(front), EndOfAll(front), last.start, last.found);
    }
  }

  // ---- the three lists ----------------------------------------------------------------------------------------------

  /** Issue `i` of the pass deserves this verdict, after what the pass has done before it. */
  ghost predicate DeservesAt(s: State, pass: Pass, i: nat, v: Verdict)
    requires i < |pass.found|
  {
    Deserves(AfterPass(s, pass.start, pass.found[..i]), pass.start, pass.found[i], v)
  }

  lemma DeservedBefore(s: State, start: nat, found: seq<Observed>, v: Verdict)
    requires found != []
    ensures var front := found[..|found| - 1];
            forall i: nat :: i < |front| ==>
              (DeservesAt(s, Pass(start, found), i, v) <==> DeservesAt(s, Pass(start, front), i, v))
  {
    var front := found[..|found| - 1];
    forall i: nat | i < |front|
      ensures DeservesAt(s, Pass(start, found), i, v) <==> DeservesAt(s, Pass(start, front), i, v)
    {
      assert found[..i] == front[..i];
    }
  }

  /** `at` picks from the pass, in order, the issues that deserve the verdict, and `list` holds them. */
  ghost predicate Picks(at: seq<nat>, s: State, pass: Pass, v: Verdict, list: seq<Issue>) {
    && Lists(at, pass.found, list)
    && (forall k, l :: 0 <= k < l < |at| ==> at[k] < at[l])
    && (forall i: nat :: i < |pass.found| ==> (i in at <==> DeservesAt(s, pass, i, v)))
  }

  ghost predicate Lists(at: seq<nat>, found: seq<Observed>, list: seq<Issue>) {
    |at| == |list| && forall k :: 0 <= k < |at| ==> at[k] < |found| && found[at[k]].issue == list[k]
  }

  lemma PicksMore(at: seq<nat>, s: State, start: nat, found: seq<Observed>, v: Verdict, list: seq<Issue>)
    requires found != [] && Picks(at, s, Pass(start, found[..|found| - 1]), v, list)
    ensures var last := |found| - 1;
            if DeservesAt(s, Pass(start, found), last, v)
            then Picks(at + [last], s, Pass(start, found), v, list + [found[last].issue])
            else Picks(at, s, Pass(start, found), v, list)
  {
    var last := |found| - 1;
    DeservedBefore(s, start, found, v);
    assert forall k :: 0 <= k < |at| ==> at[k] < last && found[..last][at[k]] == found[at[k]];
    assert last !in at;
  }

  lemma {:induction false} ListHolds(s: State, clock: nat, start: nat, found: seq<Observed>, v: Verdict) returns (at: seq<nat>)
    requires Known(s, clock) && clock <= start && InTime(start, found)
    ensures Picks(at, s, Pass(start, found), v, Judged(s, start, found, v))
  {
    at := [];
    if found != [] {
      var last := |found| - 1;
      var front := found[..last];
      at := ListHolds(s, clock, start, front, v);
      PassKnows(s, clock, start, front);
      VerdictIsDeserved(AfterPass(s, start, front), EndOf(start, front), start, found[last]);
      PicksMore(at, s, start, found, v, Judged(s, start, front, v));
      if Judge(AfterPass(s, start, front), start, found[last]) == v { at := at + [last]; }
    }
  }

  /** After any passes, the list of a verdict holds the issues of the next pass that deserve it, in their order. */
  lemma PassReports(passes: seq<Pass>, pass: Pass, v: Verdict) returns (at: seq<nat>)
    requires Orderly(passes) && EndOfAll(passes) <= pass.start && InTime(pass.start, pass.found)
    ensures Picks(at, AfterPasses(passes), pass, v, Judged(AfterPasses(passes), pass.start, pass.found, v))
  {
    PassesKnow(passes);
    at := ListHolds(AfterPasses(passes), EndOfAll(passes), pass.start, pass.found, v);
  }
}
