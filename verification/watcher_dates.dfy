/** Restarts by the date on which they were recorded: the budget counts the date of the check. */
module WatcherDates {
  import opened Options
  import opened Watcher

  // ---- recorded and admitted ------------------------------------------------------------------------------------

  /** How many restarts of `c` were recorded on one date. */
  function RecordedOn(restarts: seq<Restart>, c: Name, date: nat): nat {
    if restarts == [] then 0
    else
      var r := restarts[|restarts| - 1];
      RecordedOn(restarts[..|restarts| - 1], c, date) + (if r.container == c && Date(r.recordedAt) == date then 1 else 0)
  }

  /** A restart of `c` checked before the date on which it was recorded. */
  predicate Straddles(r: Restart, c: Name, date: nat) {
    r.container == c && Date(r.recordedAt) == date && Date(r.checkedAt) != date
  }

  ghost predicate SomeStraddles(restarts: seq<Restart>, c: Name, date: nat) {
    exists k :: 0 <= k < |restarts| && Straddles(restarts[k], c, date)
  }

  lemma {:induction false} RecordedVersusAdmitted(restarts: seq<Restart>, clock: nat, c: Name, date: nat)
    requires RestartsRise(restarts, clock) && Spaced(restarts)
    ensures RecordedOn(restarts, c, date)
         <= AdmittedOn(restarts, c, date) + (if SomeStraddles(restarts, c, date) then 1 else 0)
  {
    if restarts != [] {
      var front, r := restarts[..|restarts| - 1], restarts[|restarts| - 1];
      assert RestartsRise(front, clock) && Spaced(front);
      RecordedVersusAdmitted(front, clock, c, date);
      if SomeStraddles(front, c, date) {
        var k :| 0 <= k < |front| && Straddles(front[k], c, date);
        assert Straddles(restarts[k], c, date);
        if r.container == c {
          DatesRise(restarts[k].recordedAt, r.checkedAt);
          DatesRise(r.checkedAt, r.recordedAt);
        }
      }
    }
  }

  /** By the time they are recorded, restarts of a container can exceed two on a date by at most one, and only
      when one of them was checked before that date began. */
  lemma RecordedBound(passes: seq<Pass>, c: Name, date: nat)
    requires Orderly(passes)
    ensures RecordedOn(AfterPasses(passes).restarts, c, date) <= 3
    ensures RecordedOn(AfterPasses(passes).restarts, c, date) == 3 ==> SomeStraddles(AfterPasses(passes).restarts, c, date)
  {
    PassesKeep(passes);
    RecordedVersusAdmitted(AfterPasses(passes).restarts, EndOfAll(passes), c, date);
  }

  /** On the present date the restarts recorded are those admitted and one that straddles the midnight before. */
  lemma {:induction false} RecordedToday(restarts: seq<Restart>, clock: nat, c: Name)
    requires RestartsRise(restarts, clock) && Spaced(restarts)
    ensures RecordedOn(restarts, c, Date(clock))
         == AdmittedOn(restarts, c, Date(clock)) + (if SomeStraddles(restarts, c, Date(clock)) then 1 else 0)
  {
    RecordedVersusAdmitted(restarts, clock, c, Date(clock));
    RecordedAtLeast(restarts, clock, c);
  }

  lemma {:induction false} RecordedAtLeast(restarts: seq<Restart>, clock: nat, c: Name)
    requires RestartsRise(restarts, clock)
    ensures RecordedOn(restarts, c, Date(clock))
         >= AdmittedOn(restarts, c, Date(clock)) + (if SomeStraddles(restarts, c, Date(clock)) then 1 else 0)
  {
    if restarts != [] {
      var front, r := restarts[..|restarts| - 1], restarts[|restarts| - 1];
      assert RestartsRise(front, clock);
      RecordedAtLeast(front, clock, c);
      DatesRise(r.checkedAt, r.recordedAt);
      DatesRise(r.recordedAt, clock);
      if SomeStraddles(restarts, c, Date(clock)) && !Straddles(r, c, Date(clock)) {
        var k :| 0 <= k < |restarts| && Straddles(restarts[k], c, Date(clock));
        assert Straddles(front[k], c, Date(clock));
      }
    }
  }

  // ---- whether today can still see a third -------------------------------------------------------------------------

  /** The day is too short for as many more checks as would make two: fewer than two were admitted on `date`, and
      the last of those to come falls on a later date. */
  ghost predicate TooLate(restarts: seq<Restart>, c: Name, clock: nat, date: nat) {
    var n := AdmittedOn(restarts, c, date);
    n < 2 && date < Date(Earliest(restarts, c, clock) + (1 - n) * RESTART_COOLDOWN)
  }

  /** No third restart of `c` will be recorded on `date`. */
  ghost predicate Settled(s: State, c: Name, clock: nat, date: nat) {
    && RestartInv(s, clock) && AlertInv(s) && date <= Date(clock)
    && (!SomeStraddles(s.restarts, c, date) || TooLate(s.restarts, c, clock, date))
  }

  lemma HandledRestarts(s: State, start: nat, o: Observed)
    ensures Handled(s, start, o).restarts == if Restarts(s, o) then s.restarts + [RestartOf(o)] else s.restarts
  {}

  lemma LaterTooLate(restarts: seq<Restart>, c: Name, clock: nat, later: nat, date: nat)
    requires clock <= later && TooLate(restarts, c, clock, date)
    ensures TooLate(restarts, c, later, date)
  {
    var n := AdmittedOn(restarts, c, date);
    DatesRise(Earliest(restarts, c, clock) + (1 - n) * RESTART_COOLDOWN,
              Earliest(restarts, c, later) + (1 - n) * RESTART_COOLDOWN);
  }

  /** A restart checked on or after the clock straddles into no date already begun. */
  lemma NoNewStraddle(restarts: seq<Restart>, r: Restart, c: Name, clock: nat, date: nat)
    requires clock <= r.checkedAt <= r.recordedAt && date <= Date(clock)
    ensures SomeStraddles(restarts + [r], c, date) ==> SomeStraddles(restarts, c, date)
  {
    DatesRise(clock, r.checkedAt);
    DatesRise(r.checkedAt, r.recordedAt);
    if SomeStraddles(restarts + [r], c, date) {
      var k :| 0 <= k < |restarts + [r]| && Straddles((restarts + [r])[k], c, date);
      assert k < |restarts| && Straddles(restarts[k], c, date);
    }
  }

  lemma AdmittedComesLater(s: State, clock: nat, r: Restart)
    requires RestartInv(s, clock) && clock <= r.checkedAt
    requires Admits(Opened(s.budgets, r.container, r.checkedAt), r.checkedAt)
    ensures Earliest(s.restarts, r.container, clock) <= r.checkedAt
  {
    OpenedRemembers(s, clock, r.container, r.checkedAt);
  }

  lemma RestartStaysTooLate(s: State, clock: nat, r: Restart, c: Name, date: nat)
    requires RestartInv(s, clock) && clock <= r.checkedAt <= r.recordedAt && date <= Date(clock)
    requires Admits(Opened(s.budgets, r.container, r.checkedAt), r.checkedAt)
    requires TooLate(s.restarts, c, clock, date)
    ensures TooLate(s.restarts + [r], c, r.recordedAt, date)
  {
    var n := AdmittedOn(s.restarts, c, date);
    var e := Earliest(s.restarts, c, clock);
    var m, f := AdmittedOn(s.restarts + [r], c, date), Earliest(s.restarts + [r], c, r.recordedAt);
    AdmittedAppend(s.restarts, r, c, date);
    if r.container == c {
      AdmittedComesLater(s, clock, r);
      assert f == r.recordedAt + RESTART_COOLDOWN;
      if Date(r.checkedAt) == date && n == 1 {
        DatesRise(e, r.checkedAt);
        assert false;
      }
    }
    DatesRise(e + (1 - n) * RESTART_COOLDOWN, f + (1 - m) * RESTART_COOLDOWN);
  }

  lemma HandledStaysSettled(s: State, clock: nat, start: nat, o: Observed, c: Name, date: nat)
    requires Settled(s, c, clock, date) && clock <= o.checkAt <= o.spendAt
    ensures Settled(Handled(s, start, o), c, o.spendAt, date)
  {
    HandledKeeps(s, clock, start, o);
    HandledRestarts(s, start, o);
    DatesRise(clock, o.spendAt);
    if Restarts(s, o) {
      NoNewStraddle(s.restarts, RestartOf(o), c, clock, date);
      if SomeStraddles(s.restarts, c, date) {
        RestartStaysTooLate(s, clock, RestartOf(o), c, date);
      }
    } else if SomeStraddles(s.restarts, c, date) {
      LaterTooLate(s.restarts, c, clock, o.spendAt, date);
    }
  }

  lemma LaterSettled(s: State, c: Name, clock: nat, later: nat, date: nat)
    requires Settled(s, c, clock, date) && clock <= later
    ensures Settled(s, c, later, date)
  {
    LaterKeeps(s, clock, later);
    DatesRise(clock, later);
    if SomeStraddles(s.restarts, c, date) {
      LaterTooLate(s.restarts, c, clock, later, date);
    }
  }

  lemma {:induction false} PassStaysSettled(s: State, clock: nat, start: nat, found: seq<Observed>, c: Name, date: nat)
    requires Settled(s, c, clock, date) && clock <= start && InTime(start, found)
    ensures Settled(AfterPass(s, start, found), c, EndOf(start, found), date)
  {
    if found == [] {
      LaterSettled(s, c, clock, start, date);
    } else {
      var front, o := found[..|found| - 1], found[|found| - 1];
      PassStaysSettled(s, clock, start, front, c, date);
      HandledStaysSettled(AfterPass(s, start, front), EndOf(start, front), start, o, c, date);
    }
  }

  lemma OrderlyFront(all: seq<Pass>)
    requires Orderly(all) && all != []
    ensures var front, last := all[..|all| - 1], all[|all| - 1];
            Orderly(front) && EndOfAll(front) <= last.start && InTime(last.start, last.found)
  {}

  lemma {:induction false} PassesStaySettled(all: seq<Pass>, j: nat, c: Name, date: nat)
    requires Orderly(all) && j <= |all| && Settled(AfterPasses(all[..j]), c, EndOfAll(all[..j]), date)
    ensures Settled(AfterPasses(all), c, EndOfAll(all), date)
    decreases |all|
  {
    if j == |all| {
      assert all[..j] == all;
    } else {
      var front, last := all[..|all| - 1], all[|all| - 1];
      OrderlyFront(all);
      assert front[..j] == all[..j];
      PassesStaySettled(front, j, c, date);
      PassStaysSettled(AfterPasses(front), EndOfAll(front), last.start, last.found, c, date);
    }
  }

  lemma SettledIsFew(s: State, c: Name, clock: nat, date: nat)
    requires Settled(s, c, clock, date)
    ensures RecordedOn(s.restarts, c, date) <= 2
  {
    RecordedVersusAdmitted(s.restarts, clock, c, date);
  }

  // ---- otherwise passes that find it down make three --------------------------------------------------------------------

  function Down(c: Name, checkAt: nat, spendAt: nat): Pass {
    Pass(checkAt, [Observed(Issue(ContainerBad(c), false, c), checkAt, spendAt)])
  }

  lemma OnePass(s: State, c: Name, checkAt: nat, spendAt: nat)
    requires Admits(Opened(s.budgets, c, checkAt), checkAt)
    ensures var p := Down(c, checkAt, spendAt);
            AfterPass(s, p.start, p.found) == Attempt(s, c, checkAt, spendAt)
  {
    var found := Down(c, checkAt, spendAt).found;
    assert found[..0] == [];
    assert AfterPass(s, checkAt, []) == s;
  }

  /** The passes so far, and one more that finds `c` down at `t` and restarts it. */
  lemma DownOnce(passes: seq<Pass>, c: Name, t: nat)
    requires Orderly(passes) && Earliest(AfterPasses(passes).restarts, c, EndOfAll(passes)) <= t
    requires AdmittedOn(AfterPasses(passes).restarts, c, Date(t)) < 2
    ensures var all := passes + [Down(c, t, t)];
            && Orderly(all) && EndOfAll(all) == t
            && AfterPasses(all).restarts == AfterPasses(passes).restarts + [Restart(c, t, t)]
  {
    var s, all := AfterPasses(passes), passes + [Down(c, t, t)];
    PassesKeep(passes);
    OpenedRemembers(s, EndOfAll(passes), c, t);
    OnePass(s, c, t, t);
    assert all[..|passes|] == passes && all[|passes|] == Down(c, t, t);
  }

  lemma RecordedAppend(restarts: seq<Restart>, r: Restart, c: Name, date: nat)
    ensures RecordedOn(restarts + [r], c, date)
         == RecordedOn(restarts, c, date) + (if r.container == c && Date(r.recordedAt) == date then 1 else 0)
  {
    assert (restarts + [r])[..|restarts|] == restarts;
  }

  /** One admitted today and one straddling, and the next check is still today. */
  lemma SecondFits(passes: seq<Pass>, c: Name, date: nat) returns (more: seq<Pass>)
    requires Orderly(passes) && RecordedOn(AfterPasses(passes).restarts, c, date) == 2
    requires AdmittedOn(AfterPasses(passes).restarts, c, date) == 1
    requires Date(Earliest(AfterPasses(passes).restarts, c, EndOfAll(passes))) == date
    ensures |more| == 1 && Orderly(passes + more) && RecordedOn(AfterPasses(passes + more).restarts, c, date) == 3
  {
    var t := Earliest(AfterPasses(passes).restarts, c, EndOfAll(passes));
    more := [Down(c, t, t)];
    DownOnce(passes, c, t);
    RecordedAppend(AfterPasses(passes).restarts, Restart(c, t, t), c, date);
  }

  /** None admitted today, and two checks are still today. */
  lemma BothFit(passes: seq<Pass>, c: Name, date: nat) returns (more: seq<Pass>)
    requires Orderly(passes) && RecordedOn(AfterPasses(passes).restarts, c, date) == 1
    requires AdmittedOn(AfterPasses(passes).restarts, c, date) == 0
    requires Date(EndOfAll(passes)) == date
    requires Date(Earliest(AfterPasses(passes).restarts, c, EndOfAll(passes)) + RESTART_COOLDOWN) == date
    ensures |more| == 2 && Orderly(passes + more) && RecordedOn(AfterPasses(passes + more).restarts, c, date) == 3
  {
    var t := Earliest(AfterPasses(passes).restarts, c, EndOfAll(passes));
    FirstFits(passes, c, date);
    var rest := SecondFits(passes + [Down(c, t, t)], c, date);
    more := [Down(c, t, t)] + rest;
    assert passes + more == passes + [Down(c, t, t)] + rest;
  }

  lemma FirstFits(passes: seq<Pass>, c: Name, date: nat)
    requires Orderly(passes) && RecordedOn(AfterPasses(passes).restarts, c, date) == 1
    requires AdmittedOn(AfterPasses(passes).restarts, c, date) == 0
    requires Date(EndOfAll(passes)) == date
    requires Date(Earliest(AfterPasses(passes).restarts, c, EndOfAll(passes)) + RESTART_COOLDOWN) == date
    ensures var t := Earliest(AfterPasses(passes).restarts, c, EndOfAll(passes));
            var all := passes + [Down(c, t, t)];
            && Orderly(all) && RecordedOn(AfterPasses(all).restarts, c, date) == 2
            && AdmittedOn(AfterPasses(all).restarts, c, date) == 1
            && Earliest(AfterPasses(all).restarts, c, EndOfAll(all)) == t + RESTART_COOLDOWN
  {
    var restarts := AfterPasses(passes).restarts;
    var t := Earliest(restarts, c, EndOfAll(passes));
    DatesRise(EndOfAll(passes), t);
    DatesRise(t, t + RESTART_COOLDOWN);
    DownOnce(passes, c, t);
    RecordedAppend(restarts, Restart(c, t, t), c, date);
    AdmittedAppend(restarts, Restart(c, t, t), c, date);
  }

  lemma UnsettledBreaks(passes: seq<Pass>, c: Name) returns (more: seq<Pass>)
    requires Orderly(passes) && !Settled(AfterPasses(passes), c, EndOfAll(passes), Date(EndOfAll(passes)))
    ensures Orderly(passes + more)
    ensures RecordedOn(AfterPasses(passes + more).restarts, c, Date(EndOfAll(passes))) == 3
  {
    var restarts, clock := AfterPasses(passes).restarts, EndOfAll(passes);
    var n := AdmittedOn(restarts, c, Date(clock));
    PassesKeep(passes);
    RecordedToday(restarts, clock, c);
    DatesRise(clock, Earliest(restarts, c, clock));
    DatesRise(clock, Earliest(restarts, c, clock) + RESTART_COOLDOWN);
    if n == 2 {
      more := [];
      assert passes + more == passes;
    } else if n == 1 {
      more := SecondFits(passes, c, Date(clock));
    } else {
      more := BothFit(passes, c, Date(clock));
    }
  }

  /** After any completed passes: no continuation by completed passes ever records a third restart of `c` on the
      present date exactly when none straddled into it, or fewer than two were admitted on it and it is too short
      for as many checks as would make two. */
  lemma TwoRecordedIff(passes: seq<Pass>, c: Name)
    requires Orderly(passes)
    ensures var restarts, clock := AfterPasses(passes).restarts, EndOfAll(passes);
            (forall more :: Orderly(passes + more) ==>
               RecordedOn(AfterPasses(passes + more).restarts, c, Date(clock)) <= 2)
            <==> !SomeStraddles(restarts, c, Date(clock)) || TooLate(restarts, c, clock, Date(clock))
  {
    var clock := EndOfAll(passes);
    PassesKeep(passes);
    if Settled(AfterPasses(passes), c, clock, Date(clock)) {
      forall more | Orderly(passes + more)
        ensures RecordedOn(AfterPasses(passes + more).restarts, c, Date(clock)) <= 2
      {
        assert (passes + more)[..|passes|] == passes;
        PassesStaySettled(passes + more, |passes|, c, Date(clock));
        SettledIsFew(AfterPasses(passes + more), c, EndOfAll(passes + more), Date(clock));
      }
    } else {
      var more := UnsettledBreaks(passes, c);
    }
  }

  // ---- three are reached ------------------------------------------------------------------------------------------------

  /** One pass that checks just before midnight and records at midnight. */
  function AtMidnight(c: Name): seq<Pass> {
    [Down(c, DAY - 1, DAY)]
  }

  ghost predicate ThreeAfter(passes: seq<Pass>, more: seq<Pass>, c: Name, date: nat) {
    Orderly(passes + more) && RecordedOn(AfterPasses(passes + more).restarts, c, date) == 3
  }

  /** The budget counts checks: a restart checked just before midnight and recorded just after it belongs to the
      old date, so three restarts can be recorded on one date. */
  lemma ThreeRecordedOnOneDate(c: Name)
    ensures exists more :: ThreeAfter(AtMidnight(c), more, c, 1)
  {
    var first := AtMidnight(c);
    FirstStraddles(c);
    RecordedAppend([], Restart(c, DAY - 1, DAY), c, 1);
    AdmittedAppend([], Restart(c, DAY - 1, DAY), c, 1);
    assert [] + [Restart(c, DAY - 1, DAY)] == [Restart(c, DAY - 1, DAY)];
    var more := BothFit(first, c, 1);
    assert ThreeAfter(first, more, c, 1);
  }

  lemma FirstStraddles(c: Name)
    ensures Orderly(AtMidnight(c)) && EndOfAll(AtMidnight(c)) == DAY
    ensures AfterPasses(AtMidnight(c)).restarts == [Restart(c, DAY - 1, DAY)]
  {
    var first := AtMidnight(c);
    OnePass(AfterPasses([]), c, DAY - 1, DAY);
    assert first[..0] == [] && [] + [Restart(c, DAY - 1, DAY)] == [Restart(c, DAY - 1, DAY)];
  }
}
