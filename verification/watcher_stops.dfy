/** Passes that stop before they save: the restarts they made are real, and the state file forgets them. */
module WatcherStops {
  import opened Options
  import opened Watcher

  /** A pass with the issues it got to; `saves` is false when it stopped before `save_state`. */
  datatype Run = Run(pass: Pass, saves: bool)

  /** The state file, the restarts really made, and those of them the file has forgotten. */
  datatype World = World(saved: State, made: seq<Restart>, lost: seq<Restart>)

  const START := World(State(map[], map[], [], []), [], [])

  /** What `t` has restarted beyond `s`. */
  function New(s: State, t: State): seq<Restart> {
    if |s.restarts| <= |t.restarts| then t.restarts[|s.restarts|..] else []
  }

  /** One issue, on the state in memory. */
  function HandledIn(w: World, start: nat, o: Observed): World {
    var t := Handled(w.saved, start, o);
    w.(saved := t, made := w.made + New(w.saved, t))
  }

  function PassIn(w: World, start: nat, found: seq<Observed>): World {
    if found == [] then w else HandledIn(PassIn(w, start, found[..|found| - 1]), start, found[|found| - 1])
  }

  function AfterOne(w: World, r: Run): World {
    var t := PassIn(w, r.pass.start, r.pass.found);
    if r.saves then t else World(w.saved, t.made, w.lost + New(w.saved, t.saved))
  }

  function AfterRuns(w: World, runs: seq<Run>): World {
    if runs == [] then w else AfterOne(AfterRuns(w, runs[..|runs| - 1]), runs[|runs| - 1])
  }

  // ---- the state file and the passes as the program runs them -----------------------------------------------------

  class Host {
    var file: State
    var made: seq<Restart>
    ghost var lost: seq<Restart>

    ghost function Now(): World
      reads this
    {
      World(file, made, lost)
    }

    constructor ()
      ensures Now() == START
    {
      file, made, lost := State(map[], map[], [], []), [], [];
    }

    /** `main`: load, handle every issue, save; a pass that stops has restarted and not saved. */
    method OnePass(r: Run)
      modifies this
      ensures Now() == AfterOne(old(Now()), r)
    {
      var watcher := new LogWatcher.Load(file);
      var fixed, notified, suppressed := watcher.RunPass(r.pass);
      SamePass(Now(), r.pass.start, r.pass.found);
      var more := New(file, watcher.Saved());
      made := made + more;
      if r.saves {
        file := watcher.Saved();
      } else {
        lost := lost + more;
      }
    }
  }

  lemma HandledGrows(s: State, start: nat, o: Observed)
    ensures s.restarts <= Handled(s, start, o).restarts
  {}

  /** The pass on worlds is the pass on states, with the new restarts added to the real ones. */
  lemma {:induction false} SamePass(w: World, start: nat, found: seq<Observed>)
    ensures var t := PassIn(w, start, found);
            && t.saved == AfterPass(w.saved, start, found)
            && w.saved.restarts <= t.saved.restarts
            && t.made == w.made + New(w.saved, t.saved) && t.lost == w.lost
  {
    if found != [] {
      SamePass(w, start, found[..|found| - 1]);
      HandledGrows(AfterPass(w.saved, start, found[..|found| - 1]), start, found[|found| - 1]);
    }
  }

  // ---- the clock -----------------------------------------------------------------------------------------------------

  ghost predicate OrderlyFrom(clock: nat, runs: seq<Run>) {
    && (forall i :: 0 <= i < |runs| ==> InTime(runs[i].pass.start, runs[i].pass.found))
    && (runs != [] ==> clock <= runs[0].pass.start)
    && (forall i :: 0 < i < |runs| ==> EndOf(runs[i - 1].pass.start, runs[i - 1].pass.found) <= runs[i].pass.start)
  }

  function ClockAfter(clock: nat, runs: seq<Run>): nat {
    if runs == [] then clock else EndOf(runs[|runs| - 1].pass.start, runs[|runs| - 1].pass.found)
  }

  ghost predicate AllSave(runs: seq<Run>) {
    forall i :: 0 <= i < |runs| ==> runs[i].saves
  }

  // ---- what is true of every world ------------------------------------------------------------------------------------

  function LaterOf(a: Option<nat>, b: Option<nat>): Option<nat> {
    if a.None? then b else if b.None? then a else if a.value <= b.value then b else a
  }

  /** The real restarts are the saved ones and the lost ones. */
  ghost predicate Accounted(w: World, c: Name) {
    && (forall date: nat :: AdmittedOn(w.made, c, date) == AdmittedOn(w.saved.restarts, c, date) + AdmittedOn(w.lost, c, date))
    && LastRestart(w.made, c) == LaterOf(LastRestart(w.saved.restarts, c), LastRestart(w.lost, c))
  }

  ghost predicate SameRestarts(w: World) {
    && (forall r :: r in w.saved.restarts ==> r in w.made)
    && (forall r :: r in w.made ==> r in w.saved.restarts || r in w.lost)
  }

  ghost predicate Sound(w: World, clock: nat) {
    && RestartInv(w.saved, clock) && AlertInv(w.saved)
    && RestartsRise(w.made, clock) && RestartsRise(w.lost, clock)
    && SameRestarts(w)
    && forall c: Name :: Accounted(w, c)
  }

  // ---- sequences of restarts --------------------------------------------------------------------------------------------

  lemma {:induction false} AdmittedConcat(a: seq<Restart>, b: seq<Restart>, c: Name, date: nat)
    ensures AdmittedOn(a + b, c, date) == AdmittedOn(a, c, date) + AdmittedOn(b, c, date)
  {
    if b == [] {
      assert a + b == a;
    } else {
      AdmittedConcat(a, b[..|b| - 1], c, date);
      assert (a + b)[..|a + b| - 1] == a + b[..|b| - 1];
    }
  }

  lemma {:induction false} LastConcat(a: seq<Restart>, b: seq<Restart>, c: Name)
    ensures LastRestart(a + b, c) == if LastRestart(b, c).Some? then LastRestart(b, c) else LastRestart(a, c)
  {
    if b == [] {
      assert a + b == a;
    } else {
      LastConcat(a, b[..|b| - 1], c);
      assert (a + b)[..|a + b| - 1] == a + b[..|b| - 1];
    }
  }

  /** The last restart is one of them, and nothing of the container comes after it. */
  lemma {:induction false} LastIsThere(restarts: seq<Restart>, c: Name) returns (k: nat)
    requires LastRestart(restarts, c).Some?
    ensures k < |restarts| && restarts[k].container == c && Some(restarts[k].recordedAt) == LastRestart(restarts, c)
    ensures forall j :: k < j < |restarts| ==> restarts[j].container != c
  {
    k := |restarts| - 1;
    if restarts[k].container != c {
      k := LastIsThere(restarts[..k], c);
    }
  }

  lemma {:induction false} NoneAfter(restarts: seq<Restart>, clock: nat, c: Name, date: nat)
    requires RestartsRise(restarts, clock) && Date(clock) < date
    ensures AdmittedOn(restarts, c, date) == 0
  {
    if restarts != [] {
      var last := |restarts| - 1;
      assert RestartsRise(restarts[..last], clock);
      NoneAfter(restarts[..last], clock, c, date);
      DatesRise(restarts[last].checkedAt, clock);
    }
  }

  lemma {:induction false} AdmittedMember(restarts: seq<Restart>, r: Restart)
    requires r in restarts
    ensures 1 <= AdmittedOn(restarts, r.container, Date(r.checkedAt))
  {
    var last := |restarts| - 1;
    if restarts[last] != r {
      assert restarts == restarts[..last] + [restarts[last]];
      AdmittedMember(restarts[..last], r);
    }
  }

  lemma {:induction false} AdmittedHasMember(restarts: seq<Restart>, c: Name, date: nat) returns (r: Restart)
    requires 1 <= AdmittedOn(restarts, c, date)
    ensures r in restarts && r.container == c && Date(r.checkedAt) == date
  {
    var last := |restarts| - 1;
    r := restarts[last];
    if r.container != c || Date(r.checkedAt) != date {
      r := AdmittedHasMember(restarts[..last], c, date);
    }
  }

  lemma RiseAppend(restarts: seq<Restart>, clock: nat, r: Restart)
    requires RestartsRise(restarts, clock) && clock <= r.checkedAt <= r.recordedAt
    ensures RestartsRise(restarts + [r], r.recordedAt)
  {}

  // ---- every run keeps it ------------------------------------------------------------------------------------------------

  lemma HandledNew(s: State, start: nat, o: Observed)
    ensures New(s, Handled(s, start, o)) == if Restarts(s, o) then [RestartOf(o)] else []
    ensures Handled(s, start, o).restarts == s.restarts + New(s, Handled(s, start, o))
  {}

  lemma HandledKeepsSound(w: World, clock: nat, start: nat, o: Observed)
    requires Sound(w, clock) && clock <= o.checkAt <= o.spendAt
    ensures Sound(HandledIn(w, start, o), o.spendAt)
  {
    var t := HandledIn(w, start, o);
    HandledKeeps(w.saved, clock, start, o);
    HandledNew(w.saved, start, o);
    if Restarts(w.saved, o) {
      RiseAppend(w.made, clock, RestartOf(o));
      forall c: Name ensures Accounted(t, c) { AppendAccounted(w, clock, RestartOf(o), t, c); }
    } else {
      assert t.made == w.made && t.saved.restarts == w.saved.restarts;
      forall c: Name ensures Accounted(t, c) { assert Accounted(w, c); }
    }
  }

  lemma AppendAccounted(w: World, clock: nat, r: Restart, t: World, c: Name)
    requires Accounted(w, c) && RestartsRise(w.lost, clock) && clock <= r.recordedAt
    requires t.saved.restarts == w.saved.restarts + [r] && t.made == w.made + [r] && t.lost == w.lost
    ensures Accounted(t, c)
  {
    forall date: nat
      ensures AdmittedOn(t.made, c, date) == AdmittedOn(t.saved.restarts, c, date) + AdmittedOn(t.lost, c, date)
    {
      AdmittedAppend(w.made, r, c, date);
      AdmittedAppend(w.saved.restarts, r, c, date);
    }
    AdmittedAppend(w.made, r, c, 0);
    AdmittedAppend(w.saved.restarts, r, c, 0);
    if LastRestart(w.lost, c).Some? {
      var k := LastIsThere(w.lost, c);
    }
  }

  lemma {:induction false} PassKeepsSound(w: World, clock: nat, start: nat, found: seq<Observed>)
    requires Sound(w, clock) && clock <= start && InTime(start, found)
    ensures Sound(PassIn(w, start, found), EndOf(start, found))
    ensures RestartsRise(New(w.saved, PassIn(w, start, found).saved), EndOf(start, found))
    ensures forall r :: r in New(w.saved, PassIn(w, start, found).saved) ==> start <= r.checkedAt <= r.recordedAt
  {
    if found == [] {
      LaterSound(w, clock, start);
    } else {
      var front, o := found[..|found| - 1], found[|found| - 1];
      PassKeepsSound(w, clock, start, front);
      HandledKeepsSound(PassIn(w, start, front), EndOf(start, front), start, o);
      OneMoreNew(w, start, front, o);
    }
  }

  lemma LaterSound(w: World, clock: nat, later: nat)
    requires Sound(w, clock) && clock <= later
    ensures Sound(w, later)
  {
    LaterKeeps(w.saved, clock, later);
  }

  lemma OneMoreNew(w: World, start: nat, front: seq<Observed>, o: Observed)
    requires RestartsRise(New(w.saved, PassIn(w, start, front).saved), EndOf(start, front))
    requires EndOf(start, front) <= o.checkAt <= o.spendAt
    ensures var more, s := New(w.saved, PassIn(w, start, front).saved), PassIn(w, start, front).saved;
            && New(w.saved, HandledIn(PassIn(w, start, front), start, o).saved)
               == more + (if Restarts(s, o) then [RestartOf(o)] else [])
            && RestartsRise(New(w.saved, HandledIn(PassIn(w, start, front), start, o).saved), o.spendAt)
  {
    var s := PassIn(w, start, front).saved;
    SamePass(w, start, front);
    HandledNew(s, start, o);
    if Restarts(s, o) {
      RiseAppend(New(w.saved, s), EndOf(start, front), RestartOf(o));
    }
  }

  lemma ConcatRise(a: seq<Restart>, b: seq<Restart>, clock: nat, start: nat, later: nat)
    requires RestartsRise(a, clock) && RestartsRise(b, later) && clock <= start <= later
    requires forall r :: r in b ==> start <= r.checkedAt <= r.recordedAt
    ensures RestartsRise(a + b, later)
  {
    forall j, k | 0 <= j < k < |a + b| ensures (a + b)[j].recordedAt <= (a + b)[k].recordedAt {
      if j < |a| <= k { assert b[k - |a|] in b; }
    }
  }

  lemma {:induction false} EndIsLater(start: nat, found: seq<Observed>)
    requires InTime(start, found)
    ensures start <= EndOf(start, found)
  {}

  lemma OneKeepsSound(w: World, clock: nat, r: Run)
    requires Sound(w, clock) && clock <= r.pass.start && InTime(r.pass.start, r.pass.found)
    ensures Sound(AfterOne(w, r), EndOf(r.pass.start, r.pass.found))
  {
    PassKeepsSound(w, clock, r.pass.start, r.pass.found);
    if !r.saves {
      StoppedKeepsSound(w, clock, r);
    }
  }

  lemma StoppedKeepsSound(w: World, clock: nat, r: Run)
    requires Sound(w, clock) && clock <= r.pass.start && InTime(r.pass.start, r.pass.found) && !r.saves
    requires Sound(PassIn(w, r.pass.start, r.pass.found), EndOf(r.pass.start, r.pass.found))
    requires RestartsRise(New(w.saved, PassIn(w, r.pass.start, r.pass.found).saved), EndOf(r.pass.start, r.pass.found))
    requires forall x :: x in New(w.saved, PassIn(w, r.pass.start, r.pass.found).saved) ==>
                           r.pass.start <= x.checkedAt <= x.recordedAt
    ensures Sound(AfterOne(w, r), EndOf(r.pass.start, r.pass.found))
  {
    var t, end := PassIn(w, r.pass.start, r.pass.found), EndOf(r.pass.start, r.pass.found);
    var more := New(w.saved, t.saved);
    SamePass(w, r.pass.start, r.pass.found);
    EndIsLater(r.pass.start, r.pass.found);
    LaterKeeps(w.saved, clock, end);
    ConcatRise(w.lost, more, clock, r.pass.start, end);
    forall c: Name ensures Accounted(AfterOne(w, r), c) { ConcatAccounted(w, clock, more, AfterOne(w, r), c); }
  }

  lemma ConcatAccounted(w: World, clock: nat, more: seq<Restart>, t: World, c: Name)
    requires Accounted(w, c) && RestartsRise(w.saved.restarts, clock)
    requires forall r :: r in more ==> clock <= r.recordedAt
    requires t.saved == w.saved && t.made == w.made + more && t.lost == w.lost + more
    ensures Accounted(t, c)
  {
    forall date: nat
      ensures AdmittedOn(t.made, c, date) == AdmittedOn(t.saved.restarts, c, date) + AdmittedOn(t.lost, c, date)
    {
      AdmittedConcat(w.made, more, c, date);
      AdmittedConcat(w.lost, more, c, date);
    }
    LastConcat(w.made, more, c);
    LastConcat(w.lost, more, c);
    if LastRestart(more, c).Some? {
      var k := LastIsThere(more, c);
      assert more[k] in more;
      if LastRestart(w.saved.restarts, c).Some? { var j := LastIsThere(w.saved.restarts, c); }
    }
  }

  lemma {:induction false} RunsKeepSound(w: World, clock: nat, runs: seq<Run>)
    requires Sound(w, clock) && OrderlyFrom(clock, runs)
    ensures Sound(AfterRuns(w, runs), ClockAfter(clock, runs))
  {
    if runs != [] {
      var front, last := runs[..|runs| - 1], runs[|runs| - 1];
      RunsKeepSound(w, clock, front);
      OneKeepsSound(AfterRuns(w, front), ClockAfter(clock, front), last);
    }
  }

  lemma StartIsSound()
    ensures Sound(START, 0)
  {
    forall c: Name ensures Remembers(START.saved, c) {}
    forall c: Name ensures Accounted(START, c) {}
  }

  // ---- a bound in the number of stopped passes -----------------------------------------------------------------------------

  function Stops(runs: seq<Run>): nat {
    if runs == [] then 0 else Stops(runs[..|runs| - 1]) + (if runs[|runs| - 1].saves then 0 else 1)
  }

  /** How often a pass finds `c` down. */
  function FoundDown(found: seq<Observed>, c: Name): nat {
    if found == [] then 0
    else FoundDown(found[..|found| - 1], c) + (if found[|found| - 1].issue.kind == ContainerBad(c) then 1 else 0)
  }

  lemma {:induction false} NewAtMostFound(s: State, start: nat, found: seq<Observed>, c: Name, date: nat)
    ensures AdmittedOn(AfterPass(s, start, found).restarts, c, date)
         <= AdmittedOn(s.restarts, c, date) + FoundDown(found, c)
  {
    if found != [] {
      var front, o := found[..|found| - 1], found[|found| - 1];
      NewAtMostFound(s, start, front, c, date);
      var t := AfterPass(s, start, front);
      HandledNew(t, start, o);
      if Restarts(t, o) { AdmittedAppend(t.restarts, RestartOf(o), c, date); }
    }
  }

  lemma StoppedLoses(w: World, clock: nat, r: Run, c: Name, date: nat)
    requires Sound(w, clock) && clock <= r.pass.start && InTime(r.pass.start, r.pass.found) && !r.saves
    ensures AdmittedOn(AfterOne(w, r).lost, c, date) <= AdmittedOn(w.lost, c, date) + 2
    ensures AdmittedOn(AfterOne(w, r).lost, c, date) <= AdmittedOn(w.lost, c, date) + FoundDown(r.pass.found, c)
  {
    PassKeepsSound(w, clock, r.pass.start, r.pass.found);
    SamePass(w, r.pass.start, r.pass.found);
    NewAtMostFound(w.saved, r.pass.start, r.pass.found, c, date);
    var t := PassIn(w, r.pass.start, r.pass.found);
    var more := New(w.saved, t.saved);
    assert t.saved.restarts == w.saved.restarts + more;
    AdmittedConcat(w.saved.restarts, more, c, date);
    AdmittedConcat(w.lost, more, c, date);
  }

  lemma {:induction false} LostBound(runs: seq<Run>, c: Name, date: nat, each: nat)
    requires OrderlyFrom(0, runs)
    requires each == 2 || (each == 1 && forall i :: 0 <= i < |runs| && !runs[i].saves ==> FoundDown(runs[i].pass.found, c) <= 1)
    ensures AdmittedOn(AfterRuns(START, runs).lost, c, date) <= each * Stops(runs)
  {
    if runs != [] {
      var front, last := runs[..|runs| - 1], runs[|runs| - 1];
      LostBound(front, c, date, each);
      StartIsSound();
      RunsKeepSound(START, 0, front);
      if !last.saves {
        StoppedLoses(AfterRuns(START, front), ClockAfter(0, front), last, c, date);
      } else {
        SamePass(AfterRuns(START, front), last.pass.start, last.pass.found);
      }
    }
  }

  /** With stopped passes the real restarts of a container admitted on one date are at most two and two more for
      every stopped pass; at most one more for each, when no stopped pass finds the container down twice. */
  lemma StoppedBound(runs: seq<Run>, c: Name, date: nat)
    requires OrderlyFrom(0, runs)
    ensures AdmittedOn(AfterRuns(START, runs).made, c, date) <= MAX_RESTARTS_PER_DAY + 2 * Stops(runs)
    ensures (forall i :: 0 <= i < |runs| && !runs[i].saves ==> FoundDown(runs[i].pass.found, c) <= 1) ==>
              AdmittedOn(AfterRuns(START, runs).made, c, date) <= MAX_RESTARTS_PER_DAY + Stops(runs)
  {
    StartIsSound();
    RunsKeepSound(START, 0, runs);
    assert Accounted(AfterRuns(START, runs), c);
    LostBound(runs, c, date, 2);
    if forall i :: 0 <= i < |runs| && !runs[i].saves ==> FoundDown(runs[i].pass.found, c) <= 1 {
      LostBound(runs, c, date, 1);
    }
  }

  // ---- exactly when the budget still holds ------------------------------------------------------------------------------------

  /** The limits, of the real restarts. */
  ghost predicate Limits(made: seq<Restart>) {
    NeverThree(made) && Spaced(made)
  }

  /** The earliest check the state file lets through. */
  function Earliest(w: World, c: Name, clock: nat): nat {
    Watcher.Earliest(w.saved.restarts, c, clock)
  }

  /** The earliest check of what would really be the third restart admitted on this date. */
  function ThirdCheck(w: World, c: Name, clock: nat): nat {
    var n := AdmittedOn(w.made, c, Date(clock));
    Earliest(w, c, clock) + (if n <= 2 then (2 - n) * RESTART_COOLDOWN else 0)
  }

  /** What the file has forgotten of `c` no longer matters: the last lost restart is half an hour old or an even
      later one is on file, and if a restart admitted today is lost, no third one fits into the day. */
  ghost predicate Harmless(w: World, c: Name, clock: nat) {
    && (match LastRestart(w.lost, c)
        case None => true
        case Some(lost) =>
          lost + RESTART_COOLDOWN <= clock
          || (LastRestart(w.saved.restarts, c).Some? && lost <= LastRestart(w.saved.restarts, c).value))
    && (AdmittedOn(w.lost, c, Date(clock)) == 0 || Date(clock) < Date(ThirdCheck(w, c, clock)))
  }

  ghost predicate Within(w: World, clock: nat) {
    Sound(w, clock) && Limits(w.made) && forall c: Name :: Harmless(w, c, clock)
  }

  lemma EarlierDate(t: nat, u: nat, v: nat)
    requires t <= u && Date(v) < Date(t)
    ensures Date(v) < Date(u)
  {
    DatesRise(t, u);
  }

  /** Time passes, and nothing is restarted. */
  lemma LaterHarmless(w: World, clock: nat, later: nat, c: Name)
    requires Sound(w, clock) && clock <= later && Harmless(w, c, clock)
    ensures Harmless(w, c, later)
  {
    DatesRise(clock, later);
    if Date(clock) < Date(later) {
      NoneAfter(w.lost, clock, c, Date(later));
    } else if AdmittedOn(w.lost, c, Date(clock)) != 0 {
      EarlierDate(ThirdCheck(w, c, clock), ThirdCheck(w, c, later), clock);
    }
  }

  /** A restart the file admits is one the real restarts allow. */
  lemma AdmittedIsReal(w: World, clock: nat, r: Restart)
    requires Within(w, clock) && clock <= r.checkedAt <= r.recordedAt
    requires Admits(Opened(w.saved.budgets, r.container, r.checkedAt), r.checkedAt)
    ensures AdmittedOn(w.made, r.container, Date(r.checkedAt)) < 2
    ensures forall j :: 0 <= j < |w.made| && w.made[j].container == r.container ==>
                          r.checkedAt - w.made[j].recordedAt >= RESTART_COOLDOWN
  {
    var c, now := r.container, r.checkedAt;
    OpenedRemembers(w.saved, clock, c, now);
    assert Accounted(w, c) && Harmless(w, c, clock);
    DatesRise(clock, now);
    if Date(clock) < Date(now) {
      NoneAfter(w.made, clock, c, Date(now));
    } else if AdmittedOn(w.lost, c, Date(clock)) != 0 {
      AdmittedIsEarly(w, clock, r);
    }
    forall j | 0 <= j < |w.made| && w.made[j].container == c ensures now - w.made[j].recordedAt >= RESTART_COOLDOWN {
      LastIsLatest(w.made, clock, j);
    }
  }

  lemma AdmittedIsEarly(w: World, clock: nat, r: Restart)
    requires Within(w, clock) && clock <= r.checkedAt && Date(r.checkedAt) == Date(clock)
    requires Admits(Opened(w.saved.budgets, r.container, r.checkedAt), r.checkedAt)
    requires AdmittedOn(w.lost, r.container, Date(clock)) != 0
    ensures AdmittedOn(w.made, r.container, Date(clock)) < 2
    ensures Earliest(w, r.container, clock) <= r.checkedAt
  {
    OpenedRemembers(w.saved, clock, r.container, r.checkedAt);
    assert Harmless(w, r.container, clock);
    if AdmittedOn(w.made, r.container, Date(clock)) == 2 {
      DatesRise(ThirdCheck(w, r.container, clock), r.checkedAt);
    }
  }

  lemma RestartKeepsLimits(w: World, clock: nat, r: Restart)
    requires Within(w, clock) && clock <= r.checkedAt <= r.recordedAt
    requires Admits(Opened(w.saved.budgets, r.container, r.checkedAt), r.checkedAt)
    ensures Limits(w.made + [r])
  {
    AdmittedIsReal(w, clock, r);
    forall c: Name, date: nat ensures AdmittedOn(w.made + [r], c, date) <= MAX_RESTARTS_PER_DAY {
      AdmittedAppend(w.made, r, c, date);
    }
  }

  lemma RestartKeepsHarmless(w: World, clock: nat, r: Restart, t: World, c: Name)
    requires Within(w, clock) && clock <= r.checkedAt <= r.recordedAt
    requires Admits(Opened(w.saved.budgets, r.container, r.checkedAt), r.checkedAt)
    requires t.saved.restarts == w.saved.restarts + [r] && t.made == w.made + [r] && t.lost == w.lost
    ensures Harmless(t, c, r.recordedAt)
  {
    AdmittedAppend(w.saved.restarts, r, c, 0);
    AdmittedAppend(w.made, r, c, Date(r.recordedAt));
    if c == r.container {
      if LastRestart(w.lost, c).Some? { var k := LastIsThere(w.lost, c); }
      RestartKeepsDay(w, clock, r, t);
    } else {
      assert Harmless(w, c, clock);
      LaterHarmless(w, clock, r.recordedAt, c);
    }
  }

  /** Of the restarted container: on the same date the third check has moved on by as much as one restart less
      leaves to wait. */
  lemma RestartKeepsDay(w: World, clock: nat, r: Restart, t: World)
    requires Within(w, clock) && clock <= r.checkedAt <= r.recordedAt
    requires Admits(Opened(w.saved.budgets, r.container, r.checkedAt), r.checkedAt)
    requires t.saved.restarts == w.saved.restarts + [r] && t.made == w.made + [r] && t.lost == w.lost
    ensures var c, end := r.container, r.recordedAt;
            AdmittedOn(t.lost, c, Date(end)) == 0 || Date(end) < Date(ThirdCheck(t, c, end))
  {
    var c, end := r.container, r.recordedAt;
    assert Harmless(w, c, clock);
    DatesRise(clock, r.checkedAt);
    DatesRise(r.checkedAt, end);
    if Date(clock) < Date(end) {
      NoneAfter(w.lost, clock, c, Date(end));
    } else if AdmittedOn(w.lost, c, Date(clock)) != 0 {
      AdmittedIsEarly(w, clock, r);
      AdmittedAppend(w.saved.restarts, r, c, 0);
      AdmittedAppend(w.made, r, c, Date(clock));
      EarlierDate(ThirdCheck(w, c, clock), ThirdCheck(t, c, end), clock);
    }
  }

  lemma HandledKeepsWithin(w: World, clock: nat, start: nat, o: Observed)
    requires Within(w, clock) && clock <= o.checkAt <= o.spendAt
    ensures Within(HandledIn(w, start, o), o.spendAt)
  {
    var t := HandledIn(w, start, o);
    HandledKeepsSound(w, clock, start, o);
    HandledNew(w.saved, start, o);
    if Restarts(w.saved, o) {
      RestartKeepsLimits(w, clock, RestartOf(o));
      forall c: Name ensures Harmless(t, c, o.spendAt) { RestartKeepsHarmless(w, clock, RestartOf(o), t, c); }
    } else {
      assert t.made == w.made && t.saved.restarts == w.saved.restarts;
      forall c: Name ensures Harmless(t, c, o.spendAt) { LaterHarmless(w, clock, o.spendAt, c); }
    }
  }

  lemma {:induction false} PassKeepsWithin(w: World, clock: nat, start: nat, found: seq<Observed>)
    requires Within(w, clock) && clock <= start && InTime(start, found)
    ensures Within(PassIn(w, start, found), EndOf(start, found))
  {
    if found == [] {
      LaterSound(w, clock, start);
      forall c: Name ensures Harmless(w, c, start) { LaterHarmless(w, clock, start, c); }
    } else {
      var front, o := found[..|found| - 1], found[|found| - 1];
      PassKeepsWithin(w, clock, start, front);
      HandledKeepsWithin(PassIn(w, start, front), EndOf(start, front), start, o);
    }
  }

  lemma {:induction false} RunsKeepWithin(w: World, clock: nat, runs: seq<Run>)
    requires Within(w, clock) && OrderlyFrom(clock, runs) && AllSave(runs)
    ensures Within(AfterRuns(w, runs), ClockAfter(clock, runs))
  {
    if runs != [] {
      var front, last := runs[..|runs| - 1], runs[|runs| - 1];
      RunsKeepWithin(w, clock, front);
      PassKeepsWithin(AfterRuns(w, front), ClockAfter(clock, front), last.pass.start, last.pass.found);
    }
  }

  // ---- otherwise a completed pass breaks the limits -------------------------------------------------------------------------------

  function Down(c: Name, t: nat): Run {
    Run(Pass(t, [Observed(Issue(ContainerBad(c), false, c), t, t)]), true)
  }

  /** A pass that finds `c` down when the file lets it restart. */
  lemma DownRestarts(w: World, clock: nat, c: Name, t: nat)
    requires Sound(w, clock) && clock <= t && Admits(Opened(w.saved.budgets, c, t), t)
    ensures var u, r := AfterOne(w, Down(c, t)), Restart(c, t, t);
            u.made == w.made + [r] && u.saved.restarts == w.saved.restarts + [r] && u.lost == w.lost && Sound(u, t)
  {
    var found := Down(c, t).pass.found;
    assert found[..0] == [];
    assert PassIn(w, t, found) == HandledIn(w, t, found[0]);
    HandledNew(w.saved, t, found[0]);
    OneKeepsSound(w, clock, Down(c, t));
  }

  ghost predicate Breaks(w: World, clock: nat, runs: seq<Run>) {
    AllSave(runs) && OrderlyFrom(clock, runs) && !Limits(AfterRuns(w, runs).made)
  }

  lemma OneRun(w: World, r: Run)
    ensures AfterRuns(w, [r]) == AfterOne(w, r)
  {
    assert [r][..0] == [];
  }

  lemma TwoRuns(w: World, r: Run, q: Run)
    ensures AfterRuns(w, [r, q]) == AfterOne(AfterOne(w, r), q)
  {
    assert [r, q][..1] == [r];
    OneRun(w, r);
  }

  /** The last lost restart is recent and the file knows of no later one: the file admits another at once. */
  lemma RecentLossBreaks(w: World, clock: nat, c: Name) returns (runs: seq<Run>)
    requires Sound(w, clock) && Limits(w.made) && LastRestart(w.lost, c).Some?
    requires clock < LastRestart(w.lost, c).value + RESTART_COOLDOWN
    requires LastRestart(w.saved.restarts, c).Some? ==>
               LastRestart(w.saved.restarts, c).value < LastRestart(w.lost, c).value
    ensures Breaks(w, clock, runs)
  {
    FileAdmits(w, clock, c);
    DownRestarts(w, clock, c, clock);
    OneRun(w, Down(c, clock));
    DownIsOrderly(clock, c, clock);
    runs := [Down(c, clock)];
    assert Accounted(w, c);
    var k := LastIsThere(w.made, c);
    TooSoon(w.made, k, Restart(c, clock, clock));
  }

  lemma TooSoon(made: seq<Restart>, k: nat, r: Restart)
    requires k < |made| && made[k].container == r.container && r.checkedAt - made[k].recordedAt < RESTART_COOLDOWN
    ensures !Limits(made + [r])
  {
    assert (made + [r])[k] == made[k] && (made + [r])[|made|] == r;
  }

  lemma FileAdmits(w: World, clock: nat, c: Name)
    requires Sound(w, clock) && Limits(w.made) && LastRestart(w.lost, c).Some?
    requires LastRestart(w.saved.restarts, c).Some? ==>
               LastRestart(w.saved.restarts, c).value < LastRestart(w.lost, c).value
    ensures Admits(Opened(w.saved.budgets, c, clock), clock)
  {
    OpenedRemembers(w.saved, clock, c, clock);
    assert Accounted(w, c);
    var k := LastIsThere(w.made, c);
    if LastRestart(w.saved.restarts, c).Some? {
      var i := LastIsThere(w.saved.restarts, c);
      BeforeTheLast(w, clock, c, k, w.saved.restarts[i]);
    }
    if 1 <= AdmittedOn(w.saved.restarts, c, Date(clock)) {
      LostToday(w, clock, c, k);
    }
  }

  /** A restart on file came before the last real one, which is lost, and well before its check. */
  lemma BeforeTheLast(w: World, clock: nat, c: Name, k: nat, r: Restart)
    requires Sound(w, clock) && Limits(w.made) && r in w.saved.restarts && r.container == c
    requires k < |w.made| && w.made[k].container == c && forall j :: k < j < |w.made| ==> w.made[j].container != c
    requires LastRestart(w.saved.restarts, c).Some? && LastRestart(w.saved.restarts, c).value < w.made[k].recordedAt
    ensures r.recordedAt + RESTART_COOLDOWN <= w.made[k].checkedAt
  {
    var i :| 0 <= i < |w.saved.restarts| && w.saved.restarts[i] == r;
    LastIsLatest(w.saved.restarts, clock, i);
    var j :| 0 <= j < |w.made| && w.made[j] == r;
    assert j < k;
  }

  /** If a restart of today is on file, the last one, which is lost, is of today as well. */
  lemma LostToday(w: World, clock: nat, c: Name, k: nat)
    requires Sound(w, clock) && Limits(w.made) && 1 <= AdmittedOn(w.saved.restarts, c, Date(clock))
    requires k < |w.made| && w.made[k].container == c && forall j :: k < j < |w.made| ==> w.made[j].container != c
    requires LastRestart(w.saved.restarts, c).Some? ==> LastRestart(w.saved.restarts, c).value < w.made[k].recordedAt
    ensures 1 <= AdmittedOn(w.lost, c, Date(clock))
  {
    var r := AdmittedHasMember(w.saved.restarts, c, Date(clock));
    var i :| 0 <= i < |w.saved.restarts| && w.saved.restarts[i] == r;
    LastIsLatest(w.saved.restarts, clock, i);
    BeforeTheLast(w, clock, c, k, r);
    DatesRise(r.checkedAt, w.made[k].checkedAt);
    DatesRise(w.made[k].checkedAt, clock);
    LastIsLost(w, clock, c, k);
    AdmittedMember(w.lost, w.made[k]);
  }

  lemma LastIsLost(w: World, clock: nat, c: Name, k: nat)
    requires Sound(w, clock) && k < |w.made| && w.made[k].container == c
    requires LastRestart(w.saved.restarts, c).Some? ==> LastRestart(w.saved.restarts, c).value < w.made[k].recordedAt
    ensures w.made[k] in w.lost
  {
    if w.made[k] in w.saved.restarts {
      var i :| 0 <= i < |w.saved.restarts| && w.saved.restarts[i] == w.made[k];
      LastIsLatest(w.saved.restarts, clock, i);
    }
  }

  /** The file lets a restart through at the earliest check if that is today and fewer than two are on file. */
  lemma EarliestAdmits(w: World, clock: nat, c: Name)
    requires Sound(w, clock) && Date(Earliest(w, c, clock)) == Date(clock)
    requires AdmittedOn(w.saved.restarts, c, Date(clock)) < 2
    ensures var e := Earliest(w, c, clock); clock <= e && Admits(Opened(w.saved.budgets, c, e), e)
  {
    OpenedRemembers(w.saved, clock, c, Earliest(w, c, clock));
  }

  lemma ThreeBreak(made: seq<Restart>, r: Restart, date: nat)
    requires AdmittedOn(made, r.container, date) == 2 && Date(r.checkedAt) == date
    ensures !Limits(made + [r])
  {
    AdmittedAppend(made, r, r.container, date);
  }

  /** Two real restarts today, one of them lost: the next is the third. */
  lemma OneTooMany(w: World, clock: nat, c: Name)
    requires Sound(w, clock) && AdmittedOn(w.made, c, Date(clock)) == 2 && AdmittedOn(w.lost, c, Date(clock)) != 0
    requires Date(Earliest(w, c, clock)) == Date(clock)
    ensures !Limits(AfterOne(w, Down(c, Earliest(w, c, clock))).made)
  {
    var e := Earliest(w, c, clock);
    assert Accounted(w, c);
    EarliestAdmits(w, clock, c);
    DownRestarts(w, clock, c, e);
    ThreeBreak(w.made, Restart(c, e, e), Date(clock));
  }

  lemma FirstOfTwo(w: World, clock: nat, c: Name)
    requires Sound(w, clock) && AdmittedOn(w.saved.restarts, c, Date(clock)) == 0
    requires AdmittedOn(w.made, c, Date(clock)) == 1 && Date(Earliest(w, c, clock)) == Date(clock)
    ensures var e := Earliest(w, c, clock);
            var u := AfterOne(w, Down(c, e));
            && Sound(u, e) && u.lost == w.lost && Earliest(u, c, e) == e + RESTART_COOLDOWN
            && AdmittedOn(u.made, c, Date(e)) == 2
  {
    var e := Earliest(w, c, clock);
    EarliestAdmits(w, clock, c);
    DownRestarts(w, clock, c, e);
    AdmittedAppend(w.saved.restarts, Restart(c, e, e), c, Date(clock));
    AdmittedAppend(w.made, Restart(c, e, e), c, Date(clock));
  }

  /** One real restart today, and it is lost: two more fit into the day. */
  lemma TwoTooMany(w: World, clock: nat, c: Name)
    requires Sound(w, clock) && AdmittedOn(w.made, c, Date(clock)) == 1 && AdmittedOn(w.lost, c, Date(clock)) != 0
    requires Date(Earliest(w, c, clock) + RESTART_COOLDOWN) == Date(clock)
    ensures var e := Earliest(w, c, clock);
            !Limits(AfterOne(AfterOne(w, Down(c, e)), Down(c, e + RESTART_COOLDOWN)).made)
  {
    var e := Earliest(w, c, clock);
    SameDay(clock, e);
    LostIsAll(w, c, Date(clock));
    FirstOfTwo(w, clock, c);
    OneTooMany(AfterOne(w, Down(c, e)), e, c);
  }

  lemma SameDay(clock: nat, e: nat)
    requires clock <= e && Date(e + RESTART_COOLDOWN) == Date(clock)
    ensures Date(e) == Date(clock)
  {
    DatesRise(clock, e);
    DatesRise(e, e + RESTART_COOLDOWN);
  }

  lemma LostIsAll(w: World, c: Name, date: nat)
    requires Accounted(w, c) && AdmittedOn(w.made, c, date) == 1 && AdmittedOn(w.lost, c, date) != 0
    ensures AdmittedOn(w.saved.restarts, c, date) == 0
  {}

  lemma DownIsOrderly(clock: nat, c: Name, t: nat)
    requires clock <= t
    ensures OrderlyFrom(clock, [Down(c, t)]) && AllSave([Down(c, t)])
    ensures OrderlyFrom(clock, [Down(c, t), Down(c, t + RESTART_COOLDOWN)])
    ensures AllSave([Down(c, t), Down(c, t + RESTART_COOLDOWN)])
  {}

  lemma HarmfulBreaks(w: World, clock: nat, c: Name) returns (runs: seq<Run>)
    requires Sound(w, clock) && Limits(w.made) && !Harmless(w, c, clock)
    ensures Breaks(w, clock, runs)
  {
    assert Accounted(w, c);
    if LastRestart(w.lost, c).Some? && clock < LastRestart(w.lost, c).value + RESTART_COOLDOWN
       && (LastRestart(w.saved.restarts, c).Some? ==>
             LastRestart(w.saved.restarts, c).value < LastRestart(w.lost, c).value) {
      runs := RecentLossBreaks(w, clock, c);
    } else {
      DatesRise(clock, ThirdCheck(w, c, clock));
      runs := LossOfTodayBreaks(w, clock, c);
    }
  }

  lemma LossOfTodayBreaks(w: World, clock: nat, c: Name) returns (runs: seq<Run>)
    requires Sound(w, clock) && Accounted(w, c)
    requires AdmittedOn(w.made, c, Date(clock)) <= 2 && AdmittedOn(w.lost, c, Date(clock)) != 0
    requires Date(ThirdCheck(w, c, clock)) == Date(clock)
    ensures Breaks(w, clock, runs)
  {
    var e := Earliest(w, c, clock);
    if AdmittedOn(w.made, c, Date(clock)) == 2 {
      OneTooMany(w, clock, c);
      runs := [Down(c, e)];
      OneDownBreaks(w, clock, c, e);
    } else {
      TwoTooMany(w, clock, c);
      runs := [Down(c, e), Down(c, e + RESTART_COOLDOWN)];
      TwoDownBreak(w, clock, c, e);
    }
  }

  lemma OneDownBreaks(w: World, clock: nat, c: Name, e: nat)
    requires clock <= e && !Limits(AfterOne(w, Down(c, e)).made)
    ensures Breaks(w, clock, [Down(c, e)])
  {
    DownIsOrderly(clock, c, e);
    OneRun(w, Down(c, e));
  }

  lemma TwoDownBreak(w: World, clock: nat, c: Name, e: nat)
    requires clock <= e && !Limits(AfterOne(AfterOne(w, Down(c, e)), Down(c, e + RESTART_COOLDOWN)).made)
    ensures Breaks(w, clock, [Down(c, e), Down(c, e + RESTART_COOLDOWN)])
  {
    DownIsOrderly(clock, c, e);
    TwoRuns(w, Down(c, e), Down(c, e + RESTART_COOLDOWN));
  }

  /** After any run with stopped passes in which the limits have held of the real restarts, they hold in every
      continuation by completed passes exactly when what the file has forgotten no longer matters: the last lost
      restart of each container is half an hour old or followed by one on file, and where a restart of today is
      lost, the day is too short for a third. */
  lemma LimitsHoldIffHarmless(runs: seq<Run>)
    requires OrderlyFrom(0, runs) && Limits(AfterRuns(START, runs).made)
    ensures var w, clock := AfterRuns(START, runs), ClockAfter(0, runs);
            (forall more :: AllSave(more) && OrderlyFrom(clock, more) ==> Limits(AfterRuns(w, more).made))
            <==> (forall c: Name :: Harmless(w, c, clock))
  {
    var w, clock := AfterRuns(START, runs), ClockAfter(0, runs);
    StartIsSound();
    RunsKeepSound(START, 0, runs);
    if forall c: Name :: Harmless(w, c, clock) {
      forall more | AllSave(more) && OrderlyFrom(clock, more) ensures Limits(AfterRuns(w, more).made) {
        RunsKeepWithin(w, clock, more);
      }
    } else {
      var c: Name :| !Harmless(w, c, clock);
      var more := HarmfulBreaks(w, clock, c);
      assert AllSave(more) && OrderlyFrom(clock, more);
    }
  }

  /** One stopped pass is enough: the restart it made is forgotten, and the limits so far still hold. */
  lemma StoppedPassForgets(c: Name, t: nat)
    ensures OrderlyFrom(0, [Stopped(c, t)]) && ClockAfter(0, [Stopped(c, t)]) == t
    ensures AfterRuns(START, [Stopped(c, t)]) == World(START.saved, [Restart(c, t, t)], [Restart(c, t, t)])
    ensures Limits([Restart(c, t, t)]) && !Harmless(AfterRuns(START, [Stopped(c, t)]), c, t)
  {
    StoppedIsOrderly(c, t);
    FirstStops(c, t);
    OneRestartIsFew(Restart(c, t, t));
    FirstIsLost(c, t);
  }

  lemma StoppedIsOrderly(c: Name, t: nat)
    ensures OrderlyFrom(0, [Stopped(c, t)]) && ClockAfter(0, [Stopped(c, t)]) == t
  {}

  lemma FirstIsLost(c: Name, t: nat)
    ensures !Harmless(World(START.saved, [Restart(c, t, t)], [Restart(c, t, t)]), c, t)
  {
    OneRestartIsFew(Restart(c, t, t));
    JustLost(World(START.saved, [Restart(c, t, t)], [Restart(c, t, t)]), c, t);
  }

  function Stopped(c: Name, t: nat): Run {
    Down(c, t).(saves := false)
  }

  lemma FirstStops(c: Name, t: nat)
    ensures AfterRuns(START, [Stopped(c, t)]) == World(START.saved, [Restart(c, t, t)], [Restart(c, t, t)])
  {
    OneRun(START, Stopped(c, t));
    StoppedDown(START, c, t);
    assert [] + [Restart(c, t, t)] == [Restart(c, t, t)];
  }

  lemma JustLost(w: World, c: Name, t: nat)
    requires LastRestart(w.lost, c) == Some(t) && LastRestart(w.saved.restarts, c) == None
    ensures !Harmless(w, c, t)
  {}

  lemma StoppedDown(w: World, c: Name, t: nat)
    requires Admits(Opened(w.saved.budgets, c, t), t)
    ensures AfterOne(w, Stopped(c, t))
         == World(w.saved, w.made + [Restart(c, t, t)], w.lost + [Restart(c, t, t)])
  {
    var found := Down(c, t).pass.found;
    assert found[..0] == [];
    assert PassIn(w, t, found) == HandledIn(w, t, found[0]);
    HandledNew(w.saved, t, found[0]);
  }

  lemma OneRestartIsFew(r: Restart)
    ensures Limits([r]) && LastRestart([r], r.container) == Some(r.recordedAt)
  {
    assert [r][..0] == [];
    forall c: Name, date: nat ensures AdmittedOn([r], c, date) <= MAX_RESTARTS_PER_DAY {
      AdmittedAppend([], r, c, date);
      assert [] + [r] == [r];
    }
  }

  lemma {:induction false} LosslessIsSaved(runs: seq<Run>)
    requires AfterRuns(START, runs).lost == []
    ensures AfterRuns(START, runs).made == AfterRuns(START, runs).saved.restarts
  {
    if runs != [] {
      var front, last := runs[..|runs| - 1], runs[|runs| - 1];
      OneLossless(AfterRuns(START, front), last);
      LosslessIsSaved(front);
    }
  }

  lemma OneLossless(w: World, r: Run)
    requires AfterOne(w, r).lost == []
    ensures w.lost == [] && (w.made == w.saved.restarts ==> AfterOne(w, r).made == AfterOne(w, r).saved.restarts)
  {
    var t := PassIn(w, r.pass.start, r.pass.found);
    SamePass(w, r.pass.start, r.pass.found);
    assert t.saved.restarts == w.saved.restarts + New(w.saved, t.saved);
  }

  /** While no stopped pass has restarted anything the limits hold, however many passes stop. */
  lemma LosslessKeepsLimits(runs: seq<Run>)
    requires OrderlyFrom(0, runs) && AfterRuns(START, runs).lost == []
    ensures Limits(AfterRuns(START, runs).made)
  {
    StartIsSound();
    RunsKeepSound(START, 0, runs);
    LosslessIsSaved(runs);
  }
}
