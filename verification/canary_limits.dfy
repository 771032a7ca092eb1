/** Where the canary's promises stop: what it takes on trust, and what its documentation says that its
    code does not do. */
module CanaryLimits {
  import opened Options
  import opened Orders
  import opened Canary
  import opened CanarySafety

  // ---- a lock file removed under a live process ------------------------------------------------------------

  /** The lock's one assumption: the operator removes a lock file only when nothing runs.  `Careless` runs
      drop exactly that. */
  predicate CarelessEnabled(s: State, step: Step) {
    step == OperatorClears || Enabled(s, step)
  }

  function CarelessApply(s: State, step: Step): State
    requires CarelessEnabled(s, step)
  {
    if step == OperatorClears then s.(lock := None) else Apply(s, step)
  }

  predicate CarelessRuns(s: State, steps: seq<Step>)
    decreases |steps|
  {
    |steps| == 0 || (CarelessEnabled(s, steps[0]) && CarelessRuns(CarelessApply(s, steps[0]), steps[1..]))
  }

  function CarelessAfter(s: State, steps: seq<Step>): State
    requires CarelessRuns(s, steps)
    decreases |steps|
  {
    if |steps| == 0 then s else CarelessAfter(CarelessApply(s, steps[0]), steps[1..])
  }

  lemma CarelessCons(s: State, step: Step, rest: seq<Step>)
    requires CarelessEnabled(s, step) && CarelessRuns(CarelessApply(s, step), rest)
    ensures CarelessRuns(s, [step] + rest)
    ensures CarelessAfter(s, [step] + rest) == CarelessAfter(CarelessApply(s, step), rest)
  {
    assert ([step] + rest)[1..] == rest;
  }

  lemma {:induction false} CarelessConcat(s: State, first: seq<Step>, second: seq<Step>)
    requires CarelessRuns(s, first) && CarelessRuns(CarelessAfter(s, first), second)
    ensures CarelessRuns(s, first + second)
    ensures CarelessAfter(s, first + second) == CarelessAfter(CarelessAfter(s, first), second)
    decreases |first|
  {
    if |first| == 0 {
      assert first + second == second;
    } else {
      CarelessConcat(CarelessApply(s, first[0]), first[1..], second);
      assert first + second == [first[0]] + (first[1..] + second);
      CarelessCons(s, first[0], first[1..] + second);
    }
  }

  /** `s` with process `p` holding the lock in the given place. */
  function With(s: State, p: nat, proc: Process, saved: Option<Saved>): State {
    s.(procs := s.procs[p := proc], lock := Some(p), saved := saved)
  }

  /** The checkpoint a process works on after `load` and `record_step("A1")`. */
  function Opened(s: State): Saved {
    (if s.saved.Some? then s.saved.value else Saved(7, None, {})).Record(A1)
  }

  /** The part of a run that opens the checkpoint and finds that A2 has no order yet. */
  function ToFind(p: nat): seq<Step> {
    [Enter(p, false), Act(p, Load(7)), Act(p, Preconditions), Act(p, RecordA1)]
  }

  function FromFind(p: nat): seq<Step> {
    [Act(p, FindA2), Act(p, SnapshotA2), Act(p, IntentA2)]
  }

  lemma OpensCheckpoint(s: State, p: nat)
    requires s.lock == None && p !in s.procs && s.loss == ReductionOnly && 0.0 < s.brokerPos
    requires s.saved.Some? ==> !s.saved.value.AllDone()
    ensures CarelessRuns(s, ToFind(p))
    ensures CarelessAfter(s, ToFind(p)) == With(s, p, Process(A2Find, Some(Opened(s)), false), Some(Opened(s)))
  {
    var mem := if s.saved.Some? then s.saved.value else Saved(7, None, {});
    var s1 := With(s, p, Process(Entered, None, false), s.saved);
    var s2 := With(s, p, Process(Loaded, Some(mem), false), Some(mem));
    assert CarelessApply(s, Enter(p, false)) == s1;
    assert CarelessApply(s1, Act(p, Load(7))) == s2;
    RecordsA1(s, p, mem);
    CarelessCons(s1, Act(p, Load(7)), [Act(p, Preconditions), Act(p, RecordA1)]);
    CarelessCons(s, Enter(p, false), [Act(p, Load(7)), Act(p, Preconditions), Act(p, RecordA1)]);
  }

  lemma RecordsA1(s: State, p: nat, mem: Saved)
    requires s.loss == ReductionOnly && 0.0 < s.brokerPos && !mem.AllDone()
    ensures var s2 := With(s, p, Process(Loaded, Some(mem), false), Some(mem));
            && CarelessRuns(s2, [Act(p, Preconditions), Act(p, RecordA1)])
            && CarelessAfter(s2, [Act(p, Preconditions), Act(p, RecordA1)])
               == With(s, p, Process(A2Find, Some(mem.Record(A1)), false), Some(mem.Record(A1)))
  {
    var s2 := With(s, p, Process(Loaded, Some(mem), false), Some(mem));
    var s3 := With(s, p, Process(Ready, Some(mem), false), Some(mem));
    assert CarelessApply(s2, Act(p, Preconditions)) == s3;
    CarelessCons(s3, Act(p, RecordA1), []);
    CarelessCons(s2, Act(p, Preconditions), [Act(p, RecordA1)]);
  }

  lemma FindsNothing(s: State, p: nat, mem: Saved)
    requires p in s.procs && s.procs[p] == Process(A2Find, Some(mem), false)
    requires s.rows == [] && s.sent == [] && s.reduceQty <= s.brokerPos
    ensures CarelessRuns(s, FromFind(p))
    ensures var mem' := mem.(intent := Some(Intent(s.brokerPos, s.brokerPos - s.reduceQty)));
            var t := CarelessAfter(s, FromFind(p));
            && t.procs == s.procs[p := Process(Routing(A2, Evaluating), Some(mem'), false)]
            && t.saved == Some(mem')
            && t == s.(procs := t.procs, saved := t.saved, submits := t.submits)
  {
    var s1 := s.(procs := s.procs[p := Process(A2Fresh, Some(mem), false)]);
    var s2 := s.(procs := s.procs[p := Process(A2Held(s.brokerPos), Some(mem), false)]);
    LooksAndHolds(s, p, mem);
    WritesIntent(s2, p, mem);
    CarelessCons(s2, Act(p, IntentA2), []);
    CarelessCons(s1, Act(p, SnapshotA2), [Act(p, IntentA2)]);
    CarelessCons(s, Act(p, FindA2), [Act(p, SnapshotA2), Act(p, IntentA2)]);
  }

  lemma LooksAndHolds(s: State, p: nat, mem: Saved)
    requires p in s.procs && s.procs[p] == Process(A2Find, Some(mem), false)
    requires s.rows == [] && s.sent == [] && s.reduceQty <= s.brokerPos
    ensures var s1 := s.(procs := s.procs[p := Process(A2Fresh, Some(mem), false)]);
            && CarelessEnabled(s, Act(p, FindA2)) && CarelessApply(s, Act(p, FindA2)) == s1
            && CarelessEnabled(s1, Act(p, SnapshotA2))
            && CarelessApply(s1, Act(p, SnapshotA2)) == s.(procs := s.procs[p := Process(A2Held(s.brokerPos), Some(mem), false)])
  {}

  lemma WritesIntent(s: State, p: nat, mem: Saved)
    requires p in s.procs && s.procs[p] == Process(A2Held(s.brokerPos), Some(mem), false)
    ensures CarelessEnabled(s, Act(p, IntentA2))
    ensures var mem' := mem.(intent := Some(Intent(s.brokerPos, s.brokerPos - s.reduceQty)));
            var t := CarelessApply(s, Act(p, IntentA2));
            && t.procs == s.procs[p := Process(Routing(A2, Evaluating), Some(mem'), false)]
            && t.saved == Some(mem')
            && t == s.(procs := t.procs, saved := t.saved, submits := t.submits)
  {}

  lemma ReachesTheRouter(s: State, p: nat) returns (t: State, steps: seq<Step>)
    requires s.lock == None && p !in s.procs && s.loss == ReductionOnly && s.rows == [] && s.sent == []
    requires s.reduceQty <= s.brokerPos && 0.0 < s.brokerPos && (s.saved.Some? ==> !s.saved.value.AllDone())
    ensures CarelessRuns(s, steps) && t == CarelessAfter(s, steps)
    ensures var mem := Opened(s).(intent := Some(Intent(s.brokerPos, s.brokerPos - s.reduceQty)));
            t == With(s, p, Process(Routing(A2, Evaluating), Some(mem), false), Some(mem)).(submits := t.submits)
  {
    var mid := With(s, p, Process(A2Find, Some(Opened(s)), false), Some(Opened(s)));
    OpensCheckpoint(s, p);
    FromFindToRouter(s, mid, p);
    CarelessConcat(s, ToFind(p), FromFind(p));
    steps := ToFind(p) + FromFind(p);
    t := CarelessAfter(mid, FromFind(p));
  }

  lemma FromFindToRouter(s: State, mid: State, p: nat)
    requires s.rows == [] && s.sent == [] && s.reduceQty <= s.brokerPos
    requires mid == With(s, p, Process(A2Find, Some(Opened(s)), false), Some(Opened(s)))
    ensures CarelessRuns(mid, FromFind(p))
    ensures var mem := Opened(s).(intent := Some(Intent(s.brokerPos, s.brokerPos - s.reduceQty)));
            var t := CarelessAfter(mid, FromFind(p));
            t == With(s, p, Process(Routing(A2, Evaluating), Some(mem), false), Some(mem)).(submits := t.submits)
  {
    FindsNothing(mid, p, Opened(s));
    var there := Process(Routing(A2, Evaluating), CarelessAfter(mid, FromFind(p)).saved, false);
    assert mid.procs[p := there] == s.procs[p := there];
  }

  predicate TwoRowsOneId(t: State) {
    |t.rows| == 2 && t.rows[0].cid == t.rows[1].cid && t.procs.Keys == {1, 2}
  }

  lemma BothPersist(s: State, m1: Saved, m2: Saved)
    requires s.rows == [] && m1.runId == m2.runId && s.procs.Keys == {1, 2}
    requires s.procs[1] == Process(Routing(A2, Evaluating), Some(m1), false)
    requires s.procs[2] == Process(Routing(A2, Evaluating), Some(m2), false)
    ensures CarelessRuns(s, [Act(2, Route(Persist))] + [Act(1, Route(Persist))])
    ensures TwoRowsOneId(CarelessAfter(s, [Act(2, Route(Persist))] + [Act(1, Route(Persist))]))
  {
    var t := CarelessApply(s, Act(2, Route(Persist)));
    assert t.procs[1] == s.procs[1];
    CarelessCons(t, Act(1, Route(Persist)), []);
    CarelessCons(s, Act(2, Route(Persist)), [Act(1, Route(Persist))]);
  }

  /** Both processes at the point of committing A2's row under the same run id. */
  predicate BothAtRouter(t: State) {
    && t.rows == [] && t.procs.Keys == {1, 2}
    && AtRouter(t.procs[1]) && AtRouter(t.procs[2])
    && t.procs[1].mem.value.runId == t.procs[2].mem.value.runId
  }

  predicate AtRouter(proc: Process) {
    proc.mem.Some? && proc == Process(Routing(A2, Evaluating), proc.mem, false)
  }

  lemma TwoReachTheRouter(s: State) returns (t: State, steps: seq<Step>)
    requires Init(s) && s.loss == ReductionOnly && s.reduceQty <= s.brokerPos && 0.0 < s.brokerPos
    ensures CarelessRuns(s, steps) && t == CarelessAfter(s, steps) && BothAtRouter(t)
  {
    var s1, first := ReachesTheRouter(s, 1);
    var s2 := CarelessApply(s1, OperatorClears);
    var s3, second := ReachesTheRouter(s2, 2);
    assert s3.procs.Keys == {1, 2};
    CarelessCons(s1, OperatorClears, second);
    CarelessConcat(s, first, [OperatorClears] + second);
    t, steps := s3, first + ([OperatorClears] + second);
  }

  /** With a careless operator the same run submits the reduction twice: two processes are live and two rows
      carry A2's one id, so that only the broker's own check of client ids still stands in the way. */
  lemma CarelessClearSubmitsTwice(s: State)
    requires Init(s) && s.loss == ReductionOnly && s.reduceQty <= s.brokerPos && 0.0 < s.brokerPos
    ensures exists steps :: CarelessRuns(s, steps) && TwoRowsOneId(CarelessAfter(s, steps))
  {
    var t, first := TwoReachTheRouter(s);
    var tail := [Act(2, Route(Persist))] + [Act(1, Route(Persist))];
    BothPersist(t, t.procs[1].mem.value, t.procs[2].mem.value);
    CarelessConcat(s, first, tail);
  }

  /** However a state was reached: clearing the lock file keeps a second process out, in every continuation by
      careful steps, exactly when nothing is live. */
  lemma ClearIsSafeIff(s: State)
    requires Inv(s)
    ensures (forall steps :: Runs(s.(lock := None), steps) ==> OneInside(After(s.(lock := None), steps)))
       <==> s.procs == map[]
  {
    var cleared := s.(lock := None);
    if s.procs == map[] {
      assert cleared == Apply(s, OperatorClears);
      StepKeepsInv(s, OperatorClears);
      forall steps | Runs(cleared, steps) ensures OneInside(After(cleared, steps)) {
        RunKeepsInv(cleared, steps);
      }
    } else {
      var p :| p in s.procs;
      SecondEnters(cleared, p, if p == 0 then 1 else 0);
    }
  }

  ghost predicate OneInside(s: State) {
    forall p, q :: p in s.procs && q in s.procs ==> p == q
  }

  lemma SecondEnters(s: State, p: nat, q: nat)
    requires s.lock == None && p in s.procs && p != q
    ensures exists steps :: Runs(s, steps) && !OneInside(After(s, steps))
  {
    if q in s.procs {
      assert Runs(s, []) && After(s, []) == s;
    } else {
      var t := Apply(s, Enter(q, false));
      assert p in t.procs && q in t.procs;
      assert Runs(t, []);
      Cons(s, Enter(q, false), []);
    }
  }

  // ---- a submission repeats exactly when the first left no row -----------------------------------------------

  lemma StepKeepsRow(s: State, step: Step, name: StepName)
    requires Inv(s) && Enabled(s, step) && HasRow(s, name)
    ensures HasRow(Apply(s, step), name)
  {
    StepKeepsRows(s, step);
    var i :| 0 <= i < |s.rows| && IsId(s, s.rows[i].cid, name);
    assert IsId(Apply(s, step), Apply(s, step).rows[i].cid, name);
  }

  function Submits(s: State, name: StepName): nat {
    if name in s.submits then s.submits[name] else 0
  }

  lemma OnlyTwoActionsSubmit(s: State, p: nat, a: Action)
    requires p in s.procs && ActionEnabled(s, s.procs[p], a)
    ensures a != IntentA2 && a != FindA3 ==> ActionApply(s, p, s.procs[p], a).submits == s.submits
  {}

  lemma FindA3SubmitsNothing(s: State, p: nat)
    requires Inv(s) && p in s.procs && ActionEnabled(s, s.procs[p], FindA3) && HasRow(s, A3)
    ensures ActionApply(s, p, s.procs[p], FindA3).submits == s.submits
  {
    assert ProcOk(s, s.procs[p]);
    LookUpExact(s, s.procs[p].mem.value, A3);
  }

  lemma IntentA2NeedsNoRow(s: State, p: nat)
    requires Inv(s) && p in s.procs && ActionEnabled(s, s.procs[p], IntentA2)
    ensures !HasRow(s, A2)
  {
    assert ProcOk(s, s.procs[p]);
  }

  lemma StepSubmitsNothing(s: State, step: Step, name: StepName)
    requires Inv(s) && Enabled(s, step) && HasRow(s, name)
    ensures Submits(Apply(s, step), name) == Submits(s, name)
  {
    match step
    case Act(p, a) =>
      OnlyTwoActionsSubmit(s, p, a);
      if a == FindA3 && name == A3 { FindA3SubmitsNothing(s, p); }
      if a == IntentA2 { IntentA2NeedsNoRow(s, p); }
    case _ =>
  }

  /** Once a step's order is in the local ledger no later life of the harness calls `router.submit` for it. */
  lemma {:induction false} RowEndsSubmission(s: State, steps: seq<Step>, name: StepName)
    requires Inv(s) && Runs(s, steps) && HasRow(s, name)
    ensures Submits(After(s, steps), name) == Submits(s, name)
    decreases |steps|
  {
    if |steps| > 0 {
      StepKeepsInv(s, steps[0]);
      StepKeepsRow(s, steps[0], name);
      StepSubmitsNothing(s, steps[0], name);
      RowEndsSubmission(Apply(s, steps[0]), steps[1..], name);
    }
  }

  lemma CarelessIsMore(s: State, steps: seq<Step>)
    requires CarelessRuns(s, steps) && OperatorClears !in steps
    ensures Runs(s, steps) && After(s, steps) == CarelessAfter(s, steps)
    decreases |steps|
  {}

  /** The restart of a run whose A2 order is settled: through the barrier again, then to A3. */
  function ToBarrier(p: nat): seq<Step> {
    [Act(p, FindA2), Act(p, RebindA2), Act(p, Barrier)]
  }

  function ToA3(p: nat): seq<Step> {
    [Act(p, RecordA2), Act(p, FindA3)]
  }

  lemma FindsSettled(s: State, i: nat)
    requires DurableOk(s) && SettledAt(s, i)
    ensures s.saved.Some? && s.saved.value.intent.Some?
    ensures LookUp(s, s.saved.value, A2) == Some(Local(i))
    ensures s.rows[i].side == Sell && s.rows[i].qty == s.reduceQty
  {
    assert IsId(s, s.rows[i].cid, A2);
    LookUpExact(s, s.saved.value, A2);
  }

  lemma RebindsToA2(s: State, p: nat, mem: Saved, i: nat)
    requires p in s.procs && s.procs[p] == Process(A2Find, Some(mem), false) && mem.intent.Some?
    requires SettledAt(s, i) && s.localPos == s.brokerPos
    requires LookUp(s, mem, A2) == Some(Local(i)) && s.rows[i].side == Sell && s.rows[i].qty == s.reduceQty
    ensures CarelessRuns(s, ToBarrier(p))
    ensures CarelessAfter(s, ToBarrier(p))
            == s.(procs := s.procs[p := Process(A2Check(i, true), Some(mem.Record(A2)), true)], saved := Some(mem.Record(A2)))
  {
    var done := mem.Record(A2);
    var s1 := s.(procs := s.procs[p := Process(A2Found(Local(i)), Some(mem), false)]);
    var s2 := s.(procs := s.procs[p := Process(A2Barrier(i, true), Some(done), false)], saved := Some(done));
    assert CarelessApply(s, Act(p, FindA2)) == s1;
    RecordsRebind(s, s1, p, mem, i);
    BarrierReturnsAgain(s2, p, i, done);
    CarelessCons(s2, Act(p, Barrier), []);
    CarelessCons(s1, Act(p, RebindA2), [Act(p, Barrier)]);
    CarelessCons(s, Act(p, FindA2), [Act(p, RebindA2), Act(p, Barrier)]);
  }

  lemma RecordsRebind(s: State, s1: State, p: nat, mem: Saved, i: nat)
    requires s1 == s.(procs := s.procs[p := Process(A2Found(Local(i)), Some(mem), false)]) && mem.intent.Some?
    requires i < |s.rows| && s.rows[i].side == Sell && s.rows[i].qty == s.reduceQty
    ensures CarelessEnabled(s1, Act(p, RebindA2))
    ensures CarelessApply(s1, Act(p, RebindA2))
            == s.(procs := s.procs[p := Process(A2Barrier(i, true), Some(mem.Record(A2)), false)],
                  saved := Some(mem.Record(A2)))
  {}

  /** Settling a settled order again books nothing and returns. */
  lemma BarrierReturnsAgain(s: State, p: nat, i: nat, mem: Saved)
    requires p in s.procs && s.procs[p] == Process(A2Barrier(i, true), Some(mem), false)
    requires SettledAt(s, i) && s.localPos == s.brokerPos
    ensures Enabled(s, Act(p, Barrier))
    ensures Apply(s, Act(p, Barrier)) == s.(procs := s.procs[p := Process(A2Check(i, true), Some(mem), true)])
  {
    assert s.rows[i := s.rows[i]] == s.rows;
  }

  lemma SubmitsA3(s: State, p: nat, i: nat)
    requires DurableOk(s) && p in s.procs && s.saved.Some? && s.saved.value.intent.Some?
    requires s.procs[p] == Process(A2Check(i, true), s.saved, true) && !HasRow(s, A3)
    ensures CarelessRuns(s, ToA3(p))
    ensures Submits(CarelessAfter(s, ToA3(p)), A3) == Submits(s, A3) + 1
  {
    LookUpExact(s, s.saved.value, A3);
    var s1 := s.(procs := s.procs[p := Process(A3Find, s.saved, true)]);
    assert CarelessApply(s, Act(p, RecordA2)) == s1;
    CarelessCons(s1, Act(p, FindA3), []);
    CarelessCons(s, Act(p, RecordA2), [Act(p, FindA3)]);
  }

  lemma SubmitsA3Again(s: State, p: nat) returns (steps: seq<Step>)
    requires Inv(s) && s.procs == map[] && s.lock == None && s.loss == ReductionOnly && 0.0 < s.localPos == s.brokerPos
    requires A2Settled(s) && s.saved.Some? && !s.saved.value.AllDone() && !HasRow(s, A3)
    ensures Runs(s, steps) && Submits(After(s, steps), A3) == Submits(s, A3) + 1
  {
    var i: nat :| SettledAt(s, i);
    var back := ReturnsToCheck(s, p, i);
    RunKeepsInv(s, back);
    assert forall j :: 0 <= j < |s.rows| ==> !IsId(s, s.rows[j].cid, A3);
    SubmitsA3(After(s, back), p, i);
    RunsConcat(s, back, ToA3(p));
    steps := back + ToA3(p);
  }

  ghost predicate SubmitsMore(s: State, steps: seq<Step>, name: StepName) {
    Runs(s, steps) && Submits(After(s, steps), name) > Submits(s, name)
  }

  /** The header's "never re-runs a completed side effect" fails for a refusal that was never committed: with A2
      settled and nothing live, a later life of the incomplete run calls `router.submit` for A3 again exactly
      when A3 left no row, whatever the checkpoint records about A3. */
  lemma RefusalRepeatsIffNoRow(s: State)
    requires Inv(s) && s.procs == map[] && A2Settled(s) && s.saved.Some? && !s.saved.value.AllDone()
    ensures (exists steps :: SubmitsMore(s, steps, A3)) <==> !HasRow(s, A3)
  {
    if HasRow(s, A3) {
      forall steps | Runs(s, steps) ensures !SubmitsMore(s, steps, A3) {
        RowEndsSubmission(s, steps, A3);
      }
    } else {
      TidyKeeps(s);
      var steps := SubmitsA3Again(Tidy(s), 1);
      TidyFirst(s, steps);
      assert SubmitsMore(s, Tidying(s) + steps, A3);
    }
  }

  /** A position of the leg the preconditions accept: the present one, if there is one. */
  function Present(s: State): real {
    if 0.0 < s.brokerPos then s.brokerPos else 1.0
  }

  /** The operator removes the lock of a dead run, sees to it that the leg is held and the books agree, and the
      account is reduction-only. */
  function Tidy(s: State): State {
    s.(lock := None, loss := ReductionOnly, brokerPos := Present(s), localPos := Present(s))
  }

  function Tidying(s: State): seq<Step> {
    [OperatorClears, LossMoves(ReductionOnly), OperatorTrades(Present(s), Present(s))]
  }

  lemma TidyKeeps(s: State)
    requires Inv(s) && s.procs == map[]
    ensures Inv(Tidy(s)) && (A2Settled(s) ==> A2Settled(Tidy(s))) && (HasRow(Tidy(s), A3) ==> HasRow(s, A3))
  {
    SameBookKeepsDurable(s, Tidy(s));
  }

  lemma TidyFirst(s: State, rest: seq<Step>)
    requires s.procs == map[] && Runs(Tidy(s), rest)
    ensures Runs(s, Tidying(s) + rest) && After(s, Tidying(s) + rest) == After(Tidy(s), rest)
  {
    var trade := OperatorTrades(Present(s), Present(s));
    Cons(s.(lock := None, loss := ReductionOnly), trade, rest);
    Cons(s.(lock := None), LossMoves(ReductionOnly), [trade] + rest);
    Cons(s, OperatorClears, [LossMoves(ReductionOnly)] + ([trade] + rest));
    assert Tidying(s) + rest == [OperatorClears] + ([LossMoves(ReductionOnly)] + ([trade] + rest));
  }

  lemma RunsConcat(s: State, first: seq<Step>, second: seq<Step>)
    requires Runs(s, first) && CarelessRuns(After(s, first), second)
    requires OperatorClears !in first && OperatorClears !in second
    ensures Runs(s, first + second) && After(s, first + second) == CarelessAfter(After(s, first), second)
  {
    RunsAreCareless(s, first);
    CarelessConcat(s, first, second);
    CarelessIsMore(s, first + second);
  }

  lemma {:induction false} RunsAreCareless(s: State, steps: seq<Step>)
    requires Runs(s, steps)
    ensures CarelessRuns(s, steps) && CarelessAfter(s, steps) == After(s, steps)
    decreases |steps|
  {
    if |steps| > 0 {
      RunsAreCareless(Apply(s, steps[0]), steps[1..]);
      assert steps[0] == OperatorClears ==> CarelessApply(s, steps[0]) == Apply(s, steps[0]);
    }
  }

  lemma ReturnsToCheck(s: State, p: nat, i: nat) returns (steps: seq<Step>)
    requires Inv(s) && s.procs == map[] && s.lock == None && s.loss == ReductionOnly
    requires SettledAt(s, i) && 0.0 < s.localPos == s.brokerPos
    requires s.saved.Some? && !s.saved.value.AllDone()
    ensures Runs(s, steps) && OperatorClears !in steps && LossStands(s, steps)
    ensures var t := After(s, steps);
            && p in t.procs && t.saved.Some? && t.saved.value.intent.Some?
            && t.procs[p] == Process(A2Check(i, true), t.saved, true)
            && s.saved.value.done + {A1, A2} <= t.saved.value.done && t.saved.value.runId == s.saved.value.runId
            && t.rows == s.rows && t.submits == s.submits && t.loss == s.loss
  {
    var open := With(s, p, Process(A2Find, Some(Opened(s)), false), Some(Opened(s)));
    OpensCheckpoint(s, p);
    FindsSettled(s, i);
    OpenedKeeps(s, open, p, i);
    RebindsToA2(open, p, Opened(s), i);
    steps := ToFind(p) + ToBarrier(p);
    CarelessConcat(s, ToFind(p), ToBarrier(p));
    BackIsSteady(s, p);
    CarelessIsMore(s, steps);
  }

  lemma BackIsSteady(s: State, p: nat)
    ensures OperatorClears !in ToFind(p) + ToBarrier(p) && LossStands(s, ToFind(p) + ToBarrier(p))
  {
    var steps := ToFind(p) + ToBarrier(p);
    assert forall step :: step in steps ==> step.Enter? || step.Act?;
    assert forall j :: 0 <= j < |steps| ==> steps[j] in steps;
  }

  lemma OpenedKeeps(s: State, t: State, p: nat, i: nat)
    requires s.saved.Some? && SettledAt(s, i)
    requires t == With(s, p, Process(A2Find, Some(Opened(s)), false), Some(Opened(s)))
    ensures SettledAt(t, i) && LookUp(t, Opened(s), A2) == LookUp(s, s.saved.value, A2)
  {}

  // ---- a crash between A4 and A5 -------------------------------------------------------------------------------

  /** A4 is recorded, A5 is not, the account is not in reduction-only, and no process is past the preconditions. */
  ghost predicate Stranded(s: State) {
    && Recorded(s, A4) && !Recorded(s, A5)
    && s.loss != ReductionOnly
    && forall p :: p in s.procs ==> s.procs[p].pc == Churning || s.procs[p].pc == Entered || s.procs[p].pc == Loaded
  }

  lemma CrashAfterA4Strands(s: State, p: nat, after: LossState)
    requires Inv(s) && p in s.procs && ActionEnabled(s, s.procs[p], RecordA4(after)) && after != ReductionOnly
    requires A4 !in s.procs[p].mem.value.done && A5 !in s.procs[p].mem.value.done
    ensures var t := Apply(s, Act(p, RecordA4(after)));
            Enabled(t, Crash(p)) && Stranded(Apply(t, Crash(p)))
  {}

  /** The account's loss state does not change during these steps. */
  ghost predicate LossStands(s: State, steps: seq<Step>) {
    forall j :: 0 <= j < |steps| ==> steps[j].LossMoves? ==> steps[j].to == s.loss
  }

  /** No run of any length records A5, submits anything or changes the checkpoint, because every restart is
      refused at the reduction-only precondition. */
  lemma {:induction false} StrandedForever(s: State, steps: seq<Step>)
    requires Stranded(s) && Runs(s, steps) && LossStands(s, steps)
    ensures Stranded(After(s, steps))
    ensures After(s, steps).saved == s.saved && After(s, steps).submits == s.submits
    decreases |steps|
  {
    if |steps| > 0 {
      assert steps[0].LossMoves? ==> steps[0].to == s.loss;
      StrandedStep(s, steps[0]);
      assert forall j :: 0 <= j < |steps| - 1 ==> steps[1..][j] == steps[j + 1];
      StrandedForever(Apply(s, steps[0]), steps[1..]);
    }
  }

  lemma StrandedStep(s: State, step: Step)
    requires Stranded(s) && Enabled(s, step) && (step.LossMoves? ==> step.to == s.loss)
    ensures Stranded(Apply(s, step)) && Apply(s, step).loss == s.loss
    ensures Apply(s, step).saved == s.saved && Apply(s, step).submits == s.submits
  {
    match step
    case Act(p, a) =>
      assert a.Load?;
    case _ =>
  }

  ghost predicate Finishes(s: State, steps: seq<Step>) {
    Runs(s, steps) && LossStands(s, steps) && Recorded(After(s, steps), A5)
  }

  lemma Cons(s: State, step: Step, rest: seq<Step>)
    requires Enabled(s, step) && Runs(Apply(s, step), rest)
    ensures Runs(s, [step] + rest) && After(s, [step] + rest) == After(Apply(s, step), rest)
  {
    assert ([step] + rest)[1..] == rest;
  }

  /** One more step in front of a run that finishes. */
  lemma FinishesCons(s: State, step: Step, rest: seq<Step>)
    requires Enabled(s, step) && Finishes(Apply(s, step), rest)
    requires Apply(s, step).loss == s.loss && !step.LossMoves?
    ensures Finishes(s, [step] + rest)
  {
    Cons(s, step, rest);
    assert forall j :: 0 < j < |[step] + rest| ==> ([step] + rest)[j] == rest[j - 1];
  }

  /** From A4 on, with A4 recorded earlier: the recovery is not requested again, and A5 is recorded. */
  lemma FinishesFromA4(s: State, p: nat)
    requires p in s.procs && s.procs[p].pc == A4Start && s.procs[p].mem.Some? && A4 in s.procs[p].mem.value.done
    requires s.procs[p].mem == s.saved
    ensures Finishes(s, [Act(p, RecordA4(s.loss))] + ([Act(p, RecordA5)] + []))
  {
    var s1 := Apply(s, Act(p, RecordA4(s.loss)));
    var s2 := Apply(s1, Act(p, RecordA5));
    assert Finishes(s2, []);
    FinishesCons(s1, Act(p, RecordA5), []);
    FinishesCons(s, Act(p, RecordA4(s.loss)), [Act(p, RecordA5)] + []);
  }

  /** A router that refuses A3 before a row: the refusal is recorded and the run goes on. */
  lemma FinishesByRefusal(s: State, p: nat) returns (steps: seq<Step>)
    requires p in s.procs && s.procs[p].pc == Routing(A3, Evaluating) && s.procs[p].mem == s.saved && Recorded(s, A4)
    ensures Finishes(s, steps)
  {
    var s1 := Apply(s, Act(p, Route(Ephemeral)));
    var s2 := Apply(s1, Act(p, RecordRefusal));
    FinishesFromA4(s2, p);
    var rest := [Act(p, RecordA4(s2.loss))] + ([Act(p, RecordA5)] + []);
    FinishesCons(s1, Act(p, RecordRefusal), rest);
    FinishesCons(s, Act(p, Route(Ephemeral)), [Act(p, RecordRefusal)] + rest);
    steps := [Act(p, Route(Ephemeral))] + ([Act(p, RecordRefusal)] + rest);
  }

  lemma FinishesByRebind(s: State, p: nat) returns (steps: seq<Step>)
    requires p in s.procs && s.procs[p].pc.A3Found? && s.procs[p].mem == s.saved && Recorded(s, A4)
    requires ActionEnabled(s, s.procs[p], RebindA3)
    ensures Finishes(s, steps)
  {
    var s1 := Apply(s, Act(p, RebindA3));
    FinishesFromA4(s1, p);
    var rest := [Act(p, RecordA4(s1.loss))] + ([Act(p, RecordA5)] + []);
    FinishesCons(s, Act(p, RebindA3), rest);
    steps := [Act(p, RebindA3)] + rest;
  }

  /** From A3 on, whether A3's order is in the ledger or not. */
  lemma FinishesFromA3(s: State, p: nat) returns (steps: seq<Step>)
    requires DurableOk(s) && p in s.procs && s.procs[p].pc == A3Find && s.procs[p].mem == s.saved
    requires s.saved.Some? && s.saved.value.intent.Some? && Recorded(s, A4)
    ensures Finishes(s, steps)
  {
    LookUpExact(s, s.saved.value, A3);
    var t := Apply(s, Act(p, FindA3));
    if t.procs[p].pc.A3Found? {
      steps := FinishesByRebind(t, p);
    } else {
      steps := FinishesByRefusal(t, p);
    }
    FinishesCons(s, Act(p, FindA3), steps);
    steps := [Act(p, FindA3)] + steps;
  }

  /** In reduction-only, from an open lock and agreeing ledgers, a restart gets through to the end. */
  lemma Resumes(s: State, p: nat) returns (steps: seq<Step>)
    requires Inv(s) && s.procs == map[] && s.lock == None && s.loss == ReductionOnly && 0.0 < s.localPos == s.brokerPos
    requires Recorded(s, A4) && !Recorded(s, A5)
    ensures Finishes(s, steps)
  {
    var i: nat :| SettledAt(s, i);
    var back := ReturnsToCheck(s, p, i);
    var check := After(s, back);
    RunKeepsInv(s, back);
    var open := Apply(check, Act(p, RecordA2));
    StepKeepsInv(check, Act(p, RecordA2));
    var rest := FinishesFromA3(open, p);
    FinishesCons(check, Act(p, RecordA2), rest);
    FinishesConcat(s, back, [Act(p, RecordA2)] + rest);
    steps := back + ([Act(p, RecordA2)] + rest);
  }

  lemma {:induction false} FinishesConcat(s: State, first: seq<Step>, second: seq<Step>)
    requires Runs(s, first) && LossStands(s, first) && Finishes(After(s, first), second) && After(s, first).loss == s.loss
    ensures Finishes(s, first + second)
  {
    Concat(s, first, second);
  }

  lemma {:induction false} Concat(s: State, first: seq<Step>, second: seq<Step>)
    requires Runs(s, first) && Runs(After(s, first), second)
    ensures Runs(s, first + second) && After(s, first + second) == After(After(s, first), second)
    decreases |first|
  {
    if |first| == 0 {
      assert first + second == second;
    } else {
      Concat(Apply(s, first[0]), first[1..], second);
      assert first + second == [first[0]] + (first[1..] + second);
      Cons(s, first[0], first[1..] + second);
    }
  }

  /** The header says a dropped session "resumes at the first incomplete step".  Dropped between A4 and A5, with
      nothing live, it can do so exactly when the account is still in reduction-only: while the loss state stands
      still, some run records A5 if and only if that precondition holds, the operator seeing to lock, leg and
      books.  A successful A4 has left that state. */
  lemma ResumesIff(s: State)
    requires Inv(s) && s.procs == map[] && Recorded(s, A4) && !Recorded(s, A5)
    ensures (exists steps :: Finishes(s, steps)) <==> s.loss == ReductionOnly
  {
    if s.loss == ReductionOnly {
      var s1 := Apply(s, OperatorClears);
      var s2 := Apply(s1, OperatorTrades(Present(s), Present(s)));
      StepKeepsInv(s, OperatorClears);
      StepKeepsInv(s1, OperatorTrades(Present(s), Present(s)));
      var steps := Resumes(s2, 1);
      FinishesCons(s1, OperatorTrades(Present(s), Present(s)), steps);
      FinishesCons(s, OperatorClears, [OperatorTrades(Present(s), Present(s))] + steps);
    } else {
      forall steps | Runs(s, steps) && LossStands(s, steps) ensures !Finishes(s, steps) {
        StrandedForever(s, steps);
      }
    }
  }

  // ---- a crash between the broker's acceptance and the committed broker id -----------------------------------------

  /** A2's row has no broker id and nobody is there to add one. */
  ghost predicate Orphaned(s: State, i: nat) {
    && IsA2Row(s, i) && s.rows[i].brokerId.None?
    && forall p :: p in s.procs ==> !(s.procs[p].pc.Routing? && s.procs[p].pc.step == A2)
  }

  /** A crash anywhere between the commit of the row and the commit of the broker id leaves it so, also when the
      broker has taken and filled the order. */
  lemma CrashInRouterOrphans(s: State, p: nat)
    requires Inv(s) && p in s.procs && s.procs[p].pc.Routing? && s.procs[p].pc.step == A2
    requires !s.procs[p].pc.at.Evaluating?
    ensures Enabled(s, Crash(p)) && Orphaned(Apply(s, Crash(p)), s.procs[p].pc.at.row)
  {
    assert ProcOk(s, s.procs[p]);
    assert forall q :: q in s.procs ==> q == p;
  }

  lemma OrphanIsNotSettled(s: State, i: nat)
    requires DurableOk(s) && Orphaned(s, i)
    ensures !A2Settled(s) && HasRow(s, A2) && (forall j: nat :: IsA2Row(s, j) ==> j == i)
  {}

  lemma OrphanStep(s: State, step: Step, i: nat)
    requires Inv(s) && Orphaned(s, i) && Enabled(s, step)
    ensures Orphaned(Apply(s, step), i)
    ensures Apply(s, step).rows == s.rows && Apply(s, step).submits == s.submits
    ensures forall name :: Recorded(Apply(s, step), name) ==> Recorded(s, name) || name == A1 || name == A2
  {
    OrphanIsNotSettled(s, i);
    match step
    case Act(p, a) =>
      assert ProcOk(s, s.procs[p]);
      OrphanAct(s, p, a, i);
    case _ =>
  }

  lemma OrphanAct(s: State, p: nat, a: Action, i: nat)
    requires Inv(s) && Orphaned(s, i) && p in s.procs && ProcOk(s, s.procs[p]) && ActionEnabled(s, s.procs[p], a)
    requires !A2Settled(s) && HasRow(s, A2) && (forall j: nat :: IsA2Row(s, j) ==> j == i)
    ensures var t := ActionApply(s, p, s.procs[p], a);
            && Orphaned(t, i) && t.rows == s.rows && t.submits == s.submits
            && forall name :: Recorded(t, name) ==> Recorded(s, name) || name == A1 || name == A2
  {
    OrphanMay(s, p, a, i);
    if a == FindA2 { LookUpExact(s, s.procs[p].mem.value, A2); }
  }

  lemma OrphanMay(s: State, p: nat, a: Action, i: nat)
    requires Orphaned(s, i) && p in s.procs && ProcOk(s, s.procs[p]) && ActionEnabled(s, s.procs[p], a)
    requires !A2Settled(s) && HasRow(s, A2) && (forall j: nat :: IsA2Row(s, j) ==> j == i)
    ensures a.Load? || a.Preconditions? || a.RecordA1? || a.FindA2? || a.RebindA2? || a.RecordRefusal?
    ensures a.RecordRefusal? ==> s.procs[p].pc == Refused(A2)
  {}

  /** The library says the deterministic id "closes the post-submit/pre-checkpoint crash window".  It prevents a
      second order, but after such a crash no later life ever gets past A2 again: over every run, however often
      the harness is restarted, no barrier returns, no row changes, nothing more is submitted and no step
      beyond A2 is recorded. */
  lemma {:induction false} OrphanForever(s: State, steps: seq<Step>, i: nat)
    requires Inv(s) && Orphaned(s, i) && Runs(s, steps)
    ensures var t := After(s, steps);
            && Orphaned(t, i) && t.rows == s.rows && t.submits == s.submits && !A2Settled(t)
            && (forall name :: Recorded(t, name) ==> Recorded(s, name) || name == A1 || name == A2)
            && (forall p :: !Enabled(t, Act(p, Barrier)))
    decreases |steps|
  {
    if |steps| > 0 {
      OrphanStep(s, steps[0], i);
      StepKeepsInv(s, steps[0]);
      OrphanForever(Apply(s, steps[0]), steps[1..], i);
    } else {
      OrphanIsNotSettled(s, i);
      forall p ensures !Enabled(s, Act(p, Barrier)) {
        assert p in s.procs ==> ProcOk(s, s.procs[p]);
      }
    }
  }

  ghost predicate ReachesBarrier(s: State, steps: seq<Step>, p: nat) {
    Runs(s, steps) && Enabled(After(s, steps), Act(p, Barrier))
  }

  lemma ReachesCons(s: State, step: Step, rest: seq<Step>, p: nat)
    requires Enabled(s, step) && ReachesBarrier(Apply(s, step), rest, p)
    ensures ReachesBarrier(s, [step] + rest, p)
  {
    Cons(s, step, rest);
  }

  /** With a broker id on the row, the order closed and the ledgers able to agree, a restart rebinds and its
      barrier returns. */
  lemma ClosedReachesBarrier(s: State, p: nat, i: nat) returns (steps: seq<Step>)
    requires Inv(s) && s.procs == map[] && s.lock == None && s.loss == ReductionOnly && 0.0 < s.brokerPos
    requires s.saved.Some? && !s.saved.value.AllDone()
    requires IsA2Row(s, i) && BarrierMayReturn(s.rows, s.sent, s.localPos, s.brokerPos, i)
    ensures ReachesBarrier(s, steps, p)
  {
    OpensCheckpoint(s, p);
    CarelessIsMore(s, ToFind(p));
    RunKeepsInv(s, ToFind(p));
    var open := After(s, ToFind(p));
    FindReachesBarrier(open, p, Opened(s), i);
    steps := ToFind(p) + ([Act(p, FindA2)] + ([Act(p, RebindA2)] + []));
    Concat(s, ToFind(p), [Act(p, FindA2)] + ([Act(p, RebindA2)] + []));
  }

  lemma FindReachesBarrier(s: State, p: nat, mem: Saved, i: nat)
    requires DurableOk(s) && p in s.procs && s.procs[p] == Process(A2Find, Some(mem), false) && s.saved == Some(mem)
    requires IsA2Row(s, i) && BarrierMayReturn(s.rows, s.sent, s.localPos, s.brokerPos, i)
    ensures ReachesBarrier(s, [Act(p, FindA2)] + ([Act(p, RebindA2)] + []), p)
  {
    LookUpExact(s, mem, A2);
    var s1 := s.(procs := s.procs[p := Process(A2Found(Local(i)), Some(mem), false)]);
    assert Apply(s, Act(p, FindA2)) == s1;
    assert ReachesBarrier(Apply(s1, Act(p, RebindA2)), [], p);
    ReachesCons(s1, Act(p, RebindA2), [], p);
    ReachesCons(s, Act(p, FindA2), [Act(p, RebindA2)] + [], p);
  }

  /** So after a crash an incomplete run with A2's order in the ledger can still get past A2 exactly when the
      broker id was committed. */
  lemma PassesIffAcknowledged(s: State, i: nat)
    requires Inv(s) && s.procs == map[] && s.saved.Some? && !s.saved.value.AllDone() && IsA2Row(s, i)
    ensures (exists steps, p :: ReachesBarrier(s, steps, p)) <==> s.rows[i].brokerId.Some?
  {
    if s.rows[i].brokerId.None? {
      forall steps, p | Runs(s, steps) ensures !ReachesBarrier(s, steps, p) {
        OrphanForever(s, steps, i);
      }
    } else {
      var s1 := Apply(s, OperatorClears);
      var s2 := Apply(s1, LossMoves(ReductionOnly));
      StepKeepsInv(s, OperatorClears);
      StepKeepsInv(s1, LossMoves(ReductionOnly));
      var steps := AcknowledgedReaches(s2, 1, i);
      ReachesCons(s1, LossMoves(ReductionOnly), steps, 1);
      ReachesCons(s, OperatorClears, [LossMoves(ReductionOnly)] + steps, 1);
    }
  }

  /** The broker closes the order if it is still working, and the operator's books are brought in line. */
  lemma AcknowledgedReaches(s: State, p: nat, i: nat) returns (steps: seq<Step>)
    requires Inv(s) && s.procs == map[] && s.lock == None && s.loss == ReductionOnly
    requires s.saved.Some? && !s.saved.value.AllDone() && IsA2Row(s, i) && s.rows[i].brokerId.Some?
    ensures ReachesBarrier(s, steps, p)
  {
    var k := s.rows[i].brokerId.value;
    assert s.sent[k].AtBroker();
    if s.sent[k].state.Working? {
      var closed := Apply(s, Broker(Close(k)));
      StepKeepsInv(s, Broker(Close(k)));
      steps := ReconciledReaches(closed, p, i);
      ReachesCons(s, Broker(Close(k)), steps, p);
      steps := [Broker(Close(k))] + steps;
    } else {
      steps := ReconciledReaches(s, p, i);
    }
  }

  lemma ReconciledReaches(s: State, p: nat, i: nat) returns (steps: seq<Step>)
    requires Inv(s) && s.procs == map[] && s.lock == None && s.loss == ReductionOnly
    requires s.saved.Some? && !s.saved.value.AllDone() && IsA2Row(s, i) && s.rows[i].brokerId.Some?
    requires s.rows[i].brokerId.value < |s.sent| && s.sent[s.rows[i].brokerId.value].state.Closed?
    ensures ReachesBarrier(s, steps, p)
  {
    var local := s.localPos + Present(s) - BookedPosition(s.rows, s.sent, s.localPos, i);
    var t := Apply(s, OperatorTrades(Present(s), local));
    StepKeepsInv(s, OperatorTrades(Present(s), local));
    steps := ClosedReachesBarrier(t, p, i);
    ReachesCons(s, OperatorTrades(Present(s), local), steps, p);
    steps := [OperatorTrades(Present(s), local)] + steps;
  }
}
