/** A completed run: what its check of the two orders finds, over every later run. */
module CanaryComplete {
  import opened Options
  import opened Orders
  import opened Canary
  import opened CanarySafety
  import Limits = CanaryLimits

  /** `_completed_or_none` looks the two orders up in the local ledger alone. */
  predicate OrderOnFile(s: State, mem: Saved, step: StepName) {
    var row := NewestRow(s.rows, mem.ClientIdOf(step));
    row.Some? && Identity(s.rows, s.sent, Local(row.value), SideOf(step), s.reduceQty)
  }

  predicate OrdersOnFile(s: State, mem: Saved) {
    OrderOnFile(s, mem, A2) && OrderOnFile(s, mem, A3)
  }

  /** Rows of this run never contradict the order expected, so only their absence can fail the check. */
  lemma OnFileIffRow(s: State, step: StepName)
    requires DurableOk(s) && s.saved.Some? && (step == A2 || step == A3)
    ensures OrderOnFile(s, s.saved.value, step) <==> HasRow(s, step)
  {
    var cid := s.saved.value.ClientIdOf(step);
    assert NoRow(s.rows, cid) <==> !HasRow(s, step);
    if NewestRow(s.rows, cid).Some? {
      assert IsId(s, s.rows[NewestRow(s.rows, cid).value].cid, step);
    }
  }

  /** All steps are recorded, and no process is past the check. */
  ghost predicate Completed(s: State) {
    && s.saved.Some? && s.saved.value.AllDone()
    && forall p :: p in s.procs ==> AtTheCheck(s, s.procs[p])
  }

  ghost predicate AtTheCheck(s: State, proc: Process) {
    proc.pc == Churning || proc.pc == Entered || proc.pc == Over || (proc.pc == Loaded && proc.mem == s.saved)
  }

  lemma CompletedStep(s: State, step: Step)
    requires Completed(s) && Enabled(s, step)
    ensures var t := Apply(s, step);
            Completed(t) && t.saved == s.saved && t.rows == s.rows && t.submits == s.submits
  {
    match step
    case Act(p, a) =>
      assert AtTheCheck(s, s.procs[p]) && a.Load?;
    case _ =>
  }

  lemma SameRun(s: State, t: State)
    requires s.saved.Some? && t.saved.Some? && t.saved.value.runId == s.saved.value.runId && t.rows == s.rows
    ensures HasRow(t, A3) <==> HasRow(s, A3)
  {
    assert forall i :: 0 <= i < |s.rows| ==> IsId(t, t.rows[i].cid, A3) == IsId(s, s.rows[i].cid, A3);
  }

  /** A completed run stays as it is over every later run: no step is repeated and nothing more is submitted.
      And every later life finds its two orders exactly when A3 left a row. */
  lemma {:induction false} CompletedForever(s: State, steps: seq<Step>)
    requires Inv(s) && Completed(s) && Runs(s, steps)
    ensures var t := After(s, steps);
            && t.saved == s.saved && t.rows == s.rows && t.submits == s.submits
            && (OrdersOnFile(t, s.saved.value) <==> HasRow(s, A3))
    decreases |steps|
  {
    if |steps| > 0 {
      CompletedStep(s, steps[0]);
      StepKeepsInv(s, steps[0]);
      CompletedForever(Apply(s, steps[0]), steps[1..]);
      SameRun(s, Apply(s, steps[0]));
    } else {
      SettledHasRow(s);
      OnFileIffRow(s, A2);
      OnFileIffRow(s, A3);
    }
  }

  // ---- completed without an order for A3 ----------------------------------------------------------------------------

  /** Process `p` alone, at `pc`, with this checkpoint on disk and in memory. */
  predicate Alone(s: State, p: nat, pc: Pc, mem: Saved) {
    s.procs.Keys == {p} && s.procs[p].pc == pc && s.procs[p].mem == s.saved == Some(mem)
  }

  /** The steps from A2's check to the end, with A3 refused before a row. */
  function ToRefusal(p: nat): seq<Step> {
    [Act(p, FindA3), Act(p, Route(Ephemeral)), Act(p, RecordRefusal)]
  }

  function ToEnd(p: nat): seq<Step> {
    [Act(p, RecordA4(Cooldown)), Act(p, RecordA5)]
  }

  lemma LooksForA3(s: State, p: nat, mem: Saved)
    requires DurableOk(s) && Alone(s, p, A3Find, mem) && mem.intent.Some? && !HasRow(s, A3)
    ensures Enabled(s, Act(p, FindA3))
    ensures var t := Apply(s, Act(p, FindA3)); Alone(t, p, Routing(A3, Evaluating), mem) && t.rows == s.rows
  {
    LookUpExact(s, mem, A3);
  }

  lemma IsRefused(s: State, p: nat, mem: Saved)
    requires Alone(s, p, Routing(A3, Evaluating), mem)
    ensures Enabled(s, Act(p, Route(Ephemeral)))
    ensures var t := Apply(s, Act(p, Route(Ephemeral))); Alone(t, p, Refused(A3), mem) && t.rows == s.rows
  {}

  lemma RecordsRefusal(s: State, p: nat, mem: Saved)
    requires Alone(s, p, Refused(A3), mem)
    ensures Enabled(s, Act(p, RecordRefusal))
    ensures var t := Apply(s, Act(p, RecordRefusal)); Alone(t, p, A4Start, mem.Record(A3)) && t.rows == s.rows
  {}

  lemma RefusesWithoutRow(s: State, p: nat, mem: Saved)
    requires DurableOk(s) && Alone(s, p, A3Find, mem) && mem.intent.Some? && !HasRow(s, A3)
    ensures Runs(s, ToRefusal(p))
    ensures var t := After(s, ToRefusal(p)); Alone(t, p, A4Start, mem.Record(A3)) && t.rows == s.rows
  {
    var s1 := Apply(s, Act(p, FindA3));
    LooksForA3(s, p, mem);
    IsRefused(s1, p, mem);
    RecordsRefusal(Apply(s1, Act(p, Route(Ephemeral))), p, mem);
    Limits.Cons(Apply(s1, Act(p, Route(Ephemeral))), Act(p, RecordRefusal), []);
    Limits.Cons(s1, Act(p, Route(Ephemeral)), [Act(p, RecordRefusal)]);
    Limits.Cons(s, Act(p, FindA3), [Act(p, Route(Ephemeral)), Act(p, RecordRefusal)]);
  }

  lemma RecordsA4(s: State, p: nat, mem: Saved)
    requires Alone(s, p, A4Start, mem)
    ensures Enabled(s, Act(p, RecordA4(Cooldown)))
    ensures var t := Apply(s, Act(p, RecordA4(Cooldown))); Alone(t, p, A5Start, mem.Record(A4)) && t.rows == s.rows
  {
    assert A4 in mem.done ==> mem.Record(A4) == mem;
  }

  lemma RecordsA5(s: State, p: nat, mem: Saved)
    requires Alone(s, p, A5Start, mem)
    ensures Enabled(s, Act(p, RecordA5))
    ensures var t := Apply(s, Act(p, RecordA5)); Alone(t, p, Over, mem.Record(A5)) && t.rows == s.rows
  {
    assert A5 in mem.done ==> mem.Record(A5) == mem;
  }

  lemma RecordsTheRest(s: State, p: nat, mem: Saved)
    requires Alone(s, p, A4Start, mem) && {A1, A2, A3} <= mem.done
    ensures Runs(s, ToEnd(p))
    ensures var t := After(s, ToEnd(p)); Completed(t) && t.rows == s.rows && t.saved.value.runId == mem.runId
  {
    var s1 := Apply(s, Act(p, RecordA4(Cooldown)));
    RecordsA4(s, p, mem);
    RecordsA5(s1, p, mem.Record(A4));
    EveryStep(mem.Record(A4).Record(A5).done);
    Limits.Cons(s1, Act(p, RecordA5), []);
    Limits.Cons(s, Act(p, RecordA4(Cooldown)), [Act(p, RecordA5)]);
  }

  lemma EveryStep(done: set<StepName>)
    requires {A1, A2, A3, A4, A5} <= done
    ensures done == {A1, A2, A3, A4, A5}
  {
    forall x | x in done ensures x in {A1, A2, A3, A4, A5} {
      match x case A1 => case A2 => case A3 => case A4 => case A5 =>
    }
  }

  ghost predicate CompletesWithout(s: State, steps: seq<Step>) {
    Runs(s, steps) && Completed(After(s, steps)) && !HasRow(After(s, steps), A3)
  }

  /** From the state behind A2's barrier. */
  lemma CompletesFromA3(s: State, p: nat, mem: Saved) returns (steps: seq<Step>)
    requires DurableOk(s) && Alone(s, p, A3Find, mem) && mem.intent.Some? && {A1, A2} <= mem.done && !HasRow(s, A3)
    ensures CompletesWithout(s, steps)
  {
    RefusesWithoutRow(s, p, mem);
    RecordsTheRest(After(s, ToRefusal(p)), p, mem.Record(A3));
    Limits.Concat(s, ToRefusal(p), ToEnd(p));
    steps := ToRefusal(p) + ToEnd(p);
    SameRun(s, After(s, steps));
  }

  lemma BehindTheBarrier(s: State, p: nat) returns (steps: seq<Step>)
    requires Inv(s) && s.procs == map[] && s.lock == None && s.loss == ReductionOnly && 0.0 < s.localPos == s.brokerPos
    requires A2Settled(s) && s.saved.Some? && !s.saved.value.AllDone() && !HasRow(s, A3)
    ensures Runs(s, steps)
    ensures var t := After(s, steps);
            && DurableOk(t) && t.saved.Some? && Alone(t, p, A3Find, t.saved.value) && t.saved.value.intent.Some?
            && {A1, A2} <= t.saved.value.done && !HasRow(t, A3)
  {
    var i: nat :| SettledAt(s, i);
    var back := Limits.ReturnsToCheck(s, p, i);
    var check := After(s, back);
    RunKeepsInv(s, back);
    SameRun(s, check);
    PassesCheck(check, p, i, check.saved.value);
    Limits.Concat(s, back, [Act(p, RecordA2)]);
    steps := back + [Act(p, RecordA2)];
  }

  lemma PassesCheck(s: State, p: nat, i: nat, mem: Saved)
    requires Inv(s) && p in s.procs && s.procs[p] == Process(A2Check(i, true), Some(mem), true) && s.saved == Some(mem)
    ensures Runs(s, [Act(p, RecordA2)])
    ensures var t := After(s, [Act(p, RecordA2)]); DurableOk(t) && Alone(t, p, A3Find, mem) && t.rows == s.rows
    ensures HasRow(After(s, [Act(p, RecordA2)]), A3) <==> HasRow(s, A3)
  {
    var t := Apply(s, Act(p, RecordA2));
    StepKeepsInv(s, Act(p, RecordA2));
    Limits.Cons(s, Act(p, RecordA2), []);
    SameRun(s, t);
    assert forall q :: q in s.procs ==> q == p;
  }

  lemma Completes(s: State, p: nat) returns (steps: seq<Step>)
    requires Inv(s) && s.procs == map[] && s.lock == None && s.loss == ReductionOnly && 0.0 < s.localPos == s.brokerPos
    requires A2Settled(s) && s.saved.Some? && !s.saved.value.AllDone() && !HasRow(s, A3)
    ensures CompletesWithout(s, steps)
  {
    var first := BehindTheBarrier(s, p);
    var t := After(s, first);
    var second := CompletesFromA3(t, p, t.saved.value);
    Limits.Concat(s, first, second);
    steps := first + second;
  }

  /** A run that completes through a refusal of A3 that was never committed is there: from any incomplete state with
      A2 settled, nothing live and no A3 row.  By `CompletedForever` every later life then refuses it as
      contradicting its own evidence. */
  lemma CompletesWithoutRow(s: State)
    requires Inv(s) && s.procs == map[] && A2Settled(s) && s.saved.Some? && !s.saved.value.AllDone() && !HasRow(s, A3)
    ensures exists steps :: CompletesWithout(s, steps)
  {
    Limits.TidyKeeps(s);
    var steps := Completes(Limits.Tidy(s), 1);
    Limits.TidyFirst(s, steps);
    assert CompletesWithout(s, Limits.Tidying(s) + steps);
  }
}
