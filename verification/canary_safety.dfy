/** What every run of the canary keeps, over any number of processes, crashes and restarts. */
module CanarySafety {
  import opened Options
  import opened Orders
  import opened Canary

  // ---- the invariant -----------------------------------------------------------------------------

  ghost predicate Exclusive(s: State) {
    forall p :: p in s.procs ==> s.lock == Some(p)
  }

  ghost predicate IsId(s: State, cid: ClientId, step: StepName) {
    s.saved.Some? && cid == s.saved.value.ClientIdOf(step)
  }

  /** Rows carry only this run's A2 and A3 ids, each with its own side and quantity. */
  ghost predicate RowShape(s: State) {
    forall i :: 0 <= i < |s.rows| ==>
      var r := s.rows[i];
      && r.qty == s.reduceQty
      && ((IsId(s, r.cid, A2) && r.side == Sell) || (IsId(s, r.cid, A3) && r.side == Buy))
  }

  ghost predicate BookOk(s: State) {
    && BookShape(s.rows, s.sent)
    && RowShape(s)
  }

  ghost predicate HasRow(s: State, step: StepName) {
    exists i :: 0 <= i < |s.rows| && IsId(s, s.rows[i].cid, step)
  }

  /** Row `i` is A2's and it is settled: the broker is done and every fill is booked. */
  ghost predicate SettledAt(s: State, i: nat) {
    && i < |s.rows|
    && IsId(s, s.rows[i].cid, A2)
    && s.rows[i].status == Settled
    && s.rows[i].brokerId.Some?
    && s.rows[i].brokerId.value < |s.sent|
    && s.sent[s.rows[i].brokerId.value].state == Closed(s.rows[i].booked)
  }

  ghost predicate A2Settled(s: State) {
    exists i: nat :: SettledAt(s, i)
  }

  /** The checkpoint's intent was taken from the position A2's row was committed at. */
  ghost predicate IntentSound(s: State) {
    forall i :: 0 <= i < |s.rows| && IsId(s, s.rows[i].cid, A2) ==>
      s.saved.value.intent == Some(Intent(s.rows[i].pre, s.rows[i].pre - s.reduceQty))
  }

  predicate Recorded(s: State, step: StepName) {
    s.saved.Some? && step in s.saved.value.done
  }

  ghost predicate DurableOk(s: State) {
    && BookOk(s)
    && IntentSound(s)
    && (HasRow(s, A3) ==> A2Settled(s))
    && (Recorded(s, A4) ==> A2Settled(s))
  }

  ghost predicate RouterOk(s: State, step: StepName, at: RouterPc) {
    s.saved.Some? && RouterOn(s.rows, s.sent, s.saved.value.ClientIdOf(step), at)
  }

  ghost predicate IsA2Row(s: State, i: nat) {
    i < |s.rows| && IsId(s, s.rows[i].cid, A2)
  }

  ghost predicate PastBarrier(s: State, proc: Process) {
    proc.barrier && A2Settled(s)
  }

  ghost predicate ProcOk(s: State, proc: Process) {
    && (proc.pc != Churning && proc.pc != Entered ==> s.saved.Some? && proc.mem == s.saved)
    && match proc.pc
       case A2Found(found) => found.Local? && IsA2Row(s, found.row)
       case A2Fresh => !HasRow(s, A2)
       case A2Held(held) => !HasRow(s, A2) && held == s.brokerPos
       case Routing(step, at) =>
         && (step == A2 || step == A3)
         && RouterOk(s, step, at)
         && (step == A2 && at == Evaluating ==>
               s.saved.value.intent == Some(Intent(s.brokerPos, s.brokerPos - s.reduceQty)))
         && (step == A3 ==> PastBarrier(s, proc))
       case Refused(step) => (step == A2 || step == A3) && (step == A3 ==> PastBarrier(s, proc))
       case A2Barrier(i, _) => IsA2Row(s, i)
       case A2Check(i, _) => proc.barrier && SettledAt(s, i)
       case A3Find => PastBarrier(s, proc)
       case A3Found(_) => PastBarrier(s, proc)
       case A3Reached(_) => PastBarrier(s, proc)
       case A4Start => PastBarrier(s, proc)
       case A5Start => PastBarrier(s, proc)
       case _ => true
  }

  ghost predicate Inv(s: State) {
    && Exclusive(s)
    && DurableOk(s)
    && (forall p :: p in s.procs ==> ProcOk(s, s.procs[p]))
  }

  lemma InitInv(s: State)
    requires Init(s)
    ensures Inv(s)
  {}

  // ---- one step keeps it ---------------------------------------------------------------------------

  lemma SettledHasRow(s: State)
    requires A2Settled(s)
    ensures HasRow(s, A2)
  {
    var i: nat :| SettledAt(s, i);
    assert IsId(s, s.rows[i].cid, A2);
  }

  lemma FirstRowId(s: State)
    requires RowShape(s)
    ensures s.rows == [] || HasRow(s, A2) || HasRow(s, A3)
  {
    if s.rows != [] {
      assert IsId(s, s.rows[0].cid, A2) || IsId(s, s.rows[0].cid, A3);
    }
  }

  /** With no A2 row nothing was ever sent, so the broker has nothing of this run's to fill. */
  lemma NoA2RowMeansUntouched(s: State)
    requires DurableOk(s) && !HasRow(s, A2)
    ensures s.rows == [] && s.sent == []
  {
    if A2Settled(s) { SettledHasRow(s); }
    FirstRowId(s);
    assert |s.sent| > 0 ==> s.sent[0].row < |s.rows|;
  }

  lemma LookUpExact(s: State, mem: Saved, step: StepName)
    requires DurableOk(s) && s.saved == Some(mem)
    ensures LookUp(s, mem, step).None? <==> !HasRow(s, step)
    ensures LookUp(s, mem, step).Some? ==>
              var found := LookUp(s, mem, step).value;
              found.Local? && found.row < |s.rows| && IsId(s, s.rows[found.row].cid, step)
  {
    var cid := mem.ClientIdOf(step);
    assert NoRow(s.rows, cid) <==> !HasRow(s, step);
    assert NoRow(s.rows, cid) ==> NoRequest(s.sent, cid);
  }

  // ---- steps that only move the book forward ----------------------------------------------------------

  /** Same checkpoint; rows keep their ids and a row with a broker id is untouched but for its bookings;
      requests are only further along. */
  ghost predicate Onward(s: State, t: State) {
    && t.saved == s.saved && t.reduceQty == s.reduceQty
    && OthersStay(s.rows, t.rows)
    && |s.sent| <= |t.sent|
    && (forall k :: 0 <= k < |s.sent| ==> Later(s.sent[k], t.sent[k]))
    && t.brokerPos - Net(t.sent) == s.brokerPos - Net(s.sent)
  }

  lemma OnwardKeepsSettled(s: State, t: State)
    requires Onward(s, t)
    ensures forall i: nat :: SettledAt(s, i) ==> SettledAt(t, i)
    ensures A2Settled(s) ==> A2Settled(t)
  {
    forall i: nat | SettledAt(s, i) ensures SettledAt(t, i) {
      var k := s.rows[i].brokerId.value;
      assert Later(s.sent[k], t.sent[k]);
    }
    if A2Settled(s) {
      var i: nat :| SettledAt(s, i);
      assert SettledAt(t, i);
    }
  }

  /** A row that appears must be in shape, with A2's bound by the intent and A3's only behind the barrier. */
  ghost predicate NewRowOk(s: State, row: Row) {
    && row.qty == s.reduceQty
    && (|| (IsId(s, row.cid, A2) && row.side == Sell
            && s.saved.value.intent == Some(Intent(row.pre, row.pre - s.reduceQty)))
        || (IsId(s, row.cid, A3) && row.side == Buy && A2Settled(s)))
  }

  lemma OnwardKeepsShape(s: State, t: State)
    requires RowShape(s) && IntentSound(s) && Onward(s, t)
    requires |t.rows| > |s.rows| ==> NewRowOk(s, t.rows[|s.rows|])
    ensures RowShape(t) && IntentSound(t)
  {
    assert forall i :: 0 <= i < |s.rows| ==>
      t.rows[i] == s.rows[i].(status := t.rows[i].status, brokerId := t.rows[i].brokerId);
  }

  lemma OnwardRows(s: State, t: State, step: StepName)
    requires Onward(s, t)
    ensures HasRow(s, step) ==> HasRow(t, step)
    ensures HasRow(t, step) ==> HasRow(s, step) || (|t.rows| > |s.rows| && IsId(s, t.rows[|s.rows|].cid, step))
  {
    assert forall i :: 0 <= i < |s.rows| ==> t.rows[i].cid == s.rows[i].cid;
    if HasRow(s, step) {
      var i :| 0 <= i < |s.rows| && IsId(s, s.rows[i].cid, step);
      assert IsId(t, t.rows[i].cid, step);
    }
  }

  lemma OnwardKeepsDurable(s: State, t: State)
    requires DurableOk(s) && Onward(s, t) && BookShape(t.rows, t.sent)
    requires |t.rows| > |s.rows| ==> NewRowOk(s, t.rows[|s.rows|])
    ensures DurableOk(t)
  {
    OnwardKeepsShape(s, t);
    OnwardKeepsSettled(s, t);
    OnwardRows(s, t, A3);
    assert HasRow(t, A3) ==> A2Settled(s);
  }

  /** The world moves on while a process stands still. */
  ghost predicate Elsewhere(s: State, t: State) {
    Onward(s, t) && t.rows == s.rows && |t.sent| == |s.sent| && BookShape(t.rows, t.sent)
  }

  lemma ElsewhereKeepsProc(s: State, t: State, proc: Process)
    requires DurableOk(s) && Elsewhere(s, t) && ProcOk(s, proc)
    ensures ProcOk(t, proc)
  {
    OnwardKeepsSettled(s, t);
    OnwardRows(s, t, A2);
    if !HasRow(s, A2) {
      NoA2RowMeansUntouched(s);
      assert t.sent == s.sent;
    }
    if proc.pc.Routing? {
      ElsewhereKeepsRouter(s, t, proc.pc.step, proc.pc.at);
    }
  }

  lemma ElsewhereKeepsRouter(s: State, t: State, step: StepName, at: RouterPc)
    requires Elsewhere(s, t) && RouterOk(s, step, at)
    ensures RouterOk(t, step, at)
  {
    assert forall k :: 0 <= k < |s.sent| ==> Later(s.sent[k], t.sent[k]);
  }

  lemma BrokerIsElsewhere(s: State, e: BrokerEvent)
    requires DurableOk(s) && BrokerMay(s.sent, e)
    ensures Elsewhere(s, Apply(s, Broker(e)))
  {
    BrokerEventIsLater(s.sent, e, s.brokerPos);
    LaterKeepsBook(s.rows, s.sent, BrokerSent(s.sent, e));
  }

  lemma BrokerKeepsInv(s: State, e: BrokerEvent)
    requires Inv(s) && BrokerMay(s.sent, e)
    ensures Inv(Apply(s, Broker(e)))
  {
    var t := Apply(s, Broker(e));
    BrokerIsElsewhere(s, e);
    OnwardKeepsDurable(s, t);
    forall p | p in t.procs ensures ProcOk(t, t.procs[p]) {
      ElsewhereKeepsProc(s, t, s.procs[p]);
    }
  }

  // ---- the steps of a process ------------------------------------------------------------------------

  /** Steps that leave the durable state alone, or change only the intent or the completed steps. */
  ghost predicate SameBook(s: State, t: State) {
    && t.rows == s.rows && t.sent == s.sent
    && t.reduceQty == s.reduceQty
    && (s.saved.Some? ==> t.saved.Some? && t.saved.value.runId == s.saved.value.runId)
  }

  lemma SameBookKeepsDurable(s: State, t: State)
    requires DurableOk(s) && SameBook(s, t)
    requires s.saved.Some? ==> t.saved.value.intent == s.saved.value.intent || !HasRow(s, A2)
    requires Recorded(t, A4) ==> Recorded(s, A4) || A2Settled(s)
    ensures DurableOk(t)
    ensures s.saved.Some? ==> HasRow(t, A2) == HasRow(s, A2) && HasRow(t, A3) == HasRow(s, A3)
    ensures s.saved.Some? ==> forall i: nat :: SettledAt(s, i) ==> SettledAt(t, i)
    ensures A2Settled(s) ==> A2Settled(t)
  {
    forall i: nat | SettledAt(s, i) ensures SettledAt(t, i) {}
    if A2Settled(s) {
      var i: nat :| SettledAt(s, i);
      assert SettledAt(t, i);
    }
    if s.saved.None? {
      FirstRowId(s);
    } else {
      assert HasRow(t, A3) == HasRow(s, A3);
      assert HasRow(t, A2) == HasRow(s, A2);
    }
  }

  predicate MovesNoOrder(a: Action) {
    !a.Route? && !a.Barrier? && !a.SettleA3?
  }

  lemma ActionKeepsOthers(s: State, p: nat, a: Action)
    requires p in s.procs && ActionEnabled(s, s.procs[p], a)
    ensures var t := ActionApply(s, p, s.procs[p], a);
            && t.lock == s.lock && t.procs.Keys == s.procs.Keys
            && t.reduceQty == s.reduceQty
            && (forall q :: q in s.procs && q != p ==> t.procs[q] == s.procs[q])
            && (a != Barrier ==> t.procs[p].barrier == s.procs[p].barrier)
  {}

  lemma QuietActionIsSameBook(s: State, p: nat, a: Action)
    requires p in s.procs && ProcOk(s, s.procs[p]) && ActionEnabled(s, s.procs[p], a) && MovesNoOrder(a)
    ensures var t := ActionApply(s, p, s.procs[p], a);
            && SameBook(s, t)
            && (s.saved.Some? ==> t.saved.value.intent == s.saved.value.intent || !HasRow(s, A2))
            && (Recorded(t, A4) ==> Recorded(s, A4) || A2Settled(s))
  {}

  lemma QuietActionKeepsDurable(s: State, p: nat, a: Action)
    requires DurableOk(s) && p in s.procs && ProcOk(s, s.procs[p])
    requires ActionEnabled(s, s.procs[p], a) && MovesNoOrder(a)
    ensures var t := ActionApply(s, p, s.procs[p], a);
            && DurableOk(t)
            && (s.saved.Some? ==> HasRow(t, A2) == HasRow(s, A2) && HasRow(t, A3) == HasRow(s, A3)
                                  && (forall i: nat :: SettledAt(s, i) ==> SettledAt(t, i))
                                  && (A2Settled(s) ==> A2Settled(t)))
  {
    QuietActionIsSameBook(s, p, a);
    SameBookKeepsDurable(s, ActionApply(s, p, s.procs[p], a));
  }

  predicate BeforeA2Order(a: Action) {
    a.Load? || a.Preconditions? || a.RecordA1? || a.FindA2? || a.RebindA2? || a.SnapshotA2? || a.IntentA2?
  }

  lemma EarlyActionKeepsProc(s: State, p: nat, a: Action)
    requires DurableOk(s) && p in s.procs && ProcOk(s, s.procs[p])
    requires ActionEnabled(s, s.procs[p], a) && BeforeA2Order(a)
    ensures var t := ActionApply(s, p, s.procs[p], a); ProcOk(t, t.procs[p])
  {
    QuietActionKeepsDurable(s, p, a);
    if a == FindA2 { LookUpExact(s, s.procs[p].mem.value, A2); }
  }

  lemma FindA3KeepsProc(s: State, p: nat)
    requires DurableOk(s) && p in s.procs && ProcOk(s, s.procs[p]) && ActionEnabled(s, s.procs[p], FindA3)
    ensures var t := ActionApply(s, p, s.procs[p], FindA3); ProcOk(t, t.procs[p])
  {
    QuietActionKeepsDurable(s, p, FindA3);
    LookUpExact(s, s.procs[p].mem.value, A3);
  }

  lemma RecordA2KeepsProc(s: State, p: nat)
    requires DurableOk(s) && p in s.procs && ProcOk(s, s.procs[p]) && ActionEnabled(s, s.procs[p], RecordA2)
    ensures var t := ActionApply(s, p, s.procs[p], RecordA2); ProcOk(t, t.procs[p])
  {
    QuietActionKeepsDurable(s, p, RecordA2);
    SettledIsA2(s, s.procs[p].pc.row);
  }

  lemma QuietActionKeepsPast(s: State, p: nat, a: Action)
    requires DurableOk(s) && p in s.procs && ProcOk(s, s.procs[p])
    requires ActionEnabled(s, s.procs[p], a) && MovesNoOrder(a)
    ensures A2Settled(s) ==> A2Settled(ActionApply(s, p, s.procs[p], a))
  {
    QuietActionIsSameBook(s, p, a);
    SameBookKeepsDurable(s, ActionApply(s, p, s.procs[p], a));
  }

  /** A process past the barrier stays past it. */
  ghost predicate OnlyPast(pc: Pc) {
    pc == Over || pc == A4Start || pc == A5Start || pc.Refused?
  }

  lemma LateActionShape(s: State, p: nat, a: Action)
    requires p in s.procs && ProcOk(s, s.procs[p]) && ActionEnabled(s, s.procs[p], a)
    requires a.RecordRefusal? || a.RebindA3? || a.RecordA4? || a.RecordA5?
    ensures var t := ActionApply(s, p, s.procs[p], a);
            var proc := t.procs[p];
            && OnlyPast(proc.pc)
            && (proc.pc.Refused? ==> proc.pc.step == A2 || proc.pc.step == A3)
            && t.saved.Some? && proc.mem == t.saved
            && proc.barrier == s.procs[p].barrier
            && (proc.pc == Over || proc.pc == Refused(A2) || PastBarrier(s, s.procs[p]))
  {}

  lemma LateActionKeepsProc(s: State, p: nat, a: Action)
    requires DurableOk(s) && p in s.procs && ProcOk(s, s.procs[p]) && ActionEnabled(s, s.procs[p], a)
    requires a.RecordRefusal? || a.RebindA3? || a.RecordA4? || a.RecordA5?
    ensures var t := ActionApply(s, p, s.procs[p], a); ProcOk(t, t.procs[p])
  {
    QuietActionKeepsPast(s, p, a);
    LateActionShape(s, p, a);
  }

  lemma SettledIsA2(s: State, i: nat)
    requires SettledAt(s, i)
    ensures A2Settled(s)
  {}

  /** A move of the router moves the book onward.  Committing the row: nothing carried this id before, so
      the id stays unique, and the checkpoint's intent was taken from this very position. */
  lemma RouteIsOnward(s: State, p: nat, m: RouterMove)
    requires DurableOk(s) && p in s.procs && ProcOk(s, s.procs[p]) && ActionEnabled(s, s.procs[p], Route(m))
    ensures var t := ActionApply(s, p, s.procs[p], Route(m)); Onward(s, t) && BookShape(t.rows, t.sent)
  {
    var proc := s.procs[p];
    var cid := s.saved.value.ClientIdOf(proc.pc.step);
    var row := NewRow(s, proc.mem.value, proc.pc.step);
    RouterKeepsShape(s.rows, s.sent, cid, proc.pc.at, m, row);
    RouterTouchesOneRow(s.rows, s.sent, cid, proc.pc.at, m, row);
  }

  lemma RouteAddsGoodRow(s: State, p: nat, m: RouterMove)
    requires DurableOk(s) && p in s.procs && ProcOk(s, s.procs[p]) && ActionEnabled(s, s.procs[p], Route(m))
    ensures var t := ActionApply(s, p, s.procs[p], Route(m));
            |t.rows| > |s.rows| ==> NewRowOk(s, t.rows[|s.rows|])
  {
    if m.Persist? { FreshRowOk(s, s.procs[p]); }
  }

  lemma RouteKeepsDurable(s: State, p: nat, m: RouterMove)
    requires DurableOk(s) && p in s.procs && ProcOk(s, s.procs[p]) && ActionEnabled(s, s.procs[p], Route(m))
    ensures var t := ActionApply(s, p, s.procs[p], Route(m));
            DurableOk(t) && (A2Settled(s) ==> A2Settled(t))
  {
    var t := ActionApply(s, p, s.procs[p], Route(m));
    RouteIsOnward(s, p, m);
    RouteAddsGoodRow(s, p, m);
    OnwardKeepsSettled(s, t);
    OnwardKeepsDurable(s, t);
  }

  lemma FreshRowOk(s: State, proc: Process)
    requires DurableOk(s) && ProcOk(s, proc) && proc.pc.Routing? && proc.pc.at == Evaluating
    ensures proc.mem.Some? && NewRowOk(s, NewRow(s, proc.mem.value, proc.pc.step))
  {
    if proc.pc.step == A2 {
      assert NoRow(s.rows, s.saved.value.ClientIdOf(A2));
      NoA2RowMeansUntouched(s);
    }
  }

  lemma RouteKeepsProc(s: State, p: nat, m: RouterMove)
    requires DurableOk(s) && p in s.procs && ProcOk(s, s.procs[p]) && ActionEnabled(s, s.procs[p], Route(m))
    ensures var t := ActionApply(s, p, s.procs[p], Route(m)); ProcOk(t, t.procs[p])
  {
    var proc := s.procs[p];
    RouteKeepsDurable(s, p, m);
    RouterKeepsPlace(s.rows, s.sent, s.saved.value.ClientIdOf(proc.pc.step), proc.pc.at, m,
                     NewRow(s, proc.mem.value, proc.pc.step));
  }

  lemma BarrierKeeps(s: State, p: nat)
    requires DurableOk(s) && p in s.procs && ProcOk(s, s.procs[p]) && ActionEnabled(s, s.procs[p], Barrier)
    ensures var t := ActionApply(s, p, s.procs[p], Barrier); DurableOk(t) && ProcOk(t, t.procs[p])
  {
    var proc := s.procs[p];
    var t := ActionApply(s, p, proc, Barrier);
    var i := proc.pc.row;
    assert SettledAt(t, i);
    EditRowKeeps(s.rows, s.sent, i, t.rows[i]);
    SettledIsA2(t, i);
    SettlingKeepsDurable(s, t, i);
  }

  /** An A3 order that reached the broker is settled too. */
  lemma SettleA3Keeps(s: State, p: nat)
    requires DurableOk(s) && p in s.procs && ProcOk(s, s.procs[p]) && ActionEnabled(s, s.procs[p], SettleA3)
    ensures var t := ActionApply(s, p, s.procs[p], SettleA3); DurableOk(t) && ProcOk(t, t.procs[p])
  {
    var t := ActionApply(s, p, s.procs[p], SettleA3);
    var i := s.procs[p].pc.row;
    EditRowKeeps(s.rows, s.sent, i, t.rows[i]);
    var j: nat :| SettledAt(s, j);
    assert SettledAt(t, j);
    SettlingKeepsDurable(s, t, i);
  }

  lemma SettlingKeepsDurable(s: State, t: State, i: nat)
    requires DurableOk(s) && BookShape(t.rows, t.sent) && i < |s.rows| == |t.rows| && A2Settled(t)
    requires t.rows == s.rows[i := s.rows[i].(status := Settled, booked := t.rows[i].booked)]
    requires t.sent == s.sent && t.saved == s.saved && t.brokerPos == s.brokerPos
    requires t.reduceQty == s.reduceQty
    ensures DurableOk(t)
  {
    assert forall j :: 0 <= j < |s.rows| ==> t.rows[j].cid == s.rows[j].cid && t.rows[j].side == s.rows[j].side
                                             && t.rows[j].qty == s.rows[j].qty && t.rows[j].pre == s.rows[j].pre;
  }

  lemma ActionKeepsInv(s: State, p: nat, a: Action)
    requires DurableOk(s) && p in s.procs && ProcOk(s, s.procs[p]) && ActionEnabled(s, s.procs[p], a)
    ensures var t := ActionApply(s, p, s.procs[p], a); DurableOk(t) && ProcOk(t, t.procs[p])
  {
    if MovesNoOrder(a) {
      QuietActionKeepsDurable(s, p, a);
      if BeforeA2Order(a) {
        EarlyActionKeepsProc(s, p, a);
      } else if a.FindA3? {
        FindA3KeepsProc(s, p);
      } else if a.RecordA2? {
        RecordA2KeepsProc(s, p);
      } else {
        LateActionKeepsProc(s, p, a);
      }
    } else if a.Barrier? {
      BarrierKeeps(s, p);
    } else if a.SettleA3? {
      SettleA3Keeps(s, p);
    } else {
      RouteKeepsDurable(s, p, a.move);
      RouteKeepsProc(s, p, a.move);
    }
  }

  lemma StepKeepsInv(s: State, step: Step)
    requires Inv(s) && Enabled(s, step)
    ensures Inv(Apply(s, step))
  {
    var t := Apply(s, step);
    match step
    case Enter(p, churn) =>
      assert s.procs == map[];
      SameBookKeepsDurable(s, t);
    case Act(p, a) =>
      ActionKeepsInv(s, p, a);
      ActionKeepsOthers(s, p, a);
      assert forall q :: q in t.procs ==> q == p;
    case Leave(p) =>
      SameBookKeepsDurable(s, t);
      assert forall q :: q in s.procs ==> q == p;
    case Crash(p) =>
      SameBookKeepsDurable(s, t);
      assert forall q :: q in s.procs ==> q == p;
    case OperatorClears =>
      SameBookKeepsDurable(s, t);
    case OperatorTrades(_, _) =>
      SameBookKeepsDurable(s, t);
    case Broker(e) => BrokerKeepsInv(s, e);
    case LossMoves(to) =>
      SameBookKeepsDurable(s, t);
      forall p | p in t.procs ensures ProcOk(t, t.procs[p]) {
        ElsewhereKeepsProc(s, t, s.procs[p]);
      }
  }

  /** The invariant holds after every run. */
  lemma {:induction false} RunKeepsInv(s: State, steps: seq<Step>)
    requires Inv(s) && Runs(s, steps)
    ensures Inv(After(s, steps))
    decreases |steps|
  {
    if |steps| > 0 {
      StepKeepsInv(s, steps[0]);
      RunKeepsInv(Apply(s, steps[0]), steps[1..]);
    }
  }

  // ---- rows and run id stay --------------------------------------------------------------------------

  /** The same run, and every row still there under its id and the position it was committed at. */
  ghost predicate RowsStay(s: State, t: State) {
    && t.reduceQty == s.reduceQty
    && |s.rows| <= |t.rows|
    && (forall i :: 0 <= i < |s.rows| ==> t.rows[i].cid == s.rows[i].cid && t.rows[i].pre == s.rows[i].pre)
    && (s.saved.Some? ==> t.saved.Some? && t.saved.value.runId == s.saved.value.runId)
  }

  lemma StepKeepsRows(s: State, step: Step)
    requires Inv(s) && Enabled(s, step)
    ensures RowsStay(s, Apply(s, step))
  {
    match step
    case Act(p, a) =>
      assert ProcOk(s, s.procs[p]);
      ActionKeepsRows(s, p, a);
    case _ =>
  }

  lemma ActionKeepsRows(s: State, p: nat, a: Action)
    requires p in s.procs && ProcOk(s, s.procs[p]) && ActionEnabled(s, s.procs[p], a)
    ensures RowsStay(s, ActionApply(s, p, s.procs[p], a))
  {}

  lemma {:induction false} RunKeepsRows(s: State, steps: seq<Step>)
    requires Inv(s) && Runs(s, steps)
    ensures RowsStay(s, After(s, steps))
    decreases |steps|
  {
    if |steps| > 0 {
      StepKeepsInv(s, steps[0]);
      StepKeepsRows(s, steps[0]);
      RunKeepsRows(Apply(s, steps[0]), steps[1..]);
    }
  }
}
