/** What every run of the churn driver keeps. */
module ChurnSafety {
  import opened Options
  import opened Orders
  import opened Churn

  // ---- identity: every run ---------------------------------------------------------------------------------

  ghost predicate Exclusive(s: State) {
    forall p :: p in s.procs ==> s.lock == Some(p)
  }

  /** The leg keys are exactly 0 to k-1. */
  ghost predicate KeysOk(mem: Saved) {
    forall i: nat :: i in mem.legs <==> i < |mem.legs|
  }

  ghost predicate IsLeg(s: State, cid: ClientId) {
    s.saved.Some? && cid.ChurnLeg? && cid.runId == s.saved.value.runId && cid.index in s.saved.value.legs
  }

  /** Every row is a recorded leg's, and for a positive number of shares. */
  ghost predicate RowIds(s: State) {
    forall i :: 0 <= i < |s.rows| ==> IsLeg(s, s.rows[i].cid) && 0.0 < s.rows[i].qty
  }

  ghost predicate LedgerOk(s: State) {
    && BookShape(s.rows, s.sent)
    && RowIds(s)
    && (s.saved.Some? ==> KeysOk(s.saved.value))
  }

  ghost predicate OwnLeg(s: State, proc: Process, i: nat) {
    && s.saved.Some? && proc.index in s.saved.value.legs
    && i < |s.rows| && s.rows[i].cid == s.saved.value.ClientIdOf(proc.index)
  }

  predicate OnLeg(pc: Pc) {
    pc.LegFind? || pc.LegNew? || pc.Routing? || pc.LegBarrier? || pc.LegSettled? || pc.LegVerify?
  }

  ghost predicate ProcOk(s: State, proc: Process) {
    && 0.0 <= proc.qty && (OnLeg(proc.pc) ==> 0.0 < proc.qty)
    && (proc.pc != Entered ==> s.saved.Some? && proc.mem == s.saved)
    && match proc.pc
       case LegFind(_) => proc.index == s.saved.value.NextIndex()
       case LegNew(_) => proc.index == s.saved.value.NextIndex()
       case LegRebound(_, _) => false
       case Routing(_, at) =>
         proc.index in s.saved.value.legs && RouterOn(s.rows, s.sent, s.saved.value.ClientIdOf(proc.index), at)
       case LegBarrier(_, i) => OwnLeg(s, proc, i)
       case LegSettled(_, i) => OwnLeg(s, proc, i)
       case LegVerify(_, i) => OwnLeg(s, proc, i)
       case _ => true
  }

  ghost predicate Inv(s: State) {
    && Exclusive(s)
    && LedgerOk(s)
    && forall p :: p in s.procs ==> ProcOk(s, s.procs[p])
  }

  lemma InitInv(s: State)
    requires Init(s)
    ensures Inv(s)
  {}

  /** No order can carry the next index: `run_leg`'s lookup comes back empty. */
  lemma NextIndexIsUnused(s: State)
    requires LedgerOk(s) && s.saved.Some?
    ensures LookUp(s, s.saved.value, s.saved.value.NextIndex()).None?
  {
    var cid := s.saved.value.ClientIdOf(s.saved.value.NextIndex());
    assert NoRow(s.rows, cid);
    assert NoRequest(s.sent, cid);
  }

  lemma LegKeys(mem: Saved, index: nat, leg: LegRecord)
    requires KeysOk(mem) && index <= |mem.legs|
    ensures KeysOk(mem.(legs := mem.legs[index := leg]))
    ensures forall i: nat :: i in mem.legs ==> i in mem.legs[index := leg]
  {
    if index in mem.legs {
      assert mem.legs[index := leg].Keys == mem.legs.Keys;
    } else {
      assert mem.legs[index := leg].Keys == mem.legs.Keys + {index};
    }
    assert |mem.legs[index := leg].Keys| == |mem.legs[index := leg]| && |mem.legs.Keys| == |mem.legs|;
  }

  /** Steps that touch no row and no request: the checkpoint may only gain legs. */
  ghost predicate SameOrders(s: State, t: State) {
    && t.rows == s.rows && t.sent == s.sent
    && (s.saved.Some? ==>
          && t.saved.Some? && t.saved.value.runId == s.saved.value.runId
          && (forall i: nat :: i in s.saved.value.legs ==> i in t.saved.value.legs))
    && (t.saved.Some? ==> KeysOk(t.saved.value))
  }

  lemma SameOrdersKeepsLedger(s: State, t: State)
    requires LedgerOk(s) && SameOrders(s, t)
    ensures LedgerOk(t)
  {}

  lemma QuietActionKeeps(s: State, p: nat, a: Action)
    requires LedgerOk(s) && p in s.procs && ProcOk(s, s.procs[p])
    requires ActionEnabled(s, s.procs[p], a) && !a.Route? && !a.Barrier?
    ensures var t := ActionApply(s, p, s.procs[p], a); SameOrders(s, t) && ProcOk(t, t.procs[p])
  {
    var proc := s.procs[p];
    match a
    case FindLeg => NextIndexIsUnused(s);
    case RecordIntent => LegKeys(s.saved.value, proc.index, LegRecord(proc.pc.side, proc.qty, false)); NextIndexIsUnused(s);
    case RecordLeg => LegKeys(s.saved.value, proc.index, LegRecord(proc.pc.side, proc.qty, true));
    case _ =>
  }

  lemma RouteKeepsLedger(s: State, p: nat, m: RouterMove)
    requires LedgerOk(s) && p in s.procs && ProcOk(s, s.procs[p]) && ActionEnabled(s, s.procs[p], Route(m))
    ensures var t := ActionApply(s, p, s.procs[p], Route(m)); LedgerOk(t)
  {
    var proc := s.procs[p];
    var cid := s.saved.value.ClientIdOf(proc.index);
    RouterKeepsShape(s.rows, s.sent, cid, proc.pc.at, m, NewRow(s, proc));
    RouterTouchesOneRow(s.rows, s.sent, cid, proc.pc.at, m, NewRow(s, proc));
  }

  lemma RouteKeepsProc(s: State, p: nat, m: RouterMove)
    requires LedgerOk(s) && p in s.procs && ProcOk(s, s.procs[p]) && ActionEnabled(s, s.procs[p], Route(m))
    ensures var t := ActionApply(s, p, s.procs[p], Route(m)); ProcOk(t, t.procs[p])
  {
    var proc := s.procs[p];
    RouterKeepsPlace(s.rows, s.sent, s.saved.value.ClientIdOf(proc.index), proc.pc.at, m, NewRow(s, proc));
  }

  lemma BarrierKeeps(s: State, p: nat)
    requires LedgerOk(s) && p in s.procs && ProcOk(s, s.procs[p]) && ActionEnabled(s, s.procs[p], Barrier)
    ensures var t := ActionApply(s, p, s.procs[p], Barrier); LedgerOk(t) && ProcOk(t, t.procs[p])
  {
    var i := s.procs[p].pc.row;
    EditRowKeeps(s.rows, s.sent, i, ActionApply(s, p, s.procs[p], Barrier).rows[i]);
  }

  lemma ActionKeepsOthers(s: State, p: nat, a: Action)
    requires p in s.procs && ActionEnabled(s, s.procs[p], a)
    ensures var t := ActionApply(s, p, s.procs[p], a); t.lock == s.lock && t.procs.Keys == s.procs.Keys && t.bounds == s.bounds
  {}

  lemma ActionKeepsInv(s: State, p: nat, a: Action)
    requires LedgerOk(s) && p in s.procs && ProcOk(s, s.procs[p]) && ActionEnabled(s, s.procs[p], a)
    ensures var t := ActionApply(s, p, s.procs[p], a); LedgerOk(t) && ProcOk(t, t.procs[p])
  {
    if a.Route? {
      RouteKeepsLedger(s, p, a.move);
      RouteKeepsProc(s, p, a.move);
    } else if a.Barrier? {
      BarrierKeeps(s, p);
    } else {
      QuietActionKeeps(s, p, a);
      SameOrdersKeepsLedger(s, ActionApply(s, p, s.procs[p], a));
    }
  }

  lemma BrokerKeepsInv(s: State, e: BrokerEvent)
    requires Inv(s) && BrokerMay(s.sent, e)
    ensures Inv(Apply(s, Broker(e)))
  {
    var t := Apply(s, Broker(e));
    BrokerEventIsLater(s.sent, e, s.brokerPos);
    LaterKeepsBook(s.rows, s.sent, t.sent);
    forall p | p in t.procs ensures ProcOk(t, t.procs[p]) {
      LaterKeepsProc(s, t, s.procs[p]);
    }
  }

  lemma LaterKeepsProc(s: State, t: State, proc: Process)
    requires ProcOk(s, proc) && SameRequests(s.sent, t.sent)
    requires t == s.(sent := t.sent, brokerPos := t.brokerPos)
    ensures ProcOk(t, proc)
  {
    assert forall k :: 0 <= k < |s.sent| ==> Later(s.sent[k], t.sent[k]);
  }

  lemma StepKeepsInv(s: State, step: Step)
    requires Inv(s) && Enabled(s, step)
    ensures Inv(Apply(s, step))
  {
    match step
    case Act(p, a) =>
      ActionKeepsInv(s, p, a);
      ActionKeepsOthers(s, p, a);
      assert forall q :: q in s.procs ==> q == p;
    case Broker(e) => BrokerKeepsInv(s, e);
    case Enter(p) => assert s.procs == map[];
    case Leave(p) => assert forall q :: q in s.procs ==> q == p;
    case Crash(p) => assert forall q :: q in s.procs ==> q == p;
    case OperatorClears =>
    case OperatorTrades(_, _) =>
    case DayMoves(_) =>
  }

  lemma {:induction false} RunKeepsInv(s: State, steps: seq<Step>)
    requires Inv(s) && Runs(s, steps)
    ensures Inv(After(s, steps))
    decreases |steps|
  {
    if |steps| > 0 {
      StepKeepsInv(s, steps[0]);
      RunKeepsInv(Apply(s, steps[0]), steps[1..]);
    }
  }
}
