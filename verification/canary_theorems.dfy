/** The canary's promises, each over every run from an empty disk. */
module CanaryTheorems {
  import opened Options
  import opened Orders
  import opened Canary
  import opened CanarySafety

  // ---- mutual exclusion and at most one order per id ---------------------------------------------------

  /** However often processes start, crash and restart: one process at most is inside the lock, each
      client order id has at most one row and at most one request, and there is never a request the
      local ledger does not know. */
  lemma AtMostOnce(s: State, steps: seq<Step>)
    requires Init(s) && Runs(s, steps)
    ensures var t := After(s, steps);
            && (forall p, q :: p in t.procs && q in t.procs ==> p == q)
            && OneRowPerId(t.rows)
            && OneRequestPerId(t.sent)
            && RequestsHaveRows(t.rows, t.sent)
            && (forall k :: 0 <= k < |t.sent| ==> IsId(t, t.sent[k].cid, A2) || IsId(t, t.sent[k].cid, A3))
  {
    InitInv(s);
    RunKeepsInv(s, steps);
  }

  function Ids(sent: seq<Request>): (ids: seq<ClientId>)
    ensures |ids| == |sent| && forall k :: 0 <= k < |sent| ==> ids[k] == sent[k].cid
  {
    seq(|sent|, k requires 0 <= k < |sent| => sent[k].cid)
  }

  lemma {:induction false} DistinctAreFew(ids: seq<ClientId>, pool: set<ClientId>)
    requires forall i, j :: 0 <= i < j < |ids| ==> ids[i] != ids[j]
    requires forall i :: 0 <= i < |ids| ==> ids[i] in pool
    ensures |ids| <= |pool|
  {
    if |ids| > 0 {
      var last := |ids| - 1;
      DistinctAreFew(ids[..last], pool - {ids[last]});
      assert |pool - {ids[last]}| == |pool| - 1;
    }
  }

  /** Hence at most one sell and one buy of the leg ever leave for the broker. */
  lemma AtMostTwoRequests(s: State, steps: seq<Step>)
    requires Init(s) && Runs(s, steps)
    ensures |After(s, steps).sent| <= 2
  {
    AtMostOnce(s, steps);
    var t := After(s, steps);
    var pool := if t.saved.Some? then {t.saved.value.ClientIdOf(A2), t.saved.value.ClientIdOf(A3)} else {};
    DistinctAreFew(Ids(t.sent), pool);
  }

  // ---- the rebind can always verify its own arithmetic ---------------------------------------------------

  /** Whenever a restarted run rebinds to A2's order, the order is in the local ledger with the right side
      and quantity, and the recorded intent is the position at that order's submission less the reduced
      quantity: none of the three refusals of the rebind branch can fire. */
  lemma RebindIsSound(s: State, steps: seq<Step>, p: nat)
    requires Init(s) && Runs(s, steps)
    requires p in After(s, steps).procs && After(s, steps).procs[p].pc.A2Found?
    ensures var t := After(s, steps);
            var proc := t.procs[p];
            && ActionEnabled(t, proc, RebindA2)
            && proc.pc.found.Local? && proc.pc.found.row < |t.rows|
            && proc.mem.value.intent == Some(Intent(t.rows[proc.pc.found.row].pre,
                                                    t.rows[proc.pc.found.row].pre - t.reduceQty))
  {
    InitInv(s);
    RunKeepsInv(s, steps);
    var t := After(s, steps);
    assert ProcOk(t, t.procs[p]);
  }

  // ---- A2 settles before A3 is submitted --------------------------------------------------------------------

  /** No step of the list starts or ends a life of process `p`. */
  ghost predicate SameLife(p: nat, steps: seq<Step>) {
    forall j :: 0 <= j < |steps| ==> !BeginsOrEnds(steps[j], p)
  }

  predicate BeginsOrEnds(step: Step, p: nat) {
    (step.Enter? && step.p == p) || step == Leave(p) || step == Crash(p)
  }

  /** A process holding the barrier mark got it from its own barrier, in this life. */
  ghost predicate MarkEarned(p: nat, steps: seq<Step>) {
    exists i :: 0 <= i < |steps| && steps[i] == Act(p, Barrier) && SameLife(p, steps[i + 1..])
  }

  lemma {:induction false} MarkHasCause(s: State, steps: seq<Step>, p: nat)
    requires Runs(s, steps) && p in After(s, steps).procs && After(s, steps).procs[p].barrier
    ensures MarkEarned(p, steps) || (p in s.procs && s.procs[p].barrier && SameLife(p, steps))
    decreases |steps|
  {
    if |steps| > 0 {
      var t := Apply(s, steps[0]);
      MarkHasCause(t, steps[1..], p);
      if MarkEarned(p, steps[1..]) {
        var i :| 0 <= i < |steps| - 1 && steps[1..][i] == Act(p, Barrier) && SameLife(p, steps[1..][i + 1..]);
        assert steps[1..][i + 1..] == steps[i + 2..];
        assert steps[i + 1] == Act(p, Barrier);
      } else if steps[0] == Act(p, Barrier) {
        assert steps[0 + 1..] == steps[1..];
      } else {
        StepKeepsMark(s, steps[0], p);
        assert forall j :: 1 <= j < |steps| ==> steps[j] == steps[1..][j - 1];
      }
    }
  }

  lemma StepKeepsMark(s: State, step: Step, p: nat)
    requires Enabled(s, step) && step != Act(p, Barrier)
    requires p in Apply(s, step).procs && Apply(s, step).procs[p].barrier
    ensures p in s.procs && s.procs[p].barrier && !BeginsOrEnds(step, p)
  {
    match step
    case Act(q, a) => ActionKeepsOthers(s, q, a);
    case _ =>
  }

  /** A3's row is committed only by a process whose own barrier has returned for A2 earlier in the same
      life, and A2's order is then closed at the broker with every fill booked. */
  lemma A3OnlyAfterBarrier(s: State, steps: seq<Step>, p: nat)
    requires Init(s) && Runs(s, steps)
    requires p in After(s, steps).procs
    requires After(s, steps).procs[p].pc == Routing(A3, Evaluating)
    ensures MarkEarned(p, steps)
    ensures A2Settled(After(s, steps))
  {
    InitInv(s);
    RunKeepsInv(s, steps);
    var t := After(s, steps);
    assert ProcOk(t, t.procs[p]);
    MarkHasCause(s, steps, p);
  }

  // ---- what the barrier establishes ------------------------------------------------------------------------------

  /** No request for A3 has traded anything. */
  ghost predicate A3Untraded(s: State) {
    forall k :: 0 <= k < |s.sent| && IsId(s, s.sent[k].cid, A3) ==> s.sent[k].Filled() == 0.0
  }

  /** The position without this run's own fills. */
  function Base(s: State): real {
    s.brokerPos - Net(s.sent)
  }

  lemma {:induction false} NetOfNone(sent: seq<Request>)
    requires forall j :: 0 <= j < |sent| ==> sent[j].Effect() == 0.0
    ensures Net(sent) == 0.0
  {
    if |sent| > 0 { NetOfNone(sent[..|sent| - 1]); }
  }

  lemma {:induction false} NetOfOne(sent: seq<Request>, k: nat)
    requires k < |sent| && forall j :: 0 <= j < |sent| && j != k ==> sent[j].Effect() == 0.0
    ensures Net(sent) == sent[k].Effect()
  {
    var last := |sent| - 1;
    if k == last { NetOfNone(sent[..last]); } else { NetOfOne(sent[..last], k); }
  }

  /** When A2's barrier returns the two ledgers agree.  The position A2 asserts is the recorded expectation
      exactly when what the broker left unfilled was made up by hand since the order was committed: without
      hand trading, exactly when the whole order was filled.  So a cancelled or partly filled reduction passes
      the barrier and fails the assertion. */
  lemma BarrierMeansFilled(s: State, steps: seq<Step>, p: nat)
    requires Init(s) && Runs(s, steps) && Enabled(After(s, steps), Act(p, Barrier))
    requires A3Untraded(After(s, steps))
    ensures var t := Apply(After(s, steps), Act(p, Barrier));
            var i := t.procs[p].pc.row;
            && t.localPos == t.brokerPos
            && t.saved.Some? && t.saved.value.intent.Some?
            && i < |t.rows|
            && (t.brokerPos == t.saved.value.intent.value.expected
                <==> Base(t) - t.rows[i].pre == t.rows[i].booked - t.reduceQty)
  {
    InitInv(s);
    RunKeepsInv(s, steps);
    var u := After(s, steps);
    assert ProcOk(u, u.procs[p]);
    OnlyA2Trades(u, u.procs[p].pc.row);
  }

  lemma OnlyA2Trades(s: State, i: nat)
    requires BookOk(s) && A3Untraded(s) && IsA2Row(s, i) && s.rows[i].brokerId.Some?
    ensures s.rows[i].brokerId.value < |s.sent|
    ensures Net(s.sent) == -s.sent[s.rows[i].brokerId.value].Filled()
  {
    var k := s.rows[i].brokerId.value;
    assert Agree(s.rows[i], s.sent[k]);
    forall j | 0 <= j < |s.sent| && j != k ensures s.sent[j].Effect() == 0.0 {
      assert s.sent[j].cid != s.sent[k].cid;
      assert IsId(s, s.rows[s.sent[j].row].cid, A3);
    }
    NetOfOne(s.sent, k);
  }

  /** What the operator traded by hand during a run. */
  function ByHand(s: State, steps: seq<Step>): real
    requires Runs(s, steps)
    decreases |steps|
  {
    if |steps| == 0 then 0.0
    else (if steps[0].OperatorTrades? then steps[0].broker - s.brokerPos else 0.0) + ByHand(Apply(s, steps[0]), steps[1..])
  }

  lemma StepKeepsBase(s: State, step: Step)
    requires Inv(s) && Enabled(s, step)
    ensures Base(Apply(s, step)) == Base(s) + (if step.OperatorTrades? then step.broker - s.brokerPos else 0.0)
  {
    match step
    case Act(p, a) =>
      assert ProcOk(s, s.procs[p]);
      if a.Route? { RouteIsOnward(s, p, a.move); } else { QuietKeepsBase(s, p, a); }
    case Broker(e) => BrokerEventIsLater(s.sent, e, s.brokerPos);
    case _ =>
  }

  lemma QuietKeepsBase(s: State, p: nat, a: Action)
    requires p in s.procs && ActionEnabled(s, s.procs[p], a) && !a.Route?
    ensures var t := ActionApply(s, p, s.procs[p], a);
            t.brokerPos == s.brokerPos && t.sent == s.sent
  {}

  /** The base moves by the operator's trades and by nothing else, whatever the processes and the broker do. */
  lemma {:induction false} BaseMovesByHand(s: State, steps: seq<Step>)
    requires Inv(s) && Runs(s, steps)
    ensures Base(After(s, steps)) == Base(s) + ByHand(s, steps)
    decreases |steps|
  {
    if |steps| > 0 {
      StepKeepsBase(s, steps[0]);
      StepKeepsInv(s, steps[0]);
      BaseMovesByHand(Apply(s, steps[0]), steps[1..]);
    }
  }

  /** Together: from the moment A2's row is committed until its barrier returns, in any later life, the position
      differs from the expectation by the unfilled part of the order and the trades made by hand between. */
  lemma PositionAtBarrier(s: State, first: seq<Step>, q: nat, rest: seq<Step>, p: nat)
    requires Init(s) && Runs(s, first) && q in After(s, first).procs
    requires After(s, first).procs[q].pc == Routing(A2, Evaluating)
    requires Enabled(After(s, first), Act(q, Route(Persist)))
    requires var u := Apply(After(s, first), Act(q, Route(Persist)));
             Runs(u, rest) && Enabled(After(u, rest), Act(p, Barrier)) && A3Untraded(After(u, rest))
    ensures var u := Apply(After(s, first), Act(q, Route(Persist)));
            var t := Apply(After(u, rest), Act(p, Barrier));
            var i := t.procs[p].pc.row;
            && t.saved.Some? && t.saved.value.intent.Some? && i < |t.rows|
            && t.brokerPos - t.saved.value.intent.value.expected
               == t.reduceQty - t.rows[i].booked + ByHand(u, rest)
  {
    InitInv(s);
    RunKeepsInv(s, first);
    var v := After(s, first);
    CommittedAtBase(v, q);
    StepKeepsInv(v, Act(q, Route(Persist)));
    BarrierSinceCommit(Apply(v, Act(q, Route(Persist))), rest, p);
  }

  lemma BarrierSinceCommit(u: State, rest: seq<Step>, p: nat)
    requires Inv(u) && IsA2Row(u, 0) && u.rows[0].pre == Base(u)
    requires Runs(u, rest) && Enabled(After(u, rest), Act(p, Barrier)) && A3Untraded(After(u, rest))
    ensures var t := Apply(After(u, rest), Act(p, Barrier));
            var i := t.procs[p].pc.row;
            && t.saved.Some? && t.saved.value.intent.Some? && i < |t.rows|
            && t.brokerPos - t.saved.value.intent.value.expected == t.reduceQty - t.rows[i].booked + ByHand(u, rest)
  {
    BaseMovesByHand(u, rest);
    RunKeepsInv(u, rest);
    RunKeepsRows(u, rest);
    assert IsA2Row(After(u, rest), 0);
    GapAtBarrier(After(u, rest), p);
  }

  /** At the barrier: the difference is the unfilled part and what the base has moved since the commit. */
  lemma GapAtBarrier(s: State, p: nat)
    requires Inv(s) && IsA2Row(s, 0) && Enabled(s, Act(p, Barrier)) && A3Untraded(s)
    ensures var t := Apply(s, Act(p, Barrier));
            var i := t.procs[p].pc.row;
            && t.saved.Some? && t.saved.value.intent.Some? && i < |t.rows|
            && t.brokerPos - t.saved.value.intent.value.expected
               == t.reduceQty - t.rows[i].booked + (Base(s) - s.rows[0].pre)
  {
    assert ProcOk(s, s.procs[p]);
    OnlyA2Trades(s, s.procs[p].pc.row);
  }

  lemma CommittedAtBase(s: State, q: nat)
    requires Inv(s) && q in s.procs && s.procs[q].pc == Routing(A2, Evaluating)
    requires Enabled(s, Act(q, Route(Persist)))
    ensures var u := Apply(s, Act(q, Route(Persist)));
            |u.rows| == 1 && u.rows[0].pre == Base(u) && IsA2Row(u, 0)
  {
    assert ProcOk(s, s.procs[q]);
    NoA2RowMeansUntouched(s);
  }
}
