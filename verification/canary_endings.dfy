/** When an invocation of the canary goes on and when it does not, from what it finds. */
module CanaryEndings {
  import opened Options
  import opened Orders
  import opened Canary
  import opened CanarySafety
  import opened CanaryRunner

  /** An order row of this step of the run. */
  ghost predicate OnFile(rows: seq<Row>, runId: nat, step: StepName) {
    exists i :: 0 <= i < |rows| && rows[i].cid == CanaryStep(runId, step)
  }

  /** A completed checkpoint is refused exactly when A3's order or the rest of its evidence is missing, and is
      complete otherwise. */
  lemma CompletedEnds(w: World, loss: LossState, saved: Saved, a2: Submission, a3: Submission, evidence: bool)
    requires saved.done == {A1, A2, A3, A4, A5}
    ensures RunEnding(w, loss, saved, a2, a3, evidence)
            == (if evidence && OnFile(w.rows, saved.runId, A3) then AlreadyComplete else Refuse)
  {}

  /** Any other checkpoint, whatever it has recorded, is refused exactly for a loss state that is not
      reduction-only, for a leg that is not held, or for a first sell of more than is held. */
  lemma RefusedIff(w: World, loss: LossState, saved: Saved, a2: Submission, a3: Submission, evidence: bool)
    requires saved.done != {A1, A2, A3, A4, A5}
    ensures RunEnding(w, loss, saved, a2, a3, evidence) == Refuse <==>
              || loss != ReductionOnly || w.wire.brokerPos <= 0.0
              || (!OnFile(w.rows, saved.runId, A2) && w.wire.brokerPos < w.qty)
  {
    RefusedStepsIff(w, saved.runId, a2, a3);
  }

  lemma RefusedStepsIff(w: World, runId: nat, a2: Submission, a3: Submission)
    ensures StepsEnding(w, runId, a2, a3) == Refuse <==> !OnFile(w.rows, runId, A2) && w.wire.brokerPos < w.qty
  {}

  /** The preconditions of `run`. */
  predicate Ready(w: World, loss: LossState, saved: Saved) {
    saved.done != {A1, A2, A3, A4, A5} && loss == ReductionOnly && 0.0 < w.wire.brokerPos
  }

  /** Once the broker's events are over, its order `k` is closed, and booking what it filled beyond `booked` makes
      the local position the broker's. */
  predicate SoldAndAgreed(v: Wire, k: nat, booked: real, localPos: real) {
    && k < |v.sent| && v.sent[k].state.Closed?
    && localPos - (v.sent[k].state.filled - booked) == v.brokerPos
  }

  /** A request of this side, sent now, is at the broker when the answer is over. */
  predicate Arrives(w: World, row: nat, id: ClientId, side: Side, answer: seq<BrokerEvent>) {
    var v := AfterEvents(Wire(w.wire.sent + [Request(row, id, side, w.qty, InFlight)], w.wire.brokerPos), answer);
    v.sent[|w.wire.sent|].state.Working? || v.sent[|w.wire.sent|].state.Closed?
  }

  /** How a run ends behind the settled sell: an A3 order that is there, or a buy that is turned down, lets it go
      on; a buy that reaches the broker stops it; and a buy without an answer raises. */
  ghost predicate EndsBehindA2(w: World, row: nat, runId: nat, v: Wire, a3: Submission, end: Ending) {
    if OnFile(w.rows, runId, A3) || a3.fate == NoRow || a3.fate == RefusedByRisk || a3.fate == RefusedByBroker then
      end == Continue
    else if a3.fate == Sent && Arrives(w.(wire := v), row, CanaryStep(runId, A3), Buy, a3.answer) then
      end == Stop
    else
      end == Raise
  }

  /** A run that finds A2's order: it stops exactly when the order does not settle, submits no sell, and otherwise
      ends as A3 says. */
  lemma ResumedEnds(w: World, loss: LossState, saved: Saved, a2: Submission, a3: Submission, evidence: bool, i: nat)
    requires Ready(w, loss, saved) && OneRowPerId(w.rows)
    requires i < |w.rows| && w.rows[i].cid == CanaryStep(saved.runId, A2)
    ensures var v, end := AfterEvents(w.wire, a2.settling), RunEnding(w, loss, saved, a2, a3, evidence);
            if w.rows[i].brokerId.Some? && SoldAndAgreed(v, w.rows[i].brokerId.value, w.rows[i].booked, w.localPos)
            then EndsBehindA2(w, |w.rows|, saved.runId, v, a3, end) else end == Stop
  {
    var v := AfterEvents(w.wire, a2.settling);
    assert NewestRow(w.rows, CanaryStep(saved.runId, A2)) == Some(i);
    var prospect := SellProspect(w, i, a2.settling);
    if prospect.GoesOn? {
      EditKeepsOnFile(w.rows, i, prospect.world.rows[i], saved.runId);
      A3Ends(w, prospect.world, v, saved.runId, a3);
    }
  }

  lemma EditKeepsOnFile(rows: seq<Row>, i: nat, row: Row, runId: nat)
    requires i < |rows| && row.cid == rows[i].cid
    ensures OnFile(rows[i := row], runId, A3) <==> OnFile(rows, runId, A3)
  {
    var after := rows[i := row];
    assert forall j :: 0 <= j < |rows| ==> after[j].cid == rows[j].cid;
  }

  lemma A3Ends(w: World, after: World, v: Wire, runId: nat, a3: Submission)
    requires after.wire == v && after.qty == w.qty
    requires OnFile(after.rows, runId, A3) <==> OnFile(w.rows, runId, A3)
    ensures EndsBehindA2(w, |after.rows|, runId, v, a3, A3Ending(after, CanaryStep(runId, A3), a3))
  {}

  /** A run that finds no order of A2's and enough to sell: a sell that is turned down stops it, one without an
      answer raises, and one that arrives is settled like an order that was there. */
  lemma FirstSellEnds(w: World, loss: LossState, saved: Saved, a2: Submission, a3: Submission, evidence: bool)
    requires Ready(w, loss, saved) && !OnFile(w.rows, saved.runId, A2) && w.qty <= w.wire.brokerPos
    ensures var id, end := CanaryStep(saved.runId, A2), RunEnding(w, loss, saved, a2, a3, evidence);
            if a2.fate == NoRow || a2.fate == RefusedByRisk || a2.fate == RefusedByBroker then end == Stop
            else if !(a2.fate == Sent && Arrives(w, |w.rows|, id, Sell, a2.answer)) then end == Raise
            else
              var sent := Wire(w.wire.sent + [Request(|w.rows|, id, Sell, w.qty, InFlight)], w.wire.brokerPos);
              var v := AfterEvents(AfterEvents(sent, a2.answer), a2.settling);
              if SoldAndAgreed(v, |w.wire.sent|, 0.0, w.localPos)
              then EndsBehindA2(w, |w.rows| + 1, saved.runId, v, a3, end) else end == Stop
  {
    var id := CanaryStep(saved.runId, A2);
    assert NewestRow(w.rows, id).None?;
    if a2.fate == Sent && Taken(w, id, Sell, a2) {
      var taken := TakenWorld(w, id, Sell, a2.answer);
      var prospect := SellProspect(taken, |w.rows|, a2.settling);
      if prospect.GoesOn? {
        assert OnFile(taken.rows, saved.runId, A3) <==> OnFile(w.rows, saved.runId, A3) by {
          AppendKeepsOnFile(w.rows, SubmittedRow(w, id, Sell), saved.runId);
        }
        EditKeepsOnFile(taken.rows, |w.rows|, prospect.world.rows[|w.rows|], saved.runId);
        A3Ends(w, prospect.world, prospect.world.wire, saved.runId, a3);
      }
    }
  }

  lemma AppendKeepsOnFile(rows: seq<Row>, row: Row, runId: nat)
    requires row.cid != CanaryStep(runId, A3)
    ensures OnFile(rows + [row], runId, A3) <==> OnFile(rows, runId, A3)
  {
    var after := rows + [row];
    assert forall j :: 0 <= j < |rows| ==> after[j] == rows[j];
  }

  // ---- a run that was interrupted behind its settled sell ------------------------------------------------------

  /** Nothing on the wire or at the broker can still move. */
  ghost predicate Quiet(sent: seq<Request>) {
    forall k :: 0 <= k < |sent| ==> sent[k].state.Dropped? || sent[k].state.Closed?
  }

  lemma {:induction false} QuietStays(w: Wire, script: seq<BrokerEvent>)
    requires Quiet(w.sent)
    ensures AfterEvents(w, script) == w
    decreases |script|
  {
    if script != [] { QuietStays(w, script[1..]); }
  }

  /** However a life ended behind the settled sell, the next one resumes: with the lock cleared, the leg held, the
      account in reduction-only, the ledgers agreeing and nothing moving, it comes through to the end when A3 has
      its order or has it turned down. */
  lemma ResumesBehindSettledA2(start: State, history: seq<Step>, a2: Submission, a3: Submission, evidence: bool)
    requires Init(start) && Runs(start, history)
    requires var s := After(start, history);
             && A2Settled(s) && s.saved.value.done != {A1, A2, A3, A4, A5}
             && s.loss == ReductionOnly && 0.0 < s.brokerPos && s.localPos == s.brokerPos && Quiet(s.sent)
             && (HasRow(s, A3) || a3.fate == NoRow || a3.fate == RefusedByRisk || a3.fate == RefusedByBroker)
    ensures var s := After(start, history); RunEnding(WorldOf(s), s.loss, s.saved.value, a2, a3, evidence) == Continue
  {
    InitInv(start);
    RunKeepsInv(start, history);
    var s := After(start, history);
    var i: nat :| SettledAt(s, i);
    QuietStays(Wire(s.sent, s.brokerPos), a2.settling);
    ResumedEnds(WorldOf(s), s.loss, s.saved.value, a2, a3, evidence, i);
    if HasRow(s, A3) {
      var j :| 0 <= j < |s.rows| && IsId(s, s.rows[j].cid, A3);
      assert s.rows[j].cid == CanaryStep(s.saved.value.runId, A3);
    }
  }
}
