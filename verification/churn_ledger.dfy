/** What a caller can see of a request in flight: its row waits in the ledger without a broker id. */
module ChurnLedger {
  import opened Options
  import opened Orders
  import opened Churn
  import opened ChurnSafety
  import opened ChurnExposure
  import Theorems = ChurnTheorems

  /** The row was handed to the broker and no answer is recorded. */
  predicate Waiting(rows: seq<Row>, i: nat) {
    i < |rows| && rows[i].status == PendingSubmit && rows[i].brokerId.None?
  }

  ghost predicate FlightsShow(rows: seq<Row>, sent: seq<Request>) {
    forall k :: 0 <= k < |sent| && sent[k].state.InFlight? ==> Waiting(rows, sent[k].row)
  }

  predicate RouterWaits(rows: seq<Row>, at: RouterPc) {
    at.Pending? || at.Calling? ==> Waiting(rows, at.row)
  }

  ghost predicate Shown(s: State) {
    && FlightsShow(s.rows, s.sent)
    && forall p :: p in s.procs && s.procs[p].pc.Routing? ==> RouterWaits(s.rows, s.procs[p].pc.at)
  }

  /** No other request belongs to the row in hand. */
  lemma OwnFlight(rows: seq<Row>, sent: seq<Request>, cid: ClientId, at: RouterPc, k: nat)
    requires BookShape(rows, sent) && RouterOn(rows, sent, cid, at) && !at.Evaluating?
    requires k < |sent| && sent[k].row == at.row
    ensures at.Calling? && k == at.request
  {
    assert Agree(rows[sent[k].row], sent[k]);
  }

  lemma RouterShows(rows: seq<Row>, sent: seq<Request>, cid: ClientId, at: RouterPc, m: RouterMove, added: Row)
    requires BookShape(rows, sent) && RouterOn(rows, sent, cid, at) && RouterMay(rows, sent, at, m)
    requires FlightsShow(rows, sent) && RouterWaits(rows, at) && added.brokerId.None?
    ensures FlightsShow(RouterRows(rows, sent, at, m, added), RouterSent(rows, sent, at, m))
    ensures var next := RouterNext(rows, sent, at, m);
            next.Routed? ==> RouterWaits(RouterRows(rows, sent, at, m, added), next.at)
  {
    var after, wire := RouterRows(rows, sent, at, m, added), RouterSent(rows, sent, at, m);
    forall k | 0 <= k < |wire| && wire[k].state.InFlight? ensures Waiting(after, wire[k].row) {
      if k < |sent| {
        assert sent[k].state.InFlight? && Waiting(rows, sent[k].row);
        if !at.Evaluating? && sent[k].row == at.row {
          OwnFlight(rows, sent, cid, at, k);
        }
      }
    }
  }

  lemma RouteShows(s: State, p: nat, m: RouterMove)
    requires Inv(s) && Shown(s) && p in s.procs && ActionEnabled(s, s.procs[p], Route(m))
    ensures Shown(ActionApply(s, p, s.procs[p], Route(m)))
  {
    var proc := s.procs[p];
    assert ProcOk(s, proc);
    assert forall q :: q in s.procs ==> q == p;
    RouterShows(s.rows, s.sent, s.saved.value.ClientIdOf(proc.index), proc.pc.at, m, NewRow(s, proc));
  }

  /** The other actions hand nothing to the router but an order that has no row yet. */
  lemma QuietShows(s: State, p: nat, a: Action)
    requires Inv(s) && Shown(s) && p in s.procs && ActionEnabled(s, s.procs[p], a) && !a.Route?
    ensures Shown(ActionApply(s, p, s.procs[p], a))
  {
    assert forall q :: q in s.procs ==> q == p;
  }

  lemma StepShows(s: State, step: Step)
    requires Inv(s) && Shown(s) && Enabled(s, step)
    ensures Shown(Apply(s, step))
  {
    match step
    case Act(p, a) => if a.Route? { RouteShows(s, p, a.move); } else { QuietShows(s, p, a); }
    case Broker(e) => assert forall k :: 0 <= k < |s.sent| && k != e.k ==> Apply(s, step).sent[k] == s.sent[k];
    case _ =>
  }

  lemma {:induction false} RunShows(s: State, steps: seq<Step>)
    requires Inv(s) && Shown(s) && Runs(s, steps)
    ensures Shown(After(s, steps))
    decreases |steps|
  {
    if |steps| > 0 {
      StepShows(s, steps[0]);
      StepKeepsInv(s, steps[0]);
      RunShows(Apply(s, steps[0]), steps[1..]);
    }
  }

  /** In every reachable state a request in flight has its row waiting, so a ledger in which no row waits means an
      empty wire. */
  lemma ClearLedgerMeansNoneInFlight(s: State, steps: seq<Step>)
    requires Theorems.Reached(s, steps)
    ensures FlightsShow(After(s, steps).rows, After(s, steps).sent)
    ensures (forall i :: !Waiting(After(s, steps).rows, i)) ==> NoneInFlight(After(s, steps).sent)
  {
    InitInv(s);
    RunShows(s, steps);
  }

  /** The caller's form of the condition: an invocation whose ledger has no waiting row at its own preflight stays
      bounded, whatever happened before. */
  lemma ClearLedgerIsSafe(s: State, steps: seq<Step>, p: nat, rest: seq<Step>)
    requires Theorems.Reached(s, steps) && Invocation(After(s, steps), p, rest)
    requires forall i :: !Waiting(After(s, steps).rows, i)
    ensures Theorems.Bounded(Now(After(s, steps), p, rest), p)
  {
    ClearLedgerMeansNoneInFlight(s, steps);
    Theorems.ExposureBound(s, steps, p, rest);
  }
}
