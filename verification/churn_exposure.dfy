/** The driver's exposure: what it holds, and what it has behind it, at every instruction. */
module ChurnExposure {
  import opened Options
  import opened Orders
  import opened Churn
  import opened ChurnSafety
  import opened Shares

  /** A request that can no longer fill. */
  predicate Dead(r: Request) {
    r.state.Dropped? || r.state.Closed?
  }

  ghost predicate AllDead(sent: seq<Request>) {
    forall k :: 0 <= k < |sent| ==> Dead(sent[k])
  }

  ghost predicate DeadBut(sent: seq<Request>, live: nat) {
    forall k :: 0 <= k < |sent| && k != live ==> Dead(sent[k])
  }

  /** Row `j` of an invocation: buys and sells alternate, each settled and filled to the last share, and a
      sell closes exactly what the buy before it opened. */
  ghost predicate RowDone(rows: seq<Row>, base: nat, j: nat)
    requires base + j < |rows|
  {
    && rows[base + j].status == Settled
    && rows[base + j].booked == rows[base + j].qty
    && rows[base + j].side == (if j % 2 == 0 then Buy else Sell)
    && (j % 2 == 1 ==> rows[base + j].qty == rows[base + j - 1].qty)
  }

  ghost predicate LegsDone(rows: seq<Row>, base: nat, n: nat) {
    base + n <= |rows| && forall j: nat :: j < n ==> RowDone(rows, base, j)
  }

  /** Legs the invocation has behind it when it works on a leg of this side. */
  function Behind(proc: Process, side: Side): nat {
    2 * proc.trips + (if side == Sell then 1 else 0)
  }

  /** The setup position before a leg of this side. */
  function Before(proc: Process, side: Side): real {
    if side == Buy then 0.0 else proc.qty
  }

  /** The last buy was sized within the ceiling, up to half a share. */
  ghost predicate Affordable(s: State, proc: Process) {
    0.0 < proc.price && NearCeiling(proc.qty, proc.price, s.bounds.maxSetupNotional)
  }

  /** All earlier legs are done; a buy is under way only after a snapshot with the loss under the target. */
  ghost predicate InTrip(s: State, proc: Process, side: Side) {
    && LegsDone(s.rows, proc.base, Behind(proc, side))
    && proc.trips < s.bounds.maxRoundTrips
    && 0.0 < proc.qty && Affordable(s, proc)
    && -s.bounds.target < proc.snap
    && (side == Sell ==> s.rows[proc.base + Behind(proc, side) - 1].qty == proc.qty)
  }

  /** Nothing of this leg is in the ledger yet. */
  ghost predicate Flat(s: State, proc: Process, side: Side) {
    && InTrip(s, proc, side)
    && |s.rows| == proc.base + Behind(proc, side)
    && AllDead(s.sent) && s.brokerPos == Before(proc, side)
  }

  ghost predicate LegRow(s: State, proc: Process, side: Side, i: nat) {
    && InTrip(s, proc, side)
    && i == proc.base + Behind(proc, side) && |s.rows| == i + 1
    && s.rows[i].side == side && s.rows[i].qty == proc.qty
  }

  /** Request `k` is this leg's: it alone may still fill, and the position is what it has done. */
  ghost predicate LiveRequest(s: State, proc: Process, side: Side, i: nat, k: nat) {
    && LegRow(s, proc, side, i)
    && k < |s.sent| && Agree(s.rows[i], s.sent[k])
    && DeadBut(s.sent, k)
    && s.brokerPos == Before(proc, side) + s.sent[k].Effect()
  }

  ghost predicate SettledLeg(s: State, proc: Process, side: Side, i: nat) {
    && LegRow(s, proc, side, i)
    && s.rows[i].status == Settled && s.rows[i].brokerId.Some?
    && LiveRequest(s, proc, side, i, s.rows[i].brokerId.value)
    && s.sent[s.rows[i].brokerId.value].state == Closed(s.rows[i].booked)
  }

  ghost predicate Exposed(s: State, proc: Process) {
    match proc.pc
    case Entered => true
    case Loaded => true
    case NotFilled => Affordable(s, proc) && AllDead(s.sent) && 0.0 <= s.brokerPos <= proc.qty
    case LegRebound(_, _) => false
    case Head =>
      && proc.trips <= s.bounds.maxRoundTrips
      && LegsDone(s.rows, proc.base, 2 * proc.trips) && |s.rows| == proc.base + 2 * proc.trips
      && AllDead(s.sent) && s.brokerPos == 0.0
    case Finish =>
      && proc.trips <= s.bounds.maxRoundTrips
      && LegsDone(s.rows, proc.base, 2 * proc.trips) && |s.rows| == proc.base + 2 * proc.trips
      && AllDead(s.sent) && s.brokerPos == 0.0
      && -(s.bounds.target + s.bounds.overshoot) <= proc.snap <= -s.bounds.target
    case Sizing =>
      && proc.trips < s.bounds.maxRoundTrips && -s.bounds.target < proc.snap
      && LegsDone(s.rows, proc.base, 2 * proc.trips) && |s.rows| == proc.base + 2 * proc.trips
      && AllDead(s.sent) && s.brokerPos == 0.0
    case LegFind(side) => Flat(s, proc, side)
    case LegNew(side) => Flat(s, proc, side)
    case Routing(side, at) => RoutingExposed(s, proc, side, at)
    case LegBarrier(side, i) =>
      && LegRow(s, proc, side, i)
      && s.rows[i].brokerId.Some? && LiveRequest(s, proc, side, i, s.rows[i].brokerId.value)
    case LegSettled(side, i) => SettledLeg(s, proc, side, i)
    case LegVerify(side, i) => SettledLeg(s, proc, side, i)
  }

  ghost predicate RoutingExposed(s: State, proc: Process, side: Side, at: RouterPc) {
    match at
    case Evaluating => Flat(s, proc, side)
    case Persisted(i) => LegRow(s, proc, side, i) && AllDead(s.sent) && s.brokerPos == Before(proc, side)
    case Pending(i) => LegRow(s, proc, side, i) && AllDead(s.sent) && s.brokerPos == Before(proc, side)
    case Calling(i, k) => LiveRequest(s, proc, side, i, k)
  }

  // ---- one step keeps it, provided no request is on the wire at the preflight -------------------------------

  ghost predicate NoneInFlight(sent: seq<Request>) {
    forall k :: 0 <= k < |sent| ==> !sent[k].state.InFlight?
  }

  /** No request of an earlier, dead invocation is still on its way when this preflight passes. */
  ghost predicate QuietStep(s: State, step: Step) {
    step.Act? && step.action == Preflight ==> NoneInFlight(s.sent)
  }

  ghost predicate ExpoInv(s: State) {
    Inv(s) && forall p :: p in s.procs ==> Exposed(s, s.procs[p])
  }

  lemma NotAllDead(sent: seq<Request>, e: BrokerEvent)
    requires BrokerMay(sent, e)
    ensures !Dead(sent[e.k]) && !AllDead(sent)
  {}

  lemma SettledIsDead(s: State, proc: Process, side: Side, i: nat)
    ensures SettledLeg(s, proc, side, i) ==> AllDead(s.sent)
  {}

  lemma BrokerKeepsLive(s: State, e: BrokerEvent, proc: Process, side: Side, i: nat, k: nat)
    requires FillsInRange(s.sent) && LiveRequest(s, proc, side, i, k) && BrokerMay(s.sent, e)
    ensures LiveRequest(Apply(s, Broker(e)), proc, side, i, k)
  {
    NotAllDead(s.sent, e);
  }

  lemma BrokerKeepsExposed(s: State, e: BrokerEvent, proc: Process)
    requires LedgerOk(s) && Exposed(s, proc) && BrokerMay(s.sent, e)
    ensures Exposed(Apply(s, Broker(e)), proc)
  {
    NotAllDead(s.sent, e);
    match proc.pc
    case Routing(side, at) => if at.Calling? { BrokerKeepsLive(s, e, proc, side, at.row, at.request); }
    case LegBarrier(side, i) => BrokerKeepsLive(s, e, proc, side, i, s.rows[i].brokerId.value);
    case LegSettled(side, i) => SettledIsDead(s, proc, side, i);
    case LegVerify(side, i) => SettledIsDead(s, proc, side, i);
    case _ =>
  }

  lemma PreflightExposes(s: State, p: nat)
    requires p in s.procs && ActionEnabled(s, s.procs[p], Preflight) && NoneInFlight(s.sent)
    ensures var t := ActionApply(s, p, s.procs[p], Preflight); Exposed(t, t.procs[p])
  {
    assert NoneOpen(s.sent);
  }

  lemma LoopActionKeeps(s: State, p: nat, a: Action)
    requires p in s.procs && Exposed(s, s.procs[p]) && ActionEnabled(s, s.procs[p], a)
    requires a.Load? || a.GoOn? || a.ReachBoundary? || a.SizeBuy?
    ensures var t := ActionApply(s, p, s.procs[p], a); Exposed(t, t.procs[p])
  {
    if a.SizeBuy? { SizingExposes(s, p, a.quote); }
  }

  lemma LegActionKeeps(s: State, p: nat, a: Action)
    requires LedgerOk(s) && p in s.procs && ProcOk(s, s.procs[p]) && Exposed(s, s.procs[p])
    requires ActionEnabled(s, s.procs[p], a)
    requires a.RebindLeg? || a.RecordIntent? || a.RecordLeg?
    ensures var t := ActionApply(s, p, s.procs[p], a); Exposed(t, t.procs[p])
  {}

  lemma FindLegKeeps(s: State, p: nat)
    requires LedgerOk(s) && p in s.procs && ProcOk(s, s.procs[p]) && Exposed(s, s.procs[p])
    requires ActionEnabled(s, s.procs[p], FindLeg)
    ensures var t := ActionApply(s, p, s.procs[p], FindLeg); Exposed(t, t.procs[p])
  {
    NextIndexIsUnused(s);
  }

  lemma SizingExposes(s: State, p: nat, quote: Quote)
    requires p in s.procs && Exposed(s, s.procs[p]) && ActionEnabled(s, s.procs[p], SizeBuy(quote))
    ensures var t := ActionApply(s, p, s.procs[p], SizeBuy(quote)); Exposed(t, t.procs[p])
  {
    NotionalNearCeiling(quote.price, quote.limits, 0.0, quote.buyingPower, s.bounds.maxSetupNotional);
  }

  /** Done rows stay done while the ledger only grows at its end. */
  lemma LegsStayDone(rows: seq<Row>, after: seq<Row>, base: nat, n: nat)
    requires LegsDone(rows, base, n) && |rows| <= |after|
    requires forall j :: 0 <= j < base + n ==> after[j] == rows[j]
    ensures LegsDone(after, base, n)
  {
    forall j: nat | j < n ensures RowDone(after, base, j) {
      assert RowDone(rows, base, j);
      assert after[base + j] == rows[base + j];
    }
  }

  lemma RouteKeepsExposed(s: State, p: nat, m: RouterMove)
    requires LedgerOk(s) && p in s.procs && ProcOk(s, s.procs[p]) && Exposed(s, s.procs[p])
    requires ActionEnabled(s, s.procs[p], Route(m))
    ensures var t := ActionApply(s, p, s.procs[p], Route(m)); Exposed(t, t.procs[p])
  {
    var proc := s.procs[p];
    var t := ActionApply(s, p, proc, Route(m));
    RouteKeepsTrip(s, p, m);
    if m.CallBroker? {
      CallIsLive(s, p);
    }
  }

  lemma RouteKeepsTrip(s: State, p: nat, m: RouterMove)
    requires LedgerOk(s) && p in s.procs && ProcOk(s, s.procs[p]) && Exposed(s, s.procs[p])
    requires ActionEnabled(s, s.procs[p], Route(m))
    ensures InTrip(ActionApply(s, p, s.procs[p], Route(m)), s.procs[p], s.procs[p].pc.side)
  {
    var proc := s.procs[p];
    var t := ActionApply(s, p, proc, Route(m));
    var n := Behind(proc, proc.pc.side);
    assert forall j :: 0 <= j < proc.base + n ==> t.rows[j] == s.rows[j];
    LegsStayDone(s.rows, t.rows, proc.base, n);
  }

  /** The request just sent is the one that may still fill. */
  lemma CallIsLive(s: State, p: nat)
    requires LedgerOk(s) && p in s.procs && ProcOk(s, s.procs[p]) && Exposed(s, s.procs[p])
    requires ActionEnabled(s, s.procs[p], Route(CallBroker))
    ensures var t := ActionApply(s, p, s.procs[p], Route(CallBroker)); Exposed(t, t.procs[p])
  {
  }

  lemma BarrierKeepsExposed(s: State, p: nat)
    requires LedgerOk(s) && p in s.procs && ProcOk(s, s.procs[p]) && Exposed(s, s.procs[p])
    requires ActionEnabled(s, s.procs[p], Barrier)
    ensures var t := ActionApply(s, p, s.procs[p], Barrier); Exposed(t, t.procs[p])
  {
    var proc := s.procs[p];
    var t := ActionApply(s, p, proc, Barrier);
    var n := Behind(proc, proc.pc.side);
    assert forall j :: 0 <= j < proc.base + n ==> t.rows[j] == s.rows[j];
    LegsStayDone(s.rows, t.rows, proc.base, n);
  }

  /** A settled leg that was filled in full: nothing is alive, and the position is what it bought or zero. */
  lemma FilledLegIsFlat(s: State, proc: Process, side: Side, i: nat)
    requires SettledLeg(s, proc, side, i) && s.rows[i].booked == proc.qty
    ensures AllDead(s.sent) && s.brokerPos == (if side == Buy then proc.qty else 0.0)
  {}

  lemma LegJoins(s: State, proc: Process, side: Side, i: nat)
    requires LegRow(s, proc, side, i) && s.rows[i].status == Settled && s.rows[i].booked == proc.qty
    ensures LegsDone(s.rows, proc.base, Behind(proc, side) + 1)
  {
    var n := Behind(proc, side);
    forall j: nat | j < n + 1 ensures RowDone(s.rows, proc.base, j) {
      if j < n {
        assert RowDone(s.rows, proc.base, j);
      }
    }
  }

  /** A verified leg joins the legs behind: the position is the bought quantity after a buy and zero after a sell. */
  lemma VerifyKeepsExposed(s: State, p: nat)
    requires LedgerOk(s) && p in s.procs && ProcOk(s, s.procs[p]) && Exposed(s, s.procs[p])
    requires ActionEnabled(s, s.procs[p], VerifyLeg)
    ensures var t := ActionApply(s, p, s.procs[p], VerifyLeg); Exposed(t, t.procs[p])
  {
    var proc := s.procs[p];
    FilledLegIsFlat(s, proc, proc.pc.side, proc.pc.row);
    LegJoins(s, proc, proc.pc.side, proc.pc.row);
  }

  lemma ActionKeepsExposed(s: State, p: nat, a: Action)
    requires LedgerOk(s) && p in s.procs && ProcOk(s, s.procs[p]) && Exposed(s, s.procs[p])
    requires ActionEnabled(s, s.procs[p], a) && QuietStep(s, Act(p, a))
    ensures var t := ActionApply(s, p, s.procs[p], a); Exposed(t, t.procs[p])
  {
    match a
    case Preflight => PreflightExposes(s, p);
    case Route(m) => RouteKeepsExposed(s, p, m);
    case Barrier => BarrierKeepsExposed(s, p);
    case VerifyLeg => VerifyKeepsExposed(s, p);
    case FindLeg => FindLegKeeps(s, p);
    case RebindLeg => LegActionKeeps(s, p, a);
    case RecordIntent => LegActionKeeps(s, p, a);
    case RecordLeg => LegActionKeeps(s, p, a);
    case _ => LoopActionKeeps(s, p, a);
  }

  lemma StepKeepsExpo(s: State, step: Step)
    requires ExpoInv(s) && Enabled(s, step) && QuietStep(s, step)
    ensures ExpoInv(Apply(s, step))
  {
    StepKeepsInv(s, step);
    match step
    case Act(p, a) =>
      ActionKeepsExposed(s, p, a);
      ActionKeepsOthers(s, p, a);
      assert forall q :: q in s.procs ==> q == p;
    case Broker(e) =>
      forall p | p in s.procs ensures Exposed(Apply(s, step), s.procs[p]) { BrokerKeepsExposed(s, e, s.procs[p]); }
    case Enter(p) => assert s.procs == map[];
    case Leave(p) => assert forall q :: q in s.procs ==> q == p;
    case Crash(p) => assert forall q :: q in s.procs ==> q == p;
    case OperatorClears =>
    case OperatorTrades(_, _) =>
    case DayMoves(to) =>
      forall p | p in s.procs ensures Exposed(Apply(s, step), s.procs[p]) { DayKeepsExposed(s, to, s.procs[p]); }
  }

  lemma DayKeepsExposed(s: State, to: real, proc: Process)
    requires Exposed(s, proc)
    ensures Exposed(s.(dayChange := to), proc)
  {}

  // ---- one invocation -------------------------------------------------------------------------------------------

  /** No step of the list ends the life of process `p`. */
  ghost predicate OneLife(p: nat, steps: seq<Step>) {
    forall j :: 0 <= j < |steps| ==> steps[j] != Leave(p) && steps[j] != Crash(p)
  }

  predicate PastPreflight(pc: Pc) {
    !pc.Entered? && !pc.Loaded?
  }

  lemma LifeStep(s: State, step: Step, p: nat)
    requires ExpoInv(s) && p in s.procs && PastPreflight(s.procs[p].pc)
    requires Enabled(s, step) && step != Leave(p) && step != Crash(p)
    ensures QuietStep(s, step)
    ensures p in Apply(s, step).procs && PastPreflight(Apply(s, step).procs[p].pc)
  {
    match step
    case Act(q, a) => assert q == p;
    case _ =>
  }

  lemma {:induction false} LifeKeepsExpo(s: State, steps: seq<Step>, p: nat)
    requires ExpoInv(s) && p in s.procs && PastPreflight(s.procs[p].pc) && Runs(s, steps) && OneLife(p, steps)
    ensures var t := After(s, steps); ExpoInv(t) && p in t.procs && PastPreflight(t.procs[p].pc)
    decreases |steps|
  {
    if |steps| > 0 {
      assert steps[0] != Leave(p) && steps[0] != Crash(p);
      LifeStep(s, steps[0], p);
      StepKeepsExpo(s, steps[0]);
      assert forall j :: 0 <= j < |steps| - 1 ==> steps[1..][j] == steps[j + 1];
      LifeKeepsExpo(Apply(s, steps[0]), steps[1..], p);
    }
  }

  /** The invocation of `p` that passes its preflight in `s` has taken the steps `rest` since. */
  ghost predicate Invocation(s: State, p: nat, rest: seq<Step>) {
    && Enabled(s, Act(p, Preflight))
    && Runs(Apply(s, Act(p, Preflight)), rest)
    && OneLife(p, rest)
  }

  function Now(s: State, p: nat, rest: seq<Step>): State
    requires Invocation(s, p, rest)
  {
    After(Apply(s, Act(p, Preflight)), rest)
  }

  /** Only the invocation's own preflight matters: with nothing in flight there, it is exposed as its program
      counter says at every instruction. */
  lemma InvocationIsExposed(s: State, p: nat, rest: seq<Step>)
    requires Inv(s) && Invocation(s, p, rest) && NoneInFlight(s.sent)
    ensures var t := Now(s, p, rest);
            Inv(t) && p in t.procs && PastPreflight(t.procs[p].pc) && Exposed(t, t.procs[p])
  {
    var u := Apply(s, Act(p, Preflight));
    StepKeepsInv(s, Act(p, Preflight));
    PreflightExposes(s, p);
    ActionKeepsOthers(s, p, Preflight);
    assert forall q :: q in u.procs ==> q == p;
    LifeKeepsExpo(u, rest, p);
  }
}
