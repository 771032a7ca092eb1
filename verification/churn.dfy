/** The phase-0 churn driver as a transition system: one invocation buys and sells one setup symbol, round
    trip after round trip, until the day's loss reaches the target; it may crash at any instruction and be
    started again on the same checkpoint. */
module Churn {
  import opened Options
  import opened Orders
  import opened Shares

  datatype LegRecord = LegRecord(side: Side, qty: real, done: bool)

  /** The checkpoint: leg `L{i}` is key `i`. */
  datatype Saved = Saved(runId: nat, legs: map<nat, LegRecord>) {
    function NextIndex(): nat {
      |legs|
    }

    function ClientIdOf(index: nat): ClientId {
      ChurnLeg(runId, index)
    }
  }

  /** The frozen bounds of the plan. */
  datatype Bounds = Bounds(target: real, overshoot: real, maxRoundTrips: nat, maxSetupNotional: real)

  /** What an opening buy is sized from: the governed reference price, the account's limits, its buying power. */
  datatype Quote = Quote(price: real, limits: Limits, buyingPower: real)

  datatype Pc =
    | Entered
    | Loaded
    | Head                                     // top of the loop
    | Sizing                                   // the snapshot allows another round trip
    | LegFind(side: Side)                      // `run_leg` begins
    | LegRebound(side: Side, found: Found)
    | LegNew(side: Side)
    | Routing(side: Side, at: RouterPc)
    | NotFilled                                // refused before or by the broker: the run stops
    | LegBarrier(side: Side, row: nat)
    | LegSettled(side: Side, row: nat)
    | LegVerify(side: Side, row: nat)
    | Finish                                   // the boundary was reached

  /** `qty` and `price` are the last buy's, `base` counts the rows the invocation found, `snap` is its last loss
      snapshot. */
  datatype Process = Process(pc: Pc, mem: Option<Saved>, index: nat, qty: real, price: real,
                             trips: nat, base: nat, snap: real)

  datatype State = State(
    bounds: Bounds,
    procs: map<nat, Process>,
    lock: Option<nat>,
    saved: Option<Saved>,
    rows: seq<Row>,
    sent: seq<Request>,
    brokerPos: real,
    localPos: real,
    dayChange: real)

  ghost predicate Init(s: State) {
    && s.procs == map[] && s.lock == None && s.saved == None && s.rows == [] && s.sent == []
  }

  datatype Action =
    | Load(freshId: nat)
    | Preflight
    | GoOn                       // loss under target and trips left
    | ReachBoundary              // loss in the terminal band
    | SizeBuy(quote: Quote)
    | FindLeg
    | RebindLeg
    | RecordIntent
    | Route(move: RouterMove)
    | Barrier
    | RecordLeg
    | VerifyLeg

  datatype Step =
    | Enter(p: nat)
    | Act(p: nat, action: Action)
    | Leave(p: nat)              // return, refusal, stop or any other exception
    | Crash(p: nat)
    | OperatorClears
    | OperatorTrades(broker: real, local: real)   // by hand, between invocations
    | Broker(event: BrokerEvent)
    | DayMoves(to: real)

  // ---- one step ------------------------------------------------------------------------------------

  /** `count_open_orders`: what the broker reports as open. */
  ghost predicate NoneOpen(sent: seq<Request>) {
    forall k :: 0 <= k < |sent| ==> !sent[k].state.Working?
  }

  function Open(sent: seq<Request>): (r: bool)
    ensures r <==> !NoneOpen(sent)
  {
    |sent| > 0 && (sent[|sent| - 1].state.Working? || Open(sent[..|sent| - 1]))
  }

  function LookUp(s: State, mem: Saved, index: nat): Option<Found> {
    Find(s.rows, s.sent, mem.ClientIdOf(index))
  }

  /** The flat setup symbol uses no gross exposure when it is sized. */
  function Sized(bounds: Bounds, quote: Quote): nat {
    AdmissibleShares(quote.price, quote.limits, 0.0, quote.buyingPower, bounds.maxSetupNotional)
  }

  predicate LegDone(mem: Saved, index: nat) {
    index in mem.legs && mem.legs[index].done
  }

  predicate ActionEnabled(s: State, proc: Process, a: Action) {
    match a
    case Load(_) => proc.pc == Entered
    case Preflight => proc.pc == Loaded && !Open(s.sent) && s.brokerPos == 0.0
    case GoOn => proc.pc == Head && -s.bounds.target < s.dayChange && proc.trips < s.bounds.maxRoundTrips
    case ReachBoundary =>
      proc.pc == Head && -(s.bounds.target + s.bounds.overshoot) <= s.dayChange <= -s.bounds.target
    case SizeBuy(quote) => proc.pc == Sizing && proc.mem.Some? && 0 < Sized(s.bounds, quote)
    case FindLeg => proc.pc.LegFind? && proc.mem.Some?
    case RebindLeg => proc.pc.LegRebound? && Identity(s.rows, s.sent, proc.pc.found, proc.pc.side, proc.qty) && proc.pc.found.Local?
    case RecordIntent => proc.pc.LegNew? && proc.mem.Some? && !LegDone(proc.mem.value, proc.index)
    case Route(m) => proc.pc.Routing? && proc.mem.Some? && RouterMay(s.rows, s.sent, proc.pc.at, m)
    case Barrier => proc.pc.LegBarrier? && BarrierMayReturn(s.rows, s.sent, s.localPos, s.brokerPos, proc.pc.row)
    case RecordLeg => proc.pc.LegSettled? && proc.mem.Some?
    case VerifyLeg =>
      && proc.pc.LegVerify? && proc.mem.Some?
      && proc.pc.row < |s.rows|
      && s.rows[proc.pc.row].booked == proc.qty
      && s.localPos == s.brokerPos
      && !Open(s.sent)
  }

  predicate Enabled(s: State, step: Step) {
    match step
    case Enter(p) => p !in s.procs && s.lock == None
    case Act(p, a) => p in s.procs && ActionEnabled(s, s.procs[p], a)
    case Leave(p) => p in s.procs
    case Crash(p) => p in s.procs
    case OperatorClears => |s.procs| == 0
    case OperatorTrades(_, _) => |s.procs| == 0
    case Broker(e) => BrokerMay(s.sent, e)
    case DayMoves(_) => true
  }

  function Put(s: State, p: nat, proc: Process): State {
    s.(procs := s.procs[p := proc])
  }

  function RoutePc(side: Side, end: RouterEnd): Pc {
    match end
    case Routed(at) => Routing(side, at)
    case NotAdmitted => NotFilled
    case Reached(i) => LegBarrier(side, i)
  }

  function NewRow(s: State, proc: Process): Row
    requires proc.mem.Some? && proc.pc.Routing?
  {
    Row(proc.mem.value.ClientIdOf(proc.index), proc.pc.side, proc.qty, s.brokerPos, PendingRisk, None, 0.0)
  }

  function ActionApply(s: State, p: nat, proc: Process, a: Action): State
    requires ActionEnabled(s, proc, a)
  {
    match a
    case Load(freshId) =>
      var mem := if s.saved.Some? then s.saved.value else Saved(freshId, map[]);
      Put(s, p, proc.(pc := Loaded, mem := Some(mem))).(saved := Some(mem))
    case Preflight => Put(s, p, proc.(pc := Head, trips := 0, base := |s.rows|))
    case GoOn => Put(s, p, proc.(pc := Sizing, snap := s.dayChange))
    case ReachBoundary => Put(s, p, proc.(pc := Finish, snap := s.dayChange))
    case SizeBuy(quote) =>
      Put(s, p, proc.(pc := LegFind(Buy), index := proc.mem.value.NextIndex(),
                      qty := Sized(s.bounds, quote) as real, price := quote.price))
    case FindLeg =>
      (match LookUp(s, proc.mem.value, proc.index)
       case Some(found) => Put(s, p, proc.(pc := LegRebound(proc.pc.side, found)))
       case None => Put(s, p, proc.(pc := LegNew(proc.pc.side))))
    case RebindLeg => Put(s, p, proc.(pc := LegBarrier(proc.pc.side, proc.pc.found.row)))
    case RecordIntent =>
      var mem := proc.mem.value.(legs := proc.mem.value.legs[proc.index := LegRecord(proc.pc.side, proc.qty, false)]);
      Put(s, p, proc.(pc := Routing(proc.pc.side, Evaluating), mem := Some(mem))).(saved := Some(mem))
    case Route(m) =>
      var rows := RouterRows(s.rows, s.sent, proc.pc.at, m, NewRow(s, proc));
      var sent := RouterSent(s.rows, s.sent, proc.pc.at, m);
      var next := RouterNext(s.rows, s.sent, proc.pc.at, m);
      Put(s, p, proc.(pc := RoutePc(proc.pc.side, next))).(rows := rows, sent := sent)
    case Barrier =>
      var i := proc.pc.row;
      var filled := s.sent[s.rows[i].brokerId.value].Filled();
      Put(s, p, proc.(pc := LegSettled(proc.pc.side, i)))
        .(localPos := BookedPosition(s.rows, s.sent, s.localPos, i), rows := s.rows[i := s.rows[i].(status := Settled, booked := filled)])
    case RecordLeg =>
      var mem := proc.mem.value.(legs := proc.mem.value.legs[proc.index := LegRecord(proc.pc.side, proc.qty, true)]);
      Put(s, p, proc.(pc := LegVerify(proc.pc.side, proc.pc.row), mem := Some(mem))).(saved := Some(mem))
    case VerifyLeg =>
      if proc.pc.side == Buy
      then Put(s, p, proc.(pc := LegFind(Sell), index := proc.mem.value.NextIndex()))   // `flatten`, at once
      else Put(s, p, proc.(pc := Head, trips := proc.trips + 1))
  }

  function Apply(s: State, step: Step): State
    requires Enabled(s, step)
  {
    match step
    case Enter(p) => Put(s, p, Process(Entered, None, 0, 0.0, 0.0, 0, 0, 0.0)).(lock := Some(p))
    case Act(p, a) => ActionApply(s, p, s.procs[p], a)
    case Leave(p) => s.(lock := None, procs := s.procs - {p})
    case Crash(p) => s.(procs := s.procs - {p})
    case OperatorClears => s.(lock := None)
    case OperatorTrades(broker, local) => s.(brokerPos := broker, localPos := local)
    case Broker(e) => s.(sent := BrokerSent(s.sent, e), brokerPos := BrokerPosition(s.sent, e, s.brokerPos))
    case DayMoves(to) => s.(dayChange := to)
  }

  predicate Runs(s: State, steps: seq<Step>)
    decreases |steps|
  {
    |steps| == 0 || (Enabled(s, steps[0]) && Runs(Apply(s, steps[0]), steps[1..]))
  }

  function After(s: State, steps: seq<Step>): State
    requires Runs(s, steps)
    decreases |steps|
  {
    if |steps| == 0 then s else After(Apply(s, steps[0]), steps[1..])
  }
}
