/** The enforce canary as a transition system that survives a crash at any instruction.

    Durable state: the lock file, the checkpoint, the local order rows, the requests on the wire or at
    the broker, and the positions.  Volatile state: for every live process a program counter and its
    own copy of the checkpoint (every `save` replaces the whole file from that copy). */
module Canary {
  import opened Options
  import opened Orders

  datatype Intent = Intent(held: real, expected: real)

  /** The checkpoint file. */
  datatype Saved = Saved(runId: nat, intent: Option<Intent>, done: set<StepName>) {
    function ClientIdOf(step: StepName): ClientId {
      CanaryStep(runId, step)
    }

    function Record(step: StepName): Saved {
      this.(done := done + {step})
    }

    predicate AllDone() {
      done == {A1, A2, A3, A4, A5}
    }
  }

  datatype Pc =
    | Churning                               // the churn driver, which takes the same lock
    | Entered
    | Loaded
    | Ready
    | A2Find
    | A2Found(found: Found)
    | A2Fresh
    | A2Held(held: real)
    | Routing(step: StepName, at: RouterPc)
    | Refused(step: StepName)                // `submit` came back without an admitted order
    | A2Barrier(row: nat, rebound: bool)
    | A2Check(row: nat, rebound: bool)       // the barrier has returned
    | A3Find
    | A3Found(found: Found)
    | A3Reached(row: nat)                    // the refusal that reached the broker: it is settled, and the run stops
    | A4Start
    | A5Start
    | Over

  datatype Process = Process(pc: Pc, mem: Option<Saved>, barrier: bool)

  datatype LossState = ReductionOnly | Cooldown | OtherState

  datatype State = State(
    reduceQty: real,
    procs: map<nat, Process>,
    lock: Option<nat>,
    saved: Option<Saved>,
    rows: seq<Row>,
    sent: seq<Request>,
    brokerPos: real,
    localPos: real,
    loss: LossState,
    submits: map<StepName, nat>)

  ghost predicate Init(s: State) {
    && s.procs == map[]
    && s.lock == None
    && s.saved == None
    && s.rows == []
    && s.sent == []
    && s.submits == map[A2 := 0, A3 := 0]
  }

  /** One instruction of the harness. */
  datatype Action =
    | Load(freshId: nat)
    | Preconditions
    | RecordA1
    | FindA2
    | RebindA2
    | SnapshotA2
    | IntentA2
    | Route(move: RouterMove)     // one move of `router.submit`
    | RecordRefusal
    | Barrier
    | RecordA2
    | FindA3
    | RebindA3
    | SettleA3
    | RecordA4(after: LossState)
    | RecordA5

  datatype Step =
    | Enter(p: nat, churn: bool)
    | Act(p: nat, action: Action)
    | Leave(p: nat)              // return, refusal, stop or any other exception: the lock is unlinked
    | Crash(p: nat)              // the process is gone and the lock file stays
    | OperatorClears
    | OperatorTrades(broker: real, local: real)   // by hand, between invocations
    | Broker(event: BrokerEvent)
    | LossMoves(to: LossState)

  // ---- one step ----------------------------------------------------------------------------------

  function SideOf(step: StepName): Side {
    if step == A3 then Buy else Sell
  }

  function LookUp(s: State, mem: Saved, step: StepName): Option<Found> {
    Find(s.rows, s.sent, mem.ClientIdOf(step))
  }

  predicate ActionEnabled(s: State, proc: Process, a: Action) {
    match a
    case Load(_) => proc.pc == Entered
    case Preconditions =>
      proc.pc == Loaded && proc.mem.Some? && !proc.mem.value.AllDone() && s.loss == ReductionOnly && 0.0 < s.brokerPos
    case RecordA1 => proc.pc == Ready && proc.mem.Some?
    case FindA2 => proc.pc == A2Find && proc.mem.Some?
    case RebindA2 => proc.pc.A2Found? && proc.mem.Some? && Identity(s.rows, s.sent, proc.pc.found, SideOf(A2), s.reduceQty)
                     && proc.mem.value.intent.Some? && proc.pc.found.Local?
    case SnapshotA2 => proc.pc == A2Fresh && s.reduceQty <= s.brokerPos
    case IntentA2 => proc.pc.A2Held? && proc.mem.Some?
    case Route(m) => proc.pc.Routing? && proc.mem.Some? && RouterMay(s.rows, s.sent, proc.pc.at, m)
    case RecordRefusal => proc.pc.Refused? && proc.mem.Some?
    case Barrier => proc.pc.A2Barrier? && BarrierMayReturn(s.rows, s.sent, s.localPos, s.brokerPos, proc.pc.row)
    case RecordA2 => proc.pc.A2Check? && proc.mem.Some?
    case FindA3 => proc.pc == A3Find && proc.mem.Some? && proc.mem.value.intent.Some?
    case RebindA3 => proc.pc.A3Found? && proc.mem.Some? && Identity(s.rows, s.sent, proc.pc.found, SideOf(A3), s.reduceQty)
    case SettleA3 => proc.pc.A3Reached? && BarrierMayReturn(s.rows, s.sent, s.localPos, s.brokerPos, proc.pc.row)
    case RecordA4(_) => proc.pc == A4Start && proc.mem.Some?
    case RecordA5 => proc.pc == A5Start && proc.mem.Some?
  }

  predicate Enabled(s: State, step: Step) {
    match step
    case Enter(p, _) => p !in s.procs && s.lock == None
    case Act(p, a) => p in s.procs && ActionEnabled(s, s.procs[p], a)
    case Leave(p) => p in s.procs
    case Crash(p) => p in s.procs
    case OperatorClears => |s.procs| == 0
    case OperatorTrades(_, _) => |s.procs| == 0
    case Broker(e) => BrokerMay(s.sent, e)
    case LossMoves(_) => true
  }

  function Goto(s: State, p: nat, proc: Process, pc: Pc): State {
    s.(procs := s.procs[p := proc.(pc := pc)])
  }

  /** `save`: the file becomes the process's own copy. */
  function Save(s: State, p: nat, proc: Process, mem: Saved, pc: Pc): State {
    s.(procs := s.procs[p := proc.(pc := pc, mem := Some(mem))], saved := Some(mem))
  }

  function SetRow(s: State, i: nat, row: Row): State
    requires i < |s.rows|
  {
    s.(rows := s.rows[i := row])
  }

  /** What the barrier leaves of row `i`: every fill is booked. */
  function SettleRow(s: State, i: nat): State
    requires BarrierMayReturn(s.rows, s.sent, s.localPos, s.brokerPos, i)
  {
    var filled := s.sent[s.rows[i].brokerId.value].Filled();
    SetRow(s.(localPos := BookedPosition(s.rows, s.sent, s.localPos, i)),
           i, s.rows[i].(status := Settled, booked := filled))
  }

  function StartRouting(s: State, step: StepName): State {
    s.(submits := s.submits[step := (if step in s.submits then s.submits[step] else 0) + 1])
  }

  function RoutePc(step: StepName, end: RouterEnd): Pc {
    match end
    case Routed(at) => Routing(step, at)
    case NotAdmitted => Refused(step)
    case Reached(i) => if step == A2 then A2Barrier(i, false) else A3Reached(i)
  }

  function NewRow(s: State, mem: Saved, step: StepName): Row {
    Row(mem.ClientIdOf(step), SideOf(step), s.reduceQty, s.brokerPos, PendingRisk, None, 0.0)
  }

  function ActionApply(s: State, p: nat, proc: Process, a: Action): State
    requires ActionEnabled(s, proc, a)
  {
    match a
    case Load(freshId) =>
      var mem := if s.saved.Some? then s.saved.value else Saved(freshId, None, {});
      Save(s, p, proc, mem, Loaded)
    case Preconditions => Goto(s, p, proc, Ready)
    case RecordA1 => Save(s, p, proc, proc.mem.value.Record(A1), A2Find)
    case FindA2 =>
      (match LookUp(s, proc.mem.value, A2)
       case Some(found) => Goto(s, p, proc, A2Found(found))
       case None => Goto(s, p, proc, A2Fresh))
    case RebindA2 => Save(s, p, proc, proc.mem.value.Record(A2), A2Barrier(proc.pc.found.row, true))
    case SnapshotA2 => Goto(s, p, proc, A2Held(s.brokerPos))
    case IntentA2 =>
      var intent := Intent(proc.pc.held, proc.pc.held - s.reduceQty);
      StartRouting(Save(s, p, proc, proc.mem.value.(intent := Some(intent)), Routing(A2, Evaluating)), A2)
    case Route(m) =>
      var rows := RouterRows(s.rows, s.sent, proc.pc.at, m, NewRow(s, proc.mem.value, proc.pc.step));
      var sent := RouterSent(s.rows, s.sent, proc.pc.at, m);
      var next := RouterNext(s.rows, s.sent, proc.pc.at, m);
      Goto(s.(rows := rows, sent := sent), p, proc, RoutePc(proc.pc.step, next))
    case RecordRefusal =>
      Save(s, p, proc, proc.mem.value.Record(proc.pc.step), if proc.pc.step == A2 then Over else A4Start)
    case Barrier =>
      SettleRow(s.(procs := s.procs[p := proc.(pc := A2Check(proc.pc.row, proc.pc.rebound), barrier := true)]),
                proc.pc.row)
    case RecordA2 =>
      if proc.pc.rebound then Goto(s, p, proc, A3Find)
      else Save(s, p, proc, proc.mem.value.Record(A2), A3Find)
    case FindA3 =>
      (match LookUp(s, proc.mem.value, A3)
       case Some(found) => Goto(s, p, proc, A3Found(found))
       case None => StartRouting(Goto(s, p, proc, Routing(A3, Evaluating)), A3))
    case RebindA3 => Save(s, p, proc, proc.mem.value.Record(A3), A4Start)
    case SettleA3 => SettleRow(Goto(s, p, proc, Over), proc.pc.row)
    case RecordA4(after) =>
      if A4 in proc.mem.value.done then Goto(s, p, proc, A5Start)
      else Save(s.(loss := after), p, proc, proc.mem.value.Record(A4), A5Start)
    case RecordA5 =>
      if A5 in proc.mem.value.done then Goto(s, p, proc, Over)
      else Save(s, p, proc, proc.mem.value.Record(A5), Over)
  }

  function Apply(s: State, step: Step): State
    requires Enabled(s, step)
  {
    match step
    case Enter(p, churn) =>
      s.(lock := Some(p), procs := s.procs[p := Process(if churn then Churning else Entered, None, false)])
    case Act(p, a) => ActionApply(s, p, s.procs[p], a)
    case Leave(p) => s.(lock := None, procs := s.procs - {p})
    case Crash(p) => s.(procs := s.procs - {p})
    case OperatorClears => s.(lock := None)
    case OperatorTrades(broker, local) => s.(brokerPos := broker, localPos := local)
    case Broker(e) => s.(sent := BrokerSent(s.sent, e), brokerPos := BrokerPosition(s.sent, e, s.brokerPos))
    case LossMoves(to) => s.(loss := to)
  }

  // ---- runs --------------------------------------------------------------------------------------

  /** Every step of the run is enabled where it is taken. */
  predicate Runs(s: State, steps: seq<Step>)
    decreases |steps|
  {
    |steps| == 0 || (Enabled(s, steps[0]) && Runs(Apply(s, steps[0]), steps[1..]))
  }

  function After(s: State, steps: seq<Step>): State
    requires Runs(s, steps)
    decreases |steps|
  {
    if |steps| == 0 then s else After(Apply(s, steps[0]), steps[1..])
  }
}
