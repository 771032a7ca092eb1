/** The canary in its own form: objects that update their fields, steps taken in a fixed order.

    `Rig` holds the whole world and the history of instructions taken so far; its invariant says that the
    history is a run of the transition system.  The steps of `CanaryRun` are written branch by branch as
    the harness takes them, with their own lock file and checkpoint objects; `Coupled` says that the files on
    the disk are at every step the ones of the transition system.  So what holds of every run holds of every
    uninterrupted invocation too. */
module CanaryRunner {
  import opened Options
  import opened Orders
  import opened Canary
  import opened CanarySafety
  import opened CanaryComplete

  // ---- the checkpoint and the lock file ------------------------------------------------------------------

  class Disk {
    var file: Option<Saved>
    var locked: bool

    constructor ()
      ensures file == None && !locked
    {
      file := None;
      locked := false;
    }
  }

  class Checkpoint {
    const disk: Disk
    var runId: nat
    var intent: Option<Intent>
    var done: set<StepName>

    function Value(): Saved
      reads this
    {
      Saved(runId, intent, done)
    }

    /** `Checkpoint.load`: the file if there is one, else a fresh run id that is saved before anything else. */
    constructor (disk: Disk, now: nat)
      modifies disk`file
      ensures this.disk == disk
      ensures disk.file == Some(Value())
      ensures old(disk.file) == disk.file || (old(disk.file) == None && disk.file == Some(Saved(now, None, {})))
    {
      this.disk := disk;
      match disk.file {
        case Some(saved) =>
          runId, intent, done := saved.runId, saved.intent, saved.done;
        case None =>
          runId, intent, done := now, None, {};
      }
      new;
      disk.file := Some(Saved(runId, intent, done));
    }

    method Save()
      modifies disk`file
      ensures disk.file == Some(Value())
    {
      disk.file := Some(Saved(runId, intent, done));
    }

    method RecordIntent(held: real, reduceQty: real)
      modifies this`intent, disk`file
      ensures Value() == old(Value()).(intent := Some(Intent(held, held - reduceQty)))
      ensures disk.file == Some(Value())
    {
      intent := Some(Intent(held, held - reduceQty));
      Save();
    }

    method RecordStep(name: StepName)
      modifies this`done, disk`file
      ensures Value() == old(Value()).Record(name)
      ensures disk.file == Some(Value())
    {
      done := done + {name};
      Save();
    }
  }

  class SingleInstance {
    const disk: Disk

    constructor (disk: Disk)
      ensures this.disk == disk
    {
      this.disk := disk;
    }

    /** `O_CREAT | O_EXCL`: taken exactly when nobody held it. */
    method Enter() returns (ok: bool)
      modifies disk`locked
      ensures ok == !old(disk.locked)
      ensures disk.locked
    {
      ok := !disk.locked;
      disk.locked := true;
    }

    method Exit()
      modifies disk`locked
      ensures !disk.locked
    {
      disk.locked := false;
    }
  }

  // ---- the world ---------------------------------------------------------------------------------------------

  class Rig {
    var s: State
    ghost var start: State
    ghost var history: seq<Step>

    ghost predicate Valid()
      reads this
    {
      Init(start) && Runs(start, history) && After(start, history) == s
    }

    constructor (start: State)
      requires Init(start)
      ensures Valid() && s == start && history == []
    {
      s := start;
      this.start := start;
      history := [];
    }

    method Do(step: Step)
      requires Valid() && Enabled(s, step)
      modifies this`s, this`history
      ensures Valid() && s == Apply(old(s), step) && history == old(history) + [step]
    {
      RunsSnoc(start, history, step);
      s := Apply(s, step);
      history := history + [step];
    }

    function Wired(): Wire
      reads this
    {
      Wire(s.sent, s.brokerPos)
    }

    /** Whatever the broker does meanwhile: the events of the script that are possible when their turn comes. */
    method Meanwhile(script: seq<BrokerEvent>)
      requires Valid()
      modifies this`s, this`history
      ensures Valid() && old(history) <= history
      ensures s == old(s).(sent := s.sent, brokerPos := s.brokerPos)
      ensures Wired() == AfterEvents(old(Wired()), script)
    {
      var i := 0;
      while i < |script|
        invariant i <= |script| && Valid() && old(history) <= history
        invariant s == old(s).(sent := s.sent, brokerPos := s.brokerPos)
        invariant AfterEvents(Wired(), script[i..]) == AfterEvents(old(Wired()), script)
      {
        if BrokerMay(s.sent, script[i]) {
          Do(Broker(script[i]));
        }
        i := i + 1;
      }
    }
  }

  lemma {:induction false} RunsSnoc(s: State, steps: seq<Step>, step: Step)
    requires Runs(s, steps) && Enabled(After(s, steps), step)
    ensures Runs(s, steps + [step]) && After(s, steps + [step]) == Apply(After(s, steps), step)
    decreases |steps|
  {
    if |steps| == 0 {
      assert steps + [step] == [step];
      assert [step][1..] == [];
    } else {
      RunsSnoc(Apply(s, steps[0]), steps[1..], step);
      assert (steps + [step])[1..] == steps[1..] + [step];
    }
  }

  /** The disk holds the checkpoint and the lock file of the transition system. */
  ghost predicate OnDisk(disk: Disk, rig: Rig)
    reads disk, rig
  {
    disk.file == rig.s.saved && disk.locked == rig.s.lock.Some?
  }

  // ---- how an invocation ends, from what it finds --------------------------------------------------------------

  /** How one `router.submit` ends. */
  datatype Fate = NoRow | RefusedByRisk | RefusedByBroker | Raised | Sent {
    predicate TurnedDown() {
      NoRow? || RefusedByRisk? || RefusedByBroker?
    }
  }

  /** What a step meets: its submit, and the broker's events before the answer counts and before the barrier looks. */
  datatype Submission = Submission(fate: Fate, answer: seq<BrokerEvent>, settling: seq<BrokerEvent>)

  datatype Ending = Continue | Refuse | Stop | Raise | AlreadyComplete

  /** The ledger, the broker and the quantity of the two orders. */
  datatype World = World(rows: seq<Row>, wire: Wire, localPos: real, qty: real)

  /** The wire once the answer to a new request is over. */
  function Asked(w: World, id: ClientId, side: Side, answer: seq<BrokerEvent>): (v: Wire)
    ensures |v.sent| == |w.wire.sent| + 1
  {
    AfterEvents(Wire(w.wire.sent + [Request(|w.rows|, id, side, w.qty, InFlight)], w.wire.brokerPos), answer)
  }

  /** The broker takes the new request before the answer is over. */
  predicate Taken(w: World, id: ClientId, side: Side, submission: Submission) {
    submission.fate == Sent && Asked(w, id, side, submission.answer).sent[|w.wire.sent|].AtBroker()
  }

  /** The row of the new request, once the router has its answer. */
  function SubmittedRow(w: World, id: ClientId, side: Side): Row {
    Row(id, side, w.qty, w.wire.brokerPos, Submitted, Some(|w.wire.sent|), 0.0)
  }

  /** The sell's row has its broker id, the broker has closed the order, and with the missing fill the local
      position is the broker's. */
  predicate SellSettles(row: Row, localPos: real, w: Wire) {
    && row.brokerId.Some? && row.brokerId.value < |w.sent|
    && w.sent[row.brokerId.value].state.Closed?
    && localPos - (w.sent[row.brokerId.value].Filled() - row.booked) == w.brokerPos
  }

  datatype Prospect = GoesOn(world: World) | Ends(end: Ending)

  /** The barrier for the sell in row `i`: everything the broker filled is booked, or the run stops. */
  function SellProspect(w: World, i: nat, settling: seq<BrokerEvent>): Prospect
    requires i < |w.rows|
  {
    var v, row := AfterEvents(w.wire, settling), w.rows[i];
    if SellSettles(row, w.localPos, v) then
      var booked := v.sent[row.brokerId.value].Filled();
      GoesOn(World(w.rows[i := row.(status := Settled, booked := booked)], v, v.brokerPos, w.qty))
    else Ends(Stop)
  }

  /** The world behind a request that was taken. */
  function TakenWorld(w: World, id: ClientId, side: Side, answer: seq<BrokerEvent>): World {
    World(w.rows + [SubmittedRow(w, id, side)], Asked(w, id, side, answer), w.localPos, w.qty)
  }

  /** A2 without an order: the sell must be admitted, taken by the broker, and settled. */
  function FreshProspect(w: World, id: ClientId, a2: Submission): Prospect {
    if a2.fate.TurnedDown() then Ends(Stop)
    else if !Taken(w, id, Sell, a2) then Ends(Raise)
    else SellProspect(TakenWorld(w, id, Sell, a2.answer), |w.rows|, a2.settling)
  }

  /** A2: an order that is there is settled; without one there must be enough to sell. */
  function A2Prospect(w: World, id: ClientId, a2: Submission): Prospect {
    match NewestRow(w.rows, id)
    case Some(i) => SellProspect(w, i, a2.settling)
    case None => if w.wire.brokerPos < w.qty then Ends(Refuse) else FreshProspect(w, id, a2)
  }

  /** A3 without an order: turned down is what the step wants; an order that is taken stops the run. */
  function FreshA3Ending(w: World, id: ClientId, a3: Submission): Ending {
    if a3.fate.TurnedDown() then Continue else if Taken(w, id, Buy, a3) then Stop else Raise
  }

  function A3Ending(w: World, id: ClientId, a3: Submission): Ending {
    if NewestRow(w.rows, id).Some? then Continue else FreshA3Ending(w, id, a3)
  }

  /** The steps of a run whose preconditions hold. */
  function StepsEnding(w: World, runId: nat, a2: Submission, a3: Submission): Ending {
    match A2Prospect(w, CanaryStep(runId, A2), a2)
    case Ends(end) => end
    case GoesOn(after) => A3Ending(after, CanaryStep(runId, A3), a3)
  }

  /** How `run` ends on a loaded checkpoint. */
  function RunEnding(w: World, loss: LossState, saved: Saved, a2: Submission, a3: Submission, evidence: bool): Ending {
    if saved.AllDone() then
      if evidence && NewestRow(w.rows, saved.ClientIdOf(A3)).Some? then AlreadyComplete else Refuse
    else if loss != ReductionOnly || w.wire.brokerPos <= 0.0 then Refuse
    else StepsEnding(w, saved.runId, a2, a3)
  }

  // ---- the invocation --------------------------------------------------------------------------------------------

  class CanaryRun {
    const rig: Rig
    const p: nat
    const cp: Checkpoint
    const lock: SingleInstance

    constructor (rig: Rig, p: nat, cp: Checkpoint, lock: SingleInstance)
      ensures this.rig == rig && this.p == p && this.cp == cp && this.lock == lock
    {
      this.rig := rig;
      this.p := p;
      this.cp := cp;
      this.lock := lock;
    }

    /** The two files are the ones of the transition system, and so is the copy in memory. */
    ghost predicate Coupled()
      reads rig, cp, cp.disk
    {
      && rig.Valid()
      && lock.disk == cp.disk
      && OnDisk(cp.disk, rig)
      && (p in rig.s.procs && rig.s.procs[p].mem.Some? ==> rig.s.procs[p].mem == Some(cp.Value()))
    }

    ghost predicate Live()
      reads rig, cp, cp.disk
    {
      Coupled() && p in rig.s.procs
    }

    ghost predicate At(pc: Pc)
      reads rig, cp, cp.disk
    {
      Live() && rig.s.procs[p].pc == pc
    }

    /** Out of the lock: the process is gone and the lock file with it. */
    ghost predicate Left()
      reads rig, cp, cp.disk
    {
      Coupled() && p !in rig.s.procs && rig.s.lock == None && !cp.disk.locked
    }

    function Now(): World
      reads rig
    {
      World(rig.s.rows, rig.Wired(), rig.s.localPos, rig.s.reduceQty)
    }

    /** The id of a step of this run. */
    function Id(step: StepName): ClientId
      requires rig.s.saved.Some?
      reads rig
    {
      rig.s.saved.value.ClientIdOf(step)
    }

    /** The run and the loss state stay, recorded steps stay recorded, and `done` is recorded now. */
    twostate predicate Recorded(done: set<StepName>)
      reads rig
    {
      && old(rig.s).saved.Some? && rig.s.saved.Some?
      && rig.s.saved.value.runId == old(rig.s).saved.value.runId
      && rig.s.saved.value.done == old(rig.s).saved.value.done + done
      && rig.s.loss == old(rig.s).loss
    }

    /** The intent on disk is the one there was before. */
    twostate predicate IntentStays()
      reads rig
    {
      old(rig.s.saved).Some? ==> rig.s.saved.Some? && rig.s.saved.value.intent == old(rig.s.saved).value.intent
    }

    method Exit(why: Ending) returns (end: Ending)
      requires Live()
      modifies rig`s, rig`history, cp.disk`locked
      ensures Left() && end == why
      ensures rig.s == old(rig.s).(lock := None, procs := rig.s.procs)
    {
      lock.Exit();
      rig.Do(Leave(p));
      end := why;
    }

    /** `router.submit`: the row is committed before the broker is called; whatever happens, at most one row.  The
        order is turned down as its fate says, reaches the broker exactly when the broker takes the request, and
        otherwise the run has raised. */
    method Submit(step: StepName, submission: Submission) returns (alive: bool)
      requires At(Routing(step, Evaluating)) && rig.s.saved.Some?
      modifies rig`s, rig`history, cp.disk`locked
      ensures if alive then Live() else Left()
      ensures |old(rig.s.rows)| <= |rig.s.rows| <= |old(rig.s.rows)| + 1
      ensures rig.s.submits == old(rig.s.submits) && rig.s.saved == old(rig.s.saved) && rig.s.loss == old(rig.s.loss)
      ensures alive <==> submission.fate.TurnedDown() || old(Taken(Now(), Id(step), SideOf(step), submission))
      ensures submission.fate.TurnedDown() ==> rig.s.procs[p].pc == Refused(step)
      ensures alive && !submission.fate.TurnedDown() ==>
                && rig.s.procs[p].pc == RoutePc(step, Reached(|old(rig.s.rows)|))
                && Now() == old(TakenWorld(Now(), Id(step), SideOf(step), submission.answer))
    {
      MemoryOf(rig.start, rig.history, p);
      if submission.fate == NoRow {
        rig.Do(Act(p, Route(Ephemeral)));
        return true;
      }
      rig.Do(Act(p, Route(Persist)));
      alive := Decide(step, submission);
    }

    /** Behind the committed row: the risk engine, the broker, and its answer. */
    method Decide(step: StepName, submission: Submission) returns (alive: bool)
      requires Live() && rig.s.procs[p].mem.Some? && submission.fate != NoRow
      requires |rig.s.rows| > 0 && rig.s.procs[p].pc == Routing(step, Persisted(|rig.s.rows| - 1))
      modifies rig`s, rig`history, cp.disk`locked
      ensures if alive then Live() else Left()
      ensures |rig.s.rows| == |old(rig.s.rows)|
      ensures rig.s.submits == old(rig.s.submits) && rig.s.saved == old(rig.s.saved) && rig.s.loss == old(rig.s.loss)
      ensures submission.fate.TurnedDown() ==> alive && rig.s.procs[p].pc == Refused(step)
      ensures !submission.fate.TurnedDown() ==>
                var i, k := |old(rig.s.rows)| - 1, |old(rig.s.sent)|;
                var row := old(rig.s.rows)[i];
                var r := Request(i, row.cid, row.side, row.qty, InFlight);
                var w := AfterEvents(Wire(old(rig.s.sent) + [r], old(rig.s.brokerPos)), submission.answer);
                && (alive <==> submission.fate == Sent && w.sent[k].AtBroker())
                && (alive ==>
                      && rig.s.procs[p].pc == RoutePc(step, Reached(i))
                      && Now() == World(old(rig.s.rows)[i := row.(status := Submitted, brokerId := Some(k))],
                                        w, old(rig.s.localPos), old(rig.s.reduceQty)))
    {
      if submission.fate == RefusedByRisk {
        rig.Do(Act(p, Route(RiskRejects)));
        return true;
      }
      HandOver(step);
      alive := Answer(step, submission);
    }

    /** The order has passed the risk engine and goes to the broker. */
    method HandOver(step: StepName)
      requires Live() && rig.s.procs[p].mem.Some?
      requires rig.s.procs[p].pc.Routing? && rig.s.procs[p].pc.step == step && rig.s.procs[p].pc.at.Persisted?
      requires rig.s.procs[p].pc.at.row < |rig.s.rows|
      modifies rig`s, rig`history
      ensures Live()
      ensures var i, was := old(rig.s.procs[p].pc.at.row), old(rig.s);
              && rig.s.rows == was.rows[i := was.rows[i].(status := PendingSubmit)]
              && rig.s.sent == was.sent + [Request(i, was.rows[i].cid, was.rows[i].side, was.rows[i].qty, InFlight)]
              && rig.s.procs[p] == was.procs[p].(pc := Routing(step, Calling(i, |was.sent|)))
              && rig.s == was.(rows := rig.s.rows, sent := rig.s.sent, procs := rig.s.procs)
    {
      rig.Do(Act(p, Route(RiskPasses)));
      rig.Do(Act(p, Route(CallBroker)));
    }

    /** The broker's answer to a request that is on the wire: accepted, refused for good, or no answer. */
    method Answer(step: StepName, submission: Submission) returns (alive: bool)
      requires Live() && rig.s.procs[p].mem.Some?
      requires rig.s.procs[p].pc.Routing? && rig.s.procs[p].pc.step == step && rig.s.procs[p].pc.at.Calling?
      requires var at := rig.s.procs[p].pc.at;
               at.row < |rig.s.rows| && at.request < |rig.s.sent| && rig.s.sent[at.request].state == InFlight
      requires submission.fate != NoRow && submission.fate != RefusedByRisk
      modifies rig`s, rig`history, cp.disk`locked
      ensures if alive then Live() else Left()
      ensures |rig.s.rows| == |old(rig.s.rows)|
      ensures rig.s.submits == old(rig.s.submits) && rig.s.saved == old(rig.s.saved) && rig.s.loss == old(rig.s.loss)
      ensures submission.fate == RefusedByBroker ==> alive && rig.s.procs[p].pc == Refused(step)
      ensures submission.fate != RefusedByBroker ==>
                var at, w := old(rig.s.procs[p].pc.at), AfterEvents(old(rig.Wired()), submission.answer);
                && (alive <==> submission.fate == Sent && w.sent[at.request].AtBroker())
                && (alive ==>
                      && rig.s.procs[p].pc == RoutePc(step, Reached(at.row))
                      && Now() == old(Acknowledged(at)).(wire := w))
    {
      if submission.fate == RefusedByBroker {
        rig.Do(Act(p, Route(BrokerRefuses)));
        return true;
      }
      rig.Meanwhile(submission.answer);
      if submission.fate == Sent && ActionEnabled(rig.s, rig.s.procs[p], Route(Acknowledge)) {
        rig.Do(Act(p, Route(Acknowledge)));
        return true;
      }
      var _ := Exit(Raise);
      alive := false;
    }

    /** The world once the router has its answer. */
    ghost function Acknowledged(at: RouterPc): World
      requires at.Calling? && at.row < |rig.s.rows|
      reads rig
    {
      Now().(rows := rig.s.rows[at.row := rig.s.rows[at.row].(status := Submitted, brokerId := Some(at.request))])
    }

    /** The settlement barrier: it returns exactly when, after the broker's events, the order is closed, its row has
        its broker id, and with the missing fill the positions agree; otherwise it stops the run. */
    method Settle(settling: seq<BrokerEvent>) returns (end: Ending)
      requires Live() && rig.s.procs[p].pc.A2Barrier? && rig.s.saved.Some?
      requires rig.s.procs[p].pc.rebound ==> A2 in rig.s.saved.value.done
      modifies rig`s, rig`history, cp, cp.disk
      ensures (end == Continue || end == Stop) && (end == Stop ==> Left())
      ensures end == Continue ==> At(A3Find) && rig.s.procs[p].barrier && A2Settled(rig.s) && Recorded({A2})
      ensures |rig.s.rows| == |old(rig.s.rows)| && rig.s.submits == old(rig.s.submits)
      ensures IntentStays()
      ensures old(rig.s.procs[p].pc.row) < |rig.s.rows|
      ensures var prospect := SellProspect(old(Now()), old(rig.s.procs[p].pc.row), settling);
              && end == (if prospect.GoesOn? then Continue else prospect.end)
              && (end == Continue ==> Now() == prospect.world)
    {
      BarrierRow(rig.start, rig.history, p);
      var settled := Await(settling);
      if !settled {
        return Stop;
      }
      RecordSettled();
      end := Continue;
    }

    /** Whatever the broker does, and then whether the barrier returns; if it does not, the run has left. */
    method Await(settling: seq<BrokerEvent>) returns (settled: bool)
      requires Live() && rig.s.procs[p].pc.A2Barrier?
      requires rig.s.procs[p].pc.row < |rig.s.rows| && rig.s.rows[rig.s.procs[p].pc.row].side == Sell
      modifies rig`s, rig`history, cp.disk`locked
      ensures if settled then At(A2Check(old(rig.s.procs[p].pc.row), old(rig.s.procs[p].pc.rebound))) else Left()
      ensures rig.s.saved == old(rig.s.saved) && rig.s.loss == old(rig.s.loss) && rig.s.submits == old(rig.s.submits)
      ensures |rig.s.rows| == |old(rig.s.rows)|
      ensures var prospect := SellProspect(old(Now()), old(rig.s.procs[p].pc.row), settling);
              && (settled <==> prospect.GoesOn?) && (prospect.Ends? ==> prospect.end == Stop)
              && (settled ==> Now() == prospect.world)
    {
      rig.Meanwhile(settling);
      settled := ActionEnabled(rig.s, rig.s.procs[p], Barrier);
      if settled {
        rig.Do(Act(p, Barrier));
      } else {
        var _ := Exit(Stop);
      }
    }

    /** Behind the barrier A2 is recorded, unless the rebind has done so already. */
    method RecordSettled()
      requires Live() && rig.s.procs[p].pc.A2Check? && rig.s.saved.Some?
      requires rig.s.procs[p].pc.rebound ==> A2 in rig.s.saved.value.done
      modifies rig`s, rig`history, cp, cp.disk
      ensures At(A3Find) && rig.s.procs[p].barrier && A2Settled(rig.s) && Recorded({A2})
      ensures Now() == old(Now()) && rig.s.submits == old(rig.s.submits) && IntentStays()
    {
      MemoryOf(rig.start, rig.history, p);
      if !rig.s.procs[p].pc.rebound {
        cp.RecordStep(A2);
      }
      rig.Do(Act(p, RecordA2));
      BehindBarrier(rig.start, rig.history, p);
    }

    /** `step_a2`: a run that finds A2's order rebinds and submits nothing; otherwise it submits once, and goes
        on only past the barrier. */
    method StepA2(a2: Submission) returns (end: Ending)
      requires At(A2Find) && rig.s.saved.Some?
      modifies rig`s, rig`history, cp, cp.disk
      ensures end != AlreadyComplete && (end != Continue ==> Left())
      ensures end == Continue ==> At(A3Find) && rig.s.procs[p].barrier && A2Settled(rig.s) && Recorded({A2})
      ensures old(HasRow(rig.s, A2)) ==> |rig.s.rows| == |old(rig.s.rows)| && rig.s.submits == old(rig.s.submits)
      ensures |rig.s.rows| <= |old(rig.s.rows)| + 1
      ensures var prospect := old(A2Prospect(Now(), Id(A2), a2));
              && end == (if prospect.GoesOn? then Continue else prospect.end)
              && (end == Continue ==> Now() == prospect.world)
    {
      LookupIsRow(rig.start, rig.history, p, A2);
      rig.Do(Act(p, FindA2));
      if rig.s.procs[p].pc.A2Found? {
        Rebind();
        end := Settle(a2.settling);
      } else {
        end := FreshA2(a2);
      }
    }

    /** The order that is there is recorded as A2's. */
    method Rebind()
      requires Live() && rig.s.procs[p].pc.A2Found? && rig.s.saved.Some?
      modifies rig`s, rig`history, cp, cp.disk
      ensures old(rig.s.procs[p].pc.found.Local?) && Recorded({A2})
      ensures At(A2Barrier(old(rig.s.procs[p].pc.found.row), true))
      ensures Now() == old(Now()) && rig.s.submits == old(rig.s.submits)
    {
      MemoryOf(rig.start, rig.history, p);
      MayRebindA2(rig.start, rig.history, p);
      cp.RecordStep(A2);
      rig.Do(Act(p, RebindA2));
    }

    /** The branch with no order yet: intent on disk first, then the governed submit-and-settle. */
    method FreshA2(a2: Submission) returns (end: Ending)
      requires At(A2Fresh) && rig.s.saved.Some?
      modifies rig`s, rig`history, cp, cp.disk
      ensures end != AlreadyComplete && (end != Continue ==> Left())
      ensures end == Continue ==> At(A3Find) && rig.s.procs[p].barrier && A2Settled(rig.s) && Recorded({A2})
      ensures |rig.s.rows| <= |old(rig.s.rows)| + 1
      ensures old(rig.s.reduceQty <= rig.s.brokerPos) ==>
                rig.s.saved.Some? && rig.s.saved.value.intent
                == Some(Intent(old(rig.s.brokerPos), old(rig.s.brokerPos) - old(rig.s.reduceQty)))
      ensures old(rig.s.brokerPos < rig.s.reduceQty) ==> end == Refuse && rig.s.rows == old(rig.s.rows)
      ensures old(rig.s.reduceQty <= rig.s.brokerPos) ==>
                var prospect := old(FreshProspect(Now(), Id(A2), a2));
                && end == (if prospect.GoesOn? then Continue else prospect.end)
                && (end == Continue ==> Now() == prospect.world)
    {
      if rig.s.brokerPos < rig.s.reduceQty {
        end := Exit(Refuse);
        return;
      }
      TakeIntent();
      end := SubmitAndSettle(a2);
    }

    /** `submit_and_settle`: an order that reached the broker is settled, or the run has stopped. */
    method SubmitAndSettle(a2: Submission) returns (end: Ending)
      requires At(Routing(A2, Evaluating)) && rig.s.saved.Some?
      modifies rig`s, rig`history, cp, cp.disk
      ensures end != AlreadyComplete && (end != Continue ==> Left())
      ensures end == Continue ==> At(A3Find) && rig.s.procs[p].barrier && A2Settled(rig.s) && Recorded({A2})
      ensures |rig.s.rows| <= |old(rig.s.rows)| + 1 && IntentStays()
      ensures var prospect := old(FreshProspect(Now(), Id(A2), a2));
              && end == (if prospect.GoesOn? then Continue else prospect.end)
              && (end == Continue ==> Now() == prospect.world)
    {
      var alive := Submit(A2, a2);
      if !alive {
        return Raise;
      }
      if rig.s.procs[p].pc.Refused? {
        end := RecordRefused();
        return;
      }
      end := Settle(a2.settling);
    }

    /** The position and what it should become, on disk before the order exists. */
    method TakeIntent()
      requires At(A2Fresh) && rig.s.reduceQty <= rig.s.brokerPos && rig.s.saved.Some?
      modifies rig`s, rig`history, cp, cp.disk
      ensures At(Routing(A2, Evaluating)) && Now() == old(Now()) && rig.s.loss == old(rig.s.loss)
      ensures var intent := old(Intent(rig.s.brokerPos, rig.s.brokerPos - rig.s.reduceQty));
              rig.s.saved == Some(old(rig.s.saved.value).(intent := Some(intent)))
    {
      rig.Do(Act(p, SnapshotA2));
      WriteIntent();
    }

    method WriteIntent()
      requires At(A2Held(rig.s.brokerPos)) && rig.s.saved.Some?
      modifies rig`s, rig`history, cp, cp.disk
      ensures At(Routing(A2, Evaluating)) && Now() == old(Now()) && rig.s.loss == old(rig.s.loss)
      ensures var intent := old(Intent(rig.s.brokerPos, rig.s.brokerPos - rig.s.reduceQty));
              rig.s.saved == Some(old(rig.s.saved.value).(intent := Some(intent)))
    {
      MemoryOf(rig.start, rig.history, p);
      cp.RecordIntent(rig.s.brokerPos, rig.s.reduceQty);
      rig.Do(Act(p, IntentA2));
    }

    /** A refused reduction is recorded and ends the run. */
    method RecordRefused() returns (end: Ending)
      requires At(Refused(A2))
      modifies rig`s, rig`history, cp, cp.disk
      ensures end == Stop && Left() && rig.s.rows == old(rig.s.rows) && IntentStays()
    {
      MemoryOf(rig.start, rig.history, p);
      cp.RecordStep(A2);
      rig.Do(Act(p, RecordRefusal));
      end := Exit(Stop);
    }

    /** `step_a3`: runs only behind the barrier; a refusal is recorded, a request that reached the broker stops
        the run, and an order that is already there is never submitted again. */
    method StepA3(a3: Submission) returns (end: Ending)
      requires At(A3Find) && rig.s.saved.Some?
      modifies rig`s, rig`history, cp, cp.disk
      ensures end != AlreadyComplete && (end != Continue ==> Left())
      ensures end == Continue ==> At(A4Start) && Recorded({A3})
      ensures old(HasRow(rig.s, A3)) ==> |rig.s.rows| == |old(rig.s.rows)| && rig.s.submits == old(rig.s.submits)
      ensures |rig.s.rows| <= |old(rig.s.rows)| + 1
      ensures end == old(A3Ending(Now(), Id(A3), a3))
    {
      MemoryOf(rig.start, rig.history, p);
      BehindBarrier(rig.start, rig.history, p);
      LookupIsRow(rig.start, rig.history, p, A3);
      rig.Do(Act(p, FindA3));
      if rig.s.procs[p].pc.A3Found? {
        end := ReboundA3();
      } else {
        end := FreshA3(a3);
      }
    }

    /** The branch with no order yet: the router must refuse it. */
    method FreshA3(a3: Submission) returns (end: Ending)
      requires At(Routing(A3, Evaluating)) && rig.s.saved.Some?
      modifies rig`s, rig`history, cp, cp.disk
      ensures end != Continue ==> Left()
      ensures end == Continue ==> At(A4Start) && Recorded({A3})
      ensures |rig.s.rows| <= |old(rig.s.rows)| + 1
      ensures end == old(FreshA3Ending(Now(), Id(A3), a3))
    {
      var alive := Submit(A3, a3);
      if !alive {
        return Raise;
      }
      if rig.s.procs[p].pc.A3Reached? {
        end := StopUnplanned(a3.settling);
        return;
      }
      MemoryOf(rig.start, rig.history, p);
      cp.RecordStep(A3);
      rig.Do(Act(p, RecordRefusal));
      end := Continue;
    }

    /** A request that must never have reached the broker: its order is settled if the barrier allows, so that
        its fills are booked, and the run stops either way. */
    method StopUnplanned(settling: seq<BrokerEvent>) returns (end: Ending)
      requires Live() && rig.s.procs[p].pc.A3Reached?
      modifies rig`s, rig`history, cp.disk`locked
      ensures end == Stop && Left() && |rig.s.rows| == |old(rig.s.rows)|
      ensures rig.Wired() == AfterEvents(old(rig.Wired()), settling)
      ensures var i := old(rig.s.procs[p].pc.row);
              BarrierMayReturn(rig.s.rows, rig.s.sent, rig.s.localPos, rig.s.brokerPos, i) ==>
                rig.s.rows[i].status == Settled
                && rig.s.rows[i].booked == rig.s.sent[rig.s.rows[i].brokerId.value].Filled()
    {
      rig.Meanwhile(settling);
      if ActionEnabled(rig.s, rig.s.procs[p], SettleA3) {
        rig.Do(Act(p, SettleA3));
      }
      end := Exit(Stop);
    }

    /** An A3 order that is already there: it must be the one this step would send. */
    method ReboundA3() returns (end: Ending)
      requires Live() && rig.s.procs[p].pc.A3Found? && rig.s.procs[p].mem.Some? && rig.s.saved.Some?
      modifies rig`s, rig`history, cp, cp.disk
      ensures end == (if old(Identity(rig.s.rows, rig.s.sent, rig.s.procs[p].pc.found, Buy, rig.s.reduceQty))
                      then Continue else Refuse)
      ensures end != Continue ==> Left()
      ensures end == Continue ==> At(A4Start) && Recorded({A3})
      ensures rig.s.rows == old(rig.s.rows) && rig.s.submits == old(rig.s.submits)
    {
      MemoryOf(rig.start, rig.history, p);
      if !ActionEnabled(rig.s, rig.s.procs[p], RebindA3) {
        end := Exit(Refuse);
        return;
      }
      cp.RecordStep(A3);
      rig.Do(Act(p, RebindA3));
      end := Continue;
    }

    /** `execute` from A1 to A5: the process that comes back through the end has settled A2 and recorded every
        step, and has added at most the two orders. */
    method Execute(a2: Submission, a3: Submission, recovery: LossState) returns (end: Ending)
      requires At(Ready) && rig.s.saved.Some?
      modifies rig`s, rig`history, cp, cp.disk
      ensures end != AlreadyComplete && (end != Continue ==> Left())
      ensures end == Continue ==> At(Over) && A2Settled(rig.s)
      ensures end == Continue ==> Completed(recovery)
      ensures |rig.s.rows| <= |old(rig.s.rows)| + 2
      ensures end == old(StepsEnding(Now(), rig.s.saved.value.runId, a2, a3))
    {
      ghost var before := rig.s.saved.value.done;
      RecordFirst();
      ghost var first := rig.s.saved.value.done;
      end := PlaceOrders(a2, a3);
      if end != Continue { return; }
      ghost var placed := rig.s.saved.value.done;
      end := Recover(recovery);
      AllRecorded(before, first, placed, rig.s.saved.value);
    }

    /** `step_a2` and `step_a3`. */
    method PlaceOrders(a2: Submission, a3: Submission) returns (end: Ending)
      requires At(A2Find) && rig.s.saved.Some?
      modifies rig`s, rig`history, cp, cp.disk
      ensures end != AlreadyComplete && (end != Continue ==> Left())
      ensures end == Continue ==> At(A4Start) && Recorded({A2, A3})
      ensures |rig.s.rows| <= |old(rig.s.rows)| + 2
      ensures end == old(StepsEnding(Now(), rig.s.saved.value.runId, a2, a3))
    {
      ghost var id := Id(A3);
      end := StepA2(a2);
      if end != Continue { return; }
      assert Id(A3) == id;
      end := StepA3(a3);
    }

    method RecordFirst()
      requires At(Ready) && rig.s.saved.Some?
      modifies rig`s, rig`history, cp, cp.disk
      ensures At(A2Find) && Now() == old(Now()) && Recorded({A1})
    {
      MemoryOf(rig.start, rig.history, p);
      cp.RecordStep(A1);
      rig.Do(Act(p, RecordA1));
    }

    /** Every step is recorded, and the recovery was asked for exactly if it had not been before. */
    twostate predicate Completed(recovery: LossState)
      reads rig
    {
      && old(rig.s).saved.Some? && rig.s.saved.Some? && rig.s.saved.value.AllDone()
      && rig.s.loss == (if A4 in old(rig.s).saved.value.done then old(rig.s).loss else recovery)
    }

    /** `run` behind the loaded checkpoint: a completed one, the preconditions, the steps, and out of the lock.
        A completed one is checked: its two orders must be on file, and `evidence` says whether the rest of what
        it recorded holds. */
    method Proceed(a2: Submission, a3: Submission, recovery: LossState, evidence: bool) returns (end: Ending)
      requires At(Loaded) && rig.s.procs[p].mem.Some? && rig.s.saved.Some?
      modifies rig`s, rig`history, cp, cp.disk
      ensures Left() && |rig.s.rows| <= |old(rig.s.rows)| + 2
      ensures old(rig.s.saved.value.AllDone()) ==>
                rig.s.rows == old(rig.s.rows) && rig.s.submits == old(rig.s.submits) && rig.s.saved == old(rig.s.saved)
      ensures end == Continue ==> A2Settled(rig.s) && Completed(recovery)
      ensures end == old(RunEnding(Now(), rig.s.loss, rig.s.saved.value, a2, a3, evidence))
    {
      MemoryOf(rig.start, rig.history, p);
      if cp.Value().AllDone() {
        FindsOrders(rig.start, rig.history, p);
        end := Exit(if evidence && OrdersOnFile(rig.s, cp.Value()) then AlreadyComplete else Refuse);
        return;
      }
      if rig.s.loss != ReductionOnly || rig.s.brokerPos <= 0.0 {
        end := Exit(Refuse);
        return;
      }
      rig.Do(Act(p, Preconditions));
      end := Execute(a2, a3, recovery);
      if end == Continue {
        ghost var before := rig.s;
        end := Exit(Continue);
        StaysSettled(before, rig.s);
      }
    }

    method StepA4(recovery: LossState)
      requires At(A4Start) && rig.s.saved.Some?
      modifies rig`s, rig`history, cp, cp.disk
      ensures At(A5Start) && rig.s.saved.Some? && rig.s.saved.value.done == old(rig.s.saved.value.done) + {A4}
      ensures rig.s.loss == (if A4 in old(rig.s.saved.value.done) then old(rig.s.loss) else recovery)
      ensures |rig.s.rows| == |old(rig.s.rows)|
    {
      MemoryOf(rig.start, rig.history, p);
      if A4 !in cp.done {
        cp.RecordStep(A4);
      }
      rig.Do(Act(p, RecordA4(recovery)));
    }

    method StepA5()
      requires At(A5Start) && rig.s.saved.Some?
      modifies rig`s, rig`history, cp, cp.disk
      ensures At(Over) && A2Settled(rig.s) && Recorded({A5})
      ensures |rig.s.rows| == |old(rig.s.rows)|
    {
      MemoryOf(rig.start, rig.history, p);
      BehindBarrier(rig.start, rig.history, p);
      ghost var before := rig.s;
      if A5 !in cp.done {
        cp.RecordStep(A5);
      }
      rig.Do(Act(p, RecordA5));
      StaysSettled(before, rig.s);
    }

    /** `step_a4` and `step_a5`. */
    method Recover(recovery: LossState) returns (end: Ending)
      requires At(A4Start) && rig.s.saved.Some?
      modifies rig`s, rig`history, cp, cp.disk
      ensures At(Over) && end == Continue && A2Settled(rig.s)
      ensures rig.s.saved.Some? && rig.s.saved.value.done == old(rig.s.saved.value.done) + {A4, A5}
      ensures rig.s.loss == (if A4 in old(rig.s.saved.value.done) then old(rig.s.loss) else recovery)
      ensures |rig.s.rows| == |old(rig.s.rows)|
    {
      StepA4(recovery);
      StepA5();
      end := Continue;
    }
  }

  /** The checkpoint an invocation works with. */
  function Loads(file: Option<Saved>, now: nat): Saved {
    if file.Some? then file.value else Saved(now, None, {})
  }

  function WorldOf(s: State): World {
    World(s.rows, Wire(s.sent, s.brokerPos), s.localPos, s.reduceQty)
  }

  /** `main`: a second process is refused at the lock and changes nothing.  Otherwise the invocation is over and
      out of the lock when it returns, on whatever path, with at most two orders more than before; how it ends
      follows from what it finds and from the answers it gets.  A completed checkpoint touches nothing, and a run
      that comes back through the end has settled A2, recorded every step on disk, and asked for the recovery
      exactly if no earlier life had. */
  method Invoke(rig: Rig, disk: Disk, p: nat, now: nat, a2: Submission, a3: Submission, recovery: LossState,
                evidence: bool)
    returns (end: Ending)
    requires rig.Valid() && OnDisk(disk, rig) && p !in rig.s.procs
    modifies rig`s, rig`history, disk
    ensures rig.Valid() && OnDisk(disk, rig) && p !in rig.s.procs
    ensures old(disk.locked) ==> end == Refuse && rig.s == old(rig.s)
    ensures !old(disk.locked) ==>
              && !disk.locked
              && end == RunEnding(old(WorldOf(rig.s)), old(rig.s.loss), Loads(old(disk.file), now), a2, a3, evidence)
    ensures |rig.s.rows| <= |old(rig.s.rows)| + 2
    ensures !old(disk.locked) && old(disk.file.Some? && disk.file.value.AllDone()) ==>
              rig.s.rows == old(rig.s.rows) && rig.s.submits == old(rig.s.submits) && disk.file == old(disk.file)
    ensures end == Continue ==> A2Settled(rig.s) && disk.file.Some? && disk.file.value.AllDone()
    ensures end == Continue ==>
              rig.s.loss == (if old(disk.file.Some? && A4 in disk.file.value.done) then old(rig.s.loss) else recovery)
  {
    var lock := new SingleInstance(disk);
    var entered := lock.Enter();
    if !entered {
      return Refuse;
    }
    rig.Do(Enter(p, false));
    var cp := new Checkpoint(disk, now);
    rig.Do(Act(p, Load(now)));
    var run := new CanaryRun(rig, p, cp, lock);
    end := run.Proceed(a2, a3, recovery, evidence);
  }

  // ---- what a process may rely on, from the invariant of every run ----------------------------------------------

  lemma MemoryOf(start: State, history: seq<Step>, p: nat)
    requires Init(start) && Runs(start, history) && p in After(start, history).procs
    ensures var proc := After(start, history).procs[p];
            proc.pc != Churning && proc.pc != Entered ==> proc.mem.Some? && proc.mem == After(start, history).saved
  {
    InitInv(start);
    RunKeepsInv(start, history);
  }

  /** A lookup of a step's id finds its row, or nothing at all; a row it finds is the one the step would commit. */
  lemma LookupIsRow(start: State, history: seq<Step>, p: nat, step: StepName)
    requires Init(start) && Runs(start, history) && p in After(start, history).procs
    requires After(start, history).procs[p].pc == A2Find || After(start, history).procs[p].pc == A3Find
    requires step == A2 || step == A3
    ensures var s := After(start, history);
            && s.procs[p].mem.Some? && s.saved == s.procs[p].mem
            && var row := NewestRow(s.rows, s.saved.value.ClientIdOf(step));
               && LookUp(s, s.saved.value, step) == (match row case Some(i) => Some(Local(i)) case None => None)
               && (HasRow(s, step) <==> row.Some?)
               && (row.Some? ==> s.rows[row.value].side == SideOf(step) && s.rows[row.value].qty == s.reduceQty)
  {
    InitInv(start);
    RunKeepsInv(start, history);
    var s := After(start, history);
    assert ProcOk(s, s.procs[p]);
    LookUpExact(s, s.procs[p].mem.value, step);
    var row := NewestRow(s.rows, s.saved.value.ClientIdOf(step));
    if row.Some? { assert IsId(s, s.rows[row.value].cid, step); }
  }

  /** The row at the barrier is the sell's. */
  lemma BarrierRow(start: State, history: seq<Step>, p: nat)
    requires Init(start) && Runs(start, history) && p in After(start, history).procs
    requires After(start, history).procs[p].pc.A2Barrier?
    ensures var s := After(start, history); s.procs[p].pc.row < |s.rows| && s.rows[s.procs[p].pc.row].side == Sell
  {
    InitInv(start);
    RunKeepsInv(start, history);
    var s := After(start, history);
    assert ProcOk(s, s.procs[p]);
    assert IsA2Row(s, s.procs[p].pc.row);
  }

  lemma FindsOrders(start: State, history: seq<Step>, p: nat)
    requires Init(start) && Runs(start, history) && p in After(start, history).procs
    requires After(start, history).procs[p].pc == Loaded
    requires After(start, history).procs[p].mem.Some? && After(start, history).procs[p].mem.value.AllDone()
    ensures var s := After(start, history);
            && s.saved == s.procs[p].mem
            && (OrdersOnFile(s, s.saved.value) <==> NewestRow(s.rows, s.saved.value.ClientIdOf(A3)).Some?)
  {
    InitInv(start);
    RunKeepsInv(start, history);
    var s := After(start, history);
    assert ProcOk(s, s.procs[p]);
    SettledHasRow(s);
    OnFileIffRow(s, A2);
    OnFileIffRow(s, A3);
    var row := NewestRow(s.rows, s.saved.value.ClientIdOf(A3));
    if row.Some? { assert IsId(s, s.rows[row.value].cid, A3); }
  }

  lemma MayRebindA2(start: State, history: seq<Step>, p: nat)
    requires Init(start) && Runs(start, history) && p in After(start, history).procs
    requires After(start, history).procs[p].pc.A2Found?
    ensures ActionEnabled(After(start, history), After(start, history).procs[p], RebindA2)
  {
    InitInv(start);
    RunKeepsInv(start, history);
    assert ProcOk(After(start, history), After(start, history).procs[p]);
  }

  lemma BehindBarrier(start: State, history: seq<Step>, p: nat)
    requires Init(start) && Runs(start, history) && p in After(start, history).procs
    requires var pc := After(start, history).procs[p].pc; pc == A3Find || pc == A4Start || pc == A5Start
    ensures var s := After(start, history);
            s.procs[p].barrier && A2Settled(s) && s.saved.Some? && s.saved.value.intent.Some?
  {
    InitInv(start);
    RunKeepsInv(start, history);
    var s := After(start, history);
    assert ProcOk(s, s.procs[p]);
    var i: nat :| SettledAt(s, i);
    assert IsId(s, s.rows[i].cid, A2);
  }

  lemma AllRecorded(before: set<StepName>, first: set<StepName>, placed: set<StepName>, saved: Saved)
    requires first == before + {A1} && placed == first + {A2, A3} && saved.done == placed + {A4, A5}
    ensures saved.AllDone() && (A4 in placed <==> A4 in before)
  {
    forall step: StepName ensures step in saved.done && step in {A1, A2, A3, A4, A5} {
      match step case A1 => case A2 => case A3 => case A4 => case A5 =>
    }
  }

  lemma StaysSettled(s: State, t: State)
    requires A2Settled(s) && t.rows == s.rows && t.sent == s.sent
    requires s.saved.Some? && t.saved.Some? && t.saved.value.runId == s.saved.value.runId
    ensures A2Settled(t)
  {
    var i: nat :| SettledAt(s, i);
    assert SettledAt(t, i);
  }
}
