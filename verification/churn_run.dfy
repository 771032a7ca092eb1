/** The churn driver in its own form: an object whose `Run` is a bounded loop of round trips. */
module ChurnRunner {
  import opened Options
  import opened Orders
  import opened Churn
  import opened ChurnSafety
  import opened ChurnExposure
  import opened Shares

  class Rig {
    var s: State
    ghost var start: State
    ghost var history: seq<Step>

    ghost predicate Valid()
      reads this
    {
      Init(start) && Runs(start, history) && After(start, history) == s
    }

    constructor (start: State)
      requires Init(start)
      ensures Valid() && s == start
    {
      s := start;
      this.start := start;
      history := [];
    }

    method Do(step: Step)
      requires Valid() && Enabled(s, step)
      modifies this`s, this`history
      ensures Valid() && s == Apply(old(s), step) && history == old(history) + [step]
      ensures ExpoInv(old(s)) && QuietStep(old(s), step) ==> ExpoInv(s)
    {
      RunsSnoc(start, history, step);
      if ExpoInv(s) && QuietStep(s, step) { StepKeepsExpo(s, step); }
      s := Apply(s, step);
      history := history + [step];
    }

    function Wired(): Wire
      reads this
    {
      Wire(s.sent, s.brokerPos)
    }

    /** Whatever the broker does meanwhile. */
    method Meanwhile(script: seq<BrokerEvent>)
      requires Valid()
      modifies this`s, this`history
      ensures Valid() && (ExpoInv(old(s)) ==> ExpoInv(s))
      ensures s == old(s).(sent := s.sent, brokerPos := s.brokerPos)
      ensures Wired() == AfterEvents(old(Wired()), script)
    {
      var i := 0;
      while i < |script|
        invariant i <= |script| && Valid() && (ExpoInv(old(s)) ==> ExpoInv(s))
        invariant s == old(s).(sent := s.sent, brokerPos := s.brokerPos)
        invariant AfterEvents(Wired(), script[i..]) == AfterEvents(old(Wired()), script)
      {
        if BrokerMay(s.sent, script[i]) {
          Do(Broker(script[i]));
        }
        i := i + 1;
      }
    }
  }

  lemma {:induction false} RunsSnoc(s: State, steps: seq<Step>, step: Step)
    requires Runs(s, steps) && Enabled(After(s, steps), step)
    ensures Runs(s, steps + [step]) && After(s, steps + [step]) == Apply(After(s, steps), step)
    decreases |steps|
  {
    if |steps| == 0 {
      assert steps + [step] == [step];
      assert [step][1..] == [];
    } else {
      RunsSnoc(Apply(s, steps[0]), steps[1..], step);
      assert (steps + [step])[1..] == steps[1..] + [step];
    }
  }

  /** How one `router.submit` ends, and what the broker does before the barrier looks. */
  datatype Fate = NoRow | RefusedByRisk | RefusedByBroker | Raised | Sent

  datatype LegTurn = LegTurn(fate: Fate, answer: seq<BrokerEvent>, settling: seq<BrokerEvent>, otherChecksHold: bool)

  /** What one turn of the loop meets: the loss, the clock, a quote if there is one, the account, two legs. */
  datatype Turn = Turn(day: real, timeLeft: bool, quote: Option<Quote>, buy: LegTurn, sell: LegTurn)

  datatype Ending = Finished | Continue | Refused | Stopped | Unreachable | Overshot

  // ---- what a leg comes to, from what its turn brings ------------------------------------------------------------

  /** The wire, the broker's position and the local one. */
  datatype Books = Books(wire: Wire, localPos: real)

  /** After the settling events request `k` is closed and filled in full, the local position with its fill is the
      broker's, nothing is open, and the other checks hold. */
  predicate Closes(b: Books, k: nat, turn: LegTurn) {
    var w := AfterEvents(b.wire, turn.settling);
    && k < |w.sent| && w.sent[k].state == WireState.Closed(w.sent[k].qty)
    && b.localPos + w.sent[k].Effect() == w.brokerPos
    && !Open(w.sent) && turn.otherChecksHold
  }

  /** The books after a leg that goes through: its request is sent and taken by the broker, and closes. */
  function LegBooks(b: Books, r: Request, turn: LegTurn): Option<Books> {
    var w := AfterEvents(Wire(b.wire.sent + [r], b.wire.brokerPos), turn.answer);
    var k := |b.wire.sent|;
    if turn.fate == Sent && w.sent[k].AtBroker() && Closes(Books(w, b.localPos), k, turn) then
      var v := AfterEvents(w, turn.settling);
      Some(Books(v, v.brokerPos))
    else None
  }

  /** The request of leg `index`, which is about to be the row `row`. */
  function LegRequest(runId: nat, row: nat, index: nat, side: Side, qty: real): Request {
    Request(row, ChurnLeg(runId, index), side, qty, InFlight)
  }

  /** What a round trip starts on: the books, the run, the next row and the next leg. */
  datatype Outlook = Outlook(books: Books, runId: nat, row: nat, index: nat)

  /** The bounds, what they size from a quote, and what becomes of the books in a leg. */
  datatype Rules = Rules(bounds: Bounds, sized: Quote -> nat, leg: (Books, Request, LegTurn) -> Option<Books>)

  function RulesOf(bounds: Bounds): Rules {
    Rules(bounds, quote => Sized(bounds, quote), LegBooks)
  }

  ghost predicate IsOf(rules: Rules, bounds: Bounds) {
    && rules.bounds == bounds
    && (forall quote {:trigger Sized(bounds, quote)} :: rules.sized(quote) == Sized(bounds, quote))
    && (forall b, r, turn {:trigger LegBooks(b, r, turn)} :: rules.leg(b, r, turn) == LegBooks(b, r, turn))
  }

  /** A buy of `qty` shares and the sell that closes it at once. */
  function Trip(rules: Rules, o: Outlook, qty: nat, turn: Turn): Option<Outlook> {
    match rules.leg(o.books, LegRequest(o.runId, o.row, o.index, Buy, qty as real), turn.buy)
    case None => None
    case Some(held) =>
      match rules.leg(held, LegRequest(o.runId, o.row + 1, o.index + 1, Sell, qty as real), turn.sell)
      case None => None
      case Some(books) => Some(Outlook(books, o.runId, o.row + 2, o.index + 2))
  }

  /** After `n` round trips, if they all go through. */
  function Trips(rules: Rules, o: Outlook, turns: nat -> Turn, n: nat): Option<Outlook> {
    if n == 0 then Some(o)
    else
      match Trips(rules, o, turns, n - 1)
      case None => None
      case Some(before) =>
        var turn := turns(n - 1);
        if turn.quote.None? then None else Trip(rules, before, rules.sized(turn.quote.value), turn)
  }

  predicate SameLeg(was: Process, now: Process) {
    now.trips == was.trips && now.index == was.index && now.qty == was.qty
  }

  /** Behind the buy comes the sell of the same quantity; behind the sell, the next turn of the loop. */
  predicate PastSide(side: Side, was: Process, now: Process) {
    && now.pc == (if side == Buy then LegFind(Sell) else Head)
    && now.trips == was.trips + (if side == Sell then 1 else 0)
    && now.qty == was.qty
  }

  /** The checkpoint has recorded `more` further legs. */
  predicate LegsMore(was: State, now: State, more: nat) {
    && was.saved.Some? && now.saved.Some?
    && now.saved.value.runId == was.saved.value.runId
    && now.saved.value.NextIndex() == was.saved.value.NextIndex() + more
  }

  class ChurnDriver {
    const rig: Rig
    const p: nat

    constructor (rig: Rig, p: nat)
      ensures this.rig == rig && this.p == p
    {
      this.rig := rig;
      this.p := p;
    }

    /** A step that starts exposed as the invocation's position says ends so. */
    twostate predicate StaysExposed()
      reads rig
    {
      old(ExpoInv(rig.s)) ==> ExpoInv(rig.s)
    }

    ghost predicate Live()
      reads rig
    {
      rig.Valid() && p in rig.s.procs
    }

    ghost predicate Left()
      reads rig
    {
      rig.Valid() && p !in rig.s.procs && rig.s.lock == None
    }

    method Exit(why: Ending) returns (end: Ending)
      requires Live()
      modifies rig`s, rig`history
      ensures Left() && end == why
      ensures rig.s == old(rig.s).(lock := None, procs := rig.s.procs) && StaysExposed()
    {
      rig.Do(Leave(p));
      end := why;
    }

    function BooksNow(): Books
      reads rig
    {
      Books(rig.Wired(), rig.s.localPos)
    }

    /** The request of the leg under way, before it is sent. */
    ghost function Upcoming(side: Side): Request
      requires p in rig.s.procs && rig.s.saved.Some?
      reads rig
    {
      LegRequest(rig.s.saved.value.runId, |rig.s.rows|, rig.s.procs[p].index, side, rig.s.procs[p].qty)
    }

    /** The process waits at the barrier for request `k`, of which nothing is booked yet. */
    ghost predicate AtBarrier(side: Side, k: nat)
      reads rig
    {
      && Live() && rig.s.procs[p].pc.LegBarrier? && rig.s.procs[p].pc.side == side
      && var i, proc := rig.s.procs[p].pc.row, rig.s.procs[p];
         && i < |rig.s.rows| && rig.s.rows[i].brokerId == Some(k) && rig.s.rows[i].booked == 0.0
         && rig.s.rows[i].side == side
         && k < |rig.s.sent| && rig.s.sent[k].qty == proc.qty && rig.s.sent[k].side == side
    }

    /** The governed submit: a leg that is not admitted and acknowledged ends the run.  It reaches the barrier
        exactly when the broker takes the request before the answer is over. */
    method Submit(side: Side, turn: LegTurn) returns (alive: bool)
      requires Live() && rig.s.procs[p].pc == Routing(side, Evaluating) && rig.s.saved.Some?
      modifies rig`s, rig`history
      ensures rig.Valid() && (if alive then Live() else Left())
      ensures |rig.s.rows| <= |old(rig.s.rows)| + 1
      ensures alive ==> var pc := rig.s.procs[p].pc; pc == NotFilled || (pc.LegBarrier? && pc.side == side)
      ensures alive ==> SameLeg(old(rig.s.procs[p]), rig.s.procs[p])
      ensures rig.s.bounds == old(rig.s.bounds) && rig.s.saved == old(rig.s.saved) && StaysExposed()
      ensures var w := AfterEvents(Wire(old(rig.s.sent) + [old(Upcoming(side))], old(rig.s.brokerPos)), turn.answer);
              var k := |old(rig.s.sent)|;
              && (alive && rig.s.procs[p].pc.LegBarrier? <==> turn.fate == Sent && w.sent[k].AtBroker())
              && (alive && rig.s.procs[p].pc.LegBarrier? ==>
                    AtBarrier(side, k) && BooksNow() == Books(w, old(rig.s.localPos))
                    && |rig.s.rows| == |old(rig.s.rows)| + 1)
    {
      MemoryOf(rig.start, rig.history, p);
      if turn.fate == NoRow {
        rig.Do(Act(p, Route(Ephemeral)));
        return true;
      }
      rig.Do(Act(p, Route(Persist)));
      if turn.fate == RefusedByRisk {
        rig.Do(Act(p, Route(RiskRejects)));
        return true;
      }
      HandOver(side);
      alive := Answer(side, turn);
    }

    /** The order has passed the risk engine and goes to the broker. */
    method HandOver(side: Side)
      requires Live() && rig.s.procs[p].mem.Some?
      requires rig.s.procs[p].pc.Routing? && rig.s.procs[p].pc.side == side && rig.s.procs[p].pc.at.Persisted?
      requires rig.s.procs[p].pc.at.row < |rig.s.rows|
      modifies rig`s, rig`history
      ensures Live() && StaysExposed()
      ensures var i, was := old(rig.s.procs[p].pc.at.row), old(rig.s);
              && rig.s.rows == was.rows[i := was.rows[i].(status := PendingSubmit)]
              && rig.s.sent == was.sent + [Request(i, was.rows[i].cid, was.rows[i].side, was.rows[i].qty, InFlight)]
              && rig.s.procs[p] == was.procs[p].(pc := Routing(side, Calling(i, |was.sent|)))
              && rig.s == was.(rows := rig.s.rows, sent := rig.s.sent, procs := rig.s.procs)
    {
      rig.Do(Act(p, Route(RiskPasses)));
      rig.Do(Act(p, Route(CallBroker)));
    }

    method Answer(side: Side, turn: LegTurn) returns (alive: bool)
      requires Live() && rig.s.procs[p].mem.Some?
      requires rig.s.procs[p].pc.Routing? && rig.s.procs[p].pc.side == side && rig.s.procs[p].pc.at.Calling?
      requires var at := rig.s.procs[p].pc.at;
               && at.row < |rig.s.rows| && at.request < |rig.s.sent| && rig.s.sent[at.request].state == InFlight
               && rig.s.rows[at.row].booked == 0.0 && rig.s.rows[at.row].side == side
               && rig.s.sent[at.request].qty == rig.s.procs[p].qty && rig.s.sent[at.request].side == side
      requires turn.fate != NoRow && turn.fate != RefusedByRisk
      modifies rig`s, rig`history
      ensures rig.Valid() && (if alive then Live() else Left())
      ensures |rig.s.rows| == |old(rig.s.rows)|
      ensures alive ==> var pc := rig.s.procs[p].pc; pc == NotFilled || (pc.LegBarrier? && pc.side == side)
      ensures alive ==> SameLeg(old(rig.s.procs[p]), rig.s.procs[p])
      ensures rig.s.bounds == old(rig.s.bounds) && rig.s.saved == old(rig.s.saved) && StaysExposed()
      ensures var w, k := AfterEvents(old(rig.Wired()), turn.answer), old(rig.s.procs[p].pc.at.request);
              && (alive && rig.s.procs[p].pc.LegBarrier? <==> turn.fate == Sent && w.sent[k].AtBroker())
              && (alive && rig.s.procs[p].pc.LegBarrier? ==>
                    AtBarrier(side, k) && BooksNow() == Books(w, old(rig.s.localPos)))
    {
      if turn.fate == RefusedByBroker && ActionEnabled(rig.s, rig.s.procs[p], Route(BrokerRefuses)) {
        rig.Do(Act(p, Route(BrokerRefuses)));
        return true;
      }
      EventsAreLater(rig.Wired(), turn.answer);
      rig.Meanwhile(turn.answer);
      alive := Acknowledge(side, turn.fate == Sent);
    }

    /** The broker's answer reaches the router, or never does. */
    method Acknowledge(side: Side, heard: bool) returns (alive: bool)
      requires Live() && rig.s.procs[p].mem.Some?
      requires rig.s.procs[p].pc.Routing? && rig.s.procs[p].pc.side == side && rig.s.procs[p].pc.at.Calling?
      requires var at := rig.s.procs[p].pc.at;
               && at.row < |rig.s.rows| && at.request < |rig.s.sent|
               && rig.s.rows[at.row].booked == 0.0 && rig.s.rows[at.row].side == side
               && rig.s.sent[at.request].qty == rig.s.procs[p].qty && rig.s.sent[at.request].side == side
      modifies rig`s, rig`history
      ensures rig.Valid() && (if alive then Live() else Left()) && StaysExposed()
      ensures |rig.s.rows| == |old(rig.s.rows)| && rig.Wired() == old(rig.Wired())
      ensures rig.s == old(rig.s).(rows := rig.s.rows, procs := rig.s.procs, lock := rig.s.lock)
      ensures var k := old(rig.s.procs[p].pc.at.request);
              && (alive <==> heard && old(rig.s.sent)[k].AtBroker())
              && (alive ==> AtBarrier(side, k) && SameLeg(old(rig.s.procs[p]), rig.s.procs[p]))
    {
      alive := heard && ActionEnabled(rig.s, rig.s.procs[p], Route(RouterMove.Acknowledge));
      if alive {
        rig.Do(Act(p, Route(RouterMove.Acknowledge)));
      } else {
        var _ := Exit(Stopped);
      }
    }

    /** `run_leg`: intent, submit, barrier, record, verify.  It comes back exactly from a leg whose request the
        broker takes, that settles filled in full and passes every check; its rows grow by one. */
    method RunLeg(side: Side, turn: LegTurn, ghost rules: Rules) returns (end: Ending)
      requires Live() && rig.s.procs[p].pc == LegFind(side) && rig.s.saved.Some? && IsOf(rules, rig.s.bounds)
      modifies rig`s, rig`history
      ensures end == Continue || end == Stopped
      ensures if end == Continue then Live() else Left()
      ensures end == Continue ==> PastLeg(side, old(rig.s))
      ensures |rig.s.rows| <= |old(rig.s.rows)| + 1
      ensures rig.s.bounds == old(rig.s.bounds) && StaysExposed()
      ensures var books := rules.leg(old(BooksNow()), old(Upcoming(side)), turn);
              && (end == Continue <==> books.Some?)
              && (end == Continue ==> BooksNow() == books.value && |rig.s.rows| == |old(rig.s.rows)| + 1)
    {
      ghost var books := LegBooks(BooksNow(), Upcoming(side), turn);
      StartLeg(side);
      var alive := Submit(side, turn);
      if !alive {
        return Stopped;
      }
      end := CloseLeg(side, turn, |old(rig.s.sent)|);
    }

    /** A leg of this side is behind the process, which was at its beginning in `was`. */
    ghost predicate PastLeg(side: Side, was: State)
      reads rig
    {
      && p in was.procs && p in rig.s.procs && LegsMore(was, rig.s, 1)
      && PastSide(side, was.procs[p], rig.s.procs[p])
    }

    /** The intent is on disk before the order exists. */
    method StartLeg(side: Side)
      requires Live() && rig.s.procs[p].pc == LegFind(side) && rig.s.saved.Some?
      modifies rig`s, rig`history
      ensures Live() && StaysExposed() && rig.s.procs[p].pc == Routing(side, Evaluating)
      ensures SameLeg(old(rig.s.procs[p]), rig.s.procs[p]) && LegsMore(old(rig.s), rig.s, 1)
      ensures rig.s == old(rig.s).(saved := rig.s.saved, procs := rig.s.procs)
    {
      MemoryOf(rig.start, rig.history, p);
      FindsNothing(rig.start, rig.history, p);
      rig.Do(Act(p, FindLeg));
      NewLegMayStart(rig.start, rig.history, p);
      rig.Do(Act(p, RecordIntent));
    }

    /** The second half of `run_leg`: barrier, record, verify. */
    method CloseLeg(side: Side, turn: LegTurn, ghost k: nat) returns (end: Ending)
      requires Live() && (rig.s.procs[p].pc == NotFilled || AtBarrier(side, k)) && rig.s.saved.Some?
      modifies rig`s, rig`history
      ensures end == Continue || end == Stopped
      ensures if end == Continue then Live() else Left()
      ensures end == Continue ==> PastSide(side, old(rig.s.procs[p]), rig.s.procs[p])
      ensures |rig.s.rows| == |old(rig.s.rows)|
      ensures rig.s.bounds == old(rig.s.bounds) && StaysExposed()
      ensures end == Continue ==> LegsMore(old(rig.s), rig.s, 0)
      ensures end == Continue <==> old(AtBarrier(side, k) && Closes(BooksNow(), k, turn))
      ensures end == Continue ==> var w := AfterEvents(old(rig.Wired()), turn.settling);
                                  BooksNow() == Books(w, w.brokerPos)
    {
      EventsAreLater(rig.Wired(), turn.settling);
      var settled := Settle(turn, k);
      if !settled {
        return Stopped;
      }
      RecordDone();
      end := VerifyAfter(side, turn);
    }

    /** The barrier: it returns exactly for a leg whose request the broker has closed once the events are over, and
        whose fill makes the local position the broker's. */
    method Settle(turn: LegTurn, ghost k: nat) returns (settled: bool)
      requires Live()
      requires rig.s.procs[p].pc == NotFilled
               || (rig.s.procs[p].pc.LegBarrier? && AtBarrier(rig.s.procs[p].pc.side, k))
      modifies rig`s, rig`history
      ensures rig.Valid() && (if settled then Live() else Left()) && StaysExposed()
      ensures var was, w := old(rig.s), AfterEvents(old(rig.Wired()), turn.settling);
              && rig.s.saved == was.saved && rig.s.bounds == was.bounds && |rig.s.rows| == |was.rows|
              && (settled <==> was.procs[p].pc.LegBarrier? && w.sent[k].state.Closed?
                               && was.localPos + w.sent[k].Effect() == w.brokerPos)
              && (settled ==>
                    && SameLeg(was.procs[p], rig.s.procs[p])
                    && rig.s.procs[p].pc == LegSettled(was.procs[p].pc.side, was.procs[p].pc.row)
                    && was.procs[p].pc.row < |rig.s.rows|
                    && rig.s.rows[was.procs[p].pc.row].booked == w.sent[k].Filled()
                    && BooksNow() == Books(w, w.brokerPos))
    {
      EventsAreLater(rig.Wired(), turn.settling);
      rig.Meanwhile(turn.settling);
      settled := ActionEnabled(rig.s, rig.s.procs[p], Barrier);
      if settled {
        rig.Do(Act(p, Barrier));
      } else {
        var _ := Exit(Stopped);
      }
    }

    /** The leg is recorded as done. */
    method RecordDone()
      requires Live() && rig.s.procs[p].pc.LegSettled? && rig.s.saved.Some?
      modifies rig`s, rig`history
      ensures Live() && StaysExposed() && SameLeg(old(rig.s.procs[p]), rig.s.procs[p]) && rig.s.procs[p].mem.Some?
      ensures rig.s.procs[p].pc == old(LegVerify(rig.s.procs[p].pc.side, rig.s.procs[p].pc.row))
      ensures LegsMore(old(rig.s), rig.s, 0) && rig.s == old(rig.s).(saved := rig.s.saved, procs := rig.s.procs)
    {
      MemoryOf(rig.start, rig.history, p);
      LegIsRecorded(rig.start, rig.history, p);
      rig.Do(Act(p, RecordLeg));
    }

    /** `verify_after`: the run goes on exactly when the leg is filled in full, the positions agree, nothing is
        open and the other checks hold. */
    method VerifyAfter(side: Side, turn: LegTurn) returns (end: Ending)
      requires Live() && rig.s.procs[p].pc.LegVerify? && rig.s.procs[p].pc.side == side && rig.s.procs[p].mem.Some?
      requires rig.s.procs[p].pc.row < |rig.s.rows|
      modifies rig`s, rig`history
      ensures end == Continue || end == Stopped
      ensures if end == Continue then Live() else Left()
      ensures end == Continue ==> PastSide(side, old(rig.s.procs[p]), rig.s.procs[p])
      ensures rig.s == old(rig.s).(lock := rig.s.lock, procs := rig.s.procs) && StaysExposed()
      ensures end == Continue <==>
                turn.otherChecksHold
                && old(rig.s.rows[rig.s.procs[p].pc.row].booked == rig.s.procs[p].qty
                       && rig.s.localPos == rig.s.brokerPos && !Open(rig.s.sent))
    {
      if !(turn.otherChecksHold && ActionEnabled(rig.s, rig.s.procs[p], VerifyLeg)) {
        end := Exit(Stopped);
        return;
      }
      rig.Do(Act(p, VerifyLeg));
      end := Continue;
    }

    ghost function OutlookNow(): Outlook
      requires rig.s.saved.Some?
      reads rig
    {
      Outlook(BooksNow(), rig.s.saved.value.runId, |rig.s.rows|, rig.s.saved.value.NextIndex())
    }

    /** Both legs of a round trip: it goes on exactly when both go through. */
    method BothLegs(turn: Turn, qty: nat, ghost rules: Rules) returns (end: Ending)
      requires Live() && rig.s.procs[p].pc == LegFind(Buy) && rig.s.procs[p].qty == qty as real
      requires rig.s.saved.Some? && IsOf(rules, rig.s.bounds)
      modifies rig`s, rig`history
      ensures end == Continue || end == Stopped
      ensures if end == Continue then Live() else Left()
      ensures end == Continue ==> rig.s.procs[p].pc == Head && rig.s.procs[p].trips == old(rig.s.procs[p].trips) + 1
      ensures end == Continue ==> rig.s.saved.Some?
      ensures rig.s.bounds == old(rig.s.bounds) && StaysExposed()
      ensures |rig.s.rows| <= |old(rig.s.rows)| + 2
      ensures var trip := Trip(rules, old(OutlookNow()), qty, turn);
              (end == Continue <==> trip.Some?) && (end == Continue ==> OutlookNow() == trip.value)
    {
      AtNextIndex(rig.start, rig.history, p);
      end := RunLeg(Buy, turn.buy, rules);
      if end != Continue { return; }
      AtNextIndex(rig.start, rig.history, p);
      end := RunLeg(Sell, turn.sell, rules);
    }

    /** One round trip behind a snapshot that allows it: price, size, buy, and flatten at once.  Without a quote it
        is refused, a quote that sizes nothing ends it as unreachable, and otherwise it goes on exactly when both
        legs go through. */
    method RoundTrip(turn: Turn, ghost rules: Rules) returns (end: Ending)
      requires Live() && ActionEnabled(rig.s, rig.s.procs[p], GoOn) && rig.s.saved.Some? && IsOf(rules, rig.s.bounds)
      modifies rig`s, rig`history
      ensures if end == Continue then Live() else Left()
      ensures end == Continue ==> rig.s.procs[p].pc == Head && rig.s.procs[p].trips == old(rig.s.procs[p].trips) + 1
      ensures end == Continue ==> rig.s.saved.Some?
      ensures rig.s.bounds == old(rig.s.bounds) && StaysExposed()
      ensures end == Refused <==> turn.quote.None?
      ensures end == Unreachable <==> turn.quote.Some? && rules.sized(turn.quote.value) == 0
      ensures end == Continue || end == Stopped ==>
                var trip := Trip(rules, old(OutlookNow()), rules.sized(turn.quote.value), turn);
                (end == Continue <==> trip.Some?) && (end == Continue ==> OutlookNow() == trip.value)
      ensures end == Continue || end == Stopped || end == Refused || end == Unreachable
      ensures |rig.s.rows| <= |old(rig.s.rows)| + 2
      ensures end == Refused || end == Unreachable ==> rig.s.rows == old(rig.s.rows)
    {
      rig.Do(Act(p, GoOn));
      if turn.quote.None? {
        end := Exit(Refused);
        return;
      }
      var qty := Sized(rig.s.bounds, turn.quote.value);
      if qty <= 0 {
        end := Exit(Unreachable);
        return;
      }
      MemoryOf(rig.start, rig.history, p);
      rig.Do(Act(p, SizeBuy(turn.quote.value)));
      end := BothLegs(turn, qty, rules);
    }

    /** The body of the loop: snapshot, the three ways to stop, and otherwise a round trip. */
    method Lap(turn: Turn, roundTrips: nat, ghost rules: Rules) returns (end: Ending)
      requires Live() && rig.s.procs[p].pc == Head && rig.s.procs[p].trips == roundTrips
      requires roundTrips <= rig.s.bounds.maxRoundTrips && rig.s.saved.Some? && IsOf(rules, rig.s.bounds)
      modifies rig`s, rig`history
      ensures rig.s.bounds == old(rig.s.bounds) && StaysExposed()
      ensures if end == Continue then GoesOn(rules, turn, roundTrips) else EndsAs(rules, turn, roundTrips, end)
      ensures end == Continue || end == Stopped ==>
                var trip := Trip(rules, old(OutlookNow()), rules.sized(turn.quote.value), turn);
                && (end == Continue ==> rig.s.saved.Some? && trip == Some(OutlookNow()))
                && (end == Stopped ==> trip.None?)
      ensures end == Continue ==> |rig.s.rows| == |old(rig.s.rows)| + 2
      ensures end == Finished ==> Live() && rig.s.dayChange == turn.day && rig.s.procs[p].pc == Head
      ensures end == Continue ==> Live() && rig.s.procs[p].pc == Head && rig.s.procs[p].trips == roundTrips + 1
      ensures end != Finished && end != Continue ==> Left()
      ensures end != Continue && end != Stopped ==> rig.s.rows == old(rig.s.rows)
      ensures |rig.s.rows| <= |old(rig.s.rows)| + (if roundTrips < rig.s.bounds.maxRoundTrips then 2 else 0)
    {
      rig.Do(DayMoves(turn.day));
      if rig.s.dayChange < -(rig.s.bounds.target + rig.s.bounds.overshoot) {
        end := Exit(Overshot);
        return;
      }
      if rig.s.dayChange <= -rig.s.bounds.target {
        return Finished;
      }
      if roundTrips >= rig.s.bounds.maxRoundTrips || !turn.timeLeft {
        end := Exit(Unreachable);
        return;
      }
      end := RoundTrip(turn, rules);
    }

    /** `run`: ends for every sequence of turns, whatever the account, the quotes and the broker do.  A failed
        preflight is refused; otherwise the turns decide how many round trips are completed and how it ends.  A
        finished run is flat if nothing was in flight when it began; every other ending has left the lock; and no
        invocation commits more than two rows a round trip. */
    method Run(turns: nat -> Turn) returns (end: Ending, roundTrips: nat)
      requires Live() && rig.s.procs[p].pc == Loaded && rig.s.saved.Some?
      modifies rig`s, rig`history
      ensures end != Continue && (end == Finished ==> Live()) && (end != Finished ==> Left())
      ensures end == Finished && old(NoneInFlight(rig.s.sent)) ==> rig.s.brokerPos == 0.0 && AllDead(rig.s.sent)
      ensures end == Finished ==> rig.s.procs[p].pc == Finish && rig.s.procs[p].snap == turns(roundTrips).day
      ensures !old(PreflightPasses()) ==> end == Refused && roundTrips == 0 && rig.s.rows == old(rig.s.rows)
      ensures old(PreflightPasses()) ==> RunsTo(RulesOf(old(rig.s.bounds)), old(OutlookNow()), turns, roundTrips, end)
      ensures (old(PreflightPasses()) && old(-(rig.s.bounds.target + rig.s.bounds.overshoot)) <= turns(0).day
               && turns(0).day <= old(-rig.s.bounds.target)) ==> end == Finished && rig.s.rows == old(rig.s.rows)
      ensures roundTrips <= old(rig.s.bounds.maxRoundTrips)
      ensures end != Stopped ==> |rig.s.rows| == |old(rig.s.rows)| + 2 * roundTrips
      ensures end != Stopped && roundTrips == 0 ==> rig.s.rows == old(rig.s.rows)
      ensures |rig.s.rows| <= |old(rig.s.rows)| + 2 * rig.s.bounds.maxRoundTrips
      ensures rig.s.bounds == old(rig.s.bounds)
    {
      ghost var rules, start := RulesOf(rig.s.bounds), OutlookNow();
      var clear := CheckPreflight();
      if !clear {
        return Refused, 0;
      }
      end, roundTrips := Loop(turns, rules);
      FirstSnapshotDecides(rules, start, turns, roundTrips, end);
      if end == Finished { ReachEnd(); }
    }

    /** The loop of round trips. */
    method Loop(turns: nat -> Turn, ghost rules: Rules) returns (end: Ending, roundTrips: nat)
      requires Live() && rig.s.procs[p].pc == Head && rig.s.procs[p].trips == 0 && rig.s.saved.Some?
      requires IsOf(rules, rig.s.bounds)
      modifies rig`s, rig`history
      ensures end != Continue && (end != Finished ==> Left()) && StaysExposed()
      ensures end == Finished ==> Live() && rig.s.procs[p].pc == Head && rig.s.dayChange == turns(roundTrips).day
      ensures RunsTo(rules, old(OutlookNow()), turns, roundTrips, end)
      ensures roundTrips <= rig.s.bounds.maxRoundTrips && rig.s.bounds == old(rig.s.bounds)
      ensures end != Stopped ==> |rig.s.rows| == |old(rig.s.rows)| + 2 * roundTrips
      ensures end != Stopped && roundTrips == 0 ==> rig.s.rows == old(rig.s.rows)
      ensures |rig.s.rows| <= |old(rig.s.rows)| + 2 * rig.s.bounds.maxRoundTrips
    {
      roundTrips := 0;
      ghost var start, exposed := OutlookNow(), ExpoInv(rig.s);
      while true
        invariant Live() && rig.s.procs[p].pc == Head && rig.s.procs[p].trips == roundTrips && rig.s.saved.Some?
        invariant exposed ==> ExpoInv(rig.s)
        invariant rig.s.bounds == old(rig.s.bounds) && roundTrips <= rig.s.bounds.maxRoundTrips
        invariant roundTrips == 0 ==> rig.s.rows == old(rig.s.rows)
        invariant WentOn(rules, turns, roundTrips)
        invariant Trips(rules, start, turns, roundTrips) == Some(OutlookNow())
        decreases rig.s.bounds.maxRoundTrips - roundTrips
      {
        ghost var now := OutlookNow();
        end := Lap(turns(roundTrips), roundTrips, rules);
        OneMore(rules, start, turns, roundTrips, now);
        TripsAddRows(rules, start, turns, roundTrips);
        if end != Continue { return; }
        roundTrips := roundTrips + 1;
      }
    }

    /** The account is flat and quiet, or the run is refused. */
    method CheckPreflight() returns (clear: bool)
      requires Live() && rig.s.procs[p].pc == Loaded
      modifies rig`s, rig`history
      ensures clear <==> old(PreflightPasses())
      ensures rig.s == old(rig.s).(procs := rig.s.procs, lock := rig.s.lock)
      ensures clear ==> LegsMore(old(rig.s), rig.s, 0)
      ensures if clear then Live() && rig.s.procs[p].pc == Head && rig.s.procs[p].trips == 0 else Left()
      ensures clear ==> rig.s.dayChange == old(rig.s.dayChange) && (NoneInFlight(rig.s.sent) ==> ExpoInv(rig.s))
    {
      LoadedIsExposed(rig.start, rig.history, p);
      MemoryOf(rig.start, rig.history, p);
      clear := ActionEnabled(rig.s, rig.s.procs[p], Preflight);
      if clear {
        rig.Do(Act(p, Preflight));
      } else {
        var _ := Exit(Refused);
      }
    }

    /** The loop is left at the boundary. */
    method ReachEnd()
      requires Live() && rig.s.procs[p].pc == Head && ActionEnabled(rig.s, rig.s.procs[p], ReachBoundary)
      modifies rig`s, rig`history
      ensures Live() && rig.s.procs[p].pc == Finish && rig.s.procs[p].snap == rig.s.dayChange
      ensures rig.s == old(rig.s).(procs := rig.s.procs) && StaysExposed()
      ensures ExpoInv(rig.s) ==> rig.s.brokerPos == 0.0 && AllDead(rig.s.sent)
    {
      rig.Do(Act(p, ReachBoundary));
    }

    /** The preflight: nothing open at the broker, and the setup symbol flat there. */
    predicate PreflightPasses()
      reads rig
    {
      !Open(rig.s.sent) && rig.s.brokerPos == 0.0
    }
  }

  // ---- how a run ends, from its last snapshot ----------------------------------------------------------------

  /** The snapshot has neither overshot nor reached the boundary. */
  predicate Short(bounds: Bounds, day: real) {
    -(bounds.target + bounds.overshoot) <= day && -bounds.target < day
  }

  /** The snapshot is short of the boundary and a round trip can be tried. */
  predicate GoesOn(rules: Rules, turn: Turn, roundTrips: nat) {
    && Short(rules.bounds, turn.day) && roundTrips < rules.bounds.maxRoundTrips && turn.timeLeft
    && turn.quote.Some? && 0 < rules.sized(turn.quote.value)
  }

  /** What the last snapshot makes of the run: a loss beyond the band is an overshoot, one in the band finishes it;
      short of it, it is unreachable when trips, time or size run out, refused for want of a quote, and a leg that
      does not go through stops it. */
  predicate EndsAs(rules: Rules, turn: Turn, roundTrips: nat, end: Ending) {
    && (end == Overshot <==> turn.day < -(rules.bounds.target + rules.bounds.overshoot))
    && (end == Finished <==> -(rules.bounds.target + rules.bounds.overshoot) <= turn.day <= -rules.bounds.target)
    && (end == Unreachable <==>
          Short(rules.bounds, turn.day)
          && (roundTrips >= rules.bounds.maxRoundTrips || !turn.timeLeft
              || (turn.quote.Some? && rules.sized(turn.quote.value) == 0)))
    && (end == Refused <==>
          Short(rules.bounds, turn.day) && roundTrips < rules.bounds.maxRoundTrips && turn.timeLeft && turn.quote.None?)
    && (end == Stopped <==> GoesOn(rules, turn, roundTrips))
  }

  /** The first `n` turns all went on. */
  predicate WentOn(rules: Rules, turns: nat -> Turn, n: nat) {
    n == 0 || (WentOn(rules, turns, n - 1) && GoesOn(rules, turns(n - 1), n - 1))
  }

  /** The run that ends so behind `n` completed round trips: every earlier turn went on and its round trip went
      through, the last snapshot tells the ending, and a run is stopped only by a round trip that does not go
      through. */
  predicate RunsTo(rules: Rules, o: Outlook, turns: nat -> Turn, n: nat, end: Ending) {
    && WentOn(rules, turns, n) && Trips(rules, o, turns, n).Some?
    && EndsAs(rules, turns(n), n, end)
    && (end == Stopped ==> Trips(rules, o, turns, n + 1).None?)
  }

  /** The next turn carries a run one round trip further. */
  lemma OneMore(rules: Rules, o: Outlook, turns: nat -> Turn, n: nat, now: Outlook)
    requires WentOn(rules, turns, n) && Trips(rules, o, turns, n) == Some(now)
    ensures WentOn(rules, turns, n + 1) == GoesOn(rules, turns(n), n)
    ensures turns(n).quote.Some? ==>
              Trips(rules, o, turns, n + 1) == Trip(rules, now, rules.sized(turns(n).quote.value), turns(n))
  {}

  lemma {:induction false} TripsAddRows(rules: Rules, o: Outlook, turns: nat -> Turn, n: nat)
    requires Trips(rules, o, turns, n).Some?
    ensures Trips(rules, o, turns, n).value.row == o.row + 2 * n
  {
    if 0 < n { TripsAddRows(rules, o, turns, n - 1); }
  }

  lemma {:induction false} EachWentOn(rules: Rules, turns: nat -> Turn, n: nat, j: nat)
    requires WentOn(rules, turns, n) && j < n
    ensures GoesOn(rules, turns(j), j)
  {
    if j < n - 1 { EachWentOn(rules, turns, n - 1, j); }
  }

  lemma {:induction false} EarlierTrips(rules: Rules, o: Outlook, turns: nat -> Turn, n: nat, j: nat)
    requires j <= n && Trips(rules, o, turns, n).Some?
    ensures Trips(rules, o, turns, j).Some?
  {
    if j < n { EarlierTrips(rules, o, turns, n - 1, j); }
  }

  /** Only one number of round trips and one ending satisfy this: the turns alone decide the run. */
  lemma RunIsDetermined(rules: Rules, o: Outlook, turns: nat -> Turn, n: nat, end: Ending, m: nat, other: Ending)
    requires RunsTo(rules, o, turns, n, end) && end != Continue
    requires RunsTo(rules, o, turns, m, other) && other != Continue
    ensures n == m && end == other
  {
    if n < m {
      EachWentOn(rules, turns, m, n);
      EarlierTrips(rules, o, turns, m, n + 1);
    } else if m < n {
      EachWentOn(rules, turns, n, m);
      EarlierTrips(rules, o, turns, n, m + 1);
    }
  }

  /** A first snapshot in the band finishes the run at once, one below it is an overshoot at once, and nothing else
      ends it so without a round trip. */
  lemma FirstSnapshotDecides(rules: Rules, o: Outlook, turns: nat -> Turn, n: nat, end: Ending)
    requires RunsTo(rules, o, turns, n, end)
    ensures n == 0 && end == Finished <==>
              -(rules.bounds.target + rules.bounds.overshoot) <= turns(0).day <= -rules.bounds.target
    ensures n == 0 && end == Overshot <==> turns(0).day < -(rules.bounds.target + rules.bounds.overshoot)
  {
    if 0 < n { EachWentOn(rules, turns, n, 0); }
  }

  // ---- what a process may rely on, from the invariant of every run ------------------------------------------

  lemma MemoryOf(start: State, history: seq<Step>, p: nat)
    requires Init(start) && Runs(start, history) && p in After(start, history).procs
    ensures var proc := After(start, history).procs[p];
            proc.pc != Entered ==> proc.mem.Some? && proc.mem == After(start, history).saved
  {
    InitInv(start);
    RunKeepsInv(start, history);
    assert ProcOk(After(start, history), After(start, history).procs[p]);
  }

  lemma FindsNothing(start: State, history: seq<Step>, p: nat)
    requires Init(start) && Runs(start, history) && p in After(start, history).procs
    requires After(start, history).procs[p].pc.LegFind? && After(start, history).procs[p].mem.Some?
    ensures var s := After(start, history); LookUp(s, s.procs[p].mem.value, s.procs[p].index).None?
  {
    InitInv(start);
    RunKeepsInv(start, history);
    assert ProcOk(After(start, history), After(start, history).procs[p]);
    NextIndexIsUnused(After(start, history));
  }

  /** A new leg is not in the checkpoint, and its intent adds one. */
  lemma NewLegMayStart(start: State, history: seq<Step>, p: nat)
    requires Init(start) && Runs(start, history) && p in After(start, history).procs
    requires After(start, history).procs[p].pc.LegNew?
    ensures var s := After(start, history);
            ActionEnabled(s, s.procs[p], RecordIntent) && LegsMore(s, Apply(s, Act(p, RecordIntent)), 1)
  {
    InitInv(start);
    RunKeepsInv(start, history);
    var s := After(start, history);
    assert ProcOk(s, s.procs[p]);
    assert KeysOk(s.saved.value);
    KeepsSize(s.saved.value.legs, s.procs[p].index, LegRecord(s.procs[p].pc.side, s.procs[p].qty, false));
  }

  /** A settled leg is in the checkpoint already. */
  lemma LegIsRecorded(start: State, history: seq<Step>, p: nat)
    requires Init(start) && Runs(start, history) && p in After(start, history).procs
    requires After(start, history).procs[p].pc.LegSettled?
    ensures var s := After(start, history);
            ActionEnabled(s, s.procs[p], RecordLeg) && LegsMore(s, Apply(s, Act(p, RecordLeg)), 0)
  {
    InitInv(start);
    RunKeepsInv(start, history);
    var s := After(start, history);
    assert ProcOk(s, s.procs[p]);
    KeepsSize(s.saved.value.legs, s.procs[p].index, LegRecord(s.procs[p].pc.side, s.procs[p].qty, true));
  }

  /** The checkpoint's next index is the leg under way. */
  lemma AtNextIndex(start: State, history: seq<Step>, p: nat)
    requires Init(start) && Runs(start, history) && p in After(start, history).procs
    requires After(start, history).procs[p].pc.LegFind?
    ensures var s := After(start, history); s.saved.Some? && s.procs[p].index == s.saved.value.NextIndex()
  {
    InitInv(start);
    RunKeepsInv(start, history);
    assert ProcOk(After(start, history), After(start, history).procs[p]);
  }

  lemma KeepsSize(legs: map<nat, LegRecord>, index: nat, leg: LegRecord)
    ensures |legs[index := leg]| == |legs| + (if index in legs then 0 else 1)
  {
    assert legs[index := leg].Keys == legs.Keys + {index};
    assert |legs[index := leg].Keys| == |legs[index := leg]| && |legs.Keys| == |legs|;
  }

  /** Before its preflight an invocation has no position to answer for. */
  lemma LoadedIsExposed(start: State, history: seq<Step>, p: nat)
    requires Init(start) && Runs(start, history) && p in After(start, history).procs
    requires After(start, history).procs[p].pc == Loaded
    ensures ExpoInv(After(start, history))
  {
    InitInv(start);
    RunKeepsInv(start, history);
    assert forall q :: q in After(start, history).procs ==> q == p;
  }
}
