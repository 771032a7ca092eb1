/** The churn driver's promises over every run, and the one window in which its exposure bound fails. */
module ChurnTheorems {
  import opened Options
  import opened Orders
  import opened Churn
  import opened ChurnSafety
  import opened ChurnExposure
  import opened Shares
  import opened ShareLimits

  /** Over any crashes and restarts the checkpoint's leg keys are exactly 0 to k-1, no leg has two rows or two
      requests, and every request is a recorded leg's.  `run_leg`'s re-entry branch is never taken: the index
      it works on is always new, so an interrupted leg is left behind, not rebound. */
  lemma LegsNeverRepeat(s: State, steps: seq<Step>)
    requires Init(s) && Runs(s, steps)
    ensures var t := After(s, steps);
            && OneRowPerId(t.rows) && OneRequestPerId(t.sent)
            && (t.saved.Some? ==> forall i: nat :: i in t.saved.value.legs <==> i < |t.saved.value.legs|)
            && (forall k :: 0 <= k < |t.sent| ==> IsLeg(t, t.sent[k].cid))
            && (forall p :: p in t.procs ==> !t.procs[p].pc.LegRebound?)
  {
    InitInv(s);
    RunKeepsInv(s, steps);
    var t := After(s, steps);
    assert forall p :: p in t.procs ==> ProcOk(t, t.procs[p]);
  }

  /** A state some run from an empty disk reaches. */
  ghost predicate Reached(s: State, steps: seq<Step>) {
    Init(s) && Runs(s, steps)
  }

  lemma ReachedKeepsInv(s: State, steps: seq<Step>)
    requires Reached(s, steps)
    ensures Inv(After(s, steps))
  {
    InitInv(s);
    RunKeepsInv(s, steps);
  }

  // ---- exposure: exactly when nothing is on the wire at the preflight ----------------------------------------

  /** What the plan promises: the setup position lies between zero and the last buy's quantity, and is zero
      outside a leg. */
  ghost predicate Bounded(t: State, p: nat) {
    && p in t.procs
    && 0.0 <= t.brokerPos <= t.procs[p].qty
    && (OnLeg(t.procs[p].pc) || t.procs[p].pc.NotFilled? || t.brokerPos == 0.0)
  }

  /** After any history, an invocation that passes its preflight with nothing in flight stays bounded at every
      instruction, and what it holds is worth at most the plan's ceiling and half a share more. */
  lemma ExposureBound(s: State, steps: seq<Step>, p: nat, rest: seq<Step>)
    requires Reached(s, steps) && Invocation(After(s, steps), p, rest) && NoneInFlight(After(s, steps).sent)
    ensures var t := Now(After(s, steps), p, rest);
            && Bounded(t, p)
            && (t.brokerPos != 0.0 ==> NearCeiling(t.brokerPos, t.procs[p].price, t.bounds.maxSetupNotional))
  {
    ReachedKeepsInv(s, steps);
    InvocationIsExposed(After(s, steps), p, rest);
    ExposedIsBounded(Now(After(s, steps), p, rest), p);
  }

  lemma ExposedIsBounded(t: State, p: nat)
    requires LedgerOk(t) && p in t.procs && ProcOk(t, t.procs[p])
    requires PastPreflight(t.procs[p].pc) && Exposed(t, t.procs[p])
    ensures Bounded(t, p)
    ensures t.brokerPos != 0.0 ==> NearCeiling(t.brokerPos, t.procs[p].price, t.bounds.maxSetupNotional)
  {
    PositionInRange(t, t.procs[p]);
    if t.brokerPos != 0.0 {
      NonZeroIsAffordable(t, t.procs[p]);
      MulKeepsOrder(t.brokerPos, t.procs[p].qty, t.procs[p].price);
    }
  }

  lemma PositionInRange(t: State, proc: Process)
    requires FillsInRange(t.sent) && Exposed(t, proc) && PastPreflight(proc.pc) && 0.0 <= proc.qty
    ensures 0.0 <= t.brokerPos <= proc.qty
    ensures OnLeg(proc.pc) || proc.pc.NotFilled? || t.brokerPos == 0.0
  {
    match proc.pc
    case Routing(side, at) => if at.Calling? { LiveInRange(t, proc, side, at.row, at.request); }
    case LegBarrier(side, i) => LiveInRange(t, proc, side, i, t.rows[i].brokerId.value);
    case LegSettled(side, i) => LiveInRange(t, proc, side, i, t.rows[i].brokerId.value);
    case LegVerify(side, i) => LiveInRange(t, proc, side, i, t.rows[i].brokerId.value);
    case _ =>
  }

  lemma LiveInRange(t: State, proc: Process, side: Side, i: nat, k: nat)
    requires FillsInRange(t.sent) && LiveRequest(t, proc, side, i, k)
    ensures 0.0 <= t.brokerPos <= proc.qty
  {}

  lemma NonZeroIsAffordable(t: State, proc: Process)
    requires Exposed(t, proc) && PastPreflight(proc.pc) && t.brokerPos != 0.0
    ensures Affordable(t, proc)
  {}

  /** When a buy's row is about to be committed the position is zero and the last snapshot's loss was under the
      target; when a sell's is, the position is exactly what the last buy bought.  Every earlier leg of the
      invocation is settled and filled in full, buys and sells alternating, and no request is alive. */
  lemma SubmissionPoint(s: State, steps: seq<Step>, p: nat, rest: seq<Step>, side: Side)
    requires Reached(s, steps) && Invocation(After(s, steps), p, rest) && NoneInFlight(After(s, steps).sent)
    requires var t := Now(After(s, steps), p, rest); p in t.procs && t.procs[p].pc == Routing(side, Evaluating)
    ensures var t := Now(After(s, steps), p, rest);
            var proc := t.procs[p];
            && proc.base <= |t.rows|
            && t.brokerPos == (if side == Buy then 0.0 else proc.qty)
            && (side == Sell ==> 0 < |t.rows| && t.rows[|t.rows| - 1].side == Buy
                                 && t.rows[|t.rows| - 1].booked == t.brokerPos)
            && (side == Buy ==> -t.bounds.target < proc.snap)
            && LegsDone(t.rows, proc.base, |t.rows| - proc.base)
            && AllDead(t.sent)
            && |t.rows| - proc.base < 2 * t.bounds.maxRoundTrips
  {
    ReachedKeepsInv(s, steps);
    InvocationIsExposed(After(s, steps), p, rest);
    var t := Now(After(s, steps), p, rest);
    var proc := t.procs[p];
    if side == Sell {
      assert RowDone(t.rows, proc.base, 2 * proc.trips);
    }
  }

  /** An invocation that reaches the end is flat, has nothing in flight, used at most its round trips, and its
      last snapshot lay in the terminal band. */
  lemma FinishInBand(s: State, steps: seq<Step>, p: nat, rest: seq<Step>)
    requires Reached(s, steps) && Invocation(After(s, steps), p, rest) && NoneInFlight(After(s, steps).sent)
    requires var t := Now(After(s, steps), p, rest); p in t.procs && t.procs[p].pc == Finish
    ensures var t := Now(After(s, steps), p, rest);
            var proc := t.procs[p];
            && t.brokerPos == 0.0 && AllDead(t.sent)
            && -(t.bounds.target + t.bounds.overshoot) <= proc.snap <= -t.bounds.target
            && |t.rows| - proc.base <= 2 * t.bounds.maxRoundTrips
  {
    ReachedKeepsInv(s, steps);
    InvocationIsExposed(After(s, steps), p, rest);
  }

  // ---- the other direction: a stray request -------------------------------------------------------------------

  lemma Cons(s: State, step: Step, rest: seq<Step>)
    requires Enabled(s, step) && Runs(Apply(s, step), rest)
    ensures Runs(s, [step] + rest) && After(s, [step] + rest) == After(Apply(s, step), rest)
  {
    assert ([step] + rest)[1..] == rest;
  }

  lemma {:induction false} Concat(s: State, first: seq<Step>, second: seq<Step>)
    requires Runs(s, first) && Runs(After(s, first), second)
    ensures Runs(s, first + second) && After(s, first + second) == After(After(s, first), second)
    decreases |first|
  {
    if |first| == 0 {
      assert first + second == second;
    } else {
      Concat(Apply(s, first[0]), first[1..], second);
      assert first + second == [first[0]] + (first[1..] + second);
      Cons(s, first[0], first[1..] + second);
    }
  }

  /** From the sizing to a buy on the wire. */
  function BuySteps(p: nat, quote: Quote): seq<Step> {
    [Act(p, SizeBuy(quote))] + ([Act(p, FindLeg)] + ([Act(p, RecordIntent)] +
    ([Act(p, Route(Persist))] + ([Act(p, Route(RiskPasses))] + ([Act(p, Route(CallBroker))] + [])))))
  }

  lemma ReachesWire(s: State, p: nat, mem: Saved, quote: Quote)
    requires p in s.procs && s.procs[p].pc == Sizing && s.procs[p].mem == Some(mem) && s.saved == Some(mem)
    requires 0 < Sized(s.bounds, quote) && LookUp(s, mem, |mem.legs|).None? && |mem.legs| !in mem.legs
    ensures Runs(s, BuySteps(p, quote))
    ensures var t := After(s, BuySteps(p, quote));
            && t.lock == s.lock && t.procs.Keys == s.procs.Keys && t.brokerPos == s.brokerPos && t.bounds == s.bounds
            && t.dayChange == s.dayChange
            && t.procs[p].pc == Routing(Buy, Calling(|s.rows|, |s.sent|))
            && t.procs[p].qty == Sized(s.bounds, quote) as real
            && t.sent == s.sent + [Request(|s.rows|, mem.ClientIdOf(|mem.legs|), Buy, t.procs[p].qty, InFlight)]
  {
    var proc := s.procs[p];
    var index := |mem.legs|;
    var qty := Sized(s.bounds, quote) as real;
    var proc1 := proc.(pc := LegFind(Buy), index := index, qty := qty, price := quote.price);
    var s1 := Put(s, p, proc1);
    var s2 := Put(s, p, proc1.(pc := LegNew(Buy)));
    var mem3 := mem.(legs := mem.legs[index := LegRecord(Buy, qty, false)]);
    var proc3 := proc1.(pc := Routing(Buy, Evaluating), mem := Some(mem3));
    var s3 := Put(s, p, proc3).(saved := Some(mem3));
    assert Apply(s, Act(p, SizeBuy(quote))) == s1;
    assert Apply(s1, Act(p, FindLeg)) == s2;
    assert Apply(s2, Act(p, RecordIntent)) == s3;
    RoutesToWire(s3, p, mem3);
    var tail := [Act(p, Route(Persist))] + ([Act(p, Route(RiskPasses))] + ([Act(p, Route(CallBroker))] + []));
    Cons(s2, Act(p, RecordIntent), tail);
    Cons(s1, Act(p, FindLeg), [Act(p, RecordIntent)] + tail);
    Cons(s, Act(p, SizeBuy(quote)), [Act(p, FindLeg)] + ([Act(p, RecordIntent)] + tail));
  }

  lemma RoutesToWire(s: State, p: nat, mem: Saved)
    requires p in s.procs && s.procs[p].pc == Routing(Buy, Evaluating) && s.procs[p].mem == Some(mem)
    ensures var steps := [Act(p, Route(Persist))] + ([Act(p, Route(RiskPasses))] + ([Act(p, Route(CallBroker))] + []));
            var proc := s.procs[p];
            && Runs(s, steps)
            && var t := After(s, steps);
               && t == s.(procs := t.procs, rows := t.rows, sent := t.sent)
               && t.procs == s.procs[p := proc.(pc := Routing(Buy, Calling(|s.rows|, |s.sent|)))]
               && t.sent == s.sent + [Request(|s.rows|, mem.ClientIdOf(proc.index), Buy, proc.qty, InFlight)]
  {
    var proc := s.procs[p];
    var row := Row(mem.ClientIdOf(proc.index), Buy, proc.qty, s.brokerPos, PendingRisk, None, 0.0);
    var i := |s.rows|;
    var rows := s.rows + [row];
    var s1 := Put(s, p, proc.(pc := Routing(Buy, Persisted(i)))).(rows := rows);
    var rows2 := rows[i := row.(status := PendingSubmit)];
    var s2 := Put(s, p, proc.(pc := Routing(Buy, Pending(i)))).(rows := rows2);
    assert Apply(s, Act(p, Route(Persist))) == s1;
    PassesRisk(s1, p, i);
    CallsBroker(s2, p, i);
    Cons(s2, Act(p, Route(CallBroker)), []);
    Cons(s1, Act(p, Route(RiskPasses)), [Act(p, Route(CallBroker))] + []);
    Cons(s, Act(p, Route(Persist)), [Act(p, Route(RiskPasses))] + ([Act(p, Route(CallBroker))] + []));
    assert s2.procs[p := proc.(pc := Routing(Buy, Calling(i, |s.sent|)))]
        == s.procs[p := proc.(pc := Routing(Buy, Calling(i, |s.sent|)))];
  }

  lemma PassesRisk(s: State, p: nat, i: nat)
    requires p in s.procs && s.procs[p].pc == Routing(Buy, Persisted(i)) && i < |s.rows| && s.procs[p].mem.Some?
    ensures Enabled(s, Act(p, Route(RiskPasses)))
    ensures Apply(s, Act(p, Route(RiskPasses)))
            == Put(s, p, s.procs[p].(pc := Routing(Buy, Pending(i)))).(rows := s.rows[i := s.rows[i].(status := PendingSubmit)])
  {}

  lemma CallsBroker(s: State, p: nat, i: nat)
    requires p in s.procs && s.procs[p].pc == Routing(Buy, Pending(i)) && i < |s.rows| && s.procs[p].mem.Some?
    ensures Enabled(s, Act(p, Route(CallBroker)))
    ensures var r := Request(i, s.rows[i].cid, s.rows[i].side, s.rows[i].qty, InFlight);
            Apply(s, Act(p, Route(CallBroker)))
            == Put(s, p, s.procs[p].(pc := Routing(Buy, Calling(i, |s.sent|)))).(sent := s.sent + [r])
  {}

  /** Request `k` is taken and filled. */
  function FillSteps(k: nat, qty: real): seq<Step> {
    [Broker(Accept(k))] + ([Broker(Fill(k, qty))] + [])
  }

  lemma FillsInFull(s: State, k: nat)
    requires k < |s.sent| && s.sent[k].state.InFlight? && 0.0 < s.sent[k].qty
    ensures var steps := FillSteps(k, s.sent[k].qty);
            && Runs(s, steps)
            && var t := After(s, steps);
               && t.procs == s.procs && |t.sent| == |s.sent|
               && (forall j :: 0 <= j < |s.sent| && j != k ==> t.sent[j] == s.sent[j])
               && t.brokerPos == s.brokerPos + (if s.sent[k].side == Buy then s.sent[k].qty else -s.sent[k].qty)
  {
    var s1 := Apply(s, Broker(Accept(k)));
    Cons(s1, Broker(Fill(k, s.sent[k].qty)), []);
    Cons(s, Broker(Accept(k)), [Broker(Fill(k, s.sent[k].qty))] + []);
  }

  /** From the top of the loop to a buy of the sized quantity on the wire, at an unchanged position. */
  lemma BuysFromHead(s: State, p: nat, quote: Quote) returns (steps: seq<Step>)
    requires Inv(s) && p in s.procs && s.procs[p].pc == Head && s.procs[p].trips == 0
    requires -s.bounds.target < s.dayChange && 0 < s.bounds.maxRoundTrips && 0 < Sized(s.bounds, quote)
    ensures Runs(s, steps) && OneLife(p, steps)
    ensures var t := After(s, steps);
            && p in t.procs && t.procs[p].pc.Routing? && t.procs[p].qty == Sized(s.bounds, quote) as real
            && t.brokerPos == s.brokerPos
            && |t.sent| == |s.sent| + 1 && t.sent[..|s.sent|] == s.sent
            && t.sent[|s.sent|].state == InFlight && t.sent[|s.sent|].side == Buy
            && t.sent[|s.sent|].qty == t.procs[p].qty
  {
    var u := Apply(s, Act(p, GoOn));
    StepKeepsInv(s, Act(p, GoOn));
    assert ProcOk(s, s.procs[p]);
    var mem := s.saved.value;
    NextIndexIsUnused(u);
    assert KeysOk(mem);
    ReachesWire(u, p, mem, quote);
    steps := [Act(p, GoOn)] + BuySteps(p, quote);
    Cons(s, Act(p, GoOn), BuySteps(p, quote));
    BuyingIsLiving(p, quote);
  }

  lemma BuyingIsLiving(p: nat, quote: Quote)
    ensures OneLife(p, [Act(p, GoOn)] + BuySteps(p, quote))
  {
    assert forall step :: step in [Act(p, GoOn)] + BuySteps(p, quote) ==> step.Act?;
  }

  /** The first buy is on the wire, as large as it was sized, and the position is out of bounds. */
  ghost predicate Overexposed(t: State, p: nat, qty: real) {
    && p in t.procs && OnLeg(t.procs[p].pc) && t.procs[p].qty == qty
    && !(0.0 <= t.brokerPos <= qty)
  }

  /** A stray buy fills beside the invocation's own, and a stray sell leaves it short, whatever the first order
      was sized from and wherever the stray stands on the wire. */
  lemma StrayFills(s: State, p: nat, own: nat, k: nat, qty: real) returns (steps: seq<Step>)
    requires p in s.procs && OnLeg(s.procs[p].pc) && s.procs[p].qty == qty && s.brokerPos == 0.0
    requires k < own < |s.sent| && s.sent[k].state.InFlight? && 0.0 < s.sent[k].qty && 0.0 < qty
    requires s.sent[own].state.InFlight? && s.sent[own].side == Buy && s.sent[own].qty == qty
    ensures Runs(s, steps) && OneLife(p, steps) && Overexposed(After(s, steps), p, qty)
  {
    steps := FillSteps(k, s.sent[k].qty);
    FillsInFull(s, k);
    if s.sent[k].side == Buy {
      var t := After(s, steps);
      FillsInFull(t, own);
      Concat(s, steps, FillSteps(own, qty));
      steps := steps + FillSteps(own, qty);
    }
  }

  lemma StrayOverexposes(s: State, p: nat, quote: Quote) returns (rest: seq<Step>)
    requires Inv(s) && Enabled(s, Act(p, Preflight)) && !NoneInFlight(s.sent)
    requires -s.bounds.target < s.dayChange && 0 < s.bounds.maxRoundTrips && 0 < Sized(s.bounds, quote)
    ensures Invocation(s, p, rest) && Overexposed(Now(s, p, rest), p, Sized(s.bounds, quote) as real)
  {
    var k :| 0 <= k < |s.sent| && s.sent[k].state.InFlight?;
    assert s.sent[k].row < |s.rows| && Agree(s.rows[s.sent[k].row], s.sent[k]);
    var u := Apply(s, Act(p, Preflight));
    StepKeepsInv(s, Act(p, Preflight));
    var first := BuysFromHead(u, p, quote);
    var t := After(u, first);
    assert t.sent[k] == t.sent[..|s.sent|][k];
    var second := StrayFills(t, p, |s.sent|, k, t.procs[p].qty);
    Concat(u, first, second);
    rest := first + second;
    assert forall j :: 0 <= j < |rest| ==> rest[j] == if j < |first| then first[j] else second[j - |first|];
  }

  /** The preflight checks flat books and open orders, and not what is still on its way.  In every reachable state
      where it passes with the loss under the target, a round trip left and a quote that sizes a buy: the
      invocation stays bounded in every continuation exactly when no request is in flight. */
  lemma BoundedIffNoneInFlight(s: State, steps: seq<Step>, p: nat, quote: Quote)
    requires Reached(s, steps) && Enabled(After(s, steps), Act(p, Preflight))
    requires var u := After(s, steps);
             -u.bounds.target < u.dayChange && 0 < u.bounds.maxRoundTrips && 0 < Sized(u.bounds, quote)
    ensures var u := After(s, steps);
            NoneInFlight(u.sent) <==> forall rest :: Invocation(u, p, rest) ==> Bounded(Now(u, p, rest), p)
  {
    var u := After(s, steps);
    if NoneInFlight(u.sent) {
      forall rest | Invocation(u, p, rest) ensures Bounded(Now(u, p, rest), p) {
        ExposureBound(s, steps, p, rest);
      }
    } else {
      ReachedKeepsInv(s, steps);
      var rest := StrayOverexposes(u, p, quote);
      assert Invocation(u, p, rest) && !Bounded(Now(u, p, rest), p);
    }
  }

  // ---- the stray is reachable -----------------------------------------------------------------------------------

  function FirstSaved(): Saved {
    Saved(7, map[])
  }

  /** From an empty disk to the top of the loop. */
  lemma ReachesHead(s: State, p: nat)
    requires Init(s) && s.brokerPos == 0.0
    ensures var steps := [Enter(p)] + ([Act(p, Load(7))] + ([Act(p, Preflight)] + []));
            && Runs(s, steps)
            && var t := After(s, steps);
               && p in t.procs && t.procs[p].pc == Head && t.procs[p].trips == 0
               && t.brokerPos == 0.0 && t.bounds == s.bounds && t.dayChange == s.dayChange && t.sent == []
  {
    var mem := FirstSaved();
    var s1 := s.(procs := map[p := Process(Entered, None, 0, 0.0, 0.0, 0, 0, 0.0)], lock := Some(p));
    var s2 := s1.(procs := map[p := Process(Loaded, Some(mem), 0, 0.0, 0.0, 0, 0, 0.0)], saved := Some(mem));
    assert Apply(s, Enter(p)) == s1;
    assert Apply(s1, Act(p, Load(7))) == s2;
    Cons(s2, Act(p, Preflight), []);
    Cons(s1, Act(p, Load(7)), [Act(p, Preflight)] + []);
    Cons(s, Enter(p), [Act(p, Load(7))] + ([Act(p, Preflight)] + []));
  }

  /** From an empty disk to a buy on the wire. */
  lemma ReachesFirstBuy(s: State, quote: Quote) returns (steps: seq<Step>)
    requires Init(s) && s.brokerPos == 0.0
    requires -s.bounds.target < s.dayChange && 0 < s.bounds.maxRoundTrips && 0 < Sized(s.bounds, quote)
    ensures Reached(s, steps)
    ensures var t := After(s, steps);
            1 in t.procs && t.brokerPos == 0.0 && |t.sent| == 1 && t.sent[0].state == InFlight
  {
    var open := [Enter(1)] + ([Act(1, Load(7))] + ([Act(1, Preflight)] + []));
    ReachesHead(s, 1);
    InitInv(s);
    RunKeepsInv(s, open);
    var buy := BuysFromHead(After(s, open), 1, quote);
    Concat(s, open, buy);
    steps := open + buy;
  }

  /** The window is real: a run from an empty disk reaches a second invocation at a preflight that passes while
      the buy of the first, which died, is still in flight. */
  lemma StrayIsReachable(s: State, quote: Quote)
    requires Init(s) && s.brokerPos == 0.0
    requires -s.bounds.target < s.dayChange && 0 < s.bounds.maxRoundTrips && 0 < Sized(s.bounds, quote)
    ensures exists steps :: Reached(s, steps) && Enabled(After(s, steps), Act(2, Preflight))
                            && !NoneInFlight(After(s, steps).sent)
  {
    var first := ReachesFirstBuy(s, quote);
    var t := After(s, first);
    ReachedKeepsInv(s, first);
    var again := [Crash(1)] + ([OperatorClears] + ([Enter(2)] + ([Act(2, Load(7))] + [])));
    RestartPassesPreflight(t);
    Concat(s, first, again);
    assert Reached(s, first + again);
  }

  lemma RestartPassesPreflight(t: State)
    requires Inv(t) && 1 in t.procs && t.brokerPos == 0.0 && NoneOpen(t.sent)
    ensures var again := [Crash(1)] + ([OperatorClears] + ([Enter(2)] + ([Act(2, Load(7))] + [])));
            Runs(t, again) && Enabled(After(t, again), Act(2, Preflight)) && After(t, again).sent == t.sent
  {
    assert forall q :: q in t.procs ==> q == 1;
    var t1 := Apply(t, Crash(1));
    assert t1.procs == map[];
    var t2 := Apply(t1, OperatorClears);
    var t3 := Apply(t2, Enter(2));
    Cons(t3, Act(2, Load(7)), []);
    Cons(t2, Enter(2), [Act(2, Load(7))] + []);
    Cons(t1, OperatorClears, [Enter(2)] + ([Act(2, Load(7))] + []));
    Cons(t, Crash(1), [OperatorClears] + ([Enter(2)] + ([Act(2, Load(7))] + [])));
  }

  // ---- what a buy is sized to ---------------------------------------------------------------------------------------

  /** Every buy is the whole number of shares nearest to what the account affords within the setup's ceiling, with
      no gross exposure in use. */
  lemma SizedIsNearest(bounds: Bounds, quote: Quote)
    requires 0.0 < quote.price
    ensures NearestTo(Sized(bounds, quote),
                      x => Affords(x, quote.price, quote.limits, 0.0, quote.buyingPower, bounds.maxSetupNotional))
  {
    OrderIsNearest(quote.price, quote.limits, 0.0, quote.buyingPower, bounds.maxSetupNotional);
  }
}
