/** The order path both harnesses share: the router's durable rows, the requests it puts on the wire
    to the broker, and what the broker may do with them.

    The router commits the local row first and calls the broker second, outside the transaction, so a
    request can be on the wire when the process that sent it dies.  `Request` therefore lives apart
    from `Row`, and no process step can take a request back. */
module Orders {
  import opened Options

  datatype StepName = A1 | A2 | A3 | A4 | A5

  /** The deterministic client order ids: `adr0043-{run}-{step}` and `adr0043-churn-{run}-l{index}`. */
  datatype ClientId = CanaryStep(runId: nat, step: StepName) | ChurnLeg(runId: nat, index: nat)

  datatype Side = Buy | Sell

  datatype RowStatus = PendingRisk | PendingSubmit | Rejected | Submitted | Settled

  /** One row of the local `orders` table with the quantity its fills have booked; `pre` is the broker
      position of its symbol when the row was committed. */
  datatype Row = Row(cid: ClientId, side: Side, qty: real, pre: real,
                     status: RowStatus, brokerId: Option<nat>, booked: real)

  datatype WireState =
    | InFlight
    | Dropped
    | Working(filled: real)
    | Closed(filled: real)

  /** A request the router sent for the row with index `row`. */
  datatype Request = Request(row: nat, cid: ClientId, side: Side, qty: real, state: WireState) {
    predicate AtBroker() {
      state.Working? || state.Closed?
    }

    function Filled(): real {
      if AtBroker() then state.filled else 0.0
    }

    /** What the request has done to the broker position so far. */
    function Effect(): real {
      if side == Buy then Filled() else -Filled()
    }
  }

  /** What a lookup by client order id returns: the newest local row, else a broker order. */
  datatype Found = Local(row: nat) | Remote(request: nat)

  function NewestRow(rows: seq<Row>, cid: ClientId): (r: Option<nat>)
    ensures r.Some? ==> r.value < |rows| && rows[r.value].cid == cid
    ensures r.None? <==> forall i :: 0 <= i < |rows| ==> rows[i].cid != cid
  {
    if |rows| == 0 then None
    else if rows[|rows| - 1].cid == cid then Some(|rows| - 1)
    else NewestRow(rows[..|rows| - 1], cid)
  }

  function FirstAtBroker(sent: seq<Request>, cid: ClientId): (r: Option<nat>)
    ensures r.Some? ==> r.value < |sent| && sent[r.value].cid == cid && sent[r.value].AtBroker()
    ensures r.None? <==> forall k :: 0 <= k < |sent| && sent[k].cid == cid ==> !sent[k].AtBroker()
  {
    FirstAtBrokerFrom(sent, cid, 0)
  }

  function FirstAtBrokerFrom(sent: seq<Request>, cid: ClientId, from: nat): (r: Option<nat>)
    requires from <= |sent|
    ensures r.Some? ==> r.value < |sent| && sent[r.value].cid == cid && sent[r.value].AtBroker()
    ensures r.None? <==> forall k :: from <= k < |sent| && sent[k].cid == cid ==> !sent[k].AtBroker()
    decreases |sent| - from
  {
    if from == |sent| then None
    else if sent[from].cid == cid && sent[from].AtBroker() then Some(from)
    else FirstAtBrokerFrom(sent, cid, from + 1)
  }

  function Find(rows: seq<Row>, sent: seq<Request>, cid: ClientId): (r: Option<Found>)
    ensures r.None? ==> NoRow(rows, cid)
    ensures r.Some? && r.value.Local? ==> r.value.row < |rows| && rows[r.value.row].cid == cid
  {
    match NewestRow(rows, cid)
    case Some(i) => Some(Local(i))
    case None =>
      match FirstAtBroker(sent, cid)
      case Some(k) => Some(Remote(k))
      case None => None
  }

  /** `order_identity_matches` on what the lookup found. */
  predicate Identity(rows: seq<Row>, sent: seq<Request>, found: Found, side: Side, qty: real) {
    match found
    case Local(i) => i < |rows| && rows[i].side == side && rows[i].qty == qty
    case Remote(k) => k < |sent| && sent[k].side == side && sent[k].qty == qty
  }

  /** `settle_order` returns: the row carries a broker id, the broker is done with the order, and once
      the missing fill is booked the two positions agree. */
  predicate BarrierMayReturn(rows: seq<Row>, sent: seq<Request>, localPos: real, brokerPos: real, i: nat) {
    && i < |rows|
    && rows[i].brokerId.Some?
    && rows[i].brokerId.value < |sent|
    && sent[rows[i].brokerId.value].state.Closed?
    && BookedPosition(rows, sent, localPos, i) == brokerPos
  }

  function BookedPosition(rows: seq<Row>, sent: seq<Request>, localPos: real, i: nat): real
    requires i < |rows| && rows[i].brokerId.Some? && rows[i].brokerId.value < |sent|
  {
    var missing := sent[rows[i].brokerId.value].Filled() - rows[i].booked;
    localPos + (if rows[i].side == Buy then missing else -missing)
  }

  ghost predicate NoRow(rows: seq<Row>, cid: ClientId) {
    forall i :: 0 <= i < |rows| ==> rows[i].cid != cid
  }

  ghost predicate NoRequest(sent: seq<Request>, cid: ClientId) {
    forall k :: 0 <= k < |sent| ==> sent[k].cid != cid
  }

  ghost predicate OneRowPerId(rows: seq<Row>) {
    forall i, j :: 0 <= i < j < |rows| ==> rows[i].cid != rows[j].cid
  }

  ghost predicate OneRequestPerId(sent: seq<Request>) {
    forall i, j :: 0 <= i < j < |sent| ==> sent[i].cid != sent[j].cid
  }

  /** Every request was preceded by its committed row, which carries the same id, side and quantity. */
  ghost predicate RequestsHaveRows(rows: seq<Row>, sent: seq<Request>) {
    forall k :: 0 <= k < |sent| ==> sent[k].row < |rows| && Agree(rows[sent[k].row], sent[k])
  }

  ghost predicate Agree(row: Row, request: Request) {
    row.cid == request.cid && row.side == request.side && row.qty == request.qty
  }

  /** A row's broker id points at a request for that row that reached the broker. */
  ghost predicate BrokerIdsPoint(rows: seq<Row>, sent: seq<Request>) {
    forall i :: 0 <= i < |rows| && rows[i].brokerId.Some? ==>
      rows[i].brokerId.value < |sent|
      && Agree(rows[i], sent[rows[i].brokerId.value])
      && sent[rows[i].brokerId.value].AtBroker()
  }

  ghost predicate FillsInRange(sent: seq<Request>) {
    forall k :: 0 <= k < |sent| && sent[k].AtBroker() ==> 0.0 <= sent[k].Filled() <= sent[k].qty
  }

  /** The broker position moved by every fill so far. */
  function Net(sent: seq<Request>): real {
    if |sent| == 0 then 0.0 else Net(sent[..|sent| - 1]) + sent[|sent| - 1].Effect()
  }

  lemma {:induction false} NetUpdate(sent: seq<Request>, k: nat, r: Request)
    requires k < |sent|
    ensures Net(sent[k := r]) == Net(sent) - sent[k].Effect() + r.Effect()
  {
    var last := |sent| - 1;
    if k == last {
      assert sent[k := r][..last] == sent[..last];
    } else {
      NetUpdate(sent[..last], k, r);
      assert sent[k := r][..last] == sent[..last][k := r];
    }
  }

  lemma NetAppend(sent: seq<Request>, r: Request)
    ensures Net(sent + [r]) == Net(sent) + r.Effect()
  {
    assert (sent + [r])[..|sent|] == sent;
  }

  /** What the broker and the network may do at any moment, whoever is alive. */
  datatype BrokerEvent =
    | Accept(k: nat)
    | Drop(k: nat)
    | Fill(k: nat, amount: real)
    | Close(k: nat)

  predicate BrokerMay(sent: seq<Request>, e: BrokerEvent) {
    e.k < |sent| &&
    match e
    case Accept(k) => sent[k].state == InFlight && 0.0 <= sent[k].qty
    case Drop(k) => sent[k].state == InFlight
    case Fill(k, amount) => sent[k].state.Working? && 0.0 <= amount && sent[k].Filled() + amount <= sent[k].qty
    case Close(k) => sent[k].state.Working?
  }

  function BrokerState(r: Request, e: BrokerEvent): WireState {
    match e
    case Accept(_) => Working(0.0)
    case Drop(_) => Dropped
    case Fill(_, amount) => Working(r.Filled() + amount)
    case Close(_) => Closed(r.Filled())
  }

  function BrokerSent(sent: seq<Request>, e: BrokerEvent): seq<Request>
    requires BrokerMay(sent, e)
  {
    sent[e.k := sent[e.k].(state := BrokerState(sent[e.k], e))]
  }

  function BrokerPosition(sent: seq<Request>, e: BrokerEvent, position: real): real
    requires BrokerMay(sent, e)
  {
    if e.Fill? then position + (if sent[e.k].side == Buy then e.amount else -e.amount) else position
  }

  /** What is on the wire and at the broker, and the position there. */
  datatype Wire = Wire(sent: seq<Request>, brokerPos: real)

  /** After a script of events, of which those happen that are possible when their turn comes. */
  function AfterEvents(w: Wire, script: seq<BrokerEvent>): (v: Wire)
    ensures |v.sent| == |w.sent|
    decreases |script|
  {
    if script == [] then w
    else if BrokerMay(w.sent, script[0]) then
      AfterEvents(Wire(BrokerSent(w.sent, script[0]), BrokerPosition(w.sent, script[0], w.brokerPos)), script[1..])
    else AfterEvents(w, script[1..])
  }

  /** The same requests, perhaps further along. */
  ghost predicate SameRequests(before: seq<Request>, after: seq<Request>) {
    |after| == |before| &&
    forall k :: 0 <= k < |before| ==> Later(before[k], after[k])
  }

  /** Id, side and quantity stay; a request at the broker stays there; a closed one never changes. */
  ghost predicate Later(before: Request, after: Request) {
    && after.row == before.row
    && after.cid == before.cid && after.side == before.side && after.qty == before.qty
    && (before.AtBroker() ==> after.AtBroker())
    && (before.state.Closed? ==> after == before)
  }

  lemma LaterKeepsBook(rows: seq<Row>, sent: seq<Request>, after: seq<Request>)
    requires SameRequests(sent, after)
    ensures OneRequestPerId(sent) ==> OneRequestPerId(after)
    ensures RequestsHaveRows(rows, sent) ==> RequestsHaveRows(rows, after)
    ensures BrokerIdsPoint(rows, sent) ==> BrokerIdsPoint(rows, after)
  {
    assert forall k :: 0 <= k < |sent| ==> Later(sent[k], after[k]);
  }

  lemma AppendRowKeeps(rows: seq<Row>, sent: seq<Request>, row: Row)
    requires NoRow(rows, row.cid) && row.brokerId.None?
    ensures OneRowPerId(rows) ==> OneRowPerId(rows + [row])
    ensures RequestsHaveRows(rows, sent) ==> RequestsHaveRows(rows + [row], sent)
    ensures BrokerIdsPoint(rows, sent) ==> BrokerIdsPoint(rows + [row], sent)
  {}

  /** Editing a row's status, bookings or broker id. */
  lemma EditRowKeeps(rows: seq<Row>, sent: seq<Request>, i: nat, row: Row)
    requires i < |rows|
    requires row.cid == rows[i].cid && row.side == rows[i].side && row.qty == rows[i].qty
    requires row.brokerId.Some? ==>
               row.brokerId.value < |sent| && Agree(row, sent[row.brokerId.value]) && sent[row.brokerId.value].AtBroker()
    ensures OneRowPerId(rows) ==> OneRowPerId(rows[i := row])
    ensures RequestsHaveRows(rows, sent) ==> RequestsHaveRows(rows[i := row], sent)
    ensures BrokerIdsPoint(rows, sent) ==> BrokerIdsPoint(rows[i := row], sent)
  {}

  lemma AppendRequestKeeps(rows: seq<Row>, sent: seq<Request>, r: Request)
    requires NoRequest(sent, r.cid) && r.row < |rows| && Agree(rows[r.row], r) && !r.AtBroker()
    ensures OneRequestPerId(sent) ==> OneRequestPerId(sent + [r])
    ensures RequestsHaveRows(rows, sent) ==> RequestsHaveRows(rows, sent + [r])
    ensures BrokerIdsPoint(rows, sent) ==> BrokerIdsPoint(rows, sent + [r])
    ensures FillsInRange(sent) ==> FillsInRange(sent + [r])
    ensures Net(sent + [r]) == Net(sent)
  {
    NetAppend(sent, r);
  }

  /** A broker event moves one request forward, keeps every fill within its order, and moves the broker
      position by exactly what it filled. */
  lemma BrokerEventIsLater(sent: seq<Request>, e: BrokerEvent, position: real)
    requires BrokerMay(sent, e)
    ensures SameRequests(sent, BrokerSent(sent, e))
    ensures FillsInRange(sent) ==> FillsInRange(BrokerSent(sent, e))
    ensures BrokerPosition(sent, e, position) - position == Net(BrokerSent(sent, e)) - Net(sent)
  {
    NetUpdate(sent, e.k, sent[e.k].(state := BrokerState(sent[e.k], e)));
  }

  lemma {:induction false} EventsAreLater(w: Wire, script: seq<BrokerEvent>)
    ensures SameRequests(w.sent, AfterEvents(w, script).sent)
    decreases |script|
  {
    if script != [] {
      if BrokerMay(w.sent, script[0]) {
        BrokerEventIsLater(w.sent, script[0], w.brokerPos);
        var v := Wire(BrokerSent(w.sent, script[0]), BrokerPosition(w.sent, script[0], w.brokerPos));
        EventsAreLater(v, script[1..]);
        LaterInTurn(w.sent, v.sent, AfterEvents(v, script[1..]).sent);
      } else {
        EventsAreLater(w, script[1..]);
      }
    }
  }

  lemma LaterInTurn(a: seq<Request>, b: seq<Request>, c: seq<Request>)
    requires SameRequests(a, b) && SameRequests(b, c)
    ensures SameRequests(a, c)
  {
    assert forall k :: 0 <= k < |a| ==> Later(a[k], b[k]) && Later(b[k], c[k]);
  }

  // ---- the router -------------------------------------------------------------------------------------

  /** Where `OrderRouter.submit` stands: before the row is committed, after, after the risk engine passed
      the order, and after the request left for the broker. */
  datatype RouterPc =
    | Evaluating
    | Persisted(row: nat)
    | Pending(row: nat)
    | Calling(row: nat, request: nat)

  datatype RouterMove =
    | Ephemeral          // refused before a row could be committed
    | Persist
    | RiskRejects
    | RiskPasses
    | CallBroker
    | BrokerRefuses      // the broker's permanent error
    | Acknowledge

  datatype RouterEnd = Routed(at: RouterPc) | NotAdmitted | Reached(row: nat)

  predicate RouterMay(rows: seq<Row>, sent: seq<Request>, at: RouterPc, m: RouterMove) {
    match at
    case Evaluating => m.Ephemeral? || m.Persist?
    case Persisted(i) => i < |rows| && (m.RiskRejects? || m.RiskPasses?)
    case Pending(i) => i < |rows| && m.CallBroker?
    case Calling(i, k) =>
      i < |rows| && k < |sent| &&
      ((m.BrokerRefuses? && sent[k].state == InFlight) || (m.Acknowledge? && sent[k].AtBroker()))
  }

  function RouterRows(rows: seq<Row>, sent: seq<Request>, at: RouterPc, m: RouterMove, added: Row): seq<Row>
    requires RouterMay(rows, sent, at, m)
  {
    match m
    case Persist => rows + [added]
    case RiskRejects => rows[at.row := rows[at.row].(status := Rejected)]
    case RiskPasses => rows[at.row := rows[at.row].(status := PendingSubmit)]
    case BrokerRefuses => rows[at.row := rows[at.row].(status := Rejected)]
    case Acknowledge => rows[at.row := rows[at.row].(status := Submitted, brokerId := Some(at.request))]
    case Ephemeral => rows
    case CallBroker => rows
  }

  function RouterSent(rows: seq<Row>, sent: seq<Request>, at: RouterPc, m: RouterMove): seq<Request>
    requires RouterMay(rows, sent, at, m)
  {
    match m
    case CallBroker => sent + [Request(at.row, rows[at.row].cid, rows[at.row].side, rows[at.row].qty, InFlight)]
    case BrokerRefuses => sent[at.request := sent[at.request].(state := Dropped)]
    case _ => sent
  }

  function RouterNext(rows: seq<Row>, sent: seq<Request>, at: RouterPc, m: RouterMove): RouterEnd
    requires RouterMay(rows, sent, at, m)
  {
    match m
    case Ephemeral => NotAdmitted
    case Persist => Routed(Persisted(|rows|))
    case RiskRejects => NotAdmitted
    case RiskPasses => Routed(Pending(at.row))
    case CallBroker => Routed(Calling(at.row, |sent|))
    case BrokerRefuses => NotAdmitted
    case Acknowledge => Reached(at.row)
  }

  /** The ledger and the wire agree: one row and one request per id, no request without its row, no broker
      id that points astray, no fill beyond its order. */
  ghost predicate BookShape(rows: seq<Row>, sent: seq<Request>) {
    && OneRowPerId(rows)
    && OneRequestPerId(sent)
    && RequestsHaveRows(rows, sent)
    && BrokerIdsPoint(rows, sent)
    && FillsInRange(sent)
  }

  /** The router is working on `cid` and has done for it exactly what its position says. */
  ghost predicate RouterOn(rows: seq<Row>, sent: seq<Request>, cid: ClientId, at: RouterPc) {
    match at
    case Evaluating => NoRow(rows, cid)
    case Persisted(i) => OwnRow(rows, cid, i) && NoRequest(sent, cid)
    case Pending(i) => OwnRow(rows, cid, i) && NoRequest(sent, cid)
    case Calling(i, k) => OwnRow(rows, cid, i) && k < |sent| && sent[k].row == i && Agree(rows[i], sent[k])
  }

  ghost predicate OwnRow(rows: seq<Row>, cid: ClientId, i: nat) {
    i < |rows| && rows[i].cid == cid && rows[i].brokerId.None?
  }

  /** Other rows stay as they are; the row in hand keeps its id, side, quantity, position and bookings. */
  ghost predicate OthersStay(rows: seq<Row>, after: seq<Row>) {
    && |rows| <= |after| <= |rows| + 1
    && forall i :: 0 <= i < |rows| ==>
         after[i] == rows[i].(status := after[i].status, brokerId := after[i].brokerId)
         && (rows[i].brokerId.Some? ==> after[i] == rows[i])
  }

  lemma RouterKeepsShape(rows: seq<Row>, sent: seq<Request>, cid: ClientId, at: RouterPc, m: RouterMove, added: Row)
    requires BookShape(rows, sent) && RouterOn(rows, sent, cid, at) && RouterMay(rows, sent, at, m)
    requires added.cid == cid && added.brokerId.None?
    ensures BookShape(RouterRows(rows, sent, at, m, added), RouterSent(rows, sent, at, m))
  {
    match m
    case Persist => AppendRowKeeps(rows, sent, added);
    case CallBroker =>
      var r := Request(at.row, rows[at.row].cid, rows[at.row].side, rows[at.row].qty, InFlight);
      AppendRequestKeeps(rows, sent, r);
    case BrokerRefuses =>
      var after := RouterSent(rows, sent, at, m);
      LaterKeepsBook(rows, sent, after);
      EditRowKeeps(rows, after, at.row, rows[at.row].(status := Rejected));
    case Ephemeral =>
    case RiskRejects => EditRowKeeps(rows, sent, at.row, rows[at.row].(status := Rejected));
    case RiskPasses => EditRowKeeps(rows, sent, at.row, rows[at.row].(status := PendingSubmit));
    case Acknowledge =>
      EditRowKeeps(rows, sent, at.row, rows[at.row].(status := Submitted, brokerId := Some(at.request)));
  }

  lemma RouterKeepsPlace(rows: seq<Row>, sent: seq<Request>, cid: ClientId, at: RouterPc, m: RouterMove, added: Row)
    requires BookShape(rows, sent) && RouterOn(rows, sent, cid, at) && RouterMay(rows, sent, at, m)
    requires added.cid == cid && added.brokerId.None?
    ensures var rows' := RouterRows(rows, sent, at, m, added);
            var sent' := RouterSent(rows, sent, at, m);
            match RouterNext(rows, sent, at, m)
            case Routed(next) => RouterOn(rows', sent', cid, next)
            case NotAdmitted => true
            case Reached(i) =>
              i < |rows'| && rows'[i].cid == cid && rows'[i].brokerId.Some?
              && rows'[i].brokerId.value < |sent'| && sent'[rows'[i].brokerId.value].row == i
  {
    if m.Persist? {
      assert RequestsHaveRows(rows, sent);
      assert NoRequest(sent, cid);
    }
  }

  /** The router trades nothing itself and leaves every other row alone. */
  lemma RouterTouchesOneRow(rows: seq<Row>, sent: seq<Request>, cid: ClientId, at: RouterPc, m: RouterMove, added: Row)
    requires RouterOn(rows, sent, cid, at) && RouterMay(rows, sent, at, m)
    ensures OthersStay(rows, RouterRows(rows, sent, at, m, added))
    ensures Net(RouterSent(rows, sent, at, m)) == Net(sent)
    ensures |sent| <= |RouterSent(rows, sent, at, m)|
    ensures forall k :: 0 <= k < |sent| ==> Later(sent[k], RouterSent(rows, sent, at, m)[k])
  {
    match m
    case CallBroker =>
      NetAppend(sent, Request(at.row, rows[at.row].cid, rows[at.row].side, rows[at.row].qty, InFlight));
    case BrokerRefuses => NetUpdate(sent, at.request, sent[at.request].(state := Dropped));
    case _ =>
  }
}
