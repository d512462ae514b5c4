// internal/order/projection.go: persisted channel events are projected onto
// order rows, with a ledger of everything that was applied. One call of Apply
// is one transaction; a failed call writes nothing.
module OrderProjection {
  import opened Wrappers
  import opened Text

  datatype Status =
    Created | Paid | Confirmed | CommissionConfirmed | SettlementPending | Settled | Cancelled | Invalid | Refunded

  // statusRank; statuses missing from the map rank 0.
  function Rank(s: Status): nat
  {
    match s
    case Created => 1
    case Paid => 2
    case Confirmed => 3
    case CommissionConfirmed => 4
    case SettlementPending => 5
    case Settled => 6
    case _ => 0
  }

  predicate Terminal(s: Status)
  {
    s == Cancelled || s == Invalid || s == Refunded
  }

  predicate Transition(current: Status, next: Status)
  {
    if current == next || Terminal(current) then false
    else if next == Invalid then true
    else if next == Cancelled then current == Created || current == Paid
    else if next == Refunded then false
    else Rank(next) > Rank(current) > 0
  }

  // The statuses a channel event may be mapped to.
  function ParseStatus(name: string): Option<Status>
  {
    if name == "CREATED" then Some(Created)
    else if name == "PAID" then Some(Paid)
    else if name == "CONFIRMED" then Some(Confirmed)
    else if name == "COMMISSION_CONFIRMED" then Some(CommissionConfirmed)
    else if name == "SETTLEMENT_PENDING" then Some(SettlementPending)
    else if name == "SETTLED" then Some(Settled)
    else if name == "CANCELLED" then Some(Cancelled)
    else if name == "INVALID" then Some(Invalid)
    else None
  }

  datatype Input = Input(evidenceId: string, status: string, refundId: string, refundKind: string, refundAmountMinor: int)

  // SHA-256 over the NUL-joined fields, taken as injective.
  datatype Fingerprint = Fingerprint(status: string, refundId: string, refundKind: string, refundAmountMinor: int)

  function FingerprintOf(d: Input): Fingerprint
  {
    Fingerprint(d.status, d.refundId, d.refundKind, d.refundAmountMinor)
  }

  datatype EventType = OrderEvent | RefundEvent

  type Key = (string, string)

  // A row of order_raw_events; `key` is channel and external order ID.
  datatype RawEvent = RawEvent(key: Key, eventType: EventType, occurredAt: int)

  datatype Order = Order(status: Status, statusAt: int, orderOccurredAt: int, latestEvidenceId: string)

  datatype Refund = Refund(evidenceId: string, externalOrderId: string, amountMinor: int, kind: string, occurredAt: int)

  datatype Disposition = Applied | Duplicate | Stale | InvalidTransition

  // mapped_status: the status seen, or which kind of refund.
  datatype Mapped = Seen(status: Status) | RefundSeen(full: bool)

  datatype LedgerRow = LedgerRow(evidenceId: string, key: Key, mapped: Mapped, fingerprint: Fingerprint,
    previous: Option<Status>, resulting: Status, disposition: Disposition)

  datatype Projected = Projected(key: Key, previous: Option<Status>, status: Status, disposition: Disposition)

  datatype Error = BadInput | NotFound | Conflict | MissingOrder | BadTransition

  type Outcome = Result<Projected, Error>

  // `refunds` is keyed by channel and refund ID; `ledger` is in insertion order.
  datatype Db = Db(raw: map<string, RawEvent>, orders: map<Key, Order>, refunds: map<(string, string), Refund>,
    ledger: seq<LedgerRow>)

  function Receipt(ledger: seq<LedgerRow>, evidenceId: string): Option<LedgerRow>
  {
    if ledger == [] then None
    else if ledger[|ledger| - 1].evidenceId == evidenceId then Some(ledger[|ledger| - 1])
    else Receipt(ledger[..|ledger| - 1], evidenceId)
  }

  function ResultOf(row: LedgerRow): Projected
  {
    Projected(row.key, row.previous, row.resulting, row.disposition)
  }

  predicate ValidInput(d: Input)
  {
    ValidLine(d.evidenceId, 128)
    && if d.status != "" then
         ParseStatus(d.status).Some? && d.refundId == "" && d.refundKind == "" && d.refundAmountMinor == 0
       else
         ValidLine(d.refundId, 128) && (d.refundKind == "PARTIAL" || d.refundKind == "FULL") && d.refundAmountMinor > 0
  }

  predicate FitsEvidence(d: Input, e: RawEvent)
  {
    if d.status != "" then e.eventType == OrderEvent else e.eventType == RefundEvent
  }

  // The order row after an ORDER event, and what the ledger says about it.
  function Observe(before: Option<Order>, next: Status, at: int, evidenceId: string): (Order, Disposition)
  {
    match before
    case None => (Order(next, at, at, evidenceId), Applied)
    case Some(o) =>
      var first := if at < o.orderOccurredAt then at else o.orderOccurredAt;
      if next == o.status then
        (if at > o.statusAt then Order(o.status, at, first, evidenceId) else o.(orderOccurredAt := first), Duplicate)
      else if at < o.statusAt then (o.(orderOccurredAt := first), Stale)
      else if Transition(o.status, next) then (Order(next, at, first, evidenceId), Applied)
      else (o.(orderOccurredAt := first), InvalidTransition)
  }

  function OrderOf(db: Db, key: Key): Option<Order>
  {
    if key in db.orders then Some(db.orders[key]) else None
  }

  function RecordStatus(db: Db, d: Input, e: RawEvent, next: Status): (Db, Outcome)
  {
    var before := OrderOf(db, e.key);
    var (after, disposition) := Observe(before, next, e.occurredAt, d.evidenceId);
    var previous := if before.Some? then Some(before.value.status) else None;
    var row := LedgerRow(d.evidenceId, e.key, Seen(next), FingerprintOf(d), previous, after.status, disposition);
    (db.(orders := db.orders[e.key := after], ledger := db.ledger + [row]), Ok(ResultOf(row)))
  }

  function AfterFullRefund(o: Order, at: int, evidenceId: string): Order
  {
    o.(status := Refunded, statusAt := if o.statusAt > at then o.statusAt else at, latestEvidenceId := evidenceId)
  }

  function RecordRefund(db: Db, d: Input, e: RawEvent): (Db, Outcome)
  {
    if e.key !in db.orders then (db, Err(MissingOrder))
    else
      var o := db.orders[e.key];
      if Terminal(o.status) || o.status == Created then (db, Err(BadTransition))
      else if (e.key.0, d.refundId) in db.refunds then (db, Err(Conflict))
      else
        var full := d.refundKind == "FULL";
        var after := if full then AfterFullRefund(o, e.occurredAt, d.evidenceId) else o;
        var row := LedgerRow(d.evidenceId, e.key, RefundSeen(full), FingerprintOf(d), Some(o.status), after.status, Applied);
        (db.(orders := db.orders[e.key := after],
             refunds := db.refunds[(e.key.0, d.refundId) :=
                          Refund(d.evidenceId, e.key.1, d.refundAmountMinor, d.refundKind, e.occurredAt)],
             ledger := db.ledger + [row]),
         Ok(ResultOf(row)))
  }

  function Apply(db: Db, d: Input): (Db, Outcome)
  {
    if !ValidInput(d) then (db, Err(BadInput))
    else if d.evidenceId !in db.raw then (db, Err(NotFound))
    else if !FitsEvidence(d, db.raw[d.evidenceId]) then (db, Err(BadInput))
    else
      var e := db.raw[d.evidenceId];
      match Receipt(db.ledger, d.evidenceId)
      case Some(row) => (db, if row.fingerprint == FingerprintOf(d) then Ok(ResultOf(row)) else Err(Conflict))
      case None => if d.status != "" then RecordStatus(db, d, e, ParseStatus(d.status).value) else RecordRefund(db, d, e)
  }

  // ---- The store itself ----

  class ProjectionStore {
    var raw: map<string, RawEvent>
    var orders: map<Key, Order>
    var refunds: map<(string, string), Refund>
    var ledger: seq<LedgerRow>

    function View(): Db
      reads this
    {
      Db(raw, orders, refunds, ledger)
    }

    constructor ()
      ensures View() == Db(map[], map[], map[], [])
    {
      raw, orders, refunds, ledger := map[], map[], map[], [];
    }

    method ApplyInput(d: Input) returns (out: Outcome)
      modifies this`orders, this`refunds, this`ledger
      ensures (View(), out) == Apply(old(View()), d)
    {
      if !ValidInput(d) {
        return Err(BadInput);
      }
      if d.evidenceId !in raw {
        return Err(NotFound);
      }
      var e := raw[d.evidenceId];
      if !FitsEvidence(d, e) {
        return Err(BadInput);
      }
      var existing := Receipt(ledger, d.evidenceId);
      if existing.Some? {
        if existing.value.fingerprint != FingerprintOf(d) {
          return Err(Conflict);
        }
        return Ok(ResultOf(existing.value));
      }
      if d.status != "" {
        out := Write(d, e);
      } else {
        out := WriteRefund(d, e);
      }
    }

    method Write(d: Input, e: RawEvent) returns (out: Outcome)
      requires ParseStatus(d.status).Some?
      modifies this`orders, this`ledger
      ensures (View(), out) == RecordStatus(old(View()), d, e, ParseStatus(d.status).value)
    {
      var status := ParseStatus(d.status).value;
      var previous: Option<Status> := None;
      var resulting, disposition := status, Applied;
      if e.key !in orders {
        orders := orders[e.key := Order(status, e.occurredAt, e.occurredAt, d.evidenceId)];
      } else {
        var current, statusAt := orders[e.key].status, orders[e.key].statusAt;
        previous, resulting := Some(current), current;
        if e.occurredAt < orders[e.key].orderOccurredAt {
          orders := orders[e.key := orders[e.key].(orderOccurredAt := e.occurredAt)];
        }
        if status == current {
          disposition := Duplicate;
          if e.occurredAt > statusAt {
            orders := orders[e.key := orders[e.key].(statusAt := e.occurredAt, latestEvidenceId := d.evidenceId)];
          }
        } else if e.occurredAt < statusAt {
          disposition := Stale;
        } else if Transition(current, status) {
          orders := orders[e.key := orders[e.key].(status := status, statusAt := e.occurredAt,
            latestEvidenceId := d.evidenceId)];
          resulting := status;
        } else {
          disposition := InvalidTransition;
        }
      }
      assert orders == old(orders)[e.key := Observe(OrderOf(old(View()), e.key), status, e.occurredAt, d.evidenceId).0];
      ledger := ledger + [LedgerRow(d.evidenceId, e.key, Seen(status), FingerprintOf(d), previous, resulting, disposition)];
      return Ok(Projected(e.key, previous, resulting, disposition));
    }

    method WriteRefund(d: Input, e: RawEvent) returns (out: Outcome)
      modifies this`orders, this`refunds, this`ledger
      ensures (View(), out) == RecordRefund(old(View()), d, e)
    {
      if e.key !in orders {
        return Err(MissingOrder);
      }
      var current, statusAt := orders[e.key].status, orders[e.key].statusAt;
      if current == Cancelled || current == Invalid || current == Refunded || current == Created {
        return Err(BadTransition);
      }
      if (e.key.0, d.refundId) in refunds {
        return Err(Conflict);
      }
      refunds := refunds[(e.key.0, d.refundId) := Refund(d.evidenceId, e.key.1, d.refundAmountMinor, d.refundKind,
        e.occurredAt)];
      var resulting := current;
      if d.refundKind == "FULL" {
        var newAt := e.occurredAt;
        if statusAt > newAt {
          newAt := statusAt;
        }
        orders := orders[e.key := orders[e.key].(status := Refunded, statusAt := newAt, latestEvidenceId := d.evidenceId)];
        resulting := Refunded;
      }
      assert orders == old(orders)[e.key := orders[e.key]];
      ledger := ledger + [LedgerRow(d.evidenceId, e.key, RefundSeen(d.refundKind == "FULL"), FingerprintOf(d),
        Some(current), resulting, Applied)];
      return Ok(Projected(e.key, Some(current), resulting, Applied));
    }

    // The arrival of an event under its evidence ID; OrderEvidence says which
    // events get there.
    method Save(evidenceId: string, e: RawEvent)
      modifies this`raw
      ensures View() == SaveEvent(old(View()), evidenceId, e)
    {
      if evidenceId !in raw {
        raw := raw[evidenceId := e];
      }
    }
  }

  function SaveEvent(db: Db, evidenceId: string, e: RawEvent): Db
  {
    if evidenceId in db.raw then db else db.(raw := db.raw[evidenceId := e])
  }
}
