// What deliveries do to orders and refunds, in terms of what was delivered: the
// names of statuses, the kinds of refunds, and the order of times.
module OrderAnswers {
  import opened Wrappers
  import opened Text
  import opened OrderProjection
  import opened OrderHistory

  function NameOf(s: Status): string
  {
    match s
    case Created => "CREATED"
    case Paid => "PAID"
    case Confirmed => "CONFIRMED"
    case CommissionConfirmed => "COMMISSION_CONFIRMED"
    case SettlementPending => "SETTLEMENT_PENDING"
    case Settled => "SETTLED"
    case Cancelled => "CANCELLED"
    case Invalid => "INVALID"
    case Refunded => "REFUNDED"
  }

  // Each status but REFUNDED is read from its own name, and from no other.
  lemma NamesAreRead(name: string, s: Status)
    ensures ParseStatus(name) == Some(s) <==> s != Refunded && name == NameOf(s)
  {
  }

  // An order moves on along the main road, to INVALID from anywhere still open, and
  // to CANCELLED while it is not confirmed; a status is never REFUNDED by itself.
  lemma TransitionsAre(a: Status, b: Status)
    ensures Transition(a, b) <==>
            (b == Invalid && a !in {Cancelled, Invalid, Refunded})
            || (b == Cancelled && a in {Created, Paid})
            || (b == Paid && a == Created)
            || (b == Confirmed && a in {Created, Paid})
            || (b == CommissionConfirmed && a in {Created, Paid, Confirmed})
            || (b == SettlementPending && a in {Created, Paid, Confirmed, CommissionConfirmed})
            || (b == Settled && a in {Created, Paid, Confirmed, CommissionConfirmed, SettlementPending})
  {
  }

  // Which fault an error names; a refusal writes nothing.
  lemma RefusalsName(db: Db, d: Input)
    requires Apply(db, d).1.Err?
    ensures Apply(db, d).0 == db
    ensures match Apply(db, d).1.error
            case BadInput =>
              !ValidInput(d) || (d.evidenceId in db.raw && (d.status != "" <==> db.raw[d.evidenceId].eventType == RefundEvent))
            case NotFound => d.evidenceId !in db.raw
            case Conflict =>
              d.evidenceId in db.raw
              && (Receipt(db.ledger, d.evidenceId).Some? || (db.raw[d.evidenceId].key.0, d.refundId) in db.refunds)
            case MissingOrder => d.status == "" && d.evidenceId in db.raw && db.raw[d.evidenceId].key !in db.orders
            case BadTransition =>
              d.status == "" && d.evidenceId in db.raw && db.raw[d.evidenceId].key in db.orders
              && db.orders[db.raw[d.evidenceId].key].status in {Created, Cancelled, Invalid, Refunded}
  {
    hide ValidInput;
  }

  // ---- Ledger and refunds record what was delivered ----

  predicate Fits(r: LedgerRow)
  {
    match r.mapped
    case Seen(s) => s != Refunded && r.fingerprint == Fingerprint(NameOf(s), "", "", 0)
    case RefundSeen(full) =>
      r.fingerprint.status == "" && r.fingerprint.refundAmountMinor > 0
      && r.fingerprint.refundKind == if full then "FULL" else "PARTIAL"
  }

  // The ledger row and the refund row of one refund.
  predicate Books(raw: map<string, RawEvent>, r: LedgerRow, k: (string, string), f: Refund)
  {
    r.mapped.RefundSeen? && r.evidenceId == f.evidenceId && r.key == (k.0, f.externalOrderId)
    && r.fingerprint == Fingerprint("", k.1, f.kind, f.amountMinor)
    && f.evidenceId in raw && raw[f.evidenceId].occurredAt == f.occurredAt
  }

  predicate IsRefunded(db: Db, key: Key)
  {
    key in db.orders && db.orders[key].status == Refunded
  }

  predicate RowKept(db: Db, r: LedgerRow)
  {
    Fits(r)
    && (r.mapped == RefundSeen(true) ==> IsRefunded(db, r.key))
    && (r.mapped.RefundSeen? ==>
          var k := (r.key.0, r.fingerprint.refundId); k in db.refunds && Books(db.raw, r, k, db.refunds[k]))
  }

  predicate Booked(db: Db, k: (string, string))
    requires k in db.refunds
  {
    exists i | 0 <= i < |db.ledger| :: Books(db.raw, db.ledger[i], k, db.refunds[k])
  }

  predicate Kept(db: Db)
  {
    (forall i | 0 <= i < |db.ledger| :: RowKept(db, db.ledger[i])) && forall k | k in db.refunds :: Booked(db, k)
  }

  lemma SavingKeeps(db: Db, id: string, e: RawEvent)
    requires Kept(db)
    ensures Kept(SaveEvent(db, id, e))
  {
    var next := SaveEvent(db, id, e);
    forall k | k in next.refunds
      ensures Booked(next, k)
    {
      assert Booked(db, k);
      var i :| 0 <= i < |db.ledger| && Books(db.raw, db.ledger[i], k, db.refunds[k]);
      assert Books(next.raw, next.ledger[i], k, next.refunds[k]);
    }
    forall i | 0 <= i < |next.ledger|
      ensures RowKept(next, next.ledger[i])
    {
      assert RowKept(db, db.ledger[i]);
    }
  }

  // REFUNDED stays REFUNDED whatever status is seen later.
  lemma StaysRefunded(db: Db, d: Input, e: RawEvent, s: Status, key: Key)
    requires s != Refunded
    ensures IsRefunded(RecordStatus(db, d, e, s).0, key) <==> IsRefunded(db, key)
  {
  }

  lemma StatusKept(db: Db, d: Input, e: RawEvent, s: Status)
    requires Kept(db) && ValidInput(d) && ParseStatus(d.status) == Some(s) && d.status != ""
    ensures Kept(RecordStatus(db, d, e, s).0)
  {
    NamesAreRead(d.status, s);
    var next := RecordStatus(db, d, e, s).0;
    hide ValidInput, Books;
    assert next.ledger[..|db.ledger|] == db.ledger && next.refunds == db.refunds && next.raw == db.raw;
    forall i | 0 <= i < |next.ledger|
      ensures RowKept(next, next.ledger[i])
    {
      if i < |db.ledger| {
        assert next.ledger[i] == db.ledger[i];
        assert RowKept(db, db.ledger[i]);
        StaysRefunded(db, d, e, s, db.ledger[i].key);
      } else {
        assert FingerprintOf(d) == Fingerprint(NameOf(s), "", "", 0) by { StatusFingerprint(d, s); }
      }
    }
    OldBookings(db, next);
  }

  lemma StatusFingerprint(d: Input, s: Status)
    requires ValidInput(d) && d.status != "" && ParseStatus(d.status) == Some(s)
    ensures FingerprintOf(d) == Fingerprint(NameOf(s), "", "", 0)
  {
    NamesAreRead(d.status, s);
  }

  lemma OldBookings(db: Db, next: Db)
    requires (forall k | k in db.refunds :: Booked(db, k)) && next.raw == db.raw && |next.ledger| >= |db.ledger|
    requires next.ledger[..|db.ledger|] == db.ledger
    ensures forall k | k in next.refunds && k in db.refunds && next.refunds[k] == db.refunds[k] :: Booked(next, k)
  {
    forall k | k in next.refunds && k in db.refunds && next.refunds[k] == db.refunds[k]
      ensures Booked(next, k)
    {
      assert Booked(db, k);
      var i :| 0 <= i < |db.ledger| && Books(db.raw, db.ledger[i], k, db.refunds[k]);
      assert next.ledger[i] == next.ledger[..|db.ledger|][i];
    }
  }

  // A recorded refund adds these two rows, and refunds no other order.
  ghost predicate AddsRefund(db: Db, next: Db, k: (string, string))
  {
    next.raw == db.raw && |next.ledger| == |db.ledger| + 1 && next.ledger[..|db.ledger|] == db.ledger
    && var row := next.ledger[|db.ledger|];
    k !in db.refunds && k in next.refunds && next.refunds == db.refunds[k := next.refunds[k]]
    && Fits(row) && row.key.0 == k.0 && row.fingerprint.refundId == k.1 && Books(db.raw, row, k, next.refunds[k])
    && (forall key :: IsRefunded(db, key) ==> IsRefunded(next, key))
    && (row.mapped == RefundSeen(true) ==> IsRefunded(next, row.key))
  }

  lemma RefundAdds(db: Db, d: Input, e: RawEvent)
    requires ValidInput(d) && d.status == "" && d.evidenceId in db.raw && db.raw[d.evidenceId] == e
    requires RecordRefund(db, d, e).1.Ok?
    ensures AddsRefund(db, RecordRefund(db, d, e).0, (e.key.0, d.refundId))
  {
    assert RecordRefund(db, d, e).0.ledger[..|db.ledger|] == db.ledger;
  }

  lemma RefundKept(db: Db, d: Input, e: RawEvent)
    requires Kept(db) && ValidInput(d) && d.status == "" && d.evidenceId in db.raw && db.raw[d.evidenceId] == e
    ensures Kept(RecordRefund(db, d, e).0)
  {
    var (next, out) := RecordRefund(db, d, e);
    if out.Ok? {
      RefundAdds(db, d, e);
      hide RecordRefund, ValidInput, Fits, Books, IsRefunded;
      var n, k := |db.ledger|, (e.key.0, d.refundId);
      forall i | 0 <= i < |next.ledger|
        ensures RowKept(next, next.ledger[i])
      {
        if i < n {
          assert next.ledger[i] == db.ledger[i];
          assert RowKept(db, db.ledger[i]);
        }
      }
      OldBookings(db, next);
      assert Booked(next, k) by { assert Books(next.raw, next.ledger[n], k, next.refunds[k]); }
    }
  }

  lemma DoingKeeps(db: Db, op: Op)
    requires Kept(db)
    ensures Kept(Do(db, op).0)
  {
    hide Kept;
    match op
    case Save(id, e) => SavingKeeps(db, id, e);
    case Deliver(d) =>
      if ValidInput(d) && d.evidenceId in db.raw && FitsEvidence(d, db.raw[d.evidenceId])
         && Receipt(db.ledger, d.evidenceId).None? {
        if d.status != "" {
          StatusKept(db, d, db.raw[d.evidenceId], ParseStatus(d.status).value);
        } else {
          RefundKept(db, d, db.raw[d.evidenceId]);
        }
      }
  }

  lemma {:induction false} RunningKeeps(db: Db, ops: seq<Op>)
    requires Kept(db)
    ensures Kept(Run(db, ops).0)
    decreases |ops|
  {
    hide Kept, Do;
    if ops != [] {
      DoingKeeps(db, ops[0]);
      RunningKeeps(Do(db, ops[0]).0, ops[1..]);
    }
  }

  // In every run a ledger row has the status or the kind of refund that its input
  // names, and each refund is booked twice with the same evidence, amount, kind
  // and time: as the ledger row and as its row in the table of refunds.
  lemma LedgerAndRefundsAgree(ops: seq<Op>)
    ensures var db := Run(EMPTY, ops).0;
            (forall i | 0 <= i < |db.ledger| :: RowKept(db, db.ledger[i])) && forall k | k in db.refunds :: Booked(db, k)
  {
    RunningKeeps(EMPTY, ops);
  }

  // ---- Refunds ----

  // The operation delivers a full refund of this order and is answered with success.
  predicate FullRefund(db: Db, op: Op, key: Key)
  {
    op.Deliver? && op.input.status == "" && op.input.refundKind == "FULL"
    && Apply(db, op.input).1.Ok? && Apply(db, op.input).1.value.key == key
  }

  lemma OneStepRefunds(db: Db, op: Op, key: Key)
    requires Kept(db)
    ensures IsRefunded(Do(db, op).0, key) <==> IsRefunded(db, key) || FullRefund(db, op, key)
  {
    if op.Deliver? {
      var d := op.input;
      if ValidInput(d) && d.evidenceId in db.raw && FitsEvidence(d, db.raw[d.evidenceId]) {
        var e := db.raw[d.evidenceId];
        var receipt := Receipt(db.ledger, d.evidenceId);
        if receipt.Some? {
          ReceiptIsRow(db.ledger, d.evidenceId);
          hide ValidInput;
        } else if d.status != "" {
          StaysRefunded(db, d, e, ParseStatus(d.status).value, key);
          hide RecordStatus, IsRefunded, ValidInput, Kept;
        } else {
          hide Kept;
        }
      }
    }
  }

  lemma {:induction false} ReceiptIsRow(ledger: seq<LedgerRow>, id: string)
    ensures var r := Receipt(ledger, id);
            r.Some? ==> r.value.evidenceId == id && exists i | 0 <= i < |ledger| :: ledger[i] == r.value
  {
    if ledger != [] && ledger[|ledger| - 1].evidenceId != id {
      ReceiptIsRow(ledger[..|ledger| - 1], id);
      var r := Receipt(ledger, id);
      if r.Some? {
        var i :| 0 <= i < |ledger| - 1 && ledger[..|ledger| - 1][i] == r.value;
        assert ledger[i] == r.value;
      }
    }
  }

  lemma RunLast(db: Db, ops: seq<Op>)
    requires ops != []
    ensures Run(db, ops).0 == Do(Run(db, ops[..|ops| - 1]).0, ops[|ops| - 1]).0
  {
    var before, op := ops[..|ops| - 1], ops[|ops| - 1];
    assert ops == before + [op];
    RunAppend(db, before, [op]);
    RunOne(Run(db, before).0, op);
  }

  predicate FullRefundAt(before: seq<Op>, op: Op, key: Key)
  {
    FullRefund(Run(EMPTY, before).0, op, key)
  }

  // An order is REFUNDED exactly when some delivery of a full refund of it was
  // answered with success.
  lemma {:induction false} RefundedIffFullRefund(ops: seq<Op>, key: Key)
    ensures IsRefunded(Run(EMPTY, ops).0, key) <==> exists i | 0 <= i < |ops| :: FullRefundAt(ops[..i], ops[i], key)
    decreases |ops|
  {
    if ops != [] {
      var before, op := ops[..|ops| - 1], ops[|ops| - 1];
      RunLast(EMPTY, ops);
      RunningKeeps(EMPTY, before);
      hide Run, IsRefunded, FullRefund, Do, Kept;
      OneStepRefunds(Run(EMPTY, before).0, op, key);
      RefundedIffFullRefund(before, key);
      assert forall i | 0 <= i < |before| :: before[i] == ops[i] && before[..i] == ops[..i];
      hide FullRefundAt;
      if i :| 0 <= i < |ops| && FullRefundAt(ops[..i], ops[i], key) && i < |before| {
        assert FullRefundAt(before[..i], before[i], key);
      }
    }
  }

  // A partial refund leaves every order as it is, whatever it is answered.
  lemma PartialRefundLeavesOrders(db: Db, d: Input)
    requires d.status == "" && d.refundKind == "PARTIAL"
    ensures Apply(db, d).0.orders == db.orders
  {
    if ValidInput(d) && d.evidenceId in db.raw && FitsEvidence(d, db.raw[d.evidenceId]) {
      var key := db.raw[d.evidenceId].key;
      assert key in db.orders ==> db.orders[key := db.orders[key]] == db.orders;
    }
  }

  // A refund that is not recorded yet is accepted exactly when the order is paid for
  // and open and the refund ID is new; a full one ends the order at the later time.
  lemma RefundIsAcceptedIff(db: Db, d: Input)
    requires ValidInput(d) && d.status == "" && d.evidenceId in db.raw && db.raw[d.evidenceId].eventType == RefundEvent
    requires Receipt(db.ledger, d.evidenceId) == None
    ensures var (next, out) := Apply(db, d); var e := db.raw[d.evidenceId];
            (out.Ok? <==>
              e.key in db.orders && (e.key.0, d.refundId) !in db.refunds
              && db.orders[e.key].status in {Paid, Confirmed, CommissionConfirmed, SettlementPending, Settled})
            && (out.Err? ==> next == db)
            && (out.Ok? && d.refundKind == "FULL" ==>
                  var o := db.orders[e.key];
                  next.orders == db.orders[e.key := Order(Refunded, if e.occurredAt >= o.statusAt then e.occurredAt else o.statusAt,
                                                          o.orderOccurredAt, d.evidenceId)])
  {
    hide ValidInput;
  }

  // ---- Dispositions and the latest evidence ----

  // Evidence recorded before row `n` confirms a later time.
  predicate Older(raw: map<string, RawEvent>, h: seq<LedgerRow>, n: nat)
    requires n < |h|
  {
    exists m | 0 <= m < n :: Confirms(h[m]) && TimeOf(raw, h[n]) < TimeOf(raw, h[m])
  }

  predicate Newer(raw: map<string, RawEvent>, h: seq<LedgerRow>, n: nat)
    requires n < |h|
  {
    forall m | 0 <= m < n :: Confirms(h[m]) ==> TimeOf(raw, h[m]) < TimeOf(raw, h[n])
  }

  // The same status again is a duplicate; what is older than a confirmed time is
  // stale; of the rest the transitions are applied.
  predicate Disposed(raw: map<string, RawEvent>, h: seq<LedgerRow>, n: nat)
    requires n < |h|
  {
    var r := h[n];
    r.mapped.Seen? && r.previous.Some? ==>
      r.disposition == (if r.mapped.status == r.previous.value then Duplicate else if Older(raw, h, n) then Stale
                        else if Transition(r.previous.value, r.mapped.status) then Applied else InvalidTransition)
  }

  // The row becomes the order's latest evidence: it changes the status, or
  // confirms it at a later time than any before.
  predicate TakesOver(raw: map<string, RawEvent>, h: seq<LedgerRow>, n: nat)
    requires n < |h|
  {
    Confirms(h[n]) && (h[n].disposition == Applied || Newer(raw, h, n))
  }

  predicate Latest(raw: map<string, RawEvent>, h: seq<LedgerRow>, id: string)
  {
    exists i | 0 <= i < |h| :: h[i].evidenceId == id && TakesOver(raw, h, i) && forall j | i < j < |h| :: !TakesOver(raw, h, j)
  }

  predicate Detailed(raw: map<string, RawEvent>, h: seq<LedgerRow>, o: Option<Order>)
  {
    (forall n | 0 <= n < |h| :: Disposed(raw, h, n)) && (o.Some? ==> Latest(raw, h, o.value.latestEvidenceId))
  }

  ghost predicate AllDetailed(db: Db)
  {
    Inv(db) && forall key :: Detailed(db.raw, History(db.ledger, key), OrderOf(db, key))
  }

  lemma AppendLeaves(raw: map<string, RawEvent>, h: seq<LedgerRow>, r: LedgerRow, n: nat)
    requires n < |h|
    ensures Older(raw, h + [r], n) == Older(raw, h, n) && Newer(raw, h + [r], n) == Newer(raw, h, n)
    ensures Disposed(raw, h + [r], n) == Disposed(raw, h, n) && TakesOver(raw, h + [r], n) == TakesOver(raw, h, n)
  {
    var g := h + [r];
    assert forall m | 0 <= m <= n :: g[m] == h[m];
    hide Confirms, TimeOf;
    if Older(raw, g, n) {
      var m :| 0 <= m < n && Confirms(g[m]) && TimeOf(raw, g[n]) < TimeOf(raw, g[m]);
      assert Confirms(h[m]);
    }
    if Older(raw, h, n) {
      var m :| 0 <= m < n && Confirms(h[m]) && TimeOf(raw, h[n]) < TimeOf(raw, h[m]);
      assert Confirms(g[m]);
    }
    if Newer(raw, g, n) {
      assert forall m | 0 <= m < n :: Confirms(h[m]) ==> TimeOf(raw, g[m]) < TimeOf(raw, g[n]);
    }
  }

  // Against the latest confirmed time.
  lemma AgainstLatest(raw: map<string, RawEvent>, h: seq<LedgerRow>, at: int, r: LedgerRow)
    requires LastConfirmed(raw, h, at)
    ensures Older(raw, h + [r], |h|) <==> TimeOf(raw, r) < at
    ensures Newer(raw, h + [r], |h|) <==> at < TimeOf(raw, r)
  {
    var g := h + [r];
    assert g[|h|] == r && forall m | 0 <= m < |h| :: g[m] == h[m];
    hide Confirms, TimeOf;
    var i :| 0 <= i < |h| && Confirms(h[i]) && at == TimeOf(raw, h[i]);
    assert Confirms(g[i]) && TimeOf(raw, g[i]) == at;
  }

  lemma DetailsAppend(raw: map<string, RawEvent>, h: seq<LedgerRow>, before: Option<Order>, r: LedgerRow, after: Order)
    requires Detailed(raw, h, before) && Disposed(raw, h + [r], |h|) && (before.None? ==> TakesOver(raw, h + [r], |h|))
    requires after.latestEvidenceId == if TakesOver(raw, h + [r], |h|) then r.evidenceId else before.value.latestEvidenceId
    ensures Detailed(raw, h + [r], Some(after))
  {
    var g := h + [r];
    assert g[|h|] == r && forall m | 0 <= m < |h| :: g[m] == h[m];
    forall n | 0 <= n < |g|
      ensures Disposed(raw, g, n)
    {
      if n < |h| {
        AppendLeaves(raw, h, r, n);
      }
    }
    hide Disposed, TakesOver;
    if TakesOver(raw, g, |h|) {
      assert g[|h|].evidenceId == after.latestEvidenceId;
    } else {
      var i :| 0 <= i < |h| && h[i].evidenceId == after.latestEvidenceId && TakesOver(raw, h, i)
               && forall j | i < j < |h| :: !TakesOver(raw, h, j);
      AppendLeaves(raw, h, r, i);
      forall j | i < j < |g|
        ensures !TakesOver(raw, g, j)
      {
        if j < |h| {
          AppendLeaves(raw, h, r, j);
        }
      }
      assert g[i].evidenceId == after.latestEvidenceId;
    }
  }

  // A new ledger row with the order it leaves behind.
  predicate WellDisposed(raw: map<string, RawEvent>, before: Option<Order>, r: LedgerRow, after: Order)
  {
    match before
    case None => r.previous.None? && r.disposition == Applied && r.mapped.Seen? && after.latestEvidenceId == r.evidenceId
    case Some(o) =>
      var at := TimeOf(raw, r);
      (r.mapped.Seen? && r.previous.Some? ==>
         r.disposition == (if r.mapped.status == r.previous.value then Duplicate else if at < o.statusAt then Stale
                           else if Transition(r.previous.value, r.mapped.status) then Applied else InvalidTransition))
      && after.latestEvidenceId == (if Confirms(r) && (r.disposition == Applied || o.statusAt < at) then r.evidenceId
                                    else o.latestEvidenceId)
  }

  lemma ExtendDetails(db: Db, next: Db, row: LedgerRow)
    requires AllDetailed(db) && Inv(next) && Extends(db, next, row)
    requires WellDisposed(db.raw, OrderOf(db, row.key), row, next.orders[row.key])
    ensures AllDetailed(next)
  {
    forall key
      ensures Detailed(next.raw, History(next.ledger, key), OrderOf(next, key))
    {
      HistoryAppend(db.ledger, row, key);
      assert Detailed(db.raw, History(db.ledger, key), OrderOf(db, key));
      if key == row.key {
        OrderDetails(db, row, next.orders[row.key]);
      } else {
        assert History(next.ledger, key) == History(db.ledger, key) && OrderOf(next, key) == OrderOf(db, key);
      }
    }
  }

  lemma OrderDetails(db: Db, row: LedgerRow, after: Order)
    requires AllDetailed(db) && WellDisposed(db.raw, OrderOf(db, row.key), row, after)
    ensures Detailed(db.raw, History(db.ledger, row.key) + [row], Some(after))
  {
    var h := History(db.ledger, row.key);
    var before := OrderOf(db, row.key);
    assert OrderOk(db, row.key) && Detailed(db.raw, h, before);
    if before.Some? {
      AgainstLatest(db.raw, h, before.value.statusAt, row);
    } else {
      assert h == [] && Newer(db.raw, h + [row], 0);
    }
    assert (h + [row])[|h|] == row;
    hide Inv, OrderOk, Detailed, Older, Newer;
    DetailsAppend(db.raw, h, before, row, after);
  }

  lemma DoingDetails(db: Db, op: Op)
    requires AllDetailed(db)
    ensures AllDetailed(Do(db, op).0)
  {
    DoKeeps(db, op);
    hide AllDetailed, Inv;
    match op
    case Save(id, e) => SavingDetails(db, id, e);
    case Deliver(d) =>
      if ValidInput(d) && d.evidenceId in db.raw && FitsEvidence(d, db.raw[d.evidenceId])
         && Receipt(db.ledger, d.evidenceId).None? {
        if d.status != "" {
          StatusDetails(db, d, db.raw[d.evidenceId], ParseStatus(d.status).value);
        } else {
          RefundDetails(db, d, db.raw[d.evidenceId]);
        }
      }
  }

  lemma StatusDetails(db: Db, d: Input, e: RawEvent, s: Status)
    requires AllDetailed(db) && d.evidenceId in db.raw && db.raw[d.evidenceId] == e && e.eventType == OrderEvent && s != Refunded
    ensures AllDetailed(RecordStatus(db, d, e, s).0)
  {
    StatusKeeps(db, d, e, s);
    var next := RecordStatus(db, d, e, s).0;
    var row := next.ledger[|db.ledger|];
    assert WellDisposed(db.raw, OrderOf(db, row.key), row, next.orders[row.key]) by { hide AllDetailed, Inv; }
    hide *;
    ExtendDetails(db, next, row);
  }

  lemma RefundDetails(db: Db, d: Input, e: RawEvent)
    requires AllDetailed(db) && d.evidenceId in db.raw && db.raw[d.evidenceId] == e && e.eventType == RefundEvent
    ensures AllDetailed(RecordRefund(db, d, e).0)
  {
    RefundKeeps(db, d, e);
    var (next, out) := RecordRefund(db, d, e);
    if out.Ok? {
      var row := next.ledger[|db.ledger|];
      assert WellDisposed(db.raw, OrderOf(db, row.key), row, next.orders[row.key]) by { hide AllDetailed, Inv; }
      hide *;
      ExtendDetails(db, next, row);
    }
  }

  lemma SavingDetails(db: Db, id: string, e: RawEvent)
    requires AllDetailed(db) && Inv(SaveEvent(db, id, e))
    ensures AllDetailed(SaveEvent(db, id, e))
  {
    var next := SaveEvent(db, id, e);
    forall key
      ensures Detailed(next.raw, History(next.ledger, key), OrderOf(next, key))
    {
      var h := History(db.ledger, key);
      assert Detailed(db.raw, h, OrderOf(db, key)) && OrderOk(db, key);
      assert forall i | 0 <= i < |h| :: TimeOf(next.raw, h[i]) == TimeOf(db.raw, h[i]) by {
        assert forall i | 0 <= i < |h| :: RowOk(db.raw, h[i]);
      }
      SameTimes(db.raw, next.raw, h, OrderOf(db, key));
    }
  }

  lemma SameTimes(raw: map<string, RawEvent>, next: map<string, RawEvent>, h: seq<LedgerRow>, o: Option<Order>)
    requires Detailed(raw, h, o) && forall i | 0 <= i < |h| :: TimeOf(next, h[i]) == TimeOf(raw, h[i])
    ensures Detailed(next, h, o)
  {
    hide TimeOf, Confirms;
    forall n | 0 <= n < |h|
      ensures Older(next, h, n) == Older(raw, h, n) && Newer(next, h, n) == Newer(raw, h, n)
    {
      if Older(raw, h, n) {
        var m :| 0 <= m < n && Confirms(h[m]) && TimeOf(raw, h[n]) < TimeOf(raw, h[m]);
        assert Confirms(h[m]) && TimeOf(next, h[n]) < TimeOf(next, h[m]);
      }
    }
    hide Older, Newer;
    forall n | 0 <= n < |h|
      ensures Disposed(next, h, n) && TakesOver(next, h, n) == TakesOver(raw, h, n)
    {
      assert Disposed(raw, h, n);
    }
    hide Disposed, TakesOver;
    if o.Some? {
      var i :| 0 <= i < |h| && h[i].evidenceId == o.value.latestEvidenceId && TakesOver(raw, h, i)
               && forall j | i < j < |h| :: !TakesOver(raw, h, j);
      assert h[i].evidenceId == o.value.latestEvidenceId && TakesOver(next, h, i);
    }
  }

  lemma {:induction false} RunningDetails(db: Db, ops: seq<Op>)
    requires AllDetailed(db)
    ensures AllDetailed(Run(db, ops).0)
    decreases |ops|
  {
    hide AllDetailed, Do;
    if ops != [] {
      DoingDetails(db, ops[0]);
      RunningDetails(Do(db, ops[0]).0, ops[1..]);
    }
  }

  // In every run each delivery of a status was disposed of by the times recorded
  // before it, and the latest evidence of an order is that of the last row that
  // changed its status or confirmed it at a later time.
  lemma DispositionsAndLatestEvidence(ops: seq<Op>, key: Key)
    ensures var db := Run(EMPTY, ops).0; var h := History(db.ledger, key);
            (forall n | 0 <= n < |h| :: Disposed(db.raw, h, n))
            && (key in db.orders ==> Latest(db.raw, h, db.orders[key].latestEvidenceId))
  {
    RunningDetails(EMPTY, ops);
    var db := Run(EMPTY, ops).0;
    assert Detailed(db.raw, History(db.ledger, key), OrderOf(db, key));
  }
}
