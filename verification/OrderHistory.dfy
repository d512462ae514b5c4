// What the order projection keeps over any run of saved and delivered events:
// the ledger explains the order row, and replays are invisible.
module OrderHistory {
  import opened Wrappers
  import opened OrderProjection

  datatype Op = Save(evidenceId: string, event: RawEvent) | Deliver(input: Input)

  datatype Reply = Stored | Answered(outcome: Outcome)

  function Do(db: Db, op: Op): (Db, Reply)
  {
    match op
    case Save(id, e) => (SaveEvent(db, id, e), Stored)
    case Deliver(d) => var (next, out) := Apply(db, d); (next, Answered(out))
  }

  function Run(db: Db, ops: seq<Op>): (Db, seq<Reply>)
    decreases |ops|
  {
    if ops == [] then (db, [])
    else
      var (mid, reply) := Do(db, ops[0]);
      var (end, replies) := Run(mid, ops[1..]);
      (end, [reply] + replies)
  }

  const EMPTY := Db(map[], map[], map[], [])

  lemma {:induction false} RunAppend(db: Db, a: seq<Op>, b: seq<Op>)
    ensures var mid := Run(db, a); var end := Run(mid.0, b); Run(db, a + b) == (end.0, mid.1 + end.1)
    decreases |a|
  {
    if a == [] {
      assert a + b == b;
      assert [] + Run(db, b).1 == Run(db, b).1;
    } else {
      assert (a + b)[0] == a[0] && (a + b)[1..] == a[1..] + b;
      RunAppend(Do(db, a[0]).0, a[1..], b);
      var mid := Run(Do(db, a[0]).0, a[1..]);
      assert [Do(db, a[0]).1] + (mid.1 + Run(mid.0, b).1) == [Do(db, a[0]).1] + mid.1 + Run(mid.0, b).1;
    }
  }

  // The ledger rows of one order, oldest first.
  function History(ledger: seq<LedgerRow>, key: Key): seq<LedgerRow>
  {
    if ledger == [] then []
    else
      var last := ledger[|ledger| - 1];
      History(ledger[..|ledger| - 1], key) + if last.key == key then [last] else []
  }

  lemma HistoryAppend(ledger: seq<LedgerRow>, row: LedgerRow, key: Key)
    ensures History(ledger + [row], key) == History(ledger, key) + if row.key == key then [row] else []
  {
    assert (ledger + [row])[..|ledger|] == ledger;
  }

  // Where a status stands on the one-way road from CREATED to the end.
  function Level(s: Status): nat
  {
    if Terminal(s) then 7 else Rank(s)
  }

  // ---- One ledger row ----

  // A row changed the status only as a permitted transition or a full refund.
  predicate RowOk(raw: map<string, RawEvent>, r: LedgerRow)
  {
    r.evidenceId in raw && raw[r.evidenceId].key == r.key
    && match r.mapped
       case Seen(s) =>
         raw[r.evidenceId].eventType == OrderEvent && s != Refunded
         && (match r.previous
             case None => r.resulting == s && r.disposition == Applied
             case Some(p) =>
               if r.disposition == Applied then Transition(p, s) && r.resulting == s
               else r.resulting == p && (r.disposition == Duplicate <==> s == p)
                    && (r.disposition == InvalidTransition ==> !Transition(p, s)))
       case RefundSeen(full) =>
         raw[r.evidenceId].eventType == RefundEvent && r.disposition == Applied && r.previous.Some?
         && !Terminal(r.previous.value) && r.previous.value != Created
         && r.resulting == if full then Refunded else r.previous.value
  }

  function TimeOf(raw: map<string, RawEvent>, r: LedgerRow): int
  {
    if r.evidenceId in raw then raw[r.evidenceId].occurredAt else 0
  }

  // The rows whose time counts towards status_at.
  predicate Confirms(r: LedgerRow)
  {
    match r.mapped
    case Seen(_) => r.disposition == Applied || r.disposition == Duplicate
    case RefundSeen(full) => full
  }

  // ---- The rows of one order together with the order row ----

  predicate Chained(h: seq<LedgerRow>)
  {
    (|h| > 0 ==> h[0].previous == None)
    && forall i | 0 < i < |h| :: h[i].previous == Some(h[i - 1].resulting)
  }

  predicate FirstSeen(raw: map<string, RawEvent>, h: seq<LedgerRow>, at: int)
  {
    (forall i | 0 <= i < |h| :: h[i].mapped.Seen? ==> at <= TimeOf(raw, h[i]))
    && (exists i | 0 <= i < |h| :: h[i].mapped.Seen? && at == TimeOf(raw, h[i]))
  }

  predicate LastConfirmed(raw: map<string, RawEvent>, h: seq<LedgerRow>, at: int)
  {
    (forall i | 0 <= i < |h| :: Confirms(h[i]) ==> TimeOf(raw, h[i]) <= at)
    && (exists i | 0 <= i < |h| :: Confirms(h[i]) && at == TimeOf(raw, h[i]))
  }

  predicate Explains(raw: map<string, RawEvent>, h: seq<LedgerRow>, o: Order)
  {
    |h| > 0 && Chained(h) && h[|h| - 1].resulting == o.status
    && FirstSeen(raw, h, o.orderOccurredAt) && LastConfirmed(raw, h, o.statusAt)
  }

  predicate RowsOk(db: Db)
  {
    forall i | 0 <= i < |db.ledger| :: RowOk(db.raw, db.ledger[i])
  }

  ghost predicate OrderOk(db: Db, key: Key)
  {
    var h := History(db.ledger, key);
    (forall i | 0 <= i < |h| :: RowOk(db.raw, h[i]))
    && if key in db.orders then Explains(db.raw, h, db.orders[key]) else h == []
  }

  ghost predicate Inv(db: Db)
  {
    RowsOk(db) && forall key :: OrderOk(db, key)
  }

  // ---- Appending one row to one order's history ----

  lemma FirstSeenAppend(raw: map<string, RawEvent>, h: seq<LedgerRow>, at: int, r: LedgerRow)
    requires FirstSeen(raw, h, at)
    ensures FirstSeen(raw, h + [r], if r.mapped.Seen? && TimeOf(raw, r) < at then TimeOf(raw, r) else at)
  {
    var i :| 0 <= i < |h| && h[i].mapped.Seen? && at == TimeOf(raw, h[i]);
    assert (h + [r])[i] == h[i] && (h + [r])[|h|] == r;
  }

  lemma LastConfirmedAppend(raw: map<string, RawEvent>, h: seq<LedgerRow>, at: int, r: LedgerRow)
    requires LastConfirmed(raw, h, at)
    ensures LastConfirmed(raw, h + [r], if Confirms(r) && TimeOf(raw, r) > at then TimeOf(raw, r) else at)
  {
    var i :| 0 <= i < |h| && Confirms(h[i]) && at == TimeOf(raw, h[i]);
    assert (h + [r])[i] == h[i] && (h + [r])[|h|] == r;
  }

  lemma ExplainsFirst(raw: map<string, RawEvent>, r: LedgerRow, o: Order)
    requires r.previous == None && r.mapped.Seen? && r.disposition == Applied && r.resulting == o.status
    requires o.orderOccurredAt == TimeOf(raw, r) == o.statusAt
    ensures Explains(raw, [r], o)
  {
    assert [r][0] == r;
  }

  lemma ExplainsNext(raw: map<string, RawEvent>, h: seq<LedgerRow>, o: Order, r: LedgerRow, next: Order)
    requires Explains(raw, h, o) && r.previous == Some(o.status) && r.resulting == next.status
    requires next.orderOccurredAt == if r.mapped.Seen? && TimeOf(raw, r) < o.orderOccurredAt then TimeOf(raw, r)
             else o.orderOccurredAt
    requires next.statusAt == if Confirms(r) && TimeOf(raw, r) > o.statusAt then TimeOf(raw, r) else o.statusAt
    ensures Explains(raw, h + [r], next)
  {
    FirstSeenAppend(raw, h, o.orderOccurredAt, r);
    LastConfirmedAppend(raw, h, o.statusAt, r);
  }

  // ---- Every operation keeps the invariant ----

  // What a successful, new projection of `row` does to the database.
  predicate Extends(db: Db, next: Db, row: LedgerRow)
  {
    next.raw == db.raw && next.ledger == db.ledger + [row] && RowOk(db.raw, row)
    && row.key in next.orders && next.orders == db.orders[row.key := next.orders[row.key]]
  }

  lemma ExtendKeeps(db: Db, next: Db, row: LedgerRow)
    requires Inv(db) && Extends(db, next, row)
    requires Explains(db.raw, History(db.ledger, row.key) + [row], next.orders[row.key])
    ensures Inv(next)
  {
    forall key
      ensures OrderOk(next, key)
    {
      HistoryAppend(db.ledger, row, key);
      assert OrderOk(db, key);
      if key != row.key {
        assert History(next.ledger, key) == History(db.ledger, key);
      }
    }
  }

  lemma StatusKeeps(db: Db, d: Input, e: RawEvent, s: Status)
    requires Inv(db) && d.evidenceId in db.raw && db.raw[d.evidenceId] == e && e.eventType == OrderEvent && s != Refunded
    ensures Inv(RecordStatus(db, d, e, s).0)
    ensures Extends(db, RecordStatus(db, d, e, s).0, RecordStatus(db, d, e, s).0.ledger[|db.ledger|])
  {
    var next := RecordStatus(db, d, e, s).0;
    var row := next.ledger[|db.ledger|];
    var h := History(db.ledger, e.key);
    assert OrderOk(db, e.key);
    if e.key in db.orders {
      ExplainsNext(db.raw, h, db.orders[e.key], row, next.orders[e.key]);
    } else {
      ExplainsFirst(db.raw, row, next.orders[e.key]);
      assert h + [row] == [row];
    }
    ExtendKeeps(db, next, row);
  }

  lemma RefundKeeps(db: Db, d: Input, e: RawEvent)
    requires Inv(db) && d.evidenceId in db.raw && db.raw[d.evidenceId] == e && e.eventType == RefundEvent
    ensures Inv(RecordRefund(db, d, e).0)
    ensures RecordRefund(db, d, e).1.Ok? ==>
              Extends(db, RecordRefund(db, d, e).0, RecordRefund(db, d, e).0.ledger[|db.ledger|])
  {
    var (next, out) := RecordRefund(db, d, e);
    if out.Ok? {
      var row := next.ledger[|db.ledger|];
      assert OrderOk(db, e.key);
      ExplainsNext(db.raw, History(db.ledger, e.key), db.orders[e.key], row, next.orders[e.key]);
      ExtendKeeps(db, next, row);
    }
  }

  lemma SaveKeeps(db: Db, id: string, e: RawEvent)
    requires Inv(db)
    ensures Inv(SaveEvent(db, id, e))
  {
    var next := SaveEvent(db, id, e);
    forall key
      ensures OrderOk(next, key)
    {
      assert OrderOk(db, key);
      var h := History(db.ledger, key);
      forall i | 0 <= i < |h|
        ensures RowOk(next.raw, h[i]) && TimeOf(next.raw, h[i]) == TimeOf(db.raw, h[i])
      {
        assert RowOk(db.raw, h[i]);
      }
    }
    forall i | 0 <= i < |next.ledger|
      ensures RowOk(next.raw, next.ledger[i])
    {
      assert RowOk(db.raw, db.ledger[i]);
    }
  }

  lemma DoKeeps(db: Db, op: Op)
    requires Inv(db)
    ensures Inv(Do(db, op).0)
  {
    hide Inv;
    match op
    case Save(id, e) => SaveKeeps(db, id, e);
    case Deliver(d) =>
      if ValidInput(d) && d.evidenceId in db.raw && FitsEvidence(d, db.raw[d.evidenceId])
        && Receipt(db.ledger, d.evidenceId).None? {
        if d.status != "" {
          StatusKeeps(db, d, db.raw[d.evidenceId], ParseStatus(d.status).value);
        } else {
          RefundKeeps(db, d, db.raw[d.evidenceId]);
        }
      }
  }

  lemma {:induction false} RunKeeps(db: Db, ops: seq<Op>)
    requires Inv(db)
    ensures Inv(Run(db, ops).0)
    decreases |ops|
  {
    if ops != [] {
      DoKeeps(db, ops[0]);
      RunKeeps(Do(db, ops[0]).0, ops[1..]);
    }
  }

  // ---- What the ledger of any run says ----

  lemma Reachable(ops: seq<Op>)
    ensures Inv(Run(EMPTY, ops).0)
  {
    RunKeeps(EMPTY, ops);
  }

  // An order row exists exactly when its ledger has rows; it holds the earliest
  // time of any recorded ORDER evidence and the latest confirming time, and the
  // ledger rows chain from the first status to the stored one.
  lemma LedgerExplainsOrder(ops: seq<Op>, key: Key)
    ensures var db := Run(EMPTY, ops).0; var h := History(db.ledger, key);
            (key in db.orders <==> |h| > 0)
            && (key in db.orders ==>
                  Chained(h) && h[|h| - 1].resulting == db.orders[key].status
                  && FirstSeen(db.raw, h, db.orders[key].orderOccurredAt)
                  && LastConfirmed(db.raw, h, db.orders[key].statusAt))
  {
    Reachable(ops);
    assert OrderOk(Run(EMPTY, ops).0, key);
  }

  // A row that follows another continues from its status and never goes back.
  lemma Onward(raw: map<string, RawEvent>, h: seq<LedgerRow>, i: nat)
    requires Chained(h) && 0 < i < |h| && RowOk(raw, h[i])
    ensures Level(h[i - 1].resulting) <= Level(h[i].resulting)
    ensures h[i].resulting != h[i - 1].resulting ==> Level(h[i - 1].resulting) < Level(h[i].resulting)
    ensures Terminal(h[i - 1].resulting) ==> h[i].resulting == h[i - 1].resulting
  {
  }

  lemma {:induction false} TerminalStays(raw: map<string, RawEvent>, h: seq<LedgerRow>, i: nat, j: nat)
    requires Chained(h) && i <= j < |h| && (forall n | 0 <= n < |h| :: RowOk(raw, h[n])) && Terminal(h[i].resulting)
    ensures h[j].resulting == h[i].resulting
  {
    if i < j {
      TerminalStays(raw, h, i, j - 1);
      Onward(raw, h, j);
    }
  }

  // CANCELLED, INVALID and REFUNDED are absorbing.
  lemma TerminalStatusIsFinal(ops: seq<Op>, key: Key, i: nat, j: nat)
    requires var h := History(Run(EMPTY, ops).0.ledger, key); i <= j < |h| && Terminal(h[i].resulting)
    ensures var db := Run(EMPTY, ops).0; var h := History(db.ledger, key);
            h[j].resulting == h[i].resulting && key in db.orders && db.orders[key].status == h[i].resulting
  {
    Reachable(ops);
    var db := Run(EMPTY, ops).0;
    var h := History(db.ledger, key);
    assert OrderOk(db, key);
    TerminalStays(db.raw, h, i, j);
    TerminalStays(db.raw, h, i, |h| - 1);
  }

  // Only a full refund leads to REFUNDED.
  lemma RefundedOnlyByFullRefund(ops: seq<Op>, key: Key, i: nat)
    requires var h := History(Run(EMPTY, ops).0.ledger, key);
             i < |h| && h[i].resulting == Refunded && h[i].previous != Some(Refunded)
    ensures History(Run(EMPTY, ops).0.ledger, key)[i].mapped == RefundSeen(true)
  {
    Reachable(ops);
    assert OrderOk(Run(EMPTY, ops).0, key);
  }

  // How often the status changed after the order was created.
  function Changes(h: seq<LedgerRow>): nat
  {
    if |h| <= 1 then 0
    else
      var last := h[|h| - 1];
      Changes(h[..|h| - 1]) + if last.previous != Some(last.resulting) then 1 else 0
  }

  lemma {:induction false} ChangesClimb(raw: map<string, RawEvent>, h: seq<LedgerRow>)
    requires |h| > 0 && Chained(h) && forall n | 0 <= n < |h| :: RowOk(raw, h[n])
    ensures 1 + Changes(h) <= Level(h[|h| - 1].resulting)
    decreases |h|
  {
    if |h| > 1 {
      ChangesClimb(raw, h[..|h| - 1]);
      Onward(raw, h, |h| - 1);
    }
  }

  lemma AtMostSixChanges(ops: seq<Op>, key: Key)
    ensures Changes(History(Run(EMPTY, ops).0.ledger, key)) <= 6
  {
    Reachable(ops);
    var db := Run(EMPTY, ops).0;
    var h := History(db.ledger, key);
    assert OrderOk(db, key);
    if |h| > 0 {
      ChangesClimb(db.raw, h);
    }
  }

  // ---- Replays ----

  // This very input was recorded for this evidence.
  predicate Committed(db: Db, d: Input)
  {
    ValidInput(d) && d.evidenceId in db.raw && FitsEvidence(d, db.raw[d.evidenceId])
    && Receipt(db.ledger, d.evidenceId).Some?
    && Receipt(db.ledger, d.evidenceId).value.fingerprint == FingerprintOf(d)
  }

  lemma ReceiptAppend(ledger: seq<LedgerRow>, row: LedgerRow, id: string)
    ensures Receipt(ledger + [row], id) == if row.evidenceId == id then Some(row) else Receipt(ledger, id)
  {
    assert (ledger + [row])[..|ledger|] == ledger;
  }

  lemma SuccessCommits(db: Db, d: Input)
    requires Apply(db, d).1.Ok?
    ensures var next := Apply(db, d).0;
            Committed(next, d) && Apply(db, d).1 == Ok(ResultOf(Receipt(next.ledger, d.evidenceId).value))
  {
    var next := Apply(db, d).0;
    if |next.ledger| > |db.ledger| {
      ReceiptAppend(db.ledger, next.ledger[|db.ledger|], d.evidenceId);
    }
  }

  lemma CommittedStays(db: Db, d: Input, op: Op)
    requires Committed(db, d)
    ensures var next := Do(db, op).0;
            Committed(next, d) && Receipt(next.ledger, d.evidenceId) == Receipt(db.ledger, d.evidenceId)
  {
    var next := Do(db, op).0;
    if |next.ledger| > |db.ledger| {
      ReceiptAppend(db.ledger, next.ledger[|db.ledger|], d.evidenceId);
    }
  }

  lemma {:induction false} CommittedForever(db: Db, d: Input, ops: seq<Op>)
    requires Committed(db, d)
    ensures var next := Run(db, ops).0;
            Committed(next, d) && Receipt(next.ledger, d.evidenceId) == Receipt(db.ledger, d.evidenceId)
    decreases |ops|
  {
    if ops != [] {
      CommittedStays(db, d, ops[0]);
      CommittedForever(Do(db, ops[0]).0, d, ops[1..]);
    }
  }

  // Delivering an already committed input again, any time later, changes no
  // state and no other reply, and returns the original result.
  lemma ReplayIsInvisible(db: Db, a: seq<Op>, d: Input, b: seq<Op>, c: seq<Op>)
    requires Apply(Run(db, a).0, d).1.Ok?
    ensures var original := Answered(Apply(Run(db, a).0, d).1);
            var head := Run(db, a + [Deliver(d)] + b);
            var tail := Run(head.0, c);
            Run(db, a + [Deliver(d)] + b + c) == (tail.0, head.1 + tail.1)
            && Run(db, a + [Deliver(d)] + b + [Deliver(d)] + c) == (tail.0, head.1 + [original] + tail.1)
  {
    var mid := Run(db, a).0;
    var head := Run(db, a + [Deliver(d)] + b);
    SuccessCommits(mid, d);
    RunAppend(db, a, [Deliver(d)]);
    RunAppend(db, a + [Deliver(d)], b);
    RunOne(mid, Deliver(d));
    CommittedForever(Apply(mid, d).0, d, b);
    RunAppend(db, a + [Deliver(d)] + b, c);
    RunAppend(db, a + [Deliver(d)] + b, [Deliver(d)]);
    RunAppend(db, a + [Deliver(d)] + b + [Deliver(d)], c);
    RunOne(head.0, Deliver(d));
  }

  lemma RunOne(db: Db, op: Op)
    ensures Run(db, [op]) == (Do(db, op).0, [Do(db, op).1])
  {
    assert [op][1..] == [] && [Do(db, op).1] + [] == [Do(db, op).1];
  }

  // The same evidence with any other input is refused without a write.
  lemma RemapIsRefused(db: Db, d: Input, ops: seq<Op>, other: Input)
    requires Apply(db, d).1.Ok? && other.evidenceId == d.evidenceId && other != d
    ensures var later := Run(Apply(db, d).0, ops).0;
            d.evidenceId in later.raw
            && Apply(later, other)
            == (later, Err(if ValidInput(other) && FitsEvidence(other, later.raw[d.evidenceId]) then Conflict else BadInput))
  {
    SuccessCommits(db, d);
    CommittedForever(Apply(db, d).0, d, ops);
  }
}
