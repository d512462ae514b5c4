// internal/order/evidence.go: the append-only table of channel events that the
// order projection reads. Times are nanoseconds since Go's zero time; a payload
// stands for its SHA-256 hash.
module OrderEvidence {
  import opened Wrappers
  import opened Text
  import opened Bytes
  import OrderProjection

  datatype Event = Event(channel: string, eventId: string, externalOrderId: string, eventType: string, occurredAt: int,
    payload: seq<byte>)

  datatype Evidence = Evidence(id: string, event: Event)

  type Key = (string, string)

  // Keyed by channel and event ID, which a unique constraint protects.
  type Table = map<Key, Evidence>

  datatype Error = BadEvent | Conflict | Storage

  // The stored evidence, and whether this call created it.
  type Outcome = Result<(Evidence, bool), Error>

  const MAX_PAYLOAD := 65536

  predicate ValidEvent(isObject: seq<byte> -> bool, e: Event)
  {
    e.channel in {"JD", "TB", "MT"} && e.eventType in {"ORDER", "REFUND"}
    && ValidLine(e.eventId, 128) && ValidLine(e.externalOrderId, 128) && e.occurredAt != 0
    && 0 < |e.payload| <= MAX_PAYLOAD && isObject(e.payload)
  }

  // The database keeps microseconds.
  function Kept(e: Event): Event
  {
    e.(occurredAt := e.occurredAt - e.occurredAt % 1000)
  }

  lemma KeptIsCut(e: Event)
    ensures Kept(e).occurredAt % 1000 == 0 && Kept(e).occurredAt <= e.occurredAt < Kept(e).occurredAt + 1000
    ensures Kept(e).(occurredAt := e.occurredAt) == e
  {
  }

  function KeyOf(e: Event): Key
  {
    (e.channel, e.eventId)
  }

  predicate Taken(rows: Table, id: string)
  {
    exists k | k in rows :: rows[k].id == id
  }

  // evidence.go:77-126, with the random ID `id`. A repeated event inserts
  // nothing; an ID that is taken breaks the primary key.
  function SaveSpec(isObject: seq<byte> -> bool, rows: Table, id: string, e: Event): (Outcome, Table)
  {
    if !ValidEvent(isObject, e) then (Err(BadEvent), rows)
    else if KeyOf(e) in rows then
      (if rows[KeyOf(e)].event == Kept(e) then Ok((rows[KeyOf(e)], false)) else Err(Conflict), rows)
    else if Taken(rows, id) then (Err(Storage), rows)
    else (Ok((Evidence(id, Kept(e)), true)), rows[KeyOf(e) := Evidence(id, Kept(e))])
  }

  class Store {
    var rows: Table

    constructor ()
      ensures rows == map[]
    {
      rows := map[];
    }

    method Save(isObject: seq<byte> -> bool, id: string, e: Event) returns (out: Outcome)
      modifies this
      ensures (out, rows) == SaveSpec(isObject, old(rows), id, e)
    {
      if !ValidEvent(isObject, e) {
        return Err(BadEvent);
      }
      var at := e.occurredAt - e.occurredAt % 1000;
      var created := KeyOf(e) !in rows;
      if created {
        if Taken(rows, id) {
          return Err(Storage);
        }
        rows := rows[KeyOf(e) := Evidence(id, e.(occurredAt := at))];
      }
      var stored := rows[KeyOf(e)];
      if stored.event.externalOrderId != e.externalOrderId || stored.event.eventType != e.eventType
         || stored.event.occurredAt != at || stored.event.payload != e.payload || KeyOf(stored.event) != KeyOf(e) {
        return Err(Conflict);
      }
      return Ok((stored, created));
    }
  }

  // ---- Any run of saves ----

  datatype Call = Call(id: string, event: Event)

  function Run(isObject: seq<byte> -> bool, rows: Table, calls: seq<Call>): (Table, seq<Outcome>)
    decreases |calls|
  {
    if calls == [] then (rows, [])
    else
      var before := Run(isObject, rows, calls[..|calls| - 1]);
      var last := calls[|calls| - 1];
      var (out, next) := SaveSpec(isObject, before.0, last.id, last.event);
      (next, before.1 + [out])
  }

  // Each row is kept under its own key, and no two share an ID.
  predicate Inv(rows: Table)
  {
    (forall k | k in rows :: KeyOf(rows[k].event) == k)
    && forall k, l | k in rows && l in rows && rows[k].id == rows[l].id :: k == l
  }

  lemma SaveKeeps(isObject: seq<byte> -> bool, rows: Table, id: string, e: Event)
    requires Inv(rows)
    ensures Inv(SaveSpec(isObject, rows, id, e).1)
  {
  }

  lemma {:induction false} RunKeeps(isObject: seq<byte> -> bool, calls: seq<Call>)
    ensures Inv(Run(isObject, map[], calls).0)
    decreases |calls|
  {
    if calls != [] {
      hide Inv, SaveSpec;
      var last := calls[|calls| - 1];
      RunKeeps(isObject, calls[..|calls| - 1]);
      SaveKeeps(isObject, Run(isObject, map[], calls[..|calls| - 1]).0, last.id, last.event);
    }
  }

  lemma {:induction false} RunPrefix(isObject: seq<byte> -> bool, rows: Table, calls: seq<Call>, n: nat)
    requires n <= |calls|
    ensures |Run(isObject, rows, calls).1| == |calls|
    ensures Run(isObject, rows, calls[..n]).1 == Run(isObject, rows, calls).1[..n]
    ensures Stays(Run(isObject, rows, calls[..n]).0, Run(isObject, rows, calls).0)
    decreases |calls|
  {
    if n == |calls| {
      assert calls[..n] == calls;
      if n > 0 {
        RunPrefix(isObject, rows, calls[..n - 1], n - 1);
      }
    } else {
      RunPrefix(isObject, rows, calls[..|calls| - 1], n);
      assert calls[..|calls| - 1][..n] == calls[..n];
    }
  }

  // Stored evidence is never replaced, changed or removed.
  predicate Stays(before: Table, after: Table)
  {
    forall k | k in before :: k in after && after[k] == before[k]
  }

  lemma EvidenceStays(isObject: seq<byte> -> bool, calls: seq<Call>, more: seq<Call>)
    ensures Stays(Run(isObject, map[], calls).0, Run(isObject, map[], calls + more).0)
  {
    RunPrefix(isObject, map[], calls + more, |calls|);
    assert (calls + more)[..|calls|] == calls;
  }

  // What the i-th call of a run from the empty table answered.
  function Answer(isObject: seq<byte> -> bool, calls: seq<Call>, i: nat): Outcome
    requires i < |calls|
  {
    RunPrefix(isObject, map[], calls, 0);
    Run(isObject, map[], calls).1[i]
  }

  lemma AnswerIs(isObject: seq<byte> -> bool, calls: seq<Call>, i: nat)
    requires i < |calls|
    ensures Answer(isObject, calls, i) == SaveSpec(isObject, Run(isObject, map[], calls[..i]).0, calls[i].id, calls[i].event).0
    ensures Run(isObject, map[], calls[..i + 1]).0
         == SaveSpec(isObject, Run(isObject, map[], calls[..i]).0, calls[i].id, calls[i].event).1
  {
    RunPrefix(isObject, map[], calls, i + 1);
    var upTo := calls[..i + 1];
    assert upTo[..i] == calls[..i] && upTo[i] == calls[i];
    RunPrefix(isObject, map[], calls[..i], 0);
  }

  // A success returns the row that is stored for good, with every field as sent
  // up to the microsecond.
  lemma SuccessIsStored(isObject: seq<byte> -> bool, calls: seq<Call>, i: nat)
    requires i < |calls| && Answer(isObject, calls, i).Ok?
    ensures var rows := Run(isObject, map[], calls).0; var k := KeyOf(calls[i].event);
            k in rows && Answer(isObject, calls, i).value.0 == rows[k] && rows[k].event == Kept(calls[i].event)
  {
    AnswerIs(isObject, calls, i);
    RunPrefix(isObject, map[], calls, i + 1);
    hide Run, SaveSpec, Answer, KeyOf, Kept;
    SaveReturns(isObject, Run(isObject, map[], calls[..i]).0, calls[i].id, calls[i].event);
  }

  lemma SaveReturns(isObject: seq<byte> -> bool, rows: Table, id: string, e: Event)
    requires SaveSpec(isObject, rows, id, e).0.Ok?
    ensures var (out, next) := SaveSpec(isObject, rows, id, e);
            KeyOf(e) in next && out.value.0 == next[KeyOf(e)] && next[KeyOf(e)].event == Kept(e)
  {
    hide ValidEvent, Taken, Kept, KeyOf;
  }

  // Two successes name the same evidence exactly when they were for the same
  // event of the same channel, and then order, type, time and payload agree.
  lemma SuccessesAgree(isObject: seq<byte> -> bool, calls: seq<Call>, i: nat, j: nat)
    requires i < |calls| && j < |calls| && Answer(isObject, calls, i).Ok? && Answer(isObject, calls, j).Ok?
    ensures var a, b := Answer(isObject, calls, i).value.0, Answer(isObject, calls, j).value.0;
            (a.id == b.id <==> KeyOf(calls[i].event) == KeyOf(calls[j].event))
            && (a.id == b.id ==> Kept(calls[i].event) == Kept(calls[j].event))
  {
    SuccessIsStored(isObject, calls, i);
    SuccessIsStored(isObject, calls, j);
    RunKeeps(isObject, calls);
  }

  predicate Saved(isObject: seq<byte> -> bool, calls: seq<Call>, n: nat, k: Key)
    requires n <= |calls|
  {
    exists i | 0 <= i < n :: KeyOf(calls[i].event) == k && Answer(isObject, calls, i).Ok?
  }

  lemma {:induction false} StoredIffSaved(isObject: seq<byte> -> bool, calls: seq<Call>, n: nat, k: Key)
    requires n <= |calls|
    ensures k in Run(isObject, map[], calls[..n]).0 <==> Saved(isObject, calls, n, k)
    decreases n
  {
    if n > 0 {
      StoredIffSaved(isObject, calls, n - 1, k);
      AnswerIs(isObject, calls, n - 1);
      SavedNext(isObject, calls, n - 1, k);
      hide *;
      SaveAdds(isObject, Run(isObject, map[], calls[..n - 1]).0, calls[n - 1].id, calls[n - 1].event, k);
    } else {
      assert calls[..0] == [];
    }
  }

  lemma SavedNext(isObject: seq<byte> -> bool, calls: seq<Call>, n: nat, k: Key)
    requires n < |calls|
    ensures Saved(isObject, calls, n + 1, k)
        <==> Saved(isObject, calls, n, k) || (KeyOf(calls[n].event) == k && Answer(isObject, calls, n).Ok?)
  {
    hide Answer, KeyOf;
  }

  lemma SaveAdds(isObject: seq<byte> -> bool, rows: Table, id: string, e: Event, k: Key)
    ensures var (out, next) := SaveSpec(isObject, rows, id, e); k in next <==> k in rows || (KeyOf(e) == k && out.Ok?)
  {
    hide ValidEvent, Taken;
  }

  // A success reports that it created the evidence exactly when no call before it
  // succeeded for the event.
  lemma CreatedOnce(isObject: seq<byte> -> bool, calls: seq<Call>, i: nat)
    requires i < |calls| && Answer(isObject, calls, i).Ok?
    ensures Answer(isObject, calls, i).value.1 <==> !Saved(isObject, calls, i, KeyOf(calls[i].event))
  {
    AnswerIs(isObject, calls, i);
    StoredIffSaved(isObject, calls, i, KeyOf(calls[i].event));
  }

  // Once an event is saved, a valid repeat is answered with it, without a write,
  // exactly when no field differs; otherwise it is a conflict.
  lemma RepeatAgreesOrConflicts(isObject: seq<byte> -> bool, calls: seq<Call>, i: nat, id: string, e: Event)
    requires i < |calls| && Answer(isObject, calls, i).Ok? && KeyOf(e) == KeyOf(calls[i].event) && ValidEvent(isObject, e)
    ensures var rows := Run(isObject, map[], calls).0;
            SaveSpec(isObject, rows, id, e)
            == (if Kept(e) == Kept(calls[i].event) then Ok((Answer(isObject, calls, i).value.0, false)) else Err(Conflict), rows)
  {
    SuccessIsStored(isObject, calls, i);
  }

  // ---- What the projection sees of it ----

  function RawOf(e: Event): OrderProjection.RawEvent
  {
    OrderProjection.RawEvent((e.channel, e.externalOrderId),
      if e.eventType == "ORDER" then OrderProjection.OrderEvent else OrderProjection.RefundEvent, e.occurredAt)
  }

  function RawTable(rows: Table): map<string, OrderProjection.RawEvent>
    requires Inv(rows)
  {
    map k | k in rows :: rows[k].id := RawOf(rows[k].event)
  }

  // For the projection a save that creates evidence is the arrival of one event
  // under a new ID, and any other save is nothing.
  lemma SaveFeedsProjection(isObject: seq<byte> -> bool, rows: Table, id: string, e: Event, db: OrderProjection.Db)
    requires Inv(rows) && db.raw == RawTable(rows)
    ensures var (out, next) := SaveSpec(isObject, rows, id, e);
            Inv(next)
            && if out.Ok? && out.value.1 then
                 id !in db.raw && RawTable(next) == OrderProjection.SaveEvent(db, id, RawOf(Kept(e))).raw
               else RawTable(next) == db.raw
  {
    SaveKeeps(isObject, rows, id, e);
    hide ValidEvent, Inv, RawTable;
    if SaveSpec(isObject, rows, id, e).1 != rows {
      RawInsert(rows, KeyOf(e), Evidence(id, Kept(e)));
    }
  }

  lemma RawInsert(rows: Table, k: Key, v: Evidence)
    requires k !in rows && !Taken(rows, v.id) && Inv(rows) && Inv(rows[k := v])
    ensures v.id !in RawTable(rows) && RawTable(rows[k := v]) == RawTable(rows)[v.id := RawOf(v.event)]
  {
    var next := rows[k := v];
    hide RawOf, Inv;
    forall l | l in rows
      ensures rows[l].id in RawTable(next) && RawTable(next)[rows[l].id] == RawTable(rows)[rows[l].id]
    {
      assert next[l] == rows[l];
    }
    assert RawTable(next)[v.id] == RawOf(v.event) by { assert next[k] == v; }
  }
}
