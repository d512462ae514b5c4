// Convert and Reserve in their own imperative form. Between any two statements
// of Convert, `Interfere` lets every other caller, worker and administrator
// act; the ghost `history` records what happened to the tables.
module ReservationDesk {
  import opened Wrappers
  import opened Text
  import opened ConversionStore
  import Protocol = ConversionProtocol
  import ConversionSafety
  import opened Reservation

  // The clock readings and outside answers of one Convert, in the order it asks.
  datatype Reply = Reply(previewAt: int, quote: Option<Protocol.Quote>, quoteAt: int, draw: Draw, checkedAt: int,
      reservedAt: int)

  // preview.PostgresEligibility.Check with eligibilityError.
  function CheckSpec(db: Db, owner: string, positionId: string): Result<Protocol.ChannelPosition, Error>
  {
    if positionId !in db.positions || db.positions[positionId].owner != owner || owner !in db.members then Err(PositionClosed)
    else if !db.members[owner] then Err(NotEnabled)
    else if !db.positions[positionId].enabled then Err(PositionClosed)
    else if positionId !in db.mappings || !db.mappings[positionId].ready then Err(NotReady)
    else Ok(Protocol.ChannelPosition(db.mappings[positionId].accountId, db.mappings[positionId].externalPositionId))
  }

  // Owner and position are ENABLED and the mapping of the position is READY.
  predicate EligibleIn(db: Db, owner: string, positionId: string)
  {
    owner in db.members && db.members[owner]
    && positionId in db.positions && db.positions[positionId] == Position(owner, true)
    && positionId in db.mappings && db.mappings[positionId].ready
  }

  // The check passes exactly then, and gives the account and external position.
  lemma ChecksEligibility(db: Db, owner: string, positionId: string)
    ensures CheckSpec(db, owner, positionId).Ok? <==> EligibleIn(db, owner, positionId)
    ensures CheckSpec(db, owner, positionId).Ok? ==>
              var channel := CheckSpec(db, owner, positionId).value;
              positionId in db.mappings && db.mappings[positionId] == Mapping(true, channel.accountId, channel.externalPositionId)
    ensures CheckSpec(db, owner, positionId).Err? ==> Refuses(db, owner, positionId, CheckSpec(db, owner, positionId).error)
  {
  }

  // Which fault of owner, position or mapping an error names.
  predicate Refuses(db: Db, owner: string, positionId: string, e: Error)
  {
    match e
    case NotEnabled => !(owner in db.members && db.members[owner])
    case PositionClosed => owner !in db.members || positionId !in db.positions || db.positions[positionId] != Position(owner, true)
    case NotReady => positionId !in db.mappings || !db.mappings[positionId].ready
    case _ => false
  }

  // The preview of this input is in force and the quote repeats its terms.
  predicate PricedIn(db: Db, input: ConvertInput, reply: Reply)
  {
    input.previewId in db.previews && db.previews[input.previewId].owner == input.owner
    && var p := db.previews[input.previewId].snapshot;
    p.positionId == input.positionId && p.scene == input.scene && p.channel == "JD" && reply.previewAt < p.expiresAt
    && reply.quote.Some? && reply.quote.value.terms == p.terms && reply.quoteAt < reply.quote.value.expiresAt
  }

  // In the course of the call the owner was eligible, then the price was right, and
  // then the owner was eligible again.
  ghost predicate Prepared(past: seq<Event>, present: seq<Event>, input: ConvertInput, reply: Reply)
  {
    exists a, b, c :: past <= a <= b <= c <= present && WasPrepared(a, b, c, input, reply)
  }

  ghost predicate WasPrepared(a: seq<Event>, b: seq<Event>, c: seq<Event>, input: ConvertInput, reply: Reply)
  {
    Run(NOTHING, a).Some? && EligibleIn(Run(NOTHING, a).value, input.owner, input.positionId)
    && Run(NOTHING, b).Some? && PricedIn(Run(NOTHING, b).value, input, reply)
    && Run(NOTHING, c).Some? && EligibleIn(Run(NOTHING, c).value, input.owner, input.positionId)
  }

  // Why the call may fail with this error, by the tables as they are now and as they
  // were when the channel position was read.
  ghost predicate Cause(early: Db, db: Db, input: ConvertInput, reply: Reply, e: Error)
  {
    Refuses(db, input.owner, input.positionId, e)
    || match e
       case Invalid =>
         !ValidInput(input)
         || (input.positionId in early.mappings
             && !(ValidText(early.mappings[input.positionId].accountId, 128)
                  && ValidText(early.mappings[input.positionId].externalPositionId, 128)))
       case IdempotencyConflict =>
         (input.owner, input.key) in db.requests && db.requests[(input.owner, input.key)].fingerprint != FingerprintOf(input)
       case NotReady =>
         input.positionId in early.mappings && input.positionId in db.mappings
         && early.mappings[input.positionId] != db.mappings[input.positionId]
       case PreviewMissing =>
         !(input.previewId in db.previews && db.previews[input.previewId].owner == input.owner
           && db.previews[input.previewId].snapshot.positionId == input.positionId
           && db.previews[input.previewId].snapshot.scene == input.scene
           && db.previews[input.previewId].snapshot.channel == "JD")
       case Expired =>
         input.previewId in db.previews
         && var end := db.previews[input.previewId].snapshot.expiresAt;
         end <= reply.previewAt || end <= reply.checkedAt || end <= reply.reservedAt
       case PriceChanged =>
         reply.quote.Some? && input.previewId in db.previews
         && (reply.quote.value.terms != db.previews[input.previewId].snapshot.terms || reply.quote.value.expiresAt <= reply.quoteAt)
       case Unavailable => reply.quote.None? || Taken(db, reply.draw)
       case _ => false
  }

  // At some moment of the call the tables gave cause for this error.
  ghost predicate Explained(past: seq<Event>, present: seq<Event>, input: ConvertInput, reply: Reply, e: Error)
  {
    exists g, h :: past <= g <= h <= present && GaveCause(g, h, input, reply, e)
  }

  ghost predicate GaveCause(g: seq<Event>, h: seq<Event>, input: ConvertInput, reply: Reply, e: Error)
  {
    Run(NOTHING, g).Some? && Run(NOTHING, h).Some? && Cause(Run(NOTHING, g).value, Run(NOTHING, h).value, input, reply, e)
  }

  lemma ReserveBlames(early: Db, db: Db, input: ReserveInput, reply: Reply)
    requires ValidInput(input.input) && input.fingerprint == FingerprintOf(input.input) && reply.quote.Some?
    requires input.input.positionId in early.mappings
             && early.mappings[input.input.positionId]
                == Mapping(true, input.channel.accountId, input.channel.externalPositionId)
    requires ReserveSpec(db, input, reply.draw, reply.checkedAt, reply.reservedAt).0.Err?
    ensures Cause(early, db, input.input, reply, ReserveSpec(db, input, reply.draw, reply.checkedAt, reply.reservedAt).0.error)
  {
    hide Taken, ValidText;
  }

  lemma InputBlamed(db: Db, input: ConvertInput, reply: Reply)
    ensures !ValidInput(input) ==> Cause(db, db, input, reply, Invalid)
    ensures (input.owner, input.key) in db.requests
            && db.requests[(input.owner, input.key)].fingerprint != FingerprintOf(input) ==>
              Cause(db, db, input, reply, IdempotencyConflict)
  {
  }

  lemma CheckBlamed(db: Db, input: ConvertInput, reply: Reply)
    ensures var out := CheckSpec(db, input.owner, input.positionId); out.Err? ==> Cause(db, db, input, reply, out.error)
  {
    ChecksEligibility(db, input.owner, input.positionId);
  }

  // What Convert finds out about preview and quote.
  lemma PriceBlamed(db: Db, input: ConvertInput, reply: Reply)
    ensures !(input.previewId in db.previews && db.previews[input.previewId].owner == input.owner) ==>
              Cause(db, db, input, reply, PreviewMissing)
    ensures reply.quote.None? ==> Cause(db, db, input, reply, Unavailable)
    ensures input.previewId in db.previews && db.previews[input.previewId].owner == input.owner ==>
              var p := db.previews[input.previewId].snapshot;
              if p.positionId != input.positionId || p.scene != input.scene || p.channel != "JD" then
                Cause(db, db, input, reply, PreviewMissing)
              else if p.expiresAt <= reply.previewAt then Cause(db, db, input, reply, Expired)
              else if reply.quote.Some? && (reply.quote.value.terms != p.terms || reply.quote.value.expiresAt <= reply.quoteAt) then
                Cause(db, db, input, reply, PriceChanged)
              else reply.quote.Some? ==> PricedIn(db, input, reply)
  {
    hide ValidInput, Taken;
  }

  lemma CheckedIsMember(db: Db, owner: string, positionId: string)
    ensures CheckSpec(db, owner, positionId).Ok? ==> Member(db, owner)
  {
  }

  lemma RunExtend(db: Db, es: seq<Event>, last: Db, e: Event, caller: nat)
    requires Run(db, es) == Some(last) && Step(last, e).Some?
    ensures Run(db, es + [e]) == Step(last, e)
    ensures Inserted(db, es + [e], caller)
            == Inserted(db, es, caller) + if e.Reserve? && e.caller == caller && Step(last, e).value != last then 1 else 0
  {
    RunAppend(db, es, [e], caller);
    assert [e][1..] == [];
    assert Run(Step(last, e).value, []) == Some(Step(last, e).value);
    assert Inserted(last, [e], caller)
           == if e.Reserve? && e.caller == caller && Step(last, e).value != last then 1 else 0;
  }

  class Desk {
    var members: map<string, bool>
    var positions: map<string, Position>
    var previews: map<string, Preview>
    var mappings: map<string, Mapping>
    var requests: map<Key, Request>
    var tracking: map<string, Tracking>
    ghost var history: seq<Event>

    function View(): Db
      reads this
    {
      Db(members, positions, previews, mappings, requests, tracking)
    }

    ghost predicate Valid()
      reads this
    {
      Run(NOTHING, history) == Some(View())
    }

    ghost function Rows(caller: nat): nat
      requires Valid()
      reads this
    {
      Inserted(NOTHING, history, caller)
    }

    constructor ()
      ensures View() == NOTHING && Valid()
    {
      members, positions, previews, mappings, requests, tracking := map[], map[], map[], map[], map[], map[];
      history := [];
    }

    // repository.go:96-203
    method Reserve(input: ReserveInput, draw: Draw, checkedAt: int, reservedAt: int) returns (out: Result<Request, Error>)
      modifies this`requests, this`tracking
      ensures (out, View()) == ReserveSpec(old(View()), input, draw, checkedAt, reservedAt)
    {
      hide ValidText, Taken, ValidReserve;
      if !ValidReserve(input) {
        return Err(Invalid);
      }
      var owner := input.input.owner;
      if owner !in members || !members[owner] {
        return Err(NotEnabled);
      }
      var k := (owner, input.input.key);
      if k in requests {
        var prior := requests[k];
        if prior.fingerprint != input.fingerprint {
          return Err(IdempotencyConflict);
        }
        return Ok(prior);
      }
      var positionId := input.input.positionId;
      if positionId !in positions || positions[positionId].owner != owner || !positions[positionId].enabled {
        return Err(PositionClosed);
      }
      var previewId := input.input.previewId;
      if previewId !in previews || previews[previewId].owner != owner
        || previews[previewId].snapshot.positionId != positionId {
        return Err(PreviewMissing);
      }
      var snapshot := previews[previewId].snapshot;
      if input.input.scene != snapshot.scene {
        return Err(PreviewMissing);
      }
      if !(snapshot.expiresAt > checkedAt) {
        return Err(Expired);
      }
      if positionId !in mappings || !mappings[positionId].ready || mappings[positionId].accountId != input.channel.accountId
         || mappings[positionId].externalPositionId != input.channel.externalPositionId {
        return Err(NotReady);
      }
      if !(snapshot.expiresAt > reservedAt) {
        return Err(Expired);
      }
      out := Insert(input, draw, snapshot.terms.externalProductId, reservedAt);
    }

    // Both insertions and the commit; a taken ID breaks a unique index.
    method Insert(input: ReserveInput, draw: Draw, productId: string, at: int) returns (out: Result<Request, Error>)
      modifies this`requests, this`tracking
      ensures Taken(old(View()), draw) ==> out == Err(Unavailable) && View() == old(View())
      ensures !Taken(old(View()), draw) ==>
                var r := NewRequest(input, draw, at);
                out == Ok(r) && requests == old(requests)[(input.input.owner, input.input.key) := r]
                && tracking == old(tracking)[TrackingKey(r.record.id) := Tracking(r.record.trackingId,
                  input.input.owner, productId, at)]
    {
      var record := Record(ConversionId(draw), input.input.owner, input.input.positionId, input.input.previewId,
        TrackingId(draw), input.input.scene, Pending, 1, 0, None, None, None, None);
      var row := Tracking(record.trackingId, input.input.owner, productId, at);
      if TrackingKey(record.id) in tracking || (exists t :: t in tracking && tracking[t].id == record.trackingId)
         || (exists q :: q in requests && requests[q].record.id == record.id) {
        return Err(Unavailable);
      }
      tracking := tracking[TrackingKey(record.id) := row];
      var request := Request(record, input.fingerprint, at);
      requests := requests[(input.input.owner, input.input.key) := request];
      return Ok(request);
    }

    method Check(owner: string, positionId: string) returns (out: Result<Protocol.ChannelPosition, Error>)
      ensures out == CheckSpec(View(), owner, positionId)
    {
      if positionId !in positions || positions[positionId].owner != owner || owner !in members {
        return Err(PositionClosed);
      }
      if !members[owner] {
        return Err(NotEnabled);
      }
      if !positions[positionId].enabled {
        return Err(PositionClosed);
      }
      if positionId !in mappings || !mappings[positionId].ready {
        return Err(NotReady);
      }
      return Ok(Protocol.ChannelPosition(mappings[positionId].accountId, mappings[positionId].externalPositionId));
    }

    // ---- Everybody else ----

    // Applies one event of the outside world.
    ghost method Suffer(caller: nat, e: Event)
      requires Valid() && Step(View(), e).Some? && !(e.Reserve? && e.caller == caller)
      modifies this`history
      ensures history == old(history) + [e] && Run(NOTHING, history) == Step(old(View()), e)
      ensures Inserted(NOTHING, history, caller) == old(Rows(caller))
    {
      RunExtend(NOTHING, history, View(), e, caller);
      history := history + [e];
    }

    method Interfere(caller: nat, others: seq<Event>)
      requires Valid()
      modifies this
      ensures Valid() && old(history) <= history && Rows(caller) == old(Rows(caller))
    {
      hide Valid, Step, Run, Inserted;
      var i := 0;
      while i < |others|
        invariant 0 <= i <= |others|
        invariant Valid() && old(history) <= history && Rows(caller) == old(Rows(caller))
      {
        Admit(caller, others[i]);
        i := i + 1;
      }
    }

    // An event that cannot happen now does not.
    method Admit(caller: nat, e: Event)
      requires Valid()
      modifies this
      ensures Valid() && old(history) <= history && Rows(caller) == old(Rows(caller))
    {
      match e
      case Edit(m, p, v, c) =>
        if Storable(p, v) {
          Suffer(caller, e);
          members, positions, previews, mappings := m, p, v, c;
        }
      case Work(k, next) =>
        if k in requests && ConversionSafety.SameRequest(requests[k].record, next) {
          Suffer(caller, e);
          requests := requests[k := requests[k].(record := next)];
        }
      case AddTracking(k, row) =>
        if CanAdd(tracking, k, row) {
          Suffer(caller, e);
          tracking := tracking[k := row];
        }
      case Reserve(other, input, draw, checkedAt, reservedAt) =>
        if other != caller && input.fingerprint == FingerprintOf(input.input) {
          Suffer(caller, e);
          var _ := Reserve(input, draw, checkedAt, reservedAt);
        }
    }

    // ---- service.go ----

    // What the caller of Convert can rely on: a success is the request stored
    // under its key, for exactly this input, and its owner is ENABLED; a
    // failure inserted nothing and a success at most one row.
    ghost predicate Served(past: seq<Event>, caller: nat, before: nat, input: ConvertInput, out: Result<Request, Error>)
      reads this
    {
      Valid() && past <= history && before <= Rows(caller)
      && match out
         case Ok(r) => Answers(View(), input, r) && Member(View(), input.owner) && Rows(caller) <= before + 1
         case Err(_) => Rows(caller) == before
    }

    // service.go:49-113
    method Convert(caller: nat, input: ConvertInput, reply: Reply, others: nat -> seq<Event>)
        returns (out: Result<Request, Error>)
      requires Valid()
      modifies this
      ensures Served(old(history), caller, old(Rows(caller)), input, out)
      ensures Rows(caller) > old(Rows(caller)) ==> Prepared(old(history), history, input, reply)
      ensures out.Err? ==> Explained(old(history), history, input, reply, out.error)
    {
      hide ValidText, Step, Run, Inserted, CheckSpec, Cause, EligibleIn, PricedIn, Prepared, Explained;
      if !ValidInput(input) {
        InputBlamed(View(), input, reply);
        Blame(old(history), input, reply, Invalid);
        return Err(Invalid);
      }
      var fingerprint := "\0" + input.positionId + "\0" + input.previewId + "\0" + input.scene;
      var k := (input.owner, input.key);
      if k in requests {
        var prior := requests[k];
        if prior.fingerprint != fingerprint {
          InputBlamed(View(), input, reply);
          Blame(old(history), input, reply, IdempotencyConflict);
          return Err(IdempotencyConflict);
        }
        ghost var h := history;
        StoredAnswers(input, prior);
        Interfere(caller, others(0));
        AnswersStay(h, input, prior);
        var verdict := Check(input.owner, input.positionId);
        CheckedIsMember(View(), input.owner, input.positionId);
        if verdict.Err? {
          CheckBlamed(View(), input, reply);
          Blame(old(history), input, reply, verdict.error);
        }
        return if verdict.Err? then Err(verdict.error) else Ok(prior);
      }
      out := ConvertNew(caller, input, reply, others);
    }

    // service.go:70-113: no request was found under the key.
    method ConvertNew(caller: nat, input: ConvertInput, reply: Reply, others: nat -> seq<Event>)
        returns (out: Result<Request, Error>)
      requires Valid() && ValidInput(input)
      modifies this
      ensures Served(old(history), caller, old(Rows(caller)), input, out)
      ensures Rows(caller) > old(Rows(caller)) ==> Prepared(old(history), history, input, reply)
      ensures out.Err? ==> Explained(old(history), history, input, reply, out.error)
    {
      hide Valid, Run, Step, Inserted, Cause, EligibleIn, PricedIn, Prepared, Explained, Served, CheckSpec, ReserveSpec;
      hide ValidText, ValidInput;
      Interfere(caller, others(1));
      ghost var a := history;
      ghost var early := View();
      Recorded();
      var position := Check(input.owner, input.positionId);
      ChecksEligibility(View(), input.owner, input.positionId);
      if position.Err? {
        CheckBlamed(View(), input, reply);
        Blame(old(history), input, reply, position.error);
        Failed(caller, old(history), old(Rows(caller)), input, position.error);
        return Err(position.error);
      }
      Interfere(caller, others(2));
      ghost var b := history;
      Recorded();
      var fault := Inspect(input, reply);
      if fault.Some? {
        Blame(old(history), input, reply, fault.value);
        Failed(caller, old(history), old(Rows(caller)), input, fault.value);
        return Err(fault.value);
      }
      Interfere(caller, others(3));
      ghost var c := history;
      Recorded();
      var again := Check(input.owner, input.positionId);
      ChecksEligibility(View(), input.owner, input.positionId);
      if again.Err? {
        CheckBlamed(View(), input, reply);
        Blame(old(history), input, reply, again.error);
        Failed(caller, old(history), old(Rows(caller)), input, again.error);
        return Err(again.error);
      }
      Interfere(caller, others(4));
      ghost var h := history;
      ghost var db := View();
      Recorded();
      out := Book(caller, ReserveInput(input, FingerprintOf(input), position.value), reply);
      ServedSooner(old(history), h, caller, old(Rows(caller)), input, out);
      PreparedBy(old(history), a, b, c, input, reply);
      if out.Err? {
        ReserveBlames(early, db, ReserveInput(input, FingerprintOf(input), position.value), reply);
        BlameEarlier(old(history), a, h, input, reply, out.error);
      }
    }

    lemma Recorded()
      requires Valid()
      ensures Run(NOTHING, history) == Some(View())
    {
    }

    lemma ServedSooner(past: seq<Event>, mid: seq<Event>, caller: nat, before: nat, input: ConvertInput, out: Result<Request, Error>)
      requires past <= mid && Served(mid, caller, before, input, out)
      ensures Served(past, caller, before, input, out)
    {
    }

    lemma PreparedBy(past: seq<Event>, a: seq<Event>, b: seq<Event>, c: seq<Event>, input: ConvertInput, reply: Reply)
      requires past <= a <= b <= c <= history && WasPrepared(a, b, c, input, reply)
      ensures Prepared(past, history, input, reply)
    {
    }

    lemma BlameEarlier(past: seq<Event>, g: seq<Event>, h: seq<Event>, input: ConvertInput, reply: Reply, e: Error)
      requires past <= g <= h <= history && GaveCause(g, h, input, reply, e)
      ensures Explained(past, history, input, reply, e)
    {
      hide GaveCause;
    }

    // Reads the preview and asks for a quote; the fault found, if any.
    method Inspect(input: ConvertInput, reply: Reply) returns (fault: Option<Error>)
      ensures if fault.Some? then Cause(View(), View(), input, reply, fault.value)
              else reply.quote.Some? && PricedIn(View(), input, reply)
    {
      PriceBlamed(View(), input, reply);
      hide Cause, PricedIn;
      if input.previewId !in previews || previews[input.previewId].owner != input.owner {
        return Some(PreviewMissing);
      }
      var snapshot := previews[input.previewId].snapshot;
      if snapshot.positionId != input.positionId || snapshot.scene != input.scene || snapshot.channel != "JD" {
        return Some(PreviewMissing);
      }
      if !(snapshot.expiresAt > reply.previewAt) {
        return Some(Expired);
      }
      if reply.quote.None? {
        return Some(Unavailable);
      }
      if !Protocol.QuoteMatches(snapshot, reply.quote.value, reply.quoteAt) {
        return Some(PriceChanged);
      }
      return None;
    }

    lemma Blame(past: seq<Event>, input: ConvertInput, reply: Reply, e: Error)
      requires Valid() && past <= history && Cause(View(), View(), input, reply, e)
      ensures Explained(past, history, input, reply, e)
    {
      hide Run, Cause;
      assert GaveCause(history, history, input, reply, e);
    }

    lemma Failed(caller: nat, past: seq<Event>, before: nat, input: ConvertInput, e: Error)
      requires Valid() && past <= history && Rows(caller) == before
      ensures Served(past, caller, before, input, Err(e))
    {
    }

    // The call of Reserve that ends Convert.
    method Book(caller: nat, input: ReserveInput, reply: Reply) returns (out: Result<Request, Error>)
      requires Valid() && input.fingerprint == FingerprintOf(input.input)
      modifies this
      ensures old(history) <= history
      ensures Served(old(history), caller, old(Rows(caller)), input.input, out)
      ensures (out, View()) == ReserveSpec(old(View()), input, reply.draw, reply.checkedAt, reply.reservedAt)
    {
      hide ValidReserve, Taken, Inserted, Run;
      ghost var e := Event.Reserve(caller, input, reply.draw, reply.checkedAt, reply.reservedAt);
      ghost var before := View();
      RunExtend(NOTHING, history, before, e, caller);
      history := history + [e];
      out := Reserve(input, reply.draw, reply.checkedAt, reply.reservedAt);
      if out.Ok? {
        StoredAnswers(input.input, out.value);
      }
    }

    lemma StoredAnswers(input: ConvertInput, r: Request)
      requires Valid() && (input.owner, input.key) in requests && requests[(input.owner, input.key)] == r
      requires r.fingerprint == FingerprintOf(input)
      ensures Answers(View(), input, r)
    {
      Reachable(history);
      assert RequestOk((input.owner, input.key), r, tracking);
      SameFingerprint(r.record.positionId, r.record.previewId, r.record.scene, input.positionId, input.previewId,
        input.scene);
    }

    lemma AnswersStay(past: seq<Event>, input: ConvertInput, r: Request)
      requires Valid() && past <= history && Run(NOTHING, past).Some? && Answers(Run(NOTHING, past).value, input, r)
      ensures Answers(View(), input, r)
    {
      var rest := history[|past|..];
      assert history == past + rest;
      RunAppend(NOTHING, past, rest, 0);
      KeysStay(Run(NOTHING, past).value, rest, (input.owner, input.key));
    }
  }
}
