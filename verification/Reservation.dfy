// internal/conversion/repository.go (Reserve) and service.go (Convert): an
// idempotent reservation that inserts one conversion request together with its
// Tracking row, and the replay and requote that precede it. Tables are keyed by
// their unique columns. A fingerprint stands for its SHA-256 pre-image.
module Reservation {
  import opened Wrappers
  import opened Text
  import opened NulJoined
  import opened ConversionStore
  import opened ConversionProtocol
  import opened ConversionSafety

  datatype Position = Position(owner: string, enabled: bool)

  datatype Mapping = Mapping(ready: bool, accountId: string, externalPositionId: string)

  datatype Preview = Preview(owner: string, snapshot: Snapshot)

  datatype Tracking = Tracking(id: string, userId: string, productId: string, createdAt: int)

  datatype Request = Request(record: Record, fingerprint: string, createdAt: int)

  type Key = (string, string)

  // Requests by (owner, idempotency key), Tracking rows by idempotency key,
  // JD mappings by position.
  datatype Db = Db(members: map<string, bool>, positions: map<string, Position>, previews: map<string, Preview>,
    mappings: map<string, Mapping>, requests: map<Key, Request>, tracking: map<string, Tracking>)

  datatype ConvertInput = ConvertInput(owner: string, positionId: string, previewId: string, scene: string, key: string)

  datatype ReserveInput = ReserveInput(input: ConvertInput, fingerprint: string, channel: ChannelPosition)

  // Sixteen random bytes as hexadecimal digits.
  type Random = digits: seq<nat> | |digits| == 32 && forall i | 0 <= i < 32 :: digits[i] < 16 witness seq(32, _ => 0)

  datatype Draw = Draw(conversion: Random, tracking: Random)

  const HEX := "0123456789abcdef"

  function Hex(digits: seq<nat>): (s: string)
    requires forall i | 0 <= i < |digits| :: digits[i] < 16
    ensures |s| == |digits| && forall i | 0 <= i < |s| :: s[i] in HEX
  {
    seq(|digits|, i requires 0 <= i < |digits| => HEX[digits[i]])
  }

  function ConversionId(draw: Draw): string
  {
    "CR-" + Hex(draw.conversion)
  }

  function TrackingId(draw: Draw): string
  {
    "TR-" + Hex(draw.tracking)
  }

  function TrackingKey(conversionId: string): string
  {
    "conversion:" + conversionId
  }

  // service.go:58-62: each part is preceded by a NUL byte.
  function Fingerprint(positionId: string, previewId: string, scene: string): string
  {
    "\0" + positionId + "\0" + previewId + "\0" + scene
  }

  function FingerprintOf(input: ConvertInput): string
  {
    Fingerprint(input.positionId, input.previewId, input.scene)
  }

  predicate ValidInput(input: ConvertInput)
  {
    ValidText(input.owner, 128) && ValidText(input.positionId, 128) && ValidText(input.previewId, 128)
    && ValidText(input.scene, 80) && ValidText(input.key, 128)
  }

  predicate ValidReserve(input: ReserveInput)
  {
    ValidInput(input.input) && ValidText(input.channel.accountId, 128) && ValidText(input.channel.externalPositionId, 128)
  }

  // ---- Reserve ----

  predicate Member(db: Db, owner: string)
  {
    owner in db.members && db.members[owner]
  }

  predicate OpenPosition(db: Db, positionId: string, owner: string)
  {
    positionId in db.positions && db.positions[positionId].owner == owner && db.positions[positionId].enabled
  }

  predicate HasPreview(db: Db, input: ConvertInput)
  {
    input.previewId in db.previews && db.previews[input.previewId].owner == input.owner
    && db.previews[input.previewId].snapshot.positionId == input.positionId
  }

  predicate ReadyMapping(db: Db, positionId: string, channel: ChannelPosition)
  {
    positionId in db.mappings && db.mappings[positionId].ready
    && db.mappings[positionId].accountId == channel.accountId
    && db.mappings[positionId].externalPositionId == channel.externalPositionId
  }

  // A unique index of either table refuses the drawn IDs.
  ghost predicate Taken(db: Db, draw: Draw)
  {
    (exists k :: k in db.requests && db.requests[k].record.id == ConversionId(draw))
    || (exists k :: k in db.tracking && db.tracking[k].id == TrackingId(draw))
    || TrackingKey(ConversionId(draw)) in db.tracking
  }

  function NewRequest(input: ReserveInput, draw: Draw, at: int): Request
  {
    Request(Record(ConversionId(draw), input.input.owner, input.input.positionId, input.input.previewId, TrackingId(draw),
                   input.input.scene, Pending, 1, 0, None, None, None, None),
            input.fingerprint, at)
  }

  ghost function ReserveSpec(db: Db, input: ReserveInput, draw: Draw, checkedAt: int,
      reservedAt: int): (Result<Request, Error>, Db)
  {
    var k := (input.input.owner, input.input.key);
    if !ValidReserve(input) then (Err(Invalid), db)
    else if !Member(db, input.input.owner) then (Err(NotEnabled), db)
    else if k in db.requests then
      (if db.requests[k].fingerprint == input.fingerprint then Ok(db.requests[k]) else Err(IdempotencyConflict), db)
    else if !OpenPosition(db, input.input.positionId, input.input.owner) then (Err(PositionClosed), db)
    else if !HasPreview(db, input.input) || db.previews[input.input.previewId].snapshot.scene != input.input.scene then
      (Err(PreviewMissing), db)
    else
      var preview := db.previews[input.input.previewId].snapshot;
      if !(preview.expiresAt > checkedAt) then (Err(Expired), db)
      else if !ReadyMapping(db, input.input.positionId, input.channel) then (Err(NotReady), db)
      else if !(preview.expiresAt > reservedAt) then (Err(Expired), db)
      else if Taken(db, draw) then (Err(Unavailable), db)
      else
        var request := NewRequest(input, draw, reservedAt);
        (Ok(request),
         db.(requests := db.requests[k := request],
             tracking := db.tracking[TrackingKey(request.record.id) :=
                           Tracking(request.record.trackingId, input.input.owner, preview.terms.externalProductId,
                             reservedAt)]))
  }

  // ---- Everything that can happen to these tables ----

  datatype Event =
    | Edit(members: map<string, bool>, positions: map<string, Position>, previews: map<string, Preview>,
           mappings: map<string, Mapping>)
    | Work(key: Key, next: Record)
    | AddTracking(trackingKey: string, row: Tracking)
    | Reserve(caller: nat, input: ReserveInput, draw: Draw, checkedAt: int, reservedAt: int)

  // PostgreSQL stores no NUL character in a text column.
  predicate Storable(positions: map<string, Position>, previews: map<string, Preview>)
  {
    (forall id | id in positions :: NulFree(id)) && forall id | id in previews :: NulFree(id) && NulFree(previews[id].snapshot.scene)
  }

  predicate CanAdd(tracking: map<string, Tracking>, key: string, row: Tracking)
  {
    key !in tracking && forall k | k in tracking :: tracking[k].id != row.id
  }

  ghost function Step(db: Db, e: Event): Option<Db>
  {
    match e
    case Edit(members, positions, previews, mappings) =>
      if Storable(positions, previews) then
        Some(db.(members := members, positions := positions, previews := previews, mappings := mappings))
      else None
    case Work(k, next) =>
      if k in db.requests && SameRequest(db.requests[k].record, next) then
        Some(db.(requests := db.requests[k := db.requests[k].(record := next)]))
      else None
    case AddTracking(k, row) =>
      if CanAdd(db.tracking, k, row) then Some(db.(tracking := db.tracking[k := row])) else None
    case Reserve(_, input, draw, checkedAt, reservedAt) =>
      if input.fingerprint == FingerprintOf(input.input) then Some(ReserveSpec(db, input, draw, checkedAt, reservedAt).1)
      else None
  }

  ghost function Run(db: Db, es: seq<Event>): Option<Db>
    decreases |es|
  {
    if es == [] then Some(db)
    else match Step(db, es[0])
      case None => None
      case Some(next) => Run(next, es[1..])
  }

  const NOTHING := Db(map[], map[], map[], map[], map[], map[])

  // How many rows the calls of one caller inserted.
  ghost function Inserted(db: Db, es: seq<Event>, caller: nat): nat
    requires Run(db, es).Some?
    decreases |es|
  {
    if es == [] then 0
    else
      var next := Step(db, es[0]).value;
      (if es[0].Reserve? && es[0].caller == caller && next != db then 1 else 0) + Inserted(next, es[1..], caller)
  }

  // ---- What every reachable state keeps ----

  predicate RequestOk(k: Key, r: Request, tracking: map<string, Tracking>)
  {
    r.record.ownerUserId == k.0 && NulFree(r.record.positionId) && NulFree(r.record.previewId) && NulFree(r.record.scene)
    && r.fingerprint == Fingerprint(r.record.positionId, r.record.previewId, r.record.scene)
    && TrackingKey(r.record.id) in tracking && tracking[TrackingKey(r.record.id)].id == r.record.trackingId
    && tracking[TrackingKey(r.record.id)].userId == k.0 && tracking[TrackingKey(r.record.id)].createdAt == r.createdAt
  }

  predicate RequestsOk(requests: map<Key, Request>, tracking: map<string, Tracking>)
  {
    forall k | k in requests :: RequestOk(k, requests[k], tracking)
  }

  predicate IdsDiffer(requests: map<Key, Request>)
  {
    forall j, k | j in requests && k in requests && requests[j].record.id == requests[k].record.id :: j == k
  }

  predicate TrackingDiffers(tracking: map<string, Tracking>)
  {
    forall j, k | j in tracking && k in tracking && tracking[j].id == tracking[k].id :: j == k
  }

  ghost predicate Inv(db: Db)
  {
    Storable(db.positions, db.previews) && IdsDiffer(db.requests) && TrackingDiffers(db.tracking)
    && RequestsOk(db.requests, db.tracking)
  }

  lemma InsertKeeps(requests: map<Key, Request>, tracking: map<string, Tracking>, k: Key, r: Request, t: Tracking)
    requires k !in requests && TrackingKey(r.record.id) !in tracking
    requires (forall j | j in requests :: requests[j].record.id != r.record.id)
             && forall j | j in tracking :: tracking[j].id != t.id
    requires IdsDiffer(requests) && TrackingDiffers(tracking) && RequestsOk(requests, tracking)
    requires RequestOk(k, r, tracking[TrackingKey(r.record.id) := t])
    ensures var more := tracking[TrackingKey(r.record.id) := t];
            IdsDiffer(requests[k := r]) && TrackingDiffers(more) && RequestsOk(requests[k := r], more)
  {
    hide Fingerprint, NulFree;
    forall j | j in requests
      ensures RequestOk(j, requests[j], tracking[TrackingKey(r.record.id) := t])
    {
      assert RequestOk(j, requests[j], tracking);
      KeysDiffer(requests[j].record.id, r.record.id);
    }
  }

  lemma ReserveKeeps(db: Db, input: ReserveInput, draw: Draw, checkedAt: int, reservedAt: int)
    requires Inv(db) && input.fingerprint == FingerprintOf(input.input)
    ensures Inv(ReserveSpec(db, input, draw, checkedAt, reservedAt).1)
  {
    hide ValidReserve, ReadyMapping, IdsDiffer, TrackingDiffers;
    var next := ReserveSpec(db, input, draw, checkedAt, reservedAt).1;
    if next != db {
      var k := (input.input.owner, input.input.key);
      var r := next.requests[k];
      InsertKeeps(db.requests, db.tracking, k, r, next.tracking[TrackingKey(r.record.id)]);
    }
  }

  lemma KeysDiffer(a: string, b: string)
    ensures TrackingKey(a) == TrackingKey(b) <==> a == b
  {
    assert TrackingKey(a)[11..] == a && TrackingKey(b)[11..] == b;
  }

  lemma StepKeeps(db: Db, e: Event)
    requires Inv(db) && Step(db, e).Some?
    ensures Inv(Step(db, e).value)
  {
    if e.Reserve? {
      ReserveKeeps(db, e.input, e.draw, e.checkedAt, e.reservedAt);
    }
  }

  lemma {:induction false} RunKeeps(db: Db, es: seq<Event>)
    requires Inv(db) && Run(db, es).Some?
    ensures Inv(Run(db, es).value)
    decreases |es|
  {
    hide Inv, Step;
    if es != [] {
      StepKeeps(db, es[0]);
      RunKeeps(Step(db, es[0]).value, es[1..]);
    }
  }

  lemma Reachable(es: seq<Event>)
    requires Run(NOTHING, es).Some?
    ensures Inv(Run(NOTHING, es).value)
  {
    RunKeeps(NOTHING, es);
  }

  lemma {:induction false} RunAppend(db: Db, es: seq<Event>, fs: seq<Event>, caller: nat)
    requires Run(db, es).Some?
    ensures Run(db, es + fs) == Run(Run(db, es).value, fs)
    ensures Run(db, es + fs).Some? ==>
              Inserted(db, es + fs, caller) == Inserted(db, es, caller) + Inserted(Run(db, es).value, fs, caller)
    decreases |es|
  {
    hide Step;
    if es == [] {
      assert es + fs == fs;
    } else {
      assert (es + fs)[0] == es[0] && (es + fs)[1..] == es[1..] + fs;
      RunAppend(Step(db, es[0]).value, es[1..], fs, caller);
    }
  }

  // ---- The fingerprint ----

  lemma NulsOf(p: string, v: string, s: string)
    ensures Nuls(Fingerprint(p, v, s)) == 3 + Nuls(p) + Nuls(v) + Nuls(s)
  {
    NulsAppend("\0" + p + "\0" + v + "\0", s);
    NulsAppend("\0" + p + "\0" + v, "\0");
    NulsAppend("\0" + p + "\0", v);
    NulsAppend("\0" + p, "\0");
    NulsAppend("\0", p);
    assert Nuls("\0") == 1 by { assert "\0"[1..] == ""; }
  }

  // If one of two inputs is free of NUL, they share a fingerprint only when
  // they are the same.
  lemma SameFingerprint(p: string, v: string, s: string, q: string, w: string, t: string)
    requires NulFree(p) && NulFree(v) && NulFree(s)
    ensures Fingerprint(p, v, s) == Fingerprint(q, w, t) <==> p == q && v == w && s == t
  {
    if Fingerprint(p, v, s) == Fingerprint(q, w, t) {
      AllNulFree(p, v, s, q, w, t);
      assert Fingerprint(p, v, s)[1..] == p + "\0" + (v + "\0" + s);
      assert Fingerprint(q, w, t)[1..] == q + "\0" + (w + "\0" + t);
      hide Fingerprint, NulFree;
      FirstPart(p, q, v + "\0" + s, w + "\0" + t);
      FirstPart(v, w, s, t);
    }
  }

  lemma AllNulFree(p: string, v: string, s: string, q: string, w: string, t: string)
    requires NulFree(p) && NulFree(v) && NulFree(s) && Fingerprint(p, v, s) == Fingerprint(q, w, t)
    ensures NulFree(q) && NulFree(w) && NulFree(t)
  {
    NulsOf(p, v, s);
    NulsOf(q, w, t);
    NulsZero(p);
    NulsZero(v);
    NulsZero(s);
    NulsZero(q);
    NulsZero(w);
    NulsZero(t);
  }

  ghost predicate Identifies(p: string, v: string, s: string)
  {
    forall q, w, t :: Fingerprint(p, v, s) == Fingerprint(q, w, t) ==> p == q && v == w && s == t
  }

  // A fingerprint identifies its three parts exactly when none contains NUL:
  // otherwise the text can be cut at another NUL.
  lemma FingerprintIdentifies(p: string, v: string, s: string)
    ensures Identifies(p, v, s) <==> NulFree(p) && NulFree(v) && NulFree(s)
  {
    if NulFree(p) && NulFree(v) && NulFree(s) {
      forall q, w, t | Fingerprint(p, v, s) == Fingerprint(q, w, t)
        ensures p == q && v == w && s == t
      {
        SameFingerprint(p, v, s, q, w, t);
      }
    } else if !NulFree(p) {
      var i :| 0 <= i < |p| && p[i] == '\0';
      assert p == p[..i] + "\0" + p[i + 1..];
      assert Fingerprint(p, v, s) == Fingerprint(p[..i], p[i + 1..], v + "\0" + s);
    } else if !NulFree(v) {
      var i :| 0 <= i < |v| && v[i] == '\0';
      assert v == v[..i] + "\0" + v[i + 1..];
      assert Fingerprint(p, v, s) == Fingerprint(p, v[..i], v[i + 1..] + "\0" + s);
    } else {
      var i :| 0 <= i < |s| && s[i] == '\0';
      assert s == s[..i] + "\0" + s[i + 1..];
      assert Fingerprint(p, v, s) == Fingerprint(p, v + "\0" + s[..i], s[i + 1..]);
    }
  }

  // validText lets such inputs through: these two are accepted as arguments and
  // share a fingerprint. Only the text columns keep the first from being stored.
  lemma AcceptedInputsCanShareAFingerprint()
    ensures ValidInput(ConvertInput("u", "a\0b", "c", "home", "k")) && ValidInput(ConvertInput("u", "a", "b\0c", "home", "k"))
    ensures FingerprintOf(ConvertInput("u", "a\0b", "c", "home", "k")) == FingerprintOf(ConvertInput("u", "a", "b\0c",
            "home", "k"))
  {
    Accepted("u", 128);
    Accepted("k", 128);
    Accepted("a", 128);
    Accepted("c", 128);
    Accepted("home", 80);
    Accepted("a\0b", 128);
    Accepted("b\0c", 128);
    hide ValidText;
    assert Fingerprint("a\0b", "c", "home") == Fingerprint("a", "b\0c", "home");
  }

  lemma Accepted(s: string, max: nat)
    requires 0 < |s| <= max && !IsSpace(s[0]) && !IsSpace(s[|s| - 1]) && forall i | 0 <= i < |s| :: s[i] as int < 0x80
    ensures ValidText(s, max)
  {
    AsciiLen(s);
  }

  // ---- The guarantees, over every run ----

  lemma StepKeepsKey(db: Db, e: Event, k: Key)
    requires Step(db, e).Some? && k in db.requests
    ensures var r := Step(db, e).value.requests;
            k in r && SameRequest(db.requests[k].record, r[k].record) && r[k].fingerprint == db.requests[k].fingerprint
  {
    hide ValidReserve, Taken, ReadyMapping;
  }

  // A key that was reserved stays with its request, its Tracking ID and its
  // input for ever: all calls that succeed for it return the same ones.
  lemma {:induction false} KeysStay(db: Db, es: seq<Event>, k: Key)
    requires Run(db, es).Some? && k in db.requests
    ensures var r := Run(db, es).value.requests;
            k in r && SameRequest(db.requests[k].record, r[k].record) && r[k].fingerprint == db.requests[k].fingerprint
    decreases |es|
  {
    hide Step;
    if es != [] {
      StepKeepsKey(db, es[0], k);
      KeysStay(Step(db, es[0]).value, es[1..], k);
    }
  }

  // Two results handed out for one key at different moments of a run.
  ghost predicate Answers(db: Db, input: ConvertInput, r: Request)
  {
    var k := (input.owner, input.key);
    k in db.requests && SameRequest(r.record, db.requests[k].record)
    && r.record.ownerUserId == input.owner && r.record.positionId == input.positionId
    && r.record.previewId == input.previewId && r.record.scene == input.scene
  }

  lemma SuccessesAgree(es: seq<Event>, fs: seq<Event>, a: ConvertInput, r: Request, b: ConvertInput, q: Request)
    requires Run(NOTHING, es).Some? && Run(NOTHING, es + fs).Some? && a.owner == b.owner && a.key == b.key
    requires Answers(Run(NOTHING, es).value, a, r) && Answers(Run(NOTHING, es + fs).value, b, q)
    ensures a == b && r.record.id == q.record.id && r.record.trackingId == q.record.trackingId
  {
    RunAppend(NOTHING, es, fs, 0);
    KeysStay(Run(NOTHING, es).value, fs, (a.owner, a.key));
  }

  // Each request has exactly one Tracking row of its own, made at the same
  // moment for the same owner; no two requests share an ID or a Tracking ID.
  lemma OneTrackingRowEach(es: seq<Event>, j: Key, k: Key)
    requires Run(NOTHING, es).Some?
    requires var r := Run(NOTHING, es).value.requests; j in r && k in r
    ensures var db := Run(NOTHING, es).value; var r := db.requests[k];
            TrackingKey(r.record.id) in db.tracking
            && (forall t | t in db.tracking :: db.tracking[t].id == r.record.trackingId <==> t == TrackingKey(r.record.id))
            && db.tracking[TrackingKey(r.record.id)].userId == k.0
            && db.tracking[TrackingKey(r.record.id)].createdAt == r.createdAt
            && (j != k ==> db.requests[j].record.id != r.record.id && db.requests[j].record.trackingId != r.record.trackingId)
  {
    Reachable(es);
    var db := Run(NOTHING, es).value;
    assert RequestOk(j, db.requests[j], db.tracking) && RequestOk(k, db.requests[k], db.tracking);
    KeysDiffer(db.requests[j].record.id, db.requests[k].record.id);
  }

  // With a reserved key, the same input is answered with the stored request
  // whatever became of position, preview and mapping; any other input conflicts.
  // Neither writes.
  lemma ReservedKeyDecides(es: seq<Event>, input: ReserveInput, draw: Draw, checkedAt: int, reservedAt: int)
    requires Run(NOTHING, es).Some? && ValidReserve(input) && input.fingerprint == FingerprintOf(input.input)
    requires Member(Run(NOTHING, es).value, input.input.owner)
    requires (input.input.owner, input.input.key) in Run(NOTHING, es).value.requests
    ensures var db := Run(NOTHING, es).value; var r := db.requests[(input.input.owner, input.input.key)];
            ReserveSpec(db, input, draw, checkedAt, reservedAt)
            == (if Answers(db, input.input, r) then Ok(r) else Err(IdempotencyConflict), db)
  {
    Reachable(es);
    var db := Run(NOTHING, es).value;
    var k := (input.input.owner, input.input.key);
    var r := db.requests[k].record;
    assert RequestOk(k, db.requests[k], db.tracking);
    SameFingerprint(r.positionId, r.previewId, r.scene, input.input.positionId, input.input.previewId, input.input.scene);
  }

  // A row is inserted only for an ENABLED owner and position, an unexpired
  // preview and the READY mapping that was quoted, and the row is one the
  // conversion worker starts from.
  lemma InsertedIsEligible(db: Db, input: ReserveInput, draw: Draw, checkedAt: int, reservedAt: int)
    requires ReserveSpec(db, input, draw, checkedAt, reservedAt).1 != db
    ensures var (out, next) := ReserveSpec(db, input, draw, checkedAt, reservedAt);
            var k := (input.input.owner, input.input.key);
            k !in db.requests && k in next.requests && out == Ok(next.requests[k])
            && IsFresh(next.requests[k].record) && Answers(next, input.input, next.requests[k])
            && Member(db, k.0) && OpenPosition(db, input.input.positionId, k.0)
            && HasPreview(db, input.input) && db.previews[input.input.previewId].snapshot.expiresAt > reservedAt
            && ReadyMapping(db, input.input.positionId, input.channel)
            && |next.requests| == |db.requests| + 1 && |next.tracking| == |db.tracking| + 1
            && (forall j | j in db.requests :: next.requests[j] == db.requests[j])
            && TrackingKey(next.requests[k].record.id) in next.tracking
            && next.tracking[TrackingKey(next.requests[k].record.id)].productId
               == db.previews[input.input.previewId].snapshot.terms.externalProductId
  {
    hide ValidText, ValidReserve;
    IdIsText(draw);
  }

  // A new key is reserved exactly when everything about it is in order at that moment.
  lemma InsertsIffEligible(db: Db, input: ReserveInput, draw: Draw, checkedAt: int, reservedAt: int)
    requires ValidReserve(input) && (input.input.owner, input.input.key) !in db.requests
    ensures var i := input.input;
            ReserveSpec(db, input, draw, checkedAt, reservedAt).0.Ok?
            <==> i.owner in db.members && db.members[i.owner]
                 && i.positionId in db.positions && db.positions[i.positionId] == Position(i.owner, true)
                 && i.previewId in db.previews && db.previews[i.previewId].owner == i.owner
                 && db.previews[i.previewId].snapshot.positionId == i.positionId
                 && db.previews[i.previewId].snapshot.scene == i.scene
                 && checkedAt < db.previews[i.previewId].snapshot.expiresAt
                 && reservedAt < db.previews[i.previewId].snapshot.expiresAt
                 && i.positionId in db.mappings
                 && db.mappings[i.positionId] == Mapping(true, input.channel.accountId, input.channel.externalPositionId)
                 && !Taken(db, draw)
  {
    hide ValidReserve, Taken;
  }

  // What an inserted row says, column by column.
  lemma InsertedSays(db: Db, input: ReserveInput, draw: Draw, checkedAt: int, reservedAt: int)
    requires ReserveSpec(db, input, draw, checkedAt, reservedAt).1 != db
    ensures var i := input.input; var next := ReserveSpec(db, input, draw, checkedAt, reservedAt).1;
            (i.owner, i.key) in next.requests
            && var r := next.requests[(i.owner, i.key)];
            r.fingerprint == input.fingerprint && r.createdAt == reservedAt
            && r.record.ownerUserId == i.owner && r.record.positionId == i.positionId && r.record.previewId == i.previewId
            && r.record.scene == i.scene && r.record.id == "CR-" + Hex(draw.conversion)
            && r.record.trackingId == "TR-" + Hex(draw.tracking)
            && next.tracking == db.tracking["conversion:" + r.record.id :=
                                  Tracking(r.record.trackingId, i.owner,
                                           db.previews[i.previewId].snapshot.terms.externalProductId, reservedAt)]
  {
    hide ValidReserve, Taken, Hex;
  }

  lemma IdIsText(draw: Draw)
    ensures ValidText(ConversionId(draw), 128)
  {
    AsciiLen(ConversionId(draw));
    assert ConversionId(draw)[0] == 'C';
    assert ConversionId(draw)[34] == Hex(draw.conversion)[31];
    assert forall c: char | c in HEX :: !IsSpace(c);
  }
}
