// internal/coupon/claims.go and claim_service.go: claiming a coupon at most
// once through an unreliable channel. As in the conversion worker, every store
// call, catalog read, channel call and reply is its own event, and `Abort` can
// end a call between any two. A fingerprint stands for its SHA-256 pre-image.
module CouponClaims {
  import opened Wrappers
  import opened Text
  import opened NulJoined
  import opened CouponSync

  datatype Status = Pending | QueryRequired | Claimed | Failed

  datatype ClaimError = ClaimInvalid | ClaimNotFound | ClaimConflict | NotClaimable | CatalogError | StorageError

  datatype ClaimInput = ClaimInput(owner: string, couponId: string, cityCode: string, business: string, key: string)

  datatype Claim = Claim(id: string, owner: string, couponId: string, key: string, fingerprint: string,
      status: Status, evidence: string)

  type Key = (string, string)

  type Rows = map<Key, Claim>

  type Answer = Result<Claim, ClaimError>

  // What Catalog.Get says about the coupon.
  datatype Offer = InSite | OtherMode | NotOffered | Unreadable

  // What the channel says to Claim or Query.
  datatype Reply = SaysClaimed(evidence: string) | SaysFailed(detail: string) | SaysOther | ChannelError

  function Fingerprint(input: ClaimInput): string
  {
    Join([input.couponId, input.cityCode, input.business])
  }

  // claims.go:87-97, over bytes; every accepted byte is an ASCII character.
  predicate ValidKey(key: string)
  {
    0 < |key| <= 128 && forall i | 0 <= i < |key| :: 33 <= key[i] as int <= 126
  }

  predicate ValidInput(input: ClaimInput)
  {
    ValidLine(input.owner, 128) && ValidLine(input.couponId, 128) && ValidContext(input.cityCode, input.business)
      && ValidKey(input.key)
  }

  predicate Terminal(c: Claim)
  {
    c.status == Claimed || c.status == Failed
  }

  predicate ValidEvidence(evidence: string)
  {
    ValidLine(evidence, 256) && !HasScheme(evidence)
  }

  // An outcome SetOutcome accepts.
  predicate ValidOutcome(status: Status, evidence: string)
  {
    status != Pending && if status == Claimed then ValidEvidence(evidence) else evidence == ""
  }

  // claim_service.go:121-127: what apply makes of a reply.
  function Settled(reply: Reply): (Status, string)
  {
    match reply
    case SaysClaimed(evidence) => if ValidEvidence(evidence) then (Claimed, evidence) else (QueryRequired, "")
    case SaysFailed(_) => (Failed, "")
    case _ => (QueryRequired, "")
  }

  // ---- The protocol ----

  datatype Worker =
    | Choosing(input: ClaimInput)
    | Inserting(input: ClaimInput)
    | Selecting(input: ClaimInput, id: string, created: bool)
    | Rechecking(rec: Claim)
    | Calling(rec: Claim)
    | Called(rec: Claim)
    | Querying(rec: Claim)
    | Asked(rec: Claim)
    | Saving(rec: Claim, status: Status, evidence: string, direct: bool)
    | Reading(rec: Claim, status: Status, evidence: string, direct: bool, changed: bool)
    | Rereading(rec: Claim)

  datatype Call = ClaimSent(claimId: string) | QuerySent(claimId: string)

  datatype State = State(rows: Rows, workers: map<nat, Worker>, log: seq<Call>, returned: seq<Answer>)

  datatype Event =
    | Abort(worker: nat)
    | Create(worker: nat, input: ClaimInput)
    | Get(worker: nat, owner: string, id: string, key: string)
    | Choose(worker: nat, offer: Offer)
    | Insert(worker: nat, id: string)
    | Select(worker: nat)
    | Recheck(worker: nat, offer: Offer)
    | SendClaim(worker: nat)
    | SendQuery(worker: nat)
    | Receive(worker: nat, reply: Reply)
    | Save(worker: nat)
    | Read(worker: nat)

  const EMPTY := State(map[], map[], [], [])

  function Finish(s: State, w: nat, answer: Answer): State
  {
    s.(workers := s.workers - {w}, returned := s.returned + [answer])
  }

  function Advance(s: State, w: nat, next: Worker): State
  {
    s.(workers := s.workers[w := next])
  }

  // claim_service.go:112-118
  function Resolve(s: State, w: nat, rec: Claim): State
  {
    if Terminal(rec) then Finish(s, w, Ok(rec)) else Advance(s, w, Querying(rec))
  }

  predicate Matches(rec: Claim, input: ClaimInput)
  {
    rec.fingerprint == Fingerprint(input) && rec.couponId == input.couponId
  }

  // claim_service.go:60-70
  function CreateStep(s: State, w: nat, input: ClaimInput): State
  {
    if !ValidInput(input) then Finish(s, w, Err(ClaimInvalid))
    else
      var k := (input.owner, input.key);
      if k !in s.rows then Advance(s, w, Choosing(input))
      else if !Matches(s.rows[k], input) then Finish(s, w, Err(ClaimConflict))
      else Resolve(s, w, s.rows[k])
  }

  predicate Owns(rows: Rows, owner: string, id: string)
  {
    exists k :: k in rows && k.0 == owner && rows[k].id == id
  }

  // claims.go:45-50 and claim_service.go:104-110; `key` is where the claim is stored.
  function GetStep(s: State, w: nat, owner: string, id: string, key: string): Option<State>
  {
    if !ValidLine(owner, 128) || !ValidLine(id, 128) then Some(Finish(s, w, Err(ClaimInvalid)))
    else if !Owns(s.rows, owner, id) then Some(Finish(s, w, Err(ClaimNotFound)))
    else if (owner, key) in s.rows && s.rows[(owner, key)].id == id then Some(Resolve(s, w, s.rows[(owner, key)]))
    else None
  }

  // claim_service.go:74-80
  function ChooseStep(s: State, w: nat, k: Worker, offer: Offer): State
    requires k.Choosing?
  {
    match offer
    case InSite => Advance(s, w, Inserting(k.input))
    case OtherMode => Finish(s, w, Err(NotClaimable))
    case NotOffered => Finish(s, w, Err(ClaimNotFound))
    case Unreadable => Finish(s, w, Err(CatalogError))
  }

  predicate IdTaken(rows: Rows, id: string)
  {
    exists k :: k in rows && rows[k].id == id
  }

  // claims.go:62-76: a claim whose owner and key are stored already is not inserted.
  function InsertStep(s: State, w: nat, k: Worker, id: string): State
    requires k.Inserting?
  {
    var key := (k.input.owner, k.input.key);
    if !ValidLine(id, 128) then Finish(s, w, Err(ClaimInvalid))
    else if key in s.rows then Advance(s, w, Selecting(k.input, id, false))
    else if IdTaken(s.rows, id) then Finish(s, w, Err(StorageError))
    else
      Advance(s.(rows := s.rows[key := Claim(id, k.input.owner, k.input.couponId, k.input.key, Fingerprint(k.input),
        Pending, "")]),
              w, Selecting(k.input, id, true))
  }

  // claims.go:77-84 and claim_service.go:87-92
  function SelectStep(s: State, w: nat, k: Worker): State
    requires k.Selecting?
  {
    var key := (k.input.owner, k.input.key);
    if key !in s.rows then Finish(s, w, Err(ClaimNotFound))
    else if !Matches(s.rows[key], k.input) then Finish(s, w, Err(ClaimConflict))
    else if k.created then Advance(s, w, Rechecking(s.rows[key]))
    else Resolve(s, w, s.rows[key])
  }

  // claim_service.go:93-99
  function RecheckStep(s: State, w: nat, k: Worker, offer: Offer): State
    requires k.Rechecking?
  {
    match offer
    case InSite => Advance(s, w, Calling(k.rec))
    case Unreadable => Finish(s, w, Err(CatalogError))
    case _ => Advance(s, w, Saving(k.rec, Failed, "", true))
  }

  function Settle(s: State, w: nat, rec: Claim, reply: Reply): State
  {
    Advance(s, w, Saving(rec, Settled(reply).0, Settled(reply).1, false))
  }

  // claims.go:108-116: only a claim without an outcome is written; says whether it was.
  function Updated(rows: Rows, k: Key, status: Status, evidence: string): (Rows, bool)
  {
    if k in rows && !Terminal(rows[k]) then (rows[k := rows[k].(status := status, evidence := evidence)], true)
      else (rows, false)
  }

  function SaveStep(s: State, w: nat, k: Worker): State
    requires k.Saving?
  {
    if !ValidOutcome(k.status, k.evidence) then Finish(s, w, Err(ClaimInvalid))
    else
      var result := Updated(s.rows, (k.rec.owner, k.rec.key), k.status, k.evidence);
      Advance(s.(rows := result.0), w, Reading(k.rec, k.status, k.evidence, k.direct, result.1))
  }

  // claims.go:117-124 and claim_service.go:129-132
  function ReadStep(s: State, w: nat, k: Worker): State
    requires k.Reading?
  {
    var key := (k.rec.owner, k.rec.key);
    if key !in s.rows then Finish(s, w, Err(ClaimNotFound))
    else if !k.changed && (s.rows[key].status != k.status || s.rows[key].evidence != k.evidence) then
      (if k.direct then Finish(s, w, Err(ClaimConflict)) else Advance(s, w, Rereading(k.rec)))
    else Finish(s, w, Ok(s.rows[key]))
  }

  function RereadStep(s: State, w: nat, k: Worker): State
    requires k.Rereading?
  {
    var key := (k.rec.owner, k.rec.key);
    Finish(s, w, if key in s.rows then Ok(s.rows[key]) else Err(ClaimNotFound))
  }

  function Step(s: State, e: Event): Option<State>
  {
    match e
    case Abort(w) => if w in s.workers then Some(s.(workers := s.workers - {w})) else None
    case Create(w, input) => if w in s.workers then None else Some(CreateStep(s, w, input))
    case Get(w, owner, id, key) => if w in s.workers then None else GetStep(s, w, owner, id, key)
    case _ => if e.worker in s.workers then WorkerStep(s, e, e.worker, s.workers[e.worker]) else None
  }

  function WorkerStep(s: State, e: Event, w: nat, k: Worker): Option<State>
  {
    match e
    case Choose(_, offer) => if k.Choosing? then Some(ChooseStep(s, w, k, offer)) else None
    case Insert(_, id) => if k.Inserting? then Some(InsertStep(s, w, k, id)) else None
    case Select(_) => if k.Selecting? then Some(SelectStep(s, w, k)) else None
    case Recheck(_, offer) => if k.Rechecking? then Some(RecheckStep(s, w, k, offer)) else None
    case SendClaim(_) => if k.Calling? then Some(Advance(s.(log := s.log + [ClaimSent(k.rec.id)]), w, Called(k.rec)))
      else None
    case SendQuery(_) => if k.Querying? then Some(Advance(s.(log := s.log + [QuerySent(k.rec.id)]), w, Asked(k.rec)))
      else None
    case Receive(_, reply) => if k.Called? || k.Asked? then Some(Settle(s, w, k.rec, reply)) else None
    case Save(_) => if k.Saving? then Some(SaveStep(s, w, k)) else None
    case Read(_) => if k.Reading? then Some(ReadStep(s, w, k)) else if k.Rereading? then Some(RereadStep(s, w, k)) else None
    case _ => None
  }

  function Run(s: State, es: seq<Event>): Option<State>
    decreases |es|
  {
    if es == [] then Some(s)
    else match Step(s, es[0])
      case None => None
      case Some(next) => Run(next, es[1..])
  }

  function ClaimCount(log: seq<Call>, id: string): nat
  {
    if log == [] then 0
    else ClaimCount(log[..|log| - 1], id) + if log[|log| - 1] == ClaimSent(id) then 1 else 0
  }

  // ---- Store methods in the form of the source ----

  method CheckKey(key: string) returns (ok: bool)
    ensures ok <==> ValidKey(key)
  {
    if |key| == 0 || |key| > 128 {
      return false;
    }
    for i := 0 to |key|
      invariant forall j | 0 <= j < i :: 33 <= key[j] as int <= 126
    {
      if (key[i] as int) < 33 || key[i] as int > 126 {
        return false;
      }
    }
    return true;
  }
}
