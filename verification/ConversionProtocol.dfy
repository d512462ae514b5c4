// internal/conversion/executor.go as a transition system. Any number of
// workers run RunPending and Recover against one table; every repository call,
// every gateway call and every reply is its own event, and `Abort` (a crash, a
// cancelled context or a failed database call) can happen between any two.
module ConversionProtocol {
  import opened Wrappers
  import opened Text
  import opened ConversionStore

  datatype ChannelPosition = ChannelPosition(accountId: string, externalPositionId: string)

  datatype Terms = Terms(externalProductId: string, productName: string, couponPriceMinor: int,
    promoterEstimateMinor: int, consumerCashbackEstimateMinor: int, ruleVersion: string)

  datatype Snapshot = Snapshot(positionId: string, scene: string, channel: string, terms: Terms, expiresAt: int)

  datatype Quote = Quote(terms: Terms, expiresAt: int)

  datatype CreateCommand = CreateCommand(requestId: string, trackingId: string, externalProductId: string,
    accountId: string, externalPositionId: string)

  // What Create and Lookup can answer. `Failed` is any other error or a timeout.
  datatype CreateReply = Link(url: string) | Rejected | Failed

  datatype LookupReply = LookupSucceeded(url: string) | LookupRejected | LookupUnknown | LookupFailed | LookupOther

  // ValidateLinkURL of the gateway and safeHTTPSLink.
  datatype Validators = Validators(approved: string -> bool, safe: string -> bool)

  datatype Path = ByRun | ByRecover

  // Where a worker stands, with the values its local variables hold there.
  datatype Worker =
    | Loaded(rec: Record)
    | EligibleFor(rec: Record, position: ChannelPosition)
    | Previewed(rec: Record, position: ChannelPosition, preview: Snapshot)
    | Quoted(rec: Record, position: ChannelPosition, preview: Snapshot, quote: Quote)
    | Rechecked(rec: Record, position: ChannelPosition, preview: Snapshot, quote: Quote)
    | Rejecting(rec: Record)
    | Claimed(rec: Record, position: ChannelPosition, preview: Snapshot, quote: Quote)
    | Sending(rec: Record, position: ChannelPosition, preview: Snapshot, quote: Quote, checkedAt: int)
    | Sent(rec: Record)
    | Querying(rec: Record)
    | Asked(rec: Record)
    | Doubting(rec: Record, path: Path)
    | Finalizing(rec: Record, code: FailureCode, path: Path)
    | Succeeding(rec: Record, link: string, path: Path)

  // What crossed the channel, oldest first. A sent Create keeps the preview,
  // the quote and the time of the last expiry check that justified it.
  datatype Call =
    | CreateSent(command: CreateCommand, preview: Snapshot, quote: Quote, checkedAt: int)
    | LookupSent(requestId: string)
    | LinkReported(requestId: string, link: string)

  datatype Return = Return(worker: nat, id: string, outcome: Outcome)

  datatype State = State(rows: Table, eligible: Eligible, now: int, workers: map<nat, Worker>,
    log: seq<Call>, returned: seq<Return>)

  datatype Event =
    | Reserved(row: Record)
    | Tick(seconds: nat)
    | Reconfigure(eligible: Eligible)
    | Abort(worker: nat)
    | Load(worker: nat, id: string)
    | CheckEligibility(worker: nat, position: Result<ChannelPosition, Error>)
    | ReadPreview(worker: nat, preview: Result<Snapshot, Error>)
    | Requote(worker: nat, quote: Option<Quote>)
    | Recheck(worker: nat, verdict: Result<ChannelPosition, Error>)
    | RejectPending(worker: nat)
    | Claim(worker: nat)
    | CheckExpiry(worker: nat)
    | SendCreate(worker: nat)
    | ReceiveCreate(worker: nat, created: CreateReply)
    | LoadForRecovery(worker: nat, id: string)
    | SendLookup(worker: nat)
    | ReceiveLookup(worker: nat, found: LookupReply)
    | MarkUncertain(worker: nat)
    | MarkFinal(worker: nat)
    | MarkSucceeded(worker: nat)

  const EMPTY := State(map[], Eligible({}, {}), 0, map[], [], [])

  // A row as Reserve inserts it.
  predicate IsFresh(r: Record)
  {
    r.status == Pending && r.version == 1 && r.attemptCount == 0 && r.leaseExpiresAt == None
    && r.channelRequestId == None && r.failureCode == None && r.linkUrl == None && ValidText(r.id, 128)
  }

  function Finish(s: State, w: nat, id: string, outcome: Outcome): State
  {
    s.(workers := s.workers - {w}, returned := s.returned + [Return(w, id, outcome)])
  }

  function Advance(s: State, w: nat, next: Worker): State
  {
    s.(workers := s.workers[w := next])
  }

  // The write commits and its caller returns what it got, be it a row or an error.
  function Write(s: State, w: nat, id: string, result: (Outcome, Table)): State
  {
    Finish(s.(rows := result.1), w, id, result.0)
  }

  // executor.go:60-66
  function LoadStep(s: State, w: nat, id: string): State
  {
    if id !in s.rows then Finish(s, w, id, Err(NotFound))
    else if s.rows[id].status != Pending then Finish(s, w, id, Err(StateConflict))
    else Advance(s, w, Loaded(s.rows[id]))
  }

  // executor.go:67-70
  function CheckEligibilityStep(s: State, w: nat, k: Worker, position: Result<ChannelPosition, Error>): State
    requires k.Loaded?
  {
    match position
    case Err(e) => Finish(s, w, k.rec.id, Err(e))
    case Ok(p) => Advance(s, w, EligibleFor(k.rec, p))
  }

  predicate Usable(r: Record, preview: Snapshot, now: int)
  {
    preview.positionId == r.positionId && preview.scene == r.scene && preview.channel == "JD" && preview.expiresAt > now
  }

  // executor.go:71-78
  function ReadPreviewStep(s: State, w: nat, k: Worker, preview: Result<Snapshot, Error>): State
    requires k.EligibleFor?
  {
    match preview
    case Err(e) => Finish(s, w, k.rec.id, Err(e))
    case Ok(p) => Advance(s, w, if Usable(k.rec, p, s.now) then Previewed(k.rec, k.position, p) else Rejecting(k.rec))
  }

  // service.go:115-123
  predicate QuoteMatches(preview: Snapshot, quote: Quote, now: int)
  {
    quote.expiresAt > now && quote.terms == preview.terms
  }

  // executor.go:79-86
  function RequoteStep(s: State, w: nat, k: Worker, quote: Option<Quote>): State
    requires k.Previewed?
  {
    match quote
    case None => Finish(s, w, k.rec.id, Err(Unavailable))
    case Some(q) =>
      Advance(s, w, if k.preview.expiresAt > s.now && QuoteMatches(k.preview, q, s.now)
                    then Quoted(k.rec, k.position, k.preview, q) else Rejecting(k.rec))
  }

  // executor.go:87-89
  function RecheckStep(s: State, w: nat, k: Worker, verdict: Result<ChannelPosition, Error>): State
    requires k.Quoted?
  {
    match verdict
    case Err(e) => Finish(s, w, k.rec.id, Err(e))
    case Ok(_) => Advance(s, w, Rechecked(k.rec, k.position, k.preview, k.quote))
  }

  // executor.go:90-93
  function ClaimStep(s: State, w: nat, k: Worker): State
    requires k.Rechecked?
  {
    var result := ClaimSpec(s.rows, s.eligible, k.rec.id, k.rec.version, LEASE, s.now);
    match result.0
    case Err(e) => Finish(s, w, k.rec.id, Err(e))
    case Ok(claimed) => Advance(s.(rows := result.1), w, Claimed(claimed, k.position, k.preview, k.quote))
  }

  // executor.go:96-101
  function CheckExpiryStep(s: State, w: nat, k: Worker): State
    requires k.Claimed?
  {
    Advance(s, w, if k.preview.expiresAt > s.now && k.quote.expiresAt > s.now
                  then Sending(k.rec, k.position, k.preview, k.quote, s.now) else Finalizing(k.rec, InvalidResult, ByRun))
  }

  // ChannelRequestID as the code reads it: NULL becomes the empty string.
  function RequestId(r: Record): string
  {
    match r.channelRequestId case Some(id) => id case None => ""
  }

  function CommandOf(k: Worker): CreateCommand
    requires k.Sending?
  {
    CreateCommand(RequestId(k.rec), k.rec.trackingId, k.preview.terms.externalProductId,
                  k.position.accountId, k.position.externalPositionId)
  }

  // executor.go:104-108
  function SendCreateStep(s: State, w: nat, k: Worker): State
    requires k.Sending?
  {
    Advance(s.(log := s.log + [CreateSent(CommandOf(k), k.preview, k.quote, k.checkedAt)]), w, Sent(k.rec))
  }

  predicate Accepts(v: Validators, link: string)
  {
    v.approved(link) && v.safe(link)
  }

  // executor.go:109-119
  function ReceiveCreateStep(v: Validators, s: State, w: nat, k: Worker, created: CreateReply): State
    requires k.Sent?
  {
    match created
    case Rejected => Advance(s, w, Finalizing(k.rec, ChannelRejected, ByRun))
    case Failed => Advance(s, w, Doubting(k.rec, ByRun))
    case Link(url) =>
      Advance(s.(log := s.log + [LinkReported(RequestId(k.rec), url)]), w,
              if Accepts(v, url) then Succeeding(k.rec, url, ByRun) else Doubting(k.rec, ByRun))
  }

  // executor.go:131-134, Recover's own guard.
  predicate Recoverable(r: Record, now: int)
  {
    r.status == FailedRetryable
    || (r.status == Processing && r.leaseExpiresAt.Some? && !(r.leaseExpiresAt.value > now))
  }

  // executor.go:127-137
  function LoadForRecoveryStep(s: State, w: nat, id: string): State
  {
    if id !in s.rows then Finish(s, w, id, Err(NotFound))
    else if !Recoverable(s.rows[id], s.now) then Finish(s, w, id, Err(StateConflict))
    else if RequestId(s.rows[id]) == "" then Finish(s, w, id, Err(Invalid))
    else Advance(s, w, Querying(s.rows[id]))
  }

  function SendLookupStep(s: State, w: nat, k: Worker): State
    requires k.Querying?
  {
    Advance(s.(log := s.log + [LookupSent(RequestId(k.rec))]), w, Asked(k.rec))
  }

  // executor.go:143-159
  function ReceiveLookupStep(v: Validators, s: State, w: nat, k: Worker, found: LookupReply): State
    requires k.Asked?
  {
    match found
    case LookupFailed => DoubtOrReturn(s, w, k.rec)
    case LookupUnknown => DoubtOrReturn(s, w, k.rec)
    case LookupRejected => Advance(s, w, Finalizing(k.rec, ChannelRejected, ByRecover))
    case LookupOther => Finish(s, w, k.rec.id, Err(Unavailable))
    case LookupSucceeded(url) =>
      var t := s.(log := s.log + [LinkReported(RequestId(k.rec), url)]);
      if Accepts(v, url) then Advance(t, w, Succeeding(k.rec, url, ByRecover)) else Finish(t, w, k.rec.id, Err(Unavailable))
  }

  // executor.go:143-148
  function DoubtOrReturn(s: State, w: nat, rec: Record): State
  {
    if rec.status == Processing then Advance(s, w, Doubting(rec, ByRecover)) else Finish(s, w, rec.id, Ok(rec))
  }

  // None when the event cannot happen in this state.
  function Step(v: Validators, s: State, e: Event): Option<State>
  {
    match e
    case Reserved(r) => if r.id !in s.rows && IsFresh(r) then Some(s.(rows := s.rows[r.id := r])) else None
    case Tick(seconds) => Some(s.(now := s.now + seconds))
    case Reconfigure(eligible) => Some(s.(eligible := eligible))
    case Abort(w) => if w in s.workers then Some(s.(workers := s.workers - {w})) else None
    case Load(w, id) => if w !in s.workers then Some(LoadStep(s, w, id)) else None
    case LoadForRecovery(w, id) => if w !in s.workers then Some(LoadForRecoveryStep(s, w, id)) else None
    case _ => if e.worker in s.workers then WorkerStep(v, s, e, e.worker, s.workers[e.worker]) else None
  }

  function WorkerStep(v: Validators, s: State, e: Event, w: nat, k: Worker): Option<State>
  {
    match e
    case CheckEligibility(_, position) => if k.Loaded? then Some(CheckEligibilityStep(s, w, k, position)) else None
    case ReadPreview(_, preview) => if k.EligibleFor? then Some(ReadPreviewStep(s, w, k, preview)) else None
    case Requote(_, quote) => if k.Previewed? then Some(RequoteStep(s, w, k, quote)) else None
    case Recheck(_, verdict) => if k.Quoted? then Some(RecheckStep(s, w, k, verdict)) else None
    case RejectPending(_) =>
      if k.Rejecting? then Some(Write(s, w, k.rec.id, RejectPendingSpec(s.rows, k.rec.id, k.rec.version))) else None
    case Claim(_) => if k.Rechecked? then Some(ClaimStep(s, w, k)) else None
    case CheckExpiry(_) => if k.Claimed? then Some(CheckExpiryStep(s, w, k)) else None
    case SendCreate(_) => if k.Sending? then Some(SendCreateStep(s, w, k)) else None
    case ReceiveCreate(_, created) => if k.Sent? then Some(ReceiveCreateStep(v, s, w, k, created)) else None
    case SendLookup(_) => if k.Querying? then Some(SendLookupStep(s, w, k)) else None
    case ReceiveLookup(_, found) => if k.Asked? then Some(ReceiveLookupStep(v, s, w, k, found)) else None
    case MarkUncertain(_) =>
      if k.Doubting? then
        Some(Write(s, w, k.rec.id, MarkUncertainSpec(s.rows, k.rec.id, RequestId(k.rec), k.rec.version)))
      else None
    case MarkFinal(_) =>
      if k.Finalizing? then
        Some(Write(s, w, k.rec.id, MarkFinalSpec(s.rows, k.rec.id, RequestId(k.rec), k.rec.version, k.code)))
      else None
    case MarkSucceeded(_) =>
      if k.Succeeding? then
        Some(Write(s, w, k.rec.id, MarkSucceededSpec(s.rows, v.safe, k.rec.id, RequestId(k.rec), k.rec.version, k.link)))
      else None
    case _ => None
  }

  // The state after a sequence of events, if each of them could happen in turn.
  function Run(v: Validators, s: State, es: seq<Event>): Option<State>
    decreases |es|
  {
    if es == [] then Some(s)
    else match Step(v, s, es[0])
      case None => None
      case Some(t) => Run(v, t, es[1..])
  }

  lemma {:induction false} RunAppend(v: Validators, s: State, es: seq<Event>, fs: seq<Event>)
    requires Run(v, s, es).Some?
    ensures Run(v, s, es + fs) == Run(v, Run(v, s, es).value, fs)
    decreases |es|
  {
    if es == [] {
      assert es + fs == fs;
    } else {
      assert (es + fs)[0] == es[0] && (es + fs)[1..] == es[1..] + fs;
      RunAppend(v, Step(v, s, es[0]).value, es[1..], fs);
    }
  }

  // How often Create was invoked for one request.
  function CreateCount(log: seq<Call>, id: string): nat
  {
    if log == [] then 0
    else CreateCount(log[..|log| - 1], id)
         + if log[|log| - 1].CreateSent? && log[|log| - 1].command.requestId == id then 1 else 0
  }
}
