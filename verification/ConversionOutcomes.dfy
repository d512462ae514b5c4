// Why a request ends as it does: whatever is stored or sent for it was learned
// by a worker that held this very request, and what a worker learns it stores.
module ConversionOutcomes {
  import opened Wrappers
  import opened Text
  import opened ConversionStore
  import opened ConversionProtocol
  import opened ConversionSafety
  import opened ConversionTheorems

  // What a worker can learn: four verdicts on the request, that a recovery was
  // refused, and what it needs to send Create.
  datatype News =
    | RefusedInRecovery
    | Unfit | Refused | Uncertain | Linked(url: string)
    | Position(position: ChannelPosition) | Preview(preview: Snapshot) | Price(quote: Quote) | StillEligible

  // In state `s` the event tells its worker this about request `id`.
  predicate Tells(v: Validators, s: State, e: Event, id: string, x: News)
  {
    match x
    case Unfit => TellsUnfit(s, e, id)
    case Refused => AnswersCreate(s, e, id, Rejected) || AnswersLookup(s, e, id, LookupRejected)
    case RefusedInRecovery => AnswersLookup(s, e, id, LookupRejected)
    case Uncertain =>
      AnswersCreate(s, e, id, Failed)
      || (e.ReceiveCreate? && e.created.Link? && AnswersCreate(s, e, id, e.created)
          && !(v.approved(e.created.url) && v.safe(e.created.url)))
      || ((AnswersLookup(s, e, id, LookupUnknown) || AnswersLookup(s, e, id, LookupFailed))
          && s.workers[e.worker].rec.status == Processing)
    case Linked(url) =>
      v.approved(url) && v.safe(url) && (AnswersCreate(s, e, id, Link(url)) || AnswersLookup(s, e, id, LookupSucceeded(url)))
    case Position(p) => e.CheckEligibility? && e.position == Ok(p) && Serves(s, e, id) && s.workers[e.worker].Loaded?
    case Preview(p) => e.ReadPreview? && e.preview == Ok(p) && Serves(s, e, id) && s.workers[e.worker].EligibleFor?
    case Price(q) => e.Requote? && e.quote == Some(q) && Serves(s, e, id) && s.workers[e.worker].Previewed?
    case StillEligible => e.Recheck? && e.verdict.Ok? && Serves(s, e, id) && s.workers[e.worker].Quoted?
  }

  predicate OfWorker(e: Event)
  {
    !e.Reserved? && !e.Tick? && !e.Reconfigure?
  }

  // The event is one of a worker that holds this request.
  predicate Serves(s: State, e: Event, id: string)
  {
    OfWorker(e) && e.worker in s.workers && s.workers[e.worker].rec.id == id
  }

  predicate AnswersCreate(s: State, e: Event, id: string, reply: CreateReply)
  {
    e.ReceiveCreate? && e.created == reply && Serves(s, e, id) && s.workers[e.worker].Sent?
  }

  predicate AnswersLookup(s: State, e: Event, id: string, reply: LookupReply)
  {
    e.ReceiveLookup? && e.found == reply && Serves(s, e, id) && s.workers[e.worker].Asked?
  }

  // The preview is another position's, scene's or channel's or has expired, or
  // the quote has expired or differs from it.
  predicate TellsUnfit(s: State, e: Event, id: string)
  {
    Serves(s, e, id)
    && var k := s.workers[e.worker];
    (e.ReadPreview? && e.preview.Ok? && k.EligibleFor?
     && (e.preview.value.positionId != k.rec.positionId || e.preview.value.scene != k.rec.scene
         || e.preview.value.channel != "JD" || e.preview.value.expiresAt <= s.now))
    || (e.Requote? && e.quote.Some? && k.Previewed?
        && (k.preview.expiresAt <= s.now || e.quote.value.expiresAt <= s.now || e.quote.value.terms != k.preview.terms))
    || (e.CheckExpiry? && k.Claimed? && (k.preview.expiresAt <= s.now || k.quote.expiresAt <= s.now))
  }

  // What a worker's local variables say.
  predicate Carries(k: Worker, x: News)
  {
    match x
    case Unfit => k.Rejecting? || (k.Finalizing? && k.code == InvalidResult)
    case Refused => k.Finalizing? && k.code == ChannelRejected
    case RefusedInRecovery => k.Finalizing? && k.path == ByRecover
    case Uncertain => k.Doubting?
    case Linked(url) => k.Succeeding? && k.link == url
    case Position(p) => (k.EligibleFor? || k.Previewed? || k.Quoted? || ToSend(k)) && k.position == p
    case Preview(p) => (k.Previewed? || k.Quoted? || ToSend(k)) && k.preview == p
    case Price(q) => (k.Quoted? || ToSend(k)) && k.quote == q
    case StillEligible => ToSend(k)
  }

  predicate ToSend(k: Worker)
  {
    k.Rechecked? || k.Claimed? || k.Sending?
  }

  predicate Verdict(x: News)
  {
    x.Unfit? || x.Refused? || x.Uncertain? || x.Linked?
  }

  // What a row says.
  predicate Says(r: Record, x: News)
  {
    match x
    case Unfit => r.failureCode == Some(InvalidResult)
    case Refused => r.failureCode == Some(ChannelRejected)
    case Uncertain => r.failureCode == Some(QueryRequired)
    case Linked(url) => r.linkUrl == Some(url)
    case _ => false
  }

  // What a sent Create relied on.
  predicate ReliesOn(call: Call, x: News)
  {
    call.CreateSent?
    && match x
       case Position(p) => p == ChannelPosition(call.command.accountId, call.command.externalPositionId)
       case Preview(p) => p == call.preview
       case Price(q) => q == call.quote
       case StillEligible => true
       case _ => false
  }

  // ---- Learning ----

  // The worker of `e` comes to carry `x` exactly when `e` tells it; it keeps the
  // record it held and nothing is written.
  predicate Learns(v: Validators, s: State, e: Event, x: News)
    requires OfWorker(e) && Step(v, s, e).Some?
  {
    var t := Step(v, s, e).value; var w := e.worker;
    (w in t.workers && Carries(t.workers[w], x) <==> w in s.workers && Tells(v, s, e, s.workers[w].rec.id, x))
    && (w in t.workers && Carries(t.workers[w], x) ==> t.workers[w].rec == s.workers[w].rec && t.rows == s.rows)
  }

  // An event gives its worker a verdict exactly when it tells it that verdict;
  // the worker keeps the record it held and nothing is written.
  lemma LearnsWhatItIsTold(v: Validators, s: State, e: Event, x: News)
    requires OfWorker(e) && Step(v, s, e).Some? && Verdict(x)
    requires e.worker in s.workers ==> !Carries(s.workers[e.worker], x)
    ensures Learns(v, s, e, x)
  {
    hide *;
    if e.ReceiveCreate? {
      LearnsFromCreate(v, s, e, x);
    } else if e.ReceiveLookup? {
      LearnsFromLookup(v, s, e, x);
    } else if e.ReadPreview? || e.Requote? || e.CheckExpiry? {
      LearnsFromChecks(v, s, e, x);
    } else {
      LearnsNothing(v, s, e, x);
    }
  }

  lemma LearnsFromCreate(v: Validators, s: State, e: Event, x: News)
    requires e.ReceiveCreate? && Step(v, s, e).Some? && Verdict(x)
    ensures Learns(v, s, e, x)
  {
  }

  lemma LearnsFromLookup(v: Validators, s: State, e: Event, x: News)
    requires e.ReceiveLookup? && Step(v, s, e).Some? && Verdict(x)
    ensures Learns(v, s, e, x)
  {
  }

  lemma LearnsFromChecks(v: Validators, s: State, e: Event, x: News)
    requires (e.ReadPreview? || e.Requote? || e.CheckExpiry?) && Step(v, s, e).Some? && Verdict(x)
    ensures Learns(v, s, e, x)
  {
  }

  lemma LearnsNothing(v: Validators, s: State, e: Event, x: News)
    requires OfWorker(e) && Step(v, s, e).Some? && Verdict(x)
    requires !e.ReceiveCreate? && !e.ReceiveLookup? && !e.ReadPreview? && !e.Requote? && !e.CheckExpiry?
    requires e.worker in s.workers ==> !Carries(s.workers[e.worker], x)
    ensures Learns(v, s, e, x)
  {
    hide ClaimSpec, MarkFinalSpec, MarkUncertainSpec, MarkSucceededSpec, RejectPendingSpec, Recoverable;
  }

  // A call starts on a request it may work on, with the row as it is stored; on any
  // other it ends at once with an error and changes nothing.
  lemma StartsOnlyWhereItMay(v: Validators, s: State, w: nat, id: string)
    requires Inv(v, s) && w !in s.workers
    ensures var t := Step(v, s, Load(w, id));
            t.Some? && t.value.rows == s.rows && t.value.log == s.log
            && if id in s.rows && s.rows[id].version == 1 then t.value == Advance(s, w, Loaded(s.rows[id]))
               else t.value == Finish(s, w, id, Err(if id in s.rows then StateConflict else NotFound))
    ensures var t := Step(v, s, LoadForRecovery(w, id));
            t.Some? && t.value.rows == s.rows && t.value.log == s.log
            && if id in s.rows && s.rows[id].version > 1 && !Terminal(s.rows[id])
                  && (s.rows[id].leaseExpiresAt.Some? ==> s.rows[id].leaseExpiresAt.value <= s.now)
               then t.value == Advance(s, w, Querying(s.rows[id]))
               else t.value == Finish(s, w, id, Err(if id in s.rows then StateConflict else NotFound))
  {
    if id in s.rows {
      assert RowOk(v, s.rows[id], s.log, id);
    }
    hide Inv, Step;
    LoadsAre(v, s, w, id);
  }

  lemma LoadsAre(v: Validators, s: State, w: nat, id: string)
    requires w !in s.workers
    ensures Step(v, s, Load(w, id)) == Some(LoadStep(s, w, id))
    ensures Step(v, s, LoadForRecovery(w, id)) == Some(LoadForRecoveryStep(s, w, id))
  {
  }

  // An error while the request is being prepared ends the call with that error;
  // nothing is written or sent, and the request stays as it is for a later call.
  lemma FailedPreparationEndsTheCall(v: Validators, s: State, e: Event, w: nat, error: Error)
    requires Step(v, s, e).Some?
    requires e == CheckEligibility(w, Err(error)) || e == ReadPreview(w, Err(error))
             || (e == Requote(w, None) && error == Unavailable) || e == Recheck(w, Err(error))
    ensures var t := Step(v, s, e).value;
            w in s.workers && w !in t.workers && t.rows == s.rows && t.log == s.log
            && t.returned == s.returned + [Return(w, s.workers[w].rec.id, Err(error))]
  {
  }

  // A recovery that learns nothing new about a request already marked uncertain
  // hands its copy back and writes nothing.
  lemma NothingNewIsHandedBack(v: Validators, s: State, w: nat, found: LookupReply)
    requires Inv(v, s) && w in s.workers && s.workers[w].Asked? && s.workers[w].rec.status != Processing
    requires found == LookupUnknown || found == LookupFailed
    ensures var t := Step(v, s, ReceiveLookup(w, found)); var rec := s.workers[w].rec;
            t.Some? && t.value.rows == s.rows && w !in t.value.workers && rec.status == FailedRetryable
            && t.value.returned == s.returned + [Return(w, rec.id, Ok(rec))]
  {
    AskedIsUncertain(v, s, w);
    HandsBack(v, s, w, found);
    hide Inv, Step;
  }

  lemma HandsBack(v: Validators, s: State, w: nat, found: LookupReply)
    requires w in s.workers && s.workers[w].Asked? && s.workers[w].rec.status != Processing
    requires found == LookupUnknown || found == LookupFailed
    ensures var rec := s.workers[w].rec; Step(v, s, ReceiveLookup(w, found)) == Some(Finish(s, w, rec.id, Ok(rec)))
  {
  }

  lemma AskedIsUncertain(v: Validators, s: State, w: nat)
    requires Inv(v, s) && w in s.workers && s.workers[w].Asked?
    ensures var r := s.workers[w].rec;
            r.status == Processing || (r.status == FailedRetryable && r.failureCode == Some(QueryRequired))
  {
    WorkerFacts(v, s, w);
    hide Inv, ValidText;
  }

  lemma WorkerFacts(v: Validators, s: State, w: nat)
    requires Inv(v, s) && w in s.workers
    ensures var k := s.workers[w];
            Fenced(s.rows, k.rec) && Local(v, s.log, s.now, k) && s.rows[k.rec.id].id == k.rec.id && RowShape(s.rows[k.rec.id])
  {
    Facts(v, s, w);
    hide Inv, Fenced, Local, LeaseHeld, Owns, BeforeCreate, RowShape;
  }

  // A claim goes through exactly when the row is still the one that was loaded
  // and owner and position are ENABLED; then it holds a lease of one minute.
  lemma ClaimGoesThroughIff(v: Validators, s: State, w: nat)
    requires Inv(v, s) && w in s.workers && s.workers[w].Rechecked?
    ensures var k := s.workers[w]; var t := Step(v, s, Claim(w));
            t.Some?
            && (w in t.value.workers <==> s.rows[k.rec.id] == k.rec && k.rec.ownerUserId in s.eligible.profiles
                                          && (k.rec.positionId, k.rec.ownerUserId) in s.eligible.positions)
            && (w in t.value.workers ==>
                  t.value.workers[w].Claimed? && t.value.workers[w].rec == t.value.rows[k.rec.id]
                  && t.value.rows[k.rec.id].leaseExpiresAt == Some(s.now + 60))
            && (w !in t.value.workers ==>
                  t.value.rows == s.rows && t.value.returned == s.returned + [Return(w, k.rec.id, Err(StateConflict))])
  {
    PreparedCopy(v, s, w);
    hide Inv, ValidText;
    ClaimResult(s, w);
    hide ClaimSpec, Admits, WithClaim;
  }

  // No claim is given a lease of more than five minutes, or none.
  lemma LeasesAreBounded(rows: Table, eligible: Eligible, id: string, version: int, lease: int, now: int)
    requires ClaimSpec(rows, eligible, id, version, lease, now).0.Ok?
    ensures 0 < lease <= 300 && ClaimSpec(rows, eligible, id, version, lease, now).0.value.leaseExpiresAt == Some(now + lease)
  {
  }

  lemma ClaimResult(s: State, w: nat)
    requires w in s.workers && s.workers[w].Rechecked?
    requires var r := s.workers[w].rec;
             r.id in s.rows && s.rows[r.id].id == r.id && (s.rows[r.id].version == r.version ==> s.rows[r.id] == r)
             && r.status == Pending && ValidText(r.id, 128) && r.version == 1
    ensures var k := s.workers[w];
            var result := ClaimSpec(s.rows, s.eligible, k.rec.id, k.rec.version, LEASE, s.now);
            (result.0.Ok? <==> s.rows[k.rec.id] == k.rec && k.rec.ownerUserId in s.eligible.profiles
                               && (k.rec.positionId, k.rec.ownerUserId) in s.eligible.positions)
            && (result.0.Ok? ==> result.0.value.leaseExpiresAt == Some(s.now + 60) && result.0.value.id == k.rec.id
                                 && result.1 == s.rows[k.rec.id := result.0.value])
            && (result.0.Err? ==> result == (Err(StateConflict), s.rows))
  {
    hide ValidText;
    var k := s.workers[w];
    var result := ClaimSpec(s.rows, s.eligible, k.rec.id, k.rec.version, LEASE, s.now);
    assert result.0.Ok? <==> s.rows[k.rec.id] == k.rec && Admits(s.eligible, k.rec);
    assert result.0.Ok? ==> result == (Ok(WithClaim(k.rec, s.now + 60)), s.rows[k.rec.id := WithClaim(k.rec, s.now + 60)]);
  }

  lemma PreparedCopy(v: Validators, s: State, w: nat)
    requires Inv(v, s) && w in s.workers && s.workers[w].Rechecked?
    ensures var r := s.workers[w].rec;
            r.id in s.rows && s.rows[r.id].id == r.id && (s.rows[r.id].version == r.version ==> s.rows[r.id] == r)
            && r.status == Pending && ValidText(r.id, 128) && r.version == 1
  {
    WorkerFacts(v, s, w);
    hide Inv, ValidText;
  }

  // ---- Storing ----

  // The write a worker with a verdict makes next.
  function Writing(w: nat, k: Worker): Event
  {
    if k.Rejecting? then RejectPending(w) else if k.Doubting? then MarkUncertain(w)
    else if k.Succeeding? then MarkSucceeded(w) else MarkFinal(w)
  }

  function StatusFor(x: News): Status
  {
    match x case Uncertain => FailedRetryable case Linked(_) => Succeeded case _ => FailedFinal
  }

  // A worker stores its verdict, in its request and nowhere else, exactly when the
  // row is still the one it holds.
  lemma StoresWhatItCarries(v: Validators, s: State, w: nat, x: News)
    requires Inv(v, s) && w in s.workers && Carries(s.workers[w], x) && Verdict(x)
    ensures var k := s.workers[w]; var id := k.rec.id; var t := Step(v, s, Writing(w, k));
            id in s.rows && t.Some? && w !in t.value.workers
            && if s.rows[id] == k.rec then
                 id in t.value.rows && Says(t.value.rows[id], x) && t.value.rows[id].status == StatusFor(x)
                 && SameRequest(k.rec, t.value.rows[id]) && t.value.rows == s.rows[id := t.value.rows[id]]
                 && t.value.returned == s.returned + [Return(w, id, Ok(t.value.rows[id]))]
               else t.value.rows == s.rows && t.value.returned == s.returned + [Return(w, id, Err(StateConflict))]
  {
    HoldsItsCopy(v, s, w);
    hide Inv;
    if s.workers[w].Rejecting? {
      StoresUnfit(v, s, w);
    } else if s.workers[w].Doubting? {
      StoresUncertain(v, s, w);
    } else if s.workers[w].Succeeding? {
      StoresLink(v, s, w);
    } else {
      StoresFinal(v, s, w);
    }
  }

  lemma StoresUnfit(v: Validators, s: State, w: nat)
    requires HasCopy(v, s, w) && s.workers[w].Rejecting?
    ensures Settles(v, s, w, RejectPending(w), FailedFinal, Some(InvalidResult), None)
  {
    hide ValidText;
  }

  lemma StoresUncertain(v: Validators, s: State, w: nat)
    requires HasCopy(v, s, w) && s.workers[w].Doubting?
    ensures Settles(v, s, w, MarkUncertain(w), FailedRetryable, Some(QueryRequired), s.workers[w].rec.linkUrl)
  {
    hide ValidText;
  }

  lemma StoresLink(v: Validators, s: State, w: nat)
    requires HasCopy(v, s, w) && s.workers[w].Succeeding?
    ensures Settles(v, s, w, MarkSucceeded(w), Succeeded, None, Some(s.workers[w].link))
  {
    hide ValidText;
  }

  lemma StoresFinal(v: Validators, s: State, w: nat)
    requires HasCopy(v, s, w) && s.workers[w].Finalizing?
    ensures Settles(v, s, w, MarkFinal(w), FailedFinal, Some(s.workers[w].code), s.workers[w].rec.linkUrl)
  {
    hide ValidText;
  }

  // The event writes these columns if the row is still the copy, and ends the call.
  predicate Settles(v: Validators, s: State, w: nat, e: Event, status: Status, code: Option<FailureCode>, link: Option<string>)
    requires w in s.workers
  {
    var id := s.workers[w].rec.id;
    var t := Step(v, s, e);
    id in s.rows && t.Some? && w !in t.value.workers
    && if s.rows[id] == s.workers[w].rec then
         id in t.value.rows && t.value.rows[id].status == status && t.value.rows[id].failureCode == code
         && t.value.rows[id].linkUrl == link && SameRequest(s.rows[id], t.value.rows[id])
         && t.value.rows == s.rows[id := t.value.rows[id]]
         && t.value.returned == s.returned + [Return(w, id, Ok(t.value.rows[id]))]
       else t.value.rows == s.rows && t.value.returned == s.returned + [Return(w, id, Err(StateConflict))]
  }

  // What a worker with a verdict knows about its copy.
  predicate HasCopy(v: Validators, s: State, w: nat)
  {
    w in s.workers
    && var k := s.workers[w]; var r := k.rec;
    r.id in s.rows && (s.rows[r.id].version == r.version ==> s.rows[r.id] == r) && ValidText(r.id, 128) && r.version >= 1
    && (k.Rejecting? ==> r.status == Pending && r.linkUrl == None)
    && (!k.Rejecting? ==> r.channelRequestId == Some(r.id) && r.status in {Processing, FailedRetryable})
    && (k.Doubting? ==> r.status == Processing)
    && (k.Succeeding? ==> v.safe(k.link)) && (k.Finalizing? ==> k.code != QueryRequired)
  }

  lemma HoldsItsCopy(v: Validators, s: State, w: nat)
    requires Inv(v, s) && w in s.workers
    requires var k := s.workers[w]; k.Rejecting? || k.Doubting? || k.Finalizing? || k.Succeeding?
    ensures HasCopy(v, s, w)
  {
    WorkerFacts(v, s, w);
    hide Inv, ValidText;
  }

  // The row a worker with a verdict leaves behind.
  predicate Ends(k: Worker, r: Record)
  {
    r.id == k.rec.id
    && match k
       case Rejecting(_) => r.status == FailedFinal && r.failureCode == Some(InvalidResult)
       case Doubting(_, _) => r.status == FailedRetryable && r.failureCode == Some(QueryRequired)
       case Finalizing(_, code, _) => r.status == FailedFinal && r.failureCode == Some(code)
       case Succeeding(_, link, _) => r.status == Succeeded && r.linkUrl == Some(link) && r.failureCode == None
       case _ => false
  }

  // The row that RunPending returns after this answer to Create.
  predicate EndsByCreate(v: Validators, created: CreateReply, r: Record)
  {
    match r.status
    case Succeeded => created.Link? && r.linkUrl == Some(created.url) && v.approved(created.url) && v.safe(created.url)
    case FailedFinal => created.Rejected? && r.failureCode == Some(ChannelRejected)
    case FailedRetryable =>
      r.failureCode == Some(QueryRequired)
      && (created.Failed? || (created.Link? && !(v.approved(created.url) && v.safe(created.url))))
    case _ => false
  }

  predicate Dropped(r: Record)
  {
    r.status == FailedFinal && r.failureCode == Some(InvalidResult)
  }

  // The row that Recover returns after this answer to Lookup.
  predicate EndsByLookup(v: Validators, found: LookupReply, r: Record)
  {
    match found
    case LookupSucceeded(url) => r.status == Succeeded && r.linkUrl == Some(url) && v.approved(url) && v.safe(url)
    case LookupRejected => r.status == FailedFinal && r.failureCode == Some(ChannelRejected)
    case LookupOther => false
    case _ => r.status == FailedRetryable && r.failureCode == Some(QueryRequired)
  }

  predicate BadAnswer(v: Validators, found: LookupReply)
  {
    found.LookupOther? || (found.LookupSucceeded? && !(v.approved(found.url) && v.safe(found.url)))
  }

  // ---- Whole runs ----

  predicate ByOther(e: Event, w: nat)
  {
    e.Reserved? || e.Tick? || e.Reconfigure? || e.worker != w
  }

  lemma OthersLeaveWorker(v: Validators, s: State, e: Event, w: nat)
    requires ByOther(e, w) && Step(v, s, e).Some?
    ensures (w in s.workers <==> w in Step(v, s, e).value.workers)
    ensures w in s.workers ==> Step(v, s, e).value.workers[w] == s.workers[w]
  {
    if !e.Reserved? && !e.Tick? && !e.Reconfigure? && !e.Abort? && !e.Load? && !e.LoadForRecovery? {
      OthersLeaveWorkerIn(v, s, e, s.workers[e.worker], w);
    }
  }

  lemma OthersLeaveWorkerIn(v: Validators, s: State, e: Event, k: Worker, w: nat)
    requires !e.Reserved? && !e.Tick? && !e.Reconfigure? && e.worker != w && WorkerStep(v, s, e, e.worker, k).Some?
    ensures var t := WorkerStep(v, s, e, e.worker, k).value;
            (w in s.workers <==> w in t.workers) && (w in s.workers ==> t.workers[w] == s.workers[w])
  {
    hide ClaimSpec, MarkFinalSpec, MarkUncertainSpec, MarkSucceededSpec, RejectPendingSpec;
  }

  // Some event of the run told a worker that held request `id` this.
  predicate Told(v: Validators, es: seq<Event>, id: string, x: News)
  {
    exists i | 0 <= i < |es| :: ToldAt(v, es[..i], es[i], id, x)
  }

  predicate ToldAt(v: Validators, before: seq<Event>, e: Event, id: string, x: News)
  {
    Run(v, EMPTY, before).Some? && Tells(v, Run(v, EMPTY, before).value, e, id, x)
  }

  lemma ToldLater(v: Validators, es: seq<Event>, e: Event, id: string, x: News)
    ensures Told(v, es + [e], id, x) <==> Told(v, es, id, x) || ToldAt(v, es, e, id, x)
  {
    var all := es + [e];
    hide ToldAt;
    assert all[|es|] == e && all[..|es|] == es;
    assert forall i | 0 <= i < |es| :: all[i] == es[i] && all[..i] == es[..i];
  }

  lemma RunLast(v: Validators, es: seq<Event>)
    requires es != [] && Run(v, EMPTY, es).Some?
    ensures var before := es[..|es| - 1];
            es == before + [es[|es| - 1]] && Run(v, EMPTY, before).Some?
            && Step(v, Run(v, EMPTY, before).value, es[|es| - 1]) == Run(v, EMPTY, es)
  {
    var before, e := es[..|es| - 1], es[|es| - 1];
    assert es == before + [e];
    RunPrefix(v, EMPTY, before, [e]);
    RunAppend(v, EMPTY, before, [e]);
    RunOne(v, Run(v, EMPTY, before).value, e);
  }

  lemma {:induction false} RunPrefix(v: Validators, s: State, es: seq<Event>, fs: seq<Event>)
    requires Run(v, s, es + fs).Some?
    ensures Run(v, s, es).Some?
    decreases |es|
  {
    hide Step;
    if es != [] {
      assert (es + fs)[0] == es[0] && (es + fs)[1..] == es[1..] + fs;
      RunPrefix(v, Step(v, s, es[0]).value, es[1..], fs);
    }
  }

  lemma CarriedNews(v: Validators, s: State, e: Event, w: nat, x: News)
    requires Inv(v, s) && Step(v, s, e).Some?
    requires w in Step(v, s, e).value.workers && Carries(Step(v, s, e).value.workers[w], x)
    ensures var id := Step(v, s, e).value.workers[w].rec.id;
            (w in s.workers && s.workers[w].rec.id == id && Carries(s.workers[w], x)) || Tells(v, s, e, id, x)
  {
    if ByOther(e, w) {
      OthersLeaveWorker(v, s, e, w);
    } else if e.Claim? {
      ClaimNews(v, s, w, x);
    } else {
      OwnNews(v, s, e, x);
    }
  }

  lemma ClaimNews(v: Validators, s: State, w: nat, x: News)
    requires Inv(v, s) && Step(v, s, Claim(w)).Some?
    requires w in Step(v, s, Claim(w)).value.workers && Carries(Step(v, s, Claim(w)).value.workers[w], x)
    ensures w in s.workers && s.workers[w].rec.id == Step(v, s, Claim(w)).value.workers[w].rec.id && Carries(s.workers[w], x)
  {
    hide Inv, Step, ClaimSpec, ValidText;
    ClaimMakes(v, s, w);
    PreparedCopy(v, s, w);
    ClaimResult(s, w);
  }

  lemma ClaimMakes(v: Validators, s: State, w: nat)
    requires Step(v, s, Claim(w)).Some? && w in Step(v, s, Claim(w)).value.workers
    ensures w in s.workers && s.workers[w].Rechecked?
    ensures var k := s.workers[w]; var result := ClaimSpec(s.rows, s.eligible, k.rec.id, k.rec.version, LEASE, s.now);
            result.0.Ok?
            && Step(v, s, Claim(w)).value.workers[w] == Claimed(result.0.value, k.position, k.preview, k.quote)
  {
    hide ClaimSpec;
  }

  // After one step the worker of `e` carries `x` only if it did before or was told.
  predicate KeepsOrLearns(v: Validators, s: State, e: Event, x: News)
    requires OfWorker(e) && Step(v, s, e).Some?
  {
    var t := Step(v, s, e).value; var w := e.worker;
    w in t.workers && Carries(t.workers[w], x) ==>
      var id := t.workers[w].rec.id;
      (w in s.workers && s.workers[w].rec.id == id && Carries(s.workers[w], x)) || Tells(v, s, e, id, x)
  }

  lemma OwnNews(v: Validators, s: State, e: Event, x: News)
    requires OfWorker(e) && !e.Claim? && Step(v, s, e).Some?
    ensures KeepsOrLearns(v, s, e, x)
  {
    hide *;
    if e.CheckEligibility? || e.ReadPreview? || e.Requote? || e.Recheck? || e.CheckExpiry? {
      OwnAnswers(v, s, e, x);
    } else if e.ReceiveCreate? || e.ReceiveLookup? {
      OwnReplies(v, s, e, x);
    } else {
      OwnOther(v, s, e, x);
    }
  }

  lemma OwnReplies(v: Validators, s: State, e: Event, x: News)
    requires (e.ReceiveCreate? || e.ReceiveLookup?) && Step(v, s, e).Some?
    ensures KeepsOrLearns(v, s, e, x)
  {
    hide TellsUnfit;
  }

  lemma OwnOther(v: Validators, s: State, e: Event, x: News)
    requires OfWorker(e) && !e.Claim? && Step(v, s, e).Some? && !e.ReceiveCreate? && !e.ReceiveLookup?
    requires !(e.CheckEligibility? || e.ReadPreview? || e.Requote? || e.Recheck? || e.CheckExpiry?)
    ensures KeepsOrLearns(v, s, e, x)
  {
    hide ClaimSpec, MarkFinalSpec, MarkUncertainSpec, MarkSucceededSpec, RejectPendingSpec, Recoverable, Tells;
  }

  lemma OwnAnswers(v: Validators, s: State, e: Event, x: News)
    requires (e.CheckEligibility? || e.ReadPreview? || e.Requote? || e.Recheck? || e.CheckExpiry?) && Step(v, s, e).Some?
    ensures KeepsOrLearns(v, s, e, x)
  {
  }

  // Whatever a worker goes by, it was told about the request it holds; a recovery
  // closes a request for good only when Lookup says it was rejected.
  lemma {:induction false} CarriedWasTold(v: Validators, es: seq<Event>, w: nat, x: News)
    requires Run(v, EMPTY, es).Some? && w in Run(v, EMPTY, es).value.workers && Carries(Run(v, EMPTY, es).value.workers[w], x)
    ensures Told(v, es, Run(v, EMPTY, es).value.workers[w].rec.id, x)
    decreases |es|
  {
    if es != [] {
      var before, e := es[..|es| - 1], es[|es| - 1];
      RunLast(v, es);
      Reachable(v, before);
      var s := Run(v, EMPTY, before).value;
      hide Run, Step, Carries, Tells, Inv;
      CarriedNews(v, s, e, w, x);
      var id := Run(v, EMPTY, es).value.workers[w].rec.id;
      ToldLater(v, before, e, id, x);
      if w in s.workers && s.workers[w].rec.id == id && Carries(s.workers[w], x) {
        CarriedWasTold(v, before, w, x);
      }
    }
  }

  lemma StoredNews(v: Validators, s: State, e: Event, id: string, x: News)
    requires Step(v, s, e).Some? && id in Step(v, s, e).value.rows && Says(Step(v, s, e).value.rows[id], x)
    ensures (id in s.rows && Says(s.rows[id], x))
            || (OfWorker(e) && e.worker in s.workers && s.workers[e.worker].rec.id == id && Carries(s.workers[e.worker], x))
  {
    if e.RejectPending? || e.MarkUncertain? || e.MarkFinal? || e.MarkSucceeded? {
      hide *;
      MarkedNews(v, s, e, id, x);
    } else {
      hide ValidText, Usable, QuoteMatches, Accepts, Admits, Recoverable;
      hide MarkFinalSpec, MarkUncertainSpec, MarkSucceededSpec, RejectPendingSpec;
    }
  }

  lemma MarkedNews(v: Validators, s: State, e: Event, id: string, x: News)
    requires e.RejectPending? || e.MarkUncertain? || e.MarkFinal? || e.MarkSucceeded?
    requires Step(v, s, e).Some? && id in Step(v, s, e).value.rows && Says(Step(v, s, e).value.rows[id], x)
    ensures (id in s.rows && Says(s.rows[id], x))
            || (OfWorker(e) && e.worker in s.workers && s.workers[e.worker].rec.id == id && Carries(s.workers[e.worker], x))
  {
    hide ValidText;
  }

  // Every stored outcome was learned: a link and a refusal from the channel's answer
  // to a worker that held this very request, a doubt from its silence, and an
  // invalid result from what was read about preview and quote.
  lemma {:induction false} OutcomesWereTold(v: Validators, es: seq<Event>, id: string, x: News)
    requires Run(v, EMPTY, es).Some? && id in Run(v, EMPTY, es).value.rows && Says(Run(v, EMPTY, es).value.rows[id], x)
    ensures Told(v, es, id, x)
    decreases |es|
  {
    if es != [] {
      var before, e := es[..|es| - 1], es[|es| - 1];
      RunLast(v, es);
      var s := Run(v, EMPTY, before).value;
      hide Run, Step, Carries, Says, Tells;
      StoredNews(v, s, e, id, x);
      ToldLater(v, before, e, id, x);
      if id in s.rows && Says(s.rows[id], x) {
        OutcomesWereTold(v, before, id, x);
      } else {
        CarriedWasTold(v, before, e.worker, x);
      }
    }
  }

  lemma SentNews(v: Validators, s: State, e: Event, i: nat, x: News)
    requires Inv(v, s) && Step(v, s, e).Some? && i < |Step(v, s, e).value.log| && ReliesOn(Step(v, s, e).value.log[i], x)
    ensures var call := Step(v, s, e).value.log[i];
            (i < |s.log| && s.log[i] == call)
            || (call.CreateSent? && e.SendCreate? && e.worker in s.workers
                && s.workers[e.worker].rec.id == call.command.requestId && Carries(s.workers[e.worker], x))
  {
    assert Step(v, s, e).value.log[i].CreateSent?;
    if e.SendCreate? {
      var k := s.workers[e.worker];
      assert RequestId(k.rec) == k.rec.id by { Facts(v, s, e.worker); }
      hide Inv;
      assert Step(v, s, e).value.log == s.log + [SentBy(k)];
      if ReliesOn(SentBy(k), x) {
        SenderCarries(k, x);
      }
      hide *;
      assert i < |s.log| || Step(v, s, e).value.log[i] == SentBy(k);
    } else {
      OthersSendNothing(v, s, e);
      hide *;
    }
  }

  function SentBy(k: Worker): (call: Call)
    requires k.Sending?
    ensures call.CreateSent? && call.command.requestId == RequestId(k.rec)
  {
    CreateSent(CommandOf(k), k.preview, k.quote, k.checkedAt)
  }

  lemma SenderCarries(k: Worker, x: News)
    requires k.Sending? && ReliesOn(SentBy(k), x)
    ensures Carries(k, x)
  {
  }

  lemma OthersSendNothing(v: Validators, s: State, e: Event)
    requires Step(v, s, e).Some? && !e.SendCreate?
    ensures var log := Step(v, s, e).value.log;
            forall i | 0 <= i < |log| && log[i].CreateSent? :: i < |s.log| && s.log[i] == log[i]
  {
    hide ClaimSpec, MarkFinalSpec, MarkUncertainSpec, MarkSucceededSpec, RejectPendingSpec, Usable, QuoteMatches, Accepts;
  }

  // Every Create went to the account and external position that were found for
  // this very request, for the preview that was read and the quote that was given
  // for it, and after a second look at its eligibility.
  lemma {:induction false} CreatesRelyOnAnswers(v: Validators, es: seq<Event>, i: nat, x: News)
    requires Run(v, EMPTY, es).Some? && i < |Run(v, EMPTY, es).value.log| && ReliesOn(Run(v, EMPTY, es).value.log[i], x)
    ensures Run(v, EMPTY, es).value.log[i].CreateSent? && Told(v, es, Run(v, EMPTY, es).value.log[i].command.requestId, x)
    decreases |es|
  {
    if es != [] {
      var before, e := es[..|es| - 1], es[|es| - 1];
      RunLast(v, es);
      Reachable(v, before);
      var s := Run(v, EMPTY, before).value;
      hide Run, Step, Carries, ReliesOn, Tells, Inv;
      SentNews(v, s, e, i, x);
      var call := Run(v, EMPTY, es).value.log[i];
      ToldLater(v, before, e, call.command.requestId, x);
      if i < |s.log| && s.log[i] == call {
        CreatesRelyOnAnswers(v, before, i, x);
      } else {
        CarriedWasTold(v, before, e.worker, x);
      }
    }
  }
}
