// What every reachable state of the conversion protocol keeps, and the
// theorems about whole runs that follow.
module ConversionSafety {
  import opened Wrappers
  import opened Text
  import opened ConversionStore
  import opened ConversionProtocol

  // The only combinations of columns a row can have.
  predicate RowShape(r: Record)
  {
    ValidText(r.id, 128) && r.attemptCount <= 1
    && (r.leaseExpiresAt.Some? <==> r.status == Processing)
    && (r.linkUrl.Some? <==> r.status == Succeeded)
    && (r.status == Pending <==> r.version == 1)
    && (r.status != Pending ==> r.channelRequestId == Some(r.id))
    && match r.status
       case Pending => r.attemptCount == 0 && r.channelRequestId == None && r.failureCode == None
       case Processing => r.version == 2 && r.attemptCount == 1 && r.failureCode == None
       case FailedRetryable => r.version == 3 && r.attemptCount == 1 && r.failureCode == Some(QueryRequired)
       case Succeeded => r.version in {3, 4} && r.attemptCount == 1 && r.failureCode == None
       case FailedFinal =>
         (r.failureCode == Some(InvalidResult) && r.version == 2 + r.attemptCount)
         || (r.failureCode == Some(ChannelRejected) && r.version in {3, 4} && r.attemptCount == 1)
  }

  predicate SameRequest(a: Record, b: Record)
  {
    a.id == b.id && a.ownerUserId == b.ownerUserId && a.positionId == b.positionId
    && a.previewId == b.previewId && a.trackingId == b.trackingId && a.scene == b.scene
  }

  // A copy of a row some worker read or wrote: versions only grow, and a
  // version number identifies the whole row.
  predicate Fenced(rows: Table, copy: Record)
  {
    RowShape(copy) && copy.id in rows && SameRequest(copy, rows[copy.id]) && copy.version <= rows[copy.id].version
    && (copy.version == rows[copy.id].version ==> copy == rows[copy.id])
    && (Terminal(copy) ==> copy == rows[copy.id])
  }

  // The worker that claimed a request; only it may call Create for it.
  predicate Owns(k: Worker)
  {
    k.Claimed? || k.Sending? || k.Sent? || ((k.Doubting? || k.Finalizing? || k.Succeeding?) && k.path == ByRun)
  }

  // The claimant has not called Create, or never will.
  predicate BeforeCreate(k: Worker)
  {
    k.Claimed? || k.Sending? || (k.Finalizing? && k.code == InvalidResult)
  }

  predicate Matched(r: Record, preview: Snapshot)
  {
    preview.positionId == r.positionId && preview.scene == r.scene && preview.channel == "JD"
  }

  predicate Justified(r: Record, preview: Snapshot, quote: Quote, at: int, now: int)
  {
    Matched(r, preview) && quote.terms == preview.terms
    && at < preview.expiresAt && at < quote.expiresAt && at <= now
  }

  predicate Reported(log: seq<Call>, id: string, link: string)
  {
    LinkReported(id, link) in log
  }

  // What holds of a worker's local variables, by where it stands.
  predicate Local(v: Validators, log: seq<Call>, now: int, k: Worker)
  {
    match k
    case Loaded(r) => r.status == Pending
    case EligibleFor(r, _) => r.status == Pending
    case Previewed(r, _, p) => r.status == Pending && Matched(r, p)
    case Quoted(r, _, p, q) => r.status == Pending && Matched(r, p) && q.terms == p.terms
    case Rechecked(r, _, p, q) => r.status == Pending && Matched(r, p) && q.terms == p.terms
    case Rejecting(r) => r.status == Pending
    case Claimed(r, _, p, q) => r.status == Processing && Matched(r, p) && q.terms == p.terms
    case Sending(r, _, p, q, at) => r.status == Processing && Justified(r, p, q, at, now)
    case Sent(r) => r.status == Processing
    case Querying(r) => Recoverable(r, now)
    case Asked(r) => Recoverable(r, now)
    case Doubting(r, path) => r.status == Processing && (path == ByRecover ==> Recoverable(r, now))
    case Finalizing(r, code, path) =>
      code != QueryRequired && (path == ByRun ==> r.status == Processing)
      && (path == ByRecover ==> code == ChannelRejected && Recoverable(r, now))
    case Succeeding(r, link, path) =>
      Accepts(v, link) && Reported(log, r.id, link) && (path == ByRun ==> r.status == Processing)
      && (path == ByRecover ==> Recoverable(r, now))
  }

  // While the claim's lease runs, nobody else touches the row.
  predicate LeaseHeld(rows: Table, now: int, k: Worker)
  {
    Owns(k) && k.rec.id in rows && k.rec.leaseExpiresAt.Some? && now < k.rec.leaseExpiresAt.value ==> rows[k.rec.id] == k.rec
  }

  predicate WorkerOk(v: Validators, rows: Table, log: seq<Call>, now: int, k: Worker)
  {
    Fenced(rows, k.rec) && Local(v, log, now, k) && LeaseHeld(rows, now, k)
    && (BeforeCreate(k) ==> CreateCount(log, k.rec.id) == 0 && rows[k.rec.id].failureCode != Some(InvalidResult))
  }

  predicate RowOk(v: Validators, r: Record, log: seq<Call>, id: string)
  {
    r.id == id && RowShape(r) && CreateCount(log, id) <= r.attemptCount
    && (r.failureCode == Some(InvalidResult) ==> CreateCount(log, id) == 0)
    && (r.linkUrl.Some? ==> Accepts(v, r.linkUrl.value) && Reported(log, id, r.linkUrl.value))
  }

  // Every Create in the log was for a known request, carried that request's
  // tracking ID and the previewed product, and was justified when last checked.
  predicate CallOk(rows: Table, now: int, call: Call)
  {
    call.CreateSent? ==>
      call.command.requestId in rows && call.command.trackingId == rows[call.command.requestId].trackingId
      && call.command.externalProductId == call.preview.terms.externalProductId
      && Justified(rows[call.command.requestId], call.preview, call.quote, call.checkedAt, now)
  }

  predicate ReturnOk(rows: Table, ret: Return)
  {
    ret.outcome.Ok? ==> ret.outcome.value.id == ret.id && Fenced(rows, ret.outcome.value)
  }

  predicate RowsOk(v: Validators, rows: Table, log: seq<Call>)
  {
    forall id | id in rows :: RowOk(v, rows[id], log, id)
  }

  ghost predicate NoStrayCreate(rows: Table, log: seq<Call>)
  {
    forall id | id !in rows :: CreateCount(log, id) == 0
  }

  predicate WorkersOk(v: Validators, rows: Table, log: seq<Call>, now: int, workers: map<nat, Worker>)
  {
    forall w | w in workers :: WorkerOk(v, rows, log, now, workers[w])
  }

  predicate OneOwner(workers: map<nat, Worker>)
  {
    forall w, x | w in workers && x in workers && Owns(workers[w]) && Owns(workers[x])
                  && workers[w].rec.id == workers[x].rec.id :: w == x
  }

  predicate CallsOk(rows: Table, now: int, log: seq<Call>)
  {
    forall i | 0 <= i < |log| :: CallOk(rows, now, log[i])
  }

  predicate ReturnsOk(rows: Table, returned: seq<Return>)
  {
    forall i | 0 <= i < |returned| :: ReturnOk(rows, returned[i])
  }

  ghost predicate Inv(v: Validators, s: State)
  {
    RowsOk(v, s.rows, s.log) && NoStrayCreate(s.rows, s.log) && WorkersOk(v, s.rows, s.log, s.now, s.workers)
    && OneOwner(s.workers) && CallsOk(s.rows, s.now, s.log) && ReturnsOk(s.rows, s.returned)
  }

  // ---- Building blocks: how each part of a step keeps the invariant ----

  lemma CountAppend(log: seq<Call>, call: Call, id: string)
    ensures CreateCount(log + [call], id)
            == CreateCount(log, id) + if call.CreateSent? && call.command.requestId == id then 1 else 0
  {
    assert (log + [call])[..|log|] == log;
  }

  predicate NoOtherOwner(workers: map<nat, Worker>, w: nat, id: string)
  {
    forall x | x in workers && x != w && Owns(workers[x]) :: workers[x].rec.id != id
  }

  lemma AdvanceKeeps(v: Validators, s: State, w: nat, next: Worker)
    requires Inv(v, s) && WorkerOk(v, s.rows, s.log, s.now, next)
    requires Owns(next) ==> NoOtherOwner(s.workers, w, next.rec.id)
    ensures Inv(v, Advance(s, w, next))
  {
  }

  lemma RemoveKeeps(v: Validators, s: State, w: nat)
    requires Inv(v, s)
    ensures Inv(v, s.(workers := s.workers - {w}))
  {
  }

  lemma FinishKeeps(v: Validators, s: State, w: nat, id: string, outcome: Outcome)
    requires Inv(v, s) && ReturnOk(s.rows, Return(w, id, outcome))
    ensures Inv(v, Finish(s, w, id, outcome))
  {
  }

  lemma LocalAfterCall(v: Validators, log: seq<Call>, call: Call, now: int, k: Worker)
    requires Local(v, log, now, k)
    ensures Local(v, log + [call], now, k)
  {
  }

  lemma ReplyKeeps(v: Validators, s: State, call: Call)
    requires Inv(v, s) && !call.CreateSent?
    ensures Inv(v, s.(log := s.log + [call]))
  {
    var log := s.log + [call];
    forall id ensures CreateCount(log, id) == CreateCount(s.log, id) {
      CountAppend(s.log, call, id);
    }
    forall w | w in s.workers
      ensures WorkerOk(v, s.rows, log, s.now, s.workers[w])
    {
      LocalAfterCall(v, s.log, call, s.now, s.workers[w]);
    }
  }

  lemma CreateKeeps(v: Validators, s: State, call: Call)
    requires Inv(v, s) && call.CreateSent? && CallOk(s.rows, s.now, call)
    requires var id := call.command.requestId;
             id in s.rows && s.rows[id].attemptCount == 1 && CreateCount(s.log, id) == 0
             && s.rows[id].failureCode != Some(InvalidResult)
             && forall w | w in s.workers && BeforeCreate(s.workers[w]) :: s.workers[w].rec.id != id
    ensures Inv(v, s.(log := s.log + [call]))
  {
    var log := s.log + [call];
    forall id ensures CreateCount(log, id)
                      == CreateCount(s.log, id) + if call.command.requestId == id then 1 else 0 {
      CountAppend(s.log, call, id);
    }
    forall w | w in s.workers
      ensures WorkerOk(v, s.rows, log, s.now, s.workers[w])
    {
      LocalAfterCall(v, s.log, call, s.now, s.workers[w]);
    }
  }

  // One row moves to its next version.
  predicate Moves(r: Record, next: Record)
  {
    !Terminal(r) && SameRequest(r, next) && RowShape(next) && next.version == r.version + 1
    && next.attemptCount >= r.attemptCount
  }

  lemma FencedAfterMove(rows: Table, id: string, next: Record, copy: Record)
    requires id in rows && rows[id].id == id && Moves(rows[id], next) && Fenced(rows, copy)
    ensures Fenced(rows[id := next], copy)
  {
  }

  lemma WorkerAfterMove(v: Validators, rows: Table, log: seq<Call>, now: int, id: string, next: Record, k: Worker)
    requires id in rows && rows[id].id == id && Moves(rows[id], next) && WorkerOk(v, rows, log, now, k)
    requires k.rec.id == id ==> LeaseHeld(rows[id := next], now, k)
    requires next.failureCode == Some(InvalidResult) && BeforeCreate(k) ==> k.rec.id != id
    ensures WorkerOk(v, rows[id := next], log, now, k)
  {
    FencedAfterMove(rows, id, next, k.rec);
  }

  lemma MoveKeeps(v: Validators, s: State, id: string, next: Record)
    requires Inv(v, s) && id in s.rows && Moves(s.rows[id], next)
    requires forall w | w in s.workers && s.workers[w].rec.id == id :: LeaseHeld(s.rows[id := next], s.now, s.workers[w])
    requires next.failureCode == Some(InvalidResult) ==>
               CreateCount(s.log, id) == 0 && forall w | w in s.workers
                 && BeforeCreate(s.workers[w]) :: s.workers[w].rec.id != id
    requires next.linkUrl.Some? ==> Accepts(v, next.linkUrl.value) && Reported(s.log, id, next.linkUrl.value)
    ensures Inv(v, s.(rows := s.rows[id := next]))
  {
    var rows := s.rows[id := next];
    assert RowOk(v, s.rows[id], s.log, id);
    forall w | w in s.workers
      ensures WorkerOk(v, rows, s.log, s.now, s.workers[w])
    {
      WorkerAfterMove(v, s.rows, s.log, s.now, id, next, s.workers[w]);
    }
    forall i | 0 <= i < |s.returned|
      ensures ReturnOk(rows, s.returned[i])
    {
      if s.returned[i].outcome.Ok? {
        FencedAfterMove(s.rows, id, next, s.returned[i].outcome.value);
      }
    }
    assert CallsOk(rows, s.now, s.log) by {
      forall i | 0 <= i < |s.log|
        ensures CallOk(rows, s.now, s.log[i])
      {
        assert CallOk(s.rows, s.now, s.log[i]);
      }
    }
  }

  // ---- Every event keeps the invariant ----

  lemma Facts(v: Validators, s: State, w: nat)
    requires Inv(v, s) && w in s.workers
    ensures WorkerOk(v, s.rows, s.log, s.now, s.workers[w])
    ensures var id := s.workers[w].rec.id; id in s.rows && RowOk(v, s.rows[id], s.log, id)
    ensures Owns(s.workers[w]) ==> NoOtherOwner(s.workers, w, s.workers[w].rec.id)
    ensures Owns(s.workers[w]) ==>
              forall x | x in s.workers && x != w && BeforeCreate(s.workers[x]) :: s.workers[x].rec.id != s.workers[w].rec.id
  {
    assert WorkerOk(v, s.rows, s.log, s.now, s.workers[w]);
    forall x | x in s.workers && BeforeCreate(s.workers[x])
      ensures Owns(s.workers[x])
    {
      assert WorkerOk(v, s.rows, s.log, s.now, s.workers[x]);
    }
  }

  // An owner claimed its row, so the row has left version 1.
  lemma OwnersHavePassedPending(v: Validators, s: State, id: string, w: nat)
    requires Inv(v, s) && id in s.rows && s.rows[id].status == Pending
    ensures NoOtherOwner(s.workers, w, id)
    ensures forall x | x in s.workers && BeforeCreate(s.workers[x]) :: s.workers[x].rec.id != id
  {
    forall x | x in s.workers && (Owns(s.workers[x]) || BeforeCreate(s.workers[x]))
      ensures s.workers[x].rec.id != id
    {
      assert WorkerOk(v, s.rows, s.log, s.now, s.workers[x]);
      assert RowOk(v, s.rows[id], s.log, id);
    }
  }

  // May worker `k` write the row it still holds, without breaking a lease?
  predicate MayWrite(k: Worker, now: int)
  {
    k.rec.status == Pending || Owns(k) || Recoverable(k.rec, now)
  }

  lemma OthersKeepTheirLease(v: Validators, s: State, w: nat, next: Record, x: nat)
    requires Inv(v, s) && w in s.workers && x in s.workers && x != w
    requires var k := s.workers[w]; s.rows[k.rec.id] == k.rec && MayWrite(k, s.now) && Moves(k.rec, next)
    requires s.workers[x].rec.id == s.workers[w].rec.id
    ensures LeaseHeld(s.rows[s.workers[w].rec.id := next], s.now, s.workers[x])
    ensures BeforeCreate(s.workers[x]) && BeforeCreate(s.workers[w]) ==> false
  {
    assert WorkerOk(v, s.rows, s.log, s.now, s.workers[w]);
    assert WorkerOk(v, s.rows, s.log, s.now, s.workers[x]);
  }

  // A worker whose compare-and-swap succeeds: the row moves, the worker leaves.
  lemma CommitKeeps(v: Validators, s: State, w: nat, next: Record)
    requires Inv(v, s) && w in s.workers
    requires var k := s.workers[w]; k.rec.id in s.rows && s.rows[k.rec.id] == k.rec && MayWrite(k, s.now) && Moves(k.rec, next)
    requires next.failureCode == Some(InvalidResult) ==> s.workers[w].rec.status == Pending || BeforeCreate(s.workers[w])
    requires next.linkUrl.Some? ==> Accepts(v, next.linkUrl.value) && Reported(s.log, next.id, next.linkUrl.value)
    ensures Inv(v, s.(rows := s.rows[s.workers[w].rec.id := next], workers := s.workers - {w}))
  {
    var k := s.workers[w];
    var id := k.rec.id;
    var t := s.(workers := s.workers - {w});
    RemoveKeeps(v, s, w);
    assert WorkerOk(v, s.rows, s.log, s.now, k) && RowOk(v, s.rows[id], s.log, id);
    forall x | x in t.workers && t.workers[x].rec.id == id
      ensures LeaseHeld(t.rows[id := next], t.now, t.workers[x])
    {
      OthersKeepTheirLease(v, s, w, next, x);
    }
    if next.failureCode == Some(InvalidResult) {
      forall x | x in t.workers && BeforeCreate(t.workers[x])
        ensures t.workers[x].rec.id != id
      {
        if t.workers[x].rec.id == id {
          OthersKeepTheirLease(v, s, w, next, x);
          if k.rec.status == Pending {
            OwnersHavePassedPending(v, s, id, w);
          }
        }
      }
    }
    MoveKeeps(v, t, id, next);
  }

  // `next` is a row the worker may write over the row it still holds.
  predicate Writes(v: Validators, s: State, w: nat, next: Record)
    requires w in s.workers
  {
    var k := s.workers[w];
    k.rec.id in s.rows && s.rows[k.rec.id] == k.rec && MayWrite(k, s.now) && Moves(k.rec, next)
    && (next.failureCode == Some(InvalidResult) ==> k.rec.status == Pending || BeforeCreate(k))
    && (next.linkUrl.Some? ==> Accepts(v, next.linkUrl.value) && Reported(s.log, next.id, next.linkUrl.value))
  }

  lemma WriteKeeps(v: Validators, s: State, w: nat, result: (Outcome, Table))
    requires Inv(v, s) && w in s.workers
    requires result.0.Err? ==> result.1 == s.rows
    requires result.0.Ok? ==> Writes(v, s, w, result.0.value) && result.1 == s.rows[s.workers[w].rec.id := result.0.value]
    ensures Inv(v, Write(s, w, s.workers[w].rec.id, result))
  {
    var id := s.workers[w].rec.id;
    if result.0.Err? {
      assert s.(rows := result.1) == s;
      FinishKeeps(v, s, w, id, result.0);
    } else {
      SuccessKeeps(v, s, w, result.0.value);
    }
  }

  lemma SuccessKeeps(v: Validators, s: State, w: nat, next: Record)
    requires Inv(v, s) && w in s.workers && Writes(v, s, w, next)
    ensures Inv(v, Finish(s.(rows := s.rows[s.workers[w].rec.id := next]), w, s.workers[w].rec.id, Ok(next)))
  {
    CommitKeeps(v, s, w, next);
    var id := s.workers[w].rec.id;
    var rows := s.rows[id := next];
    assert ReturnOk(rows, Return(w, id, Ok(next))) by { assert WorkerOk(v, s.rows, s.log, s.now, s.workers[w]); }
    hide *;
    var t := s.(rows := rows, workers := s.workers - {w});
    assert Inv(v, t);
    FinishKeeps(v, t, w, id, Ok(next));
    SuccessIsFinish(s, w, next);
  }

  lemma SuccessIsFinish(s: State, w: nat, next: Record)
    requires w in s.workers
    ensures var id := s.workers[w].rec.id;
            Finish(s.(rows := s.rows[id := next], workers := s.workers - {w}), w, id, Ok(next))
            == Finish(s.(rows := s.rows[id := next]), w, id, Ok(next))
  {
    assert s.workers - {w} - {w} == s.workers - {w};
  }

  lemma MarkKeeps(v: Validators, s: State, e: Event, w: nat)
    requires Inv(v, s) && w in s.workers && WorkerStep(v, s, e, w, s.workers[w]).Some?
    requires e.RejectPending? || e.MarkUncertain? || e.MarkFinal? || e.MarkSucceeded?
    ensures Inv(v, WorkerStep(v, s, e, w, s.workers[w]).value)
  {
    hide Inv;
    Facts(v, s, w);
    var k := s.workers[w];
    assert WorkerOk(v, s.rows, s.log, s.now, k);
    var result :=
      if e.RejectPending? then RejectPendingSpec(s.rows, k.rec.id, k.rec.version)
      else if e.MarkUncertain? then MarkUncertainSpec(s.rows, k.rec.id, RequestId(k.rec), k.rec.version)
      else if e.MarkFinal? then MarkFinalSpec(s.rows, k.rec.id, RequestId(k.rec), k.rec.version, k.code)
      else MarkSucceededSpec(s.rows, v.safe, k.rec.id, RequestId(k.rec), k.rec.version, k.link);
    WriteKeeps(v, s, w, result);
  }

  lemma ClaimKeeps(v: Validators, s: State, w: nat)
    requires Inv(v, s) && w in s.workers && s.workers[w].Rechecked?
    ensures Inv(v, ClaimStep(s, w, s.workers[w]))
  {
    hide Inv;
    Facts(v, s, w);
    var k := s.workers[w];
    var id := k.rec.id;
    assert WorkerOk(v, s.rows, s.log, s.now, k);
    var result := ClaimSpec(s.rows, s.eligible, id, k.rec.version, LEASE, s.now);
    match result.0
    case Err(_) =>
      FinishKeeps(v, s, w, id, result.0);
    case Ok(next) =>
      assert RowOk(v, s.rows[id], s.log, id);
      CommitKeeps(v, s, w, next);
      OwnersHavePassedPending(v, s, id, w);
      var t := s.(rows := s.rows[id := next], workers := s.workers - {w});
      AdvanceKeeps(v, t, w, Claimed(next, k.position, k.preview, k.quote));
      assert t.workers[w := Claimed(next, k.position, k.preview, k.quote)]
          == s.workers[w := Claimed(next, k.position, k.preview, k.quote)];
  }

  lemma SendCreateKeeps(v: Validators, s: State, w: nat)
    requires Inv(v, s) && w in s.workers && s.workers[w].Sending?
    ensures Inv(v, SendCreateStep(s, w, s.workers[w]))
  {
    hide Inv;
    Facts(v, s, w);
    var k := s.workers[w];
    assert WorkerOk(v, s.rows, s.log, s.now, k) && RowOk(v, s.rows[k.rec.id], s.log, k.rec.id);
    var call := CreateSent(CommandOf(k), k.preview, k.quote, k.checkedAt);
    var t := s.(workers := s.workers - {w});
    RemoveKeeps(v, s, w);
    CreateKeeps(v, t, call);
    var u := t.(log := s.log + [call]);
    AdvanceKeeps(v, u, w, Sent(k.rec));
    assert u.workers[w := Sent(k.rec)] == s.workers[w := Sent(k.rec)];
  }

  lemma ReceiveCreateKeeps(v: Validators, s: State, w: nat, created: CreateReply)
    requires Inv(v, s) && w in s.workers && s.workers[w].Sent?
    ensures Inv(v, ReceiveCreateStep(v, s, w, s.workers[w], created))
  {
    hide Inv;
    Facts(v, s, w);
    var k := s.workers[w];
    assert WorkerOk(v, s.rows, s.log, s.now, k);
    match created
    case Rejected => AdvanceKeeps(v, s, w, Finalizing(k.rec, ChannelRejected, ByRun));
    case Failed => AdvanceKeeps(v, s, w, Doubting(k.rec, ByRun));
    case Link(url) =>
      var t := s.(log := s.log + [LinkReported(RequestId(k.rec), url)]);
      ReplyKeeps(v, s, LinkReported(RequestId(k.rec), url));
      assert WorkerOk(v, t.rows, t.log, t.now, k);
      AdvanceKeeps(v, t, w, if Accepts(v, url) then Succeeding(k.rec, url, ByRun) else Doubting(k.rec, ByRun));
  }

  lemma ReceiveLookupKeeps(v: Validators, s: State, w: nat, found: LookupReply)
    requires Inv(v, s) && w in s.workers && s.workers[w].Asked?
    ensures Inv(v, ReceiveLookupStep(v, s, w, s.workers[w], found))
  {
    hide Inv;
    Facts(v, s, w);
    var k := s.workers[w];
    assert WorkerOk(v, s.rows, s.log, s.now, k);
    match found
    case LookupRejected => AdvanceKeeps(v, s, w, Finalizing(k.rec, ChannelRejected, ByRecover));
    case LookupOther => FinishKeeps(v, s, w, k.rec.id, Err(Unavailable));
    case LookupSucceeded(url) =>
      var t := s.(log := s.log + [LinkReported(RequestId(k.rec), url)]);
      ReplyKeeps(v, s, LinkReported(RequestId(k.rec), url));
      assert WorkerOk(v, t.rows, t.log, t.now, k);
      if Accepts(v, url) {
        AdvanceKeeps(v, t, w, Succeeding(k.rec, url, ByRecover));
      } else {
        FinishKeeps(v, t, w, k.rec.id, Err(Unavailable));
      }
    case _ =>
      if k.rec.status == Processing {
        AdvanceKeeps(v, s, w, Doubting(k.rec, ByRecover));
      } else {
        FinishKeeps(v, s, w, k.rec.id, Ok(k.rec));
      }
  }

  // The remaining worker events change only the worker itself.
  lemma PreparationKeeps(v: Validators, s: State, e: Event, w: nat)
    requires Inv(v, s) && w in s.workers && WorkerStep(v, s, e, w, s.workers[w]).Some?
    requires e.CheckEligibility? || e.ReadPreview? || e.Requote? || e.Recheck?
    ensures Inv(v, WorkerStep(v, s, e, w, s.workers[w]).value)
  {
    hide Inv;
    Facts(v, s, w);
    var k := s.workers[w];
    match e
    case CheckEligibility(_, Ok(p)) => AdvanceKeeps(v, s, w, EligibleFor(k.rec, p));
    case CheckEligibility(_, Err(error)) => FinishKeeps(v, s, w, k.rec.id, Err(error));
    case ReadPreview(_, Ok(p)) =>
      AdvanceKeeps(v, s, w, if Usable(k.rec, p, s.now) then Previewed(k.rec, k.position, p) else Rejecting(k.rec));
    case ReadPreview(_, Err(error)) => FinishKeeps(v, s, w, k.rec.id, Err(error));
    case Requote(_, Some(q)) =>
      AdvanceKeeps(v, s, w, if k.preview.expiresAt > s.now && QuoteMatches(k.preview, q, s.now)
                            then Quoted(k.rec, k.position, k.preview, q) else Rejecting(k.rec));
    case Requote(_, None) => FinishKeeps(v, s, w, k.rec.id, Err(Unavailable));
    case Recheck(_, Ok(_)) => AdvanceKeeps(v, s, w, Rechecked(k.rec, k.position, k.preview, k.quote));
    case Recheck(_, Err(error)) => FinishKeeps(v, s, w, k.rec.id, Err(error));
  }

  lemma CheckExpiryKeeps(v: Validators, s: State, w: nat)
    requires Inv(v, s) && w in s.workers && s.workers[w].Claimed?
    ensures Inv(v, CheckExpiryStep(s, w, s.workers[w]))
  {
    hide Inv;
    Facts(v, s, w);
    var k := s.workers[w];
    AdvanceKeeps(v, s, w, if k.preview.expiresAt > s.now && k.quote.expiresAt > s.now
                          then Sending(k.rec, k.position, k.preview, k.quote, s.now)
                          else Finalizing(k.rec, InvalidResult, ByRun));
  }

  lemma LookupSentKeeps(v: Validators, s: State, w: nat)
    requires Inv(v, s) && w in s.workers && s.workers[w].Querying?
    ensures Inv(v, SendLookupStep(s, w, s.workers[w]))
  {
    hide Inv;
    Facts(v, s, w);
    var k := s.workers[w];
    assert WorkerOk(v, s.rows, s.log, s.now, k);
    ReplyKeeps(v, s, LookupSent(RequestId(k.rec)));
    AdvanceKeeps(v, s.(log := s.log + [LookupSent(RequestId(k.rec))]), w, Asked(k.rec));
  }

  lemma LoadKeeps(v: Validators, s: State, w: nat, id: string)
    requires Inv(v, s) && w !in s.workers
    ensures Inv(v, LoadStep(s, w, id)) && Inv(v, LoadForRecoveryStep(s, w, id))
  {
    FinishKeeps(v, s, w, id, Err(NotFound));
    FinishKeeps(v, s, w, id, Err(StateConflict));
    FinishKeeps(v, s, w, id, Err(Invalid));
    if id in s.rows {
      assert RowOk(v, s.rows[id], s.log, id);
      if s.rows[id].status == Pending {
        AdvanceKeeps(v, s, w, Loaded(s.rows[id]));
      }
      if Recoverable(s.rows[id], s.now) {
        AdvanceKeeps(v, s, w, Querying(s.rows[id]));
      }
    }
  }

  lemma ReservedKeeps(v: Validators, s: State, r: Record)
    requires Inv(v, s) && r.id !in s.rows && IsFresh(r)
    ensures Inv(v, s.(rows := s.rows[r.id := r]))
  {
    var rows := s.rows[r.id := r];
    forall w | w in s.workers
      ensures WorkerOk(v, rows, s.log, s.now, s.workers[w])
    {
      assert WorkerOk(v, s.rows, s.log, s.now, s.workers[w]);
    }
    assert CallsOk(rows, s.now, s.log) by {
      forall i | 0 <= i < |s.log|
        ensures CallOk(rows, s.now, s.log[i])
      {
        assert CallOk(s.rows, s.now, s.log[i]);
      }
    }
  }

  lemma TickKeeps(v: Validators, s: State, seconds: nat)
    requires Inv(v, s)
    ensures Inv(v, s.(now := s.now + seconds))
  {
    var now := s.now + seconds;
    forall w | w in s.workers
      ensures WorkerOk(v, s.rows, s.log, now, s.workers[w])
    {
      assert WorkerOk(v, s.rows, s.log, s.now, s.workers[w]);
    }
    forall i | 0 <= i < |s.log|
      ensures CallOk(s.rows, now, s.log[i])
    {
      assert CallOk(s.rows, s.now, s.log[i]);
    }
  }

  lemma ReconfigureKeeps(v: Validators, s: State, eligible: Eligible)
    requires Inv(v, s)
    ensures Inv(v, s.(eligible := eligible))
  {
  }

  lemma StepKeeps(v: Validators, s: State, e: Event)
    requires Inv(v, s) && Step(v, s, e).Some?
    ensures Inv(v, Step(v, s, e).value)
  {
    hide Inv;
    match e
    case Reserved(r) => ReservedKeeps(v, s, r);
    case Tick(seconds) => TickKeeps(v, s, seconds);
    case Reconfigure(eligible) => ReconfigureKeeps(v, s, eligible);
    case Abort(w) => RemoveKeeps(v, s, w);
    case Load(w, id) => LoadKeeps(v, s, w, id);
    case LoadForRecovery(w, id) => LoadKeeps(v, s, w, id);
    case Claim(w) => ClaimKeeps(v, s, w);
    case SendCreate(w) => SendCreateKeeps(v, s, w);
    case ReceiveCreate(w, created) => ReceiveCreateKeeps(v, s, w, created);
    case SendLookup(w) => LookupSentKeeps(v, s, w);
    case ReceiveLookup(w, found) => ReceiveLookupKeeps(v, s, w, found);
    case RejectPending(w) => MarkKeeps(v, s, e, w);
    case MarkUncertain(w) => MarkKeeps(v, s, e, w);
    case MarkFinal(w) => MarkKeeps(v, s, e, w);
    case MarkSucceeded(w) => MarkKeeps(v, s, e, w);
    case CheckExpiry(w) => CheckExpiryKeeps(v, s, w);
    case _ => PreparationKeeps(v, s, e, e.worker);
  }

  lemma {:induction false} RunKeeps(v: Validators, s: State, es: seq<Event>)
    requires Inv(v, s) && Run(v, s, es).Some?
    ensures Inv(v, Run(v, s, es).value)
    decreases |es|
  {
    if es != [] {
      StepKeeps(v, s, es[0]);
      RunKeeps(v, Step(v, s, es[0]).value, es[1..]);
    }
  }
}
