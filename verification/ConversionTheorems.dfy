// The guarantees of the conversion worker, over every run: any number of
// workers, any interleaving, any replies, crashes and waits.
module ConversionTheorems {
  import opened Wrappers
  import opened Text
  import opened ConversionStore
  import opened ConversionProtocol
  import opened ConversionSafety

  lemma Reachable(v: Validators, es: seq<Event>)
    requires Run(v, EMPTY, es).Some?
    ensures Inv(v, Run(v, EMPTY, es).value)
  {
    RunKeeps(v, EMPTY, es);
  }

  // Create is invoked at most once per request, and never more often than the
  // stored attempt count says.
  lemma AtMostOneCreate(v: Validators, es: seq<Event>, id: string)
    requires Run(v, EMPTY, es).Some?
    ensures var s := Run(v, EMPTY, es).value;
            CreateCount(s.log, id) <= (if id in s.rows then s.rows[id].attemptCount else 0) <= 1
  {
    Reachable(v, es);
    var s := Run(v, EMPTY, es).value;
    if id in s.rows {
      assert RowOk(v, s.rows[id], s.log, id);
    }
  }

  // Whatever was sent was sent for the request's own tracking ID and product,
  // on terms that had just been requoted, before preview and quote expired.
  lemma EveryCreateIsJustified(v: Validators, es: seq<Event>, i: nat)
    requires Run(v, EMPTY, es).Some? && i < |Run(v, EMPTY, es).value.log|
    ensures var s := Run(v, EMPTY, es).value;
            s.log[i].CreateSent? ==>
              var c := s.log[i].command;
              c.requestId in s.rows && c.trackingId == s.rows[c.requestId].trackingId
              && c.externalProductId == s.log[i].preview.terms.externalProductId
              && s.log[i].quote.terms == s.log[i].preview.terms
              && s.log[i].preview.positionId == s.rows[c.requestId].positionId
              && s.log[i].preview.scene == s.rows[c.requestId].scene
              && s.log[i].checkedAt < s.log[i].preview.expiresAt && s.log[i].checkedAt < s.log[i].quote.expiresAt
  {
    Reachable(v, es);
    var s := Run(v, EMPTY, es).value;
    assert CallOk(s.rows, s.now, s.log[i]);
  }

  // The stored columns stay in a fixed relation; four versions at most.
  lemma RowsKeepTheirShape(v: Validators, es: seq<Event>, id: string)
    requires Run(v, EMPTY, es).Some? && id in Run(v, EMPTY, es).value.rows
    ensures RowShape(Run(v, EMPTY, es).value.rows[id]) && 1 <= Run(v, EMPTY, es).value.rows[id].version <= 4
  {
    Reachable(v, es);
    var s := Run(v, EMPTY, es).value;
    assert RowOk(v, s.rows[id], s.log, id);
  }

  predicate Succeeds(r: Record, next: Record)
  {
    next == r || (!Terminal(r) && SameRequest(r, next) && next.version == r.version + 1
      && next.attemptCount >= r.attemptCount)
  }

  lemma StepSucceeds(v: Validators, s: State, e: Event, id: string)
    requires Step(v, s, e).Some? && id in s.rows
    ensures var rows := Step(v, s, e).value.rows; id in rows && Succeeds(s.rows[id], rows[id])
  {
    if !e.Reserved? && !e.Tick? && !e.Reconfigure? && !e.Abort? && !e.Load? && !e.LoadForRecovery? {
      WorkerStepSucceeds(v, s, e, s.workers[e.worker], id);
    }
  }

  lemma WorkerStepSucceeds(v: Validators, s: State, e: Event, k: Worker, id: string)
    requires !e.Reserved? && !e.Tick? && !e.Reconfigure? && WorkerStep(v, s, e, e.worker, k).Some? && id in s.rows
    ensures var rows := WorkerStep(v, s, e, e.worker, k).value.rows; id in rows && Succeeds(s.rows[id], rows[id])
  {
    hide ValidText, Usable, QuoteMatches, Accepts, Admits;
  }

  // One event leaves a row alone or moves it to its next version.
  lemma StepMovesRows(v: Validators, s: State, e: Event, id: string)
    requires Inv(v, s) && Step(v, s, e).Some? && id in s.rows
    ensures var rows := Step(v, s, e).value.rows; id in rows && (rows[id] == s.rows[id] || Moves(s.rows[id], rows[id]))
  {
    hide Step, WorkerStep;
    StepSucceeds(v, s, e, id);
    StepKeeps(v, s, e);
    assert RowOk(v, Step(v, s, e).value.rows[id], Step(v, s, e).value.log, id);
  }

  lemma {:induction false} TerminalRowsStay(v: Validators, s: State, es: seq<Event>, id: string)
    requires Inv(v, s) && Run(v, s, es).Some? && id in s.rows && Terminal(s.rows[id])
    ensures id in Run(v, s, es).value.rows && Run(v, s, es).value.rows[id] == s.rows[id]
    decreases |es|
  {
    hide Inv, Moves;
    if es != [] {
      StepMovesRows(v, s, es[0], id);
      assert Moves(s.rows[id], Step(v, s, es[0]).value.rows[id]) ==> false by { TerminalDoesNotMove(s.rows[id]); }
      StepKeeps(v, s, es[0]);
      TerminalRowsStay(v, Step(v, s, es[0]).value, es[1..], id);
    }
  }

  lemma TerminalDoesNotMove(r: Record)
    requires Terminal(r)
    ensures forall next :: !Moves(r, next)
  {
  }

  // Once a request has an outcome, no later event changes its row.
  lemma TerminalRowsNeverChange(v: Validators, es: seq<Event>, fs: seq<Event>, id: string)
    requires Run(v, EMPTY, es + fs).Some? && Run(v, EMPTY, es).Some?
    requires id in Run(v, EMPTY, es).value.rows && Terminal(Run(v, EMPTY, es).value.rows[id])
    ensures id in Run(v, EMPTY, es + fs).value.rows
    ensures Run(v, EMPTY, es + fs).value.rows[id] == Run(v, EMPTY, es).value.rows[id]
  {
    Reachable(v, es);
    RunAppend(v, EMPTY, es, fs);
    TerminalRowsStay(v, Run(v, EMPTY, es).value, fs, id);
  }

  // All calls that return a terminal record for one request return the same
  // record, and it is the stored one.
  lemma OneOutcome(v: Validators, es: seq<Event>, i: nat, j: nat)
    requires Run(v, EMPTY, es).Some?
    requires var returned := Run(v, EMPTY, es).value.returned;
             i < |returned| && j < |returned| && returned[i].id == returned[j].id
             && returned[i].outcome.Ok? && returned[j].outcome.Ok?
             && Terminal(returned[i].outcome.value) && Terminal(returned[j].outcome.value)
    ensures var s := Run(v, EMPTY, es).value;
            s.returned[i].id in s.rows && s.returned[i].outcome == s.returned[j].outcome
            && s.returned[i].outcome.value == s.rows[s.returned[i].id]
  {
    Reachable(v, es);
    var s := Run(v, EMPTY, es).value;
    assert ReturnOk(s.rows, s.returned[i]) && ReturnOk(s.rows, s.returned[j]);
  }

  // A stored link was reported by the channel for this very request and
  // passed both validators.
  lemma LinksComeFromTheChannel(v: Validators, es: seq<Event>, id: string)
    requires Run(v, EMPTY, es).Some? && id in Run(v, EMPTY, es).value.rows
    requires Run(v, EMPTY, es).value.rows[id].linkUrl.Some?
    ensures var s := Run(v, EMPTY, es).value; var link := s.rows[id].linkUrl.value;
            s.rows[id].status == Succeeded && v.approved(link) && v.safe(link) && LinkReported(id, link) in s.log
  {
    Reachable(v, es);
    var s := Run(v, EMPTY, es).value;
    assert RowOk(v, s.rows[id], s.log, id);
  }

  // INVALID_RESULT means the channel was never asked, and never will be.
  lemma InvalidResultIsNeverSent(v: Validators, es: seq<Event>, fs: seq<Event>, id: string)
    requires Run(v, EMPTY, es).Some? && Run(v, EMPTY, es + fs).Some?
    requires id in Run(v, EMPTY, es).value.rows && Run(v, EMPTY, es).value.rows[id].failureCode == Some(InvalidResult)
    ensures CreateCount(Run(v, EMPTY, es + fs).value.log, id) == 0
  {
    Reachable(v, es);
    Reachable(v, es + fs);
    var s, t := Run(v, EMPTY, es).value, Run(v, EMPTY, es + fs).value;
    assert RowOk(v, s.rows[id], s.log, id);
    TerminalRowsNeverChange(v, es, fs, id);
    assert RowOk(v, t.rows[id], t.log, id);
  }

  // No request is lost: it waits to be claimed, is being worked on under a
  // lease, or is found by the recovery query and accepted by Recover.
  lemma UnfinishedIsWaitingLeasedOrRecoverable(v: Validators, es: seq<Event>, id: string)
    requires Run(v, EMPTY, es).Some? && id in Run(v, EMPTY, es).value.rows
    ensures var s := Run(v, EMPTY, es).value; var r := s.rows[id];
            !Terminal(r) ==>
              r.status == Pending
              || (r.status == Processing && r.leaseExpiresAt.Some? && r.leaseExpiresAt.value > s.now)
              || (NeedsRecovery(r, s.now) && Recoverable(r, s.now) && RequestId(r) == id && id != "")
  {
    Reachable(v, es);
    var s := Run(v, EMPTY, es).value;
    assert RowOk(v, s.rows[id], s.log, id);
  }

  // The recovery query selects exactly the rows that Recover itself accepts: those
  // marked uncertain and those whose lease has run out.
  lemma FilterIsGuard(v: Validators, es: seq<Event>, id: string)
    requires Run(v, EMPTY, es).Some? && id in Run(v, EMPTY, es).value.rows
    ensures var s := Run(v, EMPTY, es).value; var r := s.rows[id];
            (NeedsRecovery(r, s.now) <==> Recoverable(r, s.now))
            && (Recoverable(r, s.now)
                <==> !Terminal(r) && r.status != Pending && (r.leaseExpiresAt.Some? ==> r.leaseExpiresAt.value <= s.now))
  {
    Reachable(v, es);
    var s := Run(v, EMPTY, es).value;
    assert RowOk(v, s.rows[id], s.log, id);
  }

  // A request is claimed only while its owner and its position are ENABLED.
  lemma AttemptsNeedEligibility(v: Validators, es: seq<Event>, e: Event, id: string)
    requires Run(v, EMPTY, es).Some? && Step(v, Run(v, EMPTY, es).value, e).Some?
    requires var s := Run(v, EMPTY, es).value;
             id in s.rows && id in Step(v, s, e).value.rows
             && Step(v, s, e).value.rows[id].attemptCount != s.rows[id].attemptCount
    ensures e.Claim? && Run(v, EMPTY, es).value.rows[id].status == Pending
    ensures Admits(Run(v, EMPTY, es).value.eligible, Run(v, EMPTY, es).value.rows[id])
  {
  }

  // ---- How far the lease protects a worker that is about to send Create ----

  // With time left on the lease, the row is still exactly as it was claimed.
  lemma CreateUnderLease(v: Validators, es: seq<Event>, w: nat)
    requires Run(v, EMPTY, es).Some?
    requires var s := Run(v, EMPTY, es).value;
             w in s.workers && s.workers[w].Sending?
             && s.workers[w].rec.leaseExpiresAt.Some? && s.now < s.workers[w].rec.leaseExpiresAt.value
    ensures var s := Run(v, EMPTY, es).value; var rec := s.workers[w].rec;
            rec.id in s.rows && s.rows[rec.id] == rec && rec.status == Processing
  {
    Reachable(v, es);
    Facts(v, Run(v, EMPTY, es).value, w);
  }

  // What another worker can do to a claimed row without letting time pass.
  function Overtake(x: nat, id: string): seq<Event>
  {
    [LoadForRecovery(x, id), SendLookup(x), ReceiveLookup(x, LookupRejected), MarkFinal(x)]
  }

  // Without time left, it always can: a recovery worker that starts now may
  // close the request as rejected, and the claimant still sends its Create.
  lemma CreateAfterExpiredLease(v: Validators, es: seq<Event>, w: nat, x: nat)
    requires Run(v, EMPTY, es).Some?
    requires var s := Run(v, EMPTY, es).value;
             w in s.workers && s.workers[w].Sending? && x !in s.workers
             && s.workers[w].rec.id in s.rows && s.rows[s.workers[w].rec.id] == s.workers[w].rec
             && s.workers[w].rec.leaseExpiresAt.Some? && s.workers[w].rec.leaseExpiresAt.value <= s.now
    ensures var id := Run(v, EMPTY, es).value.workers[w].rec.id;
            var t := Run(v, EMPTY, es + Overtake(x, id) + [SendCreate(w)]);
            t.Some? && id in t.value.rows && t.value.rows[id].status == FailedFinal && CreateCount(t.value.log, id) == 1
  {
    hide Inv, RowShape, Step, Run;
    Reachable(v, es);
    var s := Run(v, EMPTY, es).value;
    Facts(v, s, w);
    var k := s.workers[w];
    var id := k.rec.id;
    ProcessingRow(k.rec);
    OvertakeRuns(v, s, x, id);
    RunAppend(v, EMPTY, es, Overtake(x, id));
    RunAppend(v, EMPTY, es + Overtake(x, id), [SendCreate(w)]);
    var t := Run(v, s, Overtake(x, id)).value;
    RunOne(v, t, SendCreate(w));
    SendsOnce(v, t, w);
    CountAppend(s.log, LookupSent(id), id);
  }

  lemma RunOne(v: Validators, s: State, e: Event)
    ensures Run(v, s, [e]) == Step(v, s, e)
  {
    assert [e][1..] == [];
    if Step(v, s, e).Some? {
      assert Run(v, Step(v, s, e).value, []) == Some(Step(v, s, e).value);
    }
  }

  lemma SendsOnce(v: Validators, t: State, w: nat)
    requires w in t.workers && t.workers[w].Sending?
    ensures var k := t.workers[w]; var u := Step(v, t, SendCreate(w));
            u.Some? && u.value.rows == t.rows
            && CreateCount(u.value.log, RequestId(k.rec)) == CreateCount(t.log, RequestId(k.rec)) + 1
  {
    var k := t.workers[w];
    CountAppend(t.log, CreateSent(CommandOf(k), k.preview, k.quote, k.checkedAt), RequestId(k.rec));
  }

  lemma OvertakeRuns(v: Validators, s: State, x: nat, id: string)
    requires Inv(v, s) && x !in s.workers && id in s.rows && s.rows[id].status == Processing && Recoverable(s.rows[id], s.now)
    ensures var r := Run(v, s, Overtake(x, id));
            r.Some? && r.value.workers == s.workers && r.value.log == s.log + [LookupSent(id)]
            && id in r.value.rows && r.value.rows[id].status == FailedFinal
  {
    hide Run, RowShape;
    var rec := s.rows[id];
    assert RowOk(v, rec, s.log, id) && RowShape(rec);
    ProcessingRow(rec);
    hide Inv, RowOk, Step, MarkFinalSpec;
    var s1 := Advance(s, x, Querying(rec));
    var s2 := Advance(s1.(log := s.log + [LookupSent(id)]), x, Asked(rec));
    var s3 := Advance(s2, x, Finalizing(rec, ChannelRejected, ByRecover));
    LoadsForRecovery(v, s, x, id);
    AsksAndIsRejected(v, s1, x, rec);
    ClosesAsRejected(v, s3, x, rec);
    RunFour(v, s, s1, s2, s3, LoadForRecovery(x, id), SendLookup(x), ReceiveLookup(x, LookupRejected), MarkFinal(x));
    assert Step(v, s3, MarkFinal(x)).value.workers == s.workers;
  }

  lemma LoadsForRecovery(v: Validators, s: State, x: nat, id: string)
    requires x !in s.workers && id in s.rows && Recoverable(s.rows[id], s.now) && RequestId(s.rows[id]) != ""
    ensures Step(v, s, LoadForRecovery(x, id)) == Some(Advance(s, x, Querying(s.rows[id])))
  {
  }

  lemma AsksAndIsRejected(v: Validators, s: State, x: nat, rec: Record)
    requires x in s.workers && s.workers[x] == Querying(rec)
    ensures var t := Advance(s.(log := s.log + [LookupSent(RequestId(rec))]), x, Asked(rec));
            Step(v, s, SendLookup(x)) == Some(t)
            && Step(v, t, ReceiveLookup(x, LookupRejected)) == Some(Advance(t, x,
              Finalizing(rec, ChannelRejected, ByRecover)))
  {
  }

  lemma ClosesAsRejected(v: Validators, s: State, x: nat, rec: Record)
    requires x in s.workers && s.workers[x] == Finalizing(rec, ChannelRejected, ByRecover) && rec.id in s.rows
             && s.rows[rec.id] == rec
    requires rec.status == Processing && rec.channelRequestId == Some(rec.id) && rec.version >= 1 && ValidText(rec.id, 128)
    ensures var t := Step(v, s, MarkFinal(x));
            t.Some? && t.value.workers == s.workers - {x} && t.value.log == s.log && rec.id in t.value.rows
            && t.value.rows[rec.id].status == FailedFinal
  {
    hide ValidText;
  }

  lemma ProcessingRow(r: Record)
    requires RowShape(r) && r.status == Processing
    ensures r.version == 2 && r.channelRequestId == Some(r.id) && ValidText(r.id, 128) && RequestId(r) == r.id && r.id != ""
  {
  }

  lemma RunFour(v: Validators, s: State, s1: State, s2: State, s3: State, a: Event, b: Event, c: Event, d: Event)
    requires Step(v, s, a) == Some(s1) && Step(v, s1, b) == Some(s2) && Step(v, s2, c) == Some(s3)
    ensures Run(v, s, [a, b, c, d]) == Step(v, s3, d)
  {
    hide Step, Run;
    RunCons(v, s, a, [b, c, d]);
    RunCons(v, s1, b, [c, d]);
    RunCons(v, s2, c, [d]);
    RunOne(v, s3, d);
    assert [a] + [b, c, d] == [a, b, c, d] && [b] + [c, d] == [b, c, d] && [c] + [d] == [c, d];
  }

  lemma RunCons(v: Validators, s: State, e: Event, es: seq<Event>)
    requires Step(v, s, e).Some?
    ensures Run(v, s, [e] + es) == Run(v, Step(v, s, e).value, es)
  {
    assert ([e] + es)[1..] == es;
  }

  // ---- Every fresh request can get there ----

  const TERMS := Terms("product", "name", 0, 0, 0, "rule")
  const POSITION := ChannelPosition("account", "position")

  function PreviewFor(r: Record): Snapshot
  {
    Snapshot(r.positionId, r.scene, "JD", TERMS, 1)
  }

  function UpToClaim(r: Record): seq<Event>
  {
    [Reserved(r)] + [Reconfigure(ConversionStore.Eligible({r.ownerUserId}, {(r.positionId, r.ownerUserId)}))] + [Load(0, r.id)]
    + [CheckEligibility(0, Ok(POSITION))] + [ReadPreview(0, Ok(PreviewFor(r)))] + [Requote(0, Some(Quote(TERMS, 1)))]
    + [Recheck(0, Ok(POSITION))]
  }

  function Slowly(r: Record): seq<Event>
  {
    UpToClaim(r) + [Claim(0)] + [CheckExpiry(0)] + [Tick(60)]
  }

  lemma RunThen(v: Validators, es: seq<Event>, s: State, e: Event, t: State)
    requires Run(v, EMPTY, es) == Some(s) && Step(v, s, e) == Some(t)
    ensures Run(v, EMPTY, es + [e]) == Some(t)
  {
    hide Run, Step;
    RunAppend(v, EMPTY, es, [e]);
    RunOne(v, s, e);
  }

  function Ready(r: Record): State
  {
    State(map[r.id := r], ConversionStore.Eligible({r.ownerUserId}, {(r.positionId, r.ownerUserId)}), 0,
          map[0 := Rechecked(r, POSITION, PreviewFor(r), Quote(TERMS, 1))], [], [])
  }

  lemma GetsReady(v: Validators, r: Record)
    requires IsFresh(r)
    ensures Run(v, EMPTY, UpToClaim(r)) == Some(Ready(r))
  {
    var ready := Ready(r);
    var quote := Quote(TERMS, 1);
    var s1 := State(map[r.id := r], Eligible({}, {}), 0, map[], [], []);
    var s2 := ready.(workers := map[]);
    var s3 := ready.(workers := map[0 := Loaded(r)]);
    var s4 := ready.(workers := map[0 := EligibleFor(r, POSITION)]);
    var s5 := ready.(workers := map[0 := Previewed(r, POSITION, PreviewFor(r))]);
    var s6 := ready.(workers := map[0 := Quoted(r, POSITION, PreviewFor(r), quote)]);
    RunOne(v, EMPTY, Reserved(r));
    assert Step(v, EMPTY, Reserved(r)) == Some(s1);
    RunThen(v, [Reserved(r)], s1, Reconfigure(ready.eligible), s2);
    OneWorker(s3, EligibleFor(r, POSITION));
    OneWorker(s4, Previewed(r, POSITION, PreviewFor(r)));
    OneWorker(s5, Quoted(r, POSITION, PreviewFor(r), quote));
    OneWorker(s6, Rechecked(r, POSITION, PreviewFor(r), quote));
    hide Run;
    var es := [Reserved(r)] + [Reconfigure(ready.eligible)];
    RunThen(v, es, s2, Load(0, r.id), s3);
    RunThen(v, es + [Load(0, r.id)], s3, CheckEligibility(0, Ok(POSITION)), s4);
    RunThen(v, es + [Load(0, r.id)] + [CheckEligibility(0, Ok(POSITION))], s4, ReadPreview(0, Ok(PreviewFor(r))), s5);
    RunThen(v, es + [Load(0, r.id)] + [CheckEligibility(0, Ok(POSITION))] + [ReadPreview(0, Ok(PreviewFor(r)))], s5,
            Requote(0, Some(quote)), s6);
    RunThen(v, es + [Load(0, r.id)] + [CheckEligibility(0, Ok(POSITION))] + [ReadPreview(0, Ok(PreviewFor(r)))]
            + [Requote(0, Some(quote))], s6, Recheck(0, Ok(POSITION)), ready);
  }

  lemma OneWorker(s: State, k: Worker)
    requires s.workers.Keys == {0}
    ensures Advance(s, 0, k) == s.(workers := map[0 := k])
  {
    assert s.workers[0 := k] == map[0 := k];
  }

  // From the empty table any fresh request comes to stand before its Create with
  // the lease just run out; then Recover closes it, and Create is still sent.
  lemma ExpiredLeaseIsReached(v: Validators, r: Record)
    requires IsFresh(r)
    ensures Run(v, EMPTY, Slowly(r)).Some?
    ensures var t := Run(v, EMPTY, Slowly(r) + Overtake(1, r.id) + [SendCreate(0)]);
            t.Some? && r.id in t.value.rows && t.value.rows[r.id].status == FailedFinal && CreateCount(t.value.log, r.id) == 1
  {
    GetsReady(v, r);
    var claimed := WithClaim(r, 60);
    var s0 := Ready(r);
    var s1 := s0.(rows := map[r.id := claimed], workers := map[0 := Claimed(claimed, POSITION, PreviewFor(r), Quote(TERMS, 1))]);
    var s2 := s1.(workers := map[0 := Sending(claimed, POSITION, PreviewFor(r), Quote(TERMS, 1), 0)]);
    assert s0.rows[r.id := claimed] == s1.rows;
    OneWorker(s0.(rows := s1.rows), s1.workers[0]);
    OneWorker(s1, s2.workers[0]);
    assert Step(v, s0, Claim(0)) == Some(s1);
    assert Step(v, s1, CheckExpiry(0)) == Some(s2);
    assert Step(v, s2, Tick(60)) == Some(s2.(now := 60));
    hide Run, Step;
    RunThen(v, UpToClaim(r), s0, Claim(0), s1);
    RunThen(v, UpToClaim(r) + [Claim(0)], s1, CheckExpiry(0), s2);
    RunThen(v, UpToClaim(r) + [Claim(0)] + [CheckExpiry(0)], s2, Tick(60), s2.(now := 60));
    CreateAfterExpiredLease(v, Slowly(r), 0, 1);
  }
}
