// The conversion worker in its own imperative form: a database whose rows the
// repository updates in place, a channel, and RunPending and Recover as the
// straight-line code of internal/conversion/executor.go. Between any two calls
// `Interfere` lets everybody else act. The ghost `history` records the events
// that happened, and `Valid` says they are a run of the protocol that ends in
// the present state: every theorem about runs is a theorem about this code.
module ConversionExecutor {
  import opened Wrappers
  import opened Text
  import opened ConversionStore
  import opened ConversionProtocol
  import opened ConversionSafety
  import opened ConversionTheorems
  import opened ConversionOutcomes

  // The answers of everything outside the database, in the order RunPending asks.
  datatype Answers = Answers(
    position: Result<ChannelPosition, Error>, preview: Result<Snapshot, Error>, quote: Option<Quote>,
    verdict: Result<ChannelPosition, Error>, created: CreateReply)

  lemma RunExtend(v: Validators, s: State, es: seq<Event>, t: State, e: Event)
    requires Run(v, s, es) == Some(t) && Step(v, t, e).Some?
    ensures Run(v, s, es + [e]) == Step(v, t, e)
  {
    RunAppend(v, s, es, [e]);
    assert [e][1..] == [];
  }

  ghost predicate Grown(past: seq<Event>, present: seq<Event>)
  {
    past <= present
  }

  lemma GrownFurther(a: seq<Event>, b: seq<Event>, c: seq<Event>)
    requires Grown(a, b) && Grown(b, c)
    ensures Grown(a, c)
  {
  }

  lemma RowsCarryTheirId(v: Validators, es: seq<Event>, id: string)
    requires Run(v, EMPTY, es).Some?
    ensures var rows := Run(v, EMPTY, es).value.rows; id in rows ==> rows[id].id == id
  {
    Reachable(v, es);
    var s := Run(v, EMPTY, es).value;
    assert id in s.rows ==> RowOk(v, s.rows[id], s.log, id);
  }

  lemma AskedRecord(v: Validators, es: seq<Event>, w: nat)
    requires Run(v, EMPTY, es).Some? && w in Run(v, EMPTY, es).value.workers && Run(v, EMPTY, es).value.workers[w].Asked?
    ensures var r := Run(v, EMPTY, es).value.workers[w].rec;
            r.status == Processing || (r.status == FailedRetryable && r.failureCode == Some(QueryRequired))
  {
    Reachable(v, es);
    AskedIsUncertain(v, Run(v, EMPTY, es).value, w);
  }

  function Marked(v: Validators, rows: Table, k: Worker): (Outcome, Table)
    requires k.Rejecting? || k.Doubting? || k.Finalizing? || k.Succeeding?
  {
    match k
    case Rejecting(rec) => RejectPendingSpec(rows, rec.id, rec.version)
    case Doubting(rec, _) => MarkUncertainSpec(rows, rec.id, RequestId(rec), rec.version)
    case Finalizing(rec, code, _) => MarkFinalSpec(rows, rec.id, RequestId(rec), rec.version, code)
    case Succeeding(rec, link, _) => MarkSucceededSpec(rows, v.safe, rec.id, RequestId(rec), rec.version, link)
  }

  lemma WritingIs(v: Validators, s: State, w: nat)
    requires w in s.workers
    requires var k := s.workers[w]; k.Rejecting? || k.Doubting? || k.Finalizing? || k.Succeeding?
    ensures var k := s.workers[w];
            Step(v, s, Writing(w, k)) == Some(Write(s, w, k.rec.id, Marked(v, s.rows, k)))
  {
    hide MarkFinalSpec, MarkUncertainSpec, MarkSucceededSpec, RejectPendingSpec;
  }

  // The write that a worker with a verdict makes, seen from what it returned.
  lemma Settled(v: Validators, s: State, w: nat, out: Outcome)
    requires HasCopy(v, s, w)
    requires var k := s.workers[w];
             (k.Rejecting? || k.Doubting? || k.Finalizing? || k.Succeeding?) && Step(v, s, Writing(w, k)).Some?
             && Step(v, s, Writing(w, k)).value.returned == s.returned + [Return(w, k.rec.id, out)]
    ensures var k := s.workers[w];
            k.rec.id in s.rows
            && if s.rows[k.rec.id] == k.rec then out.Ok? && Ends(k, out.value) else out == Err(StateConflict)
  {
    var k := s.workers[w];
    hide Step, HasCopy;
    if k.Rejecting? {
      StoresUnfit(v, s, w);
    } else if k.Doubting? {
      StoresUncertain(v, s, w);
    } else if k.Succeeding? {
      StoresLink(v, s, w);
    } else {
      StoresFinal(v, s, w);
    }
    assert s.returned + [Return(w, k.rec.id, out)] == Step(v, s, Writing(w, k)).value.returned;
    assert (s.returned + [Return(w, k.rec.id, out)])[|s.returned|].outcome == out;
  }

  // The filter of RecoveryCandidates over rows listed by `order`.
  function Candidates(rows: Table, order: seq<string>, now: int): seq<Record>
  {
    if order == [] then []
    else
      var last := order[|order| - 1];
      Candidates(rows, order[..|order| - 1], now)
      + if last in rows && NeedsRecovery(rows[last], now) then [rows[last]] else []
  }

  class Cluster {
    const v: Validators
    var rows: Table
    var eligible: Eligible
    var now: int
    var workers: map<nat, Worker>
    var log: seq<Call>
    var returned: seq<Return>
    ghost var history: seq<Event>

    ghost predicate Valid()
      reads this
    {
      Run(v, EMPTY, history) == Some(View())
    }

    // Exactly this event happened since the state `before`, with history `past`.
    ghost predicate Happened(before: State, past: seq<Event>, e: Event)
      reads this
    {
      history == past + [e] && Step(v, before, e) == Some(View())
    }

    function View(): State
      reads this
    {
      State(rows, eligible, now, workers, log, returned)
    }

    constructor (v: Validators)
      ensures this.v == v && View() == EMPTY && Valid()
    {
      this.v := v;
      rows, eligible, now, workers, log, returned := map[], Eligible({}, {}), 0, map[], [], [];
      history := [];
    }

    // ---- state_repository.go ----

    method Claim(id: string, version: int, lease: int) returns (out: Outcome)
      modifies this`rows
      ensures (out, rows) == ClaimSpec(old(rows), eligible, id, version, lease, now)
    {
      if !ValidText(id, 128) || version < 1 || lease <= 0 || lease > MAX_LEASE {
        return Err(Invalid);
      }
      if !Holds(rows, id, version, {Pending}) {
        return Err(StateConflict);
      }
      if rows[id].ownerUserId !in eligible.profiles {
        return Err(StateConflict);
      }
      if (rows[id].positionId, rows[id].ownerUserId) !in eligible.positions {
        return Err(StateConflict);
      }
      var claimed := rows[id].(status := Processing, channelRequestId := Some(rows[id].id),
        attemptCount := rows[id].attemptCount + 1, leaseExpiresAt := Some(now + lease), version := rows[id].version + 1);
      rows := rows[id := claimed];
      return Ok(claimed);
    }

    method MarkUncertain(id: string, channelRequestId: string, version: int) returns (out: Outcome)
      modifies this`rows
      ensures (out, rows) == MarkUncertainSpec(old(rows), id, channelRequestId, version)
    {
      if !ValidText(id, 128) || channelRequestId != id || version < 1 {
        return Err(Invalid);
      }
      if !HoldsRequest(rows, id, channelRequestId, version, {Processing}) {
        return Err(StateConflict);
      }
      rows := rows[id := rows[id].(status := FailedRetryable, leaseExpiresAt := None,
        failureCode := Some(QueryRequired), version := rows[id].version + 1)];
      return Ok(rows[id]);
    }

    method MarkFinal(id: string, channelRequestId: string, version: int, code: FailureCode) returns (out: Outcome)
      modifies this`rows
      ensures (out, rows) == MarkFinalSpec(old(rows), id, channelRequestId, version, code)
    {
      if !ValidText(id, 128) || channelRequestId != id || version < 1 || (code != ChannelRejected && code != InvalidResult) {
        return Err(Invalid);
      }
      if !HoldsRequest(rows, id, channelRequestId, version, {Processing, FailedRetryable}) {
        return Err(StateConflict);
      }
      rows := rows[id := rows[id].(status := FailedFinal, leaseExpiresAt := None,
        failureCode := Some(code), version := rows[id].version + 1)];
      return Ok(rows[id]);
    }

    method RejectPending(id: string, version: int) returns (out: Outcome)
      modifies this`rows
      ensures (out, rows) == RejectPendingSpec(old(rows), id, version)
    {
      if !ValidText(id, 128) || version < 1 {
        return Err(Invalid);
      }
      if !Holds(rows, id, version, {Pending}) {
        return Err(StateConflict);
      }
      rows := rows[id := rows[id].(status := FailedFinal, channelRequestId := Some(id),
        failureCode := Some(InvalidResult), version := rows[id].version + 1)];
      return Ok(rows[id]);
    }

    method MarkSucceeded(id: string, channelRequestId: string, version: int, link: string) returns (out: Outcome)
      modifies this`rows
      ensures (out, rows) == MarkSucceededSpec(old(rows), v.safe, id, channelRequestId, version, link)
    {
      if !ValidText(id, 128) || channelRequestId != id || version < 1 || !v.safe(link) {
        return Err(Invalid);
      }
      if !HoldsRequest(rows, id, channelRequestId, version, {Processing, FailedRetryable}) {
        return Err(StateConflict);
      }
      rows := rows[id := rows[id].(status := Succeeded, leaseExpiresAt := None, failureCode := None,
        linkUrl := Some(link), version := rows[id].version + 1)];
      return Ok(rows[id]);
    }

    // `order` lists the row IDs by (updated_at, id).
    method RecoveryCandidates(order: seq<string>, limit: int) returns (out: Result<seq<Record>, Error>)
      ensures limit < 1 || limit > 100 <==> out == Err(Invalid)
      ensures out.Ok? ==>
                var all := Candidates(rows, order, now); out.value == all[..if |all| < limit then |all| else limit]
    {
      if limit < 1 || limit > 100 {
        return Err(Invalid);
      }
      var found: seq<Record> := [];
      var i := 0;
      while i < |order| && |found| < limit
        invariant 0 <= i <= |order|
        invariant found == Candidates(rows, order[..i], now) && |found| <= limit
      {
        assert order[..i + 1][..i] == order[..i];
        if order[i] in rows && NeedsRecovery(rows[order[i]], now) {
          found := found + [rows[order[i]]];
        }
        i := i + 1;
      }
      CandidatesPrefix(rows, order, i, now);
      assert order[..|order|] == order;
      return Ok(found);
    }

    // ---- Everybody else ----

    method Interfere(w: nat, others: seq<Event>)
      requires Valid()
      modifies this`rows, this`eligible, this`now, this`workers, this`log, this`returned, this`history
      ensures Valid() && Grown(old(history), history)
      ensures (w in old(workers) <==> w in workers) && (w in workers ==> workers[w] == old(workers)[w])
    {
      var i := 0;
      while i < |others|
        invariant 0 <= i <= |others|
        invariant Valid() && Grown(old(history), history)
        invariant (w in old(workers) <==> w in workers) && (w in workers ==> workers[w] == old(workers)[w])
      {
        var next := Step(v, View(), others[i]);
        if ByOther(others[i], w) && next.Some? {
          OthersLeaveWorker(v, View(), others[i], w);
          RunExtend(v, EMPTY, history, View(), others[i]);
          history := history + [others[i]];
          var t := next.value;
          rows, eligible, now, workers, log, returned := t.rows, t.eligible, t.now, t.workers, t.log, t.returned;
        }
        i := i + 1;
      }
    }

    // ---- One worker's calls, each a step of the protocol ----

    // The call is over: this is what it returned.
    ghost predicate Ended(w: nat, id: string, out: Outcome)
      reads this
    {
      w !in workers && |returned| > 0 && returned[|returned| - 1] == Return(w, id, out)
    }

    ghost predicate At(w: nat, k: Worker)
      reads this
    {
      w in workers && workers[w] == k
    }

    method Leave(w: nat, id: string, out: Outcome)
      modifies this`workers, this`returned
      ensures View() == Finish(old(View()), w, id, out)
    {
      workers := workers - {w};
      returned := returned + [Return(w, id, out)];
    }

    method Find(w: nat, id: string) returns (r: Outcome)
      requires Valid() && w !in workers
      modifies this`workers, this`returned, this`history
      ensures Valid() && Grown(old(history), history)
      ensures Happened(old(View()), old(history), Load(w, id))
      ensures match r case Ok(rec) => rec.id == id && At(w, Loaded(rec)) case Err(_) => Ended(w, id, r)
    {
      RowsCarryTheirId(v, history, id);
      RunExtend(v, EMPTY, history, View(), Load(w, id));
      history := history + [Load(w, id)];
      if id !in rows {
        r := Err(NotFound);
        Leave(w, id, r);
      } else if rows[id].status != Pending {
        r := Err(StateConflict);
        Leave(w, id, r);
      } else {
        r := Ok(rows[id]);
        workers := workers[w := Loaded(rows[id])];
      }
    }

    method CheckPosition(w: nat, answer: Result<ChannelPosition, Error>) returns (ok: bool)
      requires Valid() && w in workers && workers[w].Loaded?
      modifies this`workers, this`returned, this`history
      ensures Valid() && Grown(old(history), history)
      ensures Happened(old(View()), old(history), CheckEligibility(w, answer))
      ensures var rec := old(workers)[w].rec;
              if ok then answer.Ok? && At(w, EligibleFor(rec, answer.value))
              else answer.Err? && Ended(w, rec.id, Err(answer.error))
    {
      RunExtend(v, EMPTY, history, View(), CheckEligibility(w, answer));
      history := history + [CheckEligibility(w, answer)];
      var rec := workers[w].rec;
      if answer.Err? {
        Leave(w, rec.id, Err(answer.error));
        return false;
      }
      workers := workers[w := EligibleFor(rec, answer.value)];
      return true;
    }

    // Some(true): usable; Some(false): to be rejected; None: the read failed.
    method CheckPreview(w: nat, answer: Result<Snapshot, Error>) returns (usable: Option<bool>)
      requires Valid() && w in workers && workers[w].EligibleFor?
      modifies this`workers, this`returned, this`history
      ensures Valid() && Grown(old(history), history)
      ensures Happened(old(View()), old(history), ReadPreview(w, answer))
      ensures var k := old(workers)[w];
              match usable
              case Some(true) => answer.Ok? && At(w, Previewed(k.rec, k.position, answer.value))
              case Some(false) => answer.Ok? && At(w, Rejecting(k.rec))
              case None => answer.Err? && Ended(w, k.rec.id, Err(answer.error))
    {
      RunExtend(v, EMPTY, history, View(), ReadPreview(w, answer));
      history := history + [ReadPreview(w, answer)];
      var k := workers[w];
      if answer.Err? {
        Leave(w, k.rec.id, Err(answer.error));
        return None;
      }
      var snapshot := answer.value;
      if snapshot.positionId != k.rec.positionId || snapshot.scene != k.rec.scene || snapshot.channel != "JD"
         || !(snapshot.expiresAt > now) {
        workers := workers[w := Rejecting(k.rec)];
        return Some(false);
      }
      workers := workers[w := Previewed(k.rec, k.position, snapshot)];
      return Some(true);
    }

    method CheckQuote(w: nat, answer: Option<Quote>) returns (usable: Option<bool>)
      requires Valid() && w in workers && workers[w].Previewed?
      modifies this`workers, this`returned, this`history
      ensures Valid() && Grown(old(history), history)
      ensures Happened(old(View()), old(history), Requote(w, answer))
      ensures var k := old(workers)[w];
              match usable
              case Some(true) => answer.Some? && At(w, Quoted(k.rec, k.position, k.preview, answer.value))
              case Some(false) => answer.Some? && At(w, Rejecting(k.rec))
              case None => answer.None? && Ended(w, k.rec.id, Err(Unavailable))
    {
      RunExtend(v, EMPTY, history, View(), Requote(w, answer));
      history := history + [Requote(w, answer)];
      var k := workers[w];
      if answer.None? {
        Leave(w, k.rec.id, Err(Unavailable));
        return None;
      }
      if !(k.preview.expiresAt > now) || !QuoteMatches(k.preview, answer.value, now) {
        workers := workers[w := Rejecting(k.rec)];
        return Some(false);
      }
      workers := workers[w := Quoted(k.rec, k.position, k.preview, answer.value)];
      return Some(true);
    }

    method CheckAgain(w: nat, verdict: Result<ChannelPosition, Error>) returns (ok: bool)
      requires Valid() && w in workers && workers[w].Quoted?
      modifies this`workers, this`returned, this`history
      ensures Valid() && Grown(old(history), history)
      ensures Happened(old(View()), old(history), Recheck(w, verdict))
      ensures var k := old(workers)[w];
              if ok then verdict.Ok? && At(w, Rechecked(k.rec, k.position, k.preview, k.quote))
              else verdict.Err? && Ended(w, k.rec.id, Err(verdict.error))
    {
      RunExtend(v, EMPTY, history, View(), Recheck(w, verdict));
      history := history + [Recheck(w, verdict)];
      var k := workers[w];
      if verdict.Err? {
        Leave(w, k.rec.id, Err(verdict.error));
        return false;
      }
      workers := workers[w := Rechecked(k.rec, k.position, k.preview, k.quote)];
      return true;
    }

    method TryClaim(w: nat) returns (out: Outcome)
      requires Valid() && w in workers && workers[w].Rechecked?
      modifies this`rows, this`workers, this`returned, this`history
      ensures Valid() && Grown(old(history), history)
      ensures Happened(old(View()), old(history), ConversionProtocol.Claim(w))
      ensures var k := old(workers)[w];
              match out
              case Ok(claimed) => claimed.id == k.rec.id && At(w, Claimed(claimed, k.position, k.preview, k.quote))
              case Err(_) => Ended(w, k.rec.id, out)
    {
      RowsCarryTheirId(v, history, workers[w].rec.id);
      RunExtend(v, EMPTY, history, View(), ConversionProtocol.Claim(w));
      history := history + [ConversionProtocol.Claim(w)];
      var k := workers[w];
      out := Claim(k.rec.id, k.rec.version, LEASE);
      match out
      case Err(e) => Leave(w, k.rec.id, out);
      case Ok(claimed) => workers := workers[w := Claimed(claimed, k.position, k.preview, k.quote)];
    }

    method CheckExpirations(w: nat) returns (live: bool)
      requires Valid() && w in workers && workers[w].Claimed?
      modifies this`workers, this`history
      ensures Valid() && Grown(old(history), history)
      ensures Happened(old(View()), old(history), CheckExpiry(w))
      ensures var k := old(workers)[w];
              At(w, if live then Sending(k.rec, k.position, k.preview, k.quote, now)
                else Finalizing(k.rec, InvalidResult, ByRun))
    {
      RunExtend(v, EMPTY, history, View(), CheckExpiry(w));
      history := history + [CheckExpiry(w)];
      var k := workers[w];
      live := k.preview.expiresAt > now && k.quote.expiresAt > now;
      workers := workers[w := if live then Sending(k.rec, k.position, k.preview, k.quote, now)
                              else Finalizing(k.rec, InvalidResult, ByRun)];
    }

    method CallCreate(w: nat)
      requires Valid() && w in workers && workers[w].Sending?
      modifies this`workers, this`log, this`history
      ensures Valid() && Grown(old(history), history)
      ensures Happened(old(View()), old(history), SendCreate(w))
      ensures At(w, Sent(old(workers)[w].rec))
    {
      RunExtend(v, EMPTY, history, View(), SendCreate(w));
      history := history + [SendCreate(w)];
      var k := workers[w];
      log := log + [CreateSent(CreateCommand(RequestId(k.rec), k.rec.trackingId, k.preview.terms.externalProductId,
        k.position.accountId, k.position.externalPositionId), k.preview, k.quote, k.checkedAt)];
      workers := workers[w := Sent(k.rec)];
    }

    method CreateReturned(w: nat, created: CreateReply)
      requires Valid() && w in workers && workers[w].Sent?
      modifies this`workers, this`log, this`history
      ensures Valid() && Grown(old(history), history)
      ensures Happened(old(View()), old(history), ReceiveCreate(w, created))
      ensures var rec := old(workers)[w].rec;
              At(w, match created
                    case Rejected => Finalizing(rec, ChannelRejected, ByRun)
                    case Failed => Doubting(rec, ByRun)
                    case Link(url) => if Accepts(v, url) then Succeeding(rec, url, ByRun) else Doubting(rec, ByRun))
    {
      RunExtend(v, EMPTY, history, View(), ReceiveCreate(w, created));
      history := history + [ReceiveCreate(w, created)];
      var rec := workers[w].rec;
      if created.Link? {
        log := log + [LinkReported(RequestId(rec), created.url)];
      }
      if created.Rejected? {
        workers := workers[w := Finalizing(rec, ChannelRejected, ByRun)];
      } else if created.Failed? || !v.approved(created.url) || !v.safe(created.url) {
        workers := workers[w := Doubting(rec, ByRun)];
      } else {
        workers := workers[w := Succeeding(rec, created.url, ByRun)];
      }
    }

    // The last call of either entry point: persist the outcome and return it.
    method Persist(w: nat) returns (out: Outcome)
      requires Valid() && w in workers
      requires var k := workers[w]; k.Rejecting? || k.Doubting? || k.Finalizing? || k.Succeeding?
      modifies this`rows, this`workers, this`returned, this`history
      ensures Valid() && Grown(old(history), history)
      ensures Ended(w, old(workers)[w].rec.id, out)
      ensures var k := old(workers)[w];
              k.rec.id in old(rows)
              && if old(rows)[k.rec.id] == k.rec then out.Ok? && Ends(k, out.value) else out == Err(StateConflict)
    {
      ghost var s := View();
      Reachable(v, history);
      HoldsItsCopy(v, s, w);
      hide *;
      out := Mark(w);
      Settled(v, s, w, out);
    }

    method Mark(w: nat) returns (out: Outcome)
      requires Valid() && w in workers
      requires var k := workers[w]; k.Rejecting? || k.Doubting? || k.Finalizing? || k.Succeeding?
      modifies this`rows, this`workers, this`returned, this`history
      ensures Valid() && Grown(old(history), history) && Ended(w, old(workers)[w].rec.id, out)
      ensures Step(v, old(View()), Writing(w, old(workers)[w])).Some?
      ensures Step(v, old(View()), Writing(w, old(workers)[w])).value.returned
           == old(returned) + [Return(w, old(workers)[w].rec.id, out)]
    {
      var k := workers[w];
      ghost var before, e := View(), Writing(w, k);
      WritingIs(v, before, w);
      out := MarkRow(k);
      hide Marked, Step, Writing;
      Leave(w, k.rec.id, out);
      RunExtend(v, EMPTY, history, before, e);
      history := history + [e];
    }

    method MarkRow(k: Worker) returns (out: Outcome)
      requires k.Rejecting? || k.Doubting? || k.Finalizing? || k.Succeeding?
      modifies this`rows
      ensures (out, rows) == Marked(v, old(rows), k)
    {
      hide MarkFinalSpec, MarkUncertainSpec, MarkSucceededSpec, RejectPendingSpec;
      match k {
        case Rejecting(rec) =>
          out := RejectPending(rec.id, rec.version);
        case Doubting(rec, _) =>
          out := MarkUncertain(rec.id, RequestId(rec), rec.version);
        case Finalizing(rec, code, _) =>
          out := MarkFinal(rec.id, RequestId(rec), rec.version, code);
        case Succeeding(rec, link, _) =>
          out := MarkSucceeded(rec.id, RequestId(rec), rec.version, link);
      }
    }

    // ---- executor.go ----

    // What the caller of RunPending or Recover can rely on: the call was a run
    // of the protocol, it logged what it returned, Create was invoked at most
    // once for the request, and a terminal result is the stored one.
    ghost predicate Concluded(past: seq<Event>, w: nat, id: string, out: Outcome)
      reads this
    {
      Valid() && Grown(past, history) && Ended(w, id, out) && CreateCount(log, id) <= 1
      && (out.Ok? ==> out.value.id == id && id in rows && (Terminal(out.value) ==> rows[id] == out.value))
    }

    lemma Conclude(past: seq<Event>, w: nat, id: string, out: Outcome)
      requires Valid() && Grown(past, history) && Ended(w, id, out)
      ensures Concluded(past, w, id, out)
    {
      AtMostOneCreate(v, history, id);
      Reachable(v, history);
      assert ReturnOk(rows, returned[|returned| - 1]);
    }

    method RunPending(w: nat, id: string, answers: Answers, others: nat -> seq<Event>) returns (out: Outcome)
      requires Valid() && w !in workers
      modifies this
      ensures Concluded(old(history), w, id, out)
      ensures out.Ok? ==>
                answers.position.Ok? && answers.preview.Ok?
                && (Dropped(out.value)
                    || (answers.quote.Some? && answers.verdict.Ok? && EndsByCreate(v, answers.created, out.value)))
    {
      hide Valid, Grown, Happened;
      out := Perform(w, id, answers, others);
      Conclude(old(history), w, id, out);
    }

    // Lines 60-78, then on.
    method Perform(w: nat, id: string, answers: Answers, others: nat -> seq<Event>) returns (out: Outcome)
      requires Valid() && w !in workers
      modifies this
      ensures Valid() && Grown(old(history), history) && Ended(w, id, out)
      ensures out.Ok? ==>
                answers.position.Ok? && answers.preview.Ok?
                && (Dropped(out.value)
                    || (answers.quote.Some? && answers.verdict.Ok? && EndsByCreate(v, answers.created, out.value)))
    {
      hide Valid, Grown, Happened;
      out := Find(w, id);
      if out.Err? {
        return;
      }
      ghost var h1 := history;
      Interfere(w, others(0));
      GrownFurther(old(history), h1, history);
      ghost var h2 := history;
      var admitted := CheckPosition(w, answers.position);
      GrownFurther(old(history), h2, history);
      if !admitted {
        return Err(answers.position.error);
      }
      ghost var h3 := history;
      out := Inspect(w, id, answers, others);
      GrownFurther(old(history), h3, history);
    }

    // Lines 71-78, then on.
    method Inspect(w: nat, id: string, answers: Answers, others: nat -> seq<Event>) returns (out: Outcome)
      requires Valid() && w in workers && workers[w].EligibleFor? && workers[w].rec.id == id
      modifies this
      ensures Valid() && Grown(old(history), history) && Ended(w, id, out)
      ensures out.Ok? ==>
                answers.preview.Ok?
                && (Dropped(out.value)
                    || (answers.quote.Some? && answers.verdict.Ok? && EndsByCreate(v, answers.created, out.value)))
    {
      hide Valid, Grown, Happened;
      Interfere(w, others(1));
      ghost var h1 := history;
      var usable := CheckPreview(w, answers.preview);
      GrownFurther(old(history), h1, history);
      ghost var h2 := history;
      match usable {
        case None =>
          return Err(answers.preview.error);
        case Some(true) =>
          out := Price(w, id, answers, others);
        case Some(false) =>
          out := Settle(w, id, others(2));
      }
      GrownFurther(old(history), h2, history);
    }

    // Lines 79-86, then on.
    method Price(w: nat, id: string, answers: Answers, others: nat -> seq<Event>) returns (out: Outcome)
      requires Valid() && w in workers && workers[w].Previewed? && workers[w].rec.id == id
      modifies this
      ensures Valid() && Grown(old(history), history) && Ended(w, id, out)
      ensures out.Ok? ==>
                answers.quote.Some?
                && (Dropped(out.value) || (answers.verdict.Ok? && EndsByCreate(v, answers.created, out.value)))
    {
      hide Valid, Grown, Happened;
      Interfere(w, others(3));
      ghost var h1 := history;
      var usable := CheckQuote(w, answers.quote);
      GrownFurther(old(history), h1, history);
      ghost var h2 := history;
      match usable {
        case None =>
          return Err(Unavailable);
        case Some(true) =>
          out := Dispatch(w, id, answers, others);
        case Some(false) =>
          out := Settle(w, id, others(4));
      }
      GrownFurther(old(history), h2, history);
    }

    // Lines 87-101, then on.
    method Dispatch(w: nat, id: string, answers: Answers, others: nat -> seq<Event>) returns (out: Outcome)
      requires Valid() && w in workers && workers[w].Quoted? && workers[w].rec.id == id
      modifies this
      ensures Valid() && Grown(old(history), history) && Ended(w, id, out)
      ensures out.Ok? ==> answers.verdict.Ok? && (Dropped(out.value) || EndsByCreate(v, answers.created, out.value))
    {
      hide Valid, Grown, Happened;
      Interfere(w, others(5));
      ghost var h1 := history;
      var admitted := CheckAgain(w, answers.verdict);
      GrownFurther(old(history), h1, history);
      if !admitted {
        return Err(answers.verdict.error);
      }
      ghost var h2 := history;
      Interfere(w, others(6));
      GrownFurther(old(history), h2, history);
      ghost var h3 := history;
      out := TryClaim(w);
      GrownFurther(old(history), h3, history);
      if out.Err? {
        return;
      }
      ghost var h4 := history;
      out := Execute(w, id, answers.created, others);
      GrownFurther(old(history), h4, history);
    }

    // Lines 96-119: the claim is held.
    method Execute(w: nat, id: string, created: CreateReply, others: nat -> seq<Event>) returns (out: Outcome)
      requires Valid() && w in workers && workers[w].Claimed? && workers[w].rec.id == id
      modifies this
      ensures Valid() && Grown(old(history), history) && Ended(w, id, out)
      ensures out.Ok? ==> Dropped(out.value) || EndsByCreate(v, created, out.value)
    {
      hide Valid, Grown, Happened;
      Interfere(w, others(7));
      ghost var h1 := history;
      var live := CheckExpirations(w);
      GrownFurther(old(history), h1, history);
      ghost var h2 := history;
      if live {
        out := Exchange(w, id, created, others);
      } else {
        out := Settle(w, id, others(8));
      }
      GrownFurther(old(history), h2, history);
    }

    // Lines 102-119: Create, its reply, and what is stored about it.
    method Exchange(w: nat, id: string, created: CreateReply, others: nat -> seq<Event>) returns (out: Outcome)
      requires Valid() && w in workers && workers[w].Sending? && workers[w].rec.id == id
      modifies this
      ensures Valid() && Grown(old(history), history) && Ended(w, id, out)
      ensures out.Ok? ==> EndsByCreate(v, created, out.value)
    {
      hide Valid, Grown, Happened;
      Interfere(w, others(9));
      ghost var h1 := history;
      CallCreate(w);
      GrownFurther(old(history), h1, history);
      ghost var h2 := history;
      Interfere(w, others(10));
      GrownFurther(old(history), h2, history);
      ghost var h3 := history;
      CreateReturned(w, created);
      GrownFurther(old(history), h3, history);
      ghost var h4 := history;
      out := Settle(w, id, others(11));
      GrownFurther(old(history), h4, history);
    }

    method Settle(w: nat, id: string, others: seq<Event>) returns (out: Outcome)
      requires Valid() && w in workers && workers[w].rec.id == id
      requires var k := workers[w]; k.Rejecting? || k.Doubting? || k.Finalizing? || k.Succeeding?
      modifies this
      ensures Valid() && Grown(old(history), history) && Ended(w, id, out)
      ensures if out.Ok? then Ends(old(workers)[w], out.value) else out == Err(StateConflict)
    {
      hide Valid, Grown, Ends;
      Interfere(w, others);
      ghost var h1 := history;
      out := Persist(w);
      GrownFurther(old(history), h1, history);
    }

    method Recover(w: nat, id: string, found: LookupReply, others: nat -> seq<Event>) returns (out: Outcome)
      requires Valid() && w !in workers
      modifies this
      ensures Concluded(old(history), w, id, out)
      ensures out.Ok? ==> EndsByLookup(v, found, out.value)
      ensures out == Err(Unavailable) ==> BadAnswer(v, found)
    {
      hide Valid, Grown, Happened;
      var done := FindUncertain(w, id);
      if done.None? {
        ghost var h1 := history;
        out := Query(w, id, found, others);
        GrownFurther(old(history), h1, history);
      } else {
        out := done.value;
      }
      Conclude(old(history), w, id, out);
    }

    // Lines 138-159.
    method Query(w: nat, id: string, found: LookupReply, others: nat -> seq<Event>) returns (out: Outcome)
      requires Valid() && w in workers && workers[w].Querying? && workers[w].rec.id == id
      modifies this
      ensures Valid() && Grown(old(history), history) && Ended(w, id, out)
      ensures out.Ok? ==> EndsByLookup(v, found, out.value)
      ensures out.Err? ==> out == Err(if BadAnswer(v, found) then Unavailable else StateConflict)
    {
      hide Valid, Grown, Happened;
      Interfere(w, others(0));
      ghost var h1 := history;
      CallLookup(w);
      GrownFurther(old(history), h1, history);
      ghost var h2 := history;
      Interfere(w, others(1));
      GrownFurther(old(history), h2, history);
      ghost var h3 := history;
      var done := LookupReturned(w, found);
      GrownFurther(old(history), h3, history);
      if done.Some? {
        return done.value;
      }
      ghost var h4 := history;
      out := Settle(w, id, others(2));
      GrownFurther(old(history), h4, history);
    }

    method FindUncertain(w: nat, id: string) returns (done: Option<Outcome>)
      requires Valid() && w !in workers
      modifies this`workers, this`returned, this`history
      ensures Valid() && Grown(old(history), history)
      ensures Happened(old(View()), old(history), LoadForRecovery(w, id))
      ensures match done
              case None => w in workers && workers[w].Querying? && workers[w].rec.id == id
              case Some(out) => Ended(w, id, out) && out.Err? && out.error != Unavailable
    {
      RowsCarryTheirId(v, history, id);
      RunExtend(v, EMPTY, history, View(), LoadForRecovery(w, id));
      history := history + [LoadForRecovery(w, id)];
      if id !in rows {
        Leave(w, id, Err(NotFound));
        return Some(Err(NotFound));
      }
      if rows[id].status != FailedRetryable
         && (rows[id].status != Processing || rows[id].leaseExpiresAt == None || rows[id].leaseExpiresAt.value > now) {
        Leave(w, id, Err(StateConflict));
        return Some(Err(StateConflict));
      }
      if RequestId(rows[id]) == "" {
        Leave(w, id, Err(Invalid));
        return Some(Err(Invalid));
      }
      workers := workers[w := Querying(rows[id])];
      return None;
    }

    method CallLookup(w: nat)
      requires Valid() && w in workers && workers[w].Querying?
      modifies this`workers, this`log, this`history
      ensures Valid() && Grown(old(history), history)
      ensures Happened(old(View()), old(history), SendLookup(w))
      ensures At(w, Asked(old(workers)[w].rec))
    {
      RunExtend(v, EMPTY, history, View(), SendLookup(w));
      history := history + [SendLookup(w)];
      log := log + [LookupSent(RequestId(workers[w].rec))];
      workers := workers[w := Asked(workers[w].rec)];
    }

    method LookupReturned(w: nat, found: LookupReply) returns (done: Option<Outcome>)
      requires Valid() && w in workers && workers[w].Asked?
      modifies this`workers, this`returned, this`log, this`history
      ensures Valid() && Grown(old(history), history)
      ensures Happened(old(View()), old(history), ReceiveLookup(w, found))
      ensures var rec := old(workers)[w].rec;
              match found
              case LookupRejected => done == None && At(w, Finalizing(rec, ChannelRejected, ByRecover))
              case LookupOther => done == Some(Err(Unavailable)) && Ended(w, rec.id, Err(Unavailable))
              case LookupSucceeded(url) =>
                if v.approved(url) && v.safe(url) then done == None && At(w, Succeeding(rec, url, ByRecover))
                else done == Some(Err(Unavailable)) && Ended(w, rec.id, Err(Unavailable))
              case _ =>
                if rec.status == Processing then done == None && At(w, Doubting(rec, ByRecover))
                else done == Some(Ok(rec)) && Ended(w, rec.id, Ok(rec))
                     && rec.status == FailedRetryable && rec.failureCode == Some(QueryRequired)
    {
      AskedRecord(v, history, w);
      RunExtend(v, EMPTY, history, View(), ReceiveLookup(w, found));
      history := history + [ReceiveLookup(w, found)];
      var rec := workers[w].rec;
      match found {
        case LookupSucceeded(url) =>
          log := log + [LinkReported(RequestId(rec), url)];
          if !v.approved(url) || !v.safe(url) {
            Leave(w, rec.id, Err(Unavailable));
            return Some(Err(Unavailable));
          }
          workers := workers[w := Succeeding(rec, url, ByRecover)];
          return None;
        case LookupRejected =>
          workers := workers[w := Finalizing(rec, ChannelRejected, ByRecover)];
          return None;
        case LookupOther =>
          Leave(w, rec.id, Err(Unavailable));
          return Some(Err(Unavailable));
        case _ =>
          if rec.status == Processing {
            workers := workers[w := Doubting(rec, ByRecover)];
            return None;
          }
          Leave(w, rec.id, Ok(rec));
          return Some(Ok(rec));
      }
    }
  }

  lemma {:induction false} CandidatesPrefix(rows: Table, order: seq<string>, i: nat, now: int)
    requires i <= |order|
    ensures var part, all := Candidates(rows, order[..i], now), Candidates(rows, order, now);
            |part| <= |all| && all[..|part|] == part
    decreases |order|
  {
    if i < |order| {
      var init := order[..|order| - 1];
      CandidatesPrefix(rows, init, i, now);
      assert init[..i] == order[..i];
    } else {
      assert order[..i] == order;
    }
  }
}
