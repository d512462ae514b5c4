// What every reachable state of the claim protocol keeps, and the theorems
// about whole runs that follow.
module ClaimSafety {
  import opened Wrappers
  import opened Text
  import opened NulJoined
  import opened CouponSync
  import opened CouponClaims

  // ---- Invariant ----

  predicate SameClaim(a: Claim, b: Claim)
  {
    a.id == b.id && a.owner == b.owner && a.key == b.key && a.couponId == b.couponId && a.fingerprint == b.fingerprint
  }

  // A copy some call holds: its row is there, and a terminal copy is the row.
  predicate Held(rows: Rows, c: Claim)
  {
    (c.owner, c.key) in rows && SameClaim(c, rows[(c.owner, c.key)]) && (Terminal(c) ==> c == rows[(c.owner, c.key)])
  }

  predicate RowOk(k: Key, r: Claim, log: seq<Call>)
  {
    k == (r.owner, r.key) && ClaimCount(log, r.id) <= 1 && (r.status == Claimed <==> r.evidence != "")
    && (r.status == Claimed ==> ValidEvidence(r.evidence))
  }

  // The call that inserted a row, before it asks the channel to claim.
  predicate BeforeClaim(k: Worker)
  {
    (k.Selecting? && k.created) || k.Rechecking? || k.Calling?
  }

  function ClaimId(k: Worker): string
    requires BeforeClaim(k)
  {
    if k.Selecting? then k.id else k.rec.id
  }

  predicate Local(rows: Rows, k: Worker)
  {
    match k
    case Selecting(input, id, created) =>
      created ==> (input.owner, input.key) in rows && rows[(input.owner, input.key)].id == id
    case Saving(rec, status, evidence, _) => Held(rows, rec) && ValidOutcome(status, evidence)
    case Choosing(_) => true
    case Inserting(_) => true
    case _ => Held(rows, k.rec)
  }

  predicate WorkerOk(rows: Rows, log: seq<Call>, k: Worker)
  {
    Local(rows, k) && (BeforeClaim(k) ==> ClaimCount(log, ClaimId(k)) == 0)
  }

  predicate RowsOk(rows: Rows, log: seq<Call>)
  {
    forall k | k in rows :: RowOk(k, rows[k], log)
  }

  predicate IdsDiffer(rows: Rows)
  {
    forall j, k | j in rows && k in rows && rows[j].id == rows[k].id :: j == k
  }

  ghost predicate NoStrayClaim(rows: Rows, log: seq<Call>)
  {
    forall id | ClaimCount(log, id) > 0 :: IdTaken(rows, id)
  }

  predicate WorkersOk(rows: Rows, log: seq<Call>, workers: map<nat, Worker>)
  {
    forall w | w in workers :: WorkerOk(rows, log, workers[w])
  }

  predicate OneCreator(workers: map<nat, Worker>)
  {
    forall w, x | w in workers && x in workers && BeforeClaim(workers[w]) && BeforeClaim(workers[x])
                  && ClaimId(workers[w]) == ClaimId(workers[x]) :: w == x
  }

  predicate ReturnsOk(rows: Rows, returned: seq<Answer>)
  {
    forall i | 0 <= i < |returned| :: returned[i].Ok? ==> Held(rows, returned[i].value)
  }

  ghost predicate Inv(s: State)
  {
    RowsOk(s.rows, s.log) && IdsDiffer(s.rows) && NoStrayClaim(s.rows, s.log) && WorkersOk(s.rows, s.log, s.workers)
    && OneCreator(s.workers) && ReturnsOk(s.rows, s.returned)
  }

  // ---- Building blocks ----

  lemma FinishKeeps(s: State, w: nat, answer: Answer)
    requires Inv(s) && (answer.Ok? ==> Held(s.rows, answer.value))
    ensures Inv(Finish(s, w, answer))
  {
    hide Held, WorkerOk, RowsOk, IdsDiffer, NoStrayClaim;
  }

  predicate NoOtherCreator(workers: map<nat, Worker>, w: nat, id: string)
  {
    forall x | x in workers && x != w && BeforeClaim(workers[x]) :: ClaimId(workers[x]) != id
  }

  lemma AdvanceKeeps(s: State, w: nat, next: Worker)
    requires Inv(s) && WorkerOk(s.rows, s.log, next) && (BeforeClaim(next) ==> NoOtherCreator(s.workers, w, ClaimId(next)))
    ensures Inv(Advance(s, w, next))
  {
    hide Held, WorkerOk, RowsOk, IdsDiffer, NoStrayClaim, ReturnsOk;
  }

  lemma ResolveKeeps(s: State, w: nat, rec: Claim)
    requires Inv(s) && Held(s.rows, rec)
    ensures Inv(Resolve(s, w, rec))
  {
    hide Inv, Held;
    if Terminal(rec) {
      FinishKeeps(s, w, Ok(rec));
    } else {
      AdvanceKeeps(s, w, Querying(rec));
    }
  }

  lemma RowIsHeld(s: State, k: Key)
    requires Inv(s) && k in s.rows
    ensures Held(s.rows, s.rows[k]) && s.rows[k].owner == k.0 && s.rows[k].key == k.1
  {
    assert RowOk(k, s.rows[k], s.log);
  }

  lemma CountAppend(log: seq<Call>, call: Call, id: string)
    ensures ClaimCount(log + [call], id) == ClaimCount(log, id) + if call == ClaimSent(id) then 1 else 0
  {
    assert (log + [call])[..|log|] == log;
  }

  // A query leaves all counts as they are.
  lemma QueryKeeps(s: State, id: string)
    requires Inv(s)
    ensures Inv(s.(log := s.log + [QuerySent(id)]))
  {
    forall x
      ensures ClaimCount(s.log + [QuerySent(id)], x) == ClaimCount(s.log, x)
    {
      CountAppend(s.log, QuerySent(id), x);
    }
    hide ClaimCount, Held, IdsDiffer, OneCreator, ReturnsOk, Local;
  }

  // The one claim of the creator.
  lemma ClaimKeeps(s: State, w: nat, k: Worker)
    requires Inv(s) && w in s.workers && s.workers[w] == k && k.Calling?
    ensures Inv(Advance(s.(log := s.log + [ClaimSent(k.rec.id)]), w, Called(k.rec)))
  {
    var log := s.log + [ClaimSent(k.rec.id)];
    var t := Advance(s.(log := log), w, Called(k.rec));
    assert WorkerOk(s.rows, s.log, k);
    forall x
      ensures ClaimCount(log, x) == ClaimCount(s.log, x) + if x == k.rec.id then 1 else 0
    {
      CountAppend(s.log, ClaimSent(k.rec.id), x);
    }
    hide ClaimCount;
    assert RowsOk(s.rows, log) by { assert forall j | j in s.rows :: RowOk(j, s.rows[j], s.log); }
    assert NoStrayClaim(s.rows, log) by {
      assert s.rows[(k.rec.owner, k.rec.key)].id == k.rec.id;
      assert IdTaken(s.rows, k.rec.id);
    }
    forall x | x in t.workers
      ensures WorkerOk(s.rows, log, t.workers[x])
    {
      if x != w {
        assert WorkerOk(s.rows, s.log, s.workers[x]);
        assert BeforeClaim(s.workers[x]) ==> ClaimId(s.workers[x]) != ClaimId(k);
      }
    }
  }

  lemma InsertKeeps(s: State, w: nat, k: Worker, id: string)
    requires Inv(s) && w in s.workers && s.workers[w] == k && k.Inserting?
    ensures Inv(InsertStep(s, w, k, id))
  {
    var key := (k.input.owner, k.input.key);
    if ValidLine(id, 128) && key !in s.rows && !IdTaken(s.rows, id) {
      var row := Claim(id, k.input.owner, k.input.couponId, k.input.key, Fingerprint(k.input), Pending, "");
      assert ClaimCount(s.log, id) == 0;
      AddRow(s, key, row);
      var t := s.(rows := s.rows[key := row]);
      NobodyCreates(s, w, id);
      hide Inv, ClaimCount, NoOtherCreator;
      AdvanceKeeps(t, w, Selecting(k.input, id, true));
    } else {
      hide Inv, IdTaken;
      FinishKeeps(s, w, Err(ClaimInvalid));
      FinishKeeps(s, w, Err(StorageError));
      AdvanceKeeps(s, w, Selecting(k.input, id, false));
    }
  }

  // A call before its claim refers to a stored row.
  lemma NobodyCreates(s: State, w: nat, id: string)
    requires Inv(s) && !IdTaken(s.rows, id)
    ensures NoOtherCreator(s.workers, w, id)
  {
    forall x | x in s.workers && x != w && BeforeClaim(s.workers[x])
      ensures ClaimId(s.workers[x]) != id
    {
      assert WorkerOk(s.rows, s.log, s.workers[x]);
    }
  }

  lemma AddRow(s: State, key: Key, row: Claim)
    requires Inv(s) && key !in s.rows && key == (row.owner, row.key) && !IdTaken(s.rows, row.id)
             && ClaimCount(s.log, row.id) == 0
    requires row.status == Pending && row.evidence == ""
    ensures Inv(s.(rows := s.rows[key := row]))
  {
    var rows := s.rows[key := row];
    AddedRows(s, key, row);
    forall c | Held(s.rows, c)
      ensures Held(rows, c)
    {
    }
    forall w | w in s.workers
      ensures WorkerOk(rows, s.log, s.workers[w])
    {
      assert WorkerOk(s.rows, s.log, s.workers[w]);
      AddedWorker(s.rows, key, row, s.log, s.workers[w]);
    }
    hide Held, WorkerOk, RowsOk, IdsDiffer, NoStrayClaim;
  }

  lemma AddedRows(s: State, key: Key, row: Claim)
    requires Inv(s) && key !in s.rows && key == (row.owner, row.key) && !IdTaken(s.rows, row.id)
             && ClaimCount(s.log, row.id) == 0
    requires row.status == Pending && row.evidence == ""
    ensures var rows := s.rows[key := row]; RowsOk(rows, s.log) && IdsDiffer(rows) && NoStrayClaim(rows, s.log)
  {
    var rows := s.rows[key := row];
    hide ClaimCount, ValidEvidence;
    assert forall k | k in s.rows :: RowOk(k, s.rows[k], s.log);
    forall id | ClaimCount(s.log, id) > 0
      ensures IdTaken(rows, id)
    {
      var k :| k in s.rows && s.rows[k].id == id;
      assert rows[k].id == id;
    }
    hide RowOk, Held, WorkerOk;
  }

  lemma AddedWorker(rows: Rows, key: Key, row: Claim, log: seq<Call>, k: Worker)
    requires key !in rows && WorkerOk(rows, log, k)
    ensures WorkerOk(rows[key := row], log, k)
  {
    hide ClaimCount, ValidOutcome;
  }

  // Writing an outcome on a row that has none.
  lemma UpdateKeeps(s: State, key: Key, status: Status, evidence: string)
    requires Inv(s) && ValidOutcome(status, evidence)
    ensures Inv(s.(rows := Updated(s.rows, key, status, evidence).0))
  {
    var rows := Updated(s.rows, key, status, evidence).0;
    UpdatedRows(s, key, status, evidence);
    forall c | Held(s.rows, c)
      ensures Held(rows, c)
    {
      UpdatedHeld(s.rows, key, status, evidence, c);
    }
    forall w | w in s.workers
      ensures WorkerOk(rows, s.log, s.workers[w])
    {
      assert WorkerOk(s.rows, s.log, s.workers[w]);
      UpdatedWorker(s.rows, key, status, evidence, s.log, s.workers[w]);
    }
    hide Held, WorkerOk, RowsOk, IdsDiffer, NoStrayClaim, Updated, ValidOutcome;
  }

  lemma UpdatedRows(s: State, key: Key, status: Status, evidence: string)
    requires Inv(s) && ValidOutcome(status, evidence)
    ensures var rows := Updated(s.rows, key, status, evidence).0; RowsOk(rows, s.log) && IdsDiffer(rows) && NoStrayClaim(rows, s.log)
  {
    var rows := Updated(s.rows, key, status, evidence).0;
    assert RowsOk(s.rows, s.log) && IdsDiffer(s.rows) && NoStrayClaim(s.rows, s.log);
    hide Inv, ClaimCount, HasScheme;
    forall k | k in rows
      ensures RowOk(k, rows[k], s.log)
    {
      assert RowOk(k, s.rows[k], s.log);
    }
    hide ValidOutcome, RowOk;
    assert forall k | k in s.rows :: k in rows && rows[k].id == s.rows[k].id;
    forall id | ClaimCount(s.log, id) > 0
      ensures IdTaken(rows, id)
    {
      var k :| k in s.rows && s.rows[k].id == id;
      assert rows[k].id == id;
    }
  }

  lemma UpdatedHeld(rows: Rows, key: Key, status: Status, evidence: string, c: Claim)
    requires Held(rows, c)
    ensures Held(Updated(rows, key, status, evidence).0, c)
  {
  }

  lemma UpdatedWorker(rows: Rows, key: Key, status: Status, evidence: string, log: seq<Call>, k: Worker)
    requires WorkerOk(rows, log, k)
    ensures WorkerOk(Updated(rows, key, status, evidence).0, log, k)
  {
    hide ClaimCount, ValidOutcome;
  }

  // ---- Every event keeps the invariant ----

  lemma SettledIsValid(reply: Reply)
    ensures ValidOutcome(Settled(reply).0, Settled(reply).1)
  {
  }

  lemma WorkerFacts(s: State, w: nat)
    requires Inv(s) && w in s.workers
    ensures WorkerOk(s.rows, s.log, s.workers[w])
    ensures BeforeClaim(s.workers[w]) ==> NoOtherCreator(s.workers, w, ClaimId(s.workers[w]))
  {
  }

  lemma WorkerStepKeeps(s: State, e: Event, w: nat, k: Worker)
    requires Inv(s) && w in s.workers && s.workers[w] == k && e.worker == w && WorkerStep(s, e, w, k).Some?
    ensures Inv(WorkerStep(s, e, w, k).value)
  {
    WorkerFacts(s, w);
    match e
    case Choose(_, offer) => FinishOrAdvance(s, w, k, offer);
    case Insert(_, id) => InsertKeeps(s, w, k, id);
    case Select(_) => SelectKeeps(s, w, k);
    case Recheck(_, offer) => FinishOrAdvance(s, w, k, offer);
    case SendClaim(_) => ClaimKeeps(s, w, k);
    case SendQuery(_) =>
      QueryKeeps(s, k.rec.id);
      hide Inv;
      AdvanceKeeps(s.(log := s.log + [QuerySent(k.rec.id)]), w, Asked(k.rec));
    case Receive(_, reply) =>
      hide Inv;
      SettledIsValid(reply);
      AdvanceKeeps(s, w, Saving(k.rec, Settled(reply).0, Settled(reply).1, false));
    case Save(_) => SaveKeeps(s, w, k);
    case Read(_) => ReadKeeps(s, w, k);
  }

  lemma FinishOrAdvance(s: State, w: nat, k: Worker, offer: Offer)
    requires Inv(s) && WorkerOk(s.rows, s.log, k) && (BeforeClaim(k) ==> NoOtherCreator(s.workers, w, ClaimId(k)))
    ensures k.Choosing? ==> Inv(ChooseStep(s, w, k, offer))
    ensures k.Rechecking? ==> Inv(RecheckStep(s, w, k, offer))
  {
    hide Inv, NoOtherCreator;
    FinishKeeps(s, w, Err(NotClaimable));
    FinishKeeps(s, w, Err(ClaimNotFound));
    FinishKeeps(s, w, Err(CatalogError));
    if k.Choosing? {
      AdvanceKeeps(s, w, Inserting(k.input));
    }
    if k.Rechecking? {
      AdvanceKeeps(s, w, Calling(k.rec));
      AdvanceKeeps(s, w, Saving(k.rec, Failed, "", true));
    }
  }

  lemma SelectKeeps(s: State, w: nat, k: Worker)
    requires Inv(s) && WorkerOk(s.rows, s.log, k) && (BeforeClaim(k) ==> NoOtherCreator(s.workers, w, ClaimId(k)))
             && k.Selecting?
    ensures Inv(SelectStep(s, w, k))
  {
    var key := (k.input.owner, k.input.key);
    FinishKeeps(s, w, Err(ClaimNotFound));
    FinishKeeps(s, w, Err(ClaimConflict));
    if key in s.rows {
      RowIsHeld(s, key);
      hide Inv, NoOtherCreator, Held;
      ResolveKeeps(s, w, s.rows[key]);
      if k.created {
        AdvanceKeeps(s, w, Rechecking(s.rows[key]));
      }
    }
  }

  lemma SaveKeeps(s: State, w: nat, k: Worker)
    requires Inv(s) && w in s.workers && WorkerOk(s.rows, s.log, k) && k.Saving?
    ensures Inv(SaveStep(s, w, k))
  {
    var key := (k.rec.owner, k.rec.key);
    var (rows, changed) := Updated(s.rows, key, k.status, k.evidence);
    UpdateKeeps(s, key, k.status, k.evidence);
    assert Held(rows, k.rec);
    hide Inv, Held;
    AdvanceKeeps(s.(rows := rows), w, Reading(k.rec, k.status, k.evidence, k.direct, changed));
  }

  lemma ReadKeeps(s: State, w: nat, k: Worker)
    requires Inv(s) && WorkerOk(s.rows, s.log, k) && (k.Reading? || k.Rereading?)
    ensures k.Reading? ==> Inv(ReadStep(s, w, k))
    ensures k.Rereading? ==> Inv(RereadStep(s, w, k))
  {
    var key := (k.rec.owner, k.rec.key);
    RowIsHeld(s, key);
    hide Inv, Held;
    FinishKeeps(s, w, Ok(s.rows[key]));
    FinishKeeps(s, w, Err(ClaimConflict));
    AdvanceKeeps(s, w, Rereading(k.rec));
  }

  lemma StepKeeps(s: State, e: Event)
    requires Inv(s) && Step(s, e).Some?
    ensures Inv(Step(s, e).value)
  {
    match e
    case Abort(w) => AbortKeeps(s, w);
    case Create(w, input) =>
      var k := (input.owner, input.key);
      if k in s.rows {
        RowIsHeld(s, k);
        ResolveKeeps(s, w, s.rows[k]);
      }
      hide Inv, ValidInput, Matches;
      AdvanceKeeps(s, w, Choosing(input));
      FinishKeeps(s, w, Err(ClaimInvalid));
      FinishKeeps(s, w, Err(ClaimConflict));
    case Get(w, owner, id, key) =>
      if (owner, key) in s.rows {
        RowIsHeld(s, (owner, key));
        ResolveKeeps(s, w, s.rows[(owner, key)]);
      }
      hide Inv, Owns, ValidLine, Resolve;
      FinishKeeps(s, w, Err(ClaimInvalid));
      FinishKeeps(s, w, Err(ClaimNotFound));
    case _ => WorkerStepKeeps(s, e, e.worker, s.workers[e.worker]);
  }

  lemma AbortKeeps(s: State, w: nat)
    requires Inv(s)
    ensures Inv(s.(workers := s.workers - {w}))
  {
    hide WorkerOk, RowsOk, IdsDiffer, NoStrayClaim, ReturnsOk;
  }

  lemma {:induction false} RunKeeps(s: State, es: seq<Event>)
    requires Inv(s) && Run(s, es).Some?
    ensures Inv(Run(s, es).value)
    decreases |es|
  {
    hide Inv, Step;
    if es != [] {
      StepKeeps(s, es[0]);
      RunKeeps(Step(s, es[0]).value, es[1..]);
    }
  }

  lemma Reachable(es: seq<Event>)
    requires Run(EMPTY, es).Some?
    ensures Inv(Run(EMPTY, es).value)
  {
    RunKeeps(EMPTY, es);
  }

  // ---- The guarantees, over every run ----

  // The channel is asked to claim at most once per stored claim, and never for
  // anything that is not stored.
  lemma AtMostOneClaim(es: seq<Event>, id: string)
    requires Run(EMPTY, es).Some?
    ensures var s := Run(EMPTY, es).value; ClaimCount(s.log, id) <= if IdTaken(s.rows, id) then 1 else 0
  {
    Reachable(es);
    var s := Run(EMPTY, es).value;
    if IdTaken(s.rows, id) {
      var k :| k in s.rows && s.rows[k].id == id;
      assert RowOk(k, s.rows[k], s.log);
    }
  }

  // Evidence is stored, and is a valid reference, exactly for CLAIMED claims.
  lemma EvidenceIffClaimed(es: seq<Event>, k: Key)
    requires Run(EMPTY, es).Some? && k in Run(EMPTY, es).value.rows
    ensures var r := Run(EMPTY, es).value.rows[k];
            (r.status == Claimed <==> r.evidence != "") && (r.status == Claimed ==> ValidEvidence(r.evidence))
  {
    Reachable(es);
    var s := Run(EMPTY, es).value;
    assert RowOk(k, s.rows[k], s.log);
  }

  lemma StepKeepsClaim(s: State, e: Event, k: Key)
    requires Step(s, e).Some? && k in s.rows
    ensures var rows := Step(s, e).value.rows;
            k in rows && SameClaim(s.rows[k], rows[k]) && (Terminal(s.rows[k]) ==> rows[k] == s.rows[k])
  {
  }

  lemma {:induction false} ClaimsStay(s: State, es: seq<Event>, k: Key)
    requires Run(s, es).Some? && k in s.rows
    ensures var rows := Run(s, es).value.rows;
            k in rows && SameClaim(s.rows[k], rows[k]) && (Terminal(s.rows[k]) ==> rows[k] == s.rows[k])
    decreases |es|
  {
    hide Step;
    if es != [] {
      StepKeepsClaim(s, es[0], k);
      ClaimsStay(Step(s, es[0]).value, es[1..], k);
    }
  }

  lemma {:induction false} RunAppend(s: State, es: seq<Event>, fs: seq<Event>)
    requires Run(s, es).Some?
    ensures Run(s, es + fs) == Run(Run(s, es).value, fs)
    decreases |es|
  {
    hide Step;
    if es == [] {
      assert es + fs == fs;
    } else {
      assert (es + fs)[0] == es[0] && (es + fs)[1..] == es[1..] + fs;
      RunAppend(Step(s, es[0]).value, es[1..], fs);
    }
  }

  // CLAIMED and FAILED claims never change again.
  lemma {:induction false} OutcomesAreFinal(es: seq<Event>, fs: seq<Event>, k: Key)
    requires Run(EMPTY, es).Some? && Run(EMPTY, es + fs).Some?
    requires k in Run(EMPTY, es).value.rows && Terminal(Run(EMPTY, es).value.rows[k])
    ensures k in Run(EMPTY, es + fs).value.rows && Run(EMPTY, es + fs).value.rows[k] == Run(EMPTY, es).value.rows[k]
  {
    RunAppend(EMPTY, es, fs);
    ClaimsStay(Run(EMPTY, es).value, fs, k);
  }

  // All calls that return an outcome for one claim return the stored one.
  lemma OneOutcome(es: seq<Event>, i: nat, j: nat)
    requires Run(EMPTY, es).Some?
    requires var returned := Run(EMPTY, es).value.returned;
             i < |returned| && j < |returned| && returned[i].Ok? && returned[j].Ok?
               && returned[i].value.id == returned[j].value.id
             && Terminal(returned[i].value) && Terminal(returned[j].value)
    ensures var s := Run(EMPTY, es).value; var c := s.returned[i].value;
            s.returned[i] == s.returned[j] && (c.owner, c.key) in s.rows && s.rows[(c.owner, c.key)] == c
  {
    Reachable(es);
    var s := Run(EMPTY, es).value;
    assert Held(s.rows, s.returned[i].value) && Held(s.rows, s.returned[j].value);
  }

  // Valid inputs share a fingerprint only if they name the same coupon in the
  // same context, so a key is never reused for anything else.
  lemma FingerprintIdentifies(a: ClaimInput, b: ClaimInput)
    requires ValidInput(a) && ValidInput(b)
    ensures Fingerprint(a) == Fingerprint(b)
            <==> a.couponId == b.couponId && a.cityCode == b.cityCode && a.business == b.business
  {
    NoNul(a);
    NoNul(b);
    SplitJoin([a.couponId, a.cityCode, a.business]);
    SplitJoin([b.couponId, b.cityCode, b.business]);
  }

  lemma NoNul(a: ClaimInput)
    requires ValidInput(a)
    ensures NulFree(a.couponId) && NulFree(a.cityCode) && NulFree(a.business)
  {
    assert forall i | 0 <= i < |a.cityCode| :: (a.cityCode + a.business)[i] == a.cityCode[i];
    assert forall i | 0 <= i < |a.business| :: (a.cityCode + a.business)[|a.cityCode| + i] == a.business[i];
  }
}
