// Create and Get of the claim service in their own imperative form. Between
// any two calls `Interfere` lets every other call act; the ghost `history`
// records the events, and `Valid` says they are a run of the protocol that
// ends in the present state.
module ClaimDesk {
  import opened Wrappers
  import opened Text
  import opened CouponSync
  import opened CouponClaims
  import opened ClaimSafety

  // The answers of catalog, channel and random source, in the order Create asks.
  datatype Answers = Answers(offer: Offer, id: string, again: Offer, reply: Reply)

  lemma OthersLeaveWorker(s: State, e: Event, w: nat)
    requires e.worker != w && Step(s, e).Some?
    ensures (w in s.workers <==> w in Step(s, e).value.workers)
    ensures w in s.workers ==> Step(s, e).value.workers[w] == s.workers[w]
  {
    hide ValidInput, ValidLine, IdTaken, ValidOutcome, Updated, Settled;
  }

  lemma RunExtend(s: State, es: seq<Event>, t: State, e: Event)
    requires Run(s, es) == Some(t) && Step(t, e).Some?
    ensures Run(s, es + [e]) == Step(t, e)
  {
    RunAppend(s, es, [e]);
    assert [e][1..] == [];
    assert Run(Step(t, e).value, []) == Step(t, e);
  }

  class Desk {
    var rows: Rows
    var workers: map<nat, Worker>
    var log: seq<Call>
    var returned: seq<Answer>
    ghost var history: seq<Event>

    function View(): State
      reads this
    {
      State(rows, workers, log, returned)
    }

    ghost predicate Valid()
      reads this
    {
      Run(EMPTY, history) == Some(View())
    }

    ghost predicate At(w: nat, k: Worker)
      reads this
    {
      w in workers && workers[w] == k
    }

    ghost predicate Ended(w: nat, out: Answer)
      reads this
    {
      w !in workers && |returned| > 0 && returned[|returned| - 1] == out
    }

    constructor ()
      ensures View() == EMPTY && Valid()
    {
      rows, workers, log, returned := map[], map[], [], [];
      history := [];
    }

    ghost method Record(e: Event)
      requires Valid() && Step(View(), e).Some?
      modifies this`history
      ensures history == old(history) + [e] && Run(EMPTY, history) == Step(View(), e)
    {
      RunExtend(EMPTY, history, View(), e);
      history := history + [e];
    }

    method Leave(w: nat, out: Answer)
      modifies this`workers, this`returned
      ensures View() == Finish(old(View()), w, out)
    {
      workers := workers - {w};
      returned := returned + [out];
    }

    method Interfere(w: nat, others: seq<Event>)
      requires Valid()
      modifies this
      ensures Valid() && old(history) <= history
      ensures (w in old(workers) <==> w in workers) && (w in workers ==> workers[w] == old(workers)[w])
    {
      hide Step, Run;
      var i := 0;
      while i < |others|
        invariant 0 <= i <= |others|
        invariant Valid() && old(history) <= history
        invariant (w in old(workers) <==> w in workers) && (w in workers ==> workers[w] == old(workers)[w])
      {
        var next := Step(View(), others[i]);
        if others[i].worker != w && next.Some? {
          OthersLeaveWorker(View(), others[i], w);
          Record(others[i]);
          rows, workers, log, returned := next.value.rows, next.value.workers, next.value.log, next.value.returned;
        }
        i := i + 1;
      }
    }

    // An answer is about this claim, or about this input.
    static predicate About(out: Answer, rec: Claim)
    {
      out.Ok? ==> SameClaim(rec, out.value)
    }

    static predicate Serves(out: Answer, input: ClaimInput)
    {
      out.Ok? ==> Meets(out.value, input)
    }

    static predicate Meets(c: Claim, input: ClaimInput)
    {
      c.owner == input.owner && c.key == input.key && Matches(c, input)
    }

    static lemma AboutServes(out: Answer, rec: Claim, input: ClaimInput)
      requires Meets(rec, input) && About(out, rec)
      ensures Serves(out, input)
    {
    }

    // The stored row a pending call refers to.
    lemma StoredIsTheirs(w: nat)
      requires Valid() && w in workers
      requires var k := workers[w]; k.Reading? || k.Rereading?
      ensures var rec := workers[w].rec; (rec.owner, rec.key) in rows ==> SameClaim(rec, rows[(rec.owner, rec.key)])
    {
      Reachable(history);
      assert WorkerOk(rows, log, workers[w]);
    }

    lemma StoredUnder(k: Key)
      requires Valid() && k in rows
      ensures rows[k].owner == k.0 && rows[k].key == k.1
    {
      Reachable(history);
      assert RowOk(k, rows[k], log);
    }

    // ---- claims.go ----

    // Reserve's insertion: Some(created), or None when the primary key refuses it.
    method InsertClaim(c: Claim) returns (created: Option<bool>)
      requires c.status == Pending && c.evidence == ""
      modifies this`rows
      ensures (c.owner, c.key) in old(rows) ==> created == Some(false) && rows == old(rows)
      ensures (c.owner, c.key) !in old(rows) && IdTaken(old(rows), c.id) ==> created == None && rows == old(rows)
      ensures (c.owner, c.key) !in old(rows) && !IdTaken(old(rows), c.id) ==>
                created == Some(true) && rows == old(rows)[(c.owner, c.key) := c]
    {
      if (c.owner, c.key) in rows {
        return Some(false);
      }
      if IdTaken(rows, c.id) {
        return None;
      }
      rows := rows[(c.owner, c.key) := c];
      return Some(true);
    }

    // SetOutcome's write; the number of rows it changed, as a flag.
    method UpdateOutcome(k: Key, status: Status, evidence: string) returns (changed: bool)
      modifies this`rows
      ensures (rows, changed) == Updated(old(rows), k, status, evidence)
    {
      if k !in rows || rows[k].status == Claimed || rows[k].status == Failed {
        return false;
      }
      rows := rows[k := rows[k].(status := status, evidence := evidence)];
      return true;
    }

    // ---- claim_service.go ----

    // What a caller can rely on: the call was a run of the protocol that
    // returned this; the channel was asked to claim at most once for the claim,
    // and an outcome is the stored one.
    ghost predicate Concluded(past: seq<Event>, w: nat, out: Answer)
      reads this
    {
      Valid() && past <= history && Ended(w, out)
      && (out.Ok? ==>
            var c := out.value;
            ClaimCount(log, c.id) <= 1 && (c.owner, c.key) in rows && SameClaim(c, rows[(c.owner, c.key)])
            && (Terminal(c) ==> rows[(c.owner, c.key)] == c))
    }

    lemma Conclude(past: seq<Event>, w: nat, out: Answer)
      requires Valid() && past <= history && Ended(w, out)
      ensures Concluded(past, w, out)
    {
      Reachable(history);
      if out.Ok? {
        AtMostOneClaim(history, out.value.id);
        assert Held(rows, returned[|returned| - 1].value);
      }
    }

    // Lines 56-102.
    method CreateClaim(w: nat, input: ClaimInput, answers: Answers, others: nat -> seq<Event>) returns (out: Answer)
      requires Valid() && w !in workers
      modifies this
      ensures Concluded(old(history), w, out) && Serves(out, input)
    {
      hide Valid, Matches;
      var found := LookUp(w, input);
      if found.Some? {
        out := found.value;
      } else if workers[w].Querying? {
        ghost var rec := workers[w].rec;
        out := Ask(w, answers.reply, others);
        AboutServes(out, rec, input);
      } else {
        out := MakeClaim(w, input, answers, others);
      }
      Conclude(old(history), w, out);
    }

    // Lines 60-70: Some(answer) when the call is over.
    method LookUp(w: nat, input: ClaimInput) returns (done: Option<Answer>)
      requires Valid() && w !in workers
      modifies this
      ensures Valid() && old(history) <= history
      ensures match done
              case Some(out) => Ended(w, out) && Serves(out, input)
              case None => w in workers && ((workers[w].Querying? && Meets(workers[w].rec, input)) || At(w, Choosing(input)))
    {
      hide ValidInput, Fingerprint;
      if (input.owner, input.key) in rows {
        StoredUnder((input.owner, input.key));
      }
      Record(Create(w, input));
      if !ValidInput(input) {
        Leave(w, Err(ClaimInvalid));
        return Some(Err(ClaimInvalid));
      }
      var k := (input.owner, input.key);
      if k !in rows {
        workers := workers[w := Choosing(input)];
        return None;
      }
      var existing := rows[k];
      if existing.fingerprint != Fingerprint(input) || existing.couponId != input.couponId {
        Leave(w, Err(ClaimConflict));
        return Some(Err(ClaimConflict));
      }
      if existing.status == Claimed || existing.status == Failed {
        Leave(w, Ok(existing));
        return Some(Ok(existing));
      }
      workers := workers[w := Querying(existing)];
      return None;
    }

    // Lines 74-92: the offer is read and the claim reserved.
    method MakeClaim(w: nat, input: ClaimInput, answers: Answers, others: nat -> seq<Event>) returns (out: Answer)
      requires Valid() && At(w, Choosing(input))
      modifies this
      ensures Valid() && old(history) <= history && Ended(w, out) && Serves(out, input)
    {
      hide Valid, Matches;
      Interfere(w, others(0));
      var refused := ReadOffer(w, answers.offer);
      if refused.Some? {
        return refused.value;
      }
      Interfere(w, others(1));
      refused := Reserve(w, answers.id);
      if refused.Some? {
        return refused.value;
      }
      Interfere(w, others(2));
      out := Proceed(w, input, answers, others);
    }

    // Lines 77-84 of claims.go, then on.
    method Proceed(w: nat, input: ClaimInput, answers: Answers, others: nat -> seq<Event>) returns (out: Answer)
      requires Valid() && w in workers && workers[w].Selecting? && workers[w].input == input
      modifies this
      ensures Valid() && old(history) <= history && Ended(w, out) && Serves(out, input)
    {
      hide Valid, Meets, About;
      var done := ReadReserved(w);
      if done.Some? {
        return done.value;
      }
      ghost var rec := workers[w].rec;
      if workers[w].Querying? {
        out := Ask(w, answers.reply, others);
      } else {
        out := Confirm(w, answers, others);
      }
      AboutServes(out, rec, input);
    }

    method ReadOffer(w: nat, offer: Offer) returns (done: Option<Answer>)
      requires Valid() && w in workers && workers[w].Choosing?
      modifies this
      ensures Valid() && old(history) <= history
      ensures match done
              case Some(out) => Ended(w, out) && out.Err?
              case None => At(w, Inserting(old(workers)[w].input))
    {
      Record(Choose(w, offer));
      if offer == Unreadable {
        Leave(w, Err(CatalogError));
        return Some(Err(CatalogError));
      }
      if offer == NotOffered {
        Leave(w, Err(ClaimNotFound));
        return Some(Err(ClaimNotFound));
      }
      if offer != InSite {
        Leave(w, Err(NotClaimable));
        return Some(Err(NotClaimable));
      }
      workers := workers[w := Inserting(workers[w].input)];
      return None;
    }

    method Reserve(w: nat, id: string) returns (done: Option<Answer>)
      requires Valid() && w in workers && workers[w].Inserting?
      modifies this
      ensures Valid() && old(history) <= history
      ensures match done
              case Some(out) => Ended(w, out) && out.Err?
              case None => w in workers && workers[w].Selecting? && workers[w].input == old(workers)[w].input
    {
      hide ValidLine, IdTaken;
      var input := workers[w].input;
      Record(Insert(w, id));
      if !ValidLine(id, 128) {
        Leave(w, Err(ClaimInvalid));
        return Some(Err(ClaimInvalid));
      }
      var created := InsertClaim(Claim(id, input.owner, input.couponId, input.key, Fingerprint(input), Pending, ""));
      if created.None? {
        Leave(w, Err(StorageError));
        return Some(Err(StorageError));
      }
      workers := workers[w := Selecting(input, id, created.value)];
      return None;
    }

    method ReadReserved(w: nat) returns (done: Option<Answer>)
      requires Valid() && w in workers && workers[w].Selecting?
      modifies this
      ensures Valid() && old(history) <= history
      ensures match done
              case Some(out) => Ended(w, out) && Serves(out, old(workers)[w].input)
              case None => w in workers && (workers[w].Querying? || workers[w].Rechecking?) && Meets(workers[w].rec, old(workers)[w].input)
    {
      hide Fingerprint;
      var k := workers[w];
      if (k.input.owner, k.input.key) in rows {
        StoredUnder((k.input.owner, k.input.key));
      }
      Record(Select(w));
      var key := (k.input.owner, k.input.key);
      if key !in rows {
        Leave(w, Err(ClaimNotFound));
        return Some(Err(ClaimNotFound));
      }
      var stored := rows[key];
      if stored.fingerprint != Fingerprint(k.input) || stored.couponId != k.input.couponId {
        Leave(w, Err(ClaimConflict));
        return Some(Err(ClaimConflict));
      }
      if k.created {
        workers := workers[w := Rechecking(stored)];
      } else if stored.status == Claimed || stored.status == Failed {
        Leave(w, Ok(stored));
        return Some(Ok(stored));
      } else {
        workers := workers[w := Querying(stored)];
      }
      return None;
    }

    // Lines 93-101.
    method Confirm(w: nat, answers: Answers, others: nat -> seq<Event>) returns (out: Answer)
      requires Valid() && w in workers && workers[w].Rechecking?
      modifies this
      ensures Valid() && old(history) <= history && Ended(w, out) && About(out, old(workers)[w].rec)
    {
      hide Valid;
      Interfere(w, others(3));
      var refused := ReadOfferAgain(w, answers.again);
      if refused.Some? {
        return refused.value;
      }
      if workers[w].Calling? {
        Interfere(w, others(4));
        CallClaim(w);
        Interfere(w, others(5));
        Answered(w, answers.reply);
      }
      out := SetOutcome(w, others);
    }

    method ReadOfferAgain(w: nat, offer: Offer) returns (done: Option<Answer>)
      requires Valid() && w in workers && workers[w].Rechecking?
      modifies this
      ensures Valid() && old(history) <= history
      ensures match done
              case Some(out) => Ended(w, out) && out.Err?
              case None => w in workers && (workers[w].Calling? || workers[w].Saving?) && workers[w].rec == old(workers)[w].rec
    {
      var rec := workers[w].rec;
      Record(Recheck(w, offer));
      if offer == NotOffered || offer == OtherMode {
        workers := workers[w := Saving(rec, Failed, "", true)];
      } else if offer == Unreadable {
        Leave(w, Err(CatalogError));
        return Some(Err(CatalogError));
      } else {
        workers := workers[w := Calling(rec)];
      }
      return None;
    }

    method CallClaim(w: nat)
      requires Valid() && w in workers && workers[w].Calling?
      modifies this
      ensures Valid() && old(history) <= history && At(w, Called(old(workers)[w].rec))
      ensures log == old(log) + [ClaimSent(old(workers)[w].rec.id)]
    {
      Record(SendClaim(w));
      log := log + [ClaimSent(workers[w].rec.id)];
      workers := workers[w := Called(workers[w].rec)];
    }

    method CallQuery(w: nat)
      requires Valid() && w in workers && workers[w].Querying?
      modifies this
      ensures Valid() && old(history) <= history && At(w, Asked(old(workers)[w].rec))
      ensures log == old(log) + [QuerySent(old(workers)[w].rec.id)]
    {
      Record(SendQuery(w));
      log := log + [QuerySent(workers[w].rec.id)];
      workers := workers[w := Asked(workers[w].rec)];
    }

    // Lines 121-127.
    method Answered(w: nat, reply: Reply)
      requires Valid() && w in workers && (workers[w].Called? || workers[w].Asked?)
      modifies this
      ensures Valid() && old(history) <= history && w in workers && workers[w].Saving? && log == old(log)
      ensures workers[w].rec == old(workers)[w].rec
    {
      hide ValidEvidence;
      var rec := workers[w].rec;
      Record(Receive(w, reply));
      var status, evidence := QueryRequired, "";
      if reply.SaysClaimed? && ValidEvidence(reply.evidence) {
        status, evidence := Claimed, reply.evidence;
      } else if reply.SaysFailed? {
        status := Failed;
      }
      workers := workers[w := Saving(rec, status, evidence, false)];
    }

    // Lines 112-118 for a claim without an outcome.
    method Ask(w: nat, reply: Reply, others: nat -> seq<Event>) returns (out: Answer)
      requires Valid() && w in workers && workers[w].Querying?
      modifies this
      ensures Valid() && old(history) <= history && Ended(w, out) && About(out, old(workers)[w].rec)
    {
      hide Valid;
      Interfere(w, others(6));
      CallQuery(w);
      Interfere(w, others(7));
      Answered(w, reply);
      out := SetOutcome(w, others);
    }

    // claims.go:101-125 with lines 128-132: update, read back, and on a lost
    // race read what won.
    method SetOutcome(w: nat, others: nat -> seq<Event>) returns (out: Answer)
      requires Valid() && w in workers && workers[w].Saving?
      modifies this
      ensures Valid() && old(history) <= history && Ended(w, out) && About(out, old(workers)[w].rec)
    {
      hide Valid;
      Interfere(w, others(8));
      var done := Write(w);
      if done.Some? {
        return done.value;
      }
      Interfere(w, others(9));
      done := ReadBack(w);
      if done.Some? {
        return done.value;
      }
      Interfere(w, others(10));
      out := ReadWinner(w);
    }

    method Write(w: nat) returns (done: Option<Answer>)
      requires Valid() && w in workers && workers[w].Saving?
      modifies this
      ensures Valid() && old(history) <= history
      ensures match done
              case Some(out) => Ended(w, out) && out.Err?
              case None => w in workers && workers[w].Reading? && workers[w].rec == old(workers)[w].rec
    {
      hide ValidEvidence;
      var k := workers[w];
      Record(Save(w));
      if k.status == Pending || (k.status == Claimed && !ValidEvidence(k.evidence))
        || (k.status != Claimed && k.evidence != "") {
        Leave(w, Err(ClaimInvalid));
        return Some(Err(ClaimInvalid));
      }
      var changed := UpdateOutcome((k.rec.owner, k.rec.key), k.status, k.evidence);
      workers := workers[w := Reading(k.rec, k.status, k.evidence, k.direct, changed)];
      return None;
    }

    method ReadBack(w: nat) returns (done: Option<Answer>)
      requires Valid() && w in workers && workers[w].Reading?
      modifies this
      ensures Valid() && old(history) <= history
      ensures match done
              case Some(out) => Ended(w, out) && About(out, old(workers)[w].rec)
              case None => w in workers && workers[w].Rereading? && workers[w].rec == old(workers)[w].rec
    {
      var k := workers[w];
      StoredIsTheirs(w);
      Record(Read(w));
      var key := (k.rec.owner, k.rec.key);
      if key !in rows {
        Leave(w, Err(ClaimNotFound));
        return Some(Err(ClaimNotFound));
      }
      var current := rows[key];
      if !k.changed && (current.status != k.status || current.evidence != k.evidence) {
        if k.direct {
          Leave(w, Err(ClaimConflict));
          return Some(Err(ClaimConflict));
        }
        workers := workers[w := Rereading(k.rec)];
        return None;
      }
      Leave(w, Ok(current));
      return Some(Ok(current));
    }

    method ReadWinner(w: nat) returns (out: Answer)
      requires Valid() && w in workers && workers[w].Rereading?
      modifies this
      ensures Valid() && old(history) <= history && Ended(w, out) && About(out, old(workers)[w].rec)
    {
      var rec := workers[w].rec;
      StoredIsTheirs(w);
      Record(Read(w));
      var key := (rec.owner, rec.key);
      out := if key in rows then Ok(rows[key]) else Err(ClaimNotFound);
      Leave(w, out);
    }

    // Lines 104-110.
    method GetClaim(w: nat, owner: string, id: string, reply: Reply, others: nat -> seq<Event>) returns (out: Answer)
      requires Valid() && w !in workers
      modifies this
      ensures Concluded(old(history), w, out)
      ensures out.Ok? ==> out.value.id == id && out.value.owner == owner
    {
      hide Valid;
      var found := Fetch(w, owner, id);
      if found.Some? {
        out := found.value;
      } else {
        out := Ask(w, reply, others);
      }
      Conclude(old(history), w, out);
    }

    method Fetch(w: nat, owner: string, id: string) returns (done: Option<Answer>)
      requires Valid() && w !in workers
      modifies this
      ensures Valid() && old(history) <= history
      ensures match done
              case Some(out) => Ended(w, out) && (out.Ok? ==> out.value.id == id && out.value.owner == owner)
              case None => w in workers && workers[w].Querying? && workers[w].rec.id == id && workers[w].rec.owner == owner
    {
      hide ValidLine;
      if !ValidLine(owner, 128) || !ValidLine(id, 128) {
        Record(Get(w, owner, id, ""));
        Leave(w, Err(ClaimInvalid));
        return Some(Err(ClaimInvalid));
      }
      if !Owns(rows, owner, id) {
        Record(Get(w, owner, id, ""));
        Leave(w, Err(ClaimNotFound));
        return Some(Err(ClaimNotFound));
      }
      var k :| k in rows && k.0 == owner && rows[k].id == id;
      StoredUnder(k);
      Record(Get(w, owner, id, k.1));
      var record := rows[k];
      if record.status == Claimed || record.status == Failed {
        Leave(w, Ok(record));
        return Some(Ok(record));
      }
      workers := workers[w := Querying(record)];
      return None;
    }
  }
}
