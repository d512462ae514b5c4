// Why a claim ends as it does: every outcome that is stored was learned by a call
// that held this very claim, and a claim is made and sent only after the coupon was
// found to be claimable on site.
module ClaimOutcomes {
  import opened Wrappers
  import opened Text
  import opened NulJoined
  import opened CouponSync
  import opened CouponClaims
  import opened ClaimSafety

  // What a call can learn about the claim of an owner and key.
  datatype News = Won(evidence: string) | Lost | Unclear | Offered(input: ClaimInput) | StillOffered

  // Whose claim a worker is about.
  function KeyOf(k: Worker): Key
  {
    match k
    case Choosing(input) => (input.owner, input.key)
    case Inserting(input) => (input.owner, input.key)
    case Selecting(input, _, _) => (input.owner, input.key)
    case _ => (k.rec.owner, k.rec.key)
  }

  predicate OfWorker(e: Event)
  {
    !e.Create? && !e.Get?
  }

  predicate Serves(s: State, e: Event, key: Key)
  {
    OfWorker(e) && e.worker in s.workers && KeyOf(s.workers[e.worker]) == key
  }

  // The channel's answer to a call that claimed or queried this very claim.
  predicate Hears(s: State, e: Event, key: Key, reply: Reply)
  {
    e.Receive? && e.reply == reply && Serves(s, e, key) && (s.workers[e.worker].Called? || s.workers[e.worker].Asked?)
  }

  predicate Evidence(evidence: string)
  {
    ValidLine(evidence, 256)
    && forall i | 0 <= i < |evidence| - 2 :: !(evidence[i] == ':' && evidence[i + 1] == '/' && evidence[i + 2] == '/')
  }

  predicate Tells(s: State, e: Event, key: Key, x: News)
  {
    match x
    case Won(evidence) => Evidence(evidence) && Hears(s, e, key, SaysClaimed(evidence))
    case Lost =>
      (e.Receive? && e.reply.SaysFailed? && Hears(s, e, key, e.reply))
      || (e.Recheck? && e.offer in {OtherMode, NotOffered} && Serves(s, e, key) && s.workers[e.worker].Rechecking?)
    case Unclear =>
      Hears(s, e, key, SaysOther) || Hears(s, e, key, ChannelError)
      || (e.Receive? && e.reply.SaysClaimed? && !Evidence(e.reply.evidence) && Hears(s, e, key, e.reply))
    case Offered(input) => e.Choose? && e.offer == InSite && Serves(s, e, key) && s.workers[e.worker] == Choosing(input)
    case StillOffered => e.Recheck? && e.offer == InSite && Serves(s, e, key) && s.workers[e.worker].Rechecking?
  }

  predicate Outcome(x: News)
  {
    x.Won? || x.Lost? || x.Unclear?
  }

  predicate Carries(k: Worker, x: News)
  {
    match x
    case Won(evidence) => k.Saving? && k.status == Claimed && k.evidence == evidence
    case Lost => k.Saving? && k.status == Failed && k.evidence == ""
    case Unclear => k.Saving? && k.status == QueryRequired && k.evidence == ""
    case Offered(input) => k.Inserting? && k.input == input
    case StillOffered => k.Calling?
  }

  predicate Says(r: Claim, x: News)
  {
    match x
    case Won(evidence) => r.status == Claimed && r.evidence == evidence
    case Lost => r.status == Failed
    case Unclear => r.status == QueryRequired
    case _ => false
  }

  lemma EvidenceIsValid(evidence: string)
    ensures Evidence(evidence) <==> ValidEvidence(evidence)
  {
    hide ValidLine;
  }

  // ---- Learning ----

  // The worker of `e` comes to carry `x` exactly when `e` tells it; it keeps the claim
  // it held and nothing is written.
  predicate Learns(s: State, e: Event, x: News)
    requires OfWorker(e) && Step(s, e).Some?
  {
    var t := Step(s, e).value; var w := e.worker;
    (w in t.workers && Carries(t.workers[w], x) <==> w in s.workers && Tells(s, e, KeyOf(s.workers[w]), x))
    && (w in t.workers && Carries(t.workers[w], x) ==> KeyOf(t.workers[w]) == KeyOf(s.workers[w]) && t.rows == s.rows)
  }

  lemma LearnsWhatItIsTold(s: State, e: Event, x: News)
    requires OfWorker(e) && Step(s, e).Some?
    requires e.worker in s.workers ==> !Carries(s.workers[e.worker], x)
    ensures Learns(s, e, x)
  {
    hide *;
    if e.Receive? {
      if e.reply.SaysClaimed? {
        EvidenceIsValid(e.reply.evidence);
      }
      LearnsFromReply(s, e, x);
    } else if e.Choose? || e.Recheck? {
      LearnsFromOffer(s, e, x);
    } else {
      LearnsNothing(s, e, x);
    }
  }

  lemma LearnsFromReply(s: State, e: Event, x: News)
    requires e.Receive? && Step(s, e).Some?
    requires e.reply.SaysClaimed? ==> (Evidence(e.reply.evidence) <==> ValidEvidence(e.reply.evidence))
    ensures Learns(s, e, x)
  {
    hide Evidence, ValidEvidence;
  }

  lemma LearnsFromOffer(s: State, e: Event, x: News)
    requires (e.Choose? || e.Recheck?) && Step(s, e).Some?
    ensures Learns(s, e, x)
  {
    hide Evidence;
  }

  lemma LearnsNothing(s: State, e: Event, x: News)
    requires OfWorker(e) && Step(s, e).Some? && !e.Receive? && !e.Choose? && !e.Recheck?
    requires e.worker in s.workers ==> !Carries(s.workers[e.worker], x)
    ensures Learns(s, e, x)
  {
    hide Evidence, ValidOutcome, Updated, IdTaken;
  }

  // A coupon that cannot be claimed on site, or cannot be read, ends the call; after
  // the claim was made, one that is not claimable any more is recorded as lost instead.
  lemma RefusedOfferEndsTheCall(s: State, w: nat, offer: Offer)
    requires w in s.workers && offer != InSite
    ensures s.workers[w].Choosing? ==>
              Step(s, Choose(w, offer)) == Some(Finish(s, w, Err(if offer == OtherMode then NotClaimable
                                                                 else if offer == NotOffered then ClaimNotFound
                                                                 else CatalogError)))
    ensures s.workers[w].Rechecking? && offer == Unreadable ==>
              Step(s, Recheck(w, offer)) == Some(Finish(s, w, Err(CatalogError)))
  {
  }

  // ---- Storing ----

  // A call writes the outcome it learned into its own claim and nowhere else, exactly
  // when that has no outcome yet.
  lemma StoresWhatItCarries(s: State, w: nat, x: News)
    requires Inv(s) && w in s.workers && Carries(s.workers[w], x) && Outcome(x)
    ensures var key := KeyOf(s.workers[w]); var t := Step(s, Save(w));
            key in s.rows && t.Some? && w in t.value.workers && t.value.returned == s.returned
            && if s.rows[key].status in {Pending, QueryRequired} then
                 key in t.value.rows && t.value.rows == s.rows[key := t.value.rows[key]]
                 && Says(t.value.rows[key], x) && SameClaim(s.rows[key], t.value.rows[key])
               else t.value.rows == s.rows
  {
    assert WorkerOk(s.rows, s.log, s.workers[w]);
    hide Inv, ValidEvidence, ClaimCount;
  }

  // After the write the call returns the stored claim, unless it found another outcome
  // than the one it was to record directly.
  lemma ReturnsTheStored(s: State, w: nat)
    requires Inv(s) && w in s.workers && s.workers[w].Reading?
    ensures var k := s.workers[w]; var key := KeyOf(k); var t := Step(s, Read(w));
            key in s.rows && t.Some? && t.value.rows == s.rows
            && var agrees := k.changed || (s.rows[key].status == k.status && s.rows[key].evidence == k.evidence);
            (agrees ==> t.value == Finish(s, w, Ok(s.rows[key])))
            && (!agrees && k.direct ==> t.value == Finish(s, w, Err(ClaimConflict)))
            && (!agrees && !k.direct ==>
                  Step(t.value, Read(w)) == Some(Finish(t.value, w, Ok(s.rows[key]))))
  {
    assert WorkerOk(s.rows, s.log, s.workers[w]);
    hide Inv, ClaimCount;
  }

  // A call under a stored key answers with its outcome or asks about it; for another
  // coupon, city or business it is a conflict.
  lemma RepeatedKeyAnswers(s: State, w: nat, input: ClaimInput)
    requires ValidInput(input) && (input.owner, input.key) in s.rows
    ensures var row := s.rows[(input.owner, input.key)];
            CreateStep(s, w, input)
            == if row.couponId != input.couponId || row.fingerprint != Fingerprint(input) then Finish(s, w, Err(ClaimConflict))
               else if row.status in {Claimed, Failed} then Finish(s, w, Ok(row))
               else Advance(s, w, Querying(row))
  {
    hide ValidInput, Fingerprint;
  }

  // An invalid input is refused; under a new key the coupon is looked at first.
  lemma NewKeyStarts(s: State, w: nat, input: ClaimInput)
    requires w !in s.workers && (input.owner, input.key) !in s.rows
    ensures Step(s, Create(w, input))
         == Some(if ValidInput(input) then Advance(s, w, Choosing(input)) else Finish(s, w, Err(ClaimInvalid)))
  {
    hide ValidInput;
  }

  // After the insertion the call that made the claim looks at the coupon again; any
  // other answers like a repeated call.
  lemma ReservedAnswers(s: State, w: nat)
    requires w in s.workers && s.workers[w].Selecting?
    ensures var k := s.workers[w]; var key := KeyOf(k);
            Step(s, Select(w))
            == Some(if key !in s.rows then Finish(s, w, Err(ClaimNotFound))
                    else if s.rows[key].couponId != k.input.couponId || s.rows[key].fingerprint != Fingerprint(k.input) then
                      Finish(s, w, Err(ClaimConflict))
                    else if k.created then Advance(s, w, Rechecking(s.rows[key]))
                    else if s.rows[key].status in {Claimed, Failed} then Finish(s, w, Ok(s.rows[key]))
                    else Advance(s, w, Querying(s.rows[key])))
  {
    hide Fingerprint;
  }

  // A claim is found by its owner and ID only.
  lemma OnlyTheOwnersClaimIsRead(s: State, w: nat, owner: string, id: string, key: string)
    requires ValidLine(owner, 128) && ValidLine(id, 128) && GetStep(s, w, owner, id, key).Some?
    ensures if exists j | j in s.rows :: j.0 == owner && s.rows[j].id == id then
              (owner, key) in s.rows && s.rows[(owner, key)].id == id
              && GetStep(s, w, owner, id, key).value
                 == if s.rows[(owner, key)].status in {Claimed, Failed} then Finish(s, w, Ok(s.rows[(owner, key)]))
                    else Advance(s, w, Querying(s.rows[(owner, key)]))
            else GetStep(s, w, owner, id, key).value == Finish(s, w, Err(ClaimNotFound))
  {
    hide ValidLine;
    assert Owns(s.rows, owner, id) <==> exists j | j in s.rows :: j.0 == owner && s.rows[j].id == id;
  }

  // ---- Whole runs ----

  // Some event of the run told a call about this claim so.
  predicate Told(es: seq<Event>, key: Key, x: News)
  {
    exists i | 0 <= i < |es| :: ToldAt(es[..i], es[i], key, x)
  }

  predicate ToldAt(before: seq<Event>, e: Event, key: Key, x: News)
  {
    Run(EMPTY, before).Some? && Tells(Run(EMPTY, before).value, e, key, x)
  }

  lemma ToldLater(es: seq<Event>, e: Event, key: Key, x: News)
    ensures Told(es + [e], key, x) <==> Told(es, key, x) || ToldAt(es, e, key, x)
  {
    var all := es + [e];
    hide ToldAt;
    assert all[|es|] == e && all[..|es|] == es;
    assert forall i | 0 <= i < |es| :: all[i] == es[i] && all[..i] == es[..i];
  }

  lemma {:induction false} RunPrefix(s: State, es: seq<Event>, fs: seq<Event>)
    requires Run(s, es + fs).Some?
    ensures Run(s, es).Some?
    decreases |es|
  {
    hide Step;
    if es != [] {
      assert (es + fs)[0] == es[0] && (es + fs)[1..] == es[1..] + fs;
      RunPrefix(Step(s, es[0]).value, es[1..], fs);
    }
  }

  lemma RunLast(es: seq<Event>)
    requires es != [] && Run(EMPTY, es).Some?
    ensures var before := es[..|es| - 1];
            es == before + [es[|es| - 1]] && Run(EMPTY, before).Some?
            && Step(Run(EMPTY, before).value, es[|es| - 1]) == Run(EMPTY, es)
  {
    var before, e := es[..|es| - 1], es[|es| - 1];
    assert es == before + [e];
    RunPrefix(EMPTY, before, [e]);
    RunAppend(EMPTY, before, [e]);
    var s := Run(EMPTY, before).value;
    assert [e][1..] == [];
    hide Step;
    assert Run(s, [e]) == Step(s, e) by {
      if Step(s, e).Some? {
        assert Run(Step(s, e).value, []) == Some(Step(s, e).value);
      }
    }
  }

  lemma OthersLeave(s: State, e: Event, w: nat)
    requires e.worker != w && Step(s, e).Some?
    ensures (w in s.workers <==> w in Step(s, e).value.workers)
    ensures w in s.workers ==> Step(s, e).value.workers[w] == s.workers[w]
  {
    hide ValidInput, ValidLine, Owns, Updated, IdTaken, ValidOutcome;
  }

  lemma CarriedNews(s: State, e: Event, w: nat, x: News)
    requires Step(s, e).Some? && w in Step(s, e).value.workers && Carries(Step(s, e).value.workers[w], x)
    ensures var key := KeyOf(Step(s, e).value.workers[w]);
            (w in s.workers && KeyOf(s.workers[w]) == key && Carries(s.workers[w], x)) || Tells(s, e, key, x)
  {
    if e.worker != w {
      OthersLeave(s, e, w);
    } else if e.Create? || e.Get? {
      hide ValidInput, ValidLine, Owns;
    } else if w in s.workers && Carries(s.workers[w], x) {
      hide Updated, IdTaken, ValidOutcome, Tells;
    } else {
      LearnsWhatItIsTold(s, e, x);
      hide Step, Carries, Tells, KeyOf;
    }
  }

  lemma {:induction false} CarriedWasTold(es: seq<Event>, w: nat, x: News)
    requires Run(EMPTY, es).Some? && w in Run(EMPTY, es).value.workers && Carries(Run(EMPTY, es).value.workers[w], x)
    ensures Told(es, KeyOf(Run(EMPTY, es).value.workers[w]), x)
    decreases |es|
  {
    if es != [] {
      var before, e := es[..|es| - 1], es[|es| - 1];
      RunLast(es);
      var s := Run(EMPTY, before).value;
      hide Run, Step, Carries, Tells, KeyOf;
      CarriedNews(s, e, w, x);
      var key := KeyOf(Run(EMPTY, es).value.workers[w]);
      ToldLater(before, e, key, x);
      if w in s.workers && KeyOf(s.workers[w]) == key && Carries(s.workers[w], x) {
        CarriedWasTold(before, w, x);
      }
    }
  }

  lemma StoredNews(s: State, e: Event, key: Key, x: News)
    requires Inv(s) && Step(s, e).Some? && key in Step(s, e).value.rows && Says(Step(s, e).value.rows[key], x)
    ensures (key in s.rows && Says(s.rows[key], x))
            || (OfWorker(e) && e.worker in s.workers && KeyOf(s.workers[e.worker]) == key && Carries(s.workers[e.worker], x))
  {
    if e.Save? {
      SavedNews(s, e, key, x);
    } else {
      OthersSaveNothing(s, e, key);
      hide Step, Inv, Carries;
    }
  }

  lemma SavedNews(s: State, e: Event, key: Key, x: News)
    requires Inv(s) && e.Save? && Step(s, e).Some? && key in Step(s, e).value.rows && Says(Step(s, e).value.rows[key], x)
    ensures (key in s.rows && Says(s.rows[key], x))
            || (OfWorker(e) && e.worker in s.workers && KeyOf(s.workers[e.worker]) == key && Carries(s.workers[e.worker], x))
  {
    assert ValidOutcome(s.workers[e.worker].status, s.workers[e.worker].evidence) by {
      assert WorkerOk(s.rows, s.log, s.workers[e.worker]);
    }
    hide Inv, ValidEvidence;
  }

  lemma OthersSaveNothing(s: State, e: Event, key: Key)
    requires !e.Save? && Step(s, e).Some? && key in Step(s, e).value.rows
    ensures (key in s.rows && Step(s, e).value.rows[key] == s.rows[key]) || Step(s, e).value.rows[key].status == Pending
  {
    hide ValidInput, ValidLine, Owns, IdTaken;
  }

  // Every stored outcome was learned by a call that held this claim: evidence and
  // failure from the channel's answer or from an offer withdrawn before the claim was
  // sent, and a doubt from any other answer.
  lemma {:induction false} OutcomesWereTold(es: seq<Event>, key: Key, x: News)
    requires Run(EMPTY, es).Some? && key in Run(EMPTY, es).value.rows && Says(Run(EMPTY, es).value.rows[key], x)
    ensures Told(es, key, x)
    decreases |es|
  {
    if es != [] {
      var before, e := es[..|es| - 1], es[|es| - 1];
      RunLast(es);
      Reachable(before);
      var s := Run(EMPTY, before).value;
      hide Run, Step, Carries, Says, Tells, KeyOf, Inv;
      StoredNews(s, e, key, x);
      ToldLater(before, e, key, x);
      if key in s.rows && Says(s.rows[key], x) {
        OutcomesWereTold(before, key, x);
      } else {
        CarriedWasTold(before, e.worker, x);
      }
    }
  }

  // The row an input makes.
  predicate MadeFor(r: Claim, input: ClaimInput)
  {
    r.owner == input.owner && r.key == input.key && r.couponId == input.couponId
    && r.fingerprint == Join([input.couponId, input.cityCode, input.business])
  }

  lemma MadeByInsert(s: State, e: Event, key: Key)
    requires Step(s, e).Some? && key in Step(s, e).value.rows
    ensures var r := Step(s, e).value.rows[key];
            (key in s.rows && SameClaim(s.rows[key], r))
            || (OfWorker(e) && e.worker in s.workers && s.workers[e.worker].Inserting?
                && KeyOf(s.workers[e.worker]) == key && MadeFor(r, s.workers[e.worker].input) && r.status == Pending)
  {
    if key in s.rows {
      StepKeepsClaim(s, e, key);
    } else if e.Insert? {
      hide ValidLine, IdTaken;
    } else {
      hide ValidInput, ValidLine, Owns, IdTaken, ValidOutcome;
    }
  }

  // Every claim was made for an input whose coupon was found claimable on site.
  lemma {:induction false} ClaimsWereOffered(es: seq<Event>, key: Key) returns (input: ClaimInput)
    requires Run(EMPTY, es).Some? && key in Run(EMPTY, es).value.rows
    ensures MadeFor(Run(EMPTY, es).value.rows[key], input) && Told(es, key, Offered(input))
    decreases |es|
  {
    var before, e := es[..|es| - 1], es[|es| - 1];
    RunLast(es);
    var s := Run(EMPTY, before).value;
    hide Run, Step, Tells;
    MadeByInsert(s, e, key);
    if key in s.rows {
      input := ClaimsWereOffered(before, key);
      ToldLater(before, e, key, Offered(input));
    } else {
      input := s.workers[e.worker].input;
      CarriedWasTold(before, e.worker, Offered(input));
      ToldLater(before, e, key, Offered(input));
    }
  }

  lemma SentBy(s: State, e: Event, key: Key)
    requires Inv(s) && Step(s, e).Some? && key in Step(s, e).value.rows
    requires ClaimCount(Step(s, e).value.log, Step(s, e).value.rows[key].id) > 0
    ensures (key in s.rows && ClaimCount(s.log, s.rows[key].id) > 0)
            || (e.SendClaim? && e.worker in s.workers && s.workers[e.worker].Calling? && KeyOf(s.workers[e.worker]) == key)
  {
    var t := Step(s, e).value;
    StepKeeps(s, e);
    if e.SendClaim? {
      var k := s.workers[e.worker];
      assert WorkerOk(s.rows, s.log, k) && WorkerOk(t.rows, t.log, t.workers[e.worker]);
      assert t.log == s.log + [ClaimSent(k.rec.id)] && t.log[..|s.log|] == s.log && t.rows == s.rows;
    } else if e.SendQuery? {
      assert t.log[..|s.log|] == s.log && t.rows == s.rows;
    } else {
      SendsNothing(s, e);
      if key in s.rows {
        StepKeepsClaim(s, e, key);
      } else {
        assert IdTaken(s.rows, t.rows[key].id);
        var j :| j in s.rows && s.rows[j].id == t.rows[key].id;
        StepKeepsClaim(s, e, j);
        assert false;
      }
    }
  }

  lemma SendsNothing(s: State, e: Event)
    requires Step(s, e).Some? && !e.SendClaim? && !e.SendQuery?
    ensures Step(s, e).value.log == s.log
  {
    hide ValidInput, ValidLine, Owns, IdTaken, ValidOutcome, Updated;
  }

  // The channel was asked to claim only after a second look found the coupon still
  // claimable on site.
  lemma {:induction false} SentClaimsWereStillOffered(es: seq<Event>, key: Key)
    requires Run(EMPTY, es).Some? && key in Run(EMPTY, es).value.rows
    requires ClaimCount(Run(EMPTY, es).value.log, Run(EMPTY, es).value.rows[key].id) > 0
    ensures Told(es, key, StillOffered)
    decreases |es|
  {
    if es != [] {
      var before, e := es[..|es| - 1], es[|es| - 1];
      RunLast(es);
      Reachable(before);
      var s := Run(EMPTY, before).value;
      hide Run, Step, Tells, Inv, ClaimCount, KeyOf;
      SentBy(s, e, key);
      ToldLater(before, e, key, StillOffered);
      if key in s.rows && ClaimCount(s.log, s.rows[key].id) > 0 {
        SentClaimsWereStillOffered(before, key);
      } else {
        CarriedWasTold(before, e.worker, StillOffered);
      }
    }
  }
}
