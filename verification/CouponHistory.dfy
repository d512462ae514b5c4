// Whole histories of snapshots of one coupon, in any order of delivery.
module CouponHistory {
  import opened Wrappers
  import opened Text
  import opened CouponSync

  // ---- What every history keeps ----

  datatype Delivery = Delivery(answer: Option<Snapshot>, now: int)

  function Run(e: Entry, id: string, ds: seq<Delivery>): Entry
    decreases |ds|
  {
    if ds == [] then e else Run(SyncSpec(e, id, ds[0].answer, ds[0].now).1, id, ds[1..])
  }

  predicate Ascending(events: seq<SyncEvent>)
  {
    forall i, j | 0 <= i < j < |events| :: events[i].verifiedAt < events[j].verifiedAt
      && events[i].evidenceRef != events[j].evidenceRef
  }

  predicate Agrees(coupon: Option<Coupon>, products: map<string, CouponProduct>, events: seq<SyncEvent>)
  {
    match coupon
    case None => products == map[] && events == []
    case Some(c) =>
      |events| > 0 && events[|events| - 1] == SyncEvent(c.evidenceRef, c.verifiedAt, c.enabled)
      && AllAt(products, c.enabled, c.verifiedAt)
  }

  // The event log grows strictly in time; its last entry is the coupon's
  // evidence, time and state; every product has the coupon's time and state.
  predicate Inv(e: Entry)
  {
    Ascending(e.events) && Agrees(e.coupon, e.products, e.events)
  }

  predicate Named(products: seq<Product>, k: string)
  {
    exists i | 0 <= i < |products| :: products[i].externalProductId == k
  }

  // The stored products are the published ones, each once.
  lemma {:induction false} ShelvedExactly(products: seq<Product>, verifiedAt: int)
    requires forall i, j | 0 <= i < j < |products| :: products[i].externalProductId != products[j].externalProductId
    ensures forall k :: k in Shelved(products, verifiedAt) <==> Named(products, k)
    ensures forall i | 0 <= i < |products| :: ShelvedAs(products[i], Shelved(products, verifiedAt), verifiedAt)
    ensures |Shelved(products, verifiedAt)| == |products|
  {
    ShelvedNames(products, verifiedAt);
    ShelvedValues(products, verifiedAt);
  }

  predicate ShelvedAs(p: Product, shelf: map<string, CouponProduct>, verifiedAt: int)
  {
    p.externalProductId in shelf
    && shelf[p.externalProductId] == CouponProduct(p.title, true, verifiedAt, p.updatedAt, p.expiresAt)
  }

  lemma {:induction false} ShelvedNames(products: seq<Product>, verifiedAt: int)
    requires forall i, j | 0 <= i < j < |products| :: products[i].externalProductId != products[j].externalProductId
    ensures forall k :: k in Shelved(products, verifiedAt) <==> Named(products, k)
    ensures |Shelved(products, verifiedAt)| == |products|
  {
    if products != [] {
      var n := |products| - 1;
      var init := products[..n];
      ShelvedNames(init, verifiedAt);
      forall k
        ensures Named(products, k) <==> Named(init, k) || k == products[n].externalProductId
      {
        NamedLast(products, k);
      }
      assert forall i | 0 <= i < n :: init[i] == products[i];
      assert !Named(init, products[n].externalProductId);
      hide Named;
      ShelvedLast(products, verifiedAt);
    }
  }

  lemma {:induction false} ShelvedValues(products: seq<Product>, verifiedAt: int)
    requires forall i, j | 0 <= i < j < |products| :: products[i].externalProductId != products[j].externalProductId
    ensures forall i | 0 <= i < |products| :: ShelvedAs(products[i], Shelved(products, verifiedAt), verifiedAt)
  {
    if products != [] {
      var n := |products| - 1;
      ShelvedValues(products[..n], verifiedAt);
      assert forall i | 0 <= i < n :: products[..n][i] == products[i];
      ShelvedLast(products, verifiedAt);
    }
  }

  lemma ShelvedLast(products: seq<Product>, verifiedAt: int)
    requires products != []
    ensures var p := products[|products| - 1];
            Shelved(products, verifiedAt) == Shelved(products[..|products| - 1], verifiedAt)[p.externalProductId :=
              CouponProduct(p.title, true, verifiedAt, p.updatedAt, p.expiresAt)]
  {
  }

  lemma NamedLast(products: seq<Product>, k: string)
    requires products != []
    ensures var n := |products| - 1; Named(products, k) <==> Named(products[..n], k) || k == products[n].externalProductId
  {
    var n := |products| - 1;
    assert forall i | 0 <= i < n :: products[..n][i] == products[i];
  }

  lemma {:induction false} ShelvedEnabled(products: seq<Product>, verifiedAt: int)
    ensures AllAt(Shelved(products, verifiedAt), true, verifiedAt)
  {
    if products != [] {
      ShelvedEnabled(products[..|products| - 1], verifiedAt);
    }
  }

  predicate AllAt(products: map<string, CouponProduct>, enabled: bool, verifiedAt: int)
  {
    forall k | k in products :: products[k].enabled == enabled && products[k].verifiedAt == verifiedAt
  }

  lemma ApplyKeeps(e: Entry, s: Snapshot)
    requires Inv(e)
    ensures Inv(Apply(e, s).1)
  {
    ShelvedEnabled(s.products, s.verifiedAt);
  }

  lemma {:induction false} RunKeeps(e: Entry, id: string, ds: seq<Delivery>)
    requires Inv(e)
    ensures Inv(Run(e, id, ds))
    decreases |ds|
  {
    hide Inv, Apply, Truncated;
    if ds != [] {
      var d := ds[0];
      if d.answer.Some? {
        ApplyKeeps(e, Truncated(d.answer.value));
      }
      RunKeeps(SyncSpec(e, id, d.answer, d.now).1, id, ds[1..]);
    }
  }

  lemma HistoryIsConsistent(id: string, ds: seq<Delivery>)
    ensures Inv(Run(NOTHING, id, ds))
  {
    RunKeeps(NOTHING, id, ds);
  }

  // ---- Newest evidence wins ----

  // Delivering snapshots that passed validation.
  function Deliver(e: Entry, ss: seq<Snapshot>): Entry
    decreases |ss|
  {
    if ss == [] then e else Deliver(Apply(e, ss[0]).1, ss[1..])
  }

  function Accepted(ds: seq<Delivery>): seq<Snapshot>
    requires forall i | 0 <= i < |ds| :: ds[i].answer.Some?
  {
    seq(|ds|, i requires 0 <= i < |ds| => Truncated(ds[i].answer.value))
  }

  // Calls of Sync whose snapshots pass validation are such deliveries.
  lemma {:induction false} ValidCallsDeliver(e: Entry, id: string, ds: seq<Delivery>)
    requires ValidLine(id, 128)
    requires forall i | 0 <= i < |ds| :: ds[i].answer.Some? && ValidSnapshot(id, Truncated(ds[i].answer.value), ds[i].now)
    ensures Run(e, id, ds) == Deliver(e, Accepted(ds))
    decreases |ds|
  {
    hide Apply, Truncated, ValidSnapshot, ValidLine;
    if ds != [] {
      assert Accepted(ds)[1..] == Accepted(ds[1..]);
      ValidCallsDeliver(SyncSpec(e, id, ds[0].answer, ds[0].now).1, id, ds[1..]);
    }
  }

  // The entry shows this snapshot: its evidence, time and state, and for a
  // publication its content and exactly its products.
  predicate Shows(e: Entry, s: Snapshot)
  {
    e.coupon.Some? && e.coupon.value.verifiedAt == s.verifiedAt && e.coupon.value.evidenceRef == s.evidenceRef
    && e.coupon.value.enabled == s.active
    && (s.active ==> e.coupon.value.item == s.item && e.products == Shelved(s.products, s.verifiedAt))
  }

  predicate SamePlatform(e: Entry, ss: seq<Snapshot>)
  {
    e.coupon.Some? && forall i | 0 <= i < |ss| :: ss[i].item.platform == e.coupon.value.item.platform
  }

  // `s` is delivered and everything else delivered is older.
  predicate Newest(ss: seq<Snapshot>, s: Snapshot)
  {
    s in ss && forall t | t in ss :: t == s || t.verifiedAt < s.verifiedAt
  }

  // No snapshot that can be accepted before `s` uses up its evidence reference.
  predicate OwnReference(e: Entry, ss: seq<Snapshot>, s: Snapshot)
    requires e.coupon.Some?
  {
    !Recorded(e.events, s.evidenceRef)
    && forall t | t in ss :: t != s && t.verifiedAt > e.coupon.value.verifiedAt ==> t.evidenceRef != s.evidenceRef
  }

  lemma Accepts(e: Entry, s: Snapshot)
    requires e.coupon.Some? && s.item.platform == e.coupon.value.item.platform && s.verifiedAt > e.coupon.value.verifiedAt
    ensures !Recorded(e.events, s.evidenceRef) ==> Apply(e, s).0.Ok? && Shows(Apply(e, s).1, s)
    ensures Recorded(e.events, s.evidenceRef) ==> Apply(e, s) == (Err(Storage), e)
  {
  }

  lemma RecordedAppend(events: seq<SyncEvent>, x: SyncEvent, ref: string)
    ensures Recorded(events + [x], ref) <==> Recorded(events, ref) || x.evidenceRef == ref
  {
    assert (events + [x])[|events|] == x;
    assert forall i | 0 <= i < |events| :: (events + [x])[i] == events[i];
  }

  // One delivery moves the coupon to the snapshot or leaves everything alone.
  lemma StepEither(e: Entry, s: Snapshot)
    requires e.coupon.Some? && s.item.platform == e.coupon.value.item.platform
    ensures var next := Apply(e, s).1;
            next.coupon.Some? && next.coupon.value.item.platform == e.coupon.value.item.platform
            && (next == e
                || (s.verifiedAt > e.coupon.value.verifiedAt && next.coupon.value.verifiedAt == s.verifiedAt
                    && next.events == e.events + [SyncEvent(s.evidenceRef, s.verifiedAt, s.active)]))
  {
  }

  // Once it shows the newest snapshot, nothing older changes it.
  lemma {:induction false} Stays(e: Entry, ss: seq<Snapshot>, s: Snapshot)
    requires SamePlatform(e, ss) && Shows(e, s) && forall t | t in ss :: t == s || t.verifiedAt < s.verifiedAt
    ensures Deliver(e, ss) == e
    decreases |ss|
  {
    if ss != [] {
      assert ss[0] in ss;
      assert Apply(e, ss[0]).1 == e;
      Stays(e, ss[1..], s);
    }
  }

  lemma {:induction false} NewestWins(e: Entry, ss: seq<Snapshot>, s: Snapshot)
    requires SamePlatform(e, ss) && Newest(ss, s) && s.verifiedAt > e.coupon.value.verifiedAt && OwnReference(e, ss, s)
    ensures Shows(Deliver(e, ss), s)
    decreases |ss|
  {
    var first, rest := ss[0], ss[1..];
    var next := Apply(e, first).1;
    assert first in ss;
    StepEither(e, first);
    assert SamePlatform(next, rest);
    assert forall t | t in rest :: t in ss;
    if first == s {
      Accepts(e, s);
      hide Apply, Shows, OwnReference;
      Stays(next, rest, s);
    } else {
      RecordedAppend(e.events, SyncEvent(first.evidenceRef, first.verifiedAt, first.active), s.evidenceRef);
      hide Apply, Shows, Recorded;
      assert s in rest by { assert ss == [first] + rest; }
      assert OwnReference(next, rest, s);
      NewestWins(next, rest, s);
    }
  }

  // With its reference already used, it never gets in.
  lemma {:induction false} UsedReferenceLoses(e: Entry, ss: seq<Snapshot>, s: Snapshot)
    requires SamePlatform(e, ss) && Recorded(e.events, s.evidenceRef) && e.coupon.value.verifiedAt < s.verifiedAt
    requires forall t | t in ss :: t == s || t.verifiedAt < s.verifiedAt
    ensures Deliver(e, ss).coupon.Some? && Deliver(e, ss).coupon.value.verifiedAt < s.verifiedAt
    decreases |ss|
  {
    if ss != [] {
      var first, rest := ss[0], ss[1..];
      var next := Apply(e, first).1;
      assert first in ss;
      StepEither(e, first);
      if first == s {
        Accepts(e, s);
      }
      RecordedAppend(e.events, SyncEvent(first.evidenceRef, first.verifiedAt, first.active), s.evidenceRef);
      hide Apply, Recorded;
      assert forall t | t in rest :: t in ss;
      UsedReferenceLoses(next, rest, s);
    }
  }

  // In whatever order these snapshots are delivered, `s` is shown in the end.
  ghost predicate AlwaysShown(e: Entry, ss: seq<Snapshot>, s: Snapshot)
  {
    forall order: seq<Snapshot> | multiset(order) == multiset(ss) :: Shows(Deliver(e, order), s)
  }

  // The newest snapshot ends up shown in every order of delivery if and only if
  // no other snapshot that could be accepted first carries its evidence
  // reference: the event log keeps one row per reference.
  lemma NewestWinsInEveryOrder(e: Entry, ss: seq<Snapshot>, s: Snapshot)
    requires SamePlatform(e, ss) && Newest(ss, s) && s.verifiedAt > e.coupon.value.verifiedAt
    ensures AlwaysShown(e, ss, s) <==> OwnReference(e, ss, s)
  {
    hide Shows, Deliver, Recorded, Apply;
    if OwnReference(e, ss, s) {
      forall order: seq<Snapshot> | multiset(order) == multiset(ss)
        ensures Shows(Deliver(e, order), s)
      {
        SameElements(order, ss);
        assert forall i | 0 <= i < |order| :: order[i] in order;
        NewestWins(e, order, s);
      }
    } else if Recorded(e.events, s.evidenceRef) {
      UsedReferenceLoses(e, ss, s);
      NotShown(Deliver(e, ss), s);
      assert multiset(ss) == multiset(ss);
    } else {
      var t :| t in ss && t != s && t.verifiedAt > e.coupon.value.verifiedAt && t.evidenceRef == s.evidenceRef;
      var order := RivalFirst(e, ss, s, t);
      NotShown(Deliver(e, order), s);
    }
  }

  lemma NotShown(e: Entry, s: Snapshot)
    requires e.coupon.Some? && e.coupon.value.verifiedAt != s.verifiedAt
    ensures !Shows(e, s)
  {
  }

  // Delivered first, a rival with the same reference keeps the newest out.
  lemma RivalFirst(e: Entry, ss: seq<Snapshot>, s: Snapshot, t: Snapshot) returns (order: seq<Snapshot>)
    requires SamePlatform(e, ss) && Newest(ss, s) && t in ss && t != s && t.verifiedAt > e.coupon.value.verifiedAt
    requires t.evidenceRef == s.evidenceRef && !Recorded(e.events, s.evidenceRef)
    ensures multiset(order) == multiset(ss) && Deliver(e, order).coupon.Some?
            && Deliver(e, order).coupon.value.verifiedAt < s.verifiedAt
  {
    var rest := MoveFirst(ss, t);
    order := [t] + rest;
    assert order[0] == t && order[1..] == rest;
    SameElements(order, ss);
    Accepts(e, t);
    StepEither(e, t);
    RecordedAppend(e.events, SyncEvent(t.evidenceRef, t.verifiedAt, t.active), s.evidenceRef);
    hide Apply, Recorded;
    forall u | u in rest
      ensures u in ss
    {
      assert u in order;
    }
    assert forall k | 0 <= k < |rest| :: rest[k] in rest;
    UsedReferenceLoses(Apply(e, t).1, rest, s);
  }

  lemma MoveFirst(ss: seq<Snapshot>, t: Snapshot) returns (rest: seq<Snapshot>)
    requires t in ss
    ensures multiset([t] + rest) == multiset(ss)
  {
    var i :| 0 <= i < |ss| && ss[i] == t;
    rest := ss[..i] + ss[i + 1..];
    assert ss == ss[..i] + [t] + ss[i + 1..];
  }

  lemma SameElements(a: seq<Snapshot>, b: seq<Snapshot>)
    requires multiset(a) == multiset(b)
    ensures forall x :: x in a <==> x in b
  {
    assert forall x :: x in a <==> x in multiset(a);
    assert forall x :: x in b <==> x in multiset(b);
  }

  // ---- The first publication ----

  predicate OnePlatform(ss: seq<Snapshot>, s: Snapshot)
  {
    forall t | t in ss :: t.item.platform == s.item.platform
  }

  // No publication carries the evidence reference of `s`, and a revocation that
  // does is not newer than any publication, so that it can never be accepted
  // before `s`.
  predicate NoRival(ss: seq<Snapshot>, s: Snapshot)
  {
    forall t | t in ss && t != s && t.evidenceRef == s.evidenceRef ::
      !t.active && forall r | r in ss && r != s && r.active :: t.verifiedAt <= r.verifiedAt
  }

  // With nothing stored, the newest snapshot ends up shown in every order of
  // delivery if and only if it is a publication without such a rival: a
  // revocation that arrives before any publication is lost.
  lemma FirstPublicationWinsInEveryOrder(ss: seq<Snapshot>, s: Snapshot)
    requires OnePlatform(ss, s) && Newest(ss, s)
    ensures AlwaysShown(NOTHING, ss, s) <==> s.active && NoRival(ss, s)
  {
    hide Shows, Deliver, Recorded, Apply;
    if !s.active {
      hide AlwaysShown;
      var order := RevocationFirst(ss, s);
      NeverShown(ss, order, s);
    } else if NoRival(ss, s) {
      forall order: seq<Snapshot> | multiset(order) == multiset(ss)
        ensures Shows(Deliver(NOTHING, order), s)
      {
        SameElements(order, ss);
        WinsFromNothing(order, s);
      }
    } else {
      hide AlwaysShown;
      var order := FirstRival(ss, s);
      NeverShown(ss, order, s);
    }
  }

  predicate Below(e: Entry, s: Snapshot)
  {
    e.coupon.None? || e.coupon.value.verifiedAt < s.verifiedAt
  }

  lemma NeverShown(ss: seq<Snapshot>, order: seq<Snapshot>, s: Snapshot)
    requires multiset(order) == multiset(ss) && Below(Deliver(NOTHING, order), s)
    ensures !AlwaysShown(NOTHING, ss, s)
  {
    hide Deliver;
    assert !Shows(Deliver(NOTHING, order), s);
  }

  lemma FirstDelivery(s: Snapshot)
    ensures !s.active ==> Apply(NOTHING, s).1 == NOTHING
    ensures s.active ==>
              var e := Apply(NOTHING, s).1;
              Shows(e, s) && e.coupon.value.item.platform == s.item.platform
              && e.events == [SyncEvent(s.evidenceRef, s.verifiedAt, s.active)]
  {
  }

  lemma {:induction false} WinsFromNothing(ss: seq<Snapshot>, s: Snapshot)
    requires OnePlatform(ss, s) && Newest(ss, s) && s.active && NoRival(ss, s)
    ensures Shows(Deliver(NOTHING, ss), s)
    decreases |ss|
  {
    var first, rest := ss[0], ss[1..];
    assert ss == [first] + rest;
    FirstDelivery(first);
    hide Apply;
    var e := Apply(NOTHING, first).1;
    if first == s {
      Stays(e, rest, s);
    } else if !first.active {
      hide Shows;
      assert s in rest;
      WinsFromNothing(rest, s);
      assert Deliver(NOTHING, ss) == Deliver(NOTHING, rest);
    } else {
      assert Deliver(NOTHING, ss) == Deliver(e, rest);
      hide Deliver;
      assert OwnReference(e, rest, s);
      NewestWins(e, rest, s);
    }
  }

  lemma {:induction false} StaysBelow(e: Entry, ss: seq<Snapshot>, s: Snapshot)
    requires Below(e, s) && forall t | t in ss :: t.verifiedAt < s.verifiedAt
    ensures Below(Deliver(e, ss), s)
    decreases |ss|
  {
    if ss != [] {
      assert ss[0] in ss;
      assert Below(Apply(e, ss[0]).1, s);
      hide Apply;
      StaysBelow(Apply(e, ss[0]).1, ss[1..], s);
    }
  }

  // Delivered before all others, a revocation changes nothing.
  lemma {:induction false} RevocationFirst(ss: seq<Snapshot>, s: Snapshot) returns (order: seq<Snapshot>)
    requires !s.active && forall t | t in ss :: t == s || t.verifiedAt < s.verifiedAt
    ensures multiset(order) == multiset(ss) && Below(Deliver(NOTHING, order), s)
    decreases |ss|
  {
    if s in ss {
      var others := MoveFirst(ss, s);
      SameElements([s] + others, ss);
      assert |others| < |ss| by { assert |multiset([s] + others)| == |multiset(ss)|; }
      forall t | t in others
        ensures t == s || t.verifiedAt < s.verifiedAt
      {
        assert t in [s] + others;
      }
      var rest := RevocationFirst(others, s);
      order := [s] + rest;
      assert order[0] == s && order[1..] == rest;
      FirstDelivery(s);
    } else {
      order := ss;
      StaysBelow(NOTHING, ss, s);
    }
  }

  // A rival that is accepted first keeps a publication out.
  lemma FirstRival(ss: seq<Snapshot>, s: Snapshot) returns (order: seq<Snapshot>)
    requires OnePlatform(ss, s) && Newest(ss, s) && !NoRival(ss, s)
    ensures multiset(order) == multiset(ss) && Below(Deliver(NOTHING, order), s)
  {
    var t :| t in ss && t != s && t.evidenceRef == s.evidenceRef
      && !(!t.active && forall r | r in ss && r != s && r.active :: t.verifiedAt <= r.verifiedAt);
    if t.active {
      order := RivalPublishes(ss, s, t);
    } else {
      var r :| r in ss && r != s && r.active && r.verifiedAt < t.verifiedAt;
      if r.evidenceRef == s.evidenceRef {
        order := RivalPublishes(ss, s, r);
      } else {
        order := RivalRevokes(ss, s, r, t);
      }
    }
  }

  lemma Others(ss: seq<Snapshot>, first: seq<Snapshot>, rest: seq<Snapshot>, s: Snapshot, e: Entry)
    requires OnePlatform(ss, s) && Newest(ss, s) && multiset(first + rest) == multiset(ss)
    requires e.coupon.Some? && e.coupon.value.item.platform == s.item.platform
    ensures SamePlatform(e, rest) && forall t | t in rest :: t == s || t.verifiedAt < s.verifiedAt
  {
    SameElements(first + rest, ss);
    forall t | t in rest
      ensures t in ss
    {
      assert t in first + rest;
    }
  }

  lemma RivalPublishes(ss: seq<Snapshot>, s: Snapshot, t: Snapshot) returns (order: seq<Snapshot>)
    requires OnePlatform(ss, s) && Newest(ss, s)
    requires t in ss && t != s && t.active && t.evidenceRef == s.evidenceRef
    ensures multiset(order) == multiset(ss) && Below(Deliver(NOTHING, order), s)
  {
    var rest := MoveFirst(ss, t);
    order := [t] + rest;
    assert order[0] == t && order[1..] == rest;
    FirstDelivery(t);
    hide Apply;
    var e := Apply(NOTHING, t).1;
    assert Recorded(e.events, s.evidenceRef) by { assert e.events[0].evidenceRef == s.evidenceRef; }
    Others(ss, [t], rest, s, e);
    UsedReferenceLoses(e, rest, s);
  }

  lemma RivalRevokes(ss: seq<Snapshot>, s: Snapshot, r: Snapshot, t: Snapshot) returns (order: seq<Snapshot>)
    requires OnePlatform(ss, s) && Newest(ss, s)
    requires r in ss && r != s && r.active && r.evidenceRef != s.evidenceRef
    requires t in ss && t != s && r.verifiedAt < t.verifiedAt && t.evidenceRef == s.evidenceRef
    ensures multiset(order) == multiset(ss) && Below(Deliver(NOTHING, order), s)
  {
    var others := MoveFirst(ss, r);
    SameElements([r] + others, ss);
    assert t in others by { assert t in [r] + others; }
    var rest := MoveFirst(others, t);
    order := [r, t] + rest;
    assert order == [r] + ([t] + rest) && [r, t] + rest == [r] + ([t] + rest);
    assert multiset(order) == multiset([r] + others);
    FirstDelivery(r);
    var e := Apply(NOTHING, r).1;
    Accepts(e, t);
    StepEither(e, t);
    var next := Apply(e, t).1;
    RecordedAppend(e.events, SyncEvent(t.evidenceRef, t.verifiedAt, t.active), s.evidenceRef);
    hide Apply, Recorded;
    Others(ss, [r, t], rest, s, next);
    UsedReferenceLoses(next, rest, s);
    assert order[1..][1..] == rest;
  }

  // The shortest such loss: a publication and its revocation.
  lemma RevocationFirstIsLost(publish: Snapshot, revoke: Snapshot)
    requires publish.active && !revoke.active && publish.verifiedAt < revoke.verifiedAt
             && publish.item.platform == revoke.item.platform && publish.evidenceRef != revoke.evidenceRef
    ensures Shows(Deliver(NOTHING, [publish, revoke]), revoke)
    ensures Shows(Deliver(NOTHING, [revoke, publish]), publish)
  {
    assert [publish, revoke][1..] == [revoke] && [revoke, publish][1..] == [publish] && [revoke][1..] == []
      && [publish][1..] == [];
    var one := Apply(NOTHING, publish).1;
    assert Deliver(NOTHING, [publish, revoke]) == Deliver(one, [revoke]) == Deliver(Apply(one, revoke).1, []);
    assert Deliver(NOTHING, [revoke, publish]) == Deliver(NOTHING, [publish]) == Deliver(one, []);
  }

  // Repeating the evidence in force succeeds and changes nothing.
  lemma ReplayIsSilent(e: Entry, s: Snapshot)
    requires Apply(e, s).0.Ok?
    ensures Apply(Apply(e, s).1, s) == (Ok(()), Apply(e, s).1)
  {
  }

  // ---- What one snapshot needs and writes ----

  // A snapshot is accepted exactly when it repeats the evidence in force, or is newer
  // than what is stored, of the same platform, under a new reference; a revocation
  // needs something to revoke.
  lemma AcceptedIff(e: Entry, s: Snapshot)
    ensures Apply(e, s).0.Ok? <==> Repeats(e, s) || IsNews(e, s)
    ensures Apply(e, s).0.Err? || Repeats(e, s) ==> Apply(e, s).1 == e
  {
    hide Shelved, Disabled;
    NewReference(e.events, s.evidenceRef);
    hide Recorded;
  }

  predicate Repeats(e: Entry, s: Snapshot)
  {
    e.coupon.Some?
    && var c := e.coupon.value;
    c.item.platform == s.item.platform && c.verifiedAt == s.verifiedAt && c.evidenceRef == s.evidenceRef && c.enabled == s.active
  }

  predicate IsNews(e: Entry, s: Snapshot)
  {
    (forall i | 0 <= i < |e.events| :: e.events[i].evidenceRef != s.evidenceRef)
    && if e.coupon.None? then s.active
       else e.coupon.value.item.platform == s.item.platform && e.coupon.value.verifiedAt < s.verifiedAt
  }

  lemma NewReference(events: seq<SyncEvent>, ref: string)
    ensures !Recorded(events, ref) <==> forall i | 0 <= i < |events| :: events[i].evidenceRef != ref
  {
  }

  // A publication stores the content that was verified; a revocation disables coupon
  // and products and leaves their content as it is.
  lemma NewsWrites(e: Entry, s: Snapshot)
    requires IsNews(e, s)
    ensures var next := Apply(e, s).1;
            next.events == e.events + [SyncEvent(s.evidenceRef, s.verifiedAt, s.active)] && next.coupon.Some?
            && if s.active then
                 next.coupon.value == Coupon(s.item, s.evidenceRef, s.verifiedAt, true)
               else
                 next.coupon.value == Coupon(e.coupon.value.item, s.evidenceRef, s.verifiedAt, false)
                 && next.products.Keys == e.products.Keys
                 && forall k | k in e.products ::
                      next.products[k] == CouponProduct(e.products[k].title, false, s.verifiedAt, e.products[k].updatedAt,
                                                        e.products[k].expiresAt)
  {
    hide Shelved;
    NewReference(e.events, s.evidenceRef);
    hide Recorded;
  }

  lemma PublicationShelves(e: Entry, s: Snapshot)
    requires IsNews(e, s) && s.active
    requires forall i, j | 0 <= i < j < |s.products| :: s.products[i].externalProductId != s.products[j].externalProductId
    ensures var next := Apply(e, s).1.products;
            (forall k :: k in next <==> Named(s.products, k))
            && forall i | 0 <= i < |s.products| :: ShelvedAs(s.products[i], next, s.verifiedAt)
  {
    ShelvedExactly(s.products, s.verifiedAt);
    AcceptedIff(e, s);
    NewReference(e.events, s.evidenceRef);
    hide Shelved, Recorded, Named, ShelvedAs;
  }

  // Which fault an error names.
  lemma RefusalsName(e: Entry, s: Snapshot)
    ensures Apply(e, s).0 == Err(NotFound) ==> e.coupon.None? && !s.active
    ensures Apply(e, s).0 == Err(Storage) ==> exists i | 0 <= i < |e.events| :: e.events[i].evidenceRef == s.evidenceRef
    ensures Apply(e, s).0 == Err(StaleEvidence) ==>
              e.coupon.Some? && (e.coupon.value.item.platform != s.item.platform || s.verifiedAt <= e.coupon.value.verifiedAt)
    ensures Apply(e, s).0.Err? ==> Apply(e, s).0.error in {NotFound, Storage, StaleEvidence}
  {
    hide Shelved, Disabled;
    NewReference(e.events, s.evidenceRef);
    hide Recorded;
  }

  // Times are cut to whole microseconds, everything else is kept.
  lemma TruncatesTimes(s: Snapshot)
    ensures var t := Truncated(s);
            t.verifiedAt % 1000 == 0 && t.verifiedAt <= s.verifiedAt < t.verifiedAt + 1000
            && t.item.updatedAt % 1000 == 0 && t.item.updatedAt <= s.item.updatedAt < t.item.updatedAt + 1000
            && t.item.expiresAt % 1000 == 0 && t.item.expiresAt <= s.item.expiresAt < t.item.expiresAt + 1000
            && t.item.(updatedAt := s.item.updatedAt, expiresAt := s.item.expiresAt) == s.item
            && t.evidenceRef == s.evidenceRef && t.active == s.active && |t.products| == |s.products|
    ensures forall i | 0 <= i < |s.products| ::
              var p, q := s.products[i], Truncated(s).products[i];
              q.(updatedAt := p.updatedAt, expiresAt := p.expiresAt) == p
              && q.updatedAt % 1000 == 0 && q.updatedAt <= p.updatedAt < q.updatedAt + 1000
              && q.expiresAt % 1000 == 0 && q.expiresAt <= p.expiresAt < q.expiresAt + 1000
  {
  }
}
