// In which order, and how often, ORDER evidence is delivered does not matter -
// exactly when the newest evidence can follow each of the others.
module OrderDelivery {
  import opened Wrappers
  import opened OrderProjection
  import opened OrderHistory
  import Text

  function Deliveries(ds: seq<Input>): seq<Op>
  {
    seq(|ds|, i requires 0 <= i < |ds| => Deliver(ds[i]))
  }

  // Inputs for stored ORDER evidence of one order that is not projected yet.
  // The same evidence may occur several times, always with the same input.
  predicate Deliverable(db: Db, key: Key, ds: seq<Input>)
  {
    (forall i | 0 <= i < |ds| ::
       ValidInput(ds[i]) && ds[i].status != "" && ds[i].evidenceId in db.raw
       && db.raw[ds[i].evidenceId].key == key && db.raw[ds[i].evidenceId].eventType == OrderEvent
       && Receipt(db.ledger, ds[i].evidenceId).None?)
    && (forall i, j | 0 <= i < |ds| && 0 <= j < |ds| && ds[i].evidenceId == ds[j].evidenceId :: ds[i] == ds[j])
    && key !in db.orders
  }

  function At(db: Db, d: Input): int
  {
    if d.evidenceId in db.raw then db.raw[d.evidenceId].occurredAt else 0
  }

  function StatusOf(d: Input): Status
  {
    if ParseStatus(d.status).Some? then ParseStatus(d.status).value else Created
  }

  // The order may stay at `b` or move there directly from `a`.
  predicate Leads(a: Status, b: Status)
  {
    a == b || Transition(a, b)
  }

  // Event w is a newest one, and its status can follow that of every event.
  predicate Wins(db: Db, ds: seq<Input>, w: nat)
  {
    w < |ds|
    && forall i | 0 <= i < |ds| :: At(db, ds[i]) <= At(db, ds[w]) && Leads(StatusOf(ds[i]), StatusOf(ds[w]))
  }

  predicate Earliest(db: Db, ds: seq<Input>, at: int)
  {
    (forall i | 0 <= i < |ds| :: at <= At(db, ds[i])) && (exists i | 0 <= i < |ds| :: at == At(db, ds[i]))
  }

  lemma LeadsTransitive(a: Status, b: Status, c: Status)
    requires Leads(a, b) && Leads(b, c)
    ensures Leads(a, c)
  {
  }

  function Final(db: Db, ds: seq<Input>): Db
  {
    Run(db, Deliveries(ds)).0
  }

  // One more delivery.
  lemma FinalStep(db: Db, ds: seq<Input>, d: Input)
    ensures Final(db, ds + [d]) == Apply(Final(db, ds), d).0
  {
    assert Deliveries(ds + [d]) == Deliveries(ds) + [Deliver(d)];
    RunAppend(db, Deliveries(ds), [Deliver(d)]);
    RunOne(Final(db, ds), Deliver(d));
  }

  // Delivering more of these inputs leaves the evidence table and the
  // undelivered evidence alone.
  predicate Between(db: Db, mid: Db, key: Key, ds: seq<Input>)
  {
    mid.raw == db.raw
    && (forall d | d in ds :: Committed(mid, d))
    && (forall id | id in db.raw
      && (forall d | d in ds :: d.evidenceId != id) :: Receipt(mid.ledger, id) == Receipt(db.ledger, id))
    && (key in mid.orders <==> |ds| > 0)
  }

  lemma BetweenHas(db: Db, mid: Db, key: Key, ds: seq<Input>)
    requires Between(db, mid, key, ds)
    ensures key in mid.orders <==> |ds| > 0
  {
  }

  lemma DeliverOne(db: Db, mid: Db, key: Key, ds: seq<Input>, d: Input)
    requires Deliverable(db, key, ds + [d]) && Between(db, mid, key, ds)
    ensures Between(db, Apply(mid, d).0, key, ds + [d])
    ensures var next := Apply(mid, d).0;
            key in next.orders
            && next.orders[key] == if d in ds then mid.orders[key]
                                   else Observe(OrderOf(mid, key), StatusOf(d), At(db, d), d.evidenceId).0
  {
    assert (ds + [d])[|ds|] == d;
    var next := Apply(mid, d).0;
    if d !in ds {
      forall i | 0 <= i < |ds|
        ensures ds[i].evidenceId != d.evidenceId
      {
        assert (ds + [d])[i] == ds[i];
      }
      assert Receipt(mid.ledger, d.evidenceId).None?;
      SuccessCommits(mid, d);
      forall x | x in ds
        ensures Committed(next, x)
      {
        CommittedStays(mid, x, Deliver(d));
      }
      forall id | id in db.raw && (forall x | x in ds + [d] :: x.evidenceId != id)
        ensures Receipt(next.ledger, id) == Receipt(db.ledger, id)
      {
        assert d in ds + [d];
        assert forall x | x in ds :: x in ds + [d];
        ReceiptAppend(mid.ledger, next.ledger[|mid.ledger|], id);
      }
    }
  }

  // ---- Order independence ----

  // The order row part-way, seen from a winner that may or may not be in yet.
  predicate Midway(db: Db, o: Order, ds: seq<Input>, n: nat, w: Input)
    requires n <= |ds|
  {
    Earliest(db, ds[..n], o.orderOccurredAt)
    && o.statusAt <= At(db, w) && Leads(o.status, StatusOf(w))
    && (w in ds[..n] ==> o.status == StatusOf(w) && o.statusAt == At(db, w))
  }

  lemma ObserveKeepsMidway(db: Db, before: Option<Order>, ds: seq<Input>, n: nat, w: nat)
    requires n < |ds| && Wins(db, ds, w)
    requires if n == 0 then before.None? else before.Some? && Midway(db, before.value, ds, n, ds[w])
    ensures Midway(db, Observe(before, StatusOf(ds[n]), At(db, ds[n]), ds[n].evidenceId).0, ds, n + 1, ds[w])
  {
    assert ds[..n + 1] == ds[..n] + [ds[n]];
    var o := Observe(before, StatusOf(ds[n]), At(db, ds[n]), ds[n].evidenceId).0;
    if n == 0 {
      assert ds[..1][0] == ds[0];
    } else {
      var i :| 0 <= i < n && before.value.orderOccurredAt == At(db, ds[..n][i]);
      assert ds[..n + 1][i] == ds[..n][i] && ds[..n + 1][n] == ds[n];
      assert Earliest(db, ds[..n + 1], o.orderOccurredAt);
    }
    assert ds[w] in ds[..n + 1] ==> ds[w] in ds[..n] || ds[w] == ds[n];
  }

  lemma DeliverablePrefix(db: Db, key: Key, ds: seq<Input>, n: nat)
    requires Deliverable(db, key, ds) && n < |ds|
    ensures Deliverable(db, key, ds[..n] + [ds[n]])
  {
    assert ds[..n] + [ds[n]] == ds[..n + 1];
  }

  predicate Reached(db: Db, mid: Db, key: Key, ds: seq<Input>, n: nat, w: Input)
    requires n <= |ds|
  {
    Between(db, mid, key, ds[..n]) && (n > 0 ==> key in mid.orders && Midway(db, mid.orders[key], ds, n, w))
  }

  lemma ReachNone(db: Db, key: Key, ds: seq<Input>, w: Input)
    requires Deliverable(db, key, ds)
    ensures Reached(db, Final(db, ds[..0]), key, ds, 0, w)
  {
    assert Deliveries(ds[..0]) == [];
  }

  lemma ReachNext(db: Db, mid: Db, key: Key, ds: seq<Input>, n: nat, w: nat)
    requires Deliverable(db, key, ds) && n < |ds| && w < |ds| && Wins(db, ds, w) && Reached(db, mid, key, ds, n, ds[w])
    ensures Reached(db, Apply(mid, ds[n]).0, key, ds, n + 1, ds[w])
  {
    hide Deliverable, Midway, Wins, Apply, Observe, Between;
    DeliverablePrefix(db, key, ds, n);
    DeliverOne(db, mid, key, ds[..n], ds[n]);
    assert ds[..n] + [ds[n]] == ds[..n + 1];
    assert key in mid.orders <==> n > 0 by { BetweenHas(db, mid, key, ds[..n]); }
    if ds[n] in ds[..n] {
      RepeatKeepsMidway(db, mid.orders[key], ds, n, w);
    } else {
      ObserveKeepsMidway(db, OrderOf(mid, key), ds, n, w);
    }
  }

  lemma {:induction false} ReachPrefix(db: Db, key: Key, ds: seq<Input>, n: nat, w: nat)
    requires Deliverable(db, key, ds) && n <= |ds| && w < |ds| && Wins(db, ds, w)
    ensures Reached(db, Final(db, ds[..n]), key, ds, n, ds[w])
  {
    hide Deliverable, Reached, Final, Wins, Apply;
    if n == 0 {
      ReachNone(db, key, ds, ds[w]);
    } else {
      ReachPrefix(db, key, ds, n - 1, w);
      ReachNext(db, Final(db, ds[..n - 1]), key, ds, n - 1, w);
      FinalStep(db, ds[..n - 1], ds[n - 1]);
      assert ds[..n] == ds[..n - 1] + [ds[n - 1]];
    }
  }

  lemma RepeatKeepsMidway(db: Db, o: Order, ds: seq<Input>, n: nat, w: nat)
    requires n < |ds| && w < |ds| && Midway(db, o, ds, n, ds[w]) && ds[n] in ds[..n]
    ensures Midway(db, o, ds, n + 1, ds[w])
  {
    assert ds[..n + 1] == ds[..n] + [ds[n]];
    var i :| 0 <= i < n && o.orderOccurredAt == At(db, ds[..n][i]);
    assert ds[..n + 1][i] == ds[..n][i];
    var j :| 0 <= j < n && ds[..n][j] == ds[n];
    assert At(db, ds[..n][j]) == At(db, ds[n]);
  }

  // With a winner, any delivery of these inputs - in any order, each once or
  // more - ends in the winner's status, its time, and the earliest time seen.
  lemma DeliveryConverges(db: Db, key: Key, ds: seq<Input>, w: nat)
    requires Deliverable(db, key, ds) && Wins(db, ds, w)
    ensures var end := Final(db, ds);
            key in end.orders && end.orders[key].status == StatusOf(ds[w]) && end.orders[key].statusAt == At(db, ds[w])
            && Earliest(db, ds, end.orders[key].orderOccurredAt)
  {
    ReachPrefix(db, key, ds, |ds|, w);
    assert ds[..|ds|] == ds && ds[w] in ds;
  }

  // Two histories with the same set of inputs agree.
  lemma DeliveryOrderIsIrrelevant(db: Db, key: Key, ds: seq<Input>, fs: seq<Input>, w: nat)
    requires Deliverable(db, key, ds) && Deliverable(db, key, fs) && Wins(db, ds, w)
    requires forall d :: d in ds <==> d in fs
    ensures var a, b := Final(db, ds), Final(db, fs);
            key in a.orders && key in b.orders
            && a.orders[key].status == b.orders[key].status && a.orders[key].statusAt == b.orders[key].statusAt
            && a.orders[key].orderOccurredAt == b.orders[key].orderOccurredAt
  {
    assert ds[w] in fs;
    var x :| 0 <= x < |fs| && fs[x] == ds[w];
    forall i | 0 <= i < |fs|
      ensures At(db, fs[i]) <= At(db, fs[x]) && Leads(StatusOf(fs[i]), StatusOf(fs[x]))
    {
      assert fs[i] in ds;
    }
    DeliveryConverges(db, key, ds, w);
    DeliveryConverges(db, key, fs, x);
    var at, bt := Final(db, ds).orders[key].orderOccurredAt, Final(db, fs).orders[key].orderOccurredAt;
    var i :| 0 <= i < |ds| && at == At(db, ds[i]);
    var j :| 0 <= j < |fs| && bt == At(db, fs[j]);
    assert ds[i] in fs && fs[j] in ds;
  }

  // Events that, sorted by time, each repeat or may follow the one before.
  predicate Chain(db: Db, ds: seq<Input>)
  {
    forall i | 0 < i < |ds| ::
      At(db, ds[i - 1]) <= At(db, ds[i]) && Leads(StatusOf(ds[i - 1]), StatusOf(ds[i]))
  }

  lemma {:induction false} ChainReaches(db: Db, ds: seq<Input>, i: nat, j: nat)
    requires Chain(db, ds) && i <= j < |ds|
    ensures At(db, ds[i]) <= At(db, ds[j]) && Leads(StatusOf(ds[i]), StatusOf(ds[j]))
  {
    if i < j {
      ChainReaches(db, ds, i, j - 1);
      LeadsTransitive(StatusOf(ds[i]), StatusOf(ds[j - 1]), StatusOf(ds[j]));
    }
  }

  // Evidence that follows the transition relation in time order ends in its
  // last status whatever the delivery.
  lemma ChainEndsInItsLast(db: Db, key: Key, ds: seq<Input>, fs: seq<Input>)
    requires |ds| > 0 && Chain(db, ds) && Deliverable(db, key, ds) && Deliverable(db, key, fs)
    requires forall d :: d in ds <==> d in fs
    ensures var end := Final(db, fs); var last := ds[|ds| - 1];
            key in end.orders && end.orders[key].status == StatusOf(last)
            && end.orders[key].statusAt == At(db, last) && end.orders[key].orderOccurredAt == At(db, ds[0])
  {
    forall i | 0 <= i < |ds|
      ensures At(db, ds[i]) <= At(db, ds[|ds| - 1]) && Leads(StatusOf(ds[i]), StatusOf(ds[|ds| - 1]))
      ensures At(db, ds[0]) <= At(db, ds[i])
    {
      ChainReaches(db, ds, i, |ds| - 1);
      ChainReaches(db, ds, 0, i);
    }
    DeliveryConverges(db, key, ds, |ds| - 1);
    DeliveryOrderIsIrrelevant(db, key, ds, fs, |ds| - 1);
  }

  // ---- Without a winner the order of delivery decides ----

  // A property of the order row that no delivery of `ds` can end.
  ghost predicate Lasting(db: Db, ds: seq<Input>, p: Order -> bool)
  {
    forall o, d | p(o) && d in ds :: p(Observe(Some(o), StatusOf(d), At(db, d), d.evidenceId).0)
  }

  lemma {:induction false} LastingHolds(db: Db, key: Key, ds: seq<Input>, n: nat, p: Order -> bool)
    requires Deliverable(db, key, ds) && 0 < n <= |ds| && Lasting(db, ds, p)
    requires p(Observe(None, StatusOf(ds[0]), At(db, ds[0]), ds[0].evidenceId).0)
    ensures var end := Final(db, ds[..n]);
            Between(db, end, key, ds[..n]) && key in end.orders && p(end.orders[key])
  {
    hide Deliverable, Final, Apply, Observe;
    var d := ds[n - 1];
    assert ds[..n] == ds[..n - 1] + [d];
    DeliverablePrefix(db, key, ds, n - 1);
    if n == 1 {
      StartBetween(db, key, ds);
      assert ds[..0] == [];
    } else {
      LastingHolds(db, key, ds, n - 1, p);
    }
    DeliverOne(db, Final(db, ds[..n - 1]), key, ds[..n - 1], d);
    FinalStep(db, ds[..n - 1], d);
  }

  lemma StartBetween(db: Db, key: Key, ds: seq<Input>)
    requires Deliverable(db, key, ds)
    ensures Between(db, Final(db, []), key, [])
  {
    assert Deliveries([]) == [];
  }

  lemma LastingAtEnd(db: Db, key: Key, ds: seq<Input>, p: Order -> bool)
    requires Deliverable(db, key, ds) && |ds| > 0 && Lasting(db, ds, p)
    requires p(Observe(None, StatusOf(ds[0]), At(db, ds[0]), ds[0].evidenceId).0)
    ensures key in Final(db, ds).orders && p(Final(db, ds).orders[key])
  {
    LastingHolds(db, key, ds, |ds|, p);
    assert ds[..|ds|] == ds;
  }

  // The same deliveries with the i-th moved to the front.
  function First(ds: seq<Input>, i: nat): seq<Input>
    requires i < |ds|
  {
    [ds[i]] + (ds[..i] + ds[i + 1..])
  }

  lemma FirstRearranges(db: Db, key: Key, ds: seq<Input>, i: nat)
    requires i < |ds| && Deliverable(db, key, ds)
    ensures multiset(First(ds, i)) == multiset(ds) && Deliverable(db, key, First(ds, i)) && First(ds, i)[0] == ds[i]
    ensures forall d :: d in First(ds, i) <==> d in ds
  {
    hide Deliverable;
    assert ds == ds[..i] + ([ds[i]] + ds[i + 1..]);
    assert multiset(First(ds, i)) == multiset(ds);
    SameElements(First(ds, i), ds);
    DeliverableRearranged(db, key, ds, First(ds, i));
  }

  // A newest event delivered first: only newest events can still matter.
  lemma NewestFirst(db: Db, key: Key, ds: seq<Input>, m: nat) returns (j: nat)
    requires Deliverable(db, key, ds) && m < |ds| && forall i | 0 <= i < |ds| :: At(db, ds[i]) <= At(db, ds[m])
    ensures j < |ds| && At(db, ds[j]) == At(db, ds[m])
    ensures key in Final(db, First(ds, m)).orders && Final(db, First(ds, m)).orders[key].status == StatusOf(ds[j])
  {
    var fs := First(ds, m);
    FirstRearranges(db, key, ds, m);
    var top := At(db, ds[m]);
    var p := (o: Order) => o.statusAt == top && exists j | 0 <= j < |ds| :: At(db, ds[j]) == top && StatusOf(ds[j]) == o.status;
    forall o, d | p(o) && d in fs
      ensures p(Observe(Some(o), StatusOf(d), At(db, d), d.evidenceId).0)
    {
      var x :| 0 <= x < |ds| && ds[x] == d;
      assert At(db, ds[x]) <= top;
      var y :| 0 <= y < |ds| && At(db, ds[y]) == top && StatusOf(ds[y]) == o.status;
    }
    LastingAtEnd(db, key, fs, p);
    j :| 0 <= j < |ds| && At(db, ds[j]) == top && StatusOf(ds[j]) == Final(db, fs).orders[key].status;
  }

  // An event that cannot lead to a status, delivered first, keeps it away.
  lemma BlockerFirst(db: Db, key: Key, ds: seq<Input>, i: nat, target: Status)
    requires Deliverable(db, key, ds) && i < |ds| && !Leads(StatusOf(ds[i]), target)
    ensures key in Final(db, First(ds, i)).orders && Final(db, First(ds, i)).orders[key].status != target
  {
    var fs := First(ds, i);
    FirstRearranges(db, key, ds, i);
    var p := (o: Order) => !Leads(o.status, target);
    forall o, d | p(o) && d in fs
      ensures p(Observe(Some(o), StatusOf(d), At(db, d), d.evidenceId).0)
    {
      if Transition(o.status, StatusOf(d)) && Leads(StatusOf(d), target) {
        LeadsTransitive(o.status, StatusOf(d), target);
      }
    }
    LastingAtEnd(db, key, fs, p);
  }

  lemma {:induction false} Newest(db: Db, ds: seq<Input>, n: nat) returns (m: nat)
    requires 0 < n <= |ds|
    ensures m < n && forall i | 0 <= i < n :: At(db, ds[i]) <= At(db, ds[m])
  {
    if n == 1 {
      m := 0;
    } else {
      m := Newest(db, ds, n - 1);
      if At(db, ds[m]) < At(db, ds[n - 1]) {
        m := n - 1;
      }
    }
  }

  // If no event wins, two rearrangements of the same deliveries disagree.
  lemma WithoutWinnerOrderMatters(db: Db, key: Key, ds: seq<Input>) returns (fs: seq<Input>, gs: seq<Input>)
    requires Deliverable(db, key, ds) && |ds| > 0 && forall w | 0 <= w < |ds| :: !Wins(db, ds, w)
    ensures multiset(fs) == multiset(ds) == multiset(gs)
    ensures key in Final(db, fs).orders && key in Final(db, gs).orders
            && Final(db, fs).orders[key].status != Final(db, gs).orders[key].status
  {
    var m := Newest(db, ds, |ds|);
    var j := NewestFirst(db, key, ds, m);
    assert !Wins(db, ds, j);
    var i :| 0 <= i < |ds| && !Leads(StatusOf(ds[i]), StatusOf(ds[j]));
    BlockerFirst(db, key, ds, i, StatusOf(ds[j]));
    FirstRearranges(db, key, ds, m);
    FirstRearranges(db, key, ds, i);
    fs, gs := First(ds, m), First(ds, i);
  }

  ghost predicate OrderIrrelevant(db: Db, key: Key, ds: seq<Input>)
  {
    forall fs, gs | multiset(fs) == multiset(ds) && multiset(gs) == multiset(ds) ::
      key in Final(db, fs).orders && key in Final(db, gs).orders
      && Final(db, fs).orders[key].status == Final(db, gs).orders[key].status
      && Final(db, fs).orders[key].statusAt == Final(db, gs).orders[key].statusAt
      && Final(db, fs).orders[key].orderOccurredAt == Final(db, gs).orders[key].orderOccurredAt
  }

  lemma SameElements(fs: seq<Input>, ds: seq<Input>)
    requires multiset(fs) == multiset(ds)
    ensures forall d :: d in fs <==> d in ds
  {
    forall d
      ensures d in fs <==> d in ds
    {
      assert d in multiset(fs) <==> d in multiset(ds);
    }
  }

  lemma DeliverableRearranged(db: Db, key: Key, ds: seq<Input>, fs: seq<Input>)
    requires Deliverable(db, key, ds) && forall d :: d in fs <==> d in ds
    ensures Deliverable(db, key, fs)
  {
    forall i | 0 <= i < |fs|
      ensures fs[i] in ds
    {
      assert fs[i] in fs;
    }
  }

  // The exact condition: every order of delivery ends alike if and only if
  // some newest event can follow each of the others.
  lemma OrderIrrelevantIffWinner(db: Db, key: Key, ds: seq<Input>)
    requires Deliverable(db, key, ds) && |ds| > 0
    ensures OrderIrrelevant(db, key, ds) <==> exists w :: Wins(db, ds, w)
  {
    if w :| Wins(db, ds, w) {
      forall fs, gs | multiset(fs) == multiset(ds) && multiset(gs) == multiset(ds)
        ensures key in Final(db, fs).orders && key in Final(db, gs).orders
                && Final(db, fs).orders[key].status == Final(db, gs).orders[key].status
                && Final(db, fs).orders[key].statusAt == Final(db, gs).orders[key].statusAt
                && Final(db, fs).orders[key].orderOccurredAt == Final(db, gs).orders[key].orderOccurredAt
      {
        SameElements(fs, ds);
        SameElements(gs, ds);
        DeliverableRearranged(db, key, ds, fs);
        DeliverableRearranged(db, key, ds, gs);
        DeliveryOrderIsIrrelevant(db, key, ds, fs, w);
        DeliveryOrderIsIrrelevant(db, key, ds, gs, w);
      }
    } else {
      var fs, gs := WithoutWinnerOrderMatters(db, key, ds);
    }
  }

  // Such deliveries exist: a cancellation and a later payment. The order ends
  // CANCELLED in one order of delivery and PAID in the other.
  const BOUGHT: Key := ("JD", "order")
  const CANCEL := Input("a", "CANCELLED", "", "", 0)
  const PAY := Input("b", "PAID", "", "", 0)
  const STORED := Db(map["a" := RawEvent(BOUGHT, OrderEvent, 1), "b" := RawEvent(BOUGHT, OrderEvent, 2)], map[], map[], [])

  lemma PaidAfterCancelled()
    ensures Run(EMPTY, [Save("a", RawEvent(BOUGHT, OrderEvent, 1)), Save("b", RawEvent(BOUGHT, OrderEvent, 2))]).0 == STORED
    ensures Deliverable(STORED, BOUGHT, [CANCEL, PAY]) && forall w | 0 <= w < 2 :: !Wins(STORED, [CANCEL, PAY], w)
    ensures BOUGHT in Final(STORED, [CANCEL, PAY]).orders && Final(STORED, [CANCEL, PAY]).orders[BOUGHT].status == Cancelled
    ensures BOUGHT in Final(STORED, [PAY, CANCEL]).orders && Final(STORED, [PAY, CANCEL]).orders[BOUGHT].status == Paid
  {
    RunTwo(EMPTY, Save("a", RawEvent(BOUGHT, OrderEvent, 1)), Save("b", RawEvent(BOUGHT, OrderEvent, 2)));
    PairHasNoWinner();
    ValidPair();
    FinalTwo(STORED, CANCEL, PAY);
    FinalTwo(STORED, PAY, CANCEL);
    hide Run, Final, Deliverable, Wins;
  }

  lemma PairHasNoWinner()
    ensures Deliverable(STORED, BOUGHT, [CANCEL, PAY]) && forall w | 0 <= w < 2 :: !Wins(STORED, [CANCEL, PAY], w)
  {
    ValidPair();
    assert !Wins(STORED, [CANCEL, PAY], 0) by { assert At(STORED, [CANCEL, PAY][1]) == 2; }
    assert !Wins(STORED, [CANCEL, PAY], 1) by { assert StatusOf([CANCEL, PAY][0]) == Cancelled; }
  }

  lemma ValidPair()
    ensures ValidInput(CANCEL) && ValidInput(PAY)
  {
    Text.AsciiLen("a");
    Text.AsciiLen("b");
  }

  lemma RunTwo(db: Db, a: Op, b: Op)
    ensures Run(db, [a, b]).0 == Do(Do(db, a).0, b).0
  {
    assert [a, b] == [a] + [b];
    RunAppend(db, [a], [b]);
    RunOne(db, a);
    RunOne(Do(db, a).0, b);
  }

  lemma FinalTwo(db: Db, a: Input, b: Input)
    ensures Final(db, [a, b]) == Apply(Apply(db, a).0, b).0
  {
    assert Deliveries([a, b]) == [Deliver(a), Deliver(b)];
    RunTwo(db, Deliver(a), Deliver(b));
  }
}
