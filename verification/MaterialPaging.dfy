// Reading the whole catalog page by page: nothing is lost, nothing repeats,
// and the pages agree with the single-item read.
module MaterialPaging {
  import opened Wrappers
  import opened MaterialCatalog

  predicate Ascending(items: seq<Card>, after: nat)
  {
    (forall i | 0 <= i < |items| :: items[i].id > after)
    && forall i, j | 0 <= i < j < |items| :: items[i].id < items[j].id
  }

  lemma {:induction false} ShownAscends(urlOk: string -> bool, table: seq<Row>, scope: Scope, after: nat, now: int)
    requires InIdOrder(table)
    ensures Ascending(Shown(urlOk, table, scope, after, now), after)
    ensures var all := Shown(urlOk, table, scope, after, now); table != [] ==> forall i | 0 <= i < |all| :: all[i].id >= table[0].id
  {
    if table != [] {
      ShownAscends(urlOk, table[1..], scope, after, now);
      hide Decide, CardOf;
      assert CardOf(table[0]).id == table[0].id by { CardId(table[0]); }
      var rest := Shown(urlOk, table[1..], scope, after, now);
      forall i | 0 <= i < |rest|
        ensures rest[i].id > table[0].id
      {
        assert rest[i].id >= table[1..][0].id;
      }
    }
  }

  lemma CardId(r: Row)
    ensures CardOf(r).id == r.id
  {
  }

  function Head(urlOk: string -> bool, r: Row, scope: Scope, after: nat, now: int): seq<Card>
  {
    if r.id > after && Decide(urlOk, r, scope, now) == Available then [CardOf(r)] else []
  }

  lemma ShownSplits(urlOk: string -> bool, table: seq<Row>, scope: Scope, after: nat, now: int)
    ensures table == [] ==> Shown(urlOk, table, scope, after, now) == []
    ensures table != [] ==>
              Shown(urlOk, table, scope, after, now)
              == Head(urlOk, table[0], scope, after, now) + Shown(urlOk, table[1..], scope, after, now)
  {
  }

  // Continuing after the n-th shown card shows the others.
  lemma {:induction false} ShownFrom(urlOk: string -> bool, table: seq<Row>, scope: Scope, after: nat, now: int, n: nat)
    requires InIdOrder(table) && 0 < n <= |Shown(urlOk, table, scope, after, now)|
    ensures var all := Shown(urlOk, table, scope, after, now);
            Shown(urlOk, table, scope, all[n - 1].id, now) == all[n..]
    decreases |table|
  {
    hide Shown, Decide, CardOf, Head, Ascending;
    ShownSplits(urlOk, table, scope, after, now);
    var all := Shown(urlOk, table, scope, after, now);
    var head, rest := Head(urlOk, table[0], scope, after, now), Shown(urlOk, table[1..], scope, after, now);
    var boundary := all[n - 1].id;
    ShownSplits(urlOk, table, scope, boundary, now);
    BoundaryPassesHead(urlOk, table, scope, after, now, n);
    if n == |head| {
      ShownAllBeyond(urlOk, table[1..], scope, after, boundary, now);
    } else {
      Splice(head, rest, n);
      ShownFrom(urlOk, table[1..], scope, after, now, n - |head|);
    }
  }

  lemma BoundaryPassesHead(urlOk: string -> bool, table: seq<Row>, scope: Scope, after: nat, now: int, n: nat)
    requires InIdOrder(table) && 0 < n <= |Shown(urlOk, table, scope, after, now)|
    ensures var head, boundary := Head(urlOk, table[0], scope, after, now), Shown(urlOk, table, scope, after, now)[n - 1].id;
            |head| <= 1 && Head(urlOk, table[0], scope, boundary, now) == [] && InIdOrder(table[1..])
            && (n == |head| ==> boundary > after && forall i | 0 <= i < |table[1..]| :: table[1..][i].id > boundary)
  {
    ShownAscends(urlOk, table, scope, after, now);
    hide Decide;
  }

  lemma Splice<T>(head: seq<T>, rest: seq<T>, n: nat)
    requires |head| < n <= |head| + |rest|
    ensures (head + rest)[n - 1] == rest[n - |head| - 1] && (head + rest)[n..] == rest[n - |head|..]
  {
  }

  lemma {:induction false} ShownAllBeyond(urlOk: string -> bool, table: seq<Row>, scope: Scope, after: nat,
      boundary: nat, now: int)
    requires boundary > after && forall i | 0 <= i < |table| :: table[i].id > boundary
    ensures Shown(urlOk, table, scope, boundary, now) == Shown(urlOk, table, scope, after, now)
  {
    if table != [] {
      ShownAllBeyond(urlOk, table[1..], scope, after, boundary, now);
    }
  }

  // ---- One table, any limits ----

  // The pages a client gets by following cursors with these limits, joined,
  // and the cursor it is left with.
  function Follow(urlOk: string -> bool, table: seq<Row>, scope: Scope, after: nat, now: int, limits: seq<nat>): Page
    requires forall i | 0 <= i < |limits| :: limits[i] > 0
    decreases |limits|
  {
    if limits == [] then Page([], Some(after))
    else
      var page := PageOf(Shown(urlOk, table, scope, after, now), limits[0]);
      if page.next.None? then page
      else
        var more := Follow(urlOk, table, scope, page.next.value, now, limits[1..]);
        Page(page.items + more.items, more.next)
  }

  // Whatever the limits, the pages read so far and what the last cursor still
  // leads to make up exactly the shown cards; the end is reached after at most
  // one page more than there are cards.
  lemma {:induction false} PagesLoseAndRepeatNothing(urlOk: string -> bool, table: seq<Row>, scope: Scope, after: nat,
      now: int,
                                                     limits: seq<nat>)
    requires InIdOrder(table) && forall i | 0 <= i < |limits| :: limits[i] > 0
    ensures var all := Shown(urlOk, table, scope, after, now);
            var read := Follow(urlOk, table, scope, after, now, limits);
            all == read.items + (if read.next.Some? then Shown(urlOk, table, scope, read.next.value, now) else [])
            && (|limits| > |all| ==> read.next.None?)
            && Ascending(all, after)
    decreases |limits|
  {
    hide Shown, Ascending, InIdOrder;
    var all := Shown(urlOk, table, scope, after, now);
    ShownAscends(urlOk, table, scope, after, now);
    if limits == [] {
      assert [] + all == all;
    } else if |all| > limits[0] {
      var last := all[limits[0] - 1].id;
      ShownFrom(urlOk, table, scope, after, now, limits[0]);
      PagesLoseAndRepeatNothing(urlOk, table, scope, last, now, limits[1..]);
      var more := Follow(urlOk, table, scope, last, now, limits[1..]);
      var tail := if more.next.Some? then Shown(urlOk, table, scope, more.next.value, now) else [];
      Regroup(all, limits[0], more.items, tail);
    } else {
      assert all + [] == all;
    }
  }

  lemma Regroup(all: seq<Card>, n: nat, items: seq<Card>, tail: seq<Card>)
    requires n <= |all| && all[n..] == items + tail
    ensures all == all[..n] + items + tail
  {
    assert all == all[..n] + all[n..];
  }

  // ---- Agreement with the single read ----

  lemma {:induction false} FindInOrder(table: seq<Row>, id: nat)
    requires InIdOrder(table)
    ensures match Find(table, id)
            case Some(r) => r in table && r.id == id && (forall i | 0 <= i < |table| && table[i].id == id :: table[i] == r)
            case None => forall i | 0 <= i < |table| :: table[i].id != id
  {
    if table != [] {
      FindInOrder(table[1..], id);
      assert forall i | 0 < i < |table| :: table[i] == table[1..][i - 1];
    }
  }

  lemma {:induction false} ShownHas(urlOk: string -> bool, table: seq<Row>, scope: Scope, now: int, c: Card)
    ensures c in Shown(urlOk, table, scope, 0, now)
            <==> exists i :: 0 <= i < |table| && table[i].id > 0 && Decide(urlOk, table[i], scope, now) == Available && CardOf(table[i]) == c
  {
    if table != [] {
      ShownHas(urlOk, table[1..], scope, now, c);
      hide Decide, CardOf;
      assert forall i | 0 < i < |table| :: table[i] == table[1..][i - 1];
      if i :| 0 <= i < |table[1..]| && table[1..][i].id > 0 && Decide(urlOk, table[1..][i], scope, now) == Available
              && CardOf(table[1..][i]) == c {
        assert table[i + 1] == table[1..][i];
      }
    }
  }

  // A card is on some page if and only if Get for its ID returns that card.
  lemma GetAgreesWithList(urlOk: string -> bool, table: seq<Row>, enabled: bool, scope: Scope, id: nat, now: int, c: Card)
    requires InIdOrder(table) && id > 0
    ensures c in Shown(urlOk, Visible(table, enabled), scope, 0, now) && c.id == id
            <==> GetSpec(urlOk, table, enabled, true, scope, id, now) == Detail(Some(c), Available)
  {
    FindInOrder(table, id);
    ShownHas(urlOk, Visible(table, enabled), scope, now, c);
  }

  lemma {:induction false} AtMostOneCardEach(urlOk: string -> bool, table: seq<Row>, scope: Scope, after: nat, now: int)
    ensures |Shown(urlOk, table, scope, after, now)| <= |table|
  {
    hide Decide, CardOf;
    if table != [] {
      AtMostOneCardEach(urlOk, table[1..], scope, after, now);
    }
  }

  // Row `i` is selected, validates, and has this card.
  predicate Offers(urlOk: string -> bool, r: Row, scope: Scope, now: int, c: Card)
  {
    Selected(r, scope, 0, now) && ValidRow(urlOk, r) && IsCardOf(c, r)
  }

  // Whatever the limits, the pages of an enabled owner hold exactly the cards of the
  // rows that are selected and validate.
  lemma PagesShowExactlyTheOffered(urlOk: string -> bool, table: seq<Row>, scope: Scope, now: int, limits: seq<nat>, c: Card)
    requires InIdOrder(table) && ValidContext(scope) && now > 0
    requires |limits| > |table| && forall i | 0 <= i < |limits| :: limits[i] > 0
    ensures c in Follow(urlOk, table, scope, 0, now, limits).items
            <==> exists i :: 0 <= i < |table| && Offers(urlOk, table[i], scope, now, c)
  {
    PagesLoseAndRepeatNothing(urlOk, table, scope, 0, now, limits);
    AtMostOneCardEach(urlOk, table, scope, 0, now);
    ShownIffOffered(urlOk, table, scope, now, c);
    hide *;
    assert Shown(urlOk, table, scope, 0, now) == Follow(urlOk, table, scope, 0, now, limits).items + [];
  }

  lemma ShownIffOffered(urlOk: string -> bool, table: seq<Row>, scope: Scope, now: int, c: Card)
    requires ValidContext(scope) && now > 0
    ensures c in Shown(urlOk, table, scope, 0, now) <==> exists i :: 0 <= i < |table| && Offers(urlOk, table[i], scope, now, c)
  {
    ShownHas(urlOk, table, scope, now, c);
    hide Shown, Decide, CardOf, Offers;
    forall i | 0 <= i < |table|
      ensures table[i].id > 0 && Decide(urlOk, table[i], scope, now) == Available && CardOf(table[i]) == c
              <==> Offers(urlOk, table[i], scope, now, c)
    {
      OfferedIff(urlOk, table[i], scope, now, c);
    }
  }

  lemma OfferedIff(urlOk: string -> bool, r: Row, scope: Scope, now: int, c: Card)
    requires ValidContext(scope) && now > 0
    ensures r.id > 0 && Decide(urlOk, r, scope, now) == Available && CardOf(r) == c <==> Offers(urlOk, r, scope, now, c)
  {
    CardSaysWhatTheRowSays(r, c);
    if r.id > 0 {
      GrantedIff(urlOk, r, scope, 0, now);
    }
    hide Decide, CardOf, IsCardOf, ValidRow;
  }

  // The single read shows a card exactly when its row is one of these, its owner is
  // enabled and the capability is granted.
  lemma GetShowsExactlyTheOffered(urlOk: string -> bool, table: seq<Row>, enabled: bool, allowed: bool, scope: Scope,
      id: nat, now: int, c: Card)
    requires InIdOrder(table) && id > 0 && ValidContext(scope) && now > 0
    ensures GetSpec(urlOk, table, enabled, allowed, scope, id, now).item == Some(c)
            <==> allowed && enabled && c.id == id && exists i :: 0 <= i < |table| && Offers(urlOk, table[i], scope, now, c)
  {
    GetAgreesWithList(urlOk, table, enabled, scope, id, now, c);
    ShownIffOffered(urlOk, table, scope, now, c);
    assert GetSpec(urlOk, table, enabled, true, scope, id, now).item == Some(c)
        <==> GetSpec(urlOk, table, enabled, true, scope, id, now) == Detail(Some(c), Available) by { hide Decide, CardOf; }
  }

  // ---- A catalog that changes between pages ----

  datatype Moment = Moment(table: seq<Row>, now: int, limit: nat)

  function FollowChanging(urlOk: string -> bool, moments: seq<Moment>, scope: Scope, after: nat): seq<Card>
    requires forall i | 0 <= i < |moments| :: moments[i].limit > 0
  {
    if moments == [] then []
    else
      var page := PageOf(Shown(urlOk, moments[0].table, scope, after, moments[0].now), moments[0].limit);
      page.items + if page.next.Some? then FollowChanging(urlOk, moments[1..], scope, page.next.value) else []
  }

  // IDs still increase from page to page, so no card is shown twice.
  lemma {:induction false} ChangingPagesAscend(urlOk: string -> bool, moments: seq<Moment>, scope: Scope, after: nat)
    requires forall i | 0 <= i < |moments| :: moments[i].limit > 0 && InIdOrder(moments[i].table)
    ensures Ascending(FollowChanging(urlOk, moments, scope, after), after)
    decreases |moments|
  {
    hide Shown, InIdOrder;
    if moments != [] {
      var all := Shown(urlOk, moments[0].table, scope, after, moments[0].now);
      ShownAscends(urlOk, moments[0].table, scope, after, moments[0].now);
      var page := PageOf(all, moments[0].limit);
      if page.next.Some? {
        ChangingPagesAscend(urlOk, moments[1..], scope, page.next.value);
        var more := FollowChanging(urlOk, moments[1..], scope, page.next.value);
        var items := page.items + more;
        assert page.next.value == page.items[|page.items| - 1].id;
        forall i, j | 0 <= i < j < |items|
          ensures items[i].id < items[j].id
        {
        }
      }
    }
  }
}
