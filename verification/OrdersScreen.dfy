// What is on the screen of a promoter's orders after any interleaving: the pages
// that were accepted since the last reload, one behind the other, as far as later
// single reads did not replace or remove an order.
module OrdersScreen {
  import opened Wrappers
  import opened OrdersModel
  import opened OrdersHistory

  type Rows = seq<Order>

  // What an event means for the shown orders.
  datatype Change = Unchanged | Emptied | Reloaded(items: Rows, next: string) | Appended(items: Rows, next: string)
    | Refreshed(order: Order) | Gone(id: string)

  predicate Repeats(m: Model, f: Flight, items: Rows, next: string)
    requires f.ListFlight?
  {
    (exists i, j | 0 <= i < |items| && 0 <= j < |m.view.items| :: items[i].id == m.view.items[j].id)
    || (next != "" && next == f.cursor)
  }

  // The order is within the bounds of the filter; what the filter leaves open or
  // empty bounds nothing.
  predicate Within(o: Order, f: Filter)
  {
    f.channel in {None, Some(""), Some(o.channel)} && f.positionId in {None, Some(""), Some(o.positionId)}
    && f.orderStatus in {None, Some(""), Some(o.orderStatus)}
    && !(f.from.Some? && o.orderOccurredAt < f.from.value) && !(f.to.Some? && f.to.value <= o.orderOccurredAt)
  }

  lemma WithinIsMatches(o: Order, f: Filter)
    ensures Matches(o, f) <==> Within(o, f)
  {
  }

  function ReplyChange(m: Model, f: Flight, r: Reply): Change
  {
    if r == Error(LoginRequired) && f.auth == m.sessionVersion then Emptied
    else if !Current(m, f) then Unchanged
    else
      match r
      case Error(kind) => if f.DetailFlight? && kind == MissingOrder then Gone(f.id) else Unchanged
      case Page(items, next) =>
        if !f.ListFlight? then Unchanged
        else if f.reset then Reloaded(items, next)
        else if Repeats(m, f, items, next) then Unchanged
        else Appended(items, next)
      case Got(d) =>
        if !f.DetailFlight? then Unchanged
        else if Within(d.summary, m.view.filter) then Refreshed(d.summary)
        else Gone(f.id)
  }

  // What the user, the session or a missing login take off the screen.
  predicate Empties(m: Model, e: Event)
  {
    match e
    case ChangeSession(session) => session != m.session
    case Choose(filter) => m.view.status == Idle || filter != m.view.filter
    case Refresh => true
    case LoadMore => !SignedIn(m.session) || m.session == m.rejected
    case Open(_) => !SignedIn(m.session) || m.session == m.rejected
    case Stop => true
    case _ => false
  }

  function ChangeOf(m: Model, e: Event): Change
  {
    if e.Arrive? then (if e.key in m.flights then ReplyChange(m, m.flights[e.key], e.reply) else Unchanged)
    else if !m.disposed && Empties(m, e) then Emptied
    else Unchanged
  }

  function Removed(items: Rows, id: string): Rows
  {
    if items == [] then []
    else
      var n := |items| - 1;
      Removed(items[..n], id) + if items[n].id == id then [] else [items[n]]
  }

  function Renewed(items: Rows, o: Order): Rows
  {
    if items == [] then []
    else
      var n := |items| - 1;
      Renewed(items[..n], o) + [if items[n].id == o.id then o else items[n]]
  }

  function After(items: Rows, c: Change): Rows
  {
    match c
    case Unchanged => items
    case Emptied => []
    case Reloaded(page, _) => page
    case Appended(page, _) => items + page
    case Refreshed(order) => Renewed(items, order)
    case Gone(id) => Removed(items, id)
  }

  function CursorAfter(cursor: string, c: Change): string
  {
    match c
    case Emptied => ""
    case Reloaded(_, next) => next
    case Appended(_, next) => next
    case _ => cursor
  }

  lemma {:induction false} WithoutIsRemoved(items: Rows, id: string)
    ensures Without(items, id) == Removed(items, id)
  {
    if items != [] {
      WithoutIsRemoved(items[..|items| - 1], id);
      WithoutLast(items, id);
    }
  }

  lemma {:induction false} WithoutLast(items: Rows, id: string)
    requires items != []
    ensures var n := |items| - 1; Without(items, id) == Without(items[..n], id) + if items[n].id == id then [] else [items[n]]
  {
    var n := |items| - 1;
    if n > 0 {
      WithoutLast(items[1..], id);
      assert items[..n][1..] == items[1..][..n - 1];
    }
  }

  lemma {:induction false} ReplacedIsRenewed(items: Rows, o: Order)
    ensures Replaced(items, o) == Renewed(items, o)
  {
    if items != [] {
      var n := |items| - 1;
      ReplacedIsRenewed(items[..n], o);
      assert Replaced(items, o) == Replaced(items[..n], o) + [if items[n].id == o.id then o else items[n]];
    }
  }

  predicate ShowsChange(m: Model, n: Model, c: Change)
  {
    n.view.items == After(m.view.items, c) && n.view.cursor == CursorAfter(m.view.cursor, c)
    && (c.Reloaded? || c.Appended? ==> n.view.status == if n.view.items == [] then Empty else Ready)
    && (c.Refreshed? || c.Gone? ==> n.view.status == if n.view.items == [] then Empty else m.view.status)
  }

  lemma OverlapIs(a: Rows, b: Rows)
    ensures Overlap(a, b) <==> exists i, j | 0 <= i < |a| && 0 <= j < |b| :: a[i].id == b[j].id
  {
    if Overlap(a, b) {
      var i :| 0 <= i < |a| && HasId(b, a[i].id);
      var j :| 0 <= j < |b| && b[j].id == a[i].id;
    }
    if i, j :| 0 <= i < |a| && 0 <= j < |b| && a[i].id == b[j].id {
      assert HasId(b, a[i].id);
    }
  }

  lemma PageShows(m: Model, key: nat, r: Reply)
    requires key in m.flights && m.flights[key].ListFlight? && r.Page?
    ensures ShowsChange(m, Land(m, key, r), ReplyChange(m, m.flights[key], r))
  {
    var f := m.flights[key];
    var n := m.(flights := m.flights - {key});
    OverlapIs(r.items, m.view.items);
    assert !f.reset ==> (BadPage(n, f, r.items, r.nextCursor) <==> Repeats(m, f, r.items, r.nextCursor));
    hide Overlap, Repeats, Removed, Renewed, Matches, Within;
  }

  lemma RefusalShows(m: Model, key: nat, r: Reply)
    requires key in m.flights && m.flights[key].ListFlight? && r.Error?
    ensures ShowsChange(m, Land(m, key, r), ReplyChange(m, m.flights[key], r))
  {
    hide Removed, Renewed;
  }

  lemma ReadShows(m: Model, key: nat, r: Reply)
    requires key in m.flights && m.flights[key].DetailFlight? && r.Got?
    ensures ShowsChange(m, Land(m, key, r), ReplyChange(m, m.flights[key], r))
  {
    WithinIsMatches(r.detail.summary, m.view.filter);
    WithoutIsRemoved(m.view.items, m.flights[key].id);
    ReplacedIsRenewed(m.view.items, r.detail.summary);
    hide Removed, Renewed, Without, Replaced, Matches, Within;
  }

  lemma ReadRefusalShows(m: Model, key: nat, r: Reply)
    requires key in m.flights && m.flights[key].DetailFlight? && r.Error?
    ensures ShowsChange(m, Land(m, key, r), ReplyChange(m, m.flights[key], r))
  {
    WithoutIsRemoved(m.view.items, m.flights[key].id);
    hide Removed, Renewed, Without;
  }

  lemma ReplyShows(m: Model, key: nat, r: Reply)
    requires key in m.flights && Fits(m.flights[key], r)
    ensures ShowsChange(m, Land(m, key, r), ReplyChange(m, m.flights[key], r))
  {
    assert m.flights[key].ListFlight? ==> r.Page? || r.Error?;
    assert m.flights[key].DetailFlight? ==> r.Got? || r.Error?;
    hide Fits, ShowsChange, ReplyChange;
    if r.Page? {
      PageShows(m, key, r);
    } else if r.Got? {
      ReadShows(m, key, r);
    } else if m.flights[key].ListFlight? {
      RefusalShows(m, key, r);
    } else {
      ReadRefusalShows(m, key, r);
    }
  }

  // Every event changes the shown orders and the cursor just as it should.
  lemma EventShows(m: Model, e: Event)
    requires Step(m, e).Some?
    ensures ShowsChange(m, Step(m, e).value, ChangeOf(m, e))
  {
    if e.Arrive? {
      ReplyShows(m, e.key, e.reply);
      hide Land, ReplyChange, ShowsChange, Fits;
    } else {
      hide HasId, Fits, Land;
    }
  }

  // ---- Whole runs ----

  // The changes of the shown orders since they were last emptied.
  function Trail(t: Traced, es: seq<Event>, before: seq<Change>): seq<Change>
    requires Run(t, es).Some?
    decreases |es|
  {
    if es == [] then before
    else
      var c := ChangeOf(t.m, es[0]);
      Trail(TracedStep(t, es[0]).value, es[1..], if c.Emptied? then [] else if c.Reloaded? then [c] else before + [c])
  }

  function Composed(trail: seq<Change>): Rows
  {
    if trail == [] then [] else After(Composed(trail[..|trail| - 1]), trail[|trail| - 1])
  }

  lemma Shows(m: Model, n: Model, c: Change)
    requires ShowsChange(m, n, c)
    ensures n.view.items == After(m.view.items, c)
  {
  }

  lemma {:induction false} TrailShows(t: Traced, es: seq<Event>, before: seq<Change>)
    requires Run(t, es).Some? && t.m.view.items == Composed(before)
    ensures Run(t, es).value.m.view.items == Composed(Trail(t, es, before))
    decreases |es|
  {
    hide Step, ChangeOf, ShowsChange;
    if es != [] {
      var c := ChangeOf(t.m, es[0]);
      EventShows(t.m, es[0]);
      Shows(t.m, Step(t.m, es[0]).value, c);
      var next := if c.Emptied? then [] else if c.Reloaded? then [c] else before + [c];
      assert (before + [c])[..|before|] == before && [c][..0] == [];
      TrailShows(TracedStep(t, es[0]).value, es[1..], next);
    }
  }

  // In every interleaving the screen shows what the replies accepted since it was
  // last emptied add up to.
  lemma ShownIsWhatWasAccepted(session: Option<string>, es: seq<Event>)
    requires Run(Opened(session), es).Some?
    ensures Run(Opened(session), es).value.m.view.items == Composed(Trail(Opened(session), es, []))
  {
    TrailShows(Opened(session), es, []);
  }

  function Pages(trail: seq<Change>): Rows
  {
    if trail == [] then []
    else
      var last := trail[|trail| - 1];
      Pages(trail[..|trail| - 1]) + if last.Reloaded? || last.Appended? then last.items else []
  }

  // Without a single read in between that is the accepted pages one behind the other.
  lemma {:induction false} PagesOneBehindTheOther(trail: seq<Change>)
    requires forall i | 0 <= i < |trail| :: trail[i].Unchanged? || trail[i].Appended? || (trail[i].Reloaded? && i == 0)
    ensures Composed(trail) == Pages(trail)
  {
    if trail != [] {
      PagesOneBehindTheOther(trail[..|trail| - 1]);
    }
  }

  // ---- What is asked for, and what a failure shows ----

  // A reload asks for the first page and the continuation for the one behind the
  // cursor, with the filter that is selected and for the session in force.
  lemma LoadAsks(m: Model, reset: bool)
    ensures var n := Load(m, reset);
            if !m.disposed && SignedIn(m.session) && m.session != m.rejected
               && (reset || (!m.view.loadingMore && m.view.cursor != "" && m.view.status in {Ready, Empty})) then
              n.flights == m.flights[m.nextFlight := ListFlight(reset, m.view.filter, if reset then "" else m.view.cursor,
                                                                n.listVersion, m.sessionVersion, m.session.value)]
              && n.view.filter == m.view.filter
              && (if reset then n.view.status == Loading && n.view.items == [] else n.view.loadingMore && n.view.items == m.view.items)
            else n.flights == m.flights
  {
  }

  lemma OpenAsks(m: Model, id: string)
    ensures var n := OpenDetail(m, id);
            if !m.disposed && SignedIn(m.session) && m.session != m.rejected && m.view.status == Ready
               && (exists i | 0 <= i < |m.view.items| :: m.view.items[i].id == id) then
              n.flights == m.flights[m.nextFlight := DetailFlight(id, n.detailVersion, m.sessionVersion, m.session.value)]
              && n.view.detailId == Some(id) && n.view.detailStatus == Loading && n.view.detail == None
            else n.flights == m.flights
  {
    assert HasId(m.view.items, id) <==> exists i | 0 <= i < |m.view.items| :: m.view.items[i].id == id;
  }

  // A failure of a request that still counts is shown where it belongs; only an
  // order that is missing leaves the screen.
  lemma FailureIsShown(m: Model, key: nat, kind: Kind)
    requires key in m.flights && Current(m, m.flights[key]) && kind != LoginRequired
    ensures var f := m.flights[key]; var v := Land(m, key, Error(kind)).view;
            match f
            case ListFlight(reset, _, _, _, _, _) =>
              v.items == m.view.items && !v.loadingMore
              && (if reset then v.status == Refused(kind) && v.error == Some(kind)
                  else v.status == m.view.status && v.pageError == Some(kind))
            case DetailFlight(_, _, _, _) =>
              v.detailStatus == Refused(kind) && v.detailError == Some(kind) && v.detailId == m.view.detailId
              && (kind != MissingOrder ==> v.items == m.view.items)
  {
    hide Without;
  }

  lemma DetailIsShown(m: Model, key: nat, d: Detail)
    requires key in m.flights && m.flights[key].DetailFlight? && Current(m, m.flights[key])
    ensures var v := Land(m, key, Got(d)).view;
            v.detail == Some(d) && v.detailStatus == Ready && v.detailId == m.view.detailId && v.filter == m.view.filter
  {
    hide Without, Replaced, Matches;
  }

  // ---- The other actions ----

  // A new session reads the orders anew, without a filter; without one the user is
  // asked to log in.
  lemma SessionStartsAnew(m: Model, session: Option<string>)
    requires !m.disposed && session != m.session
    ensures var n := SessionChanged(m, session);
            n.session == session && n.rejected == None && n.sessionVersion == m.sessionVersion + 1 && n.view.items == []
            && n.view.filter == NO_FILTER && n.view.detailId == None
            && if SignedIn(session) then
                 n.view.status == Loading
                 && n.flights == m.flights[m.nextFlight := ListFlight(true, NO_FILTER, "", n.listVersion, n.sessionVersion,
                                                                      session.value)]
               else n.view.status == Refused(LoginRequired) && n.flights == m.flights
  {
  }

  // A new filter is taken over and asked for at once.
  lemma FilterIsAskedFor(m: Model, filter: Filter)
    requires !m.disposed && (m.view.status == Idle || filter != m.view.filter) && SignedIn(m.session) && m.session != m.rejected
    ensures var n := SetFilter(m, filter);
            n.view.filter == filter && n.view.status == Loading && n.view.items == []
            && n.flights == m.flights[m.nextFlight := ListFlight(true, filter, "", n.listVersion, m.sessionVersion, m.session.value)]
  {
  }

  // After a refusal to serve the session in force nothing is asked for, whatever the
  // user does, until the session changes.
  lemma RefusalTakesEffect(m: Model, key: nat)
    requires key in m.flights && m.flights[key].auth == m.sessionVersion
    ensures var n := Land(m, key, Error(LoginRequired));
            n.rejected == m.session && n.view.status == Refused(LoginRequired) && n.view.filter == NO_FILTER && n.view.items == []
  {
  }

  lemma RefusedSessionIsSilent(m: Model, e: Event)
    requires Step(m, e).Some? && m.rejected == m.session && !e.ChangeSession? && !e.Stop?
    ensures Silent(m, Step(m, e).value)
  {
    hide Silent, Fits;
    match e
    case Arrive(key, r) => if m.flights[key].ListFlight? { SilentList(m, key, r); } else { SilentDetail(m, key, r); }
    case _ => SilentAction(m, e);
  }

  // Nothing new is in flight, and the session is refused still.
  predicate Silent(m: Model, n: Model)
  {
    n.rejected == n.session == m.session && forall k | k in n.flights :: k in m.flights && n.flights[k] == m.flights[k]
  }

  lemma SilentList(m: Model, key: nat, r: Reply)
    requires key in m.flights && m.flights[key].ListFlight? && m.rejected == m.session
    ensures Silent(m, Land(m, key, r))
  {
    hide Overlap;
  }

  lemma SilentDetail(m: Model, key: nat, r: Reply)
    requires key in m.flights && m.flights[key].DetailFlight? && m.rejected == m.session
    ensures Silent(m, Land(m, key, r))
  {
    hide Without, Replaced, Matches;
  }

  lemma SilentAction(m: Model, e: Event)
    requires Step(m, e).Some? && m.rejected == m.session && !e.ChangeSession? && !e.Stop? && !e.Arrive?
    ensures Silent(m, Step(m, e).value)
  {
    hide HasId;
  }

  lemma ClosingAndDisposing(m: Model)
    ensures var n := CloseDetail(m);
            n.view == m.view.(detailId := None, detail := None, detailStatus := Idle, detailError := None)
            && n.flights == m.flights && n.detailVersion == m.detailVersion + 1
    ensures !m.disposed ==>
              var n := Dispose(m); n.disposed && n.view.items == [] && n.view.status == Idle && n.view.detailId == None
  {
  }
}
