// What is on the screen of the material catalog after any interleaving: the pages
// that were accepted since the last reload, one behind the other, as far as later
// single reads did not replace or remove a card.
module MaterialsScreen {
  import opened Wrappers
  import Catalog = MaterialCatalog
  import opened MaterialsModel
  import opened MaterialsHistory

  type Cards = seq<Catalog.Card>

  // What an event means for the shown cards.
  datatype Change = Unchanged | Emptied | Reloaded(items: Cards, next: string) | Appended(items: Cards, next: string)
    | Refreshed(card: Catalog.Card) | Gone(id: nat)

  // A page is refused if it repeats a shown card or the cursor it was asked with.
  predicate Repeats(m: Model, f: Flight, items: Cards, next: string)
    requires f.ListFlight?
  {
    (exists i, j | 0 <= i < |items| && 0 <= j < |m.view.items| :: items[i].id == m.view.items[j].id)
    || (next != "" && next == f.cursor)
  }

  predicate AsksToLogIn(m: Model, f: Flight, r: Reply)
  {
    r == Error(LoginRequired) && f.auth == m.sessionVersion
  }

  function ReplyChange(m: Model, f: Flight, r: Reply): Change
  {
    if AsksToLogIn(m, f, r) then Emptied
    else if !Current(m, f) then Unchanged
    else
      match r
      case Error(_) => Unchanged
      case Page(items, next, cap) =>
        if !f.ListFlight? then Unchanged
        else if !cap.allowed then Emptied
        else if f.reset then Reloaded(items, next)
        else if Repeats(m, f, items, next) then Unchanged
        else Appended(items, next)
      case Got(d) =>
        if !f.DetailFlight? then Unchanged
        else if !d.capability.allowed then Emptied
        else if d.item.Some? then Refreshed(d.item.value)
        else Gone(f.id)
  }

  // What the user, the session or a missing login take off the screen.
  predicate Empties(m: Model, e: Event)
  {
    match e
    case ChangeSession(session) => session != m.session
    case Platform(platform) => platform != m.view.platform
    case Type(kind) => kind != m.view.kind
    case Choose(scope) => scope.None? || scope != m.view.scope || !Selected(m, scope.value)
    case Refresh => Readable(m) || !MayAsk(m)
    case LoadMore => !MayAsk(m)
    case Open(_) => !MayAsk(m)
    case Stop => true
    case _ => false
  }

  predicate Selected(m: Model, scope: Scope)
  {
    scope.platform == m.view.platform && scope.kind == m.view.kind
  }

  function ChangeOf(m: Model, e: Event): Change
  {
    if e.Arrive? then (if e.key in m.flights then ReplyChange(m, m.flights[e.key], e.reply) else Unchanged)
    else if !m.disposed && Empties(m, e) then Emptied
    else Unchanged
  }

  function Removed(items: Cards, id: nat): Cards
  {
    if items == [] then []
    else
      var n := |items| - 1;
      Removed(items[..n], id) + if items[n].id == id then [] else [items[n]]
  }

  function Renewed(items: Cards, c: Catalog.Card): Cards
  {
    if items == [] then []
    else
      var n := |items| - 1;
      Renewed(items[..n], c) + [if items[n].id == c.id then c else items[n]]
  }

  function After(items: Cards, c: Change): Cards
  {
    match c
    case Unchanged => items
    case Emptied => []
    case Reloaded(page, _) => page
    case Appended(page, _) => items + page
    case Refreshed(card) => Renewed(items, card)
    case Gone(id) => Removed(items, id)
  }

  function CursorAfter(cursor: string, c: Change): string
  {
    match c
    case Unchanged => cursor
    case Reloaded(_, next) => next
    case Appended(_, next) => next
    case _ => ""
  }

  lemma {:induction false} WithoutIsRemoved(items: Cards, id: nat)
    ensures Without(items, id) == Removed(items, id)
  {
    if items != [] {
      WithoutIsRemoved(items[..|items| - 1], id);
      WithoutLast(items, id);
    }
  }

  lemma {:induction false} WithoutLast(items: Cards, id: nat)
    requires items != []
    ensures var n := |items| - 1; Without(items, id) == Without(items[..n], id) + if items[n].id == id then [] else [items[n]]
  {
    var n := |items| - 1;
    if n > 0 {
      WithoutLast(items[1..], id);
      assert items[..n][1..] == items[1..][..n - 1];
    }
  }

  lemma {:induction false} ReplacedIsRenewed(items: Cards, c: Catalog.Card)
    ensures Replaced(items, c) == Renewed(items, c)
  {
    if items != [] {
      var n := |items| - 1;
      ReplacedIsRenewed(items[..n], c);
      assert Replaced(items, c) == Replaced(items[..n], c) + [if items[n].id == c.id then c else items[n]];
    }
  }

  predicate ShowsChange(m: Model, n: Model, c: Change)
  {
    n.view.items == After(m.view.items, c) && n.view.cursor == CursorAfter(m.view.cursor, c)
    && (c.Reloaded? || c.Appended? || c.Refreshed? || c.Gone? ==>
          n.view.status == if n.view.items == [] then Empty else Ready)
  }

  lemma ListReplyShows(m: Model, key: nat, r: Reply)
    requires Inv(m) && key in m.flights && m.flights[key].ListFlight? && Fits(m.flights[key], r)
    ensures ShowsChange(m, Land(m, key, r), ReplyChange(m, m.flights[key], r))
  {
    var f := m.flights[key];
    assert r.Page? || r.Error?;
    hide Inv, Fits, ShowsChange, ReplyChange;
    if r.Page? {
      PageShows(m, key, r);
    } else {
      RefusalShows(m, key, r);
    }
  }

  lemma PageShows(m: Model, key: nat, r: Reply)
    requires key in m.flights && m.flights[key].ListFlight? && r.Page?
    ensures ShowsChange(m, Land(m, key, r), ReplyChange(m, m.flights[key], r))
  {
    var f := m.flights[key];
    var n := m.(flights := m.flights - {key});
    OverlapIs(r.items, m.view.items);
    assert !f.reset ==> (BadPage(n, f, r.items, r.nextCursor) <==> Repeats(m, f, r.items, r.nextCursor));
    hide Overlap, Repeats, Removed, Renewed;
  }

  lemma RefusalShows(m: Model, key: nat, r: Reply)
    requires key in m.flights && m.flights[key].ListFlight? && r.Error?
    ensures ShowsChange(m, Land(m, key, r), ReplyChange(m, m.flights[key], r))
  {
    hide Removed, Renewed;
  }

  lemma OverlapIs(a: Cards, b: Cards)
    ensures Overlap(a, b) <==> exists i, j | 0 <= i < |a| && 0 <= j < |b| :: a[i].id == b[j].id
  {
    if Overlap(a, b) {
      var i :| 0 <= i < |a| && HasId(b, a[i].id);
      var j :| 0 <= j < |b| && b[j].id == a[i].id;
    }
    if i, j :| 0 <= i < |a| && 0 <= j < |b| && a[i].id == b[j].id {
      assert HasId(b, a[i].id);
    }
  }

  lemma DetailReplyShows(m: Model, key: nat, r: Reply)
    requires Inv(m) && key in m.flights && m.flights[key].DetailFlight? && Fits(m.flights[key], r)
    ensures ShowsChange(m, Land(m, key, r), ReplyChange(m, m.flights[key], r))
  {
    assert r.Got? || r.Error?;
    assert r.Got? ==> (r.detail.item.Some? <==> r.detail.available);
    hide Inv, Fits, ShowsChange, ReplyChange;
    if r.Got? {
      ReadShows(m, key, r);
    } else {
      ReadRefusalShows(m, key, r);
    }
  }

  lemma ReadShows(m: Model, key: nat, r: Reply)
    requires key in m.flights && m.flights[key].DetailFlight? && r.Got? && (r.detail.item.Some? <==> r.detail.available)
    ensures ShowsChange(m, Land(m, key, r), ReplyChange(m, m.flights[key], r))
  {
    WithoutIsRemoved(m.view.items, m.flights[key].id);
    if r.detail.item.Some? {
      ReplacedIsRenewed(m.view.items, r.detail.item.value);
    }
    hide Removed, Renewed, Without, Replaced;
  }

  lemma ReadRefusalShows(m: Model, key: nat, r: Reply)
    requires key in m.flights && m.flights[key].DetailFlight? && r.Error?
    ensures ShowsChange(m, Land(m, key, r), ReplyChange(m, m.flights[key], r))
  {
    hide Removed, Renewed;
  }

  lemma ScopeShows(m: Model, scope: Option<Scope>)
    ensures ShowsChange(m, SetScope(m, scope), ChangeOf(m, Choose(scope)))
  {
    hide HasPlace, Supported;
  }

  // Every event changes the shown cards and the cursor just as it should.
  lemma EventShows(m: Model, e: Event)
    requires Inv(m) && Step(m, e).Some?
    ensures ShowsChange(m, Step(m, e).value, ChangeOf(m, e))
  {
    match e
    case Arrive(key, r) =>
      hide Land, ReplyChange, ShowsChange, Fits, Inv;
      if m.flights[key].ListFlight? {
        ListReplyShows(m, key, r);
      } else {
        DetailReplyShows(m, key, r);
      }
    case Choose(scope) =>
      ScopeShows(m, scope);
      hide SetScope, ChangeOf, ShowsChange, Inv;
    case _ =>
      hide Inv, HasId;
  }

  // ---- Whole runs ----

  // The changes of the shown cards since they were last emptied.
  function Trail(t: Traced, es: seq<Event>, before: seq<Change>): seq<Change>
    requires Run(t, es).Some?
    decreases |es|
  {
    if es == [] then before
    else
      var c := ChangeOf(t.m, es[0]);
      Trail(TracedStep(t, es[0]).value, es[1..], if c.Emptied? then [] else if c.Reloaded? then [c] else before + [c])
  }

  function Composed(trail: seq<Change>): Cards
  {
    if trail == [] then [] else After(Composed(trail[..|trail| - 1]), trail[|trail| - 1])
  }

  lemma Shows(m: Model, n: Model, c: Change)
    requires ShowsChange(m, n, c)
    ensures n.view.items == After(m.view.items, c)
  {
  }

  lemma {:induction false} TrailShows(t: Traced, es: seq<Event>, before: seq<Change>)
    requires Inv(t.m) && Run(t, es).Some? && t.m.view.items == Composed(before)
    ensures Run(t, es).value.m.view.items == Composed(Trail(t, es, before))
    decreases |es|
  {
    hide Inv, Step, ChangeOf;
    if es != [] {
      var c := ChangeOf(t.m, es[0]);
      StepKeeps(t.m, es[0]);
      EventShows(t.m, es[0]);
      var next := if c.Emptied? then [] else if c.Reloaded? then [c] else before + [c];
      assert (before + [c])[..|before|] == before && [c][..0] == [];
      hide ShowsChange;
      assert Step(t.m, es[0]).value.view.items == After(t.m.view.items, c) by { Shows(t.m, Step(t.m, es[0]).value, c); }
      TrailShows(TracedStep(t, es[0]).value, es[1..], next);
    }
  }

  // In every interleaving the screen shows what the replies accepted since it was
  // last emptied add up to.
  lemma ShownIsWhatWasAccepted(session: Option<string>, es: seq<Event>)
    requires Run(Opened(session), es).Some?
    ensures Run(Opened(session), es).value.m.view.items == Composed(Trail(Opened(session), es, []))
  {
    assert Inv(Created(session));
    TrailShows(Opened(session), es, []);
  }

  function Pages(trail: seq<Change>): Cards
  {
    if trail == [] then []
    else
      var last := trail[|trail| - 1];
      Pages(trail[..|trail| - 1]) + if last.Reloaded? || last.Appended? then last.items else []
  }

  // Without a single read in between that is the accepted pages one behind the other.
  lemma {:induction false} PagesOneBehindTheOther(trail: seq<Change>)
    requires forall i | 0 <= i < |trail| :: trail[i].Unchanged? || trail[i].Appended? || (trail[i].Reloaded? && i == 0)
    ensures Composed(trail) == Pages(trail)
  {
    if trail != [] {
      PagesOneBehindTheOther(trail[..|trail| - 1]);
    }
  }

  // ---- What is asked for, and what a failure shows ----

  // A reload asks for the first page and the continuation for the one behind the
  // cursor, of the scope that is selected and for the session in force; nothing
  // else is asked for, and only if it may be.
  lemma LoadAsks(m: Model, reset: bool)
    ensures var n := Load(m, reset);
            if !m.disposed && SignedIn(m.session) && m.session != m.rejected && Supported(m.view.platform, m.view.kind)
               && HasPlace(m.view.scope)
               && (reset || (!m.view.loadingMore && m.view.cursor != "" && m.view.status == Ready)) then
              n.flights == m.flights[m.nextFlight := ListFlight(reset, m.view.scope.value, if reset then "" else m.view.cursor,
                                                                n.listVersion, m.sessionVersion, m.session.value)]
              && (if reset then n.view.status == Loading && n.view.items == [] else n.view.loadingMore && n.view.items == m.view.items)
            else n.flights == m.flights
  {
  }

  lemma OpenAsks(m: Model, id: nat)
    ensures var n := OpenDetail(m, id);
            if !m.disposed && SignedIn(m.session) && m.session != m.rejected && Supported(m.view.platform, m.view.kind)
               && HasPlace(m.view.scope) && m.view.status == Ready && (exists i | 0 <= i < |m.view.items| :: m.view.items[i].id == id)
            then
              n.flights == m.flights[m.nextFlight := DetailFlight(id, m.view.scope.value, n.detailVersion, m.sessionVersion,
                                                                  m.session.value)]
              && n.view.detailId == Some(id) && n.view.detailStatus == Loading && n.view.detail == None
            else n.flights == m.flights
  {
    assert HasId(m.view.items, id) <==> exists i | 0 <= i < |m.view.items| :: m.view.items[i].id == id;
  }

  // A failure of a request that still counts is shown where it belongs and leaves
  // the shown cards alone, unless it asks the user to log in again.
  lemma FailureIsShown(m: Model, key: nat, kind: Kind)
    requires Inv(m) && key in m.flights && Current(m, m.flights[key]) && kind != LoginRequired
    ensures var f := m.flights[key]; var v := Land(m, key, Error(kind)).view;
            v.items == m.view.items
            && match f
               case ListFlight(reset, _, _, _, _, _) =>
                 !v.loadingMore
                 && if reset then v.status == Refused(kind) && v.error == Some(kind)
                    else v.status == m.view.status && v.pageError == Some(kind)
               case DetailFlight(_, _, _, _, _) => v.detailStatus == Refused(kind) && v.detailError == Of(kind) && v.detailId == m.view.detailId
  {
    hide Inv;
  }

  // A single read that still counts is shown with its card, or as gone; a denial of
  // the catalog is shown with its reason and nothing else.
  lemma DetailIsShown(m: Model, key: nat, d: Detail)
    requires Inv(m) && key in m.flights && m.flights[key].DetailFlight? && Current(m, m.flights[key]) && Fits(m.flights[key], Got(d))
    ensures var v := Land(m, key, Got(d)).view;
            v.capability == Some(d.capability)
            && if !d.capability.allowed then
                 v.items == [] && v.status == Blocked && v.reason == d.capability.reason && v.detailId == None
               else
                 v.detailId == m.view.detailId
                 && v.notice && v.pageError == None && !v.loadingMore
                 && if d.item.Some? then v.detail == Some(d) && v.detailStatus == Ready
                    else v.detailStatus == NotFound && v.detailReason == d.reason && v.detailError == GoneMessage
                         && v.detail == m.view.detail
  {
    hide Inv, Without, Replaced, InScope;
  }

  lemma PageIsShown(m: Model, key: nat, items: Cards, next: string, cap: Capability)
    requires Inv(m) && key in m.flights && m.flights[key].ListFlight? && Current(m, m.flights[key])
    ensures var f := m.flights[key]; var v := Land(m, key, Page(items, next, cap)).view;
            if !cap.allowed then v.items == [] && v.status == Blocked && v.capability == Some(cap) && v.reason == cap.reason
            else if !f.reset && Repeats(m, f, items, next) then v.items == m.view.items && v.pageError == Some(Failed)
            else v.capability == Some(cap) && v.reason == "" && v.cursor == next && !v.loadingMore
  {
    OverlapIs(items, m.view.items);
    hide Inv, Overlap;
  }

  // ---- The other actions ----

  // What a screen without a scope says.
  predicate Waits(m: Model)
  {
    m.view.scope == None && m.view.items == [] && m.view.detailId == None
    && m.view.status == if !SignedIn(m.session) || m.session == m.rejected then Refused(LoginRequired)
                        else if (m.view.platform, m.view.kind) in {("JD", "PRODUCT"), ("JD", "ACTIVITY"), ("TAOBAO", "PRODUCT"),
                                                                   ("TAOBAO", "ACTIVITY"), ("MEITUAN", "ACTIVITY")}
                        then PositionRequired else Refused(Unavailable)
  }

  // A new platform starts with its first kind of material, MEITUAN with activities;
  // a new kind keeps the platform; both drop the scope.
  lemma SelectionDrops(m: Model, platform: string, kind: string)
    requires !m.disposed
    ensures platform != m.view.platform ==>
              var n := SelectPlatform(m, platform);
              Waits(n) && n.view.platform == platform && n.view.kind == (if platform == "MEITUAN" then "ACTIVITY" else "PRODUCT")
    ensures kind != m.view.kind ==>
              var n := SelectType(m, kind); Waits(n) && n.view.platform == m.view.platform && n.view.kind == kind
    ensures Waits(SetScope(m, None))
  {
  }

  // A new scope for the selected platform and kind is taken over and, if it may be,
  // asked for at once; any other is an error.
  lemma ScopeIsAskedFor(m: Model, scope: Scope)
    requires !m.disposed && (scope.platform == m.view.platform && scope.kind == m.view.kind ==> Some(scope) != m.view.scope)
    ensures var n := SetScope(m, Some(scope));
            if scope.platform != m.view.platform || scope.kind != m.view.kind then
              n.view.scope == None && n.view.items == [] && n.view.status == Refused(Failed) && n.flights == m.flights
            else if SignedIn(m.session) && m.session != m.rejected && Supported(scope.platform, scope.kind)
                    && scope.positionId != "" && scope.scene != "" then
              n.view.scope == Some(scope) && n.view.status == Loading
              && n.flights == m.flights[m.nextFlight := ListFlight(true, scope, "", n.listVersion, m.sessionVersion, m.session.value)]
            else n.flights == m.flights && n.view.status != Loading
  {
  }

  // After a refusal to serve the session in force nothing is asked for, whatever the
  // user does, until the session changes.
  lemma RefusalTakesEffect(m: Model, key: nat, r: Reply)
    requires key in m.flights && AsksToLogIn(m, m.flights[key], r)
    ensures var n := Land(m, key, r);
            n.rejected == m.session && n.view.status == Refused(LoginRequired) && n.view.scope == None && n.view.items == []
  {
  }

  lemma RefusedSessionIsSilent(m: Model, e: Event)
    requires Step(m, e).Some? && m.rejected == m.session && !e.ChangeSession? && !e.Stop?
    ensures Silent(m, Step(m, e).value)
  {
    hide Silent, Fits;
    match e
    case Arrive(key, r) => if m.flights[key].ListFlight? { SilentList(m, key, r); } else { SilentDetail(m, key, r); }
    case Choose(scope) => SilentScope(m, scope);
    case _ => SilentAction(m, e);
  }

  // Nothing new is in flight, and the session is refused still.
  predicate Silent(m: Model, n: Model)
  {
    n.rejected == n.session == m.session && forall k | k in n.flights :: k in m.flights && n.flights[k] == m.flights[k]
  }

  lemma SilentList(m: Model, key: nat, r: Reply)
    requires key in m.flights && m.flights[key].ListFlight? && m.rejected == m.session
    ensures Silent(m, Land(m, key, r))
  {
    hide Overlap, AllInScope, DistinctIds;
  }

  lemma SilentDetail(m: Model, key: nat, r: Reply)
    requires key in m.flights && m.flights[key].DetailFlight? && m.rejected == m.session
    ensures Silent(m, Land(m, key, r))
  {
    hide Without, Replaced;
  }

  lemma SilentScope(m: Model, scope: Option<Scope>)
    requires m.rejected == m.session
    ensures Silent(m, SetScope(m, scope))
  {
    hide Supported, HasPlace;
  }

  lemma SilentAction(m: Model, e: Event)
    requires Step(m, e).Some? && m.rejected == m.session
    requires !e.ChangeSession? && !e.Stop? && !e.Arrive? && !e.Choose?
    ensures Silent(m, Step(m, e).value)
  {
    hide Supported, HasPlace, HasId;
  }

  lemma SessionStartsAnew(m: Model, session: Option<string>)
    requires !m.disposed && session != m.session
    ensures var n := SessionChanged(m, session);
            n.session == session && n.rejected == None && n.sessionVersion == m.sessionVersion + 1 && n.flights == m.flights
            && (session.Some? ==> Waits(n))
  {
  }

  lemma ClosingAndDisposing(m: Model)
    requires !m.disposed
    ensures var n := CloseDetail(m);
            n.view == m.view.(detailId := None, detail := None, detailStatus := Idle, detailError := NoMessage, detailReason := "")
            && n.flights == m.flights && n.detailVersion == m.detailVersion + 1
    ensures var n := Dispose(m);
            n.disposed && n.view.items == [] && n.view.scope == None && n.view.status == Idle && n.view.detailId == None
  {
  }

  // A request that cannot be made says what is missing.
  lemma UnreadableSays(m: Model, reset: bool)
    requires !m.disposed && !Readable(m)
    ensures Load(m, reset).view.status
         == if !SignedIn(m.session) || m.session == m.rejected then Refused(LoginRequired)
            else if !Supported(m.view.platform, m.view.kind) then Refused(Unavailable)
            else PositionRequired
  {
  }

  // In every interleaving each shown card is of the platform, kind, business, terminal
  // and city that are selected.
  lemma ShownCardsFit(session: Option<string>, es: seq<Event>, i: nat)
    requires Run(Opened(session), es).Some? && i < |Run(Opened(session), es).value.m.view.items|
    ensures var v := Run(Opened(session), es).value.m.view;
            v.scope.Some?
            && var c, scope := v.items[i], v.scope.value;
            c.platform == (match scope.platform case "TAOBAO" => "TB" case "MEITUAN" => "MT" case other => other)
            && c.kind == scope.kind && scope.terminal in c.terminals
            && c.business in {"", OrEmpty(scope.business)}
            && (c.region.mode == Catalog.Nationwide || OrEmpty(scope.cityCode) in c.region.cityCodes)
  {
    ShownItemsBelong(session, es);
    var v := Run(Opened(session), es).value.m.view;
    assert InScope(v.items[i], v.scope.value);
  }
}
