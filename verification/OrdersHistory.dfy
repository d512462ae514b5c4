// What every interleaving of user actions, session changes and replies keeps
// in the view model of a promoter's orders.
module OrdersHistory {
  import opened Wrappers
  import opened OrdersModel

  datatype Event =
    | ChangeSession(session: Option<string>)
    | Choose(filter: Filter)
    | Refresh
    | LoadMore
    | Open(id: string)
    | Close
    | Stop
    | Arrive(key: nat, reply: Reply)

  function Step(m: Model, e: Event): Option<Model>
  {
    match e
    case ChangeSession(session) => Some(SessionChanged(m, session))
    case Choose(filter) => Some(SetFilter(m, filter))
    case Refresh => Some(Load(m, true))
    case LoadMore => Some(Load(m, false))
    case Open(id) => Some(OpenDetail(m, id))
    case Close => Some(CloseDetail(m))
    case Stop => Some(Dispose(m))
    case Arrive(key, r) => if key in m.flights && Fits(m.flights[key], r) then Some(Land(m, key, r)) else None
  }

  // The model together with the token of the request its items came from.
  datatype Traced = Traced(m: Model, source: string)

  function TracedStep(t: Traced, e: Event): Option<Traced>
  {
    match Step(t.m, e)
    case None => None
    case Some(next) =>
      Some(Traced(next, if e.Arrive? && next.view.items != t.m.view.items then t.m.flights[e.key].token else t.source))
  }

  function Run(t: Traced, es: seq<Event>): Option<Traced>
    decreases |es|
  {
    if es == [] then Some(t)
    else match TracedStep(t, es[0])
      case None => None
      case Some(next) => Run(next, es[1..])
  }

  function Opened(session: Option<string>): Traced
  {
    Traced(Created(session), "")
  }

  // ---- Invariant ----

  predicate Current(m: Model, f: Flight)
  {
    f.version == if f.ListFlight? then m.listVersion else m.detailVersion
  }

  predicate Relevant(m: Model, f: Flight)
  {
    Readable(m) && f.auth == m.sessionVersion && f.token == Token(m)
    && match f
       case ListFlight(reset, filter, cursor, _, _, _) =>
         filter == m.view.filter
         && if reset then m.view.status == Loading
            else (m.view.status == Ready || m.view.status == Empty) && m.view.loadingMore && cursor == m.view.cursor
       case DetailFlight(id, _, _, _) => m.view.detailId == Some(id) && m.view.detailStatus == Loading
  }

  predicate Bounded(m: Model, f: Flight)
  {
    f.version <= (if f.ListFlight? then m.listVersion else m.detailVersion) && f.auth <= m.sessionVersion
    && (f.auth == m.sessionVersion ==> !m.disposed)
  }

  // What holds of pending requests even while an action is under way.
  predicate Base(m: Model)
  {
    (forall k | k in m.flights :: k < m.nextFlight && Bounded(m, m.flights[k])) && VersionsDiffer(m.flights)
  }

  predicate VersionsDiffer(flights: map<nat, Flight>)
  {
    forall j, k | j in flights && k in flights && flights[j].ListFlight? == flights[k].ListFlight?
                  && flights[j].version == flights[k].version :: j == k
  }

  predicate CurrentOk(m: Model)
  {
    forall k | k in m.flights && Current(m, m.flights[k]) :: Relevant(m, m.flights[k])
  }

  predicate ItemsOk(v: View)
  {
    DistinctIds(v.items) && AllMatch(v.items, v.filter)
  }

  predicate Awaited(m: Model, list: bool, reset: bool)
  {
    exists k | k in m.flights :: Current(m, m.flights[k]) && m.flights[k].ListFlight? == list
      && (list ==> m.flights[k].reset == reset)
  }

  predicate FlagsOk(m: Model)
  {
    (m.view.status == Loading ==> Awaited(m, true, true)) && (m.view.loadingMore ==> Awaited(m, true, false))
    && (m.view.detailStatus == Loading ==> Awaited(m, false, false) && m.view.status != Loading)
  }

  predicate AtRest(m: Model)
  {
    m.disposed ==> m.view.items == [] && m.view.status == Idle && DetailCleared(m.view) == m.view
  }

  predicate Inv(m: Model)
  {
    Base(m) && CurrentOk(m) && ItemsOk(m.view) && FlagsOk(m) && AtRest(m)
  }

  // ---- Clearing ----

  predicate Blank(v: View)
  {
    v.items == [] && !v.loadingMore && DetailCleared(v) == v && v.status != Loading
  }

  // With every version counted up and the view cleared, nothing pending counts.
  lemma ClearedKeeps(m: Model, n: Model)
    requires Base(m) && n.flights == m.flights && n.nextFlight == m.nextFlight
    requires n.listVersion > m.listVersion && n.detailVersion > m.detailVersion && n.sessionVersion >= m.sessionVersion
    requires n.disposed ==> (m.disposed || n.sessionVersion > m.sessionVersion) && n.view.status == Idle
    requires Blank(n.view)
    ensures Inv(n)
  {
    hide Relevant;
    forall k | k in n.flights
      ensures k < n.nextFlight && Bounded(n, n.flights[k]) && !Current(n, n.flights[k])
    {
      assert Bounded(m, m.flights[k]);
    }
  }

  lemma UnreadableKeeps(m: Model)
    requires Base(m) && (m.disposed ==> Inv(m)) && !Readable(m)
    ensures Inv(Unreadable(m))
  {
    if !m.disposed {
      ClearedKeeps(m, RequireLogin(m));
    }
  }

  // ---- Requests ----

  // A new list request; a detail that is awaited stays awaited unless closed.
  lemma ListLaunchKeeps(m: Model, n: Model, f: Flight)
    requires Base(m) && n.flights == m.flights && n.nextFlight == m.nextFlight && n.sessionVersion == m.sessionVersion
             && n.disposed == m.disposed && n.listVersion > m.listVersion && n.detailVersion >= m.detailVersion
    requires f.ListFlight? && (f.reset ==> n.detailVersion > m.detailVersion) && Current(n, f) && Relevant(n, f)
             && ItemsOk(n.view)
    requires (n.view.status == Loading ==> f.reset) && (n.view.loadingMore ==> !f.reset)
    requires n.detailVersion > m.detailVersion ==> n.view.detailStatus != Loading
    requires n.detailVersion == m.detailVersion ==>
               CurrentOk(m) && FlagsOk(m) && n.view.detailStatus == m.view.detailStatus && n.view.detailId == m.view.detailId
               && Readable(m) && n.session == m.session
    ensures Inv(Launch(n, f))
  {
    var o := Launch(n, f);
    assert !n.disposed;
    hide Readable;
    assert Readable(o) by { SameReadable(n, o); }
    assert Relevant(o, f);
    forall k | k in m.flights
      ensures o.flights[k] == m.flights[k] && Bounded(o, m.flights[k])
              && (m.flights[k].ListFlight? ==> m.flights[k].version < f.version)
      ensures Current(o, m.flights[k]) ==> Relevant(o, m.flights[k])
    {
      assert Bounded(m, m.flights[k]);
      if n.detailVersion == m.detailVersion && Current(m, m.flights[k]) {
        assert Relevant(m, m.flights[k]);
      }
    }
    assert m.nextFlight !in m.flights && o.flights[m.nextFlight] == f && Current(o, f);
    hide Relevant, Bounded;
    if n.detailVersion == m.detailVersion && Awaited(m, false, false) {
      var k :| k in m.flights && Current(m, m.flights[k]) && !m.flights[k].ListFlight?;
      assert Current(o, o.flights[k]);
    }
  }

  lemma SameReadable(m: Model, n: Model)
    requires n == m.(flights := n.flights, nextFlight := n.nextFlight)
    ensures Readable(m) <==> Readable(n)
  {
  }

  lemma LoadKeeps(m: Model, reset: bool)
    requires Base(m) && ((reset && !m.disposed) || Inv(m))
    ensures Inv(Load(m, reset))
  {
    if !Readable(m) {
      UnreadableKeeps(m);
    } else if reset {
      var n := m.(listVersion := m.listVersion + 1, detailVersion := m.detailVersion + 1,
                  view := DetailCleared(m.view).(items := [], cursor := "", error := None, status := Loading,
                    loadingMore := false, pageError := None));
      var f := ListFlight(true, m.view.filter, "", n.listVersion, m.sessionVersion, Token(m));
      ListLaunchKeeps(m, n, f);
    } else if !m.view.loadingMore && m.view.cursor != "" && (m.view.status == Ready || m.view.status == Empty) {
      var n := m.(listVersion := m.listVersion + 1, view := m.view.(loadingMore := true, pageError := None));
      var f := ListFlight(false, m.view.filter, m.view.cursor, n.listVersion, m.sessionVersion, Token(m));
      ListLaunchKeeps(m, n, f);
    }
  }

  lemma OpenKeeps(m: Model, id: string)
    requires Inv(m)
    ensures Inv(OpenDetail(m, id))
  {
    if !Readable(m) {
      UnreadableKeeps(m);
    } else if m.view.status == Ready && HasId(m.view.items, id) {
      var o := OpenDetail(m, id);
      var f := DetailFlight(id, m.detailVersion + 1, m.sessionVersion, Token(m));
      assert Readable(o);
      hide Readable, ItemsOk;
      assert Relevant(o, f);
      forall k | k in m.flights
        ensures o.flights[k] == m.flights[k] && Bounded(o, m.flights[k])
                && (m.flights[k].DetailFlight? ==> m.flights[k].version < f.version)
        ensures Current(o, m.flights[k]) ==> Relevant(o, m.flights[k])
      {
        assert Bounded(m, m.flights[k]);
        if m.flights[k].ListFlight? && Current(m, m.flights[k]) {
          assert Relevant(m, m.flights[k]);
        }
      }
      assert m.nextFlight !in m.flights && o.flights[m.nextFlight] == f && Current(o, f);
      hide Relevant, Bounded;
      ListsStay(m, o, true);
      ListsStay(m, o, false);
    }
  }

  lemma ListsStay(m: Model, n: Model, reset: bool)
    requires n.listVersion == m.listVersion && forall k | k in m.flights && m.flights[k].ListFlight? :: k in n.flights && n.flights[k] == m.flights[k]
    ensures Awaited(m, true, reset) ==> Awaited(n, true, reset)
  {
    if Awaited(m, true, reset) {
      var k :| k in m.flights && Current(m, m.flights[k]) && m.flights[k].ListFlight? && m.flights[k].reset == reset;
      assert Current(n, n.flights[k]);
    }
  }

  lemma DetailsStay(m: Model, n: Model)
    requires n.detailVersion == m.detailVersion
    requires forall k | k in m.flights && m.flights[k].DetailFlight? :: k in n.flights && n.flights[k] == m.flights[k]
    ensures Awaited(m, false, false) ==> Awaited(n, false, false)
  {
    if Awaited(m, false, false) {
      var k :| k in m.flights && Current(m, m.flights[k]) && !m.flights[k].ListFlight?;
      assert Current(n, n.flights[k]);
    }
  }

  // ---- Replies ----

  function Taken(m: Model, key: nat): Model
  {
    m.(flights := m.flights - {key})
  }

  lemma TakenBase(m: Model, key: nat)
    requires Base(m)
    ensures Base(Taken(m, key))
  {
  }

  // A reply that is not used only leaves the set of pending requests.
  lemma UnusedKeeps(m: Model, key: nat)
    requires Inv(m) && key in m.flights && !Current(m, m.flights[key])
    ensures Inv(Taken(m, key))
  {
    var n := Taken(m, key);
    TakenBase(m, key);
    forall k | k in n.flights && Current(n, n.flights[k])
      ensures Relevant(n, n.flights[k])
    {
      assert Relevant(m, m.flights[k]);
    }
    hide Relevant, Base, Readable;
    assert FlagsOk(n) by {
      if Awaited(m, true, true) {
        var k :| k in m.flights && Current(m, m.flights[k]) && m.flights[k].ListFlight? && m.flights[k].reset;
        assert Current(n, n.flights[k]);
      }
      if Awaited(m, true, false) {
        var k :| k in m.flights && Current(m, m.flights[k]) && m.flights[k].ListFlight? && !m.flights[k].reset;
        assert Current(n, n.flights[k]);
      }
      if Awaited(m, false, false) {
        var k :| k in m.flights && Current(m, m.flights[k]) && !m.flights[k].ListFlight?;
        assert Current(n, n.flights[k]);
      }
    }
  }

  // `n` is the model after the current list reply.
  lemma ListSettles(m: Model, key: nat, n: Model)
    requires Inv(m) && key in m.flights && m.flights[key].ListFlight? && Current(m, m.flights[key])
    requires n == Taken(m, key).(view := n.view) && n.view.filter == m.view.filter
             && n.view.detailId == m.view.detailId && n.view.detailStatus == m.view.detailStatus
    requires n.view.status != Loading && !n.view.loadingMore && ItemsOk(n.view)
    ensures Inv(n)
  {
    assert Relevant(m, m.flights[key]);
    assert !m.disposed;
    forall k | k in n.flights
      ensures k < n.nextFlight && Bounded(n, n.flights[k]) && (Current(n, n.flights[k]) ==> Relevant(n, n.flights[k]))
    {
      assert Bounded(m, m.flights[k]);
      assert Current(m, m.flights[k]) ==> Relevant(m, m.flights[k]);
    }
    hide Relevant, Bounded, Readable;
    DetailsStay(m, n);
  }

  // `n` is the model after the current detail reply, the list either untouched
  // or made final.
  lemma DetailSettles(m: Model, key: nat, n: Model)
    requires Inv(m) && key in m.flights && m.flights[key].DetailFlight? && Current(m, m.flights[key])
    requires n == Taken(m, key).(view := n.view, listVersion := n.listVersion) && n.view.filter == m.view.filter
             && ItemsOk(n.view)
    requires n.view.detailStatus != Loading
    requires (n.listVersion == m.listVersion && n.view.status == m.view.status
             && n.view.loadingMore == m.view.loadingMore && n.view.cursor == m.view.cursor)
             || (n.listVersion > m.listVersion && n.view.status != Loading && !n.view.loadingMore)
    ensures Inv(n)
  {
    assert Relevant(m, m.flights[key]);
    assert !m.disposed;
    forall k | k in n.flights
      ensures k < n.nextFlight && Bounded(n, n.flights[k]) && (Current(n, n.flights[k]) ==> Relevant(n, n.flights[k]))
    {
      assert Bounded(m, m.flights[k]);
      assert Current(m, m.flights[k]) ==> Relevant(m, m.flights[k]);
    }
    hide Relevant, Bounded, Readable;
    if n.listVersion == m.listVersion {
      ListsStay(m, n, true);
      ListsStay(m, n, false);
    }
  }

  lemma JoinDistinct(a: seq<Order>, b: seq<Order>)
    requires DistinctIds(a) && DistinctIds(b) && !Overlap(b, a)
    ensures DistinctIds(a + b)
  {
    forall i, j | 0 <= i < |a| && 0 <= j < |b|
      ensures a[i].id != b[j].id
    {
      assert !HasId(a, b[j].id);
    }
  }

  lemma ListReplyKeeps(m: Model, key: nat, r: Reply)
    requires Inv(m) && key in m.flights && m.flights[key].ListFlight? && Fits(m.flights[key], r)
    ensures Inv(Land(m, key, r))
  {
    var f := m.flights[key];
    TakenBase(m, key);
    if r.Error? && f.auth == m.sessionVersion && r.kind == LoginRequired {
      assert Bounded(m, f);
      ClearedKeeps(Taken(m, key), RequireLogin(Taken(m, key)));
      assert Land(m, key, r) == RequireLogin(Taken(m, key));
    } else if !Current(m, f) {
      UnusedKeeps(m, key);
      assert Land(m, key, r) == Taken(m, key);
    } else {
      assert Relevant(m, f);
      ListAnswer(m, key, r);
      ListSettles(m, key, Land(m, key, r));
    }
  }

  lemma ListAnswer(m: Model, key: nat, r: Reply)
    requires ItemsOk(m.view) && key in m.flights && m.flights[key].ListFlight? && Fits(m.flights[key], r)
    requires Current(m, m.flights[key]) && Relevant(m, m.flights[key]) && (r.Error? ==> r.kind != LoginRequired)
    ensures var n := Land(m, key, r);
            n == Taken(m, key).(view := n.view) && n.view.filter == m.view.filter && n.view.detailId == m.view.detailId
            && n.view.detailStatus == m.view.detailStatus && n.view.status != Loading && !n.view.loadingMore
              && ItemsOk(n.view)
  {
    hide Readable, Matches;
    var f := m.flights[key];
    if r.Page? && !f.reset && !Overlap(r.items, m.view.items) {
      JoinDistinct(m.view.items, r.items);
    }
  }

  lemma {:induction false} WithoutKeeps(items: seq<Order>, id: string, filter: Filter)
    ensures forall x | x in Without(items, id) :: x in items && x.id != id
    ensures DistinctIds(items) ==> DistinctIds(Without(items, id))
    ensures AllMatch(items, filter) ==> AllMatch(Without(items, id), filter)
  {
    hide Matches;
    if items != [] {
      WithoutKeeps(items[1..], id, filter);
      var rest := Without(items[1..], id);
      assert AllMatch(items, filter) ==> AllMatch(items[1..], filter);
      assert DistinctIds(items) ==> DistinctIds(items[1..]);
      if DistinctIds(items) && items[0].id != id {
        forall j | 0 <= j < |rest|
          ensures rest[j].id != items[0].id
        {
          assert rest[j] in rest;
          var i :| 0 <= i < |items[1..]| && items[1..][i] == rest[j];
          assert items[i + 1] == rest[j];
        }
      }
    }
  }

  lemma ReplacedKeeps(items: seq<Order>, o: Order, filter: Filter)
    requires DistinctIds(items) && AllMatch(items, filter) && Matches(o, filter)
    ensures DistinctIds(Replaced(items, o)) && AllMatch(Replaced(items, o), filter)
  {
    hide Matches;
  }

  lemma DetailReplyKeeps(m: Model, key: nat, r: Reply)
    requires Inv(m) && key in m.flights && m.flights[key].DetailFlight? && Fits(m.flights[key], r)
    ensures Inv(Land(m, key, r))
  {
    var f := m.flights[key];
    TakenBase(m, key);
    if r.Error? && f.auth == m.sessionVersion && r.kind == LoginRequired {
      assert Bounded(m, f);
      ClearedKeeps(Taken(m, key), RequireLogin(Taken(m, key)));
    } else if !Current(m, f) {
      UnusedKeeps(m, key);
    } else {
      WithoutKeeps(m.view.items, f.id, m.view.filter);
      if r.Got? && Matches(r.detail.summary, m.view.filter) {
        ReplacedKeeps(m.view.items, r.detail.summary, m.view.filter);
      }
      NotLoadingBesideDetail(m, key);
      hide DistinctIds, AllMatch, Matches, Without, Replaced, Base, CurrentOk, FlagsOk, Fits, AtRest;
      DetailSettles(m, key, Land(m, key, r));
    }
  }

  // While a detail is awaited the list is not being reloaded.
  lemma NotLoadingBesideDetail(m: Model, key: nat)
    requires Inv(m) && key in m.flights && m.flights[key].DetailFlight? && Current(m, m.flights[key])
    ensures m.view.status != Loading
  {
  }

  // ---- Every event keeps the invariant ----

  lemma SessionKeeps(m: Model, session: Option<string>)
    requires Inv(m)
    ensures Inv(SessionChanged(m, session))
  {
    if session != m.session {
      if m.disposed {
        var n := m.(session := session);
        forall k | k in m.flights
          ensures !Current(m, m.flights[k])
        {
          assert Current(m, m.flights[k]) ==> Relevant(m, m.flights[k]);
        }
        hide Relevant;
        assert CurrentOk(n);
        assert Base(n) by { assert forall k | k in m.flights :: Bounded(n, m.flights[k]) <==> Bounded(m, m.flights[k]); }
      } else {
        var c := ClearAll(m.(session := session, sessionVersion := m.sessionVersion + 1, rejected := None));
        hide Relevant, ItemsOk;
        assert ItemsOk(WithStatus(c, Idle).view) by { NoItems(WithStatus(c, Idle).view); }
        if SignedIn(session) {
          ClearedKeeps(m, WithStatus(c, Idle));
          LoadKeeps(WithStatus(c, Idle), true);
        } else {
          ClearedKeeps(m, WithStatus(c, Refused(LoginRequired)));
        }
      }
    }
  }

  lemma NoItems(v: View)
    ensures v.items == [] ==> ItemsOk(v)
  {
  }

  lemma CloseKeeps(m: Model)
    requires Inv(m)
    ensures Inv(CloseDetail(m))
  {
    var n := CloseDetail(m);
    forall k | k in n.flights
      ensures k < n.nextFlight && Bounded(n, n.flights[k]) && (Current(n, n.flights[k]) ==> Relevant(n, n.flights[k]))
    {
      assert Bounded(m, m.flights[k]);
      assert Current(m, m.flights[k]) ==> Relevant(m, m.flights[k]);
    }
    hide Relevant, Bounded, Readable;
    ListsStay(m, n, true);
    ListsStay(m, n, false);
  }

  lemma FilterKeeps(m: Model, filter: Filter)
    requires Inv(m)
    ensures Inv(SetFilter(m, filter))
  {
    if !m.disposed && (m.view.status == Idle || filter != m.view.filter) {
      var n := m.(view := m.view.(filter := filter));
      assert Base(n) by { assert forall k | k in m.flights :: Bounded(n, m.flights[k]) <==> Bounded(m, m.flights[k]); }
      hide Base, Inv, Load;
      LoadKeeps(n, true);
    }
  }

  lemma StepKeeps(m: Model, e: Event)
    requires Inv(m) && Step(m, e).Some?
    ensures Inv(Step(m, e).value)
  {
    match e
    case ChangeSession(session) => SessionKeeps(m, session);
    case Choose(filter) => FilterKeeps(m, filter);
    case Refresh => LoadKeeps(m, true);
    case LoadMore => LoadKeeps(m, false);
    case Open(id) => OpenKeeps(m, id);
    case Close => CloseKeeps(m);
    case Stop => if !m.disposed { ClearedKeeps(m, Dispose(m)); }
    case Arrive(key, r) => if m.flights[key].ListFlight? { ListReplyKeeps(m, key, r); } else { DetailReplyKeeps(m, key, r); }
  }

  predicate SourceOk(t: Traced)
  {
    t.m.view.items != [] ==> SignedIn(t.m.session) && t.source == Token(t.m)
  }

  predicate KeepsOrClears(m: Model, n: Model)
  {
    n.view.items == [] || (n.session == m.session && n.view.items == m.view.items)
  }

  // An event keeps the items and the session, clears the items, or is the
  // reply to a request of the session in force.
  lemma ItemsChange(m: Model, e: Event)
    requires Inv(m) && Step(m, e).Some?
    ensures var n := Step(m, e).value;
            KeepsOrClears(m, n) || (e.Arrive? && n.session == m.session && SignedIn(m.session)
              && m.flights[e.key].token == Token(m))
  {
    match e
    case Arrive(key, r) =>
      var f := m.flights[key];
      assert Current(m, f) ==> Relevant(m, f);
      hide Inv, Without, Replaced, Overlap, Fits, Matches;
    case _ => hide Base, CurrentOk, ItemsOk, FlagsOk, HasId;
  }

  lemma {:induction false} RunKeeps(t: Traced, es: seq<Event>)
    requires Inv(t.m) && SourceOk(t) && Run(t, es).Some?
    ensures Inv(Run(t, es).value.m) && SourceOk(Run(t, es).value)
    decreases |es|
  {
    hide Inv, Step;
    if es != [] {
      StepKeeps(t.m, es[0]);
      ItemsChange(t.m, es[0]);
      RunKeeps(TracedStep(t, es[0]).value, es[1..]);
    }
  }

  lemma Reachable(session: Option<string>, es: seq<Event>)
    requires Run(Opened(session), es).Some?
    ensures Inv(Run(Opened(session), es).value.m) && SourceOk(Run(Opened(session), es).value)
  {
    assert Inv(Created(session));
    RunKeeps(Opened(session), es);
  }

  // ---- The guarantees, in every interleaving ----

  // Shown orders have distinct IDs, match the filter selected now, even after a
  // detail showed that an order had changed, and came from a request made with
  // the session in force now.
  lemma ShownOrdersMatch(session: Option<string>, es: seq<Event>)
    requires Run(Opened(session), es).Some?
    ensures var t := Run(Opened(session), es).value;
            DistinctIds(t.m.view.items) && AllMatch(t.m.view.items, t.m.view.filter)
            && (t.m.view.items != [] ==> SignedIn(t.m.session) && t.source == Token(t.m))
  {
    Reachable(session, es);
  }

  // A loading state never lingers, and a detail is never awaited while the
  // list is reloaded.
  lemma LoadingIsPending(session: Option<string>, es: seq<Event>)
    requires Run(Opened(session), es).Some?
    ensures var m := Run(Opened(session), es).value.m;
            (m.view.status == Loading ==> Awaited(m, true, true)) && (m.view.loadingMore ==> Awaited(m, true, false))
            && (m.view.detailStatus == Loading ==> Awaited(m, false, false) && m.view.status != Loading)
  {
    Reachable(session, es);
  }

  // The reply to an outdated request changes what is shown exactly when it is
  // a refusal of the session in force and something is still shown.
  lemma StaleReplies(m: Model, key: nat, r: Reply)
    requires key in m.flights && Fits(m.flights[key], r) && !Current(m, m.flights[key])
    ensures Land(m, key, r).view != m.view
            <==> r == Error(LoginRequired) && m.flights[key].auth == m.sessionVersion
                 && m.view != Cleared(m.view).(status := Refused(LoginRequired))
    ensures m.flights[key].auth != m.sessionVersion ==> Land(m, key, r) == Taken(m, key)
  {
  }

  lemma {:induction false} RunAppend(t: Traced, es: seq<Event>, fs: seq<Event>)
    requires Run(t, es).Some?
    ensures Run(t, es + fs) == Run(Run(t, es).value, fs)
    decreases |es|
  {
    hide Step;
    if es == [] {
      assert es + fs == fs;
    } else {
      assert (es + fs)[0] == es[0] && (es + fs)[1..] == es[1..] + fs;
      RunAppend(TracedStep(t, es[0]).value, es[1..], fs);
    }
  }

  lemma DisposedStep(m: Model, e: Event)
    requires Inv(m) && m.disposed && Step(m, e).Some?
    ensures Step(m, e).value.disposed && Step(m, e).value.view == m.view
  {
    if e.Arrive? {
      var f := m.flights[e.key];
      assert Bounded(m, f) && (Current(m, f) ==> Relevant(m, f));
      hide Inv, Fits;
    }
  }

  lemma {:induction false} DisposedRun(t: Traced, es: seq<Event>)
    requires Inv(t.m) && t.m.disposed && Run(t, es).Some?
    ensures Run(t, es).value.m.view == t.m.view
    decreases |es|
  {
    hide Inv, Step;
    if es != [] {
      StepKeeps(t.m, es[0]);
      DisposedStep(t.m, es[0]);
      DisposedRun(TracedStep(t, es[0]).value, es[1..]);
    }
  }

  // After dispose nothing observable changes any more.
  lemma NothingAfterDispose(session: Option<string>, es: seq<Event>, fs: seq<Event>)
    requires Run(Opened(session), es).Some? && Run(Opened(session), es + fs).Some?
             && Run(Opened(session), es).value.m.disposed
    ensures Run(Opened(session), es + fs).value.m.view == Run(Opened(session), es).value.m.view
  {
    Reachable(session, es);
    RunAppend(Opened(session), es, fs);
    DisposedRun(Run(Opened(session), es).value, fs);
  }
}
