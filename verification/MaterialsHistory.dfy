// What every interleaving of user actions, session changes and replies keeps.
module MaterialsHistory {
  import opened Wrappers
  import Catalog = MaterialCatalog
  import opened MaterialsModel

  datatype Event =
    | ChangeSession(session: Option<string>)
    | Platform(platform: string)
    | Type(kind: string)
    | Choose(scope: Option<Scope>)
    | Refresh
    | LoadMore
    | Open(id: nat)
    | Close
    | Stop
    | Arrive(key: nat, reply: Reply)

  function Step(m: Model, e: Event): Option<Model>
  {
    match e
    case ChangeSession(session) => Some(SessionChanged(m, session))
    case Platform(platform) => Some(SelectPlatform(m, platform))
    case Type(kind) => Some(SelectType(m, kind))
    case Choose(scope) => Some(SetScope(m, scope))
    case Refresh => Some(Load(m, true))
    case LoadMore => Some(Load(m, false))
    case Open(id) => Some(OpenDetail(m, id))
    case Close => Some(CloseDetail(m))
    case Stop => Some(Dispose(m))
    case Arrive(key, r) => if key in m.flights && Fits(m.flights[key], r) then Some(Land(m, key, r)) else None
  }

  // The model together with the token of the request its items came from.
  datatype Traced = Traced(m: Model, source: string)

  function TracedStep(t: Traced, e: Event): Option<Traced>
  {
    match Step(t.m, e)
    case None => None
    case Some(next) =>
      Some(Traced(next, if e.Arrive? && next.view.items != t.m.view.items then t.m.flights[e.key].token else t.source))
  }

  function Run(t: Traced, es: seq<Event>): Option<Traced>
    decreases |es|
  {
    if es == [] then Some(t)
    else match TracedStep(t, es[0])
      case None => None
      case Some(next) => Run(next, es[1..])
  }

  function Opened(session: Option<string>): Traced
  {
    Traced(Created(session), "")
  }

  // ---- Invariant ----

  predicate Current(m: Model, f: Flight)
  {
    f.version == if f.ListFlight? then m.listVersion else m.detailVersion
  }

  // A reply that still counts belongs to what is on the screen.
  predicate Relevant(m: Model, f: Flight)
  {
    Readable(m) && m.view.scope == Some(f.scope) && f.auth == m.sessionVersion && f.token == Token(m)
    && match f
       case ListFlight(reset, _, cursor, _, _, _) =>
         if reset then m.view.status == Loading else m.view.status == Ready && m.view.loadingMore && cursor == m.view.cursor
       case DetailFlight(id, _, _, _, _) => m.view.detailId == Some(id) && m.view.detailStatus == Loading
  }

  predicate FlightOk(m: Model, f: Flight)
  {
    f.version <= (if f.ListFlight? then m.listVersion else m.detailVersion) && f.auth <= m.sessionVersion
    && (f.auth == m.sessionVersion ==> !m.disposed) && (Current(m, f) ==> Relevant(m, f))
  }

  predicate FlightsOk(m: Model)
  {
    forall k | k in m.flights :: k < m.nextFlight && FlightOk(m, m.flights[k])
  }

  predicate VersionsDiffer(flights: map<nat, Flight>)
  {
    forall j, k | j in flights && k in flights && flights[j].ListFlight? == flights[k].ListFlight?
                  && flights[j].version == flights[k].version :: j == k
  }

  predicate ItemsOk(v: View)
  {
    DistinctIds(v.items) && (v.items != [] ==> v.scope.Some? && AllInScope(v.items, v.scope.value))
  }

  predicate Awaited(m: Model, list: bool, reset: bool)
  {
    exists k | k in m.flights :: Current(m, m.flights[k]) && m.flights[k].ListFlight? == list
      && (list ==> m.flights[k].reset == reset)
  }

  // A loading flag has a request in flight whose reply will be used.
  predicate FlagsOk(m: Model)
  {
    (m.view.status == Loading ==> Awaited(m, true, true)) && (m.view.loadingMore ==> Awaited(m, true, false))
    && (m.view.detailStatus == Loading ==> Awaited(m, false, false))
  }

  predicate Inv(m: Model)
  {
    FlightsOk(m) && VersionsDiffer(m.flights) && ItemsOk(m.view) && FlagsOk(m) && (m.disposed ==> m.view.items == [])
  }

  // ---- Steps ----

  // After everything was cleared no reply counts any more.
  predicate Quiet(m: Model)
  {
    (forall k | k in m.flights :: k < m.nextFlight && FlightOk(m, m.flights[k]) && !Current(m, m.flights[k]))
    && VersionsDiffer(m.flights) && m.view.items == [] && !m.view.loadingMore && m.view.detailStatus == Idle
  }

  lemma QuietIsFine(m: Model)
    requires Quiet(m) && m.view.status != Loading
    ensures Inv(m)
  {
  }

  // `n` differs from `m` in view, session and versions as ClearData and its
  // surroundings leave them.
  lemma ClearsToQuiet(m: Model, n: Model)
    requires FlightsOk(m) && VersionsDiffer(m.flights)
    requires n.flights == m.flights && n.nextFlight == m.nextFlight
    requires n.listVersion > m.listVersion && n.detailVersion > m.detailVersion && n.sessionVersion >= m.sessionVersion
    requires n.disposed ==> m.disposed || n.sessionVersion > m.sessionVersion
    requires n.view.items == [] && !n.view.loadingMore && n.view.detailStatus == Idle
    ensures Quiet(n)
  {
    hide Relevant;
    forall k | k in n.flights
      ensures k < n.nextFlight && FlightOk(n, n.flights[k]) && !Current(n, n.flights[k])
    {
      assert FlightOk(m, m.flights[k]);
    }
  }

  lemma RequireLoginKeeps(m: Model)
    requires FlightsOk(m) && VersionsDiffer(m.flights)
    ensures Inv(RequireLogin(m))
  {
    ClearsToQuiet(m, RequireLogin(m));
    QuietIsFine(RequireLogin(m));
  }

  lemma DenyKeeps(m: Model, cap: Capability)
    requires FlightsOk(m) && VersionsDiffer(m.flights)
    ensures Inv(DenyCatalog(m, cap))
  {
    ClearsToQuiet(m, DenyCatalog(m, cap));
    QuietIsFine(DenyCatalog(m, cap));
  }

  lemma NotReadableIsIdle(m: Model)
    requires Inv(m) && !Readable(m)
    ensures forall k | k in m.flights :: !Current(m, m.flights[k])
    ensures !m.view.loadingMore && m.view.status != Loading && m.view.detailStatus != Loading
  {
    forall k | k in m.flights
      ensures !Current(m, m.flights[k])
    {
      assert FlightOk(m, m.flights[k]);
    }
  }

  lemma UnreadableKeeps(m: Model)
    requires Inv(m) && !Readable(m)
    ensures Inv(Unreadable(m))
  {
    NotReadableIsIdle(m);
    if !m.disposed && !MayAsk(m) {
      RequireLoginKeeps(m);
    } else {
      var n := Unreadable(m);
      hide Relevant, Readable;
      forall k | k in n.flights
        ensures k < n.nextFlight && FlightOk(n, n.flights[k])
      {
        assert FlightOk(m, m.flights[k]);
      }
    }
  }

  // A new request for the newest version: the older ones no longer count.
  lemma LaunchKeeps(m: Model, n: Model, f: Flight)
    requires Quiet(m) || Inv(m)
    requires n.flights == m.flights && n.nextFlight == m.nextFlight && n.sessionVersion == m.sessionVersion
             && n.disposed == m.disposed
    requires if f.ListFlight? then n.listVersion > m.listVersion && n.detailVersion == m.detailVersion
             else n.detailVersion > m.detailVersion && n.listVersion == m.listVersion
    requires Current(n, f) && Relevant(n, f)
    requires ItemsOk(n.view)
    requires forall k | k in m.flights && m.flights[k].ListFlight? != f.ListFlight?
             && Current(m, m.flights[k]) :: Relevant(n, m.flights[k])
    requires f.ListFlight? ==>
               (n.view.status == Loading ==> f.reset) && (n.view.loadingMore ==> !f.reset)
                 && (n.view.detailStatus == Loading ==> Awaited(m, false, false))
    requires f.DetailFlight? ==>
               (n.view.status == Loading ==> Awaited(m, true, true)) && (n.view.loadingMore ==> Awaited(m, true, false))
    ensures Inv(Launch(n, f))
  {
    hide Relevant, Readable;
    var o := Launch(n, f);
    forall k | k in o.flights
      ensures k < o.nextFlight && FlightOk(o, o.flights[k])
    {
      if k in m.flights {
        assert FlightOk(m, m.flights[k]);
        RelevantIgnoresFlights(n, f, m.flights[k]);
      } else {
        RelevantIgnoresFlights(n, f, f);
      }
    }
    assert m.nextFlight !in m.flights;
    assert o.flights[m.nextFlight] == f && Current(o, f);
    forall j | j in m.flights
      ensures o.flights[j] == m.flights[j] && (m.flights[j].ListFlight? == f.ListFlight? ==> m.flights[j].version < f.version)
    {
      assert FlightOk(m, m.flights[j]);
    }
    RelevantIgnoresFlights(n, f, f);
    AwaitedStays(m, n, f, false, false);
    AwaitedStays(m, n, f, true, true);
    AwaitedStays(m, n, f, true, false);
  }

  lemma RelevantIgnoresFlights(n: Model, f: Flight, g: Flight)
    ensures Relevant(n, g) ==> Relevant(Launch(n, f), g) && !n.disposed && g.auth == n.sessionVersion
  {
  }

  lemma AwaitedStays(m: Model, n: Model, f: Flight, list: bool, reset: bool)
    requires n.flights == m.flights && n.nextFlight == m.nextFlight && m.nextFlight !in m.flights
    requires f.ListFlight? != list ==> if list then n.listVersion == m.listVersion else n.detailVersion == m.detailVersion
    ensures f.ListFlight? != list && Awaited(m, list, reset) ==> Awaited(Launch(n, f), list, reset)
  {
    if f.ListFlight? != list && Awaited(m, list, reset) {
      var k :| k in m.flights && Current(m, m.flights[k]) && m.flights[k].ListFlight? == list
        && (list ==> m.flights[k].reset == reset);
      assert Launch(n, f).flights[k] == m.flights[k] && Current(Launch(n, f), m.flights[k]);
    }
  }

  lemma LoadKeeps(m: Model, reset: bool)
    requires Inv(m) || (Quiet(m) && m.view.status != Loading)
    ensures Inv(Load(m, reset))
  {
    if Quiet(m) {
      QuietIsFine(m);
    }
    if !Readable(m) {
      UnreadableKeeps(m);
    } else if reset {
      ReloadKeeps(m);
    } else if !m.view.loadingMore && m.view.cursor != "" && m.view.status == Ready {
      MoreKeeps(m);
    }
  }

  lemma ReloadKeeps(m: Model)
    requires Inv(m) && Readable(m)
    ensures Inv(Load(m, true))
  {
    var c := WithStatus(ClearData(m, false), Loading);
    ClearsToQuiet(m, c);
    var n := c.(view := c.view.(pageError := None), listVersion := c.listVersion + 1);
    var f := ListFlight(true, m.view.scope.value, "", n.listVersion, m.sessionVersion, Token(m));
    assert Relevant(n, f);
    hide Relevant, Readable, FlightOk;
    LaunchKeeps(c, n, f);
  }

  lemma MoreKeeps(m: Model)
    requires Inv(m) && Readable(m) && !m.view.loadingMore && m.view.cursor != "" && m.view.status == Ready
    ensures Inv(Load(m, false))
  {
    var n := m.(view := m.view.(loadingMore := true, pageError := None), listVersion := m.listVersion + 1);
    var f := ListFlight(false, m.view.scope.value, m.view.cursor, n.listVersion, m.sessionVersion, Token(m));
    assert Relevant(n, f);
    forall k | k in m.flights && m.flights[k].DetailFlight? && Current(m, m.flights[k])
      ensures Relevant(n, m.flights[k])
    {
      assert FlightOk(m, m.flights[k]);
    }
    hide Relevant, Readable, FlightOk;
    LaunchKeeps(m, n, f);
  }

  lemma OpenKeeps(m: Model, id: nat)
    requires Inv(m)
    ensures Inv(OpenDetail(m, id))
  {
    if !Readable(m) {
      UnreadableKeeps(m);
    } else if m.view.status == Ready && HasId(m.view.items, id) {
      var n := m.(detailVersion := m.detailVersion + 1,
                  view := m.view.(detailId := Some(id), detail := None, detailStatus := Loading,
                    detailError := NoMessage, detailReason := ""));
      var f := DetailFlight(id, m.view.scope.value, n.detailVersion, m.sessionVersion, Token(m));
      assert Relevant(n, f);
      forall k | k in m.flights && m.flights[k].ListFlight? && Current(m, m.flights[k])
        ensures Relevant(n, m.flights[k])
      {
        assert FlightOk(m, m.flights[k]);
      }
      hide Relevant, Readable, FlightOk;
      LaunchKeeps(m, n, f);
    }
  }

  // ---- Replies ----

  // The request leaves the set of pending ones.
  function Taken(m: Model, key: nat): Model
  {
    m.(flights := m.flights - {key})
  }

  lemma TakenKeeps(m: Model, key: nat)
    requires Inv(m) && key in m.flights
    ensures FlightsOk(Taken(m, key)) && VersionsDiffer(Taken(m, key).flights) && ItemsOk(Taken(m, key).view)
    ensures !Current(m, m.flights[key]) ==> Inv(Taken(m, key))
    ensures Current(m, m.flights[key]) ==>
              forall k | k in m.flights && k != key
                && m.flights[k].ListFlight? == m.flights[key].ListFlight? :: !Current(m, m.flights[k])
  {
    var n := Taken(m, key);
    hide Readable;
    forall k | k in n.flights
      ensures k < n.nextFlight && FlightOk(n, n.flights[k])
    {
      assert FlightOk(m, m.flights[k]);
      assert Relevant(m, m.flights[k]) ==> Relevant(n, m.flights[k]) by { SameReadable(m, n); }
    }
    hide Relevant, FlightOk;
    if !Current(m, m.flights[key]) {
      TakenAwaited(m, key, true, true);
      TakenAwaited(m, key, true, false);
      TakenAwaited(m, key, false, false);
    }
  }

  lemma SameReadable(m: Model, n: Model)
    requires n == m.(flights := n.flights)
    ensures Readable(m) <==> Readable(n)
  {
  }

  lemma TakenAwaited(m: Model, key: nat, list: bool, reset: bool)
    requires key in m.flights && (!Current(m, m.flights[key]) || m.flights[key].ListFlight? != list)
    ensures Awaited(m, list, reset) ==> Awaited(Taken(m, key), list, reset)
  {
    if Awaited(m, list, reset) {
      var k :| k in m.flights && Current(m, m.flights[k]) && m.flights[k].ListFlight? == list
        && (list ==> m.flights[k].reset == reset);
      assert Taken(m, key).flights[k] == m.flights[k] && Current(Taken(m, key), m.flights[k]);
    }
  }

  // After the reply to the current list request: `n` is the model with that
  // request gone and its loading flag lowered.
  lemma ListSettles(m: Model, key: nat, n: Model)
    requires Inv(m) && key in m.flights && m.flights[key].ListFlight? && Current(m, m.flights[key])
    requires n == Taken(m, key).(view := n.view) && n.view.scope == m.view.scope && n.view.platform == m.view.platform
             && n.view.kind == m.view.kind && n.view.detailId == m.view.detailId && n.view.detailStatus == m.view.detailStatus
    requires n.view.status != Loading && !n.view.loadingMore && ItemsOk(n.view)
    ensures Inv(n)
  {
    TakenKeeps(m, key);
    forall k | k in n.flights
      ensures k < n.nextFlight && FlightOk(n, n.flights[k])
    {
      assert FlightOk(m, m.flights[k]);
    }
    hide Relevant, Readable, FlightOk;
    TakenAwaited(m, key, false, false);
    assert Awaited(Taken(m, key), false, false)
      ==> Awaited(n, false, false) by { SameAwaited(Taken(m, key), n, false, false); }
  }

  lemma SameAwaited(m: Model, n: Model, list: bool, reset: bool)
    requires n.flights == m.flights && n.listVersion == m.listVersion && n.detailVersion == m.detailVersion
    ensures Awaited(m, list, reset) ==> Awaited(n, list, reset)
  {
    if Awaited(m, list, reset) {
      var k :| k in m.flights && Current(m, m.flights[k]) && m.flights[k].ListFlight? == list
        && (list ==> m.flights[k].reset == reset);
      assert Current(n, n.flights[k]);
    }
  }

  lemma ListReplyKeeps(m: Model, key: nat, r: Reply)
    requires Inv(m) && key in m.flights && m.flights[key].ListFlight? && Fits(m.flights[key], r)
    ensures Inv(Land(m, key, r))
  {
    var f := m.flights[key];
    var t := Taken(m, key);
    TakenKeeps(m, key);
    if r.Error? && f.auth == m.sessionVersion && r.kind == LoginRequired {
      RequireLoginKeeps(t);
      assert Land(m, key, r) == RequireLogin(t);
    } else if Current(m, f) {
      assert FlightOk(m, f);
      if r.Page? && !r.pageCapability.allowed {
        DenyKeeps(t, r.pageCapability);
        assert Land(m, key, r) == DenyCatalog(t, r.pageCapability);
      } else {
        CurrentListReply(m, key, r);
        ListSettles(m, key, Land(m, key, r));
      }
    } else {
      assert Land(m, key, r) == t;
    }
  }

  lemma CurrentListReply(m: Model, key: nat, r: Reply)
    requires Inv(m) && key in m.flights && m.flights[key].ListFlight? && Fits(m.flights[key], r)
    requires Current(m, m.flights[key]) && Relevant(m, m.flights[key])
    requires r.Page? ==> r.pageCapability.allowed
    requires r.Error? ==> r.kind != LoginRequired
    ensures var n := Land(m, key, r);
            n == Taken(m, key).(view := n.view) && n.view.scope == m.view.scope && n.view.platform == m.view.platform
            && n.view.kind == m.view.kind && n.view.detailId == m.view.detailId && n.view.detailStatus == m.view.detailStatus
            && n.view.status != Loading && !n.view.loadingMore && ItemsOk(n.view)
  {
    hide FlightsOk, FlagsOk, VersionsDiffer, Readable, InScope;
    var f := m.flights[key];
    if r.Page? && !f.reset && !Overlap(r.items, m.view.items) {
      JoinDistinct(m.view.items, r.items);
    }
  }

  lemma JoinDistinct(a: seq<Catalog.Card>, b: seq<Catalog.Card>)
    requires DistinctIds(a) && DistinctIds(b) && !Overlap(b, a)
    ensures DistinctIds(a + b)
  {
    forall i, j | 0 <= i < |a| && 0 <= j < |b|
      ensures a[i].id != b[j].id
    {
      assert !HasId(a, b[j].id);
    }
  }

  lemma {:induction false} WithoutKeeps(items: seq<Catalog.Card>, id: nat, scope: Scope)
    ensures forall x | x in Without(items, id) :: x in items && x.id != id
    ensures DistinctIds(items) ==> DistinctIds(Without(items, id))
    ensures AllInScope(items, scope) ==> AllInScope(Without(items, id), scope)
  {
    hide InScope;
    if items != [] {
      WithoutKeeps(items[1..], id, scope);
      var rest := Without(items[1..], id);
      assert AllInScope(items, scope) ==> AllInScope(items[1..], scope);
      assert DistinctIds(items) ==> DistinctIds(items[1..]);
      if DistinctIds(items) && items[0].id != id {
        forall j | 0 <= j < |rest|
          ensures rest[j].id != items[0].id
        {
          assert rest[j] in rest;
          var i :| 0 <= i < |items[1..]| && items[1..][i] == rest[j];
          assert items[i + 1] == rest[j];
        }
      }
    }
  }

  lemma ReplacedKeeps(items: seq<Catalog.Card>, c: Catalog.Card, scope: Scope)
    requires DistinctIds(items) && AllInScope(items, scope) && InScope(c, scope)
    ensures DistinctIds(Replaced(items, c)) && AllInScope(Replaced(items, c), scope)
  {
    hide InScope;
  }

  lemma DetailReplyKeeps(m: Model, key: nat, r: Reply)
    requires Inv(m) && key in m.flights && m.flights[key].DetailFlight? && Fits(m.flights[key], r)
    ensures Inv(Land(m, key, r))
  {
    var f := m.flights[key];
    var t := Taken(m, key);
    TakenKeeps(m, key);
    if r.Error? && f.auth == m.sessionVersion && r.kind == LoginRequired {
      RequireLoginKeeps(t);
    } else if Current(m, f) {
      assert FlightOk(m, f);
      if r.Got? && !r.detail.capability.allowed {
        DenyKeeps(t, r.detail.capability);
      } else if r.Got? {
        DetailLands(m, key, r.detail);
      } else {
        DetailFails(m, key, r.kind);
      }
    }
  }

  lemma DetailLands(m: Model, key: nat, d: Detail)
    requires Inv(m) && key in m.flights && m.flights[key].DetailFlight? && Fits(m.flights[key], Got(d))
             && d.capability.allowed
    requires Current(m, m.flights[key]) && Relevant(m, m.flights[key])
    ensures Inv(Land(m, key, Got(d)))
  {
    var f := m.flights[key];
    var n := Land(m, key, Got(d));
    TakenKeeps(m, key);
    WithoutKeeps(m.view.items, f.id, f.scope);
    if d.available && m.view.items != [] {
      ReplacedKeeps(m.view.items, d.item.value, f.scope);
    }
    hide AllInScope, DistinctIds, InScope, Without, Replaced, Readable, Relevant;
    assert ItemsOk(n.view) by { Empties(f.id); }
    forall k | k in n.flights
      ensures k < n.nextFlight && FlightOk(n, n.flights[k])
    {
      assert FlightOk(m, m.flights[k]);
    }
  }

  lemma Empties(id: nat)
    ensures Without([], id) == []
    ensures forall c :: Replaced([], c) == []
    ensures DistinctIds([])
  {
  }

  lemma DetailFails(m: Model, key: nat, kind: Kind)
    requires Inv(m) && key in m.flights && m.flights[key].DetailFlight?
    requires Current(m, m.flights[key]) && (m.flights[key].auth != m.sessionVersion || kind != LoginRequired)
    ensures Inv(Land(m, key, Error(kind)))
  {
    var n := Land(m, key, Error(kind));
    TakenKeeps(m, key);
    forall k | k in n.flights
      ensures k < n.nextFlight && FlightOk(n, n.flights[k])
    {
      assert FlightOk(m, m.flights[k]);
    }
    hide Relevant, Readable, FlightOk;
    TakenAwaited(m, key, true, true);
    TakenAwaited(m, key, true, false);
    SameAwaited(Taken(m, key), n, true, true);
    SameAwaited(Taken(m, key), n, true, false);
  }

  // ---- Every event keeps the invariant ----

  lemma ClearedKeeps(m: Model, n: Model)
    requires Inv(m) && n.flights == m.flights && n.nextFlight == m.nextFlight
    requires n.listVersion > m.listVersion && n.detailVersion > m.detailVersion && n.sessionVersion >= m.sessionVersion
    requires n.disposed ==> m.disposed || n.sessionVersion > m.sessionVersion
    requires n.view.items == [] && !n.view.loadingMore && n.view.detailStatus == Idle && n.view.status != Loading
    ensures Inv(n) && Quiet(n)
  {
    ClearsToQuiet(m, n);
    QuietIsFine(n);
  }

  lemma CloseKeeps(m: Model)
    requires Inv(m)
    ensures Inv(CloseDetail(m))
  {
    if !m.disposed {
      var n := ClearDetail(m);
      forall k | k in n.flights
        ensures k < n.nextFlight && FlightOk(n, n.flights[k])
      {
        assert FlightOk(m, m.flights[k]);
      }
      hide Relevant, Readable, FlightOk;
      AwaitedWithoutDetail(m, n, true);
      AwaitedWithoutDetail(m, n, false);
    }
  }

  lemma AwaitedWithoutDetail(m: Model, n: Model, reset: bool)
    requires n.flights == m.flights && n.listVersion == m.listVersion
    ensures Awaited(m, true, reset) ==> Awaited(n, true, reset)
  {
    if Awaited(m, true, reset) {
      var k :| k in m.flights && Current(m, m.flights[k]) && m.flights[k].ListFlight? && m.flights[k].reset == reset;
      assert Current(n, n.flights[k]);
    }
  }

  lemma SessionOfDisposedKeeps(m: Model, session: Option<string>)
    requires Inv(m) && m.disposed
    ensures Inv(m.(session := session))
  {
    var n := m.(session := session);
    hide FlagsOk;
    assert !Readable(m);
    NotReadableIsIdle(m);
    forall k | k in n.flights
      ensures k < n.nextFlight && FlightOk(n, n.flights[k])
    {
      assert FlightOk(m, m.flights[k]);
    }
    assert FlagsOk(n) by { NoFlags(n); }
  }

  lemma NoFlags(m: Model)
    ensures m.view.status != Loading && !m.view.loadingMore && m.view.detailStatus != Loading ==> FlagsOk(m)
  {
  }

  lemma ScopeKeeps(m: Model, input: Option<Scope>)
    requires Inv(m)
    ensures Inv(SetScope(m, input))
  {
    hide Inv, Quiet, Load, Relevant;
    if !m.disposed && (input.None? || input != m.view.scope || input.value.platform != m.view.platform
      || input.value.kind != m.view.kind) {
      var n := ClearData(m, true);
      var o := n.(view := n.view.(scope := input));
      ClearedKeeps(m, WithStatus(n, WaitingStatus(n)));
      ClearedKeeps(m, n.(view := n.view.(status := Refused(Failed), error := Some(Failed))));
      ClearedKeeps(m, WithStatus(o, WaitingStatus(o)));
      LoadKeeps(WithStatus(o, WaitingStatus(o)), true);
    }
  }

  lemma StepKeeps(m: Model, e: Event)
    requires Inv(m) && Step(m, e).Some?
    ensures Inv(Step(m, e).value)
  {
    hide Inv, Quiet, Load, OpenDetail, CloseDetail, SetScope, Land, Fits;
    var n := Step(m, e).value;
    match e
    case ChangeSession(session) =>
      if session != m.session {
        if m.disposed {
          SessionOfDisposedKeeps(m, session);
        } else {
          ClearedKeeps(m, n);
        }
      }
    case Platform(platform) => if !m.disposed && platform != m.view.platform { ClearedKeeps(m, n); }
    case Type(kind) => if !m.disposed && kind != m.view.kind { ClearedKeeps(m, n); }
    case Choose(scope) => ScopeKeeps(m, scope);
    case Refresh => LoadKeeps(m, true);
    case LoadMore => LoadKeeps(m, false);
    case Open(id) => OpenKeeps(m, id);
    case Close => CloseKeeps(m);
    case Stop => if !m.disposed { ClearedKeeps(m, n); }
    case Arrive(key, r) => if m.flights[key].ListFlight? { ListReplyKeeps(m, key, r); } else { DetailReplyKeeps(m, key, r); }
  }

  // Items come from the session in force.
  predicate SourceOk(t: Traced)
  {
    t.m.view.items != [] ==> SignedIn(t.m.session) && t.source == Token(t.m)
  }

  predicate KeepsOrClears(m: Model, n: Model)
  {
    n.view.items == [] || (n.session == m.session && n.view.items == m.view.items)
  }

  lemma LoadItems(m: Model, reset: bool)
    ensures KeepsOrClears(m, Load(m, reset))
  {
    hide HasPlace, Supported, MayAsk;
  }

  lemma ReplyItems(m: Model, key: nat, r: Reply)
    requires Inv(m) && key in m.flights && Fits(m.flights[key], r)
    ensures var n := Land(m, key, r);
            KeepsOrClears(m, n) || (n.session == m.session && SignedIn(m.session) && m.flights[key].token == Token(m))
  {
    var f := m.flights[key];
    assert FlightOk(m, f);
    hide Inv, Without, Replaced, Overlap, Fits, DistinctIds, HasPlace, Supported;
    if Current(m, f) {
      assert SignedIn(m.session) && f.token == Token(m);
    }
  }

  // An event keeps the items and the session, clears the items, or is the
  // reply to a request of the session in force.
  lemma ItemsChange(m: Model, e: Event)
    requires Inv(m) && Step(m, e).Some?
    ensures var n := Step(m, e).value;
            KeepsOrClears(m, n) || (e.Arrive? && n.session == m.session && SignedIn(m.session)
              && m.flights[e.key].token == Token(m))
  {
    match e
    case Arrive(key, r) => ReplyItems(m, key, r);
    case Refresh => LoadItems(m, true);
    case LoadMore => LoadItems(m, false);
    case Choose(scope) =>
      var n := ClearData(m, true);
      var o := n.(view := n.view.(scope := scope));
      LoadItems(WithStatus(o, WaitingStatus(o)), true);
      hide Inv, Load;
    case _ => hide Inv, HasId, HasPlace, Supported;
  }

  lemma {:induction false} RunKeeps(t: Traced, es: seq<Event>)
    requires Inv(t.m) && SourceOk(t) && Run(t, es).Some?
    ensures Inv(Run(t, es).value.m) && SourceOk(Run(t, es).value)
    decreases |es|
  {
    hide Inv, Step;
    if es != [] {
      StepKeeps(t.m, es[0]);
      ItemsChange(t.m, es[0]);
      RunKeeps(TracedStep(t, es[0]).value, es[1..]);
    }
  }

  lemma Reachable(session: Option<string>, es: seq<Event>)
    requires Run(Opened(session), es).Some?
    ensures Inv(Run(Opened(session), es).value.m) && SourceOk(Run(Opened(session), es).value)
  {
    var m := Created(session);
    assert Inv(m);
    RunKeeps(Opened(session), es);
  }

  // ---- The guarantees, in every interleaving ----

  // Shown items have distinct IDs, belong to the scope selected now, and came
  // from a request made with the session in force now.
  lemma ShownItemsBelong(session: Option<string>, es: seq<Event>)
    requires Run(Opened(session), es).Some? && Run(Opened(session), es).value.m.view.items != []
    ensures var t := Run(Opened(session), es).value;
            DistinctIds(t.m.view.items) && t.m.view.scope.Some? && AllInScope(t.m.view.items, t.m.view.scope.value)
            && SignedIn(t.m.session) && t.source == Token(t.m)
  {
    Reachable(session, es);
  }

  // A loading state never lingers: the request it stands for is pending, and
  // its reply will be used.
  lemma LoadingIsPending(session: Option<string>, es: seq<Event>)
    requires Run(Opened(session), es).Some?
    ensures var m := Run(Opened(session), es).value.m;
            (m.view.status == Loading ==> Awaited(m, true, true)) && (m.view.loadingMore ==> Awaited(m, true, false))
            && (m.view.detailStatus == Loading ==> Awaited(m, false, false))
  {
    Reachable(session, es);
  }

  // The reply to an outdated request changes what is shown exactly when it is
  // a refusal of the session in force and something is still shown; then the
  // user is asked to log in again.
  lemma StaleReplies(m: Model, key: nat, r: Reply)
    requires key in m.flights && Fits(m.flights[key], r) && !Current(m, m.flights[key])
    ensures Land(m, key, r).view != m.view
            <==> r == Error(LoginRequired) && m.flights[key].auth == m.sessionVersion
                 && m.view != Cleared(m.view, true).(status := Refused(LoginRequired))
    ensures m.flights[key].auth != m.sessionVersion ==> Land(m, key, r) == Taken(m, key)
  {
  }

  lemma {:induction false} RunAppend(t: Traced, es: seq<Event>, fs: seq<Event>)
    requires Run(t, es).Some?
    ensures Run(t, es + fs) == Run(Run(t, es).value, fs)
    decreases |es|
  {
    hide Step;
    if es == [] {
      assert es + fs == fs;
    } else {
      assert (es + fs)[0] == es[0] && (es + fs)[1..] == es[1..] + fs;
      RunAppend(TracedStep(t, es[0]).value, es[1..], fs);
    }
  }

  lemma DisposedStep(m: Model, e: Event)
    requires Inv(m) && m.disposed && Step(m, e).Some?
    ensures Step(m, e).value.disposed && Step(m, e).value.view == m.view
  {
    if e.Arrive? {
      assert FlightOk(m, m.flights[e.key]);
      hide Inv, Fits;
    }
  }

  lemma {:induction false} DisposedRun(t: Traced, es: seq<Event>)
    requires Inv(t.m) && t.m.disposed && Run(t, es).Some?
    ensures Run(t, es).value.m.view == t.m.view
    decreases |es|
  {
    hide Inv, Step;
    if es != [] {
      StepKeeps(t.m, es[0]);
      DisposedStep(t.m, es[0]);
      DisposedRun(TracedStep(t, es[0]).value, es[1..]);
    }
  }

  // After dispose nothing observable changes any more, whatever the user, the
  // session or late replies do.
  lemma NothingAfterDispose(session: Option<string>, es: seq<Event>, fs: seq<Event>)
    requires Run(Opened(session), es).Some? && Run(Opened(session), es + fs).Some?
             && Run(Opened(session), es).value.m.disposed
    ensures Run(Opened(session), es + fs).value.m.view == Run(Opened(session), es).value.m.view
  {
    Reachable(session, es);
    RunAppend(Opened(session), es, fs);
    DisposedRun(Run(Opened(session), es).value, fs);
  }
}
