// apps/client/src/features/promotion/materials-model.ts: the view model of the
// material catalog. An awaited request is a pending `Flight`; its continuation
// runs when the reply arrives. Each action is given as a function of the whole
// model; MaterialsViewModel has the assignments of the source.
module MaterialsModel {
  import opened Wrappers
  import Catalog = MaterialCatalog

  datatype Kind = LoginRequired | Unavailable | Failed

  datatype Status = Idle | PositionRequired | Loading | Ready | Empty | Blocked | NotFound | Refused(kind: Kind)

  datatype Scope = Scope(platform: string, kind: string, terminal: string, positionId: string, scene: string,
    cityCode: Option<string>, business: Option<string>)

  datatype Capability = Capability(allowed: bool, reason: string)

  datatype Message = NoMessage | Of(kind: Kind) | GoneMessage

  datatype Detail = Detail(item: Option<Catalog.Card>, capability: Capability, available: bool, reason: string)

  datatype View = View(platform: string, kind: string, scope: Option<Scope>, status: Status, items: seq<Catalog.Card>,
    capability: Option<Capability>, reason: string, cursor: string, loadingMore: bool, error: Option<Kind>,
    pageError: Option<Kind>, notice: bool, detailId: Option<nat>, detail: Option<Detail>, detailStatus: Status,
    detailError: Message, detailReason: string)

  datatype Flight =
    | ListFlight(reset: bool, scope: Scope, cursor: string, version: nat, auth: nat, token: string)
    | DetailFlight(id: nat, scope: Scope, version: nat, auth: nat, token: string)

  datatype Reply =
    | Page(items: seq<Catalog.Card>, nextCursor: string, pageCapability: Capability)
    | Got(detail: Detail)
    | Error(kind: Kind)

  // The session is null or a token; null and "" both mean signed out.
  datatype Model = Model(view: View, listVersion: nat, detailVersion: nat, sessionVersion: nat, rejected: Option<string>,
    disposed: bool, session: Option<string>, flights: map<nat, Flight>, nextFlight: nat)

  const START := View("JD", "PRODUCT", None, Refused(LoginRequired), [], None, "", "", false, None, None, false, None,
    None, Idle,
                      NoMessage, "")

  // ---- What the API guarantees of a reply it resolves with ----

  function PlatformCode(platform: string): string
  {
    if platform == "TAOBAO" then "TB" else if platform == "MEITUAN" then "MT" else platform
  }

  function OrEmpty(text: Option<string>): string
  {
    if text.Some? then text.value else ""
  }

  // materials-api.ts:49-58, the checks that tie a card to the scope asked for.
  predicate InScope(c: Catalog.Card, scope: Scope)
  {
    c.platform == PlatformCode(scope.platform) && c.kind == scope.kind
      && (c.business == "" || c.business == OrEmpty(scope.business))
    && scope.terminal in c.terminals
    && (c.region.mode == Catalog.Nationwide
      || (c.region.mode == Catalog.Cities && OrEmpty(scope.cityCode) in c.region.cityCodes))
  }

  predicate AllInScope(items: seq<Catalog.Card>, scope: Scope)
  {
    forall i | 0 <= i < |items| :: InScope(items[i], scope)
  }

  predicate DistinctIds(items: seq<Catalog.Card>)
  {
    forall i, j | 0 <= i < j < |items| :: items[i].id != items[j].id
  }

  predicate Fits(f: Flight, r: Reply)
  {
    match r
    case Page(items, next, cap) => f.ListFlight? && DistinctIds(items) && AllInScope(items, f.scope)
      && (!cap.allowed ==> items == [] && next == "")
    case Got(d) => f.DetailFlight? && (d.available ==> d.capability.allowed) && (d.item.Some? <==> d.available)
                   && (d.item.Some? ==> d.item.value.id == f.id && InScope(d.item.value, f.scope))
    case Error(_) => true
  }

  // ---- The actions as functions ----

  predicate SignedIn(session: Option<string>)
  {
    session.Some? && session.value != ""
  }

  predicate HasId(items: seq<Catalog.Card>, id: nat)
  {
    exists i | 0 <= i < |items| :: items[i].id == id
  }

  predicate Overlap(a: seq<Catalog.Card>, b: seq<Catalog.Card>)
  {
    exists i | 0 <= i < |a| :: HasId(b, a[i].id)
  }

  function Without(items: seq<Catalog.Card>, id: nat): seq<Catalog.Card>
  {
    if items == [] then []
    else (if items[0].id == id then [] else [items[0]]) + Without(items[1..], id)
  }

  function Replaced(items: seq<Catalog.Card>, c: Catalog.Card): seq<Catalog.Card>
  {
    seq(|items|, i requires 0 <= i < |items| => if items[i].id == c.id then c else items[i])
  }

  function DetailCleared(v: View): View
  {
    v.(detailId := None, detail := None, detailStatus := Idle, detailError := NoMessage, detailReason := "")
  }

  function Cleared(v: View, clearScope: bool): View
  {
    DetailCleared(v).(items := [], cursor := "", loadingMore := false, capability := None, reason := "", error := None,
                      pageError := None, notice := false, scope := if clearScope then None else v.scope)
  }

  function ClearDetail(m: Model): Model
  {
    m.(view := DetailCleared(m.view), detailVersion := m.detailVersion + 1)
  }

  function ClearData(m: Model, clearScope: bool): Model
  {
    m.(view := Cleared(m.view, clearScope), listVersion := m.listVersion + 1, detailVersion := m.detailVersion + 1)
  }

  function WithStatus(m: Model, status: Status): Model
  {
    m.(view := m.view.(status := status))
  }

  function RequireLogin(m: Model): Model
  {
    WithStatus(ClearData(m.(rejected := m.session), true), Refused(LoginRequired))
  }

  predicate Supported(platform: string, kind: string)
  {
    platform in {"JD", "TAOBAO", "MEITUAN"} && kind in {"PRODUCT", "ACTIVITY"}
      && (platform != "MEITUAN" || kind == "ACTIVITY")
  }

  predicate MayAsk(m: Model)
  {
    SignedIn(m.session) && m.session != m.rejected
  }

  function WaitingStatus(m: Model): Status
  {
    if !MayAsk(m) then Refused(LoginRequired)
    else if !Supported(m.view.platform, m.view.kind) then Refused(Unavailable)
    else PositionRequired
  }

  predicate HasPlace(scope: Option<Scope>)
  {
    scope.Some? && scope.value.positionId != "" && scope.value.scene != ""
  }

  predicate Readable(m: Model)
  {
    !m.disposed && MayAsk(m) && Supported(m.view.platform, m.view.kind) && HasPlace(m.view.scope)
  }

  lemma ReadableHasScope(m: Model)
    requires Readable(m)
    ensures m.view.scope.Some?
  {
  }

  // What canRead leaves behind when it says no.
  function Unreadable(m: Model): Model
  {
    if m.disposed then m
    else if !MayAsk(m) then RequireLogin(m)
    else if !Supported(m.view.platform, m.view.kind) then WithStatus(m, Refused(Unavailable))
    else WithStatus(m, PositionRequired)
  }

  function Launch(m: Model, f: Flight): Model
  {
    m.(flights := m.flights[m.nextFlight := f], nextFlight := m.nextFlight + 1)
  }

  function Token(m: Model): string
  {
    OrEmpty(m.session)
  }

  function Load(m: Model, reset: bool): Model
  {
    if !Readable(m) then Unreadable(m)
    else if !reset && (m.view.loadingMore || m.view.cursor == "" || m.view.status != Ready) then m
    else
      var cursor := if reset then "" else m.view.cursor;
      var n := if reset then WithStatus(ClearData(m, false), Loading) else m.(view := m.view.(loadingMore := true));
      var o := n.(view := n.view.(pageError := None), listVersion := n.listVersion + 1);
      Launch(o, ListFlight(reset, m.view.scope.value, cursor, o.listVersion, m.sessionVersion, Token(m)))
  }

  function DenyCatalog(m: Model, cap: Capability): Model
  {
    var n := ClearData(m, false);
    n.(view := n.view.(capability := Some(cap), reason := cap.reason, status := Blocked))
  }

  function Shown(v: View): Status
  {
    if v.items != [] then Ready else Empty
  }

  predicate BadPage(m: Model, f: Flight, items: seq<Catalog.Card>, next: string)
    requires f.ListFlight?
  {
    !f.reset && (Overlap(items, m.view.items) || (next != "" && next == f.cursor))
  }

  // The `finally` of load.
  function Settled(m: Model, version: nat): Model
  {
    if version == m.listVersion then m.(view := m.view.(loadingMore := false)) else m
  }

  function ListFailed(m: Model, f: Flight, kind: Kind): Model
    requires f.ListFlight?
  {
    Settled(if f.auth == m.sessionVersion && kind == LoginRequired then RequireLogin(m)
            else if f.version != m.listVersion then m
            else if f.reset then m.(view := m.view.(status := Refused(kind), error := Some(kind)))
            else m.(view := m.view.(pageError := Some(kind))),
            f.version)
  }

  function ListReplied(m: Model, f: Flight, r: Reply): Model
    requires f.ListFlight?
  {
    match r
    case Page(items, next, cap) =>
      if f.version != m.listVersion then m
      else if !cap.allowed then Settled(DenyCatalog(m, cap), f.version)
      else if BadPage(m, f, items, next) then ListFailed(m, f, Failed)
      else
        var all := if f.reset then items else m.view.items + items;
        Settled(m.(view := m.view.(items := all, cursor := next, capability := Some(cap), reason := "",
                                   status := if all != [] then Ready else Empty)), f.version)
    case Error(kind) => ListFailed(m, f, kind)
    case Got(_) => m
  }

  function OpenDetail(m: Model, id: nat): Model
  {
    if !Readable(m) then Unreadable(m)
    else if m.view.status != Ready || !HasId(m.view.items, id) then m
    else
      var n := m.(detailVersion := m.detailVersion + 1,
                  view := m.view.(detailId := Some(id), detail := None, detailStatus := Loading,
                    detailError := NoMessage, detailReason := ""));
      Launch(n, DetailFlight(id, m.view.scope.value, n.detailVersion, m.sessionVersion, Token(m)))
  }

  function DetailShown(v: View, id: nat, d: Detail): View
  {
    var w := v.(loadingMore := false, cursor := "", pageError := None, notice := true, capability := Some(d.capability));
    var x := if !d.available || d.item.None? then
               w.(items := Without(w.items, id), detailStatus := NotFound, detailReason := d.reason,
                 detailError := GoneMessage)
             else w.(items := Replaced(w.items, d.item.value), detail := Some(d), detailStatus := Ready);
    x.(status := Shown(x))
  }

  function DetailReplied(m: Model, f: Flight, r: Reply): Model
    requires f.DetailFlight?
  {
    match r
    case Got(d) =>
      if f.version != m.detailVersion then m
      else if !d.capability.allowed then DenyCatalog(m, d.capability)
      else m.(listVersion := m.listVersion + 1, view := DetailShown(m.view, f.id, d))
    case Error(kind) =>
      if f.auth == m.sessionVersion && kind == LoginRequired then RequireLogin(m)
      else if f.version != m.detailVersion then m
      else m.(view := m.view.(detailStatus := Refused(kind), detailError := Of(kind)))
    case Page(_, _, _) => m
  }

  function SelectPlatform(m: Model, platform: string): Model
  {
    if m.disposed || platform == m.view.platform then m
    else
      var n := ClearData(m, true);
      var o := n.(view := n.view.(platform := platform, kind := if platform == "MEITUAN" then "ACTIVITY" else "PRODUCT"));
      WithStatus(o, WaitingStatus(o))
  }

  function SelectType(m: Model, kind: string): Model
  {
    if m.disposed || kind == m.view.kind then m
    else
      var n := ClearData(m, true);
      var o := n.(view := n.view.(kind := kind));
      WithStatus(o, WaitingStatus(o))
  }

  function SetScope(m: Model, input: Option<Scope>): Model
  {
    if m.disposed then m
    else if input.None? then
      var n := ClearData(m, true); WithStatus(n, WaitingStatus(n))
    else if input.value.platform != m.view.platform || input.value.kind != m.view.kind then
      var n := ClearData(m, true); n.(view := n.view.(status := Refused(Failed), error := Some(Failed)))
    else if input == m.view.scope then m
    else
      var n := ClearData(m, true);
      var o := n.(view := n.view.(scope := input));
      Load(WithStatus(o, WaitingStatus(o)), true)
  }

  // The session changes; the watcher runs unless it was stopped.
  function SessionChanged(m: Model, session: Option<string>): Model
  {
    if session == m.session then m
    else if m.disposed then m.(session := session)
    else
      var n := ClearData(m.(session := session, sessionVersion := m.sessionVersion + 1, rejected := None), true);
      WithStatus(n, WaitingStatus(n))
  }

  function Dispose(m: Model): Model
  {
    if m.disposed then m
    else WithStatus(ClearData(m.(disposed := true, sessionVersion := m.sessionVersion + 1, rejected := None), true), Idle)
  }

  function CloseDetail(m: Model): Model
  {
    if m.disposed then m else ClearDetail(m)
  }

  function Created(session: Option<string>): Model
  {
    Model(START.(status := if SignedIn(session) then PositionRequired else Refused(LoginRequired)), 0, 0, 0, None,
      false, session, map[], 0)
  }

  // A reply reaches the continuation of its request.
  function Land(m: Model, key: nat, r: Reply): Model
    requires key in m.flights
  {
    var f := m.flights[key];
    var n := m.(flights := m.flights - {key});
    if f.ListFlight? then ListReplied(n, f, r) else DetailReplied(n, f, r)
  }
}
