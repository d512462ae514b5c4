// apps/client/src/features/promotion/orders-model.ts: the view model of a
// promoter's orders. As in MaterialsModel an awaited request is a pending
// flight; each action is a function of the whole model, and OrdersViewModel has
// the assignments of the source. Timestamps are compared as numbers.
module OrdersModel {
  import opened Wrappers

  datatype Kind = LoginRequired | MissingOrder | Unavailable | Failed

  datatype Status = Idle | Loading | Ready | Empty | Refused(kind: Kind)

  // An empty text filters nothing; a missing bound is None.
  datatype Filter = Filter(channel: Option<string>, positionId: Option<string>, orderStatus: Option<string>,
      from: Option<int>, to: Option<int>)

  datatype Order = Order(id: string, channel: string, maskedOrderId: string, orderStatus: string, positionId: string,
    attributionMethod: string, attributedAt: int, orderOccurredAt: int, statusAt: int)

  datatype Detail = Detail(summary: Order, history: seq<(string, string, int, int)>, refundEventCount: nat)

  datatype View = View(status: Status, items: seq<Order>, filter: Filter, cursor: string, loadingMore: bool,
      error: Option<Kind>,
    pageError: Option<Kind>, detailId: Option<string>, detail: Option<Detail>, detailStatus: Status,
      detailError: Option<Kind>)

  datatype Flight =
    | ListFlight(reset: bool, filter: Filter, cursor: string, version: nat, auth: nat, token: string)
    | DetailFlight(id: string, version: nat, auth: nat, token: string)

  datatype Reply = Page(items: seq<Order>, nextCursor: string) | Got(detail: Detail) | Error(kind: Kind)

  datatype Model = Model(view: View, listVersion: nat, detailVersion: nat, sessionVersion: nat, rejected: Option<string>,
    disposed: bool, session: Option<string>, flights: map<nat, Flight>, nextFlight: nat)

  const NO_FILTER := Filter(None, None, None, None, None)

  const START := View(Refused(LoginRequired), [], NO_FILTER, "", false, None, None, None, None, Idle, None)

  predicate Allows(wanted: Option<string>, value: string)
  {
    wanted.None? || wanted.value == "" || wanted.value == value
  }

  // orders-api.ts:31-40 and orders-model.ts:59-60: the filter as both apply it.
  predicate Matches(o: Order, f: Filter)
  {
    Allows(f.channel, o.channel) && Allows(f.positionId, o.positionId) && Allows(f.orderStatus, o.orderStatus)
    && (f.from.Some? ==> o.orderOccurredAt >= f.from.value) && (f.to.Some? ==> o.orderOccurredAt < f.to.value)
  }

  predicate AllMatch(items: seq<Order>, f: Filter)
  {
    forall i | 0 <= i < |items| :: Matches(items[i], f)
  }

  predicate DistinctIds(items: seq<Order>)
  {
    forall i, j | 0 <= i < j < |items| :: items[i].id != items[j].id
  }

  // What the API guarantees of a reply it resolves with.
  predicate Fits(f: Flight, r: Reply)
  {
    match r
    case Page(items, next) => f.ListFlight? && DistinctIds(items) && AllMatch(items, f.filter) && (items == [] ==> next == "")
    case Got(d) => f.DetailFlight? && d.summary.id == f.id
    case Error(_) => true
  }

  predicate SignedIn(session: Option<string>)
  {
    session.Some? && session.value != ""
  }

  predicate HasId(items: seq<Order>, id: string)
  {
    exists i | 0 <= i < |items| :: items[i].id == id
  }

  predicate Overlap(a: seq<Order>, b: seq<Order>)
  {
    exists i | 0 <= i < |a| :: HasId(b, a[i].id)
  }

  function Without(items: seq<Order>, id: string): seq<Order>
  {
    if items == [] then [] else (if items[0].id == id then [] else [items[0]]) + Without(items[1..], id)
  }

  function Replaced(items: seq<Order>, o: Order): seq<Order>
  {
    seq(|items|, i requires 0 <= i < |items| => if items[i].id == o.id then o else items[i])
  }

  // ---- The actions as functions ----

  function DetailCleared(v: View): View
  {
    v.(detailId := None, detail := None, detailStatus := Idle, detailError := None)
  }

  function CloseDetail(m: Model): Model
  {
    m.(view := DetailCleared(m.view), detailVersion := m.detailVersion + 1)
  }

  function Cleared(v: View): View
  {
    DetailCleared(v).(items := [], filter := NO_FILTER, cursor := "", loadingMore := false, error := None, pageError := None)
  }

  function ClearAll(m: Model): Model
  {
    m.(view := Cleared(m.view), listVersion := m.listVersion + 1, detailVersion := m.detailVersion + 1)
  }

  function WithStatus(m: Model, status: Status): Model
  {
    m.(view := m.view.(status := status))
  }

  function RequireLogin(m: Model): Model
  {
    WithStatus(ClearAll(m.(rejected := m.session)), Refused(LoginRequired))
  }

  predicate Readable(m: Model)
  {
    !m.disposed && SignedIn(m.session) && m.session != m.rejected
  }

  function Unreadable(m: Model): Model
  {
    if m.disposed then m else RequireLogin(m)
  }

  function Token(m: Model): string
  {
    if m.session.Some? then m.session.value else ""
  }

  function Launch(m: Model, f: Flight): Model
  {
    m.(flights := m.flights[m.nextFlight := f], nextFlight := m.nextFlight + 1)
  }

  function Load(m: Model, reset: bool): Model
  {
    if !Readable(m) then Unreadable(m)
    else if !reset && (m.view.loadingMore || m.view.cursor == "" || (m.view.status != Ready && m.view.status != Empty)) then m
    else
      var cursor := if reset then "" else m.view.cursor;
      var n := m.(listVersion := m.listVersion + 1);
      var o := if reset then
                 CloseDetail(n).(view := DetailCleared(n.view).(items := [], cursor := "", error := None,
                   status := Loading, loadingMore := false))
               else n.(view := n.view.(loadingMore := true));
      Launch(o.(view := o.view.(pageError := None)),
        ListFlight(reset, m.view.filter, cursor, n.listVersion, m.sessionVersion, Token(m)))
  }

  predicate BadPage(m: Model, f: Flight, items: seq<Order>, next: string)
    requires f.ListFlight?
  {
    !f.reset && (Overlap(items, m.view.items) || (next != "" && next == f.cursor))
  }

  function Settled(m: Model, version: nat): Model
  {
    if version == m.listVersion then m.(view := m.view.(loadingMore := false)) else m
  }

  function ListFailed(m: Model, f: Flight, kind: Kind): Model
    requires f.ListFlight?
  {
    Settled(if f.auth == m.sessionVersion && kind == LoginRequired then RequireLogin(m)
            else if f.version != m.listVersion then m
            else if f.reset then m.(view := m.view.(status := Refused(kind), error := Some(kind)))
            else m.(view := m.view.(pageError := Some(kind))),
            f.version)
  }

  function ListReplied(m: Model, f: Flight, r: Reply): Model
    requires f.ListFlight?
  {
    match r
    case Page(items, next) =>
      if f.version != m.listVersion then m
      else if BadPage(m, f, items, next) then ListFailed(m, f, Failed)
      else
        var all := if f.reset then items else m.view.items + items;
        Settled(m.(view := m.view.(items := all, cursor := next, status := if all != [] then Ready else Empty)), f.version)
    case Error(kind) => ListFailed(m, f, kind)
    case Got(_) => m
  }

  function SetFilter(m: Model, filter: Filter): Model
  {
    if m.disposed then m
    else if m.view.status != Idle && filter == m.view.filter then m
    else Load(m.(view := m.view.(filter := filter)), true)
  }

  function OpenDetail(m: Model, id: string): Model
  {
    if !Readable(m) then Unreadable(m)
    else if m.view.status != Ready || !HasId(m.view.items, id) then m
    else
      var n := m.(detailVersion := m.detailVersion + 1,
                  view := m.view.(detailId := Some(id), detail := None, detailStatus := Loading, detailError := None));
      Launch(n, DetailFlight(id, n.detailVersion, m.sessionVersion, Token(m)))
  }

  // The list around a detail that arrived: items kept, and what that leaves.
  function Rest(v: View, items: seq<Order>): View
  {
    v.(loadingMore := false, items := items, status := if items == [] then Empty else v.status)
  }

  function DetailReplied(m: Model, f: Flight, r: Reply): Model
    requires f.DetailFlight?
  {
    match r
    case Got(d) =>
      if f.version != m.detailVersion then m
      else
        var items := if Matches(d.summary, m.view.filter) then Replaced(m.view.items, d.summary)
          else Without(m.view.items, f.id);
        m.(listVersion := m.listVersion + 1, view := Rest(m.view.(detail := Some(d), detailStatus := Ready), items))
    case Error(kind) =>
      if f.auth == m.sessionVersion && kind == LoginRequired then RequireLogin(m)
      else if f.version != m.detailVersion then m
      else
        var v := m.view.(detailStatus := Refused(kind), detailError := Some(kind));
        if kind == MissingOrder then m.(listVersion := m.listVersion + 1, view := Rest(v, Without(v.items, f.id)))
        else m.(view := v)
    case Page(_, _) => m
  }

  function SessionChanged(m: Model, session: Option<string>): Model
  {
    if session == m.session then m
    else if m.disposed then m.(session := session)
    else
      var n := ClearAll(m.(session := session, sessionVersion := m.sessionVersion + 1, rejected := None));
      if SignedIn(session) then Load(WithStatus(n, Idle), true) else WithStatus(n, Refused(LoginRequired))
  }

  function Dispose(m: Model): Model
  {
    if m.disposed then m
    else WithStatus(ClearAll(m.(disposed := true, sessionVersion := m.sessionVersion + 1, rejected := None)), Idle)
  }

  function Created(session: Option<string>): Model
  {
    Model(START.(status := if SignedIn(session) then Idle else Refused(LoginRequired)), 0, 0, 0, None, false, session,
      map[], 0)
  }

  function Land(m: Model, key: nat, r: Reply): Model
    requires key in m.flights
  {
    var f := m.flights[key];
    var n := m.(flights := m.flights - {key});
    if f.ListFlight? then ListReplied(n, f, r) else DetailReplied(n, f, r)
  }
}
