// internal/material: one promotion material row, the predicate that decides
// whether it may be shown (model.go), the single read (detail.go) and the
// refilling page read (repository.go). A table is a snapshot in ID order; an ID
// is the 128-bit number of its UUID, 0 being the nil UUID. Times are seconds
// since Go's zero time.
module MaterialCatalog {
  import opened Wrappers
  import opened Text

  datatype RegionMode = Nationwide | Cities | OtherMode

  datatype Region = Region(mode: RegionMode, cityCodes: seq<string>)

  // A stored row; `startsAt` is NULL when None.
  datatype Row = Row(id: nat, platform: string, kind: string, externalMaterialId: string, canonicalUrl: string,
    title: string, status: string, startsAt: Option<int>, endsAt: int, sourceUpdatedAt: int, ruleVersion: string,
    evidenceRef: string, region: Region, business: string, terminals: seq<string>)

  datatype Scope = Scope(platform: string, kind: string, cityCode: string, business: string, terminal: string)

  datatype Card = Card(id: nat, platform: string, kind: string, title: string, startsAt: Option<int>, endsAt: int,
    sourceUpdatedAt: int, ruleVersion: string, region: Region, business: string, terminals: seq<string>)

  datatype Decision = Available | InvalidMaterial | InvalidContext | ScopeMismatch | NotActive | NotStarted | Expired
    | SourceNotCurrent | RegionMismatch | BusinessMismatch | TerminalMismatch | MaterialUnavailable | CapabilityUnavailable

  const UUID_LIMIT: nat := 0x1_0000_0000_0000_0000_0000_0000_0000_0000

  // Years 0 to 9999, outside which Time.MarshalJSON fails.
  const FIRST_TIME := -31_622_400
  const END_OF_TIME := 315_537_897_600

  predicate PlatformKind(platform: string, kind: string)
  {
    (platform == "JD" || platform == "TB" || platform == "MT") && (kind == "PRODUCT" || kind == "ACTIVITY")
    && (platform != "MT" || kind == "ACTIVITY")
  }

  predicate Terminal(value: string)
  {
    value == "H5" || value == "WX_MINI"
  }

  predicate Distinct<T(==)>(xs: seq<T>)
  {
    forall i, j | 0 <= i < j < |xs| :: xs[i] != xs[j]
  }

  predicate ValidRegion(region: Region)
  {
    match region.mode
    case Nationwide => region.cityCodes == []
    case Cities =>
      1 <= |region.cityCodes| <= 64 && Distinct(region.cityCodes)
      && forall i | 0 <= i < |region.cityCodes| :: ValidLabel(region.cityCodes[i], 32, false)
    case OtherMode => false
  }

  // model.go:76-95, with the set of codes already seen.
  method CheckRegion(region: Region) returns (ok: bool)
    ensures ok <==> ValidRegion(region)
  {
    match region.mode {
      case Nationwide => return |region.cityCodes| == 0;
      case OtherMode => return false;
      case Cities =>
        var codes := region.cityCodes;
        if |codes| == 0 || |codes| > 64 {
          return false;
        }
        var seen: set<string> := {};
        for i := 0 to |codes|
          invariant forall x :: x in seen <==> x in codes[..i]
          invariant forall j | 0 <= j < i :: ValidLabel(codes[j], 32, false)
          invariant Distinct(codes[..i])
        {
          if !ValidLabel(codes[i], 32, false) || codes[i] in seen {
            assert codes[i] in seen ==> exists j :: 0 <= j < i && codes[..i][j] == codes[i];
            return false;
          }
          seen := seen + {codes[i]};
          assert codes[..i + 1] == codes[..i] + [codes[i]];
        }
        assert codes[..|codes|] == codes;
        return true;
    }
  }

  predicate ValidTime(t: int, optional: bool)
  {
    if t == 0 then optional else FIRST_TIME <= t < END_OF_TIME
  }

  predicate ValidTerminals(terminals: seq<string>)
  {
    1 <= |terminals| <= 2 && Distinct(terminals) && forall i | 0 <= i < |terminals| :: Terminal(terminals[i])
  }

  lemma TerminalsAre(terminals: seq<string>)
    ensures ValidTerminals(terminals)
            <==> terminals in {["H5"], ["WX_MINI"], ["H5", "WX_MINI"], ["WX_MINI", "H5"]}
  {
    if ValidTerminals(terminals) {
      assert terminals == [terminals[0]] || terminals == [terminals[0], terminals[1]];
    }
  }

  // StartsAt after scanning: NULL becomes the zero time.
  function StartOf(r: Row): int
  {
    if r.startsAt.Some? then r.startsAt.value else 0
  }

  // Validate; `urlOk` is the URL syntax check.
  predicate ValidRow(urlOk: string -> bool, r: Row)
  {
    0 < r.id < UUID_LIMIT && PlatformKind(r.platform, r.kind) && ValidLabel(r.externalMaterialId, 128, false)
    && urlOk(r.canonicalUrl) && ValidLabel(r.title, 256, false) && ValidLabel(r.ruleVersion, 80, false)
    && ValidLabel(r.evidenceRef, 128, false) && ValidLabel(r.business, 40, true) && ValidRegion(r.region)
    && r.status in {"DRAFT", "ACTIVE", "SUSPENDED", "REMOVED"} && ValidTerminals(r.terminals)
    && ValidTime(r.endsAt, false) && ValidTime(r.sourceUpdatedAt, false) && ValidTime(StartOf(r), r.kind == "PRODUCT")
    && (StartOf(r) != 0 ==> r.endsAt > StartOf(r))
  }

  predicate ValidContext(scope: Scope)
  {
    PlatformKind(scope.platform, scope.kind) && Terminal(scope.terminal)
    && ValidLabel(scope.cityCode, 32, true) && ValidLabel(scope.business, 40, true)
  }

  function Decide(urlOk: string -> bool, r: Row, scope: Scope, now: int): Decision
  {
    if !ValidRow(urlOk, r) then InvalidMaterial
    else if now == 0 || !ValidContext(scope) then InvalidContext
    else if scope.platform != r.platform || scope.kind != r.kind then ScopeMismatch
    else if r.status != "ACTIVE" then NotActive
    else if StartOf(r) > now then NotStarted
    else if !(now < r.endsAt) then Expired
    else if r.sourceUpdatedAt > now then SourceNotCurrent
    else if r.region.mode == Cities && scope.cityCode !in r.region.cityCodes then RegionMismatch
    else if r.business != "" && r.business != scope.business then BusinessMismatch
    else if scope.terminal !in r.terminals then TerminalMismatch
    else Available
  }

  function CardOf(r: Row): Card
  {
    Card(r.id, r.platform, r.kind, r.title, if StartOf(r) != 0 then Some(StartOf(r)) else None, r.endsAt,
         r.sourceUpdatedAt, r.ruleVersion, r.region, r.business, r.terminals)
  }

  // ---- The two SQL statements ----

  predicate InIdOrder(table: seq<Row>)
  {
    forall i, j | 0 <= i < j < |table| :: table[i].id < table[j].id
  }

  // Which rows List selects, repository.go:64-68, for an enabled owner.
  predicate Selected(r: Row, scope: Scope, after: nat, now: int)
  {
    r.platform == scope.platform && r.kind == scope.kind && r.status == "ACTIVE" && r.id > after
    && (r.startsAt.None? || r.startsAt.value <= now) && r.endsAt > now && r.sourceUpdatedAt <= now
    && (r.region.mode == Nationwide || (r.region.mode == Cities && scope.cityCode in r.region.cityCodes))
    && (r.business == "" || r.business == scope.business) && scope.terminal in r.terminals
  }

  function Matching(table: seq<Row>, scope: Scope, after: nat, now: int): seq<Row>
  {
    if table == [] then []
    else (if Selected(table[0], scope, after, now) then [table[0]] else []) + Matching(table[1..], scope, after, now)
  }

  // The EXISTS(...) clause: only an enabled owner sees any row.
  function Visible(table: seq<Row>, enabled: bool): seq<Row>
  {
    if enabled then table else []
  }

  // The first n by ID.
  function Query(table: seq<Row>, scope: Scope, after: nat, now: int, limit: nat): seq<Row>
  {
    var all := Matching(table, scope, after, now);
    if |all| <= limit then all else all[..limit]
  }

  function Find(table: seq<Row>, id: nat): Option<Row>
  {
    if table == [] then None else if table[0].id == id then Some(table[0]) else Find(table[1..], id)
  }

  // ---- What List and Get answer ----

  // The cards CardFor grants among these rows, in order.
  function Cards(urlOk: string -> bool, rows: seq<Row>, scope: Scope, now: int): seq<Card>
  {
    if rows == [] then []
    else (if Decide(urlOk, rows[0], scope, now) == Available then [CardOf(rows[0])] else [])
         + Cards(urlOk, rows[1..], scope, now)
  }

  // Everything with an ID beyond `after` that CardFor grants; no SQL filter involved.
  function Shown(urlOk: string -> bool, table: seq<Row>, scope: Scope, after: nat, now: int): seq<Card>
  {
    if table == [] then []
    else (if table[0].id > after && Decide(urlOk, table[0], scope, now) == Available then [CardOf(table[0])] else [])
         + Shown(urlOk, table[1..], scope, after, now)
  }

  datatype Page = Page(items: seq<Card>, next: Option<nat>)

  // The page that holds the first `limit` shown cards.
  function PageOf(shown: seq<Card>, limit: nat): Page
    requires limit > 0
  {
    if |shown| > limit then Page(shown[..limit], Some(shown[limit - 1].id)) else Page(shown, None)
  }

  datatype Detail = Detail(item: Option<Card>, availability: Decision)

  // detail.go:46-73
  function GetSpec(urlOk: string -> bool, table: seq<Row>, enabled: bool, allowed: bool, scope: Scope, id: nat,
      now: int): Detail
  {
    if !allowed then Detail(None, CapabilityUnavailable)
    else
      var row := Find(table, id);
      if row.None? || row.value.platform != scope.platform || row.value.kind != scope.kind || !enabled then
        Detail(None, MaterialUnavailable)
      else
        var decision := Decide(urlOk, row.value, scope, now);
        Detail(if decision == Available then Some(CardOf(row.value)) else None, decision)
  }

  // ---- The SQL filter and CardFor ----

  // Whatever CardFor grants, the statement selects; the converse fails for rows
  // that do not validate, which is why List refills.
  lemma GrantedIsSelected(urlOk: string -> bool, r: Row, scope: Scope, after: nat, now: int)
    requires r.id > after && Decide(urlOk, r, scope, now) == Available
    ensures Selected(r, scope, after, now)
  {
  }

  // Exactly the selected rows that validate are granted in a valid context. Only
  // before year 1 does a missing start, kept as the zero time, lie in the future.
  lemma GrantedIff(urlOk: string -> bool, r: Row, scope: Scope, after: nat, now: int)
    requires r.id > after
    ensures Decide(urlOk, r, scope, now) == Available
            <==> Selected(r, scope, after, now) && ValidRow(urlOk, r) && ValidContext(scope)
                 && now != 0 && (now > 0 || r.startsAt.Some?)
  {
    hide ValidContext, ValidLabel;
  }

  // The card of a row says what the row says; what identifies its source is left out.
  predicate IsCardOf(c: Card, r: Row)
  {
    c.id == r.id && c.platform == r.platform && c.kind == r.kind && c.title == r.title
    && c.startsAt == (if r.startsAt == Some(0) then None else r.startsAt) && c.endsAt == r.endsAt
    && c.sourceUpdatedAt == r.sourceUpdatedAt && c.ruleVersion == r.ruleVersion && c.region == r.region
    && c.business == r.business && c.terminals == r.terminals
  }

  lemma CardSaysWhatTheRowSays(r: Row, c: Card)
    ensures c == CardOf(r) <==> IsCardOf(c, r)
  {
  }

  // What each denial means.
  predicate Denies(urlOk: string -> bool, reason: Decision, r: Row, scope: Scope, now: int)
  {
    match reason
    case InvalidMaterial => !ValidRow(urlOk, r)
    case InvalidContext => now == 0 || !ValidContext(scope)
    case ScopeMismatch => (r.platform, r.kind) != (scope.platform, scope.kind)
    case NotActive => r.status != "ACTIVE"
    case NotStarted => now < StartOf(r)
    case Expired => r.endsAt <= now
    case SourceNotCurrent => now < r.sourceUpdatedAt
    case RegionMismatch => r.region.mode != Nationwide && scope.cityCode !in r.region.cityCodes
    case BusinessMismatch => r.business !in {"", scope.business}
    case TerminalMismatch => scope.terminal !in r.terminals
    case _ => false
  }

  const REASONS := [InvalidMaterial, InvalidContext, ScopeMismatch, NotActive, NotStarted, Expired, SourceNotCurrent,
    RegionMismatch, BusinessMismatch, TerminalMismatch]

  // A row is denied for the first reason that holds of it.
  lemma DeniedForTheFirstReason(urlOk: string -> bool, r: Row, scope: Scope, now: int, i: nat)
    requires i < |REASONS|
    ensures Decide(urlOk, r, scope, now) == REASONS[i]
            <==> Denies(urlOk, REASONS[i], r, scope, now) && forall j | 0 <= j < i :: !Denies(urlOk, REASONS[j], r, scope, now)
  {
    hide ValidContext, ValidLabel;
    assert ValidRow(urlOk, r) ==> r.region.mode != OtherMode;
    hide ValidRow;
    assert forall j | 0 <= j < i :: REASONS[j] == REASONS[..i][j];
    assert Denies(urlOk, REASONS[0], r, scope, now) <==> !ValidRow(urlOk, r);
    assert i > 0 ==> REASONS[0] == InvalidMaterial;
    assert i > 1 ==> REASONS[1] == InvalidContext;
    assert i > 2 ==> REASONS[2] == ScopeMismatch;
    assert i > 3 ==> REASONS[3] == NotActive;
    assert i > 4 ==> REASONS[4] == NotStarted;
    assert i > 5 ==> REASONS[5] == Expired;
    assert i > 6 ==> REASONS[6] == SourceNotCurrent;
    assert i > 7 ==> REASONS[7] == RegionMismatch;
    assert i > 8 ==> REASONS[8] == BusinessMismatch;
  }

  lemma {:induction false} ShownAreCardsOfMatching(urlOk: string -> bool, table: seq<Row>, scope: Scope, after: nat, now: int)
    ensures Cards(urlOk, Matching(table, scope, after, now), scope, now) == Shown(urlOk, table, scope, after, now)
  {
    if table != [] {
      ShownAreCardsOfMatching(urlOk, table[1..], scope, after, now);
      var rest := Matching(table[1..], scope, after, now);
      if Selected(table[0], scope, after, now) {
        assert ([table[0]] + rest)[1..] == rest;
      } else {
        assert [] + rest == rest;
      }
    }
  }

  lemma {:induction false} MatchingIsBeyond(table: seq<Row>, scope: Scope, after: nat, now: int)
    requires InIdOrder(table)
    ensures var m := Matching(table, scope, after, now);
            InIdOrder(m) && (forall i | 0 <= i < |m| :: m[i] in table && m[i].id > after)
  {
    if table != [] {
      MatchingIsBeyond(table[1..], scope, after, now);
    }
  }

  // Continuing after the i-th selected row selects the remaining ones.
  lemma {:induction false} MatchingFrom(table: seq<Row>, scope: Scope, after: nat, now: int, i: nat)
    requires InIdOrder(table) && 0 < i <= |Matching(table, scope, after, now)|
    ensures var m := Matching(table, scope, after, now);
            Matching(table, scope, m[i - 1].id, now) == m[i..]
  {
    var m := Matching(table, scope, after, now);
    MatchingIsBeyond(table, scope, after, now);
    MatchingIsBeyond(table[1..], scope, after, now);
    var rest := Matching(table[1..], scope, after, now);
    if Selected(table[0], scope, after, now) {
      assert m[1..] == rest;
      if i == 1 {
        MatchingAllBeyond(table[1..], scope, after, table[0].id, now);
      } else {
        MatchingFrom(table[1..], scope, after, now, i - 1);
        assert m[i - 1] == rest[i - 2] && m[i..] == rest[i - 1..];
        assert m[0].id < m[i - 1].id;
      }
    } else {
      assert m == rest;
      MatchingFrom(table[1..], scope, after, now, i);
      assert m[i - 1] in table[1..];
    }
  }

  // A boundary below every row selects as the old one did.
  lemma {:induction false} MatchingAllBeyond(table: seq<Row>, scope: Scope, after: nat, boundary: nat, now: int)
    requires forall i | 0 <= i < |table| :: table[i].id > boundary
    requires boundary > after
    ensures Matching(table, scope, boundary, now) == Matching(table, scope, after, now)
  {
    if table != [] {
      MatchingAllBeyond(table[1..], scope, after, boundary, now);
    }
  }

  // What a scan still has to show after the row `after`.
  function Rest(urlOk: string -> bool, table: seq<Row>, scope: Scope, after: nat, now: int): seq<Card>
  {
    Cards(urlOk, Matching(table, scope, after, now), scope, now)
  }

  // One scanned row: its card, if any, moves from the rest to the page.
  lemma ScanOne(urlOk: string -> bool, table: seq<Row>, scope: Scope, after: nat, now: int)
    requires InIdOrder(table) && Matching(table, scope, after, now) != []
    ensures var m := Matching(table, scope, after, now);
            Rest(urlOk, table, scope, after, now)
            == (if Decide(urlOk, m[0], scope, now) == Available then [CardOf(m[0])] else [])
               + Rest(urlOk, table, scope, m[0].id, now)
            && Matching(table, scope, m[0].id, now) == m[1..]
  {
    MatchingFrom(table, scope, after, now, 1);
  }

  lemma RestIsShown(urlOk: string -> bool, table: seq<Row>, scope: Scope, after: nat, now: int)
    ensures Rest(urlOk, table, scope, after, now) == Shown(urlOk, table, scope, after, now)
  {
    ShownAreCardsOfMatching(urlOk, table, scope, after, now);
  }

  lemma NothingRests(urlOk: string -> bool, table: seq<Row>, scope: Scope, after: nat, now: int)
    requires Matching(table, scope, after, now) == []
    ensures Rest(urlOk, table, scope, after, now) == []
  {
  }

  lemma VisibleInOrder(table: seq<Row>, enabled: bool)
    requires InIdOrder(table)
    ensures InIdOrder(Visible(table, enabled))
  {
  }

  // ---- List ----

  // repository.go:73-94: reads the selected rows until they end or the page
  // holds one card too many.
  method Scan(urlOk: string -> bool, ghost table: seq<Row>, rows: seq<Row>, scope: Scope, start: nat, limit: nat, now: int,
              before: seq<Card>)
    returns (items: seq<Card>, after: nat, count: nat)
    requires InIdOrder(table) && |before| <= limit && rows == Query(table, scope, start, now, limit + 1)
    ensures |items| <= limit + 1 && count <= |rows|
    ensures items + Rest(urlOk, table, scope, after, now) == before + Rest(urlOk, table, scope, start, now)
    ensures Matching(table, scope, after, now) == Matching(table, scope, start, now)[count..]
    ensures |items| <= limit ==> count == |rows|
  {
    hide Decide, Matching, Cards, CardOf, InIdOrder, Rest;
    items, after, count := before, start, 0;
    ghost var m := Matching(table, scope, start, now);
    while count < |rows| && |items| <= limit
      invariant count <= |rows| && |items| <= limit + 1
      invariant items + Rest(urlOk, table, scope, after, now) == before + Rest(urlOk, table, scope, start, now)
      invariant Matching(table, scope, after, now) == m[count..]
    {
      ScanOne(urlOk, table, scope, after, now);
      var record := rows[count];
      assert m[count..][0] == record && m[count..][1..] == m[count + 1..];
      after := record.id;
      count := count + 1;
      if Decide(urlOk, record, scope, now) == Available {
        items := items + [CardOf(record)];
      }
    }
  }

  // repository.go:48-111. `start` is the parsed cursor, 0 without one.
  method List(urlOk: string -> bool, table: seq<Row>, enabled: bool, allowed: bool, scope: Scope, start: nat,
      limit: nat, now: int)
    returns (page: Page)
    requires InIdOrder(table) && 1 <= limit <= 100
    ensures page == if allowed then PageOf(Shown(urlOk, Visible(table, enabled), scope, start, now), limit)
            else Page([], None)
  {
    hide Shown, Matching, Cards, Decide, InIdOrder, Rest;
    if !allowed {
      return Page([], None);
    }
    var visible := Visible(table, enabled);
    assert InIdOrder(visible) by { VisibleInOrder(table, enabled); }
    var items: seq<Card> := [];
    var after := start;
    RestIsShown(urlOk, visible, scope, start, now);
    ghost var all := Rest(urlOk, visible, scope, start, now);
    while true
      invariant |items| <= limit
      invariant items + Rest(urlOk, visible, scope, after, now) == all
      decreases |Matching(visible, scope, after, now)|
    {
      var rows := Query(visible, scope, after, now, limit + 1);
      var count;
      items, after, count := Scan(urlOk, visible, rows, scope, after, limit, now, items);
      if |items| > limit {
        assert all[..limit] == items[..limit];
        return Page(items[..limit], Some(items[limit - 1].id));
      }
      if count < limit + 1 {
        assert Matching(visible, scope, after, now) == [];
        NothingRests(urlOk, visible, scope, after, now);
        assert items == all;
        return Page(items, None);
      }
    }
  }

  // detail.go:46-77
  method Get(urlOk: string -> bool, table: seq<Row>, enabled: bool, allowed: bool, scope: Scope, id: nat, now: int)
    returns (detail: Detail)
    ensures detail == GetSpec(urlOk, table, enabled, allowed, scope, id, now)
  {
    detail := Detail(None, CapabilityUnavailable);
    if allowed {
      var row := Find(table, id);
      if row.None? || row.value.platform != scope.platform || row.value.kind != scope.kind || !enabled {
        detail := detail.(availability := MaterialUnavailable);
      } else {
        var decision := Decide(urlOk, row.value, scope, now);
        detail := detail.(availability := decision);
        if decision == Available {
          detail := detail.(item := Some(CardOf(row.value)));
        }
      }
    }
  }
}
