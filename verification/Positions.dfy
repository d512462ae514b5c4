// internal/promoter: changes of promotion positions (positions_repository.go)
// and the administrator's assignment of an external JD position
// (channel_positions_repository.go). Both hold the owner's profile row, so each
// transaction is one atomic step. A receipt keeps its command in place of the
// command's fingerprint.
module Positions {
  import opened Wrappers

  datatype Action = Create | Edit | Default | Disable | OtherAction

  datatype Error = NotEnabled | NotFound | VersionConflict | Transition | InvalidInput | IdempotencyConflict
    | ExternalPositionConflict | Storage

  datatype Readiness = Unavailable | WaitingConfiguration | WaitingVerification

  datatype Command = Command(action: Action, id: string, name: string, scene: string, isDefault: bool, version: int,
      key: string)

  datatype Position = Position(id: string, owner: string, name: string, scene: string, enabled: bool, isDefault: bool,
    version: nat, createdAt: int)

  // What ChangePosition returns; the stored JSON leaves the readiness out.
  datatype Answer = Answer(position: Position, readiness: Option<Readiness>)

  datatype Receipt = Receipt(command: Command, position: Position)

  datatype MappingStatus = PendingVerification | OtherStatus

  datatype Mapping = Mapping(accountId: string, externalPositionId: string, status: MappingStatus, version: nat,
      configuredAt: int)

  datatype Assignment = Assignment(positionId: string, accountId: string, externalPositionId: string,
      expectedVersion: int, key: string)

  datatype ConfigEvent = ConfigEvent(assignment: Assignment, before: Option<Mapping>, after: Mapping)

  type ReceiptKey = (string, Action, string)

  type EventKey = (string, string)

  // Owners who are ENABLED; positions by ID; receipts by (owner, action, key);
  // JD mappings by position; configuration events by (actor, key).
  datatype Shelf = Shelf(members: set<string>, positions: map<string, Position>, receipts: map<ReceiptKey, Receipt>,
    mappings: map<string, Mapping>, events: map<EventKey, ConfigEvent>)

  // ---- ChangePosition ----

  function Ready(mappings: map<string, Mapping>, p: Position): Readiness
  {
    if !p.enabled then Unavailable
    else if p.id !in mappings then WaitingConfiguration
    else if mappings[p.id].status == PendingVerification then WaitingVerification
    else Unavailable
  }

  // The owner's default position, unless it is this one, loses that mark and gains a version.
  function Evict(positions: map<string, Position>, owner: string, id: string): map<string, Position>
  {
    map k | k in positions ::
      if positions[k].owner == owner && positions[k].isDefault && k != id then
        positions[k].(isDefault := false, version := positions[k].version + 1)
      else positions[k]
  }

  // positions_repository.go:72-99: the row the command makes.
  function Revised(positions: map<string, Position>, user: string, c: Command, newId: string,
      now: int): Result<Position, Error>
  {
    if c.action == Create then Ok(Position(newId, user, c.name, c.scene, true, c.isDefault, 1, now))
    else if c.id !in positions || positions[c.id].owner != user then Err(NotFound)
    else
      var p := positions[c.id];
      if p.version != c.version then Err(VersionConflict)
      else if !p.enabled then Err(Transition)
      else match c.action
        case Edit => Ok(p.(name := c.name, scene := c.scene, version := p.version + 1))
        case Default => Ok(p.(isDefault := true, version := p.version + 1))
        case Disable => Ok(p.(enabled := false, isDefault := false, version := p.version + 1))
        case _ => Err(InvalidInput)
  }

  function ChangeSpec(s: Shelf, user: string, c: Command, newId: string, now: int): (Result<Answer, Error>, Shelf)
  {
    var k := (user, c.action, c.key);
    if user !in s.members then (Err(NotEnabled), s)
    else if k in s.receipts then
      (if s.receipts[k].command == c then Ok(Answer(s.receipts[k].position, None)) else Err(IdempotencyConflict), s)
    else
      var revised := Revised(s.positions, user, c, newId, now);
      if revised.Err? then (Err(revised.error), s)
      else if c.action == Create && newId in s.positions then (Err(Storage), s)
      else
        var p := revised.value;
        var others := if p.isDefault then Evict(s.positions, user, p.id) else s.positions;
        (Ok(Answer(p, Some(Ready(s.mappings, p)))),
         s.(positions := others[p.id := p], receipts := s.receipts[k := Receipt(c, p)]))
  }

  // ---- ConfigureChannelPosition ----

  // The unique index on (channel, account_id, external_position_id).
  predicate SlotTaken(mappings: map<string, Mapping>, id: string, accountId: string, externalPositionId: string)
  {
    exists k | k in mappings :: k != id && mappings[k].accountId == accountId
      && mappings[k].externalPositionId == externalPositionId
  }

  function VersionAt(mappings: map<string, Mapping>, id: string): nat
  {
    if id in mappings then mappings[id].version else 0
  }

  function ConfigureSpec(s: Shelf, actor: string, a: Assignment, now: int): (Result<Mapping, Error>, Shelf)
  {
    var k := (actor, a.key);
    if k in s.events then
      (if s.events[k].assignment == a then Ok(s.events[k].after) else Err(IdempotencyConflict), s)
    else if a.positionId !in s.positions then (Err(NotFound), s)
    else if s.positions[a.positionId].owner !in s.members then (Err(NotEnabled), s)
    else if !s.positions[a.positionId].enabled then (Err(Transition), s)
    else if VersionAt(s.mappings, a.positionId) != a.expectedVersion then (Err(VersionConflict), s)
    else if SlotTaken(s.mappings, a.positionId, a.accountId, a.externalPositionId) then (Err(ExternalPositionConflict), s)
    else
      var before := if a.positionId in s.mappings then Some(s.mappings[a.positionId]) else None;
      var after := Mapping(a.accountId, a.externalPositionId, PendingVerification,
        VersionAt(s.mappings, a.positionId) + 1, now);
      (Ok(after), s.(mappings := s.mappings[a.positionId := after], events := s.events[k := ConfigEvent(a, before, after)]))
  }

  // ---- In the form of the source ----

  class Store {
    var members: set<string>
    var positions: map<string, Position>
    var receipts: map<ReceiptKey, Receipt>
    var mappings: map<string, Mapping>
    var events: map<EventKey, ConfigEvent>

    function View(): Shelf
      reads this
    {
      Shelf(members, positions, receipts, mappings, events)
    }

    constructor ()
      ensures View() == EMPTY
    {
      members, positions, receipts, mappings, events := {}, map[], map[], map[], map[];
    }

    // positions_repository.go:27-131
    method ChangePosition(user: string, c: Command, newId: string, now: int) returns (out: Result<Answer, Error>)
      modifies this`positions, this`receipts
      ensures (out, View()) == ChangeSpec(old(View()), user, c, newId, now)
    {
      if user !in members {
        return Err(NotEnabled);
      }
      var k := (user, c.action, c.key);
      if k in receipts {
        if receipts[k].command != c {
          return Err(IdempotencyConflict);
        }
        return Ok(Answer(receipts[k].position, None));
      }
      var p: Position;
      if c.action == Create {
        p := Position(newId, user, c.name, c.scene, true, c.isDefault, 1, now);
        if newId in positions {
          return Err(Storage);
        }
      } else {
        if c.id !in positions || positions[c.id].owner != user {
          return Err(NotFound);
        }
        p := positions[c.id];
        if p.version != c.version {
          return Err(VersionConflict);
        }
        if !p.enabled {
          return Err(Transition);
        }
        match c.action {
          case Edit =>
            p := p.(name := c.name, scene := c.scene);
          case Default =>
            p := p.(isDefault := true);
          case Disable =>
            p := p.(enabled := false, isDefault := false);
          case _ =>
            return Err(InvalidInput);
        }
        p := p.(version := p.version + 1);
      }
      if p.isDefault {
        positions := Evict(positions, user, p.id);
      }
      positions := positions[p.id := p];
      receipts := receipts[k := Receipt(c, p)];
      return Ok(Answer(p, Some(Ready(mappings, p))));
    }

    // channel_positions_repository.go:23-129
    method ConfigureChannelPosition(actor: string, a: Assignment, now: int) returns (out: Result<Mapping, Error>)
      modifies this`mappings, this`events
      ensures (out, View()) == ConfigureSpec(old(View()), actor, a, now)
    {
      var k := (actor, a.key);
      if k in events {
        if events[k].assignment != a {
          return Err(IdempotencyConflict);
        }
        return Ok(events[k].after);
      }
      if a.positionId !in positions {
        return Err(NotFound);
      }
      var owner := positions[a.positionId].owner;
      if owner !in members {
        return Err(NotEnabled);
      }
      if !positions[a.positionId].enabled {
        return Err(Transition);
      }
      var before: Option<Mapping> := None;
      var version := 0;
      if a.positionId in mappings {
        before := Some(mappings[a.positionId]);
        version := mappings[a.positionId].version;
      }
      if version != a.expectedVersion {
        return Err(VersionConflict);
      }
      if SlotTaken(mappings, a.positionId, a.accountId, a.externalPositionId) {
        return Err(ExternalPositionConflict);
      }
      var after := Mapping(a.accountId, a.externalPositionId, PendingVerification, version + 1, now);
      mappings := mappings[a.positionId := after];
      events := events[k := ConfigEvent(a, before, after)];
      return Ok(after);
    }
  }

  const EMPTY := Shelf({}, map[], map[], map[], map[])
}
