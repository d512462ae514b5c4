// What any sequence of position changes, assignments, membership changes and
// verifications keeps.
module PositionHistory {
  import opened Wrappers
  import opened Positions

  datatype Event =
    | Members(enabled: set<string>)
    | Verify(positionId: string, status: MappingStatus)
    | Change(user: string, c: Command, newId: string, now: int)
    | Configure(actor: string, a: Assignment, now: int)

  function Step(s: Shelf, e: Event): Shelf
  {
    match e
    case Members(enabled) => s.(members := enabled)
    case Verify(id, status) => if id in s.mappings
      then s.(mappings := s.mappings[id := s.mappings[id].(status := status)]) else s
    case Change(user, c, newId, now) => ChangeSpec(s, user, c, newId, now).1
    case Configure(actor, a, now) => ConfigureSpec(s, actor, a, now).1
  }

  function Run(s: Shelf, es: seq<Event>): Shelf
    decreases |es|
  {
    if es == [] then s else Run(Step(s, es[0]), es[1..])
  }

  // How many events changed this position's row after it was inserted.
  function Writes(s: Shelf, es: seq<Event>, id: string): nat
    decreases |es|
  {
    if es == [] then 0
    else
      var next := Step(s, es[0]);
      (if id in s.positions && id in next.positions && next.positions[id] != s.positions[id] then 1 else 0)
      + Writes(next, es[1..], id)
  }

  // How many assignments gave this position a mapping or a new one.
  function Assignments(s: Shelf, es: seq<Event>, id: string): nat
    decreases |es|
  {
    if es == [] then 0
    else
      var next := Step(s, es[0]);
      (if es[0].Configure? && es[0].a.positionId == id && next != s then 1 else 0) + Assignments(next, es[1..], id)
  }

  // ---- Invariant ----

  predicate OneDefault(positions: map<string, Position>)
  {
    forall j, k | j in positions && k in positions && positions[j].isDefault && positions[k].isDefault
                  && positions[j].owner == positions[k].owner :: j == k
  }

  predicate PositionOk(p: Position, id: string)
  {
    p.id == id && p.version >= 1 && (p.isDefault ==> p.enabled)
  }

  predicate PositionsOk(positions: map<string, Position>)
  {
    forall k | k in positions :: PositionOk(positions[k], k)
  }

  predicate ReceiptsOk(receipts: map<ReceiptKey, Receipt>, positions: map<string, Position>)
  {
    forall k | k in receipts ::
      receipts[k].command.action == k.1 && receipts[k].command.key == k.2 && receipts[k].position.owner == k.0
      && receipts[k].position.id in positions && positions[receipts[k].position.id].owner == k.0
      && receipts[k].position.version <= positions[receipts[k].position.id].version
  }

  // No external position is assigned twice; mappings belong to positions.
  predicate SlotsDiffer(mappings: map<string, Mapping>)
  {
    forall j, k | j in mappings && k in mappings && mappings[j].accountId == mappings[k].accountId
                  && mappings[j].externalPositionId == mappings[k].externalPositionId :: j == k
  }

  predicate Inv(s: Shelf)
  {
    OneDefault(s.positions) && PositionsOk(s.positions) && ReceiptsOk(s.receipts, s.positions) && SlotsDiffer(s.mappings)
    && (forall k | k in s.mappings :: k in s.positions && s.mappings[k].version >= 1)
  }

  lemma ChangeKeeps(s: Shelf, user: string, c: Command, newId: string, now: int)
    requires Inv(s)
    ensures Inv(ChangeSpec(s, user, c, newId, now).1)
  {
    var next := ChangeSpec(s, user, c, newId, now).1;
    if next != s {
      var p := Revised(s.positions, user, c, newId, now).value;
      assert PositionOk(p, p.id) && p.owner == user;
      hide Revised, OneDefault, ReceiptsOk, SlotsDiffer, Evict;
      WriteKeeps(s.positions, p);
      ReceiptKeeps(s, p, c);
    }
  }

  // Where the row goes: at its own ID, with the owner's other default cleared.
  function Written(positions: map<string, Position>, p: Position): map<string, Position>
  {
    (if p.isDefault then Evict(positions, p.owner, p.id) else positions)[p.id := p]
  }

  lemma WriteKeeps(positions: map<string, Position>, p: Position)
    requires OneDefault(positions) && PositionsOk(positions) && PositionOk(p, p.id)
    ensures OneDefault(Written(positions, p)) && PositionsOk(Written(positions, p))
  {
  }

  lemma ReceiptKeeps(s: Shelf, p: Position, c: Command)
    requires ReceiptsOk(s.receipts, s.positions)
    requires p.id in s.positions ==> s.positions[p.id].owner == p.owner && s.positions[p.id].version <= p.version
    ensures ReceiptsOk(s.receipts[(p.owner, c.action, c.key) := Receipt(c, p)], Written(s.positions, p))
  {
  }

  lemma StepKeeps(s: Shelf, e: Event)
    requires Inv(s)
    ensures Inv(Step(s, e))
  {
    hide OneDefault, PositionsOk, ReceiptsOk;
    match e
    case Change(user, c, newId, now) => ChangeKeeps(s, user, c, newId, now);
    case _ =>
  }

  lemma {:induction false} RunKeeps(s: Shelf, es: seq<Event>)
    requires Inv(s)
    ensures Inv(Run(s, es))
    decreases |es|
  {
    hide Inv, Step;
    if es != [] {
      StepKeeps(s, es[0]);
      RunKeeps(Step(s, es[0]), es[1..]);
    }
  }

  // ---- The guarantees, over every history ----

  // Each owner has at most one default position, and it is ENABLED.
  lemma AtMostOneDefault(es: seq<Event>, j: string, k: string)
    requires j in Run(EMPTY, es).positions && k in Run(EMPTY, es).positions
    ensures var positions := Run(EMPTY, es).positions;
            (positions[j].isDefault ==> positions[j].enabled)
            && (positions[j].isDefault && positions[k].isDefault && positions[j].owner == positions[k].owner ==> j == k)
  {
    RunKeeps(EMPTY, es);
  }

  // No external position is assigned to two positions.
  lemma ExternalPositionsAreUnique(es: seq<Event>, j: string, k: string)
    requires j in Run(EMPTY, es).mappings && k in Run(EMPTY, es).mappings && j != k
    ensures var m := Run(EMPTY, es).mappings;
            m[j].accountId != m[k].accountId || m[j].externalPositionId != m[k].externalPositionId
  {
    RunKeeps(EMPTY, es);
  }

  predicate SameRow(p: Position, q: Position)
  {
    q.id == p.id && q.owner == p.owner && q.createdAt == p.createdAt
  }

  // A step leaves a row alone or writes it once, and then its version grows by
  // one, even when it is only evicted as default; disabled rows are never written.
  lemma StepWrites(s: Shelf, e: Event, id: string)
    requires Inv(s) && id in s.positions
    ensures var next := Step(s, e).positions; var p := s.positions[id];
            id in next && SameRow(p, next[id])
            && (next[id] == p || (next[id].version == p.version + 1 && p.enabled))
  {
    if e.Change? {
      ChangeWritesAt(s, e.user, e.c, e.newId, e.now, id);
    }
    hide Inv, ChangeSpec;
  }

  lemma ChangeWritesAt(s: Shelf, user: string, c: Command, newId: string, now: int, id: string)
    requires Inv(s) && id in s.positions
    ensures var next := ChangeSpec(s, user, c, newId, now).1.positions; var p := s.positions[id];
            id in next && SameRow(p, next[id]) && (next[id] == p || (next[id].version == p.version + 1 && p.enabled))
  {
    hide ReceiptsOk, SlotsDiffer, Ready;
  }

  lemma {:induction false} VersionAfter(s: Shelf, es: seq<Event>, id: string)
    requires Inv(s) && id in s.positions
    ensures var after := Run(s, es).positions;
            id in after && SameRow(s.positions[id], after[id])
              && after[id].version == s.positions[id].version + Writes(s, es, id)
            && (!s.positions[id].enabled ==> after[id] == s.positions[id])
    decreases |es|
  {
    hide Inv, Step;
    if es != [] {
      StepWrites(s, es[0], id);
      StepKeeps(s, es[0]);
      VersionAfter(Step(s, es[0]), es[1..], id);
    }
  }

  lemma {:induction false} VersionFromNothing(s: Shelf, es: seq<Event>, id: string)
    requires Inv(s) && id !in s.positions && id in Run(s, es).positions
    ensures Run(s, es).positions[id].version == 1 + Writes(s, es, id)
    decreases |es|
  {
    hide Inv, Step;
    var next := Step(s, es[0]);
    StepKeeps(s, es[0]);
    if id in next.positions {
      assert PositionsOk(s.positions) by { InvHasPositions(s); }
      InsertedAtOne(s, es[0], id);
      VersionAfter(next, es[1..], id);
    } else {
      VersionFromNothing(next, es[1..], id);
    }
  }

  lemma InvHasPositions(s: Shelf)
    requires Inv(s)
    ensures PositionsOk(s.positions)
  {
  }

  lemma InsertedAtOne(s: Shelf, e: Event, id: string)
    requires PositionsOk(s.positions) && id !in s.positions && id in Step(s, e).positions
    ensures Step(s, e).positions[id].version == 1
  {
  }

  // A position's version is one plus the writes that touched it, including
  // losing the default flag to another position; an editor who saw an older
  // version is refused.
  lemma VersionCountsWrites(es: seq<Event>, id: string)
    requires id in Run(EMPTY, es).positions
    ensures Run(EMPTY, es).positions[id].version == 1 + Writes(EMPTY, es, id)
  {
    VersionFromNothing(EMPTY, es, id);
  }

  // A change writes its own position, takes the default flag from the owner's
  // other default if it sets one, and touches nothing else.
  lemma ChangeTouches(s: Shelf, user: string, c: Command, newId: string, now: int, k: string)
    requires Inv(s) && ChangeSpec(s, user, c, newId, now).0.Ok? && ChangeSpec(s, user, c, newId, now).1 != s
             && k in s.positions
    ensures var (out, next) := ChangeSpec(s, user, c, newId, now); var p := out.value.position;
            next.positions[p.id] == p && p.owner == user
              && (c.action != Create ==> p.id == c.id && p.version == c.version + 1)
            && (k != p.id ==>
                  next.positions[k] == (if p.isDefault && s.positions[k].owner == user && s.positions[k].isDefault then
                                          s.positions[k].(isDefault := false, version := s.positions[k].version + 1)
                                        else s.positions[k]))
            && (c.action == Default ==> p.isDefault) && (c.action == Disable ==> !p.isDefault && !p.enabled)
            && next.mappings == s.mappings && next.events == s.events && |next.receipts| == |s.receipts| + 1
  {
  }

  // Once disabled, a position's row is never written again.
  lemma DisabledForGood(es: seq<Event>, fs: seq<Event>, id: string)
    requires id in Run(EMPTY, es).positions && !Run(EMPTY, es).positions[id].enabled
    ensures id in Run(EMPTY, es + fs).positions && Run(EMPTY, es + fs).positions[id] == Run(EMPTY, es).positions[id]
  {
    RunKeeps(EMPTY, es);
    RunAppend(EMPTY, es, fs);
    VersionAfter(Run(EMPTY, es), fs, id);
  }

  lemma {:induction false} RunAppend(s: Shelf, es: seq<Event>, fs: seq<Event>)
    ensures Run(s, es + fs) == Run(Run(s, es), fs)
    decreases |es|
  {
    hide Step;
    if es == [] {
      assert es + fs == fs;
    } else {
      assert (es + fs)[0] == es[0] && (es + fs)[1..] == es[1..] + fs;
      RunAppend(Step(s, es[0]), es[1..], fs);
    }
  }

  // ---- Replays ----

  lemma StepKeepsReceipts(s: Shelf, e: Event, k: ReceiptKey)
    requires k in s.receipts
    ensures k in Step(s, e).receipts && Step(s, e).receipts[k] == s.receipts[k]
  {
  }

  lemma {:induction false} ReceiptsStay(s: Shelf, es: seq<Event>, k: ReceiptKey)
    requires k in s.receipts
    ensures k in Run(s, es).receipts && Run(s, es).receipts[k] == s.receipts[k]
    decreases |es|
  {
    hide Step;
    if es != [] {
      StepKeepsReceipts(s, es[0], k);
      ReceiptsStay(Step(s, es[0]), es[1..], k);
    }
  }

  // While the owner is ENABLED, repeating a change at any later point returns
  // the row as it was written then, without a readiness, and writes nothing;
  // another command under the same key conflicts.
  lemma ChangeReplays(es: seq<Event>, fs: seq<Event>, user: string, c: Command, newId: string, now: int, again: Command,
                      newId': string, now': int)
    requires ChangeSpec(Run(EMPTY, es), user, c, newId, now).0.Ok? && again.action == c.action && again.key == c.key
    requires user in Run(EMPTY, es + [Change(user, c, newId, now)] + fs).members
    ensures var later := Run(EMPTY, es + [Change(user, c, newId, now)] + fs);
            ChangeSpec(later, user, again, newId', now')
            == (if again == c then Ok(ChangeSpec(Run(EMPTY, es), user, c, newId, now).0.value.(readiness := None))
                else Err(IdempotencyConflict), later)
  {
    var s := Run(EMPTY, es);
    var e := Change(user, c, newId, now);
    RunKeeps(EMPTY, es);
    RunAppend(EMPTY, es, [e]);
    RunAppend(EMPTY, es + [e], fs);
    assert Run(s, [e]) == Step(s, e) by { assert [e][1..] == []; }
    ReceiptsStay(Step(s, e), fs, (user, c.action, c.key));
  }

  lemma StepKeepsEvents(s: Shelf, e: Event, k: EventKey)
    requires k in s.events
    ensures k in Step(s, e).events && Step(s, e).events[k] == s.events[k]
  {
  }

  lemma {:induction false} EventsStay(s: Shelf, es: seq<Event>, k: EventKey)
    requires k in s.events
    ensures k in Run(s, es).events && Run(s, es).events[k] == s.events[k]
    decreases |es|
  {
    hide Step;
    if es != [] {
      StepKeepsEvents(s, es[0], k);
      EventsStay(Step(s, es[0]), es[1..], k);
    }
  }

  // Repeating an assignment returns the mapping it made then and writes
  // nothing, whatever the position, its owner and its mapping have become.
  lemma ConfigureReplays(es: seq<Event>, fs: seq<Event>, actor: string, a: Assignment, now: int, again: Assignment, now': int)
    requires ConfigureSpec(Run(EMPTY, es), actor, a, now).0.Ok? && again.key == a.key
    ensures var later := Run(EMPTY, es + [Configure(actor, a, now)] + fs);
            ConfigureSpec(later, actor, again, now')
            == (if again == a then ConfigureSpec(Run(EMPTY, es), actor, a, now).0 else Err(IdempotencyConflict), later)
  {
    var s := Run(EMPTY, es);
    var e := Configure(actor, a, now);
    RunAppend(EMPTY, es, [e]);
    RunAppend(EMPTY, es + [e], fs);
    assert Run(s, [e]) == Step(s, e) by { assert [e][1..] == []; }
    EventsStay(Step(s, e), fs, (actor, a.key));
  }

  lemma {:induction false} MappingVersionAfter(s: Shelf, es: seq<Event>, id: string)
    ensures VersionAt(Run(s, es).mappings, id) == VersionAt(s.mappings, id) + Assignments(s, es, id)
    decreases |es|
  {
    if es != [] {
      hide Run, Assignments, SlotTaken;
      MappingVersionAfter(Step(s, es[0]), es[1..], id);
      AssignmentsStep(s, es, id);
      MappingStep(s, es[0], id);
    }
  }

  lemma AssignmentsStep(s: Shelf, es: seq<Event>, id: string)
    requires es != []
    ensures Run(s, es) == Run(Step(s, es[0]), es[1..])
    ensures Assignments(s, es, id)
            == (if es[0].Configure? && es[0].a.positionId == id && Step(s, es[0]) != s then 1 else 0)
               + Assignments(Step(s, es[0]), es[1..], id)
  {
  }

  lemma MappingStep(s: Shelf, e: Event, id: string)
    ensures VersionAt(Step(s, e).mappings, id)
            == VersionAt(s.mappings, id) + if e.Configure? && e.a.positionId == id && Step(s, e) != s then 1 else 0
  {
    hide SlotTaken, Evict, Revised;
    if e.Configure? && Step(s, e) != s {
      assert (e.actor, e.a.key) in Step(s, e).events && (e.actor, e.a.key) !in s.events;
    }
  }

  // A mapping's version is the number of assignments of its position.
  lemma MappingVersionCountsAssignments(es: seq<Event>, id: string)
    ensures VersionAt(Run(EMPTY, es).mappings, id) == Assignments(EMPTY, es, id)
  {
    MappingVersionAfter(EMPTY, es, id);
  }

  // ---- What a new command needs and writes ----

  // A change whose key is new is accepted exactly when its owner is ENABLED and its
  // position is theirs, ENABLED and still at the version they saw.
  lemma ChangeIsAcceptedIff(s: Shelf, user: string, c: Command, newId: string, now: int)
    requires (user, c.action, c.key) !in s.receipts
    ensures ChangeSpec(s, user, c, newId, now).0.Ok?
            <==> user in s.members
                 && if c.action == Create then newId !in s.positions
                    else c.action in {Edit, Default, Disable} && c.id in s.positions && s.positions[c.id].owner == user
                         && s.positions[c.id].enabled && s.positions[c.id].version == c.version
  {
  }

  // Which fault an error names.
  lemma ChangeRefusals(s: Shelf, user: string, c: Command, newId: string, now: int)
    requires ChangeSpec(s, user, c, newId, now).0.Err?
    ensures ChangeSpec(s, user, c, newId, now).1 == s
    ensures match ChangeSpec(s, user, c, newId, now).0.error
            case NotEnabled => user !in s.members
            case IdempotencyConflict =>
              (user, c.action, c.key) in s.receipts && s.receipts[(user, c.action, c.key)].command != c
            case NotFound => c.action != Create && (c.id !in s.positions || s.positions[c.id].owner != user)
            case VersionConflict => c.id in s.positions && s.positions[c.id].version != c.version
            case Transition => c.id in s.positions && !s.positions[c.id].enabled
            case InvalidInput => c.action == OtherAction
            case Storage => c.action == Create && newId in s.positions
            case _ => false
  {
  }

  // The row a command leaves, column by column, with its receipt.
  lemma ChangeWrites(s: Shelf, user: string, c: Command, newId: string, now: int)
    requires Inv(s) && (user, c.action, c.key) !in s.receipts && ChangeSpec(s, user, c, newId, now).0.Ok?
    ensures var (out, next) := ChangeSpec(s, user, c, newId, now); var p := out.value.position;
            next.receipts == s.receipts[(user, c.action, c.key) := Receipt(c, p)]
            && next.positions.Keys == s.positions.Keys + {p.id} && next.members == s.members
            && match c.action
               case Create => p == Position(newId, user, c.name, c.scene, true, c.isDefault, 1, now)
               case Edit => p == Position(c.id, user, c.name, c.scene, true, s.positions[c.id].isDefault, c.version + 1,
                                          s.positions[c.id].createdAt)
               case Default => p == Position(c.id, user, s.positions[c.id].name, s.positions[c.id].scene, true, true,
                                             c.version + 1, s.positions[c.id].createdAt)
               case _ => p == Position(c.id, user, s.positions[c.id].name, s.positions[c.id].scene, false, false,
                                       c.version + 1, s.positions[c.id].createdAt)
  {
    hide ReceiptsOk, SlotsDiffer;
  }

  // What the answer says about the channel.
  lemma ReadinessMeans(s: Shelf, user: string, c: Command, newId: string, now: int)
    requires (user, c.action, c.key) !in s.receipts && ChangeSpec(s, user, c, newId, now).0.Ok?
    ensures var a := ChangeSpec(s, user, c, newId, now).0.value; var p := a.position;
            (a.readiness == Some(WaitingConfiguration) <==> p.enabled && p.id !in s.mappings)
            && (a.readiness == Some(WaitingVerification)
                <==> p.enabled && p.id in s.mappings && s.mappings[p.id].status == PendingVerification)
            && (a.readiness in {Some(WaitingConfiguration), Some(WaitingVerification), Some(Unavailable)})
  {
  }

  // An assignment whose key is new is accepted exactly when position and owner are
  // ENABLED, the mapping is at the version seen, and no other position has the slot.
  lemma ConfigureIsAcceptedIff(s: Shelf, actor: string, a: Assignment, now: int)
    requires (actor, a.key) !in s.events
    ensures ConfigureSpec(s, actor, a, now).0.Ok?
            <==> a.positionId in s.positions && s.positions[a.positionId].owner in s.members && s.positions[a.positionId].enabled
                 && (if a.positionId in s.mappings then s.mappings[a.positionId].version else 0) == a.expectedVersion
                 && forall k | k in s.mappings && k != a.positionId ::
                      s.mappings[k].accountId != a.accountId || s.mappings[k].externalPositionId != a.externalPositionId
  {
  }

  lemma ConfigureRefusals(s: Shelf, actor: string, a: Assignment, now: int)
    requires ConfigureSpec(s, actor, a, now).0.Err?
    ensures ConfigureSpec(s, actor, a, now).1 == s
    ensures match ConfigureSpec(s, actor, a, now).0.error
            case IdempotencyConflict => (actor, a.key) in s.events && s.events[(actor, a.key)].assignment != a
            case NotFound => a.positionId !in s.positions
            case NotEnabled => a.positionId in s.positions && s.positions[a.positionId].owner !in s.members
            case Transition => a.positionId in s.positions && !s.positions[a.positionId].enabled
            case VersionConflict => (if a.positionId in s.mappings then s.mappings[a.positionId].version else 0) != a.expectedVersion
            case ExternalPositionConflict =>
              exists k | k in s.mappings && k != a.positionId ::
                s.mappings[k].accountId == a.accountId && s.mappings[k].externalPositionId == a.externalPositionId
            case _ => false
  {
  }

  // The mapping it leaves waits for verification; the event keeps what was before.
  lemma ConfigureWrites(s: Shelf, actor: string, a: Assignment, now: int)
    requires (actor, a.key) !in s.events && ConfigureSpec(s, actor, a, now).0.Ok?
    ensures var (out, next) := ConfigureSpec(s, actor, a, now);
            out.value == Mapping(a.accountId, a.externalPositionId, PendingVerification, a.expectedVersion + 1, now)
            && next.mappings == s.mappings[a.positionId := out.value]
            && (actor, a.key) in next.events && next.events == s.events[(actor, a.key) := next.events[(actor, a.key)]]
            && next.events[(actor, a.key)].after == out.value
            && (next.events[(actor, a.key)].before
                == if a.positionId in s.mappings then Some(s.mappings[a.positionId]) else None)
            && next.positions == s.positions && next.receipts == s.receipts && next.members == s.members
  {
  }
}
