// The lock discipline shared by Reserve, Claim, ChangePosition,
// ConfigureChannelPosition, ExecuteAdmin and Submit, at the grain of single
// row locks. A transaction is a plan of instructions; it may be aborted between
// any two, and its writes take effect when it commits. No queueing policy is
// assumed: a waiting transaction may be served as soon as nothing conflicts.
module Locks {
  import opened Wrappers
  import opened ConversionStore

  datatype Mode = Shared | Exclusive

  datatype Slot = Slot(accountId: string, externalPositionId: string)

  datatype Resource =
    | Advisory(scope: int)
    | ProfileRow(owner: string)
    | PositionRow(owner: string, id: string)
    | MappingRow(positionId: string)
    | RequestRow(requestId: string)
    | ApplicationRow(applicationId: string)

  // `Give` and `Take` are the two ends of a change under the unique index on
  // (channel, account_id, external_position_id): the entry the row leaves is in
  // doubt until commit, and the entry it wants must not be.
  datatype Instr =
    | Lock(resource: Resource, mode: Mode)
    | NeedMember(member: string)
    | NeedPosition(position: (string, string))
    | Give(givenBy: string)
    | Take(slot: Slot)
    | WriteMember(member: string, on: bool)
    | WritePosition(position: (string, string), on: bool)
    | WriteMapping(mapped: string, slot: Slot)

  type Plan = seq<Instr>

  // A call that names another owner's position ends after its profile lock,
  // which is what an abort there does.
  datatype Op =
    | Reserve(owner: string, positionId: string)
    | Claim(owner: string, positionId: string, requestId: string)
    | Mark(requestId: string)
    | Create(owner: string, positionId: string, evicted: seq<string>)
    | Change(owner: string, positionId: string, evicted: seq<string>, enabled: bool)
    | Configure(scope: int, owner: string, positionId: string, slot: Slot)
    | Review(scope: int, owner: string, applicationId: string, enabled: bool)
    | Disable(scope: int, owner: string)
    | Submit(owner: string, applicationId: string)

  function LockAll(owner: string, ids: seq<string>): Plan
  {
    seq(|ids|, i requires 0 <= i < |ids| => Lock(PositionRow(owner, ids[i]), Exclusive))
  }

  function PlanOf(op: Op): Plan
  {
    match op
    // conversion/repository.go:108-164
    case Reserve(o, p) =>
      [Lock(ProfileRow(o), Exclusive), NeedMember(o), Lock(PositionRow(o, p), Exclusive), NeedPosition((p, o)),
       Lock(MappingRow(p), Shared)]
    // conversion/state_repository.go:34-59
    case Claim(o, p, r) =>
      [Lock(ProfileRow(o), Shared), NeedMember(o), Lock(PositionRow(o, p), Shared), NeedPosition((p, o)),
       Lock(RequestRow(r), Exclusive)]
    // conversion/state_repository.go:75-120
    case Mark(r) => [Lock(RequestRow(r), Exclusive)]
    // promoter/positions_repository.go:39-111
    case Create(o, p, evicted) =>
      [Lock(ProfileRow(o), Exclusive), NeedMember(o), Lock(PositionRow(o, p), Exclusive)] + LockAll(o, evicted)
      + [WritePosition((p, o), true)]
    case Change(o, p, evicted, enabled) =>
      [Lock(ProfileRow(o), Exclusive), NeedMember(o), Lock(PositionRow(o, p), Exclusive), NeedPosition((p, o))]
      + LockAll(o, evicted) + [WritePosition((p, o), enabled)]
    // promoter/channel_positions_repository.go:35-103
    case Configure(scope, o, p, slot) =>
      [Lock(Advisory(scope), Exclusive), Lock(ProfileRow(o), Exclusive), NeedMember(o), Lock(PositionRow(o, p), Exclusive),
       NeedPosition((p, o)), Lock(MappingRow(p), Exclusive), Give(p), Take(slot), WriteMapping(p, slot)]
    // promoter/admin_repository.go:27-101
    case Review(scope, o, a, enabled) =>
      [Lock(Advisory(scope), Exclusive), Lock(ProfileRow(o), Exclusive), Lock(ApplicationRow(a), Exclusive),
        WriteMember(o, enabled)]
    case Disable(scope, o) =>
      [Lock(Advisory(scope), Exclusive), Lock(ProfileRow(o), Exclusive), WriteMember(o, false)]
    // promoter/postgres_repository.go:40-73
    case Submit(o, a) =>
      [Lock(ProfileRow(o), Exclusive), Lock(ApplicationRow(a), Exclusive), WriteMember(o, false)]
  }

  // ---- Transactions ----

  // Instructions before `pc` are done. With a ticket it waits at `pc`.
  datatype Tx = Tx(plan: Plan, pc: nat, ticket: Option<nat>, gave: Option<Slot>)

  // Committed state, and what is in flight.
  datatype State = State(eligible: Eligible, slots: map<string, Slot>, txs: map<nat, Tx>, clock: nat)

  datatype Event = Begin(t: nat, op: Op) | Move(t: nat) | Queue(t: nat) | Abort(t: nat) | Commit(t: nat)

  predicate Has(plan: Plan, n: nat, instr: Instr)
  {
    n <= |plan| && exists i | 0 <= i < n :: plan[i] == instr
  }

  predicate Holds(x: Tx, r: Resource, m: Mode)
  {
    Has(x.plan, x.pc, Lock(r, m))
  }

  predicate Conflicts(x: Tx, r: Resource, m: Mode)
  {
    Holds(x, r, Exclusive) || (m == Exclusive && Holds(x, r, Shared))
  }

  predicate Doubts(x: Tx, a: Slot)
  {
    x.gave == Some(a) || Has(x.plan, x.pc, Take(a))
  }

  predicate Free(s: State, t: nat, r: Resource, m: Mode)
  {
    forall u | u in s.txs && u != t :: !Conflicts(s.txs[u], r, m)
  }

  predicate Undoubted(s: State, t: nat, a: Slot)
  {
    forall u | u in s.txs && u != t :: !Doubts(s.txs[u], a)
  }

  predicate Active(x: Tx)
  {
    x.pc < |x.plan|
  }

  predicate Waiting(x: Tx)
  {
    x.ticket.Some? && x.pc < |x.plan|
  }

  function Done(s: State, t: nat, x: Tx): State
  {
    s.(txs := s.txs[t := x.(pc := x.pc + 1, ticket := None)])
  }

  function Enqueue(s: State, t: nat, x: Tx): State
  {
    s.(txs := s.txs[t := x.(ticket := Some(s.clock))], clock := s.clock + 1)
  }

  function Leave(s: State, t: nat): State
  {
    s.(txs := s.txs - {t})
  }

  function SlotOf(slots: map<string, Slot>, p: string): Option<Slot>
  {
    if p in slots then Some(slots[p]) else None
  }

  // A missing or changed row ends the transaction; an undoubted entry of
  // another position is a unique violation and ends it too.
  function MoveStep(s: State, t: nat, x: Tx): Option<State>
    requires Active(x)
  {
    match x.plan[x.pc]
    case Lock(r, m) =>
      if Free(s, t, r, m) then Some(Done(s, t, x)) else if x.ticket.None? then Some(Enqueue(s, t, x)) else None
    case NeedMember(o) => Some(if o in s.eligible.profiles then Done(s, t, x) else Leave(s, t))
    case NeedPosition(p) => Some(if p in s.eligible.positions then Done(s, t, x) else Leave(s, t))
    case Give(p) => Some(Done(s, t, x.(gave := SlotOf(s.slots, p))))
    case Take(a) =>
      if !Undoubted(s, t, a) then (if x.ticket.None? then Some(Enqueue(s, t, x)) else None)
      else if a in s.slots.Values && x.gave != Some(a) then Some(Leave(s, t))
      else Some(Done(s, t, x))
    case _ => Some(Done(s, t, x))
  }

  function ApplyTo(eligible: Eligible, instr: Instr): Eligible
  {
    match instr
    case WriteMember(o, on) => eligible.(profiles := if on then eligible.profiles + {o} else eligible.profiles - {o})
    case WritePosition(p, on) => eligible.(positions := if on then eligible.positions + {p} else eligible.positions - {p})
    case _ => eligible
  }

  function ApplyAll(eligible: Eligible, plan: Plan): Eligible
    decreases |plan|
  {
    if plan == [] then eligible else ApplyAll(ApplyTo(eligible, plan[0]), plan[1..])
  }

  function MapAll(slots: map<string, Slot>, plan: Plan): map<string, Slot>
    decreases |plan|
  {
    if plan == [] then slots
    else MapAll(if plan[0].WriteMapping? then slots[plan[0].mapped := plan[0].slot] else slots, plan[1..])
  }

  function Step(s: State, e: Event): Option<State>
  {
    match e
    case Begin(t, op) => if t in s.txs then None else Some(s.(txs := s.txs[t := Tx(PlanOf(op), 0, None, None)]))
    case Move(t) => if t in s.txs && Active(s.txs[t]) then MoveStep(s, t, s.txs[t]) else None
    case Queue(t) =>
      if t in s.txs && Active(s.txs[t]) && s.txs[t].plan[s.txs[t].pc].Lock? && s.txs[t].ticket.None? then
        Some(Enqueue(s, t, s.txs[t]))
      else None
    case Abort(t) => if t in s.txs then Some(Leave(s, t)) else None
    case Commit(t) =>
      if t in s.txs && s.txs[t].pc == |s.txs[t].plan| then
        Some(Leave(s.(eligible := ApplyAll(s.eligible, s.txs[t].plan), slots := MapAll(s.slots, s.txs[t].plan)), t))
      else None
  }

  function Run(s: State, es: seq<Event>): Option<State>
    decreases |es|
  {
    if es == [] then Some(s)
    else match Step(s, es[0])
      case None => None
      case Some(next) => Run(next, es[1..])
  }

  const START := State(Eligible({}, {}), map[], map[], 0)

  // ---- The discipline ----

  function Rank(r: Resource): nat
  {
    match r
    case Advisory(_) => 0
    case ProfileRow(_) => 1
    case PositionRow(_, _) => 2
    case _ => 3
  }

  predicate HasAny(plan: Plan, n: nat, r: Resource)
  {
    Has(plan, n, Lock(r, Shared)) || Has(plan, n, Lock(r, Exclusive))
  }

  // May `r` be locked with `earlier` already locked? Two positions may, under
  // an exclusive lock on their owner.
  predicate Orderly(plan: Plan, n: nat, earlier: Resource, r: Resource)
  {
    Rank(earlier) < Rank(r)
    || (earlier.PositionRow? && r.PositionRow? && earlier.owner == r.owner
        && Has(plan, n, Lock(ProfileRow(r.owner), Exclusive)))
  }

  predicate Proper(plan: Plan, n: nat)
    requires n < |plan|
  {
    match plan[n]
    case Lock(r, _) =>
      (forall i | 0 <= i < n :: !plan[i].Give? && !plan[i].Take?)
      && (forall i | 0 <= i < n && plan[i].Lock? :: Orderly(plan, n, plan[i].resource, r))
      && (r.PositionRow? ==> HasAny(plan, n, ProfileRow(r.owner)))
    case NeedMember(o) => HasAny(plan, n, ProfileRow(o))
    case NeedPosition(p) => HasAny(plan, n, PositionRow(p.1, p.0))
    case Give(p) => Has(plan, n, Lock(MappingRow(p), Exclusive)) && forall i | 0 <= i < n :: !plan[i].Give?
    case Take(a) =>
      (forall i | 0 <= i < n :: !plan[i].Take?)
      && n + 1 < |plan| && plan[n + 1].WriteMapping? && plan[n + 1].slot == a
      && n > 0 && plan[n - 1] == Give(plan[n + 1].mapped)
    case WriteMember(o, _) => Has(plan, n, Lock(ProfileRow(o), Exclusive))
    case WritePosition(p, _) => Has(plan, n, Lock(PositionRow(p.1, p.0), Exclusive))
    case WriteMapping(p, a) => Has(plan, n, Lock(MappingRow(p), Exclusive)) && n > 0 && plan[n - 1] == Take(a)
  }

  predicate Disciplined(plan: Plan)
  {
    forall n | 0 <= n < |plan| :: Proper(plan, n)
  }

  // Every operation follows the discipline.
  lemma PlansAreDisciplined(op: Op)
    ensures Disciplined(PlanOf(op))
  {
    match op
    case Create(o, p, evicted) =>
      ChangeIsDisciplined([Lock(ProfileRow(o), Exclusive), NeedMember(o), Lock(PositionRow(o, p), Exclusive)], o, p,
        evicted, true);
    case Change(o, p, evicted, enabled) =>
      ChangeIsDisciplined([Lock(ProfileRow(o), Exclusive), NeedMember(o), Lock(PositionRow(o, p), Exclusive),
        NeedPosition((p, o))],
                          o, p, evicted, enabled);
    case _ => ShortPlansAreDisciplined(op);
  }

  lemma ShortPlansAreDisciplined(op: Op)
    requires !op.Create? && !op.Change?
    ensures Disciplined(PlanOf(op))
  {
    forall n | 0 <= n < |PlanOf(op)|
      ensures Proper(PlanOf(op), n)
    {
      if op.Configure? {
        ConfigureIsProper(op, n);
      } else {
        ShortIsProper(op, n);
      }
    }
  }

  lemma ShortIsProper(op: Op, n: nat)
    requires !op.Create? && !op.Change? && !op.Configure? && n < |PlanOf(op)|
    ensures Proper(PlanOf(op), n)
  {
    var plan := PlanOf(op);
    if n > 0 {
      assert Has(plan, n, plan[0]);
      if n > 1 {
        assert Has(plan, n, plan[1]);
        if n > 2 {
          assert Has(plan, n, plan[2]);
        }
      }
    }
  }

  lemma ConfigureIsProper(op: Op, n: nat)
    requires op.Configure? && n < |PlanOf(op)|
    ensures Proper(PlanOf(op), n)
  {
    var plan := PlanOf(op);
    if n > 1 {
      assert Has(plan, n, plan[1]);
      if n > 3 {
        assert Has(plan, n, plan[3]);
        if n > 5 {
          assert Has(plan, n, plan[5]);
        }
      }
    }
  }

  lemma ChangeIsDisciplined(head: Plan, o: string, p: string, evicted: seq<string>, enabled: bool)
    requires |head| >= 3 && head[0] == Lock(ProfileRow(o), Exclusive) && head[1] == NeedMember(o)
    requires head[2] == Lock(PositionRow(o, p), Exclusive)
    requires |head| == 3 || (|head| == 4 && head[3] == NeedPosition((p, o)))
    ensures Disciplined(head + LockAll(o, evicted) + [WritePosition((p, o), enabled)])
  {
    var plan := head + LockAll(o, evicted) + [WritePosition((p, o), enabled)];
    forall n | 0 <= n < |plan|
      ensures Proper(plan, n)
    {
      assert plan[0] == head[0] && plan[1] == head[1] && plan[2] == head[2];
      assert forall i | |head| <= i < |plan| - 1 :: plan[i] == Lock(PositionRow(o, evicted[i - |head|]), Exclusive);
    }
  }

  // ---- What every reachable state keeps ----

  predicate FactsHold(eligible: Eligible, plan: Plan, n: nat)
  {
    n <= |plan|
    && (forall i | 0 <= i < n && plan[i].NeedMember? :: plan[i].member in eligible.profiles)
    && (forall i | 0 <= i < n && plan[i].NeedPosition? :: plan[i].position in eligible.positions)
  }

  // What a transaction gives is what its mapping row still has, and it gives
  // nothing else.
  predicate GaveOk(slots: map<string, Slot>, x: Tx)
  {
    x.pc <= |x.plan|
    && (forall i | 0 <= i < x.pc && x.plan[i].Give? :: x.gave == SlotOf(slots, x.plan[i].givenBy))
    && (x.gave.Some? ==> exists i | 0 <= i < x.pc :: x.plan[i].Give?)
  }

  predicate TicketOk(x: Tx, clock: nat)
  {
    x.ticket.Some? ==> x.pc < |x.plan| && (x.plan[x.pc].Lock? || x.plan[x.pc].Take?) && x.ticket.value < clock
  }

  predicate TxOk(eligible: Eligible, slots: map<string, Slot>, clock: nat, x: Tx)
  {
    x.pc <= |x.plan| && Disciplined(x.plan) && TicketOk(x, clock) && FactsHold(eligible, x.plan, x.pc) && GaveOk(slots, x)
  }

  ghost predicate Compatible(x: Tx, y: Tx)
  {
    forall r, m | Holds(x, r, m) :: !Conflicts(y, r, m)
  }

  ghost predicate Inv(s: State)
  {
    (forall t | t in s.txs :: TxOk(s.eligible, s.slots, s.clock, s.txs[t]))
    && forall t, u | t in s.txs && u in s.txs && t != u :: Compatible(s.txs[t], s.txs[u])
  }

  lemma HasNext(plan: Plan, n: nat, instr: Instr)
    requires n < |plan|
    ensures Has(plan, n + 1, instr) <==> Has(plan, n, instr) || plan[n] == instr
  {
    if plan[n] == instr {
      assert Has(plan, n + 1, instr);
    }
  }

  // Executing anything but a lock keeps what is held.
  lemma StillCompatible(x: Tx, next: Tx, y: Tx)
    requires Compatible(x, y) && Compatible(y, x) && next.plan == x.plan && x.pc < |x.plan| && next.pc == x.pc + 1
    requires x.plan[x.pc].Lock? ==> !Conflicts(y, x.plan[x.pc].resource, x.plan[x.pc].mode)
    ensures Compatible(next, y) && Compatible(y, next)
  {
    forall r, m
      ensures Holds(next, r, m) <==> Holds(x, r, m) || x.plan[x.pc] == Lock(r, m)
    {
      HasNext(x.plan, x.pc, Lock(r, m));
    }
    hide Holds;
  }

  lemma DoneKeeps(s: State, t: nat, x: Tx)
    requires Inv(s) && t in s.txs && x == s.txs[t] && Active(x) && !x.plan[x.pc].Give?
    requires x.plan[x.pc].Lock? ==> Free(s, t, x.plan[x.pc].resource, x.plan[x.pc].mode)
    requires x.plan[x.pc].NeedMember? ==> x.plan[x.pc].member in s.eligible.profiles
    requires x.plan[x.pc].NeedPosition? ==> x.plan[x.pc].position in s.eligible.positions
    ensures Inv(Done(s, t, x))
  {
    hide Compatible, Disciplined, Conflicts;
    var next := x.(pc := x.pc + 1, ticket := None);
    assert TxOk(s.eligible, s.slots, s.clock, x);
    assert TxOk(s.eligible, s.slots, s.clock, next);
    forall u | u in s.txs && u != t
      ensures Compatible(next, s.txs[u]) && Compatible(s.txs[u], next)
    {
      StillCompatible(x, next, s.txs[u]);
    }
  }

  lemma GiveKeeps(s: State, t: nat, x: Tx, p: string)
    requires Inv(s) && t in s.txs && x == s.txs[t] && Active(x) && x.plan[x.pc] == Give(p)
    ensures Inv(Done(s, t, x.(gave := SlotOf(s.slots, p))))
  {
    hide Compatible, Conflicts;
    var next := x.(pc := x.pc + 1, ticket := None, gave := SlotOf(s.slots, p));
    assert TxOk(s.eligible, s.slots, s.clock, x);
    assert Proper(x.plan, x.pc);
    hide Disciplined, Proper;
    assert TxOk(s.eligible, s.slots, s.clock, next);
    forall u | u in s.txs && u != t
      ensures Compatible(next, s.txs[u]) && Compatible(s.txs[u], next)
    {
      StillCompatible(x, next, s.txs[u]);
    }
  }

  lemma EnqueueKeeps(s: State, t: nat, x: Tx)
    requires Inv(s) && t in s.txs && x == s.txs[t] && Active(x) && (x.plan[x.pc].Lock? || x.plan[x.pc].Take?)
    ensures Inv(Enqueue(s, t, x))
  {
    hide Disciplined, Has;
  }

  lemma LeaveKeeps(s: State, t: nat)
    requires Inv(s)
    ensures Inv(Leave(s, t))
  {
    hide Compatible, TxOk;
  }

  // What a commit writes it has locked, so nobody else relies on the old value.
  lemma {:induction false} ApplyAllChanges(eligible: Eligible, plan: Plan)
    ensures var after := ApplyAll(eligible, plan);
            (forall o :: o in eligible.profiles && o !in after.profiles ==> exists i, on :: 0 <= i < |plan| && plan[i] == WriteMember(o, on))
            && forall p :: p in eligible.positions && p !in after.positions ==> exists i, on :: 0 <= i < |plan| && plan[i] == WritePosition(p, on)
    decreases |plan|
  {
    if plan != [] {
      var first := ApplyTo(eligible, plan[0]);
      ApplyAllChanges(first, plan[1..]);
      var after := ApplyAll(eligible, plan);
      forall o | o in eligible.profiles && o !in after.profiles
        ensures exists i, on :: 0 <= i < |plan| && plan[i] == WriteMember(o, on)
      {
        if o in first.profiles {
          var i, on :| 0 <= i < |plan[1..]| && plan[1..][i] == WriteMember(o, on);
          assert plan[i + 1] == WriteMember(o, on);
        } else {
          assert plan[0] == WriteMember(o, false);
        }
      }
      forall p | p in eligible.positions && p !in after.positions
        ensures exists i, on :: 0 <= i < |plan| && plan[i] == WritePosition(p, on)
      {
        if p in first.positions {
          var i, on :| 0 <= i < |plan[1..]| && plan[1..][i] == WritePosition(p, on);
          assert plan[i + 1] == WritePosition(p, on);
        } else {
          assert plan[0] == WritePosition(p, false);
        }
      }
    }
  }

  lemma {:induction false} MapAllChanges(slots: map<string, Slot>, plan: Plan, p: string)
    ensures SlotOf(MapAll(slots, plan), p) != SlotOf(slots, p) ==> exists i, a :: 0 <= i < |plan| && plan[i] == WriteMapping(p, a)
    decreases |plan|
  {
    if plan != [] {
      var first := if plan[0].WriteMapping? then slots[plan[0].mapped := plan[0].slot] else slots;
      MapAllChanges(first, plan[1..], p);
      if SlotOf(first, p) != SlotOf(slots, p) {
        assert plan[0] == WriteMapping(p, plan[0].slot);
      } else if SlotOf(MapAll(slots, plan), p) != SlotOf(slots, p) {
        var i, a :| 0 <= i < |plan[1..]| && plan[1..][i] == WriteMapping(p, a);
        assert plan[i + 1] == WriteMapping(p, a);
      }
    }
  }

  lemma HasStays(plan: Plan, n: nat, k: nat, instr: Instr)
    requires n <= k <= |plan| && Has(plan, n, instr)
    ensures Has(plan, k, instr)
  {
  }

  // Another transaction that is not finished keeps its facts and its given slot.
  lemma CommitKeepsOther(s: State, t: nat, u: nat)
    requires Inv(s) && t in s.txs && u in s.txs && t != u && s.txs[t].pc == |s.txs[t].plan|
    ensures TxOk(ApplyAll(s.eligible, s.txs[t].plan), MapAll(s.slots, s.txs[t].plan), s.clock, s.txs[u])
  {
    var x, y := s.txs[t], s.txs[u];
    var after, slots := ApplyAll(s.eligible, x.plan), MapAll(s.slots, x.plan);
    assert TxOk(s.eligible, s.slots, s.clock, x) && TxOk(s.eligible, s.slots, s.clock, y) && Compatible(y, x);
    ApplyAllChanges(s.eligible, x.plan);
    forall i | 0 <= i < y.pc && y.plan[i].NeedMember?
      ensures y.plan[i].member in after.profiles
    {
      NeedsStay(s, x, y, i);
    }
    forall i | 0 <= i < y.pc && y.plan[i].NeedPosition?
      ensures y.plan[i].position in after.positions
    {
      NeedsStay(s, x, y, i);
    }
    forall i | 0 <= i < y.pc && y.plan[i].Give?
      ensures y.gave == SlotOf(slots, y.plan[i].givenBy)
    {
      GiftStays(s, x, y, i);
    }
  }

  lemma NeedsStay(s: State, x: Tx, y: Tx, i: nat)
    requires TxOk(s.eligible, s.slots, s.clock, x) && TxOk(s.eligible, s.slots, s.clock, y) && Compatible(y, x)
    requires x.pc == |x.plan| && i < y.pc && (y.plan[i].NeedMember? || y.plan[i].NeedPosition?)
    ensures y.plan[i].NeedMember? ==> y.plan[i].member in ApplyAll(s.eligible, x.plan).profiles
    ensures y.plan[i].NeedPosition? ==> y.plan[i].position in ApplyAll(s.eligible, x.plan).positions
  {
    hide Compatible;
    ApplyAllChanges(s.eligible, x.plan);
    assert Proper(y.plan, i);
    var r := if y.plan[i].NeedMember? then ProfileRow(y.plan[i].member)
      else PositionRow(y.plan[i].position.1, y.plan[i].position.0);
    var m := if Has(y.plan, i, Lock(r, Shared)) then Shared else Exclusive;
    HasStays(y.plan, i, y.pc, Lock(r, m));
    Unlocked(x, y, r, m);
    if y.plan[i].NeedMember? && y.plan[i].member !in ApplyAll(s.eligible, x.plan).profiles {
      var k, on :| 0 <= k < |x.plan| && x.plan[k] == WriteMember(y.plan[i].member, on);
      assert Proper(x.plan, k);
      HasStays(x.plan, k, x.pc, Lock(r, Exclusive));
      assert false;
    }
    if y.plan[i].NeedPosition? && y.plan[i].position !in ApplyAll(s.eligible, x.plan).positions {
      var k, on :| 0 <= k < |x.plan| && x.plan[k] == WritePosition(y.plan[i].position, on);
      assert Proper(x.plan, k);
      HasStays(x.plan, k, x.pc, Lock(r, Exclusive));
      assert false;
    }
  }

  lemma Unlocked(x: Tx, y: Tx, r: Resource, m: Mode)
    requires Compatible(y, x) && Holds(y, r, m)
    ensures !Has(x.plan, x.pc, Lock(r, Exclusive))
  {
    assert !Conflicts(x, r, m);
  }

  lemma GiftStays(s: State, x: Tx, y: Tx, i: nat)
    requires TxOk(s.eligible, s.slots, s.clock, x) && TxOk(s.eligible, s.slots, s.clock, y) && Compatible(y, x)
    requires x.pc == |x.plan| && i < y.pc && y.plan[i].Give?
    ensures SlotOf(MapAll(s.slots, x.plan), y.plan[i].givenBy) == SlotOf(s.slots, y.plan[i].givenBy)
  {
    hide Compatible;
    var p := y.plan[i].givenBy;
    MapAllChanges(s.slots, x.plan, p);
    assert Proper(y.plan, i);
    HasStays(y.plan, i, y.pc, Lock(MappingRow(p), Exclusive));
    Unlocked(x, y, MappingRow(p), Exclusive);
    if SlotOf(MapAll(s.slots, x.plan), p) != SlotOf(s.slots, p) {
      var k, a :| 0 <= k < |x.plan| && x.plan[k] == WriteMapping(p, a);
      assert Proper(x.plan, k);
      HasStays(x.plan, k, x.pc, Lock(MappingRow(p), Exclusive));
      assert false;
    }
  }

  lemma CommitKeeps(s: State, t: nat)
    requires Inv(s) && t in s.txs && s.txs[t].pc == |s.txs[t].plan|
    ensures Inv(Step(s, Commit(t)).value)
  {
    hide TxOk, Compatible, ApplyAll, MapAll;
    forall u | u in s.txs && u != t
      ensures TxOk(ApplyAll(s.eligible, s.txs[t].plan), MapAll(s.slots, s.txs[t].plan), s.clock, s.txs[u])
    {
      CommitKeepsOther(s, t, u);
    }
  }

  lemma BeginKeeps(s: State, t: nat, op: Op)
    requires Inv(s) && t !in s.txs
    ensures Inv(Step(s, Begin(t, op)).value)
  {
    PlansAreDisciplined(op);
    hide PlanOf, Disciplined;
    var x := Tx(PlanOf(op), 0, None, None);
    assert TxOk(s.eligible, s.slots, s.clock, x);
    forall u | u in s.txs
      ensures Compatible(x, s.txs[u]) && Compatible(s.txs[u], x)
    {
    }
    hide TxOk, Compatible;
  }

  lemma StepKeeps(s: State, e: Event)
    requires Inv(s) && Step(s, e).Some?
    ensures Inv(Step(s, e).value)
  {
    hide Inv, Disciplined, PlanOf, ApplyAll, MapAll, Free, Undoubted;
    match e
    case Begin(t, op) => BeginKeeps(s, t, op);
    case Abort(t) => LeaveKeeps(s, t);
    case Commit(t) => CommitKeeps(s, t);
    case Queue(t) => EnqueueKeeps(s, t, s.txs[t]);
    case Move(t) =>
      var x := s.txs[t];
      match x.plan[x.pc] {
        case Give(p) => GiveKeeps(s, t, x, p);
        case Lock(r, m) => if Free(s, t, r, m) { DoneKeeps(s, t, x); } else { EnqueueKeeps(s, t, x); }
        case Take(a) =>
          if !Undoubted(s, t, a) {
            EnqueueKeeps(s, t, x);
          } else {
            LeaveKeeps(s, t);
            DoneKeeps(s, t, x);
          }
        case NeedMember(o) => if o in s.eligible.profiles { DoneKeeps(s, t, x); } else { LeaveKeeps(s, t); }
        case NeedPosition(p) => if p in s.eligible.positions { DoneKeeps(s, t, x); } else { LeaveKeeps(s, t); }
        case _ => DoneKeeps(s, t, x);
      }
  }

  lemma {:induction false} RunKeeps(s: State, es: seq<Event>)
    requires Inv(s) && Run(s, es).Some?
    ensures Inv(Run(s, es).value)
    decreases |es|
  {
    hide Inv, Step;
    if es != [] {
      StepKeeps(s, es[0]);
      RunKeeps(Step(s, es[0]).value, es[1..]);
    }
  }
}
