// What the transactions of the lock model bring about: their effects at commit,
// what stays put while they are in flight, and the unique index.
module LockEffects {
  import opened Wrappers
  import ConversionStore
  import opened Locks
  import opened LockTheorems
  import opened LockRotations

  // ---- Effects ----

  // At commit a review, disabling or submission decides the membership, a change of a
  // position its status, a configuration its external position; the others nothing.
  lemma CommitEffect(s: State, op: Op)
    ensures var e, slots := ApplyAll(s.eligible, PlanOf(op)), MapAll(s.slots, PlanOf(op));
            (slots == if op.Configure? then s.slots[op.positionId := op.slot] else s.slots)
            && (match op
                case Review(_, o, _, on) => e.profiles == if on then s.eligible.profiles + {o} else s.eligible.profiles - {o}
                case Disable(_, o) => e.profiles == s.eligible.profiles - {o}
                case Submit(o, _) => e.profiles == s.eligible.profiles - {o}
                case _ => e.profiles == s.eligible.profiles)
            && match op
               case Create(o, p, _) => e.positions == s.eligible.positions + {(p, o)}
               case Change(o, p, _, on) =>
                 e.positions == if on then s.eligible.positions + {(p, o)} else s.eligible.positions - {(p, o)}
               case _ => e.positions == s.eligible.positions
  {
    var plan := PlanOf(op);
    var n := |plan| - 1;
    match op
    case Configure(_, _, _, _) => ConfigureWrites(s, op);
    case Reserve(_, _) => ReadersWriteNothing(s.eligible, plan); NothingMapped(s.slots, plan);
    case Claim(_, _, _) => ReadersWriteNothing(s.eligible, plan); NothingMapped(s.slots, plan);
    case Mark(_) => ReadersWriteNothing(s.eligible, plan); NothingMapped(s.slots, plan);
    case _ => LastDecides(s.eligible, plan, n); NothingMapped(s.slots, plan);
  }

  // ---- What stays put ----

  // A mapping that is locked, shared or not, is assigned by nobody else until its
  // reader ends: a reservation books under the mapping it checked.
  lemma LockedMappingStays(s: State, e: Event, t: nat, p: string, m: Mode)
    requires Inv(s) && t in s.txs && Holds(s.txs[t], MappingRow(p), m) && Step(s, e).Some? && !(e.Commit? && e.t == t)
    ensures SlotOf(Step(s, e).value.slots, p) == SlotOf(s.slots, p)
  {
    if e.Commit? {
      var x, y := s.txs[e.t], s.txs[t];
      assert TxOk(s.eligible, s.slots, s.clock, x) && Compatible(y, x);
      hide Inv, Compatible;
      Unlocked(x, y, MappingRow(p), m);
      UnlockedStays(s, x, p);
      hide MapAll, ApplyAll;
    } else {
      hide Inv, Holds, Free, Undoubted, PlanOf;
    }
  }

  lemma UnlockedStays(s: State, x: Tx, p: string)
    requires Disciplined(x.plan) && x.pc == |x.plan| && !Has(x.plan, x.pc, Lock(MappingRow(p), Exclusive))
    ensures SlotOf(MapAll(s.slots, x.plan), p) == SlotOf(s.slots, p)
  {
    MapAllChanges(s.slots, x.plan, p);
    hide Disciplined, Has, SlotOf;
    forall k | 0 <= k < |x.plan|
      ensures !(x.plan[k].WriteMapping? && x.plan[k].mapped == p)
    {
      UnlockedAt(x, k, p);
    }
  }

  lemma UnlockedAt(x: Tx, k: nat, p: string)
    requires Disciplined(x.plan) && k < |x.plan| == x.pc && !Has(x.plan, x.pc, Lock(MappingRow(p), Exclusive))
    ensures !(x.plan[k].WriteMapping? && x.plan[k].mapped == p)
  {
    assert Proper(x.plan, k);
  }

  // No two transactions hold one request, or one position, for writing.
  lemma OneWriter(s: State, t: nat, u: nat, r: Resource)
    requires Inv(s) && t in s.txs && u in s.txs && Holds(s.txs[t], r, Exclusive) && Holds(s.txs[u], r, Exclusive)
    ensures t == u
  {
    if t != u {
      assert Compatible(s.txs[t], s.txs[u]);
      hide Inv, Compatible;
      Unlocked(s.txs[u], s.txs[t], r, Exclusive);
      assert false;
    }
  }

  // A finished reservation holds owner, position and mapping, a finished claim or mark
  // its request, and every other change of a position the position.
  lemma FinishedHolds(x: Tx, op: Op)
    requires x.plan == PlanOf(op) && x.pc == |x.plan|
    ensures op.Reserve? ==> Holds(x, ProfileRow(op.owner), Exclusive) && Holds(x, PositionRow(op.owner, op.positionId), Exclusive)
                            && Holds(x, MappingRow(op.positionId), Shared)
    ensures op.Claim? || op.Mark? ==> Holds(x, RequestRow(op.requestId), Exclusive)
    ensures op.Create? || op.Change? || op.Configure? ==>
              Holds(x, ProfileRow(op.owner), Exclusive) && Holds(x, PositionRow(op.owner, op.positionId), Exclusive)
    ensures op.Configure? ==> Holds(x, MappingRow(op.positionId), Exclusive) && Holds(x, Advisory(op.scope), Exclusive)
    ensures op.Review? || op.Submit? ==> Holds(x, ProfileRow(op.owner), Exclusive) && Holds(x, ApplicationRow(op.applicationId), Exclusive)
    ensures op.Create? || op.Change? ==>
              forall i | 0 <= i < |op.evicted| :: Holds(x, PositionRow(op.owner, op.evicted[i]), Exclusive)
  {
    match op {
      case Reserve(_, _) => HoldsAt(x, 0); HoldsAt(x, 2); HoldsAt(x, 4);
      case Claim(_, _, _) => HoldsAt(x, 4);
      case Mark(_) => HoldsAt(x, 0);
      case Configure(_, _, _, _) => HoldsAt(x, 0); HoldsAt(x, 1); HoldsAt(x, 3); HoldsAt(x, 5);
      case Review(_, _, _, _) => HoldsAt(x, 1); HoldsAt(x, 2);
      case Submit(_, _) => HoldsAt(x, 0); HoldsAt(x, 1);
      case Disable(_, _) =>
      case Create(_, _, _) => HoldsAt(x, 0); HoldsAt(x, 2); HoldsEvicted(x, op);
      case Change(_, _, _, _) => HoldsAt(x, 0); HoldsAt(x, 2); HoldsEvicted(x, op);
    }
    hide Holds;
  }

  lemma HoldsAt(x: Tx, i: nat)
    requires i < x.pc <= |x.plan| && x.plan[i].Lock?
    ensures Holds(x, x.plan[i].resource, x.plan[i].mode)
  {
    assert x.plan[i] == Lock(x.plan[i].resource, x.plan[i].mode);
  }

  lemma HoldsEvicted(x: Tx, op: Op)
    requires (op.Create? || op.Change?) && x.plan == PlanOf(op) && x.pc == |x.plan|
    ensures forall i | 0 <= i < |op.evicted| :: Holds(x, PositionRow(op.owner, op.evicted[i]), Exclusive)
  {
    var n := if op.Create? then 3 else 4;
    forall i | 0 <= i < |op.evicted|
      ensures Holds(x, PositionRow(op.owner, op.evicted[i]), Exclusive)
    {
      assert x.plan[n + i] == Lock(PositionRow(op.owner, op.evicted[i]), Exclusive);
      HoldsAt(x, n + i);
    }
  }

  // ---- The unique index ----

  predicate Injective(slots: map<string, Slot>)
  {
    forall p, q | p in slots && q in slots && slots[p] == slots[q] :: p == q
  }

  // An entry that was taken is nobody's, or still the one of the mapping it is for.
  predicate TakenIsFree(slots: map<string, Slot>, x: Tx)
  {
    x.pc <= |x.plan|
    && forall i, q | 0 <= i < x.pc && i + 1 < |x.plan| && x.plan[i].Take? && q in slots && slots[q] == x.plan[i].slot ::
         x.plan[i + 1] == WriteMapping(q, x.plan[i].slot)
  }

  predicate TakesApart(x: Tx, y: Tx)
  {
    x.pc <= |x.plan| && y.pc <= |y.plan|
    && forall i, j | 0 <= i < x.pc && 0 <= j < y.pc && x.plan[i].Take? && y.plan[j].Take? :: x.plan[i].slot != y.plan[j].slot
  }

  ghost predicate Unique(s: State)
  {
    Injective(s.slots) && (forall t | t in s.txs :: TakenIsFree(s.slots, s.txs[t]))
    && forall t, u | t in s.txs && u in s.txs && t != u :: TakesApart(s.txs[t], s.txs[u])
  }

  lemma TakeKeeps(s: State, t: nat)
    requires Inv(s) && Unique(s) && t in s.txs && Active(s.txs[t]) && s.txs[t].plan[s.txs[t].pc].Take?
    requires Undoubted(s, t, s.txs[t].plan[s.txs[t].pc].slot)
    requires var x := s.txs[t]; x.plan[x.pc].slot in s.slots.Values ==> x.gave == Some(x.plan[x.pc].slot)
    ensures Unique(Done(s, t, s.txs[t]))
  {
    var x := s.txs[t];
    var a := x.plan[x.pc].slot;
    var next := x.(pc := x.pc + 1, ticket := None);
    TakesOwnOrFree(s, x);
    forall u | u in s.txs && u != t
      ensures TakesApart(next, s.txs[u]) && TakesApart(s.txs[u], next)
    {
      var y := s.txs[u];
      assert TakesApart(x, y) && TakesApart(y, x) && !Doubts(y, a);
      hide Inv, Unique, TakenIsFree;
      forall j | 0 <= j < y.pc && y.plan[j].Take?
        ensures y.plan[j].slot != a
      {
        assert y.plan[j] == Take(y.plan[j].slot);
      }
    }
    hide Inv, TakesApart, TakenIsFree, Injective;
  }

  lemma TakesOwnOrFree(s: State, x: Tx)
    requires TxOk(s.eligible, s.slots, s.clock, x) && Injective(s.slots) && TakenIsFree(s.slots, x)
    requires Active(x) && x.plan[x.pc].Take? && (x.plan[x.pc].slot in s.slots.Values ==> x.gave == Some(x.plan[x.pc].slot))
    ensures TakenIsFree(s.slots, x.(pc := x.pc + 1, ticket := None))
  {
    var a := x.plan[x.pc].slot;
    DisciplineAt(x);
    hide FactsHold, Disciplined;
    forall q | q in s.slots && s.slots[q] == a
      ensures x.plan[x.pc + 1] == WriteMapping(q, a)
    {
      assert a in s.slots.Values;
      assert x.plan[x.pc - 1].Give?;
    }
  }

  lemma {:induction false} OneMapping(slots: map<string, Slot>, plan: Plan, n: nat)
    requires n < |plan| && plan[n].WriteMapping? && forall i | 0 <= i < |plan| && i != n :: !plan[i].WriteMapping?
    ensures MapAll(slots, plan) == slots[plan[n].mapped := plan[n].slot]
    decreases |plan|
  {
    if n == 0 {
      NothingMapped(slots[plan[0].mapped := plan[0].slot], plan[1..]);
    } else {
      OneMapping(slots, plan[1..], n - 1);
    }
  }

  // A finished transaction maps at most one position, to the entry it took.
  lemma MapsWhatItTook(slots: map<string, Slot>, plan: Plan) returns (n: nat)
    requires Disciplined(plan)
    ensures n < |plan| || (n == |plan| && MapAll(slots, plan) == slots)
    ensures n < |plan| ==>
              n > 0 && plan[n].WriteMapping? && plan[n - 1] == Take(plan[n].slot)
              && MapAll(slots, plan) == slots[plan[n].mapped := plan[n].slot]
  {
    if exists i | 0 <= i < |plan| :: plan[i].WriteMapping? {
      n :| 0 <= n < |plan| && plan[n].WriteMapping?;
      assert Proper(plan, n);
      forall i | 0 <= i < |plan| && plan[i].WriteMapping?
        ensures i == n
      {
        assert Proper(plan, i);
        assert Proper(plan, i - 1) && Proper(plan, n - 1);
      }
      OneMapping(slots, plan, n);
    } else {
      n := |plan|;
      NothingMapped(slots, plan);
    }
  }

  lemma CommitUnique(s: State, t: nat)
    requires Inv(s) && Unique(s) && t in s.txs && s.txs[t].pc == |s.txs[t].plan|
    ensures Unique(Step(s, Commit(t)).value)
  {
    var x := s.txs[t];
    assert TxOk(s.eligible, s.slots, s.clock, x) && TakenIsFree(s.slots, x);
    var n := MapsWhatItTook(s.slots, x.plan);
    var slots := MapAll(s.slots, x.plan);
    hide Inv, Disciplined, ApplyAll, MapAll, FactsHold, GaveOk;
    if n < |x.plan| {
      assert x.plan[n - 1].Take? && x.plan[n - 1].slot == x.plan[n].slot && x.plan[n - 1 + 1] == x.plan[n];
      MappedInjective(s.slots, x, n);
      forall u | u in s.txs && u != t
        ensures TakenIsFree(slots, s.txs[u])
      {
        assert TakesApart(x, s.txs[u]) && TakenIsFree(s.slots, s.txs[u]);
        OthersFree(s.slots, x, n, s.txs[u]);
      }
    }
    hide Injective, TakenIsFree, TakesApart;
  }

  lemma MappedInjective(slots: map<string, Slot>, x: Tx, n: nat)
    requires Injective(slots) && TakenIsFree(slots, x) && 0 < n < |x.plan| == x.pc
    requires x.plan[n].WriteMapping? && x.plan[n - 1] == Take(x.plan[n].slot)
    ensures Injective(slots[x.plan[n].mapped := x.plan[n].slot])
  {
    forall q | q in slots && slots[q] == x.plan[n].slot
      ensures q == x.plan[n].mapped
    {
      assert x.plan[n - 1].Take? && x.plan[n - 1 + 1] == WriteMapping(q, x.plan[n - 1].slot);
    }
  }

  lemma OthersFree(slots: map<string, Slot>, x: Tx, n: nat, y: Tx)
    requires TakesApart(x, y) && TakenIsFree(slots, y) && 0 < n < |x.plan| == x.pc
    requires x.plan[n].WriteMapping? && x.plan[n - 1] == Take(x.plan[n].slot)
    ensures TakenIsFree(slots[x.plan[n].mapped := x.plan[n].slot], y)
  {
    assert x.plan[n - 1].Take?;
  }

  lemma StepUnique(s: State, e: Event)
    requires Inv(s) && Unique(s) && Step(s, e).Some?
    ensures Unique(Step(s, e).value)
  {
    match e
    case Begin(t, op) => BeginUnique(s, t, op);
    case Abort(t) => LeaveUnique(s, t);
    case Queue(t) => EnqueueUnique(s, t, s.txs[t]);
    case Commit(t) => CommitUnique(s, t);
    case Move(t) =>
      var x := s.txs[t];
      if x.plan[x.pc].Take? && Undoubted(s, t, x.plan[x.pc].slot)
         && !(x.plan[x.pc].slot in s.slots.Values && x.gave != Some(x.plan[x.pc].slot)) {
        TakeKeeps(s, t);
        hide Unique, Inv, Undoubted;
      } else {
        MoveUnique(s, t);
        hide Unique, Inv, Undoubted, Step;
      }
  }

  lemma BeginUnique(s: State, t: nat, op: Op)
    requires Unique(s) && t !in s.txs
    ensures Unique(Step(s, Begin(t, op)).value)
  {
    hide Injective, PlanOf;
  }

  // An instruction that takes nothing leaves taken entries as they are.
  lemma MoveUnique(s: State, t: nat)
    requires Unique(s) && Step(s, Move(t)).Some?
    requires var x := s.txs[t];
             x.plan[x.pc].Take? ==>
               !Undoubted(s, t, x.plan[x.pc].slot) || (x.plan[x.pc].slot in s.slots.Values && x.gave != Some(x.plan[x.pc].slot))
    ensures Unique(Step(s, Move(t)).value)
  {
    var x := s.txs[t];
    LeaveUnique(s, t);
    EnqueueUnique(s, t, x);
    if !x.plan[x.pc].Take? {
      var given := if x.plan[x.pc].Give? then SlotOf(s.slots, x.plan[x.pc].givenBy) else x.gave;
      DoneUnique(s, t, x.(gave := given));
      assert x.(gave := x.gave) == x;
    }
    hide Unique, Free, Undoubted, SlotOf, Done, Enqueue, Leave;
  }

  lemma LeaveUnique(s: State, t: nat)
    requires Unique(s)
    ensures Unique(Leave(s, t))
  {
    hide Injective, TakenIsFree, TakesApart;
  }

  lemma EnqueueUnique(s: State, t: nat, x: Tx)
    requires Unique(s) && t in s.txs && x == s.txs[t]
    ensures Unique(Enqueue(s, t, x))
  {
    var next := x.(ticket := Some(s.clock));
    assert TakenIsFree(s.slots, x) && TakenIsFree(s.slots, next);
    forall u | u in s.txs && u != t
      ensures TakesApart(next, s.txs[u]) && TakesApart(s.txs[u], next)
    {
      assert TakesApart(x, s.txs[u]) && TakesApart(s.txs[u], x);
    }
    hide Injective, TakenIsFree, TakesApart;
  }

  lemma DoneUnique(s: State, t: nat, x: Tx)
    requires Unique(s) && t in s.txs && x.plan == s.txs[t].plan && x.pc == s.txs[t].pc && Active(x) && !x.plan[x.pc].Take?
    ensures Unique(Done(s, t, x))
  {
    var next := x.(pc := x.pc + 1, ticket := None);
    assert TakenIsFree(s.slots, s.txs[t]);
    assert TakenIsFree(s.slots, next);
    forall u | u in s.txs && u != t
      ensures TakesApart(next, s.txs[u]) && TakesApart(s.txs[u], next)
    {
      assert TakesApart(s.txs[t], s.txs[u]) && TakesApart(s.txs[u], s.txs[t]);
    }
    hide Injective, TakenIsFree, TakesApart;
  }

  lemma {:induction false} RunUnique(s: State, es: seq<Event>)
    requires Inv(s) && Unique(s) && Run(s, es).Some?
    ensures Unique(Run(s, es).value)
    decreases |es|
  {
    hide Inv, Unique, Step;
    if es != [] {
      StepKeeps(s, es[0]);
      StepUnique(s, es[0]);
      RunUnique(Step(s, es[0]).value, es[1..]);
    }
  }

  // In every reachable state no two positions have one external position, although
  // transactions change their mappings at the same time.
  lemma ExternalPositionsStayUnique(es: seq<Event>, p: string, q: string)
    requires Run(START, es).Some? && p in Run(START, es).value.slots && q in Run(START, es).value.slots && p != q
    ensures Run(START, es).value.slots[p] != Run(START, es).value.slots[q]
  {
    RunUnique(START, es);
  }

  // A configuration that gets to the index passes exactly when no transaction in
  // flight has a claim to the entry it wants and no other position has it.
  lemma PassesTheIndexIff(s: State, t: nat)
    requires Inv(s) && Unique(s) && t in s.txs && Active(s.txs[t]) && s.txs[t].plan[s.txs[t].pc].Take?
    ensures s.txs[t].pc + 1 < |s.txs[t].plan| && s.txs[t].plan[s.txs[t].pc + 1].WriteMapping?
    ensures var x := s.txs[t]; var a := x.plan[x.pc].slot;
            Step(s, Move(t)) == Some(Done(s, t, x))
            <==> (forall u | u in s.txs && u != t :: s.txs[u].gave != Some(a) && !Has(s.txs[u].plan, s.txs[u].pc, Take(a)))
                 && forall q | q in s.slots && s.slots[q] == a :: q == x.plan[x.pc + 1].mapped
  {
    var x := s.txs[t];
    var a := x.plan[x.pc].slot;
    assert TxOk(s.eligible, s.slots, s.clock, x);
    DisciplineAt(x);
    OwnEntry(s, x);
    hide Inv, Unique, Disciplined, FactsHold, GaveOk;
    assert Undoubted(s, t, a)
        <==> forall u | u in s.txs && u != t :: s.txs[u].gave != Some(a) && !Has(s.txs[u].plan, s.txs[u].pc, Take(a));
    assert Done(s, t, x).txs[t].pc == x.pc + 1;
    assert Leave(s, t) != Done(s, t, x) by { assert t !in Leave(s, t).txs; }
    assert Enqueue(s, t, x) != Done(s, t, x) by { assert Enqueue(s, t, x).txs[t].pc == x.pc; }
    hide Undoubted, Has;
  }

  lemma OwnEntry(s: State, x: Tx)
    requires TxOk(s.eligible, s.slots, s.clock, x) && Injective(s.slots) && Active(x) && x.plan[x.pc].Take?
    ensures x.pc + 1 < |x.plan| && x.plan[x.pc + 1].WriteMapping?
    ensures var a := x.plan[x.pc].slot;
            !(a in s.slots.Values && x.gave != Some(a)) <==> forall q | q in s.slots && s.slots[q] == a :: q == x.plan[x.pc + 1].mapped
  {
    DisciplineAt(x);
    hide FactsHold, Disciplined;
    assert x.plan[x.pc - 1].Give?;
    assert x.gave == SlotOf(s.slots, x.plan[x.pc + 1].mapped);
  }
}
