// What the lock discipline gives: the cycles of waiting transactions are exactly
// the rotations of external positions under the unique index, and eligibility
// that was checked under lock still holds at commit.
module LockTheorems {
  import opened Wrappers
  import opened Locks
  import ConversionStore

  // `t` cannot proceed before `u` does: `u` holds what `t` wants, or, under a
  // policy that serves in order, queued for it first.
  predicate WaitsFor(s: State, t: nat, u: nat)
  {
    t in s.txs && u in s.txs && t != u && Waiting(s.txs[t])
    && match s.txs[t].plan[s.txs[t].pc]
       case Lock(r, m) => Conflicts(s.txs[u], r, m) || QueuedBefore(s.txs[u], r, s.txs[t].ticket.value)
       case Take(a) => Doubts(s.txs[u], a)
       case _ => false
  }

  predicate QueuedBefore(x: Tx, r: Resource, ticket: nat)
  {
    Waiting(x) && x.plan[x.pc].Lock? && x.plan[x.pc].resource == r && x.ticket.value < ticket
  }

  predicate AtLock(x: Tx)
  {
    Waiting(x) && x.plan[x.pc].Lock?
  }

  predicate AtIndex(x: Tx)
  {
    Waiting(x) && x.plan[x.pc].Take?
  }

  // How far up the hierarchy a waiting transaction stands.
  function Height(x: Tx): nat
    requires Waiting(x)
  {
    if x.plan[x.pc].Lock? then Rank(x.plan[x.pc].resource) else 4
  }

  predicate Climbs(x: Tx, y: Tx)
    requires Waiting(x) && Waiting(y)
  {
    Height(x) < Height(y) || (Height(x) == Height(y) && y.ticket.value < x.ticket.value)
  }

  // The next transaction is changing the very mapping whose external position
  // this one wants.
  predicate Wants(s: State, t: nat, u: nat)
  {
    t in s.txs && u in s.txs && t != u
    && var x, y := s.txs[t], s.txs[u];
    AtIndex(x) && y.pc <= |y.plan|
    && exists i | 0 <= i < y.pc && y.plan[i].Give? :: SlotOf(s.slots, y.plan[i].givenBy) == Some(x.plan[x.pc].slot)
  }

  // A transaction that waits for a row lock waits for one that stands higher up.
  lemma LockEdgeClimbs(s: State, t: nat, u: nat)
    requires Inv(s) && WaitsFor(s, t, u) && AtLock(s.txs[t]) && Waiting(s.txs[u])
    ensures Climbs(s.txs[t], s.txs[u])
  {
    var x, y := s.txs[t], s.txs[u];
    assert TxOk(s.eligible, s.slots, s.clock, x) && TxOk(s.eligible, s.slots, s.clock, y) && Compatible(x, y);
    hide Inv, Disciplined, FactsHold, GaveOk;
    var r, m := x.plan[x.pc].resource, x.plan[x.pc].mode;
    if Conflicts(y, r, m) && y.plan[y.pc].Lock? {
      assert Proper(x.plan, x.pc) && Proper(y.plan, y.pc) by { DisciplineAt(x); DisciplineAt(y); }
      OwnerLocked(x, y, r, m);
    }
  }

  lemma DisciplineAt(x: Tx)
    requires Disciplined(x.plan) && x.pc < |x.plan|
    ensures Proper(x.plan, x.pc)
  {
  }

  // Holding `r` while waiting for another row means that row ranks higher: two
  // positions of one owner are locked only under an exclusive profile lock, and
  // then nobody else waits for a position of that owner.
  lemma OwnerLocked(x: Tx, y: Tx, r: Resource, m: Mode)
    requires x.pc < |x.plan| && y.pc < |y.plan| && Proper(x.plan, x.pc) && Proper(y.plan, y.pc) && Compatible(x, y)
    requires x.plan[x.pc] == Lock(r, m) && Conflicts(y, r, m) && y.plan[y.pc].Lock?
    ensures Rank(r) < Rank(y.plan[y.pc].resource)
  {
    hide Compatible;
    var n := if Holds(y, r, Exclusive) then Exclusive else Shared;
    var i :| 0 <= i < y.pc && y.plan[i] == Lock(r, n);
    assert Orderly(y.plan, y.pc, y.plan[i].resource, y.plan[y.pc].resource);
    if Rank(r) >= Rank(y.plan[y.pc].resource) {
      var k := if Has(x.plan, x.pc, Lock(ProfileRow(r.owner), Shared)) then Shared else Exclusive;
      assert Holds(x, ProfileRow(r.owner), k);
      Unlocked(y, x, ProfileRow(r.owner), k);
      assert false;
    }
  }

  // A transaction that waits at the index waits for one that is changing the
  // mapping it wants; if that one waits too, it waits at the index.
  lemma IndexEdge(s: State, t: nat, u: nat)
    requires Inv(s) && WaitsFor(s, t, u) && AtIndex(s.txs[t]) && Waiting(s.txs[u])
    ensures AtIndex(s.txs[u]) && Wants(s, t, u)
  {
    var x, y := s.txs[t], s.txs[u];
    assert TxOk(s.eligible, s.slots, s.clock, y);
    DisciplineAt(y);
    hide Inv, Disciplined, FactsHold;
    assert forall i | 0 <= i < y.pc :: !y.plan[i].Take?;
    assert y.gave == Some(x.plan[x.pc].slot);
    var i :| 0 <= i < y.pc && y.plan[i].Give?;
    assert y.gave == SlotOf(s.slots, y.plan[i].givenBy);
  }

  // Whoever is changing the mapping that is wanted stands in the way.
  lemma WantedBlocks(s: State, t: nat, u: nat)
    requires Inv(s) && Wants(s, t, u)
    ensures WaitsFor(s, t, u)
  {
    var x, y := s.txs[t], s.txs[u];
    assert TxOk(s.eligible, s.slots, s.clock, y);
    hide Inv, Disciplined, FactsHold;
    var i :| 0 <= i < y.pc && y.plan[i].Give? && SlotOf(s.slots, y.plan[i].givenBy) == Some(x.plan[x.pc].slot);
    assert Doubts(y, x.plan[x.pc].slot);
  }

  predicate Chain(s: State, path: seq<nat>)
  {
    |path| > 0 && path[|path| - 1] in s.txs && Waiting(s.txs[path[|path| - 1]])
    && forall i | 0 <= i < |path| - 1 :: WaitsFor(s, path[i], path[i + 1])
  }

  // Each wants the external position that the next one's mapping has.
  predicate Rotates(s: State, path: seq<nat>)
  {
    forall i | 0 <= i < |path| - 1 :: Wants(s, path[i], path[i + 1])
  }

  lemma ChainStarts(s: State, path: seq<nat>)
    requires Chain(s, path)
    ensures path[0] in s.txs && Waiting(s.txs[path[0]])
    ensures |path| > 1 ==> WaitsFor(s, path[0], path[1]) && Chain(s, path[1..])
  {
    if |path| > 1 {
      assert WaitsFor(s, path[0], path[0 + 1]);
      var rest := path[1..];
      forall i | 0 <= i < |rest| - 1
        ensures WaitsFor(s, rest[i], rest[i + 1])
      {
        assert WaitsFor(s, path[i + 1], path[i + 1 + 1]);
      }
    }
  }

  lemma {:induction false} ChainClimbs(s: State, path: seq<nat>)
    requires Inv(s) && Chain(s, path) && |path| > 1
    ensures path[0] in s.txs && Waiting(s.txs[path[0]])
    ensures AtLock(s.txs[path[0]]) ==> Climbs(s.txs[path[0]], s.txs[path[|path| - 1]])
    ensures !AtLock(s.txs[path[0]]) ==> AtIndex(s.txs[path[|path| - 1]]) && Rotates(s, path)
  {
    ChainStarts(s, path);
    var rest := path[1..];
    ChainStarts(s, rest);
    hide Inv, Chain, Wants;
    assert AtLock(s.txs[path[0]]) || AtIndex(s.txs[path[0]]);
    if AtLock(s.txs[path[0]]) {
      LockEdgeClimbs(s, path[0], path[1]);
      if |rest| > 1 {
        ChainClimbs(s, rest);
      }
    } else {
      IndexEdge(s, path[0], path[1]);
      if |rest| > 1 {
        ChainClimbs(s, rest);
      }
      forall i | 0 <= i < |path| - 1
        ensures Wants(s, path[i], path[i + 1])
      {
        if i > 0 {
          assert path[i] == rest[i - 1] && path[i + 1] == rest[i - 1 + 1];
        }
      }
    }
  }

  predicate Closed(path: seq<nat>)
  {
    |path| > 1 && path[0] == path[|path| - 1]
  }

  // The cycles of waiting transactions are exactly the configurations that pass
  // their external positions round: no row lock or advisory lock is part of one.
  lemma CyclesAreRotations(es: seq<Event>, path: seq<nat>)
    requires Run(START, es).Some? && Closed(path)
    ensures Chain(Run(START, es).value, path) <==> Rotates(Run(START, es).value, path)
  {
    RunKeeps(START, es);
    var s := Run(START, es).value;
    hide Inv, Run;
    if Chain(s, path) {
      ChainClimbs(s, path);
    }
    if Rotates(s, path) {
      RotationWaits(s, path);
    }
  }

  lemma RotationWaits(s: State, path: seq<nat>)
    requires Inv(s) && Closed(path) && Rotates(s, path)
    ensures Chain(s, path)
  {
    hide Inv, WaitsFor;
    assert Wants(s, path[0], path[0 + 1]);
    forall i | 0 <= i < |path| - 1
      ensures WaitsFor(s, path[i], path[i + 1])
    {
      WantedBlocks(s, path[i], path[i + 1]);
    }
  }

  // No configuration in flight asks for what another position has.
  predicate NoExchange(s: State)
  {
    forall t, i, q | t in s.txs && 0 <= i < |s.txs[t].plan| && s.txs[t].plan[i].WriteMapping? && q in s.slots ::
      s.slots[q] == s.txs[t].plan[i].slot ==> q == s.txs[t].plan[i].mapped
  }

  // As long as that is so nobody waits in a circle.
  lemma NoExchangeNoCycle(es: seq<Event>, path: seq<nat>)
    requires Run(START, es).Some? && NoExchange(Run(START, es).value) && Closed(path)
    ensures !Chain(Run(START, es).value, path)
  {
    RunKeeps(START, es);
    var s := Run(START, es).value;
    hide Run;
    if Chain(s, path) {
      ChainClimbs(s, path);
      assert Wants(s, path[0], path[0 + 1]);
      WantedIsAssigned(s, path[0], path[1]);
    }
  }

  // What is wanted is assigned to another position than the one it is wanted for.
  lemma WantedIsAssigned(s: State, t: nat, u: nat)
    requires Inv(s) && Wants(s, t, u)
    ensures !NoExchange(s)
  {
    var x, y := s.txs[t], s.txs[u];
    assert TxOk(s.eligible, s.slots, s.clock, x) && TxOk(s.eligible, s.slots, s.clock, y) && Compatible(y, x);
    DisciplineAt(x);
    var i :| 0 <= i < y.pc && y.plan[i].Give? && SlotOf(s.slots, y.plan[i].givenBy) == Some(x.plan[x.pc].slot);
    var q, p := y.plan[i].givenBy, x.plan[x.pc + 1].mapped;
    assert Proper(y.plan, i) && Proper(x.plan, x.pc + 1);
    hide Inv, Compatible, Disciplined, FactsHold, GaveOk, Proper;
    HasStays(y.plan, i, y.pc, Lock(MappingRow(q), Exclusive));
    Unlocked(x, y, MappingRow(q), Exclusive);
    HasNext(x.plan, x.pc, Lock(MappingRow(p), Exclusive));
    assert x.plan[x.pc + 1].WriteMapping? && q != p;
  }

  // Somebody can always go on: from any transaction, the waiting leads to one
  // that does not wait, whose lock is free, or that waits at the index.
  lemma SomebodyMoves(s: State, t: nat) returns (u: nat)
    requires Inv(s) && t in s.txs
    ensures u in s.txs
    ensures !Waiting(s.txs[u]) || AtIndex(s.txs[u]) || Step(s, Move(u)) == Some(Done(s, u, s.txs[u]))
    decreases if Waiting(s.txs[t]) then 5 - Height(s.txs[t]) else 0, if Waiting(s.txs[t]) then s.txs[t].ticket.value else 0
  {
    u := t;
    if Waiting(s.txs[t]) && !AtIndex(s.txs[t]) && exists w :: WaitsFor(s, t, w) {
      var w :| WaitsFor(s, t, w);
      if Waiting(s.txs[w]) {
        LockEdgeClimbs(s, t, w);
      }
      hide Inv;
      u := SomebodyMoves(s, w);
    } else if AtLock(s.txs[t]) {
      var x := s.txs[t];
      forall w | w in s.txs && w != t
        ensures !Conflicts(s.txs[w], x.plan[x.pc].resource, x.plan[x.pc].mode)
      {
        assert !WaitsFor(s, t, w);
      }
    }
  }

  // At the commit of a claim or a new reservation, owner and position are ENABLED.
  lemma CommittedWorkIsEligible(es: seq<Event>, t: nat, op: Op)
    requires Run(START, es).Some? && (op.Claim? || op.Reserve?)
    requires var s := Run(START, es).value; t in s.txs && s.txs[t].plan == PlanOf(op) && Step(s, Commit(t)).Some?
    ensures var s := Run(START, es).value; op.owner in s.eligible.profiles && (op.positionId, op.owner) in s.eligible.positions
    ensures Step(Run(START, es).value, Commit(t)).value.eligible == Run(START, es).value.eligible
  {
    RunKeeps(START, es);
    var s := Run(START, es).value;
    assert TxOk(s.eligible, s.slots, s.clock, s.txs[t]);
    assert s.txs[t].plan[1] == NeedMember(op.owner) && s.txs[t].plan[3] == NeedPosition((op.positionId, op.owner));
    ReadersWriteNothing(s.eligible, PlanOf(op));
  }

  lemma {:induction false} ReadersWriteNothing(eligible: ConversionStore.Eligible, plan: Plan)
    requires forall i | 0 <= i < |plan| :: !plan[i].WriteMember? && !plan[i].WritePosition?
    ensures ApplyAll(eligible, plan) == eligible
    decreases |plan|
  {
    if plan != [] {
      ReadersWriteNothing(eligible, plan[1..]);
    }
  }
}
