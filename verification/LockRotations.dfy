// When calls of ConfigureChannelPosition can wait for each other in a circle: a
// condition on the calls and on the mappings they find, and a run from the empty
// database that gets there.
module LockRotations {
  import opened Wrappers
  import ConversionStore
  import opened Locks
  import opened LockTheorems

  // ---- Undisturbed runs ----

  // Nothing is in the way of this instruction, and it leaves no trace but the step.
  predicate Clear(s: State, t: nat, instr: Instr)
  {
    match instr
    case Lock(r, m) => Free(s, t, r, m)
    case NeedMember(o) => o in s.eligible.profiles
    case NeedPosition(p) => p in s.eligible.positions
    case Give(_) => false
    case Take(_) => false
    case _ => true
  }

  function Moves(t: nat, n: nat): seq<Event>
  {
    if n == 0 then [] else [Move(t)] + Moves(t, n - 1)
  }

  lemma StaysClear(s: State, t: nat, instr: Instr)
    requires t in s.txs && Clear(s, t, instr)
    ensures Clear(Done(s, t, s.txs[t]), t, instr)
  {
    hide Conflicts;
  }

  // With nothing in its way a transaction runs through.
  lemma {:induction false} Glide(s: State, t: nat, n: nat)
    requires t in s.txs && s.txs[t].pc + n <= |s.txs[t].plan|
    requires forall i | s.txs[t].pc <= i < s.txs[t].pc + n :: Clear(s, t, s.txs[t].plan[i])
    requires s.txs[t].ticket.None?
    ensures Run(s, Moves(t, n)) == Some(s.(txs := s.txs[t := s.txs[t].(pc := s.txs[t].pc + n)]))
    decreases n
  {
    var x := s.txs[t];
    if n == 0 {
      assert s.txs[t := x] == s.txs;
    } else {
      var next := Done(s, t, x);
      assert Step(s, Move(t)) == Some(next) by {
        assert Clear(s, t, x.plan[x.pc]);
      }
      forall i | x.pc + 1 <= i < x.pc + n
        ensures Clear(next, t, x.plan[i])
      {
        StaysClear(s, t, x.plan[i]);
      }
      hide Step, Clear;
      Glide(next, t, n - 1);
      assert Moves(t, n)[1..] == Moves(t, n - 1);
      assert next.txs[t := next.txs[t].(pc := x.pc + n)] == s.txs[t := x.(pc := x.pc + n)];
    }
  }

  lemma {:induction false} RunAppend(s: State, es: seq<Event>, fs: seq<Event>)
    requires Run(s, es).Some?
    ensures Run(s, es + fs) == Run(Run(s, es).value, fs)
    decreases |es|
  {
    hide Step;
    if es == [] {
      assert es + fs == fs;
    } else {
      assert (es + fs)[0] == es[0] && (es + fs)[1..] == es[1..] + fs;
      RunAppend(Step(s, es[0]).value, es[1..], fs);
    }
  }

  lemma RunOne(s: State, e: Event)
    requires Step(s, e).Some?
    ensures Run(s, [e]) == Step(s, e)
  {
    assert [e][1..] == [];
    assert Run(Step(s, e).value, []) == Step(s, e);
  }

  // One more event at the end of a run.
  lemma RunThen(s: State, es: seq<Event>, e: Event)
    requires Run(s, es).Some? && Step(Run(s, es).value, e).Some?
    ensures Run(s, es + [e]) == Step(Run(s, es).value, e)
  {
    hide Run, Step;
    RunOne(Run(s, es).value, e);
    RunAppend(s, es, [e]);
  }

  // Where a configuration stands whose next instruction is `Take`.
  function AtTake(s: State, op: Op, ticket: Option<nat>): Tx
    requires op.Configure?
  {
    Tx(PlanOf(op), 7, ticket, SlotOf(s.slots, op.positionId))
  }

  function ToIndex(t: nat, op: Op): seq<Event>
  {
    [Begin(t, op)] + Moves(t, 6) + [Move(t)]
  }

  predicate Allowed(eligible: ConversionStore.Eligible, op: Op)
    requires op.Configure?
  {
    op.owner in eligible.profiles && (op.positionId, op.owner) in eligible.positions
  }

  // A configuration whose locks are free gets as far as the index.
  lemma ReachesIndex(s: State, t: nat, op: Op)
    requires op.Configure? && t !in s.txs && Allowed(s.eligible, op)
    requires forall i | 0 <= i < 6 && PlanOf(op)[i].Lock? :: Free(s, t, PlanOf(op)[i].resource, PlanOf(op)[i].mode)
    ensures Run(s, ToIndex(t, op)) == Some(s.(txs := s.txs[t := AtTake(s, op, None)]))
  {
    var x := Tx(PlanOf(op), 0, None, None);
    var s0 := s.(txs := s.txs[t := x]);
    RunOne(s, Begin(t, op));
    forall i | 0 <= i < 6
      ensures Clear(s0, t, x.plan[i])
    {
      if x.plan[i].Lock? {
        assert Free(s, t, x.plan[i].resource, x.plan[i].mode);
      }
    }
    Glide(s0, t, 6);
    var s1 := s0.(txs := s0.txs[t := x.(pc := 6)]);
    assert x.plan[6] == Give(op.positionId);
    var s2 := s.(txs := s.txs[t := AtTake(s, op, None)]);
    assert s2.txs == s1.txs[t := s2.txs[t]];
    assert Step(s1, Move(t)) == Some(s2);
    hide Step, Run;
    RunAppend(s, [Begin(t, op)], Moves(t, 6));
    RunThen(s, [Begin(t, op)] + Moves(t, 6), Move(t));
  }

  // ---- Which calls can block each other ----

  // Configurations of different positions.
  predicate OnePerPosition(ops: seq<Op>)
  {
    (forall i | 0 <= i < |ops| :: ops[i].Configure?) && Different(ops)
  }

  predicate Different(ops: seq<Op>)
    requires forall i | 0 <= i < |ops| :: ops[i].Configure?
  {
    forall i, j | 0 <= i < j < |ops| :: ops[i].positionId != ops[j].positionId
  }

  // Transaction `t` carries out `ops[t]`. A call may be repeated until it commits.
  predicate Calls(es: seq<Event>, ops: seq<Op>, ended: set<nat>)
    decreases |es|
  {
    es == []
    || ((es[0].Begin? ==> es[0].t < |ops| && es[0].op == ops[es[0].t] && es[0].t !in ended)
        && Calls(es[1..], ops, if es[0].Commit? then ended + {es[0].t} else ended))
  }

  // Neither an idempotency scope nor an owner in common.
  predicate Apart(c: Op, d: Op)
    requires c.Configure? && d.Configure?
  {
    c.scope != d.scope && c.owner != d.owner
  }

  // The calls of the closed walk would be accepted, do not exclude each other,
  // and each asks for the external position that the position of the next has.
  predicate Exchange(eligible: ConversionStore.Eligible, slots: map<string, Slot>, ops: seq<Op>, walk: seq<nat>)
    requires OnePerPosition(ops)
  {
    Closed(walk)
    && (forall i | 0 <= i < |walk| :: walk[i] < |ops| && Allowed(eligible, ops[walk[i]]))
    && (forall i, j | 0 <= i < j < |walk| && walk[i] != walk[j] :: Apart(ops[walk[i]], ops[walk[j]]))
    && forall i | 0 <= i < |walk| - 1 :: Passes(slots, ops, walk[i], walk[i + 1])
  }

  predicate Passes(slots: map<string, Slot>, ops: seq<Op>, t: nat, u: nat)
    requires OnePerPosition(ops)
  {
    t < |ops| && u < |ops| && t != u && SlotOf(slots, ops[u].positionId) == Some(ops[t].slot)
  }

  // Some interleaving of these calls ends in transactions waiting in a circle.
  ghost predicate CanBlock(s: State, ops: seq<Op>)
  {
    exists es, path :: Calls(es, ops, {}) && Run(s, es).Some? && Closed(path) && Chain(Run(s, es).value, path)
  }

  // Concurrent configurations can block each other exactly when among them are
  // some that pass their current external positions round.
  lemma BlockIffExchange(s: State, ops: seq<Op>)
    requires s.txs == map[] && OnePerPosition(ops)
    ensures CanBlock(s, ops) <==> exists walk :: Exchange(s.eligible, s.slots, ops, walk)
  {
    hide Run, Calls, Chain, OnePerPosition;
    if CanBlock(s, ops) {
      var es, path :| Calls(es, ops, {}) && Run(s, es).Some? && Closed(path) && Chain(Run(s, es).value, path);
      CircleIsExchange(s, ops, es, path);
    }
    if walk :| Exchange(s.eligible, s.slots, ops, walk) {
      var es := ExchangeBlocks(s, ops, walk);
      assert Calls(es, ops, {}) && Run(s, es).Some? && Closed(walk) && Chain(Run(s, es).value, walk);
    }
  }

  // ---- A circle is an exchange ----

  // What the calls find is what they found at first, except for those ended.
  predicate Unmoved(s0: State, s: State, ops: seq<Op>, ended: set<nat>)
    requires OnePerPosition(ops)
  {
    s.eligible == s0.eligible
    && (forall t | t in s.txs :: t < |ops| && t !in ended && s.txs[t].plan == PlanOf(ops[t]))
    && forall t: nat | t < |ops| && t !in ended :: SlotOf(s.slots, ops[t].positionId) == SlotOf(s0.slots, ops[t].positionId)
  }

  lemma {:induction false} CallsKeep(s0: State, s: State, ops: seq<Op>, ended: set<nat>, es: seq<Event>)
    returns (after: set<nat>)
    requires OnePerPosition(ops) && Inv(s) && Unmoved(s0, s, ops, ended) && Calls(es, ops, ended) && Run(s, es).Some?
    ensures Inv(Run(s, es).value) && Unmoved(s0, Run(s, es).value, ops, after)
    decreases |es|
  {
    hide Inv, Step, Unmoved, OnePerPosition;
    if es == [] {
      after := ended;
    } else {
      var now := if es[0].Commit? then ended + {es[0].t} else ended;
      StepKeeps(s, es[0]);
      CallKeeps(s0, s, ops, ended, es[0]);
      after := CallsKeep(s0, Step(s, es[0]).value, ops, now, es[1..]);
    }
  }

  lemma CommitUnmoves(s0: State, s: State, ops: seq<Op>, ended: set<nat>, t: nat)
    requires OnePerPosition(ops) && Unmoved(s0, s, ops, ended) && Step(s, Commit(t)).Some?
    ensures Unmoved(s0, Step(s, Commit(t)).value, ops, ended + {t})
  {
    ConfigureWrites(s, ops[t]);
    AssignLeaves(s.slots, ops, t);
    hide PlanOf, ApplyAll, MapAll, SlotOf, Different;
  }

  lemma PlansStay(s: State, e: Event)
    requires Step(s, e).Some? && !e.Begin? && !e.Commit?
    ensures var next := Step(s, e).value;
            next.eligible == s.eligible && next.slots == s.slots
            && forall t | t in next.txs :: t in s.txs && next.txs[t].plan == s.txs[t].plan
  {
    hide Free, Undoubted, SlotOf;
  }

  lemma CallKeeps(s0: State, s: State, ops: seq<Op>, ended: set<nat>, e: Event)
    requires OnePerPosition(ops) && Unmoved(s0, s, ops, ended) && Step(s, e).Some?
    requires e.Begin? ==> e.t < |ops| && e.op == ops[e.t] && e.t !in ended
    ensures Unmoved(s0, Step(s, e).value, ops, if e.Commit? then ended + {e.t} else ended)
  {
    if e.Commit? {
      hide *;
      CommitUnmoves(s0, s, ops, ended, e.t);
    } else if e.Begin? {
      hide PlanOf, SlotOf, Different;
    } else {
      PlansStay(s, e);
      hide Step, PlanOf, SlotOf, Different;
    }
  }

  lemma ConfigureWrites(s: State, op: Op)
    requires op.Configure?
    ensures ApplyAll(s.eligible, PlanOf(op)) == s.eligible
    ensures MapAll(s.slots, PlanOf(op)) == s.slots[op.positionId := op.slot]
  {
    ReadersWriteNothing(s.eligible, PlanOf(op));
    var plan := PlanOf(op);
    OnlyLastWrites(s.slots, plan, 8);
  }

  lemma {:induction false} OnlyLastWrites(slots: map<string, Slot>, plan: Plan, n: nat)
    requires |plan| == n + 1 && (forall i | 0 <= i < n :: !plan[i].WriteMapping?) && plan[n].WriteMapping?
    ensures MapAll(slots, plan) == slots[plan[n].mapped := plan[n].slot]
    decreases n
  {
    if n == 0 {
      assert MapAll(slots[plan[0].mapped := plan[0].slot], plan[1..]) == slots[plan[0].mapped := plan[0].slot];
    } else {
      OnlyLastWrites(slots, plan[1..], n - 1);
    }
  }

  lemma AssignLeaves(slots: map<string, Slot>, ops: seq<Op>, t: nat)
    requires OnePerPosition(ops) && t < |ops|
    ensures forall u: nat | u < |ops| && u != t ::
              SlotOf(slots[ops[t].positionId := ops[t].slot], ops[u].positionId) == SlotOf(slots, ops[u].positionId)
  {
  }

  // Who waits at the index has been let through and holds scope and owner.
  lemma AtIndexFacts(s0: State, s: State, ops: seq<Op>, ended: set<nat>, t: nat)
    requires OnePerPosition(ops) && Inv(s) && Unmoved(s0, s, ops, ended) && t in s.txs && AtIndex(s.txs[t])
    ensures t < |ops| && s.txs[t].pc == 7 && s.txs[t].plan == PlanOf(ops[t]) && Allowed(s0.eligible, ops[t])
    ensures Holds(s.txs[t], Advisory(ops[t].scope), Exclusive) && Holds(s.txs[t], ProfileRow(ops[t].owner), Exclusive)
  {
    var x, op := s.txs[t], ops[t];
    assert TxOk(s.eligible, s.slots, s.clock, x);
    hide Inv, Disciplined, GaveOk, Different, SlotOf, TicketOk;
    assert t < |ops| && x.plan == PlanOf(op);
    TakesAtSeven(x, op);
    hide PlanOf, AtIndex, Unmoved;
    assert x.plan[2].NeedMember? && x.plan[4].NeedPosition?;
    assert Has(x.plan, 7, x.plan[0]) && Has(x.plan, 7, x.plan[1]);
  }

  lemma TakesAtSeven(x: Tx, op: Op)
    requires op.Configure? && x.plan == PlanOf(op) && AtIndex(x)
    ensures x.pc == 7 && |x.plan| == 9
    ensures x.plan[0] == Lock(Advisory(op.scope), Exclusive) && x.plan[1] == Lock(ProfileRow(op.owner), Exclusive)
    ensures x.plan[2] == NeedMember(op.owner) && x.plan[4] == NeedPosition((op.positionId, op.owner))
  {
  }

  lemma HoldersApart(s: State, t: nat, u: nat, c: Op, d: Op)
    requires Inv(s) && t in s.txs && u in s.txs && t != u && c.Configure? && d.Configure?
    requires Holds(s.txs[t], Advisory(c.scope), Exclusive) && Holds(s.txs[t], ProfileRow(c.owner), Exclusive)
    requires Holds(s.txs[u], Advisory(d.scope), Exclusive) && Holds(s.txs[u], ProfileRow(d.owner), Exclusive)
    ensures Apart(c, d)
  {
    assert Compatible(s.txs[t], s.txs[u]);
    hide TxOk, Holds;
    assert !Conflicts(s.txs[u], Advisory(c.scope), Exclusive) && !Conflicts(s.txs[u], ProfileRow(c.owner), Exclusive);
  }

  lemma WantsPasses(s0: State, s: State, ops: seq<Op>, ended: set<nat>, t: nat, u: nat)
    requires OnePerPosition(ops) && Inv(s) && Unmoved(s0, s, ops, ended) && Wants(s, t, u)
    ensures Passes(s0.slots, ops, t, u)
  {
    AtIndexFacts(s0, s, ops, ended, t);
    hide Inv, Holds, SlotOf, Different, Allowed;
    assert u < |ops| && s.txs[u].plan == PlanOf(ops[u]) && u !in ended;
    ConfigureGives(ops[t]);
    ConfigureGives(ops[u]);
    hide PlanOf;
  }

  lemma ConfigureGives(op: Op)
    requires op.Configure?
    ensures |PlanOf(op)| == 9 && PlanOf(op)[7] == Take(op.slot)
    ensures forall i | 0 <= i < 9 && PlanOf(op)[i].Give? :: PlanOf(op)[i].givenBy == op.positionId
  {
  }

  lemma CircleIsExchange(s: State, ops: seq<Op>, es: seq<Event>, path: seq<nat>)
    requires s.txs == map[] && OnePerPosition(ops) && Calls(es, ops, {}) && Run(s, es).Some?
    requires Closed(path) && Chain(Run(s, es).value, path)
    ensures Exchange(s.eligible, s.slots, ops, path)
  {
    var ended := CallsKeep(s, s, ops, {}, es);
    var now := Run(s, es).value;
    ChainClimbs(now, path);
    hide Inv, Run, Calls, Chain, OnePerPosition, Unmoved, Allowed, Apart, PlanOf;
    forall i | 0 <= i < |path|
      ensures path[i] in now.txs && AtIndex(now.txs[path[i]])
    {
      assert Wants(now, path[0], path[0 + 1]);
      assert i < |path| - 1 ==> Wants(now, path[i], path[i + 1]);
    }
    hide Wants, AtIndex;
    forall i | 0 <= i < |path|
      ensures path[i] < |ops| && Allowed(s.eligible, ops[path[i]])
    {
      AtIndexFacts(s, now, ops, ended, path[i]);
    }
    forall i, j | 0 <= i < j < |path| && path[i] != path[j]
      ensures Apart(ops[path[i]], ops[path[j]])
    {
      AtIndexFacts(s, now, ops, ended, path[i]);
      AtIndexFacts(s, now, ops, ended, path[j]);
      HoldersApart(now, path[i], path[j], ops[path[i]], ops[path[j]]);
    }
    forall i | 0 <= i < |path| - 1
      ensures Passes(s.slots, ops, path[i], path[i + 1])
    {
      WantsPasses(s, now, ops, ended, path[i], path[i + 1]);
    }
  }

  // ---- An exchange can block ----

  // The calls of the walk below `n` stand at the index, those below `k` wait.
  predicate Stand(s0: State, s: State, ops: seq<Op>, walk: seq<nat>, n: nat, k: nat)
    requires OnePerPosition(ops) && n <= |ops|
  {
    s.eligible == s0.eligible && s.slots == s0.slots
    && (forall t | t in s.txs :: t < n && t in walk) && (forall t: nat | t < n && t in walk :: t in s.txs)
    && forall t | t in s.txs :: s.txs[t] == AtTake(s0, ops[t], s.txs[t].ticket) && (s.txs[t].ticket.Some? <==> t < k)
  }

  // Calls begin and move; none commits.
  predicate Quiet(es: seq<Event>, ops: seq<Op>)
  {
    forall i | 0 <= i < |es| :: es[i].Move? || (es[i].Begin? && es[i].t < |ops| && es[i].op == ops[es[i].t])
  }

  lemma {:induction false} QuietCalls(es: seq<Event>, ops: seq<Op>)
    requires Quiet(es, ops)
    ensures Calls(es, ops, {})
    decreases |es|
  {
    if es != [] {
      assert es[0].Move? || es[0].Begin?;
      QuietCalls(es[1..], ops);
    }
  }

  lemma {:induction false} MovesAreMoves(t: nat, n: nat)
    ensures forall e | e in Moves(t, n) :: e == Move(t)
  {
    if n > 0 {
      MovesAreMoves(t, n - 1);
    }
  }

  lemma ToIndexIsQuiet(t: nat, ops: seq<Op>)
    requires t < |ops|
    ensures Quiet(ToIndex(t, ops[t]), ops)
  {
    MovesAreMoves(t, 6);
    var es := ToIndex(t, ops[t]);
    forall i | 0 <= i < |es|
      ensures es[i].Move? || es[i] == Begin(t, ops[t])
    {
      if 0 < i < |es| - 1 {
        assert es[i] in Moves(t, 6);
      }
    }
  }

  // Calls that are apart do not hold each other up before the index.
  lemma LocksFree(s0: State, s: State, ops: seq<Op>, walk: seq<nat>, n: nat)
    requires OnePerPosition(ops) && n < |ops| && n in walk && Stand(s0, s, ops, walk, n, 0)
    requires Exchange(s0.eligible, s0.slots, ops, walk)
    ensures forall i | 0 <= i < 6 && PlanOf(ops[n])[i].Lock? :: Free(s, n, PlanOf(ops[n])[i].resource, PlanOf(ops[n])[i].mode)
  {
    forall i, u | 0 <= i < 6 && PlanOf(ops[n])[i].Lock? && u in s.txs && u != n
      ensures !Conflicts(s.txs[u], PlanOf(ops[n])[i].resource, PlanOf(ops[n])[i].mode)
    {
      var a :| 0 <= a < |walk| && walk[a] == n;
      var b :| 0 <= b < |walk| && walk[b] == u;
      assert Apart(ops[u], ops[n]) && ops[u].positionId != ops[n].positionId;
      hide Exchange, Stand, OnePerPosition;
      NoConflict(s.txs[u], ops[u], ops[n], PlanOf(ops[n])[i]);
    }
  }

  lemma NoConflict(x: Tx, c: Op, d: Op, instr: Instr)
    requires c.Configure? && d.Configure? && Apart(c, d) && c.positionId != d.positionId
    requires x.plan == PlanOf(c) && instr in PlanOf(d)[..6] && instr.Lock?
    ensures !Conflicts(x, instr.resource, instr.mode)
  {
  }

  lemma QuietAppend(es: seq<Event>, fs: seq<Event>, ops: seq<Op>)
    requires Quiet(es, ops) && Quiet(fs, ops)
    ensures Quiet(es + fs, ops)
  {
  }

  lemma {:induction false} Gather(s: State, ops: seq<Op>, walk: seq<nat>, n: nat) returns (es: seq<Event>)
    requires s.txs == map[] && OnePerPosition(ops) && Exchange(s.eligible, s.slots, ops, walk) && n <= |ops|
    ensures Quiet(es, ops) && Run(s, es).Some? && Stand(s, Run(s, es).value, ops, walk, n, 0)
    decreases n
  {
    if n == 0 {
      es := [];
      assert Run(s, []) == Some(s);
    } else {
      hide Exchange, Quiet, Run, OnePerPosition, Stand;
      es := Gather(s, ops, walk, n - 1);
      var was := Run(s, es).value;
      if n - 1 in walk {
        CallArrives(s, was, ops, walk, n - 1);
        RunAppend(s, es, ToIndex(n - 1, ops[n - 1]));
        ToIndexIsQuiet(n - 1, ops);
        QuietAppend(es, ToIndex(n - 1, ops[n - 1]), ops);
        es := es + ToIndex(n - 1, ops[n - 1]);
      } else {
        StandSkips(s, was, ops, walk, n - 1, 0);
      }
    }
  }

  lemma StandSkips(s0: State, s: State, ops: seq<Op>, walk: seq<nat>, n: nat, k: nat)
    requires OnePerPosition(ops) && n < |ops| && n !in walk && Stand(s0, s, ops, walk, n, k)
    ensures Stand(s0, s, ops, walk, n + 1, k)
  {
  }

  lemma CallArrives(s0: State, s: State, ops: seq<Op>, walk: seq<nat>, n: nat)
    requires OnePerPosition(ops) && n < |ops| && n in walk && Stand(s0, s, ops, walk, n, 0)
    requires Exchange(s0.eligible, s0.slots, ops, walk)
    ensures Run(s, ToIndex(n, ops[n])).Some? && Stand(s0, Run(s, ToIndex(n, ops[n])).value, ops, walk, n + 1, 0)
  {
    LocksFree(s0, s, ops, walk, n);
    assert Allowed(s.eligible, ops[n]);
    hide Exchange, Free, PlanOf, Run, ToIndex;
    ReachesIndex(s, n, ops[n]);
  }

  // Each call of the walk finds what it asks for in doubt.
  lemma CallBlocks(s0: State, s: State, ops: seq<Op>, walk: seq<nat>, k: nat)
    requires OnePerPosition(ops) && k < |ops| && k in walk && Stand(s0, s, ops, walk, |ops|, k)
    requires Exchange(s0.eligible, s0.slots, ops, walk)
    ensures Step(s, Move(k)).Some? && Stand(s0, Step(s, Move(k)).value, ops, walk, |ops|, k + 1)
  {
    var i :| 0 <= i < |walk| && walk[i] == k;
    var j := if i == |walk| - 1 then 0 else i;
    assert Passes(s0.slots, ops, walk[j], walk[j + 1]);
    assert walk[j] == k && walk[j + 1] in walk;
    hide Exchange, Apart, Step, Enqueue;
    IndexBlocks(s, k, walk[j + 1]);
    StandsAndWaits(s0, s, ops, walk, k);
  }

  lemma StandsAndWaits(s0: State, s: State, ops: seq<Op>, walk: seq<nat>, k: nat)
    requires OnePerPosition(ops) && k < |ops| && k in walk && Stand(s0, s, ops, walk, |ops|, k)
    ensures k in s.txs && Stand(s0, Enqueue(s, k, s.txs[k]), ops, walk, |ops|, k + 1)
  {
    hide OnePerPosition, PlanOf;
  }

  lemma IndexBlocks(s: State, t: nat, u: nat)
    requires t in s.txs && u in s.txs && t != u && Active(s.txs[t]) && s.txs[t].ticket.None?
    requires s.txs[t].plan[s.txs[t].pc].Take? && s.txs[u].gave == Some(s.txs[t].plan[s.txs[t].pc].slot)
    ensures Step(s, Move(t)) == Some(Enqueue(s, t, s.txs[t]))
  {
    assert Doubts(s.txs[u], s.txs[t].plan[s.txs[t].pc].slot);
  }

  lemma {:induction false} Crowd(s: State, ops: seq<Op>, walk: seq<nat>, k: nat) returns (es: seq<Event>)
    requires s.txs == map[] && OnePerPosition(ops) && Exchange(s.eligible, s.slots, ops, walk) && k <= |ops|
    ensures Quiet(es, ops) && Run(s, es).Some? && Stand(s, Run(s, es).value, ops, walk, |ops|, k)
    decreases k
  {
    hide Exchange, Run, OnePerPosition, Stand, Step;
    if k == 0 {
      es := Gather(s, ops, walk, |ops|);
    } else {
      es := Crowd(s, ops, walk, k - 1);
      var was := Run(s, es).value;
      if k - 1 in walk {
        CallBlocks(s, was, ops, walk, k - 1);
        RunThen(s, es, Move(k - 1));
        es := es + [Move(k - 1)];
      } else {
        QueueSkips(s, was, ops, walk, k - 1);
      }
    }
  }

  lemma QueueSkips(s0: State, s: State, ops: seq<Op>, walk: seq<nat>, k: nat)
    requires OnePerPosition(ops) && k < |ops| && k !in walk && Stand(s0, s, ops, walk, |ops|, k)
    ensures Stand(s0, s, ops, walk, |ops|, k + 1)
  {
  }

  // Administrators who pass external positions round among any number of
  // promoters can all end up waiting: the unique index is not part of the lock
  // order.
  lemma ExchangeBlocks(s: State, ops: seq<Op>, walk: seq<nat>) returns (es: seq<Event>)
    requires s.txs == map[] && OnePerPosition(ops) && Exchange(s.eligible, s.slots, ops, walk)
    ensures Calls(es, ops, {}) && Run(s, es).Some? && Chain(Run(s, es).value, walk)
  {
    hide Run, Calls, Stand, Quiet, Apart;
    es := Crowd(s, ops, walk, |ops|);
    QuietCalls(es, ops);
    var now := Run(s, es).value;
    forall i | 0 <= i < |walk| - 1
      ensures WaitsFor(now, walk[i], walk[i + 1])
    {
      assert Passes(s.slots, ops, walk[i], walk[i + 1]);
      StandersWait(s, now, ops, walk, i);
    }
    assert WaitsFor(now, walk[0], walk[0 + 1]);
  }

  lemma StandersWait(s0: State, s: State, ops: seq<Op>, walk: seq<nat>, i: nat)
    requires OnePerPosition(ops) && Stand(s0, s, ops, walk, |ops|, |ops|) && i + 1 < |walk|
    requires Passes(s0.slots, ops, walk[i], walk[i + 1])
    ensures WaitsFor(s, walk[i], walk[i + 1])
  {
    assert walk[i] in walk && walk[i + 1] in walk;
    assert Doubts(s.txs[walk[i + 1]], ops[walk[i]].slot);
  }

  // ---- From the empty database ----

  // A transaction that gives and takes nothing, alone in the database.
  lemma Alone(s: State, op: Op)
    requires s.txs == map[] && !op.Configure?
    requires forall i | 0 <= i < |PlanOf(op)| && PlanOf(op)[i].NeedMember? :: PlanOf(op)[i].member in s.eligible.profiles
    requires forall i | 0 <= i < |PlanOf(op)| && PlanOf(op)[i].NeedPosition? :: PlanOf(op)[i].position in s.eligible.positions
    ensures Run(s, [Begin(0, op)] + Moves(0, |PlanOf(op)|) + [Commit(0)])
         == Some(s.(eligible := ApplyAll(s.eligible, PlanOf(op)), slots := MapAll(s.slots, PlanOf(op))))
  {
    var n := |PlanOf(op)|;
    var x := Tx(PlanOf(op), 0, None, None);
    var s0 := s.(txs := s.txs[0 := x]);
    RunOne(s, Begin(0, op));
    assert forall i | 0 <= i < n :: Clear(s0, 0, x.plan[i]);
    Glide(s0, 0, n);
    var s1 := s0.(txs := s0.txs[0 := x.(pc := n)]);
    assert s1.txs - {0} == map[];
    hide Run, PlanOf, Clear;
    RunAppend(s, [Begin(0, op)], Moves(0, n));
    RunThen(s, [Begin(0, op)] + Moves(0, n), Commit(0));
  }

  // A position is created for a promoter and gets its external position.
  function SetUp(op: Op, a: Slot): seq<Event>
    requires op.Configure?
  {
    var first := op.(slot := a);
    var review, create := Review(op.scope, op.owner, "", true), Create(op.owner, op.positionId, []);
    [Begin(0, review)] + Moves(0, |PlanOf(review)|) + [Commit(0)]
    + ([Begin(0, create)] + Moves(0, |PlanOf(create)|) + [Commit(0)])
    + (ToIndex(0, first) + [Move(0)] + [Move(0)] + [Commit(0)])
  }

  function WithPosition(s: State, op: Op, a: Slot): State
    requires op.Configure?
  {
    s.(eligible := ConversionStore.Eligible(s.eligible.profiles + {op.owner}, s.eligible.positions + {(op.positionId, op.owner)}),
       slots := s.slots[op.positionId := a])
  }

  lemma ConfiguresAlone(s: State, op: Op)
    requires s.txs == map[] && op.Configure? && Allowed(s.eligible, op) && op.slot !in s.slots.Values
    ensures Run(s, ToIndex(0, op) + [Move(0)] + [Move(0)] + [Commit(0)]) == Some(s.(slots := s.slots[op.positionId := op.slot]))
  {
    ReachesIndex(s, 0, op);
    var s0 := s.(txs := s.txs[0 := AtTake(s, op, None)]);
    TakesAlone(s, op);
    var end := s.(txs := s.txs[0 := AtTake(s, op, None).(pc := 9)]);
    ConfigureWrites(s, op);
    assert end.txs - {0} == map[];
    assert Step(end, Commit(0)) == Some(s.(slots := s.slots[op.positionId := op.slot])) by { hide ApplyAll, MapAll; }
    hide Run, Step, PlanOf, AtTake;
    RunAppend(s, ToIndex(0, op), [Move(0)] + [Move(0)]);
    assert ToIndex(0, op) + ([Move(0)] + [Move(0)]) == ToIndex(0, op) + [Move(0)] + [Move(0)];
    RunThen(s, ToIndex(0, op) + [Move(0)] + [Move(0)], Commit(0));
  }

  lemma TakesAlone(s: State, op: Op)
    requires s.txs == map[] && op.Configure? && op.slot !in s.slots.Values
    ensures Run(s.(txs := s.txs[0 := AtTake(s, op, None)]), [Move(0)] + [Move(0)])
         == Some(s.(txs := s.txs[0 := AtTake(s, op, None).(pc := 9)]))
  {
    var x := AtTake(s, op, None);
    var s0 := s.(txs := s.txs[0 := x]);
    var s1 := s.(txs := s.txs[0 := x.(pc := 8)]);
    var s2 := s.(txs := s.txs[0 := x.(pc := 9)]);
    assert x.plan[7] == Take(op.slot) && x.plan[8] == WriteMapping(op.positionId, op.slot);
    hide PlanOf;
    assert s0.txs[0 := x.(pc := 8)] == s1.txs && s1.txs[0 := x.(pc := 9)] == s2.txs;
    assert Step(s0, Move(0)) == Some(s1);
    assert Step(s1, Move(0)) == Some(s2);
    hide Step, Run;
    RunOne(s0, Move(0));
    RunThen(s0, [Move(0)], Move(0));
  }

  lemma SetsUp(s: State, op: Op, a: Slot)
    requires s.txs == map[] && op.Configure? && a !in s.slots.Values
    ensures Run(s, SetUp(op, a)) == Some(WithPosition(s, op, a))
  {
    var review, create := Review(op.scope, op.owner, "", true), Create(op.owner, op.positionId, []);
    Alone(s, review);
    ReviewWrites(s, op);
    var s1 := s.(eligible := s.eligible.(profiles := s.eligible.profiles + {op.owner}));
    assert Run(s, [Begin(0, review)] + Moves(0, |PlanOf(review)|) + [Commit(0)]) == Some(s1);
    Alone(s1, create);
    CreateWrites(s1, op);
    var s2 := s1.(eligible := s1.eligible.(positions := s1.eligible.positions + {(op.positionId, op.owner)}));
    ConfiguresAlone(s2, op.(slot := a));
    hide Run, PlanOf;
    RunAppend(s, [Begin(0, review)] + Moves(0, |PlanOf(review)|) + [Commit(0)],
              [Begin(0, create)] + Moves(0, |PlanOf(create)|) + [Commit(0)]);
    RunAppend(s, [Begin(0, review)] + Moves(0, |PlanOf(review)|) + [Commit(0)]
              + ([Begin(0, create)] + Moves(0, |PlanOf(create)|) + [Commit(0)]),
              ToIndex(0, op.(slot := a)) + [Move(0)] + [Move(0)] + [Commit(0)]);
  }

  lemma {:induction false} LastDecides(eligible: ConversionStore.Eligible, plan: Plan, n: nat)
    requires |plan| == n + 1 && forall i | 0 <= i < n :: !plan[i].WriteMember? && !plan[i].WritePosition?
    ensures ApplyAll(eligible, plan) == ApplyTo(eligible, plan[n])
    decreases n
  {
    if n == 0 {
      assert ApplyAll(ApplyTo(eligible, plan[0]), plan[1..]) == ApplyTo(eligible, plan[0]);
    } else {
      LastDecides(eligible, plan[1..], n - 1);
    }
  }

  lemma {:induction false} NothingMapped(slots: map<string, Slot>, plan: Plan)
    requires forall i | 0 <= i < |plan| :: !plan[i].WriteMapping?
    ensures MapAll(slots, plan) == slots
    decreases |plan|
  {
    if plan != [] {
      NothingMapped(slots, plan[1..]);
    }
  }

  lemma ReviewWrites(s: State, op: Op)
    requires op.Configure?
    ensures var plan := PlanOf(Review(op.scope, op.owner, "", true));
            ApplyAll(s.eligible, plan) == s.eligible.(profiles := s.eligible.profiles + {op.owner}) && MapAll(s.slots, plan) == s.slots
  {
    var plan := PlanOf(Review(op.scope, op.owner, "", true));
    LastDecides(s.eligible, plan, 3);
    NothingMapped(s.slots, plan);
  }

  lemma CreateWrites(s: State, op: Op)
    requires op.Configure?
    ensures var plan := PlanOf(Create(op.owner, op.positionId, []));
            ApplyAll(s.eligible, plan) == s.eligible.(positions := s.eligible.positions + {(op.positionId, op.owner)})
            && MapAll(s.slots, plan) == s.slots
  {
    var plan := PlanOf(Create(op.owner, op.positionId, []));
    LastDecides(s.eligible, plan, 3);
    NothingMapped(s.slots, plan);
  }

  predicate Distinct(had: seq<Slot>)
  {
    forall i, j | 0 <= i < j < |had| :: had[i] != had[j]
  }

  // The first `n` positions are enabled and have their external positions.
  predicate Prepared(s: State, ops: seq<Op>, had: seq<Slot>, n: nat)
    requires OnePerPosition(ops) && n <= |ops| == |had|
  {
    s.txs == map[]
    && (forall i | 0 <= i < n :: Allowed(s.eligible, ops[i]) && SlotOf(s.slots, ops[i].positionId) == Some(had[i]))
    && OnlyThese(s.slots, had, n)
  }

  predicate OnlyThese(slots: map<string, Slot>, had: seq<Slot>, n: nat)
    requires n <= |had|
  {
    forall p | p in slots :: slots[p] in had[..n]
  }

  lemma NewSlot(slots: map<string, Slot>, had: seq<Slot>, n: nat)
    requires n < |had| && Distinct(had) && OnlyThese(slots, had, n)
    ensures had[n] !in slots.Values
  {
    assert had[n] !in had[..n];
  }

  // Any table of different external positions comes about.
  lemma {:induction false} Prepare(ops: seq<Op>, had: seq<Slot>, n: nat) returns (es: seq<Event>)
    requires OnePerPosition(ops) && Distinct(had) && n <= |ops| == |had|
    ensures Run(START, es).Some? && Prepared(Run(START, es).value, ops, had, n)
    decreases n
  {
    if n == 0 {
      es := [];
      assert Run(START, []) == Some(START);
    } else {
      es := Prepare(ops, had, n - 1);
      hide Run, SetUp, Distinct, Different, Allowed, SlotOf, OnlyThese;
      var was := Run(START, es).value;
      var op, a := ops[n - 1], had[n - 1];
      assert a !in was.slots.Values by { NewSlot(was.slots, had, n - 1); }
      SetsUp(was, op, a);
      RunAppend(START, es, SetUp(op, a));
      PreparedNext(was, ops, had, n - 1);
      es := es + SetUp(op, a);
    }
  }

  lemma PreparedNext(s: State, ops: seq<Op>, had: seq<Slot>, n: nat)
    requires OnePerPosition(ops) && n < |ops| == |had| && Prepared(s, ops, had, n)
    ensures Prepared(WithPosition(s, ops[n], had[n]), ops, had, n + 1)
  {
    var next := WithPosition(s, ops[n], had[n]);
    assert OnlyThese(next.slots, had, n + 1) by {
      assert had[..n + 1] == had[..n] + [had[n]];
    }
    assert forall i | 0 <= i < n :: ops[i].positionId != ops[n].positionId;
    hide OnlyThese, Different;
    forall i | 0 <= i < n + 1
      ensures Allowed(next.eligible, ops[i]) && SlotOf(next.slots, ops[i].positionId) == Some(had[i])
    {
    }
  }

  predicate AllApart(ops: seq<Op>)
    requires OnePerPosition(ops)
  {
    forall i, j | 0 <= i < j < |ops| :: Apart(ops[i], ops[j])
  }

  // 0, 1, ..., n - 1, 0
  function Round(n: nat): seq<nat>
  {
    seq(n + 1, i requires 0 <= i <= n => if i == n then 0 else i)
  }

  // From the empty database any number of promoters get positions, and then each
  // is to have the external position of the next: all wait in one circle.
  lemma RotationBlocksFromStart(ops: seq<Op>, had: seq<Slot>) returns (es: seq<Event>)
    requires OnePerPosition(ops) && 1 < |ops| == |had| && Distinct(had)
    requires AllApart(ops)
    requires forall i | 0 <= i < |ops| :: ops[i].slot == had[if i + 1 == |ops| then 0 else i + 1]
    ensures Run(START, es).Some? && Closed(Round(|ops|)) && Chain(Run(START, es).value, Round(|ops|))
  {
    hide Run, Chain, OnePerPosition, Exchange;
    var before := Prepare(ops, had, |ops|);
    var s := Run(START, before).value;
    RotationIsExchange(s, ops, had);
    var after := ExchangeBlocks(s, ops, Round(|ops|));
    RunAppend(START, before, after);
    es := before + after;
  }

  lemma RotationIsExchange(s: State, ops: seq<Op>, had: seq<Slot>)
    requires OnePerPosition(ops) && 1 < |ops| == |had| && Prepared(s, ops, had, |ops|)
    requires AllApart(ops)
    requires forall i | 0 <= i < |ops| :: ops[i].slot == had[if i + 1 == |ops| then 0 else i + 1]
    ensures Exchange(s.eligible, s.slots, ops, Round(|ops|))
  {
    hide AllApart, Apart, Allowed, Prepared, Different, Passes, SlotOf;
    var walk := Round(|ops|);
    forall i, j | 0 <= i < j < |walk| && walk[i] != walk[j]
      ensures Apart(ops[walk[i]], ops[walk[j]])
    {
      ApartAt(ops, walk[i], walk[j]);
    }
    forall i | 0 <= i < |walk|
      ensures Allowed(s.eligible, ops[walk[i]])
    {
      PreparedAt(s, ops, had, walk[i]);
    }
    forall i | 0 <= i < |walk| - 1
      ensures Passes(s.slots, ops, walk[i], walk[i + 1])
    {
      RoundPasses(s, ops, had, i);
    }
  }

  lemma RoundPasses(s: State, ops: seq<Op>, had: seq<Slot>, i: nat)
    requires OnePerPosition(ops) && i < |ops| && 1 < |ops| == |had| && Prepared(s, ops, had, |ops|)
    requires ops[i].slot == had[if i + 1 == |ops| then 0 else i + 1]
    ensures Passes(s.slots, ops, Round(|ops|)[i], Round(|ops|)[i + 1])
  {
    PreparedAt(s, ops, had, Round(|ops|)[i + 1]);
    hide Prepared, Different, SlotOf, Allowed;
  }

  lemma ApartAt(ops: seq<Op>, i: nat, j: nat)
    requires OnePerPosition(ops) && AllApart(ops) && i < |ops| && j < |ops| && i != j
    ensures Apart(ops[i], ops[j])
  {
    assert i < j ==> Apart(ops[i], ops[j]);
    assert j < i ==> Apart(ops[j], ops[i]);
  }

  lemma PreparedAt(s: State, ops: seq<Op>, had: seq<Slot>, i: nat)
    requires OnePerPosition(ops) && i < |ops| == |had| && Prepared(s, ops, had, |ops|)
    ensures Allowed(s.eligible, ops[i]) && SlotOf(s.slots, ops[i].positionId) == Some(had[i])
  {
  }
}
