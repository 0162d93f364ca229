/**
 Lock ordering: every dispatch transaction takes its row locks in strictly rising
 rank (dispatch row, unit rows by id, incident rows from most to least severe), so
 without unit-status overrides no set of transactions can wait for each other in a
 circle and some transaction can always move.
 */
module Deadlock {
  import opened Results
  import opened Rows
  import opened AtomicOps
  import opened DispatchInvariants
  import opened Interleaving
  import opened Refinement
  import opened SerialRuns

  datatype Rank = Rank(table: nat, row: nat)

  predicate Below(a: Rank, b: Rank) { a.table < b.table || (a.table == b.table && a.row < b.row) }

  function RankOf(incidents: map<IncidentId, Incident>, k: Key): Rank {
    match k
    case DispatchRow(_) => Rank(0, 0)
    case UnitRow(u) => Rank(1, u)
    case IncidentRow(i) => Rank(2, if i in incidents then 4 - SeverityRank(incidents[i].severity) else 0)
  }

  /** The rows a transaction can have locked by the time it reaches its present statement. */
  predicate MayHold(core: Core, t: Txn, k: Key) {
    var at := Stage(t.pc);
    match t.req
    case Reserve(i, u) => (k == UnitRow(u) && at >= 5) || (k == IncidentRow(i) && at >= 11)
    case ReserveOptimistic(i, u) => (k == UnitRow(u) && at >= 9) || (k == IncidentRow(i) && at >= 11)
    case Advance(d, _) =>
      && d in core.dispatches
      && ((k == DispatchRow(d) && at >= 2) || (k == UnitRow(core.dispatches[d].unit) && at >= 9)
          || (k == IncidentRow(core.dispatches[d].incident) && at >= 13))
    case Reassign(d, i, _, _) =>
      && d in core.dispatches
      && ((k == DispatchRow(d) && at >= 2) || (k == UnitRow(First(core, t)) && at >= 3)
          || (k == UnitRow(Second(core, t)) && at >= 4) || (k == IncidentRow(i) && at >= 11)
          || (k == IncidentRow(core.dispatches[d].incident) && at >= 13))
    case Override(u, _) => k == UnitRow(u) && at >= 14
    case Operator(i, _) => k == IncidentRow(i) && at >= 14
  }

  ghost predicate HoldsOnlyExpected(s: Sys) {
    forall k | k in s.locks && s.locks[k] in s.txns :: MayHold(s.core, s.txns[s.locks[k]], k)
  }

  // --- Held rows stay as expected ---

  /** The statement moves on, and the row it locks is one it may hold from then on. */
  ghost predicate Climbs(core: Core, incidents: map<IncidentId, Incident>, t: Txn, t': Txn) {
    var k := NextRow(core, incidents, t);
    SameCall(t, t') && Stage(t'.pc) > Stage(t.pc) && (k.Some? ==> MayHold(core, t', k.value))
  }

  lemma ReserveClimbs(core: Core, incidents: map<IncidentId, Incident>, t: Txn, t': Txn)
    requires t.req.Reserve? && ReservePc(t.pc) && t.pc != ReadyToCommit && ExecReserve(core, incidents, t) == Next(t')
    ensures Climbs(core, incidents, t, t')
  {
    if Stage(t.pc) >= 9 { TailShape(core, incidents, t, t'); }
  }

  lemma OptimisticClimbs(core: Core, incidents: map<IncidentId, Incident>, t: Txn, t': Txn)
    requires t.req.ReserveOptimistic? && OptimisticPc(t.pc) && t.pc != ReadyToCommit && ExecOptimistic(core, incidents, t) == Next(t')
    ensures Climbs(core, incidents, t, t')
  {
    if Stage(t.pc) >= 9 { TailShape(core, incidents, t, t'); }
  }

  lemma AdvanceMoves(core: Core, incidents: map<IncidentId, Incident>, t: Txn, t': Txn)
    requires t.req.Advance? && AdvancePc(t.pc, t.req.to) && t.pc != ReadyToCommit && ExecAdvance(core, incidents, t) == Next(t')
    ensures Climbs(core, incidents, t, t')
  {
  }

  lemma ReassignMoves(core: Core, incidents: map<IncidentId, Incident>, t: Txn, t': Txn)
    requires t.req.Reassign? && t.req.dispatch in core.dispatches && ReassignPc(t.pc, core.dispatches[t.req.dispatch].unit == t.req.unit)
    requires t.pc != ReadyToCommit && ExecReassign(core, incidents, t) == Next(t')
    ensures Climbs(core, incidents, t, t')
  {
    if Stage(t.pc) >= 9 { TailShape(core, incidents, t, t'); }
  }

  lemma StatementClimbs(core: Core, incidents: map<IncidentId, Incident>, locks: map<Key, TxId>, id: TxId, t: Txn)
    requires TxInv(core, incidents, locks, id, t) && Exec(core, incidents, t).Next? && t.pc != ReadyToCommit
    ensures Climbs(core, incidents, t, Exec(core, incidents, t).t)
  {
    var t' := Exec(core, incidents, t).t;
    match t.req
    case Reserve(_, _) => ReserveClimbs(core, incidents, t, t');
    case ReserveOptimistic(_, _) => OptimisticClimbs(core, incidents, t, t');
    case Advance(_, _) => AdvanceMoves(core, incidents, t, t');
    case Reassign(_, _, _, _) => ReassignMoves(core, incidents, t, t');
    case Override(_, _) =>
    case Operator(_, _) =>
  }

  lemma MayHoldGrows(core: Core, after: Core, t: Txn, t': Txn, k: Key)
    requires MayHold(core, t, k) && t'.req == t.req && Stage(t'.pc) >= Stage(t.pc)
    requires forall d | d in core.dispatches ::
               d in after.dispatches && after.dispatches[d].unit == core.dispatches[d].unit
               && after.dispatches[d].incident == core.dispatches[d].incident
    ensures MayHold(after, t', k)
  {
  }

  lemma StatementHolds(s: Sys, id: TxId)
    requires SysInv(s) && HoldsOnlyExpected(s) && Enabled(s, Statement(id)) && Exec(s.core, s.incidents, s.txns[id]).Next?
    ensures HoldsOnlyExpected(Apply(s, Statement(id)))
  {
    hide TxInv, Exec, NextRow, MayHold, ForeignKeys, DistinctIds, Blocked;
    var t := s.txns[id];
    var s' := Apply(s, Statement(id));
    assert Known(s, id);
    CommitsWhenReady(s.core, s.incidents, s.locks, id, t);
    StatementClimbs(s.core, s.incidents, s.locks, id, t);
    forall k | k in s'.locks && s'.locks[k] in s'.txns
      ensures MayHold(s'.core, s'.txns[s'.locks[k]], k)
    {
      if NextRow(s.core, s.incidents, t) != Some(k) && s.locks[k] == id {
        MayHoldGrows(s.core, s'.core, t, s'.txns[id], k);
      }
    }
  }

  lemma CommitHolds(s: Sys, id: TxId)
    requires SysInv(s) && HoldsOnlyExpected(s) && id in s.txns
    ensures HoldsOnlyExpected(Commit(s, id))
  {
    var s' := Commit(s, id);
    assert Known(s, id);
    WritesAreLocked(s.core, s.incidents, s.locks, id, s.txns[id]);
    hide TxInv, ForeignKeys, DistinctIds;
    forall k | k in s'.locks && s'.locks[k] in s'.txns
      ensures MayHold(s'.core, s'.txns[s'.locks[k]], k)
    {
      var t := s.txns[s.locks[k]];
      MayHoldGrows(s.core, s'.core, t, t, k);
    }
  }

  lemma StepHolds(s: Sys, step: Step)
    requires SysInv(s) && HoldsOnlyExpected(s) && Enabled(s, step)
    ensures HoldsOnlyExpected(Apply(s, step))
  {
    hide SysInv, HoldsOnlyExpected, Exec, Commit;
    if step.Statement? && Exec(s.core, s.incidents, s.txns[step.id]).Next? {
      StatementHolds(s, step.id);
    } else if step.Statement? && Exec(s.core, s.incidents, s.txns[step.id]).Committed? {
      CommitHolds(s, step.id);
    } else {
      OtherStepHolds(s, step);
    }
  }

  /** A begin locks nothing, and a rollback or a retry gives everything back. */
  lemma OtherStepHolds(s: Sys, step: Step)
    requires SysInv(s) && HoldsOnlyExpected(s) && Enabled(s, step)
    requires step.Statement? ==> var r := Exec(s.core, s.incidents, s.txns[step.id]); r.RolledBack? || r.Retry?
    ensures HoldsOnlyExpected(Apply(s, step))
  {
    hide TxInv, Exec, MayHold, ForeignKeys, DistinctIds, NextRow, Blocked, Acceptable, Known;
  }

  // --- Every wait is for a row above everything held ---

  lemma ReservesClimb(core: Core, incidents: map<IncidentId, Incident>, locks: map<Key, TxId>, id: TxId, t: Txn, held: Key)
    requires (t.req.Reserve? || t.req.ReserveOptimistic? || t.req.Override? || t.req.Operator?) && TxInv(core, incidents, locks, id, t)
    requires NextRow(core, incidents, t).Some? && MayHold(core, t, held)
    ensures held == NextRow(core, incidents, t).value || Below(RankOf(incidents, held), RankOf(incidents, NextRow(core, incidents, t).value))
  {
  }

  lemma AdvanceClimbs(core: Core, incidents: map<IncidentId, Incident>, locks: map<Key, TxId>, id: TxId, t: Txn, held: Key)
    requires t.req.Advance? && TxInv(core, incidents, locks, id, t)
    requires NextRow(core, incidents, t).Some? && MayHold(core, t, held)
    ensures held == NextRow(core, incidents, t).value || Below(RankOf(incidents, held), RankOf(incidents, NextRow(core, incidents, t).value))
  {
  }

  /** The two unit rows are taken in id order, and a preempting incident outranks the one it takes from. */
  lemma ReassignClimbs(core: Core, incidents: map<IncidentId, Incident>, locks: map<Key, TxId>, id: TxId, t: Txn, held: Key)
    requires t.req.Reassign? && TxInv(core, incidents, locks, id, t)
    requires NextRow(core, incidents, t).Some? && MayHold(core, t, held) && !Owns(locks, id, NextRow(core, incidents, t).value)
    ensures Below(RankOf(incidents, held), RankOf(incidents, NextRow(core, incidents, t).value))
  {
    if t.pc == Counted {
      assert t.req.kind == Preempted;
    } else {
      ReassignRowsClimb(core, incidents, locks, id, t, held);
    }
  }

  lemma ReassignRowsClimb(core: Core, incidents: map<IncidentId, Incident>, locks: map<Key, TxId>, id: TxId, t: Txn, held: Key)
    requires t.req.Reassign? && t.req.dispatch in core.dispatches && ReassignInv(core, locks, id, t) && t.pc != Counted
    requires NextRow(core, incidents, t).Some? && MayHold(core, t, held) && !Owns(locks, id, NextRow(core, incidents, t).value)
    ensures Below(RankOf(incidents, held), RankOf(incidents, NextRow(core, incidents, t).value))
  {
    hide UnitWrites, DispatchWrites, SetUnitStatus, MarkReserved;
  }

  lemma WaitsAbove(s: Sys, id: TxId, rival: TxId, held: Key)
    requires SysInv(s) && HoldsOnlyExpected(s) && id in s.txns && RowBlocked(s, id, rival) && Owns(s.locks, id, held)
    ensures Below(RankOf(s.incidents, held), RankOf(s.incidents, NextRow(s.core, s.incidents, s.txns[id]).value))
  {
    var t := s.txns[id];
    assert Known(s, id);
    assert MayHold(s.core, t, held);
    match t.req
    case Advance(_, _) => AdvanceClimbs(s.core, s.incidents, s.locks, id, t, held);
    case Reassign(_, _, _, _) => ReassignClimbs(s.core, s.incidents, s.locks, id, t, held);
    case _ => ReservesClimb(s.core, s.incidents, s.locks, id, t, held);
  }

  // --- The unique index never makes anyone wait, nor refuses anyone ---

  /** A ready-to-insert transaction has the unit locked, and the only active dispatch it can meet there is the one it is ending. */
  lemma InserterOwnsUnit(core: Core, incidents: map<IncidentId, Incident>, locks: map<Key, TxId>, id: TxId, t: Txn)
    requires TxInv(core, incidents, locks, id, t) && t.pc == UnitsWritten && Inserts(t.req)
    requires OneActive(core.dispatches) && NoneStale(core)
    ensures Owns(locks, id, UnitRow(t.req.unit))
    ensures t.req.Reassign? ==> Owns(locks, id, DispatchRow(t.req.dispatch)) && HeldOnlyBy(core.dispatches, t.req.unit, t.req.dispatch)
    ensures !t.req.Reassign? ==> UnitFree(core.dispatches, t.req.unit)
  {
    if t.req.Reassign? {
      var d := t.req.dispatch;
      assert Holds(core.dispatches, d, core.dispatches[d].unit);
    }
  }

  lemma IndexNeverBlocks(s: Sys, id: TxId, rival: TxId)
    requires SysInv(s) && id in s.txns && OneActive(s.core.dispatches) && NoneStale(s.core)
    ensures !IndexBlocked(s, id, rival)
  {
    if IndexBlocked(s, id, rival) {
      hide TxInv, ForeignKeys, DistinctIds, OneActive, NoneStale, RowBlocked, LockedWrites, HeldOnlyBy, UnitFree;
      var t, r := s.txns[id], s.txns[rival];
      assert Known(s, id) && Known(s, rival);
      InserterOwnsUnit(s.core, s.incidents, s.locks, id, t);
      WritesAreLocked(s.core, s.incidents, s.locks, rival, r);
      var d :| d in r.w.dispatches && InDoubt(s.core, r.w, d, t.req.unit);
      NothingInDoubt(s.core, s.locks, id, t, rival, r, d);
      assert false;
    }
  }

  /** Whoever has a unit locked, and the one dispatch that may hold it, finds no other transaction's row of that unit. */
  lemma NothingInDoubt(core: Core, locks: map<Key, TxId>, id: TxId, t: Txn, rival: TxId, r: Txn, d: DispatchId)
    requires Inserts(t.req) && Owns(locks, id, UnitRow(t.req.unit)) && rival != id
    requires t.req.Reassign? ==> Owns(locks, id, DispatchRow(t.req.dispatch)) && HeldOnlyBy(core.dispatches, t.req.unit, t.req.dispatch)
    requires !t.req.Reassign? ==> UnitFree(core.dispatches, t.req.unit)
    requires LockedWrites(core, locks, rival, r) && d in r.w.dispatches
    ensures !InDoubt(core, r.w, d, t.req.unit)
  {
    assert d in core.dispatches && r.w.dispatches[d].unit == t.req.unit ==> Holds(core.dispatches, d, t.req.unit);
  }

  /** The partial unique index never rejects an insert: it is a backstop that is never reached. */
  lemma IndexNeverRejects(s: Sys, id: TxId)
    requires SysInv(s) && id in s.txns && OneActive(s.core.dispatches) && NoneStale(s.core)
    requires s.txns[id].pc == UnitsWritten && Inserts(s.txns[id].req)
    ensures Exec(s.core, s.incidents, s.txns[id]).Next?
  {
    hide TxInv, ForeignKeys, DistinctIds, Exec;
    var t := s.txns[id];
    assert Known(s, id);
    InserterOwnsUnit(s.core, s.incidents, s.locks, id, t);
    OwnWritesAddNoHolder(s.core, s.incidents, s.locks, id, t);
    InsertGoesThrough(s.core, s.incidents, t);
  }

  lemma InsertGoesThrough(core: Core, incidents: map<IncidentId, Incident>, t: Txn)
    requires t.pc == UnitsWritten && Inserts(t.req) && UnitFree(Seen(core, t), t.req.unit)
    requires t.req.Reassign? ==> t.req.dispatch in core.dispatches
    ensures Exec(core, incidents, t).Next?
  {
  }

  /** Before its insert, a transaction's own rows hold no unit that the committed ones do not. */
  lemma OwnWritesAddNoHolder(core: Core, incidents: map<IncidentId, Incident>, locks: map<Key, TxId>, id: TxId, t: Txn)
    requires TxInv(core, incidents, locks, id, t) && t.pc == UnitsWritten && Inserts(t.req)
    ensures t.req.Reassign? ==> t.req.dispatch in core.dispatches && !Holds(Seen(core, t), t.req.dispatch, t.req.unit)
    ensures forall d | d in Seen(core, t) && Holds(Seen(core, t), d, t.req.unit) :: Holds(core.dispatches, d, t.req.unit)
  {
  }

  // --- No circle, and always a way forward ---

  ghost predicate Orderly(s: Sys) {
    SysInv(s) && HoldsOnlyExpected(s) && OneActive(s.core.dispatches) && NoneStale(s.core)
  }

  /** The rank of the row a blocked transaction waits for. */
  function WaitRank(s: Sys, id: TxId): Rank
    requires id in s.txns
  {
    var k := NextRow(s.core, s.incidents, s.txns[id]);
    if k.Some? then RankOf(s.incidents, k.value) else Rank(0, 0)
  }

  lemma WaitsRise(s: Sys, a: TxId, b: TxId, c: TxId)
    requires SysInv(s) && HoldsOnlyExpected(s) && a in s.txns && b in s.txns && RowBlocked(s, a, b) && RowBlocked(s, b, c)
    ensures Below(WaitRank(s, a), WaitRank(s, b))
  {
    WaitsAbove(s, b, c, NextRow(s.core, s.incidents, s.txns[a]).value);
  }

  function Successor(ring: seq<TxId>, k: nat): TxId
    requires k < |ring|
  {
    if k + 1 < |ring| then ring[k + 1] else ring[0]
  }

  /** A deadlock: each transaction of the ring waits for the next one round. */
  ghost predicate Circle(s: Sys, ring: seq<TxId>) {
    && ring != []
    && (forall k | 0 <= k < |ring| :: ring[k] in s.txns && WaitsFor(s, ring[k], Successor(ring, k)))
  }

  ghost predicate RowCircle(s: Sys, ring: seq<TxId>)
    requires Circle(s, ring)
  {
    forall k | 0 <= k < |ring| :: RowBlocked(s, ring[k], Successor(ring, k))
  }

  lemma {:induction false} RanksRiseAround(s: Sys, ring: seq<TxId>, n: nat)
    requires SysInv(s) && HoldsOnlyExpected(s) && Circle(s, ring) && RowCircle(s, ring) && 0 < n < |ring|
    ensures Below(WaitRank(s, ring[0]), WaitRank(s, ring[n]))
  {
    if n > 1 { RanksRiseAround(s, ring, n - 1); }
    assert RowBlocked(s, ring[n - 1], Successor(ring, n - 1)) && RowBlocked(s, ring[n], Successor(ring, n));
    WaitsRise(s, ring[n - 1], ring[n], Successor(ring, n));
  }

  /** Row locks alone never deadlock, overrides or not: any circle passes through the unique index. */
  lemma CircleNeedsIndexWait(s: Sys, ring: seq<TxId>)
    requires SysInv(s) && HoldsOnlyExpected(s) && Circle(s, ring)
    ensures exists k | 0 <= k < |ring| :: IndexBlocked(s, ring[k], Successor(ring, k))
  {
    if RowCircle(s, ring) {
      var n := |ring| - 1;
      assert RowBlocked(s, ring[n], Successor(ring, n)) && RowBlocked(s, ring[0], Successor(ring, 0));
      WaitsRise(s, ring[n], ring[0], Successor(ring, 0));
      if n > 0 { RanksRiseAround(s, ring, n); }
      assert false;
    }
  }

  lemma NoCircle(s: Sys, ring: seq<TxId>)
    requires Orderly(s)
    ensures !Circle(s, ring)
  {
    if Circle(s, ring) {
      CircleNeedsIndexWait(s, ring);
      var k :| 0 <= k < |ring| && IndexBlocked(s, ring[k], Successor(ring, k));
      IndexNeverBlocks(s, ring[k], Successor(ring, k));
      assert false;
    }
  }

  lemma HolderWaitsHigher(s: Sys, id: TxId, rival: TxId)
    requires Orderly(s) && id in s.txns && WaitsFor(s, id, rival)
    ensures rival in s.txns && (Blocked(s, rival) ==> Below(WaitRank(s, id), WaitRank(s, rival)))
  {
    IndexNeverBlocks(s, id, rival);
    if Blocked(s, rival) {
      var next :| WaitsFor(s, rival, next);
      IndexNeverBlocks(s, rival, next);
      WaitsRise(s, id, rival, next);
    }
  }

  ghost function BlockedAbove(s: Sys, id: TxId): set<TxId>
    requires id in s.txns
  {
    set x | x in s.txns && Blocked(s, x) && Below(WaitRank(s, id), WaitRank(s, x))
  }

  lemma FewerAbove(s: Sys, id: TxId, rival: TxId)
    requires id in s.txns && rival in s.txns && Blocked(s, rival) && Below(WaitRank(s, id), WaitRank(s, rival))
    ensures |BlockedAbove(s, rival)| < |BlockedAbove(s, id)|
  {
    var above := BlockedAbove(s, id);
    assert rival in above;
    assert BlockedAbove(s, rival) <= above - {rival};
    CardMonotone(BlockedAbove(s, rival), above - {rival});
  }

  lemma {:induction false} CardMonotone(a: set<TxId>, b: set<TxId>)
    requires a <= b
    ensures |a| <= |b|
  {
    if a != {} {
      var x :| x in a;
      CardMonotone(a - {x}, b - {x});
    }
  }

  /** From any transaction, following the waits upwards ends at one that can move. */
  lemma {:induction false} ClimbToFree(s: Sys, id: TxId) returns (free: TxId)
    requires Orderly(s) && id in s.txns
    ensures free in s.txns && !Blocked(s, free)
    decreases |BlockedAbove(s, id)|
  {
    free := id;
    if Blocked(s, id) {
      var rival :| WaitsFor(s, id, rival);
      HolderWaitsHigher(s, id, rival);
      free := rival;
      if Blocked(s, rival) {
        FewerAbove(s, id, rival);
        free := ClimbToFree(s, rival);
      }
    }
  }

  lemma {:induction false} LocksStayExpected(states: seq<Sys>, steps: seq<Step>, n: nat)
    requires SysRun(states, steps) && n <= |steps|
    ensures HoldsOnlyExpected(states[n])
  {
    if n > 0 {
      LocksStayExpected(states, steps, n - 1);
      SerialRefinement(states, steps, n - 1);
      StepHolds(states[n - 1], steps[n - 1]);
    }
  }

  lemma ReachableIsOrderly(states: seq<Sys>, steps: seq<Step>, n: nat)
    requires SysRun(states, steps) && n <= |steps| && Agreement(states[0].core) && EventsMatch(states[0].core)
    requires !states[n].overridden
    ensures Orderly(states[n])
  {
    SerialRefinement(states, steps, n);
    LocksStayExpected(states, steps, n);
    CommittedStatesAgree(states, steps, n);
    AgreementLeavesNoneStale(states[n].core);
  }

  /** In every reachable state, overrides or not, a deadlock involves a wait on the unique index. */
  lemma DeadlockNeedsIndexWait(states: seq<Sys>, steps: seq<Step>, n: nat, ring: seq<TxId>)
    requires SysRun(states, steps) && n <= |steps| && Circle(states[n], ring)
    ensures exists k | 0 <= k < |ring| :: IndexBlocked(states[n], ring[k], Successor(ring, k))
  {
    SerialRefinement(states, steps, n);
    LocksStayExpected(states, steps, n);
    CircleNeedsIndexWait(states[n], ring);
  }

  /** In every reachable state without overrides the wait-for graph has no circle. */
  lemma DeadlockFreedom(states: seq<Sys>, steps: seq<Step>, n: nat, ring: seq<TxId>)
    requires SysRun(states, steps) && n <= |steps| && Agreement(states[0].core) && EventsMatch(states[0].core)
    requires !states[n].overridden
    ensures !Circle(states[n], ring)
  {
    ReachableIsOrderly(states, steps, n);
    NoCircle(states[n], ring);
  }

  /** And while any transaction is running, some transaction can execute its next statement. */
  lemma Progress(states: seq<Sys>, steps: seq<Step>, n: nat) returns (free: TxId)
    requires SysRun(states, steps) && n <= |steps| && Agreement(states[0].core) && EventsMatch(states[0].core)
    requires !states[n].overridden && states[n].txns != map[]
    ensures Enabled(states[n], Statement(free))
  {
    ReachableIsOrderly(states, steps, n);
    var id :| id in states[n].txns;
    free := ClimbToFree(states[n], id);
  }
}
