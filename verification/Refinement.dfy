/**
 Every statement-level interleaving of dispatch transactions commits exactly what
 the same operations would have written one after the other, in commit order.
 */
module Refinement {
  import opened Results
  import opened Rows
  import opened AtomicOps
  import opened DispatchInvariants
  import opened Preemption
  import opened Interleaving

  predicate Owns(locks: map<Key, TxId>, id: TxId, k: Key) { k in locks && locks[k] == id }

  // --- What one transaction knows, statement by statement ---

  predicate ReservePc(pc: Pc) {
    pc == Begun || pc == UnitsLocked || pc == IncidentRead || pc == UnitsWritten || pc == Inserted
    || pc == IncidentMarked || pc == ReadyToCommit
  }

  predicate OptimisticPc(pc: Pc) {
    pc == Begun || pc == VersionRead || pc == IncidentRead || pc == UnitsWritten || pc == Inserted
    || pc == IncidentMarked || pc == ReadyToCommit
  }

  predicate AdvancePc(pc: Pc, to: DispatchStatus) {
    pc == Begun || pc == DispatchLocked || pc == OldEnded || pc == UnitsWritten || pc == ReadyToCommit
    || (to == DispatchCompleted && (pc == Counted || pc == IncidentSettled))
  }

  predicate ReassignPc(pc: Pc, same: bool) {
    && pc != VersionRead && pc != StatusRead
    && (same ==> pc != FirstLocked && pc != SecondLocked && pc != OldEnded && pc != OldFreed)
  }

  /** The insert and everything after it: the guard holds and the writes are the operation's. */
  ghost predicate TailInv(core: Core, incidents: map<IncidentId, Incident>, t: Txn)
    requires Inserts(t.req)
  {
    && (Stage(t.pc) >= 6 ==> t.req.incident in incidents)
    && (Stage(t.pc) >= 10 ==>
          && Guard(core, t.req)
          && t.w.dispatches == DispatchWrites(core, OpOf(t)))
    && t.w.events == (if Stage(t.pc) >= 14 then EventWrites(OpOf(t)) else map[])
  }

  ghost predicate ReserveInv(core: Core, locks: map<Key, TxId>, id: TxId, t: Txn)
    requires t.req.Reserve?
  {
    var u := t.req.unit;
    && ReservePc(t.pc)
    && (Stage(t.pc) >= 5 ==> u in core.units && Owns(locks, id, UnitRow(u)) && core.units[u].status == UnitAvailable)
    && t.w.units == (if Stage(t.pc) >= 9 then map[u := MarkReserved(core.units[u])] else map[])
    && (Stage(t.pc) < 10 ==> t.w.dispatches == map[])
  }

  /** Between the unlocked read and the swap, an unmoved version means an unmoved, available row. */
  ghost predicate OptimisticInv(core: Core, locks: map<Key, TxId>, id: TxId, t: Txn)
    requires t.req.ReserveOptimistic?
  {
    var u := t.req.unit;
    && OptimisticPc(t.pc)
    && t.attempt < MAX_OPTIMISTIC_RETRIES
    && (t.attempt > 0 || Stage(t.pc) >= 1 ==> u in core.units && core.units[u].version >= t.firstVersion + t.attempt)
    && (1 <= Stage(t.pc) ==> t.version >= t.firstVersion + t.attempt && core.units[u].version >= t.version)
    && (1 <= Stage(t.pc) && core.units[u].version == t.version ==> core.units[u].status == UnitAvailable)
    && (Stage(t.pc) >= 9 ==> Owns(locks, id, UnitRow(u)) && core.units[u].version == t.version)
    && t.w.units == (if Stage(t.pc) >= 9 then map[u := MarkReserved(core.units[u])] else map[])
    && (Stage(t.pc) < 10 ==> t.w.dispatches == map[])
  }

  ghost predicate AdvanceInv(core: Core, locks: map<Key, TxId>, id: TxId, t: Txn)
    requires t.req.Advance?
  {
    var Advance(d, to) := t.req;
    && AdvancePc(t.pc, to)
    && (Stage(t.pc) >= 2 ==> Guard(core, t.req) && Owns(locks, id, DispatchRow(d)))
    && (Stage(t.pc) >= 9 ==> Owns(locks, id, UnitRow(core.dispatches[d].unit)))
    && t.w.dispatches == (if Stage(t.pc) >= 7 then DispatchWrites(core, OpOf(t)) else map[])
    && t.w.units == (if Stage(t.pc) >= 9 then UnitWrites(core, t.req) else map[])
    && t.w.events == (if Stage(t.pc) >= 14 then EventWrites(OpOf(t)) else map[])
  }

  ghost predicate ReassignInv(core: Core, locks: map<Key, TxId>, id: TxId, t: Txn)
    requires t.req.Reassign? && t.req.dispatch in core.dispatches
  {
    var Reassign(d, _, u, _) := t.req;
    var row := core.dispatches[d];
    var prior := row.unit;
    && ReassignPc(t.pc, prior == u) && (t.pc == Counted ==> row.incident != t.req.incident)
    && (Stage(t.pc) >= 2 ==> Owns(locks, id, DispatchRow(d)) && IsActiveDispatch(row.status))
    && (Stage(t.pc) >= 3 ==> First(core, t) in core.units && Owns(locks, id, UnitRow(First(core, t))))
    && (Stage(t.pc) >= 4 ==> Second(core, t) in core.units && Owns(locks, id, UnitRow(Second(core, t))))
    && (Stage(t.pc) >= 5 && prior != u ==> core.units[u].status == UnitAvailable)
    && (Stage(t.pc) < 7 ==> t.w.dispatches == map[])
    && (7 <= Stage(t.pc) < 10 ==> t.w.dispatches == map[d := row.(status := DispatchCancelled)])
    && t.w.units == (
         if prior == u || Stage(t.pc) < 8 then map[]
         else if Stage(t.pc) < 9 then map[prior := SetUnitStatus(core.units[prior], UnitAvailable)]
         else map[prior := SetUnitStatus(core.units[prior], UnitAvailable), u := MarkReserved(core.units[u])])
  }

  ghost predicate TxInv(core: Core, incidents: map<IncidentId, Incident>, locks: map<Key, TxId>, id: TxId, t: Txn) {
    && t.newDispatch !in core.dispatches && t.event !in core.events
    && Acceptable(core, incidents, t.req)
    && KnownIncidents(incidents, t.w.incidents)
    && match t.req
       case Reserve(_, _) => ReserveInv(core, locks, id, t) && TailInv(core, incidents, t)
       case ReserveOptimistic(_, _) => OptimisticInv(core, locks, id, t) && TailInv(core, incidents, t)
       case Advance(_, _) => AdvanceInv(core, locks, id, t)
       case Reassign(_, _, _, _) => ReassignInv(core, locks, id, t) && TailInv(core, incidents, t)
       case Override(u, st) =>
         && (t.pc == Begun || t.pc == ReadyToCommit)
         && t.w.dispatches == map[] && t.w.events == map[]
         && (t.pc == ReadyToCommit ==> u in core.units && Owns(locks, id, UnitRow(u)))
         && t.w.units == (if t.pc == ReadyToCommit then map[u := SetUnitStatus(core.units[u], st)] else map[])
       case Operator(_, _) =>
         && (t.pc == Begun || t.pc == StatusRead || t.pc == ReadyToCommit)
         && t.w.units == map[] && t.w.dispatches == map[] && t.w.events == map[]
  }

  // --- What one transaction may rely on while others commit ---

  /** The committed tables moved without touching a row that `id` has locked. */
  ghost predicate Evolves(core: Core, after: Core, locks: map<Key, TxId>, id: TxId) {
    UnitsEvolve(core, after, locks, id) && DispatchesEvolve(core, after, locks, id)
  }

  ghost predicate UnitsEvolve(core: Core, after: Core, locks: map<Key, TxId>, id: TxId) {
    && (forall u | u in core.units :: u in after.units)
    && (forall u | u in core.units :: after.units[u] == core.units[u] || after.units[u].version > core.units[u].version)
    && (forall u | u in core.units && Owns(locks, id, UnitRow(u)) :: after.units[u] == core.units[u])
  }

  ghost predicate DispatchesEvolve(core: Core, after: Core, locks: map<Key, TxId>, id: TxId) {
    && (forall d | d in core.dispatches :: d in after.dispatches && after.dispatches[d].unit == core.dispatches[d].unit
                                           && after.dispatches[d].incident == core.dispatches[d].incident)
    && (forall d | d in core.dispatches && Owns(locks, id, DispatchRow(d)) :: after.dispatches[d] == core.dispatches[d])
    && (forall u, d | Owns(locks, id, UnitRow(u)) && d in after.dispatches && Holds(after.dispatches, d, u) :: Holds(core.dispatches, d, u))
  }

  ghost predicate SameIncidents(incidents: map<IncidentId, Incident>, after: map<IncidentId, Incident>) {
    forall i | i in incidents :: i in after && SameButStatus(incidents[i], after[i])
  }

  lemma ReserveFrame(core: Core, after: Core, locks: map<Key, TxId>, more: map<Key, TxId>, id: TxId, t: Txn)
    requires t.req.Reserve? && ReserveInv(core, locks, id, t) && Evolves(core, after, locks, id)
    requires forall k | Owns(locks, id, k) :: Owns(more, id, k)
    ensures ReserveInv(after, more, id, t)
  {
  }

  lemma OptimisticFrame(core: Core, after: Core, locks: map<Key, TxId>, more: map<Key, TxId>, id: TxId, t: Txn)
    requires t.req.ReserveOptimistic? && OptimisticInv(core, locks, id, t) && Evolves(core, after, locks, id)
    requires forall k | Owns(locks, id, k) :: Owns(more, id, k)
    ensures OptimisticInv(after, more, id, t)
  {
  }

  lemma AdvanceFrame(core: Core, after: Core, locks: map<Key, TxId>, more: map<Key, TxId>, id: TxId, t: Txn)
    requires t.req.Advance? && AdvanceInv(core, locks, id, t) && Evolves(core, after, locks, id)
    requires forall k | Owns(locks, id, k) :: Owns(more, id, k)
    ensures AdvanceInv(after, more, id, t)
  {
  }

  lemma ReassignFrame(core: Core, after: Core, locks: map<Key, TxId>, more: map<Key, TxId>, id: TxId, t: Txn)
    requires t.req.Reassign? && t.req.dispatch in core.dispatches
    requires ReassignInv(core, locks, id, t) && Evolves(core, after, locks, id)
    requires forall k | Owns(locks, id, k) :: Owns(more, id, k)
    ensures ReassignInv(after, more, id, t)
  {
  }

  /** The unit an inserting transaction is about to give a dispatch is locked from stage 9 on. */
  lemma TailFrame(core: Core, after: Core, incidents: map<IncidentId, Incident>, later: map<IncidentId, Incident>,
                  locks: map<Key, TxId>, id: TxId, t: Txn)
    requires Inserts(t.req) && TailInv(core, incidents, t) && Evolves(core, after, locks, id) && SameIncidents(incidents, later)
    requires Stage(t.pc) >= 10 ==>
               && Owns(locks, id, UnitRow(t.req.unit))
               && (t.req.Reassign? ==> Owns(locks, id, DispatchRow(t.req.dispatch)))
    ensures TailInv(after, later, t)
  {
    if Stage(t.pc) >= 10 {
      if t.req.Reassign? {
        assert HeldOnlyBy(core.dispatches, t.req.unit, t.req.dispatch);
        assert HeldOnlyBy(after.dispatches, t.req.unit, t.req.dispatch);
      } else {
        assert UnitFree(core.dispatches, t.req.unit);
        assert UnitFree(after.dispatches, t.req.unit);
      }
    }
  }

  lemma StaysAcceptable(core: Core, after: Core, incidents: map<IncidentId, Incident>, later: map<IncidentId, Incident>,
                        locks: map<Key, TxId>, id: TxId, t: Txn)
    requires Acceptable(core, incidents, t.req) && KnownIncidents(incidents, t.w.incidents)
    requires Evolves(core, after, locks, id) && SameIncidents(incidents, later)
    ensures Acceptable(after, later, t.req) && KnownIncidents(later, t.w.incidents)
    ensures t.req.Reassign? ==> t.req.dispatch in core.dispatches
  {
  }

  /** An inserting transaction owns its unit from the insert on, and a reassigning one the dispatch it ends. */
  lemma UnitsOwnedLate(core: Core, incidents: map<IncidentId, Incident>, locks: map<Key, TxId>, id: TxId, t: Txn)
    requires TxInv(core, incidents, locks, id, t)
    ensures Inserts(t.req) && Stage(t.pc) >= 10 ==> Owns(locks, id, UnitRow(t.req.unit))
    ensures t.req.Reassign? && Stage(t.pc) >= 10 ==> Owns(locks, id, DispatchRow(t.req.dispatch))
  {
    hide TailInv, AdvanceInv, KnownIncidents;
  }

  lemma LockedUnitStays(core: Core, after: Core, locks: map<Key, TxId>, id: TxId, u: UnitId)
    requires Evolves(core, after, locks, id) && u in core.units
    ensures u in after.units && (Owns(locks, id, UnitRow(u)) ==> after.units[u] == core.units[u])
  {
  }

  /** A transaction's knowledge survives whatever the others do. */
  lemma TxFrame(core: Core, after: Core, incidents: map<IncidentId, Incident>, later: map<IncidentId, Incident>,
                locks: map<Key, TxId>, more: map<Key, TxId>, id: TxId, t: Txn)
    requires TxInv(core, incidents, locks, id, t) && Evolves(core, after, locks, id) && SameIncidents(incidents, later)
    requires forall k | Owns(locks, id, k) :: Owns(more, id, k)
    requires t.newDispatch !in after.dispatches && t.event !in after.events
    ensures TxInv(after, later, more, id, t)
  {
    hide ReserveInv, OptimisticInv, AdvanceInv, ReassignInv, TailInv, KnownIncidents, Acceptable, Evolves, SameIncidents;
    StaysAcceptable(core, after, incidents, later, locks, id, t);
    UnitsOwnedLate(core, incidents, locks, id, t);
    match t.req
    case Reserve(_, _) =>
      ReserveFrame(core, after, locks, more, id, t);
      TailFrame(core, after, incidents, later, locks, id, t);
    case ReserveOptimistic(_, _) =>
      OptimisticFrame(core, after, locks, more, id, t);
      TailFrame(core, after, incidents, later, locks, id, t);
    case Advance(_, _) => AdvanceFrame(core, after, locks, more, id, t);
    case Reassign(_, _, _, _) =>
      ReassignFrame(core, after, locks, more, id, t);
      TailFrame(core, after, incidents, later, locks, id, t);
    case Override(u, _) => if u in core.units { LockedUnitStays(core, after, locks, id, u); }
    case Operator(_, _) =>
  }

  // --- One statement of one transaction ---

  function Taking(locks: map<Key, TxId>, k: Option<Key>, id: TxId): map<Key, TxId> {
    if k.Some? then locks[k.value := id] else locks
  }

  ghost predicate Ready(core: Core, incidents: map<IncidentId, Incident>, locks: map<Key, TxId>, id: TxId, t: Txn) {
    TxInv(core, incidents, locks, id, t) && t.pc == ReadyToCommit
  }

  lemma AdvanceLocksAndEnds(core: Core, incidents: map<IncidentId, Incident>, locks: map<Key, TxId>, id: TxId, t: Txn, t': Txn)
    requires t.req.Advance? && AdvanceInv(core, locks, id, t) && Stage(t.pc) < 7
    requires ExecAdvance(core, incidents, t) == Next(t') && ForeignKeys(Db(core, incidents))
    ensures AdvanceInv(core, Taking(locks, NextRow(core, incidents, t), id), id, t')
  {
    hide UnitWrites, EventWrites;
  }

  lemma AdvanceMovesUnit(core: Core, incidents: map<IncidentId, Incident>, locks: map<Key, TxId>, id: TxId, t: Txn, t': Txn)
    requires t.req.Advance? && AdvanceInv(core, locks, id, t) && t.pc == OldEnded
    requires ExecAdvance(core, incidents, t) == Next(t') && ForeignKeys(Db(core, incidents))
    ensures AdvanceInv(core, Taking(locks, NextRow(core, incidents, t), id), id, t')
  {
    hide DispatchWrites, EventWrites;
  }

  lemma AdvanceFinishes(core: Core, incidents: map<IncidentId, Incident>, locks: map<Key, TxId>, id: TxId, t: Txn, t': Txn)
    requires t.req.Advance? && AdvanceInv(core, locks, id, t) && 9 <= Stage(t.pc) < 14
    requires ExecAdvance(core, incidents, t) == Next(t')
    ensures AdvanceInv(core, Taking(locks, NextRow(core, incidents, t), id), id, t')
  {
    hide Guard, DispatchWrites, UnitWrites, IncidentUnserved, SetUnitStatus, UnitStatusForDispatch;
  }

  lemma AdvanceStatement(core: Core, incidents: map<IncidentId, Incident>, locks: map<Key, TxId>, id: TxId, t: Txn, t': Txn)
    requires t.req.Advance? && AdvanceInv(core, locks, id, t) && t.pc != ReadyToCommit
    requires ExecAdvance(core, incidents, t) == Next(t') && ForeignKeys(Db(core, incidents))
    ensures AdvanceInv(core, Taking(locks, NextRow(core, incidents, t), id), id, t')
  {
    assert AdvancePc(t.pc, t.req.to);
    hide AdvanceInv, ExecAdvance, NextRow;
    if Stage(t.pc) < 7 { AdvanceLocksAndEnds(core, incidents, locks, id, t, t'); }
    else if t.pc == OldEnded { AdvanceMovesUnit(core, incidents, locks, id, t, t'); }
    else { AdvanceFinishes(core, incidents, locks, id, t, t'); }
  }

  ghost predicate KnownIncidents(incidents: map<IncidentId, Incident>, w: map<IncidentId, Incident>) {
    forall i | i in w :: i in incidents && SameButStatus(incidents[i], w[i])
  }

  /** What any statement leaves alone in a transaction's record. */
  ghost predicate SameCall(t: Txn, t': Txn) {
    t'.req == t.req && t'.newDispatch == t.newDispatch && t'.event == t.event
  }

  lemma TailShape(core: Core, incidents: map<IncidentId, Incident>, t: Txn, t': Txn)
    requires Inserts(t.req) && 9 <= Stage(t.pc) < 14 && ExecTail(core, incidents, t) == Next(t')
    ensures SameCall(t, t') && t'.w.units == t.w.units && 10 <= Stage(t'.pc) && Stage(t.pc) < Stage(t'.pc)
    ensures t'.pc == Counted ==> t.req.Reassign? && t.req.dispatch in core.dispatches && core.dispatches[t.req.dispatch].incident != t.req.incident
  {
  }

  lemma SettleKeepsIncidents(incidents: map<IncidentId, Incident>, t: Txn, i: IncidentId, to: IncidentStatus)
    requires KnownIncidents(incidents, t.w.incidents)
    ensures KnownIncidents(incidents, Settle(incidents, t, i, to).w.incidents)
  {
  }

  lemma TailIncidents(core: Core, incidents: map<IncidentId, Incident>, t: Txn, t': Txn)
    requires Inserts(t.req) && 9 <= Stage(t.pc) < 14 && ExecTail(core, incidents, t) == Next(t')
    requires KnownIncidents(incidents, t.w.incidents)
    ensures KnownIncidents(incidents, t'.w.incidents)
  {
    if t.pc == Inserted {
      assert t'.w.incidents == MarkWrites(incidents, t.req.incident);
    } else if t.pc == Counted {
      var prior := core.dispatches[t.req.dispatch].incident;
      SettleKeepsIncidents(incidents, t, prior, Verified);
      assert t' == Settle(incidents, t, prior, Verified);
    } else {
      assert t'.w.incidents == t.w.incidents;
    }
  }

  lemma AdvanceIncidents(core: Core, incidents: map<IncidentId, Incident>, t: Txn, t': Txn)
    requires t.req.Advance? && KnownIncidents(incidents, t.w.incidents) && ExecAdvance(core, incidents, t) == Next(t')
    ensures SameCall(t, t') && KnownIncidents(incidents, t'.w.incidents)
  {
  }

  lemma ReassignIncidents(core: Core, incidents: map<IncidentId, Incident>, t: Txn, t': Txn)
    requires t.req.Reassign? && t.pc != VersionRead && t.pc != StatusRead && t.pc != ReadyToCommit
    requires KnownIncidents(incidents, t.w.incidents) && ExecReassign(core, incidents, t) == Next(t')
    ensures SameCall(t, t') && KnownIncidents(incidents, t'.w.incidents)
  {
    if 9 <= Stage(t.pc) {
      TailShape(core, incidents, t, t');
      TailIncidents(core, incidents, t, t');
    }
  }

  lemma ReassignLocking(core: Core, incidents: map<IncidentId, Incident>, locks: map<Key, TxId>, id: TxId, t: Txn, t': Txn)
    requires t.req.Reassign? && t.req.dispatch in core.dispatches && core.dispatches[t.req.dispatch].unit in core.units
    requires ReassignInv(core, locks, id, t) && Stage(t.pc) < 5 && ExecReassign(core, incidents, t) == Next(t')
    ensures ReassignInv(core, Taking(locks, NextRow(core, incidents, t), id), id, t')
  {
  }

  lemma ReassignReadsAndEnds(core: Core, incidents: map<IncidentId, Incident>, locks: map<Key, TxId>, id: TxId, t: Txn, t': Txn)
    requires t.req.Reassign? && t.req.dispatch in core.dispatches && core.dispatches[t.req.dispatch].unit in core.units
    requires ReassignInv(core, locks, id, t) && 5 <= Stage(t.pc) < 7 && ExecReassign(core, incidents, t) == Next(t')
    ensures ReassignInv(core, Taking(locks, NextRow(core, incidents, t), id), id, t')
  {
    hide SetUnitStatus, MarkReserved;
  }

  lemma ReassignMovesUnits(core: Core, incidents: map<IncidentId, Incident>, locks: map<Key, TxId>, id: TxId, t: Txn, t': Txn)
    requires t.req.Reassign? && t.req.dispatch in core.dispatches && core.dispatches[t.req.dispatch].unit in core.units
    requires ReassignInv(core, locks, id, t) && 7 <= Stage(t.pc) < 9 && ExecReassign(core, incidents, t) == Next(t')
    ensures ReassignInv(core, Taking(locks, NextRow(core, incidents, t), id), id, t')
  {
    hide SetUnitStatus, MarkReserved;
  }

  lemma ReassignFinishing(core: Core, locks: map<Key, TxId>, more: map<Key, TxId>, id: TxId, t: Txn, t': Txn)
    requires t.req.Reassign? && t.req.dispatch in core.dispatches
    requires ReassignInv(core, locks, id, t) && 9 <= Stage(t.pc)
    requires SameCall(t, t') && t'.w.units == t.w.units && 10 <= Stage(t'.pc)
    requires t'.pc == Counted ==> core.dispatches[t.req.dispatch].incident != t.req.incident
    requires forall k | Owns(locks, id, k) :: Owns(more, id, k)
    ensures ReassignInv(core, more, id, t')
  {
  }

  /** Once its own row is cancelled, an insert the index accepts shows no other dispatch holds the unit. */
  lemma ReassignInserts(core: Core, t: Txn)
    requires t.req.Reassign? && t.req.dispatch in core.dispatches && t.newDispatch !in core.dispatches
    requires t.w.dispatches == map[t.req.dispatch := core.dispatches[t.req.dispatch].(status := DispatchCancelled)]
    requires UnitFree(Seen(core, t), t.req.unit)
    ensures HeldOnlyBy(core.dispatches, t.req.unit, t.req.dispatch)
  {
    var d, u := t.req.dispatch, t.req.unit;
    forall e | e in core.dispatches && Holds(core.dispatches, e, u) ensures e == d {
      assert e != d ==> Holds(Seen(core, t), e, u);
    }
  }

  /** What a reservation may find when the index accepts its insert. */
  lemma ReservationInserts(core: Core, incidents: map<IncidentId, Incident>, t: Txn, t': Txn)
    requires (t.req.Reserve? || t.req.ReserveOptimistic?) && t.pc == UnitsWritten && t.w.dispatches == map[]
    requires t.req.unit in core.units && core.units[t.req.unit].status == UnitAvailable
    requires TailInv(core, incidents, t) && ExecTail(core, incidents, t) == Next(t')
    ensures TailInv(core, incidents, t')
  {
    assert Seen(core, t) == core.dispatches;
  }

  lemma TailAdvances(core: Core, incidents: map<IncidentId, Incident>, t: Txn, t': Txn)
    requires Inserts(t.req) && 10 <= Stage(t.pc) < 14 && TailInv(core, incidents, t) && ExecTail(core, incidents, t) == Next(t')
    ensures TailInv(core, incidents, t')
  {
    hide Guard, DispatchWrites, EventWrites;
    TailShape(core, incidents, t, t');
  }

  lemma ReserveEarly(core: Core, incidents: map<IncidentId, Incident>, locks: map<Key, TxId>, id: TxId, t: Txn, t': Txn)
    requires t.req.Reserve? && ReserveInv(core, locks, id, t) && TailInv(core, incidents, t) && Stage(t.pc) < 9
    requires ExecReserve(core, incidents, t) == Next(t')
    ensures ReserveInv(core, Taking(locks, NextRow(core, incidents, t), id), id, t') && TailInv(core, incidents, t')
    ensures SameCall(t, t') && t'.w.incidents == t.w.incidents
  {
    hide Guard, DispatchWrites, EventWrites;
  }

  lemma ReserveLate(core: Core, locks: map<Key, TxId>, more: map<Key, TxId>, id: TxId, t: Txn, t': Txn)
    requires t.req.Reserve? && ReserveInv(core, locks, id, t) && 9 <= Stage(t.pc)
    requires SameCall(t, t') && t'.w.units == t.w.units && 10 <= Stage(t'.pc) && t'.pc != Counted && t'.pc != IncidentSettled
    requires forall k | Owns(locks, id, k) :: Owns(more, id, k)
    ensures ReserveInv(core, more, id, t')
  {
  }

  lemma ReserveStatement(core: Core, incidents: map<IncidentId, Incident>, locks: map<Key, TxId>, id: TxId, t: Txn, t': Txn)
    requires t.req.Reserve? && ReserveInv(core, locks, id, t) && TailInv(core, incidents, t) && t.pc != ReadyToCommit
    requires KnownIncidents(incidents, t.w.incidents) && ExecReserve(core, incidents, t) == Next(t')
    ensures ReserveInv(core, Taking(locks, NextRow(core, incidents, t), id), id, t') && TailInv(core, incidents, t')
    ensures SameCall(t, t') && KnownIncidents(incidents, t'.w.incidents)
  {
    if Stage(t.pc) < 9 {
      hide ExecReserve, TailInv, KnownIncidents, NextRow;
      ReserveEarly(core, incidents, locks, id, t, t');
    } else {
      ReservationTail(core, incidents, t, t');
      StillOwns(core, incidents, locks, id, t);
      hide ExecTail, TailInv, KnownIncidents, NextRow;
      ReserveLate(core, locks, Taking(locks, NextRow(core, incidents, t), id), id, t, t');
      if t.pc == UnitsWritten { ReservationInserts(core, incidents, t, t'); } else { TailAdvances(core, incidents, t, t'); }
    }
  }

  /** Taking one more lock loses none. */
  lemma StillOwns(core: Core, incidents: map<IncidentId, Incident>, locks: map<Key, TxId>, id: TxId, t: Txn)
    ensures forall k | Owns(locks, id, k) :: Owns(Taking(locks, NextRow(core, incidents, t), id), id, k)
  {
    hide NextRow;
  }

  lemma ReservationTail(core: Core, incidents: map<IncidentId, Incident>, t: Txn, t': Txn)
    requires (t.req.Reserve? || t.req.ReserveOptimistic?) && 9 <= Stage(t.pc) < 14 && ExecTail(core, incidents, t) == Next(t')
    requires t.pc != Counted && t.pc != IncidentSettled && KnownIncidents(incidents, t.w.incidents)
    ensures SameCall(t, t') && t'.w.units == t.w.units && 10 <= Stage(t'.pc) && t'.pc != Counted && t'.pc != IncidentSettled
    ensures t'.version == t.version && t'.firstVersion == t.firstVersion && t'.attempt == t.attempt
    ensures KnownIncidents(incidents, t'.w.incidents)
  {
    hide UnitFree, EventWrites, KnownIncidents;
    TailShape(core, incidents, t, t');
    TailIncidents(core, incidents, t, t');
  }

  lemma OptimisticEarly(core: Core, incidents: map<IncidentId, Incident>, locks: map<Key, TxId>, id: TxId, t: Txn, t': Txn)
    requires t.req.ReserveOptimistic? && OptimisticInv(core, locks, id, t) && TailInv(core, incidents, t) && Stage(t.pc) < 9
    requires ExecOptimistic(core, incidents, t) == Next(t')
    ensures OptimisticInv(core, Taking(locks, NextRow(core, incidents, t), id), id, t') && TailInv(core, incidents, t')
    ensures SameCall(t, t') && t'.w.incidents == t.w.incidents
  {
    hide Guard, DispatchWrites, EventWrites;
  }

  lemma OptimisticLate(core: Core, locks: map<Key, TxId>, more: map<Key, TxId>, id: TxId, t: Txn, t': Txn)
    requires t.req.ReserveOptimistic? && OptimisticInv(core, locks, id, t) && 9 <= Stage(t.pc)
    requires SameCall(t, t') && t'.w.units == t.w.units && 10 <= Stage(t'.pc) && t'.pc != Counted && t'.pc != IncidentSettled
    requires t'.version == t.version && t'.firstVersion == t.firstVersion && t'.attempt == t.attempt
    requires forall k | Owns(locks, id, k) :: Owns(more, id, k)
    ensures OptimisticInv(core, more, id, t')
  {
  }

  lemma OptimisticStatement(core: Core, incidents: map<IncidentId, Incident>, locks: map<Key, TxId>, id: TxId, t: Txn, t': Txn)
    requires t.req.ReserveOptimistic? && OptimisticInv(core, locks, id, t) && TailInv(core, incidents, t) && t.pc != ReadyToCommit
    requires KnownIncidents(incidents, t.w.incidents) && ExecOptimistic(core, incidents, t) == Next(t')
    ensures OptimisticInv(core, Taking(locks, NextRow(core, incidents, t), id), id, t') && TailInv(core, incidents, t')
    ensures SameCall(t, t') && KnownIncidents(incidents, t'.w.incidents)
  {
    if Stage(t.pc) < 9 {
      hide ExecOptimistic, TailInv, KnownIncidents, NextRow;
      OptimisticEarly(core, incidents, locks, id, t, t');
    } else {
      ReservationTail(core, incidents, t, t');
      StillOwns(core, incidents, locks, id, t);
      hide ExecTail, TailInv, KnownIncidents, NextRow;
      OptimisticLate(core, locks, Taking(locks, NextRow(core, incidents, t), id), id, t, t');
      if t.pc == UnitsWritten { ReservationInserts(core, incidents, t, t'); } else { TailAdvances(core, incidents, t, t'); }
    }
  }

  lemma ReassignInsertsTail(core: Core, incidents: map<IncidentId, Incident>, t: Txn, t': Txn)
    requires t.req.Reassign? && t.req.dispatch in core.dispatches && core.dispatches[t.req.dispatch].unit in core.units
    requires t.pc == UnitsWritten && TailInv(core, incidents, t) && t.newDispatch !in core.dispatches
    requires IsActiveDispatch(core.dispatches[t.req.dispatch].status) && t.req.unit in core.units
    requires core.dispatches[t.req.dispatch].unit != t.req.unit ==> core.units[t.req.unit].status == UnitAvailable
    requires t.w.dispatches == map[t.req.dispatch := core.dispatches[t.req.dispatch].(status := DispatchCancelled)]
    requires ExecTail(core, incidents, t) == Next(t')
    ensures TailInv(core, incidents, t')
  {
    ReassignInserts(core, t);
  }

  lemma ReassignReaches(core: Core, incidents: map<IncidentId, Incident>, t: Txn, t': Txn)
    requires t.req.Reassign? && t.req.dispatch in core.dispatches && Stage(t.pc) < 9
    requires t.pc != VersionRead && t.pc != StatusRead
    requires TailInv(core, incidents, t) && ExecReassign(core, incidents, t) == Next(t')
    ensures TailInv(core, incidents, t')
  {
    hide Guard, DispatchWrites, EventWrites;
  }

  lemma ReassignTail(core: Core, incidents: map<IncidentId, Incident>, locks: map<Key, TxId>, id: TxId, t: Txn, t': Txn)
    requires t.req.Reassign? && t.req.dispatch in core.dispatches && core.dispatches[t.req.dispatch].unit in core.units
    requires ReassignInv(core, locks, id, t) && TailInv(core, incidents, t) && t.newDispatch !in core.dispatches
    requires t.pc != ReadyToCommit && ExecReassign(core, incidents, t) == Next(t')
    ensures TailInv(core, incidents, t')
  {
    hide ExecTail, TailInv, UnitWrites, IsActiveDispatch;
    if Stage(t.pc) < 9 { ReassignReaches(core, incidents, t, t'); }
    else if t.pc == UnitsWritten { ReassignInsertsTail(core, incidents, t, t'); }
    else { TailAdvances(core, incidents, t, t'); }
  }

  lemma ReassignStatement(core: Core, incidents: map<IncidentId, Incident>, locks: map<Key, TxId>, id: TxId, t: Txn, t': Txn)
    requires t.req.Reassign? && t.req.dispatch in core.dispatches && core.dispatches[t.req.dispatch].unit in core.units
    requires ReassignInv(core, locks, id, t) && TailInv(core, incidents, t) && t.newDispatch !in core.dispatches
    requires KnownIncidents(incidents, t.w.incidents)
    requires t.pc != ReadyToCommit && ExecReassign(core, incidents, t) == Next(t')
    ensures ReassignInv(core, Taking(locks, NextRow(core, incidents, t), id), id, t') && TailInv(core, incidents, t')
  {
    if Stage(t.pc) < 5 { ReassignLocking(core, incidents, locks, id, t, t'); }
    else if Stage(t.pc) < 7 { ReassignReadsAndEnds(core, incidents, locks, id, t, t'); }
    else if Stage(t.pc) < 9 { ReassignMovesUnits(core, incidents, locks, id, t, t'); }
    else {
      TailShape(core, incidents, t, t');
      ReassignFinishing(core, locks, Taking(locks, NextRow(core, incidents, t), id), id, t, t');
    }
    ReassignTail(core, incidents, locks, id, t, t');
  }

  lemma OwnStatement(core: Core, incidents: map<IncidentId, Incident>, locks: map<Key, TxId>, id: TxId, t: Txn)
    requires TxInv(core, incidents, locks, id, t) && ForeignKeys(Db(core, incidents)) && Exec(core, incidents, t).Next?
    requires t.pc != ReadyToCommit
    ensures TxInv(core, incidents, Taking(locks, NextRow(core, incidents, t), id), id, Exec(core, incidents, t).t)
  {
    var t' := Exec(core, incidents, t).t;
    match t.req
    case Reserve(_, _) => ReserveStatement(core, incidents, locks, id, t, t');
    case ReserveOptimistic(_, _) => OptimisticStatement(core, incidents, locks, id, t, t');
    case Advance(_, _) =>
      AdvanceIncidents(core, incidents, t, t');
      AdvanceStatement(core, incidents, locks, id, t, t');
    case Reassign(_, _, _, _) =>
      ReassignIncidents(core, incidents, t, t');
      ReassignStatement(core, incidents, locks, id, t, t');
    case Override(_, _) =>
    case Operator(_, _) =>
  }

  lemma ReserverCommits(core: Core, incidents: map<IncidentId, Incident>, t: Txn)
    requires (t.req.Reserve? && ReservePc(t.pc)) || (t.req.ReserveOptimistic? && OptimisticPc(t.pc))
    ensures Exec(core, incidents, t).Committed? <==> t.pc == ReadyToCommit
  {
  }

  lemma HolderCommits(core: Core, incidents: map<IncidentId, Incident>, locks: map<Key, TxId>, id: TxId, t: Txn)
    requires t.req.Advance? || (t.req.Reassign? && t.req.dispatch in core.dispatches)
    requires t.req.Advance? ==> AdvanceInv(core, locks, id, t)
    requires t.req.Reassign? ==> ReassignInv(core, locks, id, t)
    ensures Exec(core, incidents, t).Committed? <==> t.pc == ReadyToCommit
  {
  }

  lemma CommitsWhenReady(core: Core, incidents: map<IncidentId, Incident>, locks: map<Key, TxId>, id: TxId, t: Txn)
    requires TxInv(core, incidents, locks, id, t)
    ensures Exec(core, incidents, t).Committed? <==> t.pc == ReadyToCommit
  {
    hide ExecReserve, ExecOptimistic, ExecAdvance, ExecReassign, TailInv;
    match t.req
    case Reserve(_, _) => ReserverCommits(core, incidents, t);
    case ReserveOptimistic(_, _) => ReserverCommits(core, incidents, t);
    case Advance(_, _) => HolderCommits(core, incidents, locks, id, t);
    case Reassign(_, _, _, _) => HolderCommits(core, incidents, locks, id, t);
    case _ =>
  }

  lemma ReservationIsAtomic(core: Core, incidents: map<IncidentId, Incident>, locks: map<Key, TxId>, id: TxId, t: Txn)
    requires t.req.Reserve? || t.req.ReserveOptimistic?
    requires Ready(core, incidents, locks, id, t)
    ensures CommittedStep(core, OpOf(t), Merge(core, t.w))
  {
  }

  lemma ReassignmentWrites(core: Core, locks: map<Key, TxId>, id: TxId, t: Txn)
    requires t.req.Reassign? && Guard(core, t.req) && ReassignInv(core, locks, id, t) && t.pc == ReadyToCommit
    ensures t.w.units == UnitWrites(core, t.req)
  {
  }

  lemma ReassignmentIsAtomic(core: Core, incidents: map<IncidentId, Incident>, locks: map<Key, TxId>, id: TxId, t: Txn)
    requires t.req.Reassign? && Ready(core, incidents, locks, id, t)
    ensures CommittedStep(core, OpOf(t), Merge(core, t.w))
  {
    hide ReassignInv, UnitWrites, DispatchWrites, EventWrites, Guard, KnownIncidents;
    ReassignmentWrites(core, locks, id, t);
  }

  lemma UpdateIsAtomic(core: Core, incidents: map<IncidentId, Incident>, locks: map<Key, TxId>, id: TxId, t: Txn)
    requires !Inserts(t.req) && Ready(core, incidents, locks, id, t)
    ensures CommittedStep(core, OpOf(t), Merge(core, t.w))
  {
    if t.req.Advance? { AdvanceIsAtomic(core, incidents, locks, id, t); } else { StatusChangeIsAtomic(core, incidents, locks, id, t); }
  }

  lemma AdvanceIsAtomic(core: Core, incidents: map<IncidentId, Incident>, locks: map<Key, TxId>, id: TxId, t: Txn)
    requires t.req.Advance? && Ready(core, incidents, locks, id, t)
    ensures CommittedStep(core, OpOf(t), Merge(core, t.w))
  {
    hide UnitWrites, DispatchWrites, EventWrites, Guard, KnownIncidents;
  }

  lemma StatusChangeIsAtomic(core: Core, incidents: map<IncidentId, Incident>, locks: map<Key, TxId>, id: TxId, t: Txn)
    requires (t.req.Override? || t.req.Operator?) && Ready(core, incidents, locks, id, t)
    ensures CommittedStep(core, OpOf(t), Merge(core, t.w))
  {
  }

  /** A transaction that is ready has written exactly what its atomic operation would write now. */
  lemma CommitIsAtomic(core: Core, incidents: map<IncidentId, Incident>, locks: map<Key, TxId>, id: TxId, t: Txn)
    requires Ready(core, incidents, locks, id, t)
    ensures CommittedStep(core, OpOf(t), Merge(core, t.w))
  {
    hide Ready, CommittedStep;
    if t.req.Reassign? { ReassignmentIsAtomic(core, incidents, locks, id, t); }
    else if Inserts(t.req) { ReservationIsAtomic(core, incidents, locks, id, t); }
    else { UpdateIsAtomic(core, incidents, locks, id, t); }
  }

  /** What a ready transaction has written, it has locked; only its own new row is unlocked. */
  ghost predicate LockedWrites(core: Core, locks: map<Key, TxId>, id: TxId, t: Txn) {
    LockedUnits(core, locks, id, t) && LockedDispatches(core, locks, id, t) && forall e | e in t.w.events :: e == t.event
  }

  ghost predicate LockedUnits(core: Core, locks: map<Key, TxId>, id: TxId, t: Txn) {
    forall u | u in t.w.units ::
      u in core.units && Owns(locks, id, UnitRow(u)) && t.w.units[u].version > core.units[u].version
  }

  ghost predicate LockedDispatches(core: Core, locks: map<Key, TxId>, id: TxId, t: Txn) {
    && (forall d | d in t.w.dispatches && d in core.dispatches ::
          && Owns(locks, id, DispatchRow(d))
          && t.w.dispatches[d].unit == core.dispatches[d].unit && t.w.dispatches[d].incident == core.dispatches[d].incident
          && IsActiveDispatch(core.dispatches[d].status))
    && (forall d | d in t.w.dispatches && d !in core.dispatches ::
          d == t.newDispatch && Owns(locks, id, UnitRow(t.w.dispatches[d].unit)))
  }

  lemma ReservationWritesLocked(core: Core, incidents: map<IncidentId, Incident>, locks: map<Key, TxId>, id: TxId, t: Txn)
    requires t.req.Reserve? || t.req.ReserveOptimistic?
    requires TxInv(core, incidents, locks, id, t)
    ensures LockedWrites(core, locks, id, t)
  {
  }

  lemma ReassignmentWritesLocked(core: Core, incidents: map<IncidentId, Incident>, locks: map<Key, TxId>, id: TxId, t: Txn)
    requires t.req.Reassign? && TxInv(core, incidents, locks, id, t)
    ensures LockedWrites(core, locks, id, t)
  {
    ReassignmentUnitsLocked(core, locks, id, t);
    ReassignmentDispatchesLocked(core, incidents, locks, id, t);
    hide ReassignInv, LockedUnits, LockedDispatches, Acceptable, KnownIncidents;
  }

  lemma ReassignmentUnitsLocked(core: Core, locks: map<Key, TxId>, id: TxId, t: Txn)
    requires t.req.Reassign? && t.req.dispatch in core.dispatches && ReassignInv(core, locks, id, t)
    ensures LockedUnits(core, locks, id, t)
  {
  }

  lemma ReassignmentDispatchesLocked(core: Core, incidents: map<IncidentId, Incident>, locks: map<Key, TxId>, id: TxId, t: Txn)
    requires t.req.Reassign? && t.req.dispatch in core.dispatches && t.newDispatch !in core.dispatches
    requires ReassignInv(core, locks, id, t) && TailInv(core, incidents, t)
    ensures LockedDispatches(core, locks, id, t)
  {
    hide SetUnitStatus, MarkReserved, HeldOnlyBy;
  }

  lemma UpdateWritesLocked(core: Core, incidents: map<IncidentId, Incident>, locks: map<Key, TxId>, id: TxId, t: Txn)
    requires !Inserts(t.req) && TxInv(core, incidents, locks, id, t)
    ensures LockedWrites(core, locks, id, t)
  {
  }

  lemma WritesAreLocked(core: Core, incidents: map<IncidentId, Incident>, locks: map<Key, TxId>, id: TxId, t: Txn)
    requires TxInv(core, incidents, locks, id, t)
    ensures LockedWrites(core, locks, id, t)
  {
    hide TxInv, LockedWrites;
    if t.req.Reassign? { ReassignmentWritesLocked(core, incidents, locks, id, t); }
    else if Inserts(t.req) { ReservationWritesLocked(core, incidents, locks, id, t); }
    else { UpdateWritesLocked(core, incidents, locks, id, t); }
  }

  lemma CommitEvolves(core: Core, locks: map<Key, TxId>, id: TxId, t: Txn, other: TxId)
    requires LockedWrites(core, locks, id, t) && other != id
    ensures Evolves(core, Merge(core, t.w), locks, other)
  {
    CommitEvolvesUnits(core, locks, id, t, other);
    CommitEvolvesDispatches(core, locks, id, t, other);
  }

  lemma CommitEvolvesUnits(core: Core, locks: map<Key, TxId>, id: TxId, t: Txn, other: TxId)
    requires LockedWrites(core, locks, id, t) && other != id
    ensures UnitsEvolve(core, Merge(core, t.w), locks, other)
  {
  }

  lemma CommitEvolvesDispatches(core: Core, locks: map<Key, TxId>, id: TxId, t: Txn, other: TxId)
    requires LockedWrites(core, locks, id, t) && other != id
    ensures DispatchesEvolve(core, Merge(core, t.w), locks, other)
  {
  }
}
