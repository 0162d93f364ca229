/**
 What an open transaction has written to incidents: the rows its guarded UPDATEs matched, each locked and still as
 it was matched. Every step of the system keeps this.
 */
module IncidentWrites {
  import opened Rows
  import opened AtomicOps
  import opened Interleaving
  import opened Refinement
  import opened SerialRuns

  // --- What the guarded incident statements have written ---

  /** A guarded UPDATE that matched row i has it locked, so it still stands as it was matched. */
  ghost predicate Written(incidents: map<IncidentId, Incident>, locks: map<Key, TxId>, id: TxId, t: Txn, i: IncidentId, to: IncidentStatus) {
    i in t.w.incidents ==>
      i in incidents && Owns(locks, id, IncidentRow(i)) && t.w.incidents[i] == incidents[i].(status := to)
  }

  ghost predicate MarkWritten(incidents: map<IncidentId, Incident>, locks: map<Key, TxId>, id: TxId, t: Txn, i: IncidentId) {
    && Written(incidents, locks, id, t, i, Dispatched)
    && (i in t.w.incidents ==> Stage(t.pc) >= 11 && IsUndispatched(incidents[i].status))
  }

  ghost predicate SettleWritten(incidents: map<IncidentId, Incident>, locks: map<Key, TxId>, id: TxId, t: Txn, i: IncidentId, to: IncidentStatus) {
    && Written(incidents, locks, id, t, i, to)
    && (i in t.w.incidents ==> Stage(t.pc) >= 13 && incidents[i].status == Dispatched)
  }

  ghost predicate ReassignWritten(core: Core, incidents: map<IncidentId, Incident>, locks: map<Key, TxId>, id: TxId, t: Txn)
    requires t.req.Reassign? && t.req.dispatch in core.dispatches
  {
    var i, prior := t.req.incident, core.dispatches[t.req.dispatch].incident;
    && t.w.incidents.Keys <= {i, prior} && MarkWritten(incidents, locks, id, t, i)
    && (prior != i ==> SettleWritten(incidents, locks, id, t, prior, Verified))
  }

  ghost predicate IncidentsWritten(core: Core, incidents: map<IncidentId, Incident>, locks: map<Key, TxId>, id: TxId, t: Txn) {
    match t.req
    case Reserve(i, _) => t.w.incidents.Keys <= {i} && MarkWritten(incidents, locks, id, t, i)
    case ReserveOptimistic(i, _) => t.w.incidents.Keys <= {i} && MarkWritten(incidents, locks, id, t, i)
    case Advance(d, to) =>
      if d !in core.dispatches || to != DispatchCompleted then t.w.incidents == map[]
      else
        var i := core.dispatches[d].incident;
        t.w.incidents.Keys <= {i} && SettleWritten(incidents, locks, id, t, i, Resolved)
    case Reassign(d, _, _, _) =>
      if d !in core.dispatches then t.w.incidents == map[] else ReassignWritten(core, incidents, locks, id, t)
    case Override(_, _) => t.w.incidents == map[]
    case Operator(i, to) =>
      t.w.incidents.Keys == (if t.pc == ReadyToCommit then {i} else {}) && Written(incidents, locks, id, t, i, to)
  }

  // --- One statement keeps it, for the transaction that executes it ---

  /** Nothing is written to incidents before the insert. */
  lemma EarlyWritesNone(core: Core, incidents: map<IncidentId, Incident>, t: Txn, t': Txn)
    requires Inserts(t.req) && Stage(t.pc) < 9 && Exec(core, incidents, t) == Next(t')
    ensures t'.req == t.req && t'.w.incidents == t.w.incidents
  {
    hide UnitFree, EventWrites, UnitError, DispatchableIncident, IncidentUnserved;
  }

  lemma TailMarks(core: Core, incidents: map<IncidentId, Incident>, locks: map<Key, TxId>, id: TxId, t: Txn, t': Txn)
    requires Inserts(t.req) && 9 <= Stage(t.pc) < 14 && ExecTail(core, incidents, t) == Next(t')
    requires MarkWritten(incidents, locks, id, t, t.req.incident) && (t.req.Reassign? ==> t.req.dispatch in core.dispatches)
    requires t.pc == Counted ==> t.req.Reassign? && core.dispatches[t.req.dispatch].incident != t.req.incident
    ensures MarkWritten(incidents, Taking(locks, NextRow(core, incidents, t), id), id, t', t.req.incident)
  {
    hide UnitFree, IncidentUnserved, EventWrites;
    if t.pc == Inserted {
      MarkStatement(core, incidents, locks, id, t, t');
    } else if t.pc != Counted {
      assert t'.w.incidents == t.w.incidents;
    }
  }

  lemma MarkStatement(core: Core, incidents: map<IncidentId, Incident>, locks: map<Key, TxId>, id: TxId, t: Txn, t': Txn)
    requires Inserts(t.req) && t.pc == Inserted && (t.req.Reassign? ==> t.req.dispatch in core.dispatches)
    requires t'.req == t.req && t'.pc == IncidentMarked && t'.w.incidents == MarkWrites(incidents, t.req.incident)
    ensures MarkWritten(incidents, Taking(locks, NextRow(core, incidents, t), id), id, t', t.req.incident)
  {
  }

  lemma TailSettles(core: Core, incidents: map<IncidentId, Incident>, locks: map<Key, TxId>, id: TxId, t: Txn, t': Txn, prior: IncidentId)
    requires t.req.Reassign? && t.req.dispatch in core.dispatches && prior == core.dispatches[t.req.dispatch].incident != t.req.incident
    requires 9 <= Stage(t.pc) < 14 && ExecTail(core, incidents, t) == Next(t') && SettleWritten(incidents, locks, id, t, prior, Verified)
    ensures SettleWritten(incidents, Taking(locks, NextRow(core, incidents, t), id), id, t', prior, Verified)
  {
    hide UnitFree, IncidentUnserved, EventWrites;
    if t.pc == Inserted {
      assert t'.w.incidents == MarkWrites(incidents, t.req.incident);
    } else if t.pc != Counted {
      assert t'.w.incidents == t.w.incidents;
    }
  }

  lemma TailKeys(core: Core, incidents: map<IncidentId, Incident>, t: Txn, t': Txn)
    requires Inserts(t.req) && 9 <= Stage(t.pc) < 14 && ExecTail(core, incidents, t) == Next(t')
    ensures t'.w.incidents.Keys <= t.w.incidents.Keys + {t.req.incident}
            || (t.req.Reassign? && t.req.dispatch in core.dispatches
                && t'.w.incidents.Keys <= t.w.incidents.Keys + {core.dispatches[t.req.dispatch].incident})
    ensures t'.req == t.req
  {
    hide UnitFree, IncidentUnserved, EventWrites;
    if t.pc == Inserted {
      assert t'.w.incidents == MarkWrites(incidents, t.req.incident);
    } else if t.pc != Counted {
      assert t'.w.incidents == t.w.incidents;
    }
  }

  lemma ReservationWrites(core: Core, incidents: map<IncidentId, Incident>, locks: map<Key, TxId>, id: TxId, t: Txn, t': Txn)
    requires (t.req.Reserve? || t.req.ReserveOptimistic?) && IncidentsWritten(core, incidents, locks, id, t)
    requires t.pc != Counted && t.pc != ReadyToCommit && Exec(core, incidents, t) == Next(t')
    ensures IncidentsWritten(core, incidents, Taking(locks, NextRow(core, incidents, t), id), id, t')
  {
    if Stage(t.pc) < 9 {
      EarlyWritesNone(core, incidents, t, t');
    } else {
      assert ExecTail(core, incidents, t) == Next(t');
      hide ExecTail, NextRow;
      TailKeys(core, incidents, t, t');
      TailMarks(core, incidents, locks, id, t, t');
    }
  }

  lemma AdvanceWrites(core: Core, incidents: map<IncidentId, Incident>, locks: map<Key, TxId>, id: TxId, t: Txn, t': Txn)
    requires t.req.Advance? && AdvancePc(t.pc, t.req.to) && IncidentsWritten(core, incidents, locks, id, t) && ExecAdvance(core, incidents, t) == Next(t')
    ensures IncidentsWritten(core, incidents, Taking(locks, NextRow(core, incidents, t), id), id, t')
  {
    hide IncidentUnserved, EventWrites;
    if t.pc != Counted { assert t'.w.incidents == t.w.incidents; }
  }

  lemma ReassignWrites(core: Core, incidents: map<IncidentId, Incident>, locks: map<Key, TxId>, id: TxId, t: Txn, t': Txn)
    requires t.req.Reassign? && t.req.dispatch in core.dispatches && ReassignWritten(core, incidents, locks, id, t)
    requires t.pc == Counted ==> core.dispatches[t.req.dispatch].incident != t.req.incident
    requires t.pc != ReadyToCommit && t.pc != VersionRead && t.pc != StatusRead && ExecReassign(core, incidents, t) == Next(t')
    ensures t'.req == t.req && ReassignWritten(core, incidents, Taking(locks, NextRow(core, incidents, t), id), id, t')
  {
    if Stage(t.pc) < 9 {
      EarlyWritesNone(core, incidents, t, t');
      hide ExecReassign, NextRow;
    } else {
      assert ExecTail(core, incidents, t) == Next(t');
      hide ExecReassign, ExecTail, NextRow, MarkWritten, SettleWritten;
      TailKeys(core, incidents, t, t');
      TailMarks(core, incidents, locks, id, t, t');
      var prior := core.dispatches[t.req.dispatch].incident;
      if prior != t.req.incident { TailSettles(core, incidents, locks, id, t, t', prior); }
    }
  }

  lemma OperatorWrites(core: Core, incidents: map<IncidentId, Incident>, locks: map<Key, TxId>, id: TxId, t: Txn, t': Txn)
    requires (t.req.Override? || t.req.Operator?) && IncidentsWritten(core, incidents, locks, id, t)
    requires Exec(core, incidents, t) == Next(t')
    ensures IncidentsWritten(core, incidents, Taking(locks, NextRow(core, incidents, t), id), id, t')
  {
  }

  /** What OwnStatement says of the other tables, for incidents. */
  lemma OwnIncidentStatement(core: Core, incidents: map<IncidentId, Incident>, locks: map<Key, TxId>, id: TxId, t: Txn)
    requires TxInv(core, incidents, locks, id, t) && t.pc != ReadyToCommit && Exec(core, incidents, t).Next?
    requires IncidentsWritten(core, incidents, locks, id, t)
    ensures IncidentsWritten(core, incidents, Taking(locks, NextRow(core, incidents, t), id), id, Exec(core, incidents, t).t)
  {
    hide ExecTail, ExecReserve, ExecOptimistic, ExecAdvance, ExecReassign, TailInv, NextRow, ReassignWritten, MarkWritten, SettleWritten, KnownIncidents;
    var t' := Exec(core, incidents, t).t;
    match t.req
    case Reserve(_, _) => ReservationWrites(core, incidents, locks, id, t, t');
    case ReserveOptimistic(_, _) => ReservationWrites(core, incidents, locks, id, t, t');
    case Advance(_, _) => AdvanceWrites(core, incidents, locks, id, t, t');
    case Reassign(_, _, _, _) => ReassignWrites(core, incidents, locks, id, t, t');
    case Override(_, _) => OperatorWrites(core, incidents, locks, id, t, t');
    case Operator(_, _) => OperatorWrites(core, incidents, locks, id, t, t');
  }

  /** The incident rows a transaction has locked stay, and no dispatch moves to another incident. */
  ghost predicate IncidentsEvolve(core: Core, after: Core, incidents: map<IncidentId, Incident>, later: map<IncidentId, Incident>,
                                  locks: map<Key, TxId>, id: TxId) {
    && (forall d | d in core.dispatches :: d in after.dispatches && after.dispatches[d].incident == core.dispatches[d].incident)
    && (forall i | i in incidents && Owns(locks, id, IncidentRow(i)) :: i in later && later[i] == incidents[i])
  }

  lemma IncidentFrame(core: Core, after: Core, incidents: map<IncidentId, Incident>, later: map<IncidentId, Incident>,
                      locks: map<Key, TxId>, more: map<Key, TxId>, id: TxId, t: Txn)
    requires IncidentsWritten(core, incidents, locks, id, t) && IncidentsEvolve(core, after, incidents, later, locks, id)
    requires forall k | Owns(locks, id, k) :: Owns(more, id, k)
    ensures IncidentsWritten(after, later, more, id, t)
  {
  }

  lemma WrittenIsLocked(core: Core, incidents: map<IncidentId, Incident>, locks: map<Key, TxId>, id: TxId, t: Txn)
    requires IncidentsWritten(core, incidents, locks, id, t)
    ensures forall i | i in t.w.incidents :: Owns(locks, id, IncidentRow(i))
  {
  }

  // --- Every step of the system keeps it ---

  ghost predicate Recorded(s: Sys, id: TxId)
    requires id in s.txns
  {
    IncidentsWritten(s.core, s.incidents, s.locks, id, s.txns[id])
  }

  ghost predicate AllRecorded(s: Sys) { forall id | id in s.txns :: Recorded(s, id) }

  lemma OtherStaysRecorded(s: Sys, s': Sys, other: TxId)
    requires other in s.txns && other in s'.txns && s'.txns[other] == s.txns[other] && Recorded(s, other)
    requires s'.core == s.core && s'.incidents == s.incidents
    requires forall k | Owns(s.locks, other, k) :: Owns(s'.locks, other, k)
    ensures Recorded(s', other)
  {
    hide IncidentsWritten;
    IncidentFrame(s.core, s'.core, s.incidents, s'.incidents, s.locks, s'.locks, other, s.txns[other]);
  }

  lemma CommitKeepsRecorded(s: Sys, id: TxId, other: TxId)
    requires SysInv(s) && AllRecorded(s) && id in s.txns && other in s.txns && other != id
    ensures Recorded(Commit(s, id), other)
  {
    hide TxInv, IncidentsWritten, ForeignKeys, DistinctIds, LockedWrites;
    var t, s' := s.txns[id], Commit(s, id);
    assert Known(s, id) && Recorded(s, id) && Recorded(s, other);
    WritesAreLocked(s.core, s.incidents, s.locks, id, t);
    CommitEvolves(s.core, s.locks, id, t, other);
    WrittenIsLocked(s.core, s.incidents, s.locks, id, t);
    IncidentFrame(s.core, s'.core, s.incidents, s'.incidents, s.locks, s'.locks, other, s.txns[other]);
  }

  lemma StatementKeepsRecords(s: Sys, id: TxId)
    requires SysInv(s) && AllRecorded(s) && Enabled(s, Statement(id)) && Exec(s.core, s.incidents, s.txns[id]).Next?
    ensures AllRecorded(Apply(s, Statement(id)))
  {
    hide TxInv, IncidentsWritten, Exec, NextRow, ForeignKeys, DistinctIds, Blocked;
    var t, s' := s.txns[id], Apply(s, Statement(id));
    assert Known(s, id) && Recorded(s, id);
    CommitsWhenReady(s.core, s.incidents, s.locks, id, t);
    OwnIncidentStatement(s.core, s.incidents, s.locks, id, t);
    LockIsFree(s, id);
    assert s'.locks == Taking(s.locks, NextRow(s.core, s.incidents, t), id);
    forall other | other in s'.txns ensures Recorded(s', other) {
      if other != id { OtherStaysRecorded(s, s', other); }
    }
  }

  lemma FreshIsRecorded(core: Core, incidents: map<IncidentId, Incident>, locks: map<Key, TxId>, id: TxId, t: Txn)
    requires t.w == NO_WRITES && t.pc == Begun
    ensures IncidentsWritten(core, incidents, locks, id, t)
  {
  }

  lemma RetriedIsRecorded(core: Core, incidents: map<IncidentId, Incident>, locks: map<Key, TxId>, freed: map<Key, TxId>, id: TxId, t: Txn)
    requires IncidentsWritten(core, incidents, locks, id, t) && Exec(core, incidents, t).Retry?
    ensures IncidentsWritten(core, incidents, freed, id, Exec(core, incidents, t).t)
  {
    OnlyLostSwapsRetry(core, incidents, t);
    assert t.w.incidents == map[];
  }

  lemma OtherStepKeepsRecords(s: Sys, step: Step)
    requires SysInv(s) && AllRecorded(s) && Enabled(s, step)
    requires step.Statement? ==> var r := Exec(s.core, s.incidents, s.txns[step.id]); r.RolledBack? || r.Retry?
    ensures AllRecorded(Apply(s, step))
  {
    hide TxInv, IncidentsWritten, Exec, NextRow, ForeignKeys, DistinctIds, Blocked, Acceptable;
    var s' := Apply(s, step);
    forall other | other in s'.txns ensures Recorded(s', other) {
      if other != step.id {
        OtherStaysRecorded(s, s', other);
      } else if step.Begin? {
        FreshIsRecorded(s'.core, s'.incidents, s'.locks, other, s'.txns[other]);
      } else {
        assert Recorded(s, other);
        RetriedIsRecorded(s.core, s.incidents, s.locks, s'.locks, other, s.txns[other]);
      }
    }
  }

  lemma StepKeepsRecords(s: Sys, step: Step)
    requires SysInv(s) && AllRecorded(s) && Enabled(s, step)
    ensures AllRecorded(Apply(s, step))
  {
    hide SysInv, Recorded, Exec, Commit;
    if step.Statement? && Exec(s.core, s.incidents, s.txns[step.id]).Next? {
      StatementKeepsRecords(s, step.id);
    } else if step.Statement? && Exec(s.core, s.incidents, s.txns[step.id]).Committed? {
      CommitKeepsRecords(s, step.id);
    } else {
      OtherStepKeepsRecords(s, step);
    }
  }

  lemma CommitKeepsRecords(s: Sys, id: TxId)
    requires SysInv(s) && AllRecorded(s) && id in s.txns
    ensures AllRecorded(Commit(s, id))
  {
    hide SysInv, Recorded;
    forall other | other in Commit(s, id).txns ensures Recorded(Commit(s, id), other) {
      CommitKeepsRecorded(s, id, other);
    }
  }

  lemma {:induction false} RunKeepsRecords(states: seq<Sys>, steps: seq<Step>, n: nat)
    requires SysRun(states, steps) && n <= |steps|
    ensures SysInv(states[n]) && AllRecorded(states[n])
  {
    hide SysInv, Apply, Enabled, AllRecorded, Serial;
    SerialRefinement(states, steps, n);
    if n > 0 {
      RunKeepsRecords(states, steps, n - 1);
      StepKeepsRecords(states[n - 1], steps[n - 1]);
    } else {
      NothingRecordedYet(states[0]);
    }
  }

  lemma NothingRecordedYet(s: Sys)
    requires s.txns == map[]
    ensures AllRecorded(s)
  {
  }
}
