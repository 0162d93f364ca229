/** What makes a guard on incidents fall: another transaction's commit between the transaction's begin and its own commit. */
module FallenGuards {
  import opened Rows
  import opened AtomicOps
  import opened Interleaving
  import opened Refinement
  import opened SerialRuns
  import opened IncidentWrites
  import opened CascadeRuns

  ghost predicate CountStands(core: Core, incidents: map<IncidentId, Incident>, t: Txn, i: IncidentId) {
    && (Stage(t.pc) >= 12 ==> (t.lastOne <==> IncidentUnserved(Seen(core, t), i)))
    && (Stage(t.pc) >= 13 ==> (i in t.w.incidents <==> t.lastOne && InDispatch(incidents, i)))
  }

  /** What a transaction has found about incidents up to its present statement is what it would find now. */
  ghost predicate ViewStands(core: Core, incidents: map<IncidentId, Incident>, t: Txn) {
    && (Inserts(t.req) && Stage(t.pc) >= 6 ==> DispatchableIncident(incidents, t.req.incident).Ok?)
    && (Inserts(t.req) && Stage(t.pc) >= 11 ==> StillMarked(incidents, t, t.req.incident))
    && (t.req.Operator? && Stage(t.pc) >= 1 ==> StillLegal(incidents, t.req))
    && (Closes(core, t.req).Some? ==> CountStands(core, incidents, t, Closes(core, t.req).value))
  }

  lemma ReadyViewIsGuards(core: Core, incidents: map<IncidentId, Incident>, t: Txn)
    requires ViewStands(core, incidents, t) && t.pc == ReadyToCommit
    ensures GuardsStand(core, incidents, t)
  {
    hide Seen, IncidentUnserved, DispatchableIncident;
  }

  lemma EarlyViewStands(core: Core, incidents: map<IncidentId, Incident>, t: Txn, t': Txn)
    requires Inserts(t.req) && Stage(t.pc) < 9 && ViewStands(core, incidents, t) && Exec(core, incidents, t) == Next(t')
    ensures ViewStands(core, incidents, t')
  {
    hide UnitFree, EventWrites, UnitError, IncidentUnserved, Seen;
  }

  lemma TailViewStands(core: Core, incidents: map<IncidentId, Incident>, locks: map<Key, TxId>, id: TxId, t: Txn, t': Txn)
    requires Inserts(t.req) && 9 <= Stage(t.pc) < 14 && ViewStands(core, incidents, t) && ExecTail(core, incidents, t) == Next(t')
    requires IncidentsWritten(core, incidents, locks, id, t)
    requires t.pc == Counted ==> Closes(core, t.req).Some?
    ensures ViewStands(core, incidents, t')
  {
    hide UnitFree, EventWrites, UnitError, IncidentUnserved;
  }

  lemma AdvanceViewStands(core: Core, incidents: map<IncidentId, Incident>, locks: map<Key, TxId>, id: TxId, t: Txn, t': Txn)
    requires t.req.Advance? && AdvancePc(t.pc, t.req.to) && ViewStands(core, incidents, t) && ExecAdvance(core, incidents, t) == Next(t')
    requires IncidentsWritten(core, incidents, locks, id, t)
    ensures ViewStands(core, incidents, t')
  {
    hide EventWrites, IncidentUnserved;
  }

  lemma OperatorViewStands(core: Core, incidents: map<IncidentId, Incident>, t: Txn, t': Txn)
    requires (t.req.Override? || t.req.Operator?) && ViewStands(core, incidents, t) && Exec(core, incidents, t) == Next(t')
    ensures ViewStands(core, incidents, t')
  {
  }

  lemma OwnViewStands(core: Core, incidents: map<IncidentId, Incident>, locks: map<Key, TxId>, id: TxId, t: Txn)
    requires TxInv(core, incidents, locks, id, t) && IncidentsWritten(core, incidents, locks, id, t) && t.pc != ReadyToCommit
    requires ViewStands(core, incidents, t) && Exec(core, incidents, t).Next?
    ensures ViewStands(core, incidents, Exec(core, incidents, t).t)
  {
    var t' := Exec(core, incidents, t).t;
    hide ExecTail, ExecAdvance, TailInv, IncidentsWritten, ViewStands, KnownIncidents;
    if Inserts(t.req) {
      if Stage(t.pc) < 9 {
        hide ExecReserve, ExecOptimistic, ExecReassign;
        EarlyViewStands(core, incidents, t, t');
      } else {
        TailViewStands(core, incidents, locks, id, t, t');
      }
    } else if t.req.Advance? {
      AdvanceViewStands(core, incidents, locks, id, t, t');
    } else {
      OperatorViewStands(core, incidents, t, t');
    }
  }

  /** For the incidents a transaction goes by: no status moved, and the dispatches of others serve as before. */
  ghost predicate SameFor(core: Core, after: Core, incidents: map<IncidentId, Incident>, later: map<IncidentId, Incident>, t: Txn) {
    && (Inserts(t.req) || t.req.Operator? ==> SameStatus(incidents, later, t.req.incident))
    && (Closes(core, t.req).Some? ==>
          var i := Closes(core, t.req).value; SameStatus(incidents, later, i) && SameService(core, after, t, i))
  }

  predicate SameStatus(incidents: map<IncidentId, Incident>, later: map<IncidentId, Incident>, i: IncidentId) {
    (i in incidents <==> i in later) && (i in incidents ==> later[i].status == incidents[i].status)
  }

  ghost predicate SameService(core: Core, after: Core, t: Txn, i: IncidentId) {
    forall d | d !in t.w.dispatches :: Serves(core.dispatches, d, i) <==> Serves(after.dispatches, d, i)
  }

  lemma ViewFrame(core: Core, after: Core, incidents: map<IncidentId, Incident>, later: map<IncidentId, Incident>, t: Txn)
    requires ViewStands(core, incidents, t) && SameFor(core, after, incidents, later, t)
    requires Closes(core, t.req).Some? || Stage(t.pc) >= 12 ==> Closes(after, t.req) == Closes(core, t.req)
    ensures ViewStands(after, later, t)
  {
    if Closes(core, t.req).Some? {
      SameServiceSameCount(core, after, t, Closes(core, t.req).value);
      hide Seen, IncidentUnserved, SameService;
    }
  }

  lemma SameServiceSameCount(core: Core, after: Core, t: Txn, i: IncidentId)
    requires SameService(core, after, t, i)
    ensures IncidentUnserved(Seen(core, t), i) <==> IncidentUnserved(Seen(after, t), i)
  {
    assert forall d :: Serves(Seen(core, t), d, i) <==> Serves(Seen(after, t), d, i);
  }

  ghost predicate SameForAt(s: Sys, s': Sys, id: TxId)
    requires id in s.txns
  {
    SameFor(s.core, s'.core, s.incidents, s'.incidents, s.txns[id])
  }

  ghost predicate ViewAt(s: Sys, id: TxId)
    requires id in s.txns
  {
    ViewStands(s.core, s.incidents, s.txns[id])
  }

  /** A step that leaves the database alone, or is not a commit of another, changes nothing the transaction went by. */
  lemma OnlyCommitsDisturb(s: Sys, step: Step, id: TxId)
    requires Enabled(s, step) && id in s.txns && id in Apply(s, step).txns && !SameForAt(s, Apply(s, step), id)
    ensures Commits(s, step) && step.id != id
  {
    if !Commits(s, step) {
      QuietStepKeepsDb(s, step);
      NothingMoved(s.core, s.incidents, s.txns[id]);
      assert false;
    }
    hide Exec, NextRow, SameForAt;
  }

  lemma NothingMoved(core: Core, incidents: map<IncidentId, Incident>, t: Txn)
    ensures SameFor(core, core, incidents, incidents, t)
  {
  }

  lemma ClosesStays(core: Core, after: Core, incidents: map<IncidentId, Incident>, locks: map<Key, TxId>, id: TxId, t: Txn)
    requires TxInv(core, incidents, locks, id, t)
    requires forall d | d in core.dispatches :: d in after.dispatches && after.dispatches[d].incident == core.dispatches[d].incident
    ensures Closes(core, t.req).Some? || Stage(t.pc) >= 12 ==> Closes(after, t.req) == Closes(core, t.req)
  {
  }

  lemma DispatchesKeepIncidents(s: Sys, step: Step)
    requires SysInv(s) && Enabled(s, step)
    ensures forall d | d in s.core.dispatches ::
              d in Apply(s, step).core.dispatches && Apply(s, step).core.dispatches[d].incident == s.core.dispatches[d].incident
  {
    hide TxInv, Exec, NextRow, Blocked, ForeignKeys, DistinctIds, LockedUnits;
    if step.Statement? {
      assert Known(s, step.id);
      WritesAreLocked(s.core, s.incidents, s.locks, step.id, s.txns[step.id]);
    }
  }

  /** The transaction's own statements, and whatever others do that does not concern it, leave its view standing. */
  lemma ViewStep(s: Sys, step: Step, id: TxId)
    requires SysInv(s) && AllRecorded(s) && Enabled(s, step) && id in s.txns && id in Apply(s, step).txns
    requires ViewAt(s, id) && SameForAt(s, Apply(s, step), id)
    ensures ViewAt(Apply(s, step), id)
  {
    hide TxInv, IncidentsWritten, ViewStands, SameFor, Exec, NextRow, Blocked, ForeignKeys, DistinctIds, Acceptable;
    var s' := Apply(s, step);
    var t := s.txns[id];
    assert Known(s, id) && Recorded(s, id);
    if step.id != id {
      DispatchesKeepIncidents(s, step);
      ClosesStays(s.core, s'.core, s.incidents, s.locks, id, t);
      ViewFrame(s.core, s'.core, s.incidents, s'.incidents, t);
    } else {
      CommitsWhenReady(s.core, s.incidents, s.locks, id, t);
      if Exec(s.core, s.incidents, t).Next? {
        OwnViewStands(s.core, s.incidents, s.locks, id, t);
      } else {
        OnlyLostSwapsRetry(s.core, s.incidents, t);
        FirstView(s'.core, s'.incidents, s'.txns[id]);
      }
    }
  }

  lemma FirstView(core: Core, incidents: map<IncidentId, Incident>, t: Txn)
    requires t.pc == Begun
    ensures ViewStands(core, incidents, t)
  {
  }

  /** Transaction id has been open since step b began it. */
  ghost predicate OpenFrom(states: seq<Sys>, steps: seq<Step>, b: nat, p: nat, id: TxId) {
    && SysRun(states, steps) && b < p <= |steps| && steps[b].Begin? && steps[b].id == id
    && forall k | b < k <= p :: id in states[k].txns
  }

  /** The step from state k to the next. */
  lemma Taken(states: seq<Sys>, steps: seq<Step>, k: nat)
    requires SysRun(states, steps) && k < |steps|
    ensures Enabled(states[k], steps[k]) && states[k + 1] == Apply(states[k], steps[k])
  {
  }

  lemma {:induction false} ViewAlong(states: seq<Sys>, steps: seq<Step>, b: nat, p: nat, id: TxId)
    requires OpenFrom(states, steps, b, p, id)
    requires forall k | b < k < p :: SameForAt(states[k], states[k + 1], id)
    ensures ViewAt(states[p], id)
    decreases p
  {
    hide SysInv, AllRecorded, Apply, Enabled, SameForAt, ViewAt;
    Taken(states, steps, p - 1);
    if b + 1 < p {
      ViewAlong(states, steps, b, p - 1, id);
      RunKeepsRecords(states, steps, p - 1);
      ViewStep(states[p - 1], steps[p - 1], id);
    } else {
      BegunView(states[b], steps[b]);
    }
  }

  lemma BegunView(s: Sys, step: Step)
    requires Enabled(s, step) && step.Begin?
    ensures step.id in Apply(s, step).txns && ViewAt(Apply(s, step), step.id)
  {
  }

  /**
   A fallen guard has a cause: between the transaction's begin and its commit another transaction committed a change
   to the status of an incident it went by, or to which dispatches serve the incident it was to close.
   */
  lemma FallenGuardHasACause(states: seq<Sys>, steps: seq<Step>, b: nat, p: nat, id: TxId) returns (k: nat)
    requires OpenFrom(states, steps, b, p, id) && states[p].txns[id].pc == ReadyToCommit
    requires !GuardsStand(states[p].core, states[p].incidents, states[p].txns[id])
    ensures b < k < p && Commits(states[k], steps[k]) && steps[k].id != id && !SameForAt(states[k], states[k + 1], id)
  {
    hide Apply, Enabled, SameForAt, GuardsStand, ViewStands, Commits;
    if forall j | b < j < p :: SameForAt(states[j], states[j + 1], id) {
      ViewAlong(states, steps, b, p, id);
      ReadyViewIsGuards(states[p].core, states[p].incidents, states[p].txns[id]);
      assert false;
    }
    k :| b < k < p && !SameForAt(states[k], states[k + 1], id);
    Taken(states, steps, k);
    OnlyCommitsDisturb(states[k], steps[k], id);
  }
}
