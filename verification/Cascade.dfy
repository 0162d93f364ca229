/**
 What overlapping transactions do to the incident cascade, incident by incident: exactly which commits can move a
 terminal incident, leave a served one undispatched, or leave an incident open when its last dispatch completes.
 */
module Cascade {
  import opened Results
  import opened Rows
  import opened AtomicOps
  import opened DispatchInvariants
  import opened Preemption
  import opened Interleaving
  import opened Refinement
  import opened SerialRuns
  import opened IncidentWrites
  import opened CascadeRuns

  /** What is known of a transaction that is ready to commit. */
  ghost predicate ReadyRecorded(core: Core, incidents: map<IncidentId, Incident>, locks: map<Key, TxId>, id: TxId, t: Txn) {
    && t.pc == ReadyToCommit && IncidentsWritten(core, incidents, locks, id, t)
    && CommittedStep(core, OpOf(t), Merge(core, t.w)) && (Inserts(t.req) ==> t.req.incident in incidents)
  }

  lemma CommitIsRecorded(s: Sys, id: TxId)
    requires SysInv(s) && AllRecorded(s) && id in s.txns && s.txns[id].pc == ReadyToCommit
    ensures ReadyRecorded(s.core, s.incidents, s.locks, id, s.txns[id])
  {
    hide TxInv, IncidentsWritten, CommittedStep, DistinctIds, ForeignKeys;
    assert Known(s, id) && Recorded(s, id);
    CommitIsAtomic(s.core, s.incidents, s.locks, id, s.txns[id]);
    InsertFindsIncident(s.core, s.incidents, s.locks, id, s.txns[id]);
  }

  lemma InsertFindsIncident(core: Core, incidents: map<IncidentId, Incident>, locks: map<Key, TxId>, id: TxId, t: Txn)
    requires TxInv(core, incidents, locks, id, t) && t.pc == ReadyToCommit
    ensures Inserts(t.req) ==> t.req.incident in incidents
  {
  }

  lemma CommitStep(s: Sys, step: Step)
    requires SysInv(s) && AllRecorded(s) && Enabled(s, step) && Commits(s, step)
    ensures s.txns[step.id].pc == ReadyToCommit && Apply(s, step) == Commit(s, step.id)
    ensures ReadyRecorded(s.core, s.incidents, s.locks, step.id, s.txns[step.id])
  {
    hide TxInv, Exec, Commit, Blocked, IncidentsWritten, CommittedStep, ForeignKeys, DistinctIds;
    assert Known(s, step.id);
    CommitsWhenReady(s.core, s.incidents, s.locks, step.id, s.txns[step.id]);
    CommitIsRecorded(s, step.id);
  }

  // --- Terminal incidents ---

  /** An operator's change of incident i to another status, decided on a status that may be long gone. */
  predicate Overwrites(incidents: map<IncidentId, Incident>, t: Txn, i: IncidentId)
    requires i in incidents
  {
    t.req.Operator? && t.req.incident == i && t.req.target != incidents[i].status
  }

  /** A commit moves a terminal incident exactly if it is an operator's overwrite of that incident. */
  lemma TerminalMovesIff(core: Core, incidents: map<IncidentId, Incident>, locks: map<Key, TxId>, id: TxId, t: Txn, i: IncidentId)
    requires IncidentsWritten(core, incidents, locks, id, t) && t.pc == ReadyToCommit
    requires i in incidents && IsTerminal(incidents[i].status)
    ensures (incidents + t.w.incidents)[i] == incidents[i] <==> !Overwrites(incidents, t, i)
  {
    if t.req.Operator? && t.req.incident == i { assert i in t.w.incidents; }
  }

  predicate OverwritesAt(states: seq<Sys>, steps: seq<Step>, k: nat, i: IncidentId)
    requires k < |steps| < |states| && i in states[k].incidents
  {
    Commits(states[k], steps[k]) && Overwrites(states[k].incidents, states[k].txns[steps[k].id], i)
  }

  lemma TerminalStepIff(states: seq<Sys>, steps: seq<Step>, k: nat, i: IncidentId)
    requires SysRun(states, steps) && k < |steps| && i in states[k].incidents && IsTerminal(states[k].incidents[i].status)
    ensures i in states[k + 1].incidents
    ensures states[k + 1].incidents[i] == states[k].incidents[i] <==> !OverwritesAt(states, steps, k, i)
  {
    hide SysInv, AllRecorded, Apply, Enabled, Commit, Exec, ReadyRecorded, Overwrites;
    RunKeepsRecords(states, steps, k);
    if Commits(states[k], steps[k]) {
      CommitStep(states[k], steps[k]);
      CommitMovesTerminal(states[k], steps[k].id, i);
    } else {
      QuietStepKeepsDb(states[k], steps[k]);
    }
  }

  lemma CommitMovesTerminal(s: Sys, id: TxId, i: IncidentId)
    requires id in s.txns && ReadyRecorded(s.core, s.incidents, s.locks, id, s.txns[id])
    requires i in s.incidents && IsTerminal(s.incidents[i].status)
    ensures i in Commit(s, id).incidents
    ensures Commit(s, id).incidents[i] == s.incidents[i] <==> !Overwrites(s.incidents, s.txns[id], i)
  {
    hide IncidentsWritten, CommittedStep, Overwrites;
    TerminalMovesIff(s.core, s.incidents, s.locks, id, s.txns[id], i);
  }

  /** Incident i is throughout as it was in state m. */
  ghost predicate Unmoved(states: seq<Sys>, m: nat, n: nat, i: IncidentId)
    requires m <= n < |states| && i in states[m].incidents
  {
    forall k | m <= k <= n :: i in states[k].incidents && states[k].incidents[i] == states[m].incidents[i]
  }

  ghost predicate NeverOverwritten(states: seq<Sys>, steps: seq<Step>, m: nat, n: nat, i: IncidentId)
    requires m <= n <= |steps| < |states|
  {
    forall k | m <= k < n && i in states[k].incidents :: !OverwritesAt(states, steps, k, i)
  }

  /**
   Over any run of overlapping transactions a resolved or cancelled incident stays exactly as it is unless an
   operator's overwrite of that very incident commits: no dispatch transaction ever revives one.
   */
  lemma {:induction false} TerminalStaysIff(states: seq<Sys>, steps: seq<Step>, m: nat, n: nat, i: IncidentId)
    requires SysRun(states, steps) && m <= n <= |steps|
    requires i in states[m].incidents && IsTerminal(states[m].incidents[i].status)
    ensures Unmoved(states, m, n, i) <==> NeverOverwritten(states, steps, m, n, i)
    decreases n
  {
    hide Apply, Enabled, OverwritesAt;
    if m < n {
      var k := n - 1;
      TerminalStaysIff(states, steps, m, k, i);
      if Unmoved(states, m, k, i) {
        TerminalStepIff(states, steps, k, i);
      }
    }
  }

  // --- Served incidents ---

  /** If help is on the way to incident i, it is not back among the undispatched. */
  ghost predicate CascadedAt(core: Core, incidents: map<IncidentId, Incident>, i: IncidentId) {
    !IncidentUnserved(core.dispatches, i) ==> i in incidents && !IsUndispatched(incidents[i].status)
  }

  lemma CascadedEverywhere(core: Core, incidents: map<IncidentId, Incident>)
    ensures Cascaded(Db(core, incidents)) <==> forall i :: CascadedAt(core, incidents, i)
  {
    if forall i :: CascadedAt(core, incidents, i) {
      forall d, i | d in core.dispatches && Serves(core.dispatches, d, i) ensures i in incidents && !IsUndispatched(incidents[i].status) {
        assert CascadedAt(core, incidents, i);
      }
    }
  }

  /**
   The three guards that can break the cascade at incident i: an insert that skipped marking it, a reassignment that
   sent it back to verified, an operator's step back; each still right at the commit.
   */
  ghost predicate KeepsServed(core: Core, incidents: map<IncidentId, Incident>, t: Txn, i: IncidentId) {
    && (Inserts(t.req) && t.req.incident == i ==> StillMarked(incidents, t, i))
    && (Closes(core, t.req) == Some(i) && t.req.Reassign? && i in t.w.incidents ==> IncidentUnserved(Seen(core, t), i))
    && (t.req.Operator? && t.req.incident == i && IsUndispatched(t.req.target) ==> IncidentUnserved(core.dispatches, i))
  }

  /** Where no insert is for i, the commit brings it no new active dispatch. */
  lemma NoNewServer(core: Core, incidents: map<IncidentId, Incident>, locks: map<Key, TxId>, id: TxId, t: Txn, i: IncidentId)
    requires ReadyRecorded(core, incidents, locks, id, t) && !(Inserts(t.req) && t.req.incident == i)
    ensures IncidentUnserved(core.dispatches, i) ==> IncidentUnserved(Seen(core, t), i)
  {
    hide IncidentsWritten;
    assert Seen(core, t) == Effect(core, OpOf(t)).dispatches;
    forall d | d in Seen(core, t) && Serves(Seen(core, t), d, i) ensures Serves(core.dispatches, d, i) {
      ServerIsOld(core, OpOf(t), d, i);
    }
  }

  lemma ServerIsOld(core: Core, op: Op, d: DispatchId, i: IncidentId)
    requires Guard(core, op.req) && FreshIds(core, op) && !(Inserts(op.req) && op.req.incident == i)
    requires Serves(Effect(core, op).dispatches, d, i)
    ensures Serves(core.dispatches, d, i)
  {
  }

  lemma InsertServes(core: Core, incidents: map<IncidentId, Incident>, locks: map<Key, TxId>, id: TxId, t: Txn)
    requires ReadyRecorded(core, incidents, locks, id, t) && Inserts(t.req)
    ensures !IncidentUnserved(Seen(core, t), t.req.incident)
  {
    hide IncidentsWritten, IncidentUnserved;
    InsertedServes(core, OpOf(t));
    assert Seen(core, t) == Effect(core, OpOf(t)).dispatches;
  }

  lemma InsertedServes(core: Core, op: Op)
    requires Guard(core, op.req) && FreshIds(core, op) && Inserts(op.req)
    ensures !IncidentUnserved(Effect(core, op).dispatches, op.req.incident)
  {
    assert Serves(Effect(core, op).dispatches, op.newDispatch, op.req.incident);
  }

  /** An insert for i serves it, so its status decides. */
  lemma InsertKeepsIff(core: Core, incidents: map<IncidentId, Incident>, locks: map<Key, TxId>, id: TxId, t: Txn, i: IncidentId)
    requires ReadyRecorded(core, incidents, locks, id, t) && Inserts(t.req) && t.req.incident == i
    ensures CascadedAt(Merge(core, t.w), incidents + t.w.incidents, i) <==> StillMarked(incidents, t, i)
  {
    InsertServes(core, incidents, locks, id, t);
    InsertMarks(core, incidents, locks, id, t);
    hide IncidentsWritten, CommittedStep, IncidentUnserved, Written;
  }

  lemma InsertMarks(core: Core, incidents: map<IncidentId, Incident>, locks: map<Key, TxId>, id: TxId, t: Txn)
    requires ReadyRecorded(core, incidents, locks, id, t) && Inserts(t.req)
    ensures MarkWritten(incidents, locks, id, t, t.req.incident)
  {
    hide CommittedStep, SettleWritten;
  }

  /** What is written to an incident that no insert of the transaction is for. */
  lemma WrittenElsewhere(core: Core, incidents: map<IncidentId, Incident>, locks: map<Key, TxId>, id: TxId, t: Txn, i: IncidentId)
    requires IncidentsWritten(core, incidents, locks, id, t) && i in t.w.incidents && !(Inserts(t.req) && t.req.incident == i)
    ensures i in incidents
    ensures t.req.Advance? ==> t.w.incidents[i].status == Resolved
    ensures t.req.Reassign? ==> t.w.incidents[i].status == Verified && Closes(core, t.req) == Some(i)
    ensures t.req.Operator? ==> t.req.incident == i && t.w.incidents[i].status == t.req.target
    ensures t.req.Advance? || t.req.Reassign? || t.req.Operator?
  {
  }

  lemma OperatorLeavesDispatches(core: Core, incidents: map<IncidentId, Incident>, locks: map<Key, TxId>, id: TxId, t: Txn)
    requires ReadyRecorded(core, incidents, locks, id, t) && t.req.Operator?
    ensures Seen(core, t) == core.dispatches && t.req.incident in t.w.incidents
  {
    OverrideEffect(core, OpOf(t));
    assert Seen(core, t) == Effect(core, OpOf(t)).dispatches;
  }

  lemma OtherKeepsIff(core: Core, incidents: map<IncidentId, Incident>, locks: map<Key, TxId>, id: TxId, t: Txn, i: IncidentId)
    requires ReadyRecorded(core, incidents, locks, id, t) && !(Inserts(t.req) && t.req.incident == i)
    requires CascadedAt(core, incidents, i)
    ensures CascadedAt(Merge(core, t.w), incidents + t.w.incidents, i) <==> KeepsServed(core, incidents, t, i)
  {
    if i in t.w.incidents { RewrittenKeepsIff(core, incidents, locks, id, t, i); } else { UntouchedKeeps(core, incidents, locks, id, t, i); }
  }

  lemma UntouchedKeeps(core: Core, incidents: map<IncidentId, Incident>, locks: map<Key, TxId>, id: TxId, t: Txn, i: IncidentId)
    requires ReadyRecorded(core, incidents, locks, id, t) && !(Inserts(t.req) && t.req.incident == i)
    requires CascadedAt(core, incidents, i) && i !in t.w.incidents
    ensures CascadedAt(Merge(core, t.w), incidents + t.w.incidents, i) && KeepsServed(core, incidents, t, i)
  {
    NoNewServer(core, incidents, locks, id, t, i);
    if t.req.Operator? { OperatorLeavesDispatches(core, incidents, locks, id, t); }
    hide ReadyRecorded, IncidentUnserved, StillMarked;
  }

  lemma RewrittenKeepsIff(core: Core, incidents: map<IncidentId, Incident>, locks: map<Key, TxId>, id: TxId, t: Txn, i: IncidentId)
    requires ReadyRecorded(core, incidents, locks, id, t) && !(Inserts(t.req) && t.req.incident == i)
    requires CascadedAt(core, incidents, i) && i in t.w.incidents
    ensures CascadedAt(Merge(core, t.w), incidents + t.w.incidents, i) <==> KeepsServed(core, incidents, t, i)
  {
    WrittenElsewhere(core, incidents, locks, id, t, i);
    if t.req.Operator? { OperatorLeavesDispatches(core, incidents, locks, id, t); }
    hide ReadyRecorded, IncidentUnserved, StillMarked, Closes;
  }

  /** A commit keeps the cascade at incident i exactly if the one of the three guards that concerns i still stands. */
  lemma KeepsServedIff(core: Core, incidents: map<IncidentId, Incident>, locks: map<Key, TxId>, id: TxId, t: Txn, i: IncidentId)
    requires ReadyRecorded(core, incidents, locks, id, t) && CascadedAt(core, incidents, i)
    ensures CascadedAt(Merge(core, t.w), incidents + t.w.incidents, i) <==> KeepsServed(core, incidents, t, i)
  {
    hide ReadyRecorded, CascadedAt, StillMarked, IncidentUnserved;
    if Inserts(t.req) && t.req.incident == i {
      InsertKeepsIff(core, incidents, locks, id, t, i);
    } else {
      OtherKeepsIff(core, incidents, locks, id, t, i);
    }
  }

  ghost predicate KeepsAt(states: seq<Sys>, steps: seq<Step>, k: nat, i: IncidentId)
    requires k < |steps| < |states|
  {
    Commits(states[k], steps[k]) ==> KeepsServed(states[k].core, states[k].incidents, states[k].txns[steps[k].id], i)
  }

  ghost predicate CascadedIn(s: Sys, i: IncidentId) { CascadedAt(s.core, s.incidents, i) }

  lemma CascadeStepIff(states: seq<Sys>, steps: seq<Step>, k: nat, i: IncidentId)
    requires SysRun(states, steps) && k < |steps| && CascadedIn(states[k], i)
    ensures CascadedIn(states[k + 1], i) <==> KeepsAt(states, steps, k, i)
  {
    hide SysInv, AllRecorded, Apply, Enabled, Exec, ReadyRecorded, KeepsServed, CascadedAt, Merge;
    RunKeepsRecords(states, steps, k);
    if Commits(states[k], steps[k]) {
      var s, id := states[k], steps[k].id;
      CommitStep(s, steps[k]);
      KeepsServedIff(s.core, s.incidents, s.locks, id, s.txns[id], i);
    } else {
      QuietStepKeepsDb(states[k], steps[k]);
    }
  }

  /** The cascade holds at incident i from state m to state n. */
  ghost predicate CascadedFrom(states: seq<Sys>, m: nat, n: nat, i: IncidentId)
    requires m <= n < |states|
  {
    forall k | m <= k <= n :: CascadedIn(states[k], i)
  }

  ghost predicate KeptFrom(states: seq<Sys>, steps: seq<Step>, m: nat, n: nat, i: IncidentId)
    requires m <= n <= |steps| < |states|
  {
    forall k | m <= k < n :: KeepsAt(states, steps, k, i)
  }

  /**
   Over any run of overlapping transactions, and for each incident by itself: an incident with help on the way is
   never reported or verified exactly if no commit finds one of the three guards that concern it fallen.
   */
  lemma {:induction false} CascadeStaysIff(states: seq<Sys>, steps: seq<Step>, m: nat, n: nat, i: IncidentId)
    requires SysRun(states, steps) && m <= n <= |steps| && CascadedIn(states[m], i)
    ensures CascadedFrom(states, m, n, i) <==> KeptFrom(states, steps, m, n, i)
    decreases n
  {
    hide Apply, Enabled, KeepsAt, CascadedIn;
    if m < n {
      var k := n - 1;
      CascadeStaysIff(states, steps, m, k, i);
      if CascadedFrom(states, m, k, i) {
        CascadeStepIff(states, steps, k, i);
      }
    }
  }

  /** A commit on a cascaded database leaves it cascaded exactly if its three guards stand, each for its own incident. */
  lemma CommitKeepsCascadeIff(states: seq<Sys>, steps: seq<Step>, n: nat, id: TxId)
    requires SysRun(states, steps) && n <= |steps| && id in states[n].txns && states[n].txns[id].pc == ReadyToCommit
    requires Cascaded(DbOf(states[n]))
    ensures var s, t := states[n], states[n].txns[id];
            Cascaded(DbOf(Commit(s, id))) <==>
              && (Inserts(t.req) ==> StillMarked(s.incidents, t, t.req.incident))
              && (t.req.Reassign? && Closes(s.core, t.req).Some? && Closes(s.core, t.req).value in t.w.incidents ==>
                    IncidentUnserved(Seen(s.core, t), Closes(s.core, t.req).value))
              && (t.req.Operator? && IsUndispatched(t.req.target) ==> IncidentUnserved(s.core.dispatches, t.req.incident))
  {
    hide SysInv, AllRecorded, Apply, Enabled, ReadyRecorded, CascadedAt, IncidentUnserved, StillMarked, Seen, Cascaded;
    RunKeepsRecords(states, steps, n);
    var s, t := states[n], states[n].txns[id];
    CommitIsRecorded(s, id);
    CascadedEverywhere(s.core, s.incidents);
    CascadedEverywhere(Commit(s, id).core, Commit(s, id).incidents);
    forall i ensures CascadedAt(Commit(s, id).core, Commit(s, id).incidents, i) <==> KeepsServed(s.core, s.incidents, t, i) {
      KeepsServedIff(s.core, s.incidents, s.locks, id, t, i);
    }
    EveryIncidentKept(s.core, s.incidents, t);
  }

  lemma EveryIncidentKept(core: Core, incidents: map<IncidentId, Incident>, t: Txn)
    ensures (forall i :: KeepsServed(core, incidents, t, i)) <==>
              && (Inserts(t.req) ==> StillMarked(incidents, t, t.req.incident))
              && (t.req.Reassign? && Closes(core, t.req).Some? && Closes(core, t.req).value in t.w.incidents ==>
                    IncidentUnserved(Seen(core, t), Closes(core, t.req).value))
              && (t.req.Operator? && IsUndispatched(t.req.target) ==> IncidentUnserved(core.dispatches, t.req.incident))
  {
    hide StillMarked, IncidentUnserved, Seen, Closes;
    if forall i :: KeepsServed(core, incidents, t, i) {
      if Inserts(t.req) || t.req.Operator? { assert KeepsServed(core, incidents, t, t.req.incident); }
      if Closes(core, t.req).Some? { assert KeepsServed(core, incidents, t, Closes(core, t.req).value); }
    }
  }

  // --- The last completion ---

  /**
   Completing a dispatch that leaves its incident unserved ends the incident exactly if this commit's own count and
   status guard still stand; what happened to other guards, or on other incidents, plays no part.
   */
  lemma CompletionClosesIff(states: seq<Sys>, steps: seq<Step>, n: nat, id: TxId)
    requires SysRun(states, steps) && n <= |steps| && id in states[n].txns && states[n].txns[id].pc == ReadyToCommit
    requires var req := states[n].txns[id].req; req.Advance? && req.to == DispatchCompleted
    ensures states[n].txns[id].req.dispatch in states[n].core.dispatches
    ensures var s, t := states[n], states[n].txns[id];
            var i := s.core.dispatches[t.req.dispatch].incident;
            && i in Commit(s, id).incidents
            && (CascadedIn(s, i) && IncidentUnserved(Commit(s, id).core.dispatches, i) ==>
                  (IsTerminal(Commit(s, id).incidents[i].status) <==> StillSettled(s.core, s.incidents, t, i)))
  {
    hide SysInv, AllRecorded, Apply, Enabled, ReadyRecorded, CascadedAt, IncidentUnserved;
    RunKeepsRecords(states, steps, n);
    var s, t := states[n], states[n].txns[id];
    CommitIsRecorded(s, id);
    SysForeignKeys(s);
    ReadyCompletionCloses(s.core, s.incidents, s.locks, id, t);
  }

  lemma SysForeignKeys(s: Sys)
    requires SysInv(s)
    ensures ForeignKeys(DbOf(s))
  {
  }

  lemma ReadyCompletionCloses(core: Core, incidents: map<IncidentId, Incident>, locks: map<Key, TxId>, id: TxId, t: Txn)
    requires ReadyRecorded(core, incidents, locks, id, t) && ForeignKeys(Db(core, incidents))
    requires t.req.Advance? && t.req.to == DispatchCompleted
    ensures t.req.dispatch in core.dispatches
    ensures var i := core.dispatches[t.req.dispatch].incident;
            && i in incidents
            && (CascadedAt(core, incidents, i) && IncidentUnserved(Seen(core, t), i) ==>
                  (IsTerminal((incidents + t.w.incidents)[i].status) <==> StillSettled(core, incidents, t, i)))
  {
    GuardFindsDispatch(core, t.req);
    var d := t.req.dispatch;
    var i := core.dispatches[d].incident;
    assert Serves(core.dispatches, d, i);
    CompletionWrites(core, incidents, locks, id, t);
    hide IncidentsWritten, CommittedStep, Seen, ForeignKeys;
  }

  lemma CompletionWrites(core: Core, incidents: map<IncidentId, Incident>, locks: map<Key, TxId>, id: TxId, t: Txn)
    requires IncidentsWritten(core, incidents, locks, id, t) && t.req.Advance? && t.req.dispatch in core.dispatches
    ensures var i := core.dispatches[t.req.dispatch].incident;
            i in t.w.incidents ==> InDispatch(incidents, i) && t.w.incidents[i].status == Resolved
  {
  }
}
