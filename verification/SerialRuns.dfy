/** The refinement theorem over whole runs, and the invariants it carries over from the atomic operations. */
module SerialRuns {
  import opened Rows
  import opened AtomicOps
  import opened DispatchInvariants
  import opened Preemption
  import opened Interleaving
  import opened Refinement

  ghost predicate DistinctIds(txns: map<TxId, Txn>) {
    forall a, b | a in txns && b in txns && a != b ::
      txns[a].newDispatch != txns[b].newDispatch && txns[a].event != txns[b].event
  }

  ghost predicate NoOverride(txns: map<TxId, Txn>) {
    forall id | id in txns :: !txns[id].req.Override?
  }

  ghost predicate LocksOwned(s: Sys) {
    forall k | k in s.locks :: s.locks[k] in s.txns
  }

  ghost predicate Known(s: Sys, id: TxId)
    requires id in s.txns
  {
    TxInv(s.core, s.incidents, s.locks, id, s.txns[id])
  }

  ghost predicate SysInv(s: Sys) {
    && LocksOwned(s)
    && (forall id | id in s.txns :: Known(s, id))
    && DistinctIds(s.txns)
    && ForeignKeys(Db(s.core, s.incidents))
    && (!s.overridden ==> NoOverride(s.txns))
  }

  lemma InitHolds(s: Sys)
    requires Init(s)
    ensures SysInv(s)
  {
  }

  /** A step of one transaction that leaves the committed tables alone leaves the others' knowledge alone. */
  lemma OtherKnows(s: Sys, s': Sys, id: TxId, other: TxId)
    requires SysInv(s) && other in s.txns && other != id && other in s'.txns && s'.txns[other] == s.txns[other]
    requires s'.core == s.core && s'.incidents == s.incidents
    requires forall k | Owns(s.locks, other, k) :: Owns(s'.locks, other, k)
    ensures Known(s', other)
  {
    assert Known(s, other);
    assert Evolves(s.core, s'.core, s.locks, other);
    TxFrame(s.core, s'.core, s.incidents, s'.incidents, s.locks, s'.locks, other, s.txns[other]);
  }

  lemma BeginKeeps(s: Sys, step: Step)
    requires SysInv(s) && step.Begin? && Enabled(s, step)
    ensures SysInv(Apply(s, step))
  {
    hide TxInv, ForeignKeys, Acceptable;
    var s' := Apply(s, step);
    FreshKnows(s.core, s.incidents, s.locks, step.id, s'.txns[step.id]);
    forall other | other in s'.txns ensures Known(s', other) {
      if other != step.id { OtherKnows(s, s', step.id, other); }
    }
  }

  lemma FreshKnows(core: Core, incidents: map<IncidentId, Incident>, locks: map<Key, TxId>, id: TxId, t: Txn)
    requires t == Txn(t.req, Begun, t.newDispatch, t.event, 0, 0, 0, false, NO_WRITES)
    requires Acceptable(core, incidents, t.req) && t.newDispatch !in core.dispatches && t.event !in core.events
    ensures TxInv(core, incidents, locks, id, t)
  {
  }

  lemma AbortKeeps(s: Sys, id: TxId)
    requires SysInv(s) && id in s.txns
    ensures SysInv(End(s, id))
  {
    hide TxInv, ForeignKeys;
    var s' := End(s, id);
    forall other | other in s'.txns ensures Known(s', other) {
      OtherKnows(s, s', id, other);
    }
  }

  lemma StatementKeeps(s: Sys, id: TxId)
    requires SysInv(s) && Enabled(s, Statement(id)) && Exec(s.core, s.incidents, s.txns[id]).Next?
    ensures SysInv(Apply(s, Statement(id)))
  {
    hide TxInv, Exec, NextRow, ForeignKeys, Blocked;
    var t := s.txns[id];
    var t' := Exec(s.core, s.incidents, t).t;
    var s' := Apply(s, Statement(id));
    assert Known(s, id);
    CommitsWhenReady(s.core, s.incidents, s.locks, id, t);
    OwnStatement(s.core, s.incidents, s.locks, id, t);
    SameCallAfter(s.core, s.incidents, t);
    LockIsFree(s, id);
    assert s'.locks == Taking(s.locks, NextRow(s.core, s.incidents, t), id);
    forall other | other in s'.txns ensures Known(s', other) {
      if other != id { OtherKnows(s, s', id, other); }
    }
  }

  lemma LockIsFree(s: Sys, id: TxId)
    requires Enabled(s, Statement(id))
    ensures var k := NextRow(s.core, s.incidents, s.txns[id]); k.Some? && k.value in s.locks ==> s.locks[k.value] == id
  {
    var k := NextRow(s.core, s.incidents, s.txns[id]);
    assert k.Some? && k.value in s.locks ==> !WaitsFor(s, id, s.locks[k.value]);
  }

  lemma SameCallAfter(core: Core, incidents: map<IncidentId, Incident>, t: Txn)
    requires Exec(core, incidents, t).Next?
    ensures SameCall(t, Exec(core, incidents, t).t)
  {
    hide EventWrites, MarkWrites, DispatchableIncident, UnitFree, IncidentUnserved, CanTransitionDispatch, CanTransitionIncident;
  }

  lemma RetryKeeps(s: Sys, id: TxId)
    requires SysInv(s) && id in s.txns && Exec(s.core, s.incidents, s.txns[id]).Retry?
    ensures SysInv(Apply(s, Statement(id)))
  {
    hide TxInv, ForeignKeys, Exec, NextRow;
    var t := s.txns[id];
    var s' := Apply(s, Statement(id));
    assert Known(s, id);
    OnlyLostSwapsRetry(s.core, s.incidents, t);
    RetriedKnows(s.core, s.incidents, s.locks, s'.locks, id, t);
    forall other | other in s'.txns ensures Known(s', other) {
      if other != id { OtherKnows(s, s', id, other); }
    }
  }

  lemma OnlyLostSwapsRetry(core: Core, incidents: map<IncidentId, Incident>, t: Txn)
    requires Exec(core, incidents, t).Retry?
    ensures t.req.ReserveOptimistic? && t.pc == IncidentRead && t.attempt + 1 < MAX_OPTIMISTIC_RETRIES
    ensures !(t.req.unit in core.units && core.units[t.req.unit].version == t.version)
    ensures Exec(core, incidents, t).t == t.(pc := Begun, attempt := t.attempt + 1)
  {
  }

  /** A lost swap means the version moved past what this attempt read. */
  lemma RetriedKnows(core: Core, incidents: map<IncidentId, Incident>, locks: map<Key, TxId>, freed: map<Key, TxId>, id: TxId, t: Txn)
    requires TxInv(core, incidents, locks, id, t) && t.req.ReserveOptimistic? && t.pc == IncidentRead
    requires !(t.req.unit in core.units && core.units[t.req.unit].version == t.version) && t.attempt + 1 < MAX_OPTIMISTIC_RETRIES
    ensures TxInv(core, incidents, freed, id, t.(pc := Begun, attempt := t.attempt + 1))
  {
  }

  /** A commit takes no id another transaction has in reserve, and changes no incident but its status. */
  lemma CommitSpares(s: Sys, id: TxId, other: TxId)
    requires SysInv(s) && id in s.txns && other in s.txns && other != id
    ensures var t, s' := s.txns[other], Commit(s, id);
            t.newDispatch !in s'.core.dispatches && t.event !in s'.core.events && SameIncidents(s.incidents, s'.incidents)
  {
    hide Exec, ForeignKeys, Guard;
    assert Known(s, id) && Known(s, other);
    WritesAreLocked(s.core, s.incidents, s.locks, id, s.txns[id]);
  }

  lemma CommitKeepsOther(s: Sys, id: TxId, other: TxId)
    requires SysInv(s) && id in s.txns && other in s.txns && other != id
    ensures Known(Commit(s, id), other)
  {
    hide TxInv, ForeignKeys, LockedWrites;
    var t, s' := s.txns[id], Commit(s, id);
    assert Known(s, id) && Known(s, other);
    WritesAreLocked(s.core, s.incidents, s.locks, id, t);
    CommitEvolves(s.core, s.locks, id, t, other);
    CommitSpares(s, id, other);
    TxFrame(s.core, s'.core, s.incidents, s'.incidents, s.locks, s'.locks, other, s.txns[other]);
  }

  lemma CommitKeepsForeignKeys(s: Sys, id: TxId)
    requires SysInv(s) && id in s.txns && s.txns[id].pc == ReadyToCommit
    ensures ForeignKeys(Db(Commit(s, id).core, Commit(s, id).incidents))
  {
    hide TxInv, Guard;
    assert Known(s, id);
    WritesPointHome(s.core, s.incidents, s.locks, id, s.txns[id]);
  }

  lemma WritesPointHome(core: Core, incidents: map<IncidentId, Incident>, locks: map<Key, TxId>, id: TxId, t: Txn)
    requires Ready(core, incidents, locks, id, t) && ForeignKeys(Db(core, incidents))
    ensures forall d | d in t.w.dispatches ::
              t.w.dispatches[d].unit in core.units && t.w.dispatches[d].incident in incidents
  {
    hide UnitWrites, EventWrites, UnitFree, HeldOnlyBy, KnownIncidents, SetUnitStatus, MarkReserved;
    if t.req.Reassign? {
      assert ReassignInv(core, locks, id, t) && TailInv(core, incidents, t);
    } else if Inserts(t.req) {
      assert TailInv(core, incidents, t);
    }
  }

  lemma CommitKeeps(s: Sys, id: TxId)
    requires SysInv(s) && id in s.txns && s.txns[id].pc == ReadyToCommit
    ensures SysInv(Commit(s, id))
  {
    hide TxInv, ForeignKeys;
    var s' := Commit(s, id);
    forall other | other in s'.txns ensures Known(s', other) {
      CommitKeepsOther(s, id, other);
    }
    CommitKeepsForeignKeys(s, id);
  }

  lemma StepKeeps(s: Sys, step: Step)
    requires SysInv(s) && Enabled(s, step)
    ensures SysInv(Apply(s, step))
  {
    hide TxInv, Exec, ForeignKeys, NextRow, Blocked, Acceptable, Commit;
    match step
    case Begin(_, _, _, _) => BeginKeeps(s, step);
    case Abort(id) => AbortKeeps(s, id);
    case Statement(id) =>
      var t := s.txns[id];
      assert Known(s, id);
      CommitsWhenReady(s.core, s.incidents, s.locks, id, t);
      match Exec(s.core, s.incidents, t)
      case Next(_) => StatementKeeps(s, id);
      case RolledBack(_) => AbortKeeps(s, id);
      case Retry(_) => RetryKeeps(s, id);
      case Committed => CommitKeeps(s, id);
  }

  // --- The committed history is a serial run ---

  lemma StepExtendsHistory(s: Sys, step: Step)
    requires SysInv(s) && Enabled(s, step)
    ensures var s' := Apply(s, step);
            || (s'.core == s.core && s'.history == s.history && s'.log == s.log)
            || (exists op :: CommittedStep(s.core, op, s'.core) && s'.history == s.history + [s'.core] && s'.log == s.log + [op]
                             && (op.req.Override? ==> !NoOverride(s.txns)) && WellFormed(op.req) && Acceptable(s.core, s.incidents, op.req))
  {
    hide TxInv, Exec, NextRow, ForeignKeys, Blocked, CommittedStep, Acceptable, WellFormed, DistinctIds;
    if step.Statement? {
      var t := s.txns[step.id];
      assert Known(s, step.id);
      CommitsWhenReady(s.core, s.incidents, s.locks, step.id, t);
      if t.pc == ReadyToCommit {
        CommitIsAtomic(s.core, s.incidents, s.locks, step.id, t);
        KnownIsAcceptable(s.core, s.incidents, s.locks, step.id, t);
        assert Apply(s, step) == Commit(s, step.id);
      }
    }
  }

  lemma KnownIsAcceptable(core: Core, incidents: map<IncidentId, Incident>, locks: map<Key, TxId>, id: TxId, t: Txn)
    requires TxInv(core, incidents, locks, id, t)
    ensures Acceptable(core, incidents, t.req) && WellFormed(t.req)
  {
  }

  ghost predicate Serial(s: Sys, start: Core) {
    CommittedRun(s.history, s.log) && s.history[0] == start && s.history[|s.log|] == s.core
  }

  lemma ExtendRun(history: seq<Core>, log: seq<Op>, op: Op, after: Core)
    requires CommittedRun(history, log) && CommittedStep(history[|log|], op, after)
    ensures CommittedRun(history + [after], log + [op])
  {
    var h, l := history + [after], log + [op];
    forall k | 0 <= k < |l| ensures CommittedStep(h[k], l[k], h[k + 1]) {
      if k < |log| {
        assert CommittedStep(history[k], log[k], history[k + 1]);
      }
    }
  }

  lemma HistoryStaysSerial(s: Sys, step: Step, start: Core)
    requires SysInv(s) && Serial(s, start) && Enabled(s, step)
    ensures Serial(Apply(s, step), start)
  {
    hide SysInv, Apply, Enabled, CommittedStep, WellFormed, Acceptable, NoOverride;
    StepExtendsHistory(s, step);
    var s' := Apply(s, step);
    if !(s'.core == s.core && s'.history == s.history && s'.log == s.log) {
      var op :| CommittedStep(s.core, op, s'.core) && s'.history == s.history + [s'.core] && s'.log == s.log + [op];
      ExtendRun(s.history, s.log, op, s'.core);
    }
  }

  /**
   For every interleaving of any number of transactions, aborted or not, overrides
   included: the committed rows are those the committed operations produce when run
   one at a time, in commit order.
   */
  lemma {:induction false} SerialRefinement(states: seq<Sys>, steps: seq<Step>, n: nat)
    requires SysRun(states, steps) && n <= |steps|
    ensures SysInv(states[n]) && Serial(states[n], states[0].core)
  {
    hide SysInv, Apply, Enabled;
    if n == 0 {
      InitHolds(states[0]);
    } else {
      SerialRefinement(states, steps, n - 1);
      StepKeeps(states[n - 1], steps[n - 1]);
      HistoryStaysSerial(states[n - 1], steps[n - 1], states[0].core);
    }
  }

  // --- Properties the interleaved system inherits ---

  lemma StepCarriesIndexAndEvents(s: Sys, step: Step)
    requires SysInv(s) && Enabled(s, step) && OneActive(s.core.dispatches) && EventsMatch(s.core)
    ensures OneActive(Apply(s, step).core.dispatches) && EventsMatch(Apply(s, step).core)
  {
    hide SysInv, Apply, Enabled, OneActive, EventsMatch, Guard, FreshIds, Effect, WellFormed, Acceptable, NoOverride;
    StepExtendsHistory(s, step);
    var s' := Apply(s, step);
    if s'.core != s.core {
      var op :| CommittedStep(s.core, op, s'.core) && WellFormed(op.req);
      IndexKept(s.core, op);
      EventsKept(s.core, op);
    }
  }

  lemma StepCarriesAgreement(s: Sys, step: Step)
    requires SysInv(s) && Enabled(s, step) && (!s.overridden ==> Agreement(s.core))
    ensures !Apply(s, step).overridden ==> Agreement(Apply(s, step).core)
  {
    hide TxInv, Exec, NextRow, ForeignKeys, Blocked, DistinctIds, Agreement, Guard, FreshIds, Effect, WellFormed, Acceptable, NoOverride;
    StepExtendsHistory(s, step);
    var s' := Apply(s, step);
    if !s'.overridden && s'.core != s.core {
      var op :| CommittedStep(s.core, op, s'.core) && (op.req.Override? ==> !NoOverride(s.txns));
      AgreementKept(s.core, op);
    }
  }

  /**
   In every committed state of every interleaving: at most one active dispatch per
   unit and exactly one birth event per dispatch, overrides or not; and as long as
   no operator has overridden a unit, unit and dispatch rows agree.
   */
  lemma {:induction false} CommittedStatesAgree(states: seq<Sys>, steps: seq<Step>, n: nat)
    requires SysRun(states, steps) && n <= |steps|
    requires Agreement(states[0].core) && EventsMatch(states[0].core)
    ensures OneActive(states[n].core.dispatches) && EventsMatch(states[n].core)
    ensures !states[n].overridden ==> Agreement(states[n].core)
  {
    hide SysInv, Apply, Enabled, EventsMatch, Serial;
    if n > 0 {
      CommittedStatesAgree(states, steps, n - 1);
      SerialRefinement(states, steps, n - 1);
      StepCarriesIndexAndEvents(states[n - 1], steps[n - 1]);
      StepCarriesAgreement(states[n - 1], steps[n - 1]);
    }
  }

  // --- The optimistic path ---

  lemma SwapInvAt(s: Sys, id: TxId)
    requires SysInv(s) && id in s.txns && s.txns[id].req.ReserveOptimistic?
    ensures OptimisticInv(s.core, s.locks, id, s.txns[id])
  {
    hide ForeignKeys, DistinctIds, NoOverride, LocksOwned;
    assert Known(s, id);
  }

  /**
   In every reachable state, a swap that wins finds the very row that was read: same version, still
   available. No ABA, overrides or not.
   */
  lemma WonSwapIsSound(states: seq<Sys>, steps: seq<Step>, n: nat, id: TxId)
    requires SysRun(states, steps) && n <= |steps| && id in states[n].txns
    requires states[n].txns[id].req.ReserveOptimistic? && states[n].txns[id].pc == IncidentRead
    requires Exec(states[n].core, states[n].incidents, states[n].txns[id]).Next?
    ensures var t := states[n].txns[id];
            t.req.unit in states[n].core.units && states[n].core.units[t.req.unit] == Unit(UnitAvailable, t.version)
  {
    hide SysInv;
    SerialRefinement(states, steps, n);
    SwapInvAt(states[n], id);
  }

  /** Giving up means the unit was written at least three times since the call first read it. */
  lemma ConflictMeansThreeWrites(states: seq<Sys>, steps: seq<Step>, n: nat, id: TxId)
    requires SysRun(states, steps) && n <= |steps| && id in states[n].txns
    requires Exec(states[n].core, states[n].incidents, states[n].txns[id]) == RolledBack(ErrReservationConflict)
    ensures var t := states[n].txns[id];
            t.req.ReserveOptimistic? && t.req.unit in states[n].core.units
            && states[n].core.units[t.req.unit].version >= t.firstVersion + 3
  {
    hide SysInv, Exec;
    SerialRefinement(states, steps, n);
    OnlyLastSwapConflicts(states[n].core, states[n].incidents, states[n].txns[id]);
    SwapInvAt(states[n], id);
  }

  lemma OnlyLastSwapConflicts(core: Core, incidents: map<IncidentId, Incident>, t: Txn)
    requires Exec(core, incidents, t) == RolledBack(ErrReservationConflict)
    ensures t.req.ReserveOptimistic? && t.pc == IncidentRead && t.attempt + 1 >= MAX_OPTIMISTIC_RETRIES
    ensures !(t.req.unit in core.units && core.units[t.req.unit].version == t.version)
  {
  }

  /** The swap itself: won exactly if the version has stood still, else tried anew, and given up for a conflict the third time. */
  lemma SwapIsAnswered(states: seq<Sys>, steps: seq<Step>, n: nat, id: TxId)
    requires SysRun(states, steps) && n <= |steps| && id in states[n].txns
    requires states[n].txns[id].req.ReserveOptimistic? && states[n].txns[id].pc == IncidentRead
    ensures var s, t := states[n], states[n].txns[id];
            && t.req.unit in s.core.units
            && Exec(s.core, s.incidents, t) ==
                 if s.core.units[t.req.unit].version == t.version
                 then Next(t.(pc := UnitsWritten, w := t.w.(units := t.w.units[t.req.unit := Unit(UnitReserved, t.version + 1)])))
                 else if t.attempt < 2 then Retry(t.(pc := Begun, attempt := t.attempt + 1)) else RolledBack(ErrReservationConflict)
  {
    hide SysInv;
    SerialRefinement(states, steps, n);
    SwapInvAt(states[n], id);
  }

  /** A call commits at most once, and then adds at most the one row reserved for it. */
  lemma OneDispatchPerCall(states: seq<Sys>, steps: seq<Step>, n: nat, id: TxId)
    requires SysRun(states, steps) && n <= |steps| && id in states[n].txns
    ensures var s := states[n];
            && s.txns[id].newDispatch !in s.core.dispatches
            && Commit(s, id).core.dispatches.Keys - s.core.dispatches.Keys <= {s.txns[id].newDispatch}
            && id !in Commit(s, id).txns && forall k | k in Commit(s, id).locks :: Commit(s, id).locks[k] != id
  {
    SerialRefinement(states, steps, n);
    var s := states[n];
    OwnIdsAreFree(s, id);
    WritesAreLocked(s.core, s.incidents, s.locks, id, s.txns[id]);
  }

  lemma {:induction false} DispatchesStay(history: seq<Core>, log: seq<Op>, m: nat, n: nat, d: DispatchId)
    requires CommittedRun(history, log) && m <= n <= |log| && d in history[m].dispatches
    ensures d in history[n].dispatches
    decreases n
  {
    hide Guard, UnitWrites, DispatchWrites, EventWrites;
    if m < n {
      DispatchesStay(history, log, m, n - 1, d);
      assert CommittedStep(history[n - 1], log[n - 1], history[n]);
    }
  }

  lemma InsertIsThere(core: Core, op: Op, after: Core)
    requires CommittedStep(core, op, after) && Inserts(op.req)
    ensures op.newDispatch !in core.dispatches && op.newDispatch in after.dispatches
  {
  }

  /** Over a whole run no dispatch id is inserted twice: every inserting call commits at most once. */
  lemma OneCommitPerInsert(states: seq<Sys>, steps: seq<Step>, n: nat, j: nat, k: nat)
    requires SysRun(states, steps) && n <= |steps| && j < k < |states[n].log|
    requires Inserts(states[n].log[j].req) && Inserts(states[n].log[k].req)
    ensures states[n].log[j].newDispatch != states[n].log[k].newDispatch
  {
    hide SysInv, Guard, Effect;
    SerialRefinement(states, steps, n);
    var history, log := states[n].history, states[n].log;
    assert CommittedStep(history[j], log[j], history[j + 1]) && CommittedStep(history[k], log[k], history[k + 1]);
    InsertIsThere(history[j], log[j], history[j + 1]);
    InsertIsThere(history[k], log[k], history[k + 1]);
    DispatchesStay(history, log, j + 1, k, log[j].newDispatch);
  }

  lemma OwnIdsAreFree(s: Sys, id: TxId)
    requires SysInv(s) && id in s.txns
    ensures Known(s, id) && s.txns[id].newDispatch !in s.core.dispatches && s.txns[id].event !in s.core.events
  {
    hide ForeignKeys, DistinctIds, NoOverride, LocksOwned;
    assert Known(s, id);
  }
}
