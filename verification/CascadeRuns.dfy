/**
 The incident cascade under statement-level interleaving. Its guards are read without a lock: the incident's
 status before an insert, the count of its active dispatches before it is closed, the status an operator's change
 starts from. A commit is the atomic transaction on all four tables exactly if those guards still come out as they did.
 */
module CascadeRuns {
  import opened Results
  import opened Rows
  import opened AtomicOps
  import opened DispatchInvariants
  import opened Preemption
  import opened Interleaving
  import opened Refinement
  import opened SerialRuns
  import opened IncidentWrites

  // --- When a commit is the atomic transaction ---

  /** The checks an atomic run makes of incidents before it writes anything. */
  ghost predicate StillLegal(incidents: map<IncidentId, Incident>, req: Request) {
    && (Inserts(req) ==> DispatchableIncident(incidents, req.incident).Ok?)
    && (req.Operator? ==> req.incident in incidents && CanTransitionIncident(incidents[req.incident].status, req.target))
  }

  /** The closing UPDATE of incident i matched a row exactly if it would match one now, on the dispatch rows of the commit. */
  ghost predicate StillSettled(core: Core, incidents: map<IncidentId, Incident>, t: Txn, i: IncidentId) {
    i in t.w.incidents <==> InDispatch(incidents, i) && IncidentUnserved(Seen(core, t), i)
  }

  ghost predicate StillMarked(incidents: map<IncidentId, Incident>, t: Txn, i: IncidentId) {
    i in t.w.incidents <==> Undispatched(incidents, i)
  }

  /** The incident a transaction may close: the one its own dispatch serves, unless the new one serves it too. */
  function Closes(core: Core, req: Request): Option<IncidentId> {
    match req
    case Advance(d, to) =>
      if to == DispatchCompleted && d in core.dispatches then Some(core.dispatches[d].incident) else None
    case Reassign(d, i, _, _) =>
      if d in core.dispatches && core.dispatches[d].incident != i then Some(core.dispatches[d].incident) else None
    case _ => None
  }

  /** Incidents end as the atomic operation would leave them exactly if each guarded UPDATE would match now what it matched. */
  ghost predicate WritesStand(core: Core, incidents: map<IncidentId, Incident>, t: Txn) {
    && (Inserts(t.req) ==> StillMarked(incidents, t, t.req.incident))
    && (Closes(core, t.req).Some? ==> StillSettled(core, incidents, t, Closes(core, t.req).value))
  }

  /** Every guard on incidents that the transaction went by, evaluated once more at its commit, comes out as it did. */
  ghost predicate GuardsStand(core: Core, incidents: map<IncidentId, Incident>, t: Txn) {
    StillLegal(incidents, t.req) && WritesStand(core, incidents, t)
  }

  lemma LegalIffRunOk(db: Db, op: Op)
    requires ForeignKeys(db) && Guard(db.core, op.req) && FreshIds(db.core, op)
    requires op.req.Advance? ==> op.req.dispatch in db.core.dispatches
    ensures Run(db, op).Ok? <==> StillLegal(db.incidents, op.req)
  {
    if op.req.Reassign? { FreeIffOnlyHolder(db.core.dispatches, op.req.dispatch, op.req.unit); }
  }

  lemma ReservationEffectIff(core: Core, incidents: map<IncidentId, Incident>, locks: map<Key, TxId>, id: TxId, t: Txn)
    requires (t.req.Reserve? || t.req.ReserveOptimistic?) && Guard(core, t.req) && IncidentsWritten(core, incidents, locks, id, t)
    ensures IncidentEffect(core, incidents, OpOf(t)) == incidents + t.w.incidents <==> StillMarked(incidents, t, t.req.incident)
  {
    hide Guard, Effect;
    MarkEffectIff(incidents, locks, id, t, t.req.incident);
  }

  lemma MarkEffectIff(incidents: map<IncidentId, Incident>, locks: map<Key, TxId>, id: TxId, t: Txn, i: IncidentId)
    requires t.w.incidents.Keys <= {i} && MarkWritten(incidents, locks, id, t, i)
    ensures MarkDispatched(incidents, i) == incidents + t.w.incidents <==> StillMarked(incidents, t, i)
  {
    if Undispatched(incidents, i) && i !in t.w.incidents {
      assert MarkDispatched(incidents, i)[i].status != (incidents + t.w.incidents)[i].status;
    }
  }

  lemma AdvanceEffectIff(core: Core, incidents: map<IncidentId, Incident>, locks: map<Key, TxId>, id: TxId, t: Txn)
    requires t.req.Advance? && t.req.to == DispatchCompleted && Guard(core, t.req) && IncidentsWritten(core, incidents, locks, id, t)
    requires Effect(core, OpOf(t)).dispatches == Seen(core, t)
    ensures IncidentEffect(core, incidents, OpOf(t)) == incidents + t.w.incidents <==>
              StillSettled(core, incidents, t, core.dispatches[t.req.dispatch].incident)
  {
    hide Effect, IncidentUnserved, Seen;
    var i := core.dispatches[t.req.dispatch].incident;
    var after := IncidentEffect(core, incidents, OpOf(t));
    if InDispatch(incidents, i) && IncidentUnserved(Seen(core, t), i) && i !in t.w.incidents {
      assert after[i].status != (incidents + t.w.incidents)[i].status;
    }
    if i in t.w.incidents && !IncidentUnserved(Seen(core, t), i) {
      assert after[i].status != (incidents + t.w.incidents)[i].status;
    }
  }

  lemma ReassignEffectIff(core: Core, incidents: map<IncidentId, Incident>, locks: map<Key, TxId>, id: TxId, t: Txn)
    requires t.req.Reassign? && Guard(core, t.req) && ReassignWritten(core, incidents, locks, id, t)
    requires Effect(core, OpOf(t)).dispatches == Seen(core, t)
    ensures var i, prior := t.req.incident, core.dispatches[t.req.dispatch].incident;
            IncidentEffect(core, incidents, OpOf(t)) == incidents + t.w.incidents <==>
              StillMarked(incidents, t, i) && (prior != i ==> StillSettled(core, incidents, t, prior))
  {
    var i, prior := t.req.incident, core.dispatches[t.req.dispatch].incident;
    hide Guard, Effect, IncidentUnserved, Seen, MarkDispatched, LeaveDispatched, MarkWritten, SettleWritten;
    if prior == i {
      MarkEffectIff(incidents, locks, id, t, i);
    } else {
      TwoRowsEffectIff(incidents, locks, id, t, i, prior, IncidentUnserved(Seen(core, t), prior));
    }
  }

  lemma TwoRowsEffectIff(incidents: map<IncidentId, Incident>, locks: map<Key, TxId>, id: TxId, t: Txn,
                         i: IncidentId, prior: IncidentId, closes: bool)
    requires prior != i && t.w.incidents.Keys <= {i, prior}
    requires MarkWritten(incidents, locks, id, t, i) && SettleWritten(incidents, locks, id, t, prior, Verified)
    ensures var marked := MarkDispatched(incidents, i);
            (if closes then LeaveDispatched(marked, prior, Verified) else marked) == incidents + t.w.incidents <==>
              StillMarked(incidents, t, i) && (prior in t.w.incidents <==> InDispatch(incidents, prior) && closes)
  {
    MarkRowIff(incidents, locks, id, t, i);
    SettleRowIff(incidents, locks, id, t, prior, closes);
    hide MarkWritten, SettleWritten, StillMarked;
    var marked := MarkDispatched(incidents, i);
    var now := if closes then LeaveDispatched(marked, prior, Verified) else marked;
    var later := incidents + t.w.incidents;
    assert now.Keys == later.Keys && forall x | x in now && x != i && x != prior :: now[x] == later[x];
    assert i in now ==> now[i] == marked[i];
    assert prior in now ==> now[prior] == (if closes then LeaveDispatched(incidents, prior, Verified) else incidents)[prior];
  }

  lemma MarkRowIff(incidents: map<IncidentId, Incident>, locks: map<Key, TxId>, id: TxId, t: Txn, i: IncidentId)
    requires MarkWritten(incidents, locks, id, t, i)
    ensures i in t.w.incidents ==> i in incidents
    ensures i !in incidents ==> StillMarked(incidents, t, i)
    ensures i in incidents ==> (MarkDispatched(incidents, i)[i] == (incidents + t.w.incidents)[i] <==> StillMarked(incidents, t, i))
  {
  }

  lemma SettleRowIff(incidents: map<IncidentId, Incident>, locks: map<Key, TxId>, id: TxId, t: Txn, i: IncidentId, closes: bool)
    requires SettleWritten(incidents, locks, id, t, i, Verified)
    ensures i in t.w.incidents ==> i in incidents
    ensures i in incidents ==>
              ((if closes then LeaveDispatched(incidents, i, Verified) else incidents)[i] == (incidents + t.w.incidents)[i] <==>
               (i in t.w.incidents <==> InDispatch(incidents, i) && closes))
  {
  }

  lemma GuardFindsDispatch(core: Core, req: Request)
    requires Guard(core, req) && (req.Advance? || req.Reassign?)
    ensures req.dispatch in core.dispatches
  {
  }

  lemma EffectIff(core: Core, incidents: map<IncidentId, Incident>, locks: map<Key, TxId>, id: TxId, t: Txn)
    requires CommittedStep(core, OpOf(t), Merge(core, t.w)) && IncidentsWritten(core, incidents, locks, id, t)
    requires t.req.Operator? ==> t.req.incident in incidents && t.pc == ReadyToCommit
    ensures IncidentEffect(core, incidents, OpOf(t)) == incidents + t.w.incidents <==> WritesStand(core, incidents, t)
  {
    assert Effect(core, OpOf(t)).dispatches == Seen(core, t);
    assert Guard(core, t.req);
    hide CommittedStep, Merge, Guard, Effect, IncidentEffect, Seen, IncidentUnserved, StillSettled, StillMarked, ReassignWritten;
    hide MarkWritten, SettleWritten, FreshIds;
    if t.req.Advance? || t.req.Reassign? { GuardFindsDispatch(core, t.req); }
    match t.req
    case Reserve(_, _) => ReservationEffectIff(core, incidents, locks, id, t);
    case ReserveOptimistic(_, _) => ReservationEffectIff(core, incidents, locks, id, t);
    case Advance(_, to) =>
      if to == DispatchCompleted { AdvanceEffectIff(core, incidents, locks, id, t); } else { PlainEffect(core, incidents, locks, id, t); }
    case Reassign(_, _, _, _) => ReassignEffectIff(core, incidents, locks, id, t);
    case Override(_, _) => PlainEffect(core, incidents, locks, id, t);
    case Operator(_, _) => PlainEffect(core, incidents, locks, id, t);
  }

  /** Without a guarded UPDATE there is nothing to come out differently. */
  lemma PlainEffect(core: Core, incidents: map<IncidentId, Incident>, locks: map<Key, TxId>, id: TxId, t: Txn)
    requires Guard(core, t.req) && IncidentsWritten(core, incidents, locks, id, t)
    requires t.req.Override? || (t.req.Operator? && t.req.incident in incidents && t.pc == ReadyToCommit)
             || (t.req.Advance? && t.req.to != DispatchCompleted)
    ensures IncidentEffect(core, incidents, OpOf(t)) == incidents + t.w.incidents
  {
    hide Effect, Guard;
  }

  lemma OperatorIsThere(core: Core, incidents: map<IncidentId, Incident>, locks: map<Key, TxId>, id: TxId, t: Txn)
    requires IncidentsWritten(core, incidents, locks, id, t) && t.req.Operator? && t.pc == ReadyToCommit
    ensures t.req.incident in incidents
  {
    assert t.req.incident in t.w.incidents;
  }

  /**
   In every reachable state: committing a transaction is running it atomically on all four tables exactly if every
   guard on incidents it went by still stands.
   */
  lemma CommitIsAtomicIff(states: seq<Sys>, steps: seq<Step>, n: nat, id: TxId)
    requires SysRun(states, steps) && n <= |steps| && id in states[n].txns && states[n].txns[id].pc == ReadyToCommit
    ensures ForeignKeys(Db(states[n].core, states[n].incidents))
    ensures var s, t := states[n], states[n].txns[id];
            Run(Db(s.core, s.incidents), OpOf(t)) == Ok(Db(Commit(s, id).core, Commit(s, id).incidents)) <==>
              GuardsStand(s.core, s.incidents, t)
  {
    RunKeepsRecords(states, steps, n);
    ReadyIsAtomicIff(states[n], id);
  }

  lemma ReadyIsAtomicIff(s: Sys, id: TxId)
    requires SysInv(s) && AllRecorded(s) && id in s.txns && s.txns[id].pc == ReadyToCommit
    ensures ForeignKeys(Db(s.core, s.incidents))
    ensures var t := s.txns[id];
            Run(Db(s.core, s.incidents), OpOf(t)) == Ok(Db(Commit(s, id).core, Commit(s, id).incidents)) <==>
              GuardsStand(s.core, s.incidents, t)
  {
    var t, db := s.txns[id], Db(s.core, s.incidents);
    assert Known(s, id) && Recorded(s, id);
    CommitIsAtomic(s.core, s.incidents, s.locks, id, t);
    if t.req.Operator? { OperatorIsThere(s.core, s.incidents, s.locks, id, t); }
    hide TxInv, IncidentsWritten, ForeignKeys, DistinctIds, Run, Guard, Effect, FreshIds, IncidentEffect, StillLegal, WritesStand;
    LegalIffRunOk(db, OpOf(t));
    EffectIff(s.core, s.incidents, s.locks, id, t);
    if Run(db, OpOf(t)).Ok? { RunIsEffect(db, OpOf(t)); }
  }

  // --- Whole runs ---

  predicate Commits(s: Sys, step: Step) {
    step.Statement? && step.id in s.txns && Exec(s.core, s.incidents, s.txns[step.id]).Committed?
  }

  function DbOf(s: Sys): Db { Db(s.core, s.incidents) }

  /** The committed states up to state n, incidents included, and the operations between them. */
  ghost function DbsOf(states: seq<Sys>, steps: seq<Step>, n: nat): (dbs: seq<Db>)
    requires n <= |steps| < |states|
    ensures |dbs| == |OpsOf(states, steps, n)| + 1
  {
    if n == 0 then [DbOf(states[0])]
    else DbsOf(states, steps, n - 1) + if Commits(states[n - 1], steps[n - 1]) then [DbOf(states[n])] else []
  }

  ghost function OpsOf(states: seq<Sys>, steps: seq<Step>, n: nat): seq<Op>
    requires n <= |steps| < |states|
  {
    if n == 0 then []
    else OpsOf(states, steps, n - 1)
         + if Commits(states[n - 1], steps[n - 1]) then [OpOf(states[n - 1].txns[steps[n - 1].id])] else []
  }

  ghost predicate StandsAt(states: seq<Sys>, steps: seq<Step>, k: nat)
    requires k < |steps| < |states|
  {
    Commits(states[k], steps[k]) ==> GuardsStand(states[k].core, states[k].incidents, states[k].txns[steps[k].id])
  }

  /** Every commit among the first n steps finds its guards as it left them. */
  ghost predicate AllStand(states: seq<Sys>, steps: seq<Step>, n: nat)
    requires n <= |steps| < |states|
  {
    forall k | 0 <= k < n :: StandsAt(states, steps, k)
  }

  lemma QuietStepKeepsDb(s: Sys, step: Step)
    requires Enabled(s, step) && !Commits(s, step)
    ensures DbOf(Apply(s, step)) == DbOf(s)
  {
    hide Exec, NextRow, Blocked;
  }

  lemma CommitStepIsAtomicIff(s: Sys, step: Step)
    requires SysInv(s) && AllRecorded(s) && Enabled(s, step) && Commits(s, step)
    ensures var op := OpOf(s.txns[step.id]);
            && ForeignKeys(DbOf(s)) && FreshIds(s.core, op)
            && (Run(DbOf(s), op) == Ok(DbOf(Apply(s, step))) <==> GuardsStand(s.core, s.incidents, s.txns[step.id]))
  {
    hide TxInv, IncidentsWritten, GuardsStand, Run, ForeignKeys, DistinctIds, Exec, Blocked, Guard, Effect;
    var t := s.txns[step.id];
    assert Known(s, step.id);
    CommitsWhenReady(s.core, s.incidents, s.locks, step.id, t);
    CommitIsAtomic(s.core, s.incidents, s.locks, step.id, t);
    ReadyIsAtomicIff(s, step.id);
    assert Apply(s, step) == Commit(s, step.id);
  }

  lemma HistoryGrows(dbs: seq<Db>, ops: seq<Op>, op: Op, after: Db)
    requires |dbs| == |ops| + 1 && ForeignKeys(dbs[|ops|]) && FreshIds(dbs[|ops|].core, op)
    ensures History(dbs + [after], ops + [op]) <==> History(dbs, ops) && Run(dbs[|ops|], op) == Ok(after)
  {
    hide ForeignKeys, FreshIds, Run;
    var more, longer := dbs + [after], ops + [op];
    if History(more, longer) {
      forall k | 0 <= k < |ops|
        ensures ForeignKeys(dbs[k]) && FreshIds(dbs[k].core, ops[k]) && Run(dbs[k], ops[k]).Ok? && Run(dbs[k], ops[k]).value == dbs[k + 1]
      {
        assert more[k] == dbs[k] && longer[k] == ops[k] && more[k + 1] == dbs[k + 1];
      }
      assert more[|ops|] == dbs[|ops|] && longer[|ops|] == op && more[|ops| + 1] == after;
    }
  }

  lemma OneStateIsHistory(s: Sys)
    requires Init(s)
    ensures History([DbOf(s)], [])
  {
  }

  /**
   The whole database, incidents included: the commits of an interleaving are a history of atomic transactions,
   one after the other in commit order, exactly if every one of them finds its guards as it left them.
   */
  lemma {:induction false} SerialWithIncidentsIff(states: seq<Sys>, steps: seq<Step>, n: nat)
    requires SysRun(states, steps) && n <= |steps|
    ensures DbsOf(states, steps, n)[|OpsOf(states, steps, n)|] == DbOf(states[n])
    ensures History(DbsOf(states, steps, n), OpsOf(states, steps, n)) <==> AllStand(states, steps, n)
  {
    hide SysInv, AllRecorded, Apply, Enabled, Exec, GuardsStand, History, Run, ForeignKeys, FreshIds;
    if n == 0 {
      OneStateIsHistory(states[0]);
    } else {
      var k := n - 1;
      SerialWithIncidentsIff(states, steps, k);
      RunKeepsRecords(states, steps, k);
      assert AllStand(states, steps, n) <==> AllStand(states, steps, k) && StandsAt(states, steps, k);
      if Commits(states[k], steps[k]) {
        CommitStepIsAtomicIff(states[k], steps[k]);
        HistoryGrows(DbsOf(states, steps, k), OpsOf(states, steps, k), OpOf(states[k].txns[steps[k].id]), DbOf(states[n]));
      } else {
        QuietStepKeepsDb(states[k], steps[k]);
        assert DbsOf(states, steps, n) == DbsOf(states, steps, k) && OpsOf(states, steps, n) == OpsOf(states, steps, k);
      }
    }
  }
}
