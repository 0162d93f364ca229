/** The preemption bound for statement-level interleavings, where victims are picked outside the transaction. */
module PreemptionRuns {
  import opened Rows
  import opened AtomicOps
  import opened Preemption
  import opened Interleaving
  import opened Refinement
  import opened SerialRuns

  function SeverityOf(incidents: map<IncidentId, Incident>): Severities {
    map i | i in incidents :: incidents[i].severity
  }

  ghost predicate SameSeverities(a: map<IncidentId, Incident>, b: map<IncidentId, Incident>) {
    a.Keys == b.Keys && forall i | i in a :: a[i].severity == b[i].severity
  }

  /** Every committed reassignment was acceptable in the state it was committed on. */
  ghost predicate LogAcceptable(s: Sys, incidents: map<IncidentId, Incident>) {
    && |s.history| == |s.log| + 1
    && SameSeverities(incidents, s.incidents)
    && (forall k | 0 <= k < |s.log| :: Acceptable(s.history[k], incidents, s.log[k].req))
    && (forall k | 0 <= k < |s.history| :: Covers(SeverityOf(incidents), s.history[k]))
  }

  lemma AcceptableAnyway(core: Core, a: map<IncidentId, Incident>, b: map<IncidentId, Incident>, req: Request)
    requires Acceptable(core, b, req) && SameSeverities(a, b)
    ensures Acceptable(core, a, req)
  {
  }

  lemma WritesKnownIncidents(core: Core, incidents: map<IncidentId, Incident>, locks: map<Key, TxId>, id: TxId, t: Txn)
    requires TxInv(core, incidents, locks, id, t)
    ensures KnownIncidents(incidents, t.w.incidents)
  {
  }

  lemma StepKeepsSeverities(s: Sys, step: Step)
    requires SysInv(s) && Enabled(s, step)
    ensures SameSeverities(s.incidents, Apply(s, step).incidents)
  {
    hide TxInv, Exec, NextRow, Blocked, ForeignKeys, DistinctIds, NoOverride, LocksOwned, KnownIncidents, Acceptable;
    if step.Statement? {
      assert Known(s, step.id);
      WritesKnownIncidents(s.core, s.incidents, s.locks, step.id, s.txns[step.id]);
      KnownKeepSeverities(s.incidents, s.txns[step.id].w.incidents);
    }
  }

  lemma KnownKeepSeverities(incidents: map<IncidentId, Incident>, w: map<IncidentId, Incident>)
    requires KnownIncidents(incidents, w)
    ensures SameSeverities(incidents, incidents + w)
  {
  }

  lemma CoversAfter(s: Sys, incidents: map<IncidentId, Incident>)
    requires ForeignKeys(Db(s.core, s.incidents)) && SameSeverities(incidents, s.incidents)
    ensures Covers(SeverityOf(incidents), s.core)
  {
  }

  lemma LogStaysAcceptable(s: Sys, step: Step, incidents: map<IncidentId, Incident>)
    requires SysInv(s) && Enabled(s, step) && LogAcceptable(s, incidents) && s.history[|s.log|] == s.core
    ensures LogAcceptable(Apply(s, step), incidents)
  {
    var s' := Apply(s, step);
    StepExtendsHistory(s, step);
    StepKeepsSeverities(s, step);
    StepKeeps(s, step);
    CoversAfter(s', incidents);
    if !(s'.core == s.core && s'.history == s.history && s'.log == s.log) {
      var op: Op :| Acceptable(s.core, s.incidents, op.req) && s'.history == s.history + [s'.core] && s'.log == s.log + [op];
      AcceptableAnyway(s.core, incidents, s.incidents, op.req);
      ExtendAcceptable(s, s', op, incidents);
    }
  }

  lemma ExtendAcceptable(s: Sys, s': Sys, op: Op, incidents: map<IncidentId, Incident>)
    requires LogAcceptable(s, incidents) && s.history[|s.log|] == s.core && Acceptable(s.core, incidents, op.req)
    requires s'.history == s.history + [s'.core] && s'.log == s.log + [op]
    requires SameSeverities(incidents, s'.incidents) && Covers(SeverityOf(incidents), s'.core)
    ensures LogAcceptable(s', incidents)
  {
    forall k | 0 <= k < |s'.log| ensures Acceptable(s'.history[k], incidents, s'.log[k].req) {
      if k < |s.log| { assert Acceptable(s.history[k], incidents, s.log[k].req); }
    }
  }

  lemma {:induction false} LogsAreAcceptable(states: seq<Sys>, steps: seq<Step>, n: nat)
    requires SysRun(states, steps) && n <= |steps|
    ensures LogAcceptable(states[n], states[0].incidents)
  {
    if n == 0 {
      CoversAfter(states[0], states[0].incidents);
    } else {
      LogsAreAcceptable(states, steps, n - 1);
      SerialRefinement(states, steps, n - 1);
      LogStaysAcceptable(states[n - 1], steps[n - 1], states[0].incidents);
    }
  }

  /** Neither a new reservation nor the end of a dispatch. */
  predicate KeepsWorkload(req: Request) {
    !req.Reserve? && !req.ReserveOptimistic? && (req.Advance? ==> IsActiveDispatch(req.to))
  }

  /** In any interleaving that keeps the workload, at most three preemptions commit per dispatch active at the start. */
  lemma InterleavedPreemptionsBounded(states: seq<Sys>, steps: seq<Step>, n: nat)
    requires SysRun(states, steps) && n <= |steps|
    requires forall k | 0 <= k < |states[n].log| :: KeepsWorkload(states[n].log[k].req)
    ensures Preemptions(states[n].log, |states[n].log|)
            <= 3 * |Ranks(states[0].core.dispatches, SeverityOf(states[0].incidents))|
  {
    var s, incidents := states[n], states[0].incidents;
    SerialRefinement(states, steps, n);
    LogsAreAcceptable(states, steps, n);
    BoundFromHistory(s.history, s.log, incidents);
  }

  lemma BoundFromHistory(history: seq<Core>, log: seq<Op>, incidents: map<IncidentId, Incident>)
    requires CommittedRun(history, log)
    requires forall k | 0 <= k < |log| :: KeepsWorkload(log[k].req) && Acceptable(history[k], incidents, log[k].req)
    requires forall k | 0 <= k < |history| :: Covers(SeverityOf(incidents), history[k])
    ensures Preemptions(log, |log|) <= 3 * |Ranks(history[0].dispatches, SeverityOf(incidents))|
  {
    var sev := SeverityOf(incidents);
    forall k | 0 <= k < |log| ensures Covers(sev, history[k]) && PreemptsOrQuiet(history[k], sev, log[k].req) {
      QuietOrPreempts(history[k], incidents, log[k].req);
    }
    PreemptionCannotCycle(history, log, sev);
  }

  lemma QuietOrPreempts(core: Core, incidents: map<IncidentId, Incident>, req: Request)
    requires KeepsWorkload(req) && Acceptable(core, incidents, req)
    ensures PreemptsOrQuiet(core, SeverityOf(incidents), req)
  {
  }
}
