/**
 The lifecycle of a dispatch over histories and interleavings: reserved, en route, on scene, completed, one phase at
 a time, unless it is cancelled.
 */
module Phases {
  import opened Rows
  import opened AtomicOps
  import opened Answers
  import opened DispatchInvariants
  import opened Preemption
  import opened Interleaving
  import opened SerialRuns

  /** An advance of an existing dispatch is accepted exactly if it is under way and goes one phase on, or is cancelled. */
  lemma AdvanceAcceptedIff(db: Db, d: DispatchId, to: DispatchStatus, e: EventId)
    requires ForeignKeys(db) && d in db.core.dispatches
    ensures var from := db.core.dispatches[d].status;
            RunAdvance(db, d, to, e).Ok? <==>
              from in {DispatchReserved, DispatchEnRoute, DispatchOnScene} && (to == DispatchCancelled || Phase(to) == Phase(from) + 1)
  {
    AdvanceIsAnswered(db, d, to, e);
  }

  /** What one committed operation can do to a dispatch row. */
  predicate MovesOn(before: Dispatch, after: Dispatch) {
    after == before || (after == before.(status := after.status) && NextPhase(before.status, after.status))
  }

  lemma StepMovesOn(core: Core, op: Op, after: Core, d: DispatchId)
    requires CommittedStep(core, op, after) && d in core.dispatches
    ensures d in after.dispatches && MovesOn(core.dispatches[d], after.dispatches[d])
    ensures op.req.Advance? && op.req.dispatch == d ==>
              after.dispatches[d].status == op.req.to && NextPhase(core.dispatches[d].status, op.req.to)
  {
    TransitionIsNextPhase(core.dispatches[d].status, after.dispatches[d].status);
    if op.req.Advance? { AdvanceEffect(core, op); TransitionIsNextPhase(core.dispatches[d].status, op.req.to); }
    else if op.req.Reassign? { ReassignEffect(core, op); }
    else if Inserts(op.req) { InsertEffect(core, op); }
    else { OverrideEffect(core, op); }
    hide Effect, CanTransitionDispatch, HeldOnlyBy, UnitFree;
  }

  lemma StepStartsReserved(core: Core, op: Op, after: Core, d: DispatchId)
    requires CommittedStep(core, op, after) && d !in core.dispatches && d in after.dispatches
    ensures after.dispatches[d].status == DispatchReserved
  {
    if op.req.Advance? { AdvanceEffect(core, op); }
    else if op.req.Reassign? { ReassignEffect(core, op); }
    else if Inserts(op.req) { InsertEffect(core, op); }
    else { OverrideEffect(core, op); }
    hide Effect, HeldOnlyBy, UnitFree;
  }

  predicate InPhase(core: Core, d: DispatchId, q: nat) { d in core.dispatches && Phase(core.dispatches[d].status) == q }

  /** Up to a state in which dispatch d is not cancelled it has stood in every phase from its first to its present one. */
  lemma {:induction false} PhasesClimb(history: seq<Core>, log: seq<Op>, m: nat, n: nat, d: DispatchId, q: nat) returns (k: nat)
    requires CommittedRun(history, log) && m <= n <= |log| && d in history[m].dispatches
    requires d in history[n].dispatches ==> history[n].dispatches[d].status != DispatchCancelled
    requires d in history[n].dispatches ==> Phase(history[m].dispatches[d].status) <= q <= Phase(history[n].dispatches[d].status)
    ensures m <= k <= n && InPhase(history[k], d, q)
    decreases n
  {
    hide CommittedStep, MovesOn;
    DispatchesStay(history, log, m, n, d);
    k := n;
    if q < Phase(history[n].dispatches[d].status) {
      if m == n {
        assert false;
      } else {
        DispatchesStay(history, log, m, n - 1, d);
        assert CommittedStep(history[n - 1], log[n - 1], history[n]);
        StepMovesOn(history[n - 1], log[n - 1], history[n], d);
        OneBelow(history[n - 1].dispatches[d], history[n].dispatches[d]);
        k := PhasesClimb(history, log, m, n - 1, d, q);
      }
    }
  }

  lemma OneBelow(before: Dispatch, after: Dispatch)
    requires MovesOn(before, after) && after.status != DispatchCancelled
    ensures before.status != DispatchCancelled && Phase(after.status) <= Phase(before.status) + 1
  {
  }

  /** The state in which a dispatch first stands, if it is not there from the start. */
  lemma {:induction false} FirstStands(history: seq<Core>, log: seq<Op>, n: nat, d: DispatchId) returns (k: nat)
    requires CommittedRun(history, log) && n <= |log| && d !in history[0].dispatches && d in history[n].dispatches
    ensures 0 < k <= n && InPhase(history[k], d, 0)
    decreases n
  {
    hide CommittedStep;
    if d in history[n - 1].dispatches {
      k := FirstStands(history, log, n - 1, d);
    } else {
      k := n;
      assert CommittedStep(history[n - 1], log[n - 1], history[n]);
      StepStartsReserved(history[n - 1], log[n - 1], history[n], d);
    }
  }

  /** Committed as reserved, then en route, then on scene, then completed. */
  ghost predicate WentThrough(history: seq<Core>, n: nat, d: DispatchId) {
    exists a, b, c | 0 <= a < b < c < n < |history| ::
      StatusIs(history[a], d, DispatchReserved) && StatusIs(history[b], d, DispatchEnRoute)
      && StatusIs(history[c], d, DispatchOnScene) && StatusIs(history[n], d, DispatchCompleted)
  }

  predicate StatusIs(core: Core, d: DispatchId, s: DispatchStatus) { d in core.dispatches && core.dispatches[d].status == s }

  /** Over a serial run: whatever was completed in it has been committed in each phase before, in order. */
  lemma CompletedWentThrough(history: seq<Core>, log: seq<Op>, n: nat, d: DispatchId)
    requires CommittedRun(history, log) && n <= |log| && d !in history[0].dispatches && StatusIs(history[n], d, DispatchCompleted)
    ensures WentThrough(history, n, d)
  {
    hide CommittedStep;
    var born := FirstStands(history, log, n, d);
    var c := PhasesClimb(history, log, born, n, d, 2);
    var b := PhasesClimb(history, log, born, c, d, 1);
    var a := PhasesClimb(history, log, born, b, d, 0);
    assert StatusIs(history[a], d, DispatchReserved) && StatusIs(history[b], d, DispatchEnRoute) && StatusIs(history[c], d, DispatchOnScene);
  }

  /** Over any interleaving: the committed states show every phase of a completed dispatch, in order. */
  lemma CompletedWentThroughAnyway(states: seq<Sys>, steps: seq<Step>, n: nat, d: DispatchId)
    requires SysRun(states, steps) && n <= |steps|
    requires d !in states[0].core.dispatches && StatusIs(states[n].core, d, DispatchCompleted)
    ensures WentThrough(states[n].history, |states[n].log|, d)
  {
    hide SysInv, CommittedStep, Apply, Enabled;
    SerialRefinement(states, steps, n);
    CompletedWentThrough(states[n].history, states[n].log, |states[n].log|, d);
  }

  /** Every advance that commits, in any interleaving, raises the phase of its dispatch by one or cancels it. */
  lemma CommittedAdvancesMoveOn(states: seq<Sys>, steps: seq<Step>, n: nat, k: nat)
    requires SysRun(states, steps) && n <= |steps| && k < |states[n].log| && states[n].log[k].req.Advance?
    ensures |states[n].history| == |states[n].log| + 1
    ensures var d, to := states[n].log[k].req.dispatch, states[n].log[k].req.to;
            && StatusIs(states[n].history[k + 1], d, to)
            && d in states[n].history[k].dispatches && NextPhase(states[n].history[k].dispatches[d].status, to)
  {
    hide SysInv, CommittedStep, Apply, Enabled;
    SerialRefinement(states, steps, n);
    var history, log := states[n].history, states[n].log;
    assert CommittedStep(history[k], log[k], history[k + 1]);
    AdvanceFinds(history[k], log[k], history[k + 1]);
    StepMovesOn(history[k], log[k], history[k + 1], log[k].req.dispatch);
  }

  lemma AdvanceFinds(core: Core, op: Op, after: Core)
    requires CommittedStep(core, op, after) && op.req.Advance?
    ensures op.req.dispatch in core.dispatches
  {
  }

  /** A history of whole databases is a serial run of their dispatch tables. */
  lemma HistoryIsSerial(dbs: seq<Db>, ops: seq<Op>)
    requires History(dbs, ops)
    ensures CommittedRun(seq(|dbs|, k requires 0 <= k < |dbs| => dbs[k].core), ops)
  {
    hide Guard, Effect, Run;
    forall k | 0 <= k < |ops| ensures CommittedStep(dbs[k].core, ops[k], dbs[k + 1].core) {
      RunIsEffect(dbs[k], ops[k]);
    }
  }
}
