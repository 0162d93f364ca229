/**
 Strict severity stops preemption from cycling: the summed severity of the
 incidents being served rises with every preemption and nothing else short of a
 new reservation or a finished dispatch moves it.
 */
module Preemption {
  import opened Rows
  import opened MapSums
  import opened AtomicOps

  type Severities = map<IncidentId, Severity>

  /** The severity rank each active dispatch is serving. */
  function Ranks(dispatches: map<DispatchId, Dispatch>, sev: Severities): map<DispatchId, nat> {
    map d | d in dispatches && IsActiveDispatch(dispatches[d].status) && dispatches[d].incident in sev ::
      SeverityRank(sev[dispatches[d].incident])
  }

  ghost function Potential(core: Core, sev: Severities): nat { Sum(Ranks(core.dispatches, sev)) }

  /** What Preempt asks for: the victim's own unit, for a strictly more severe incident. */
  predicate IsPreemption(core: Core, sev: Severities, req: Request) {
    && req.Reassign? && req.kind == Preempted && req.dispatch in core.dispatches
    && var victim := core.dispatches[req.dispatch];
       && req.unit == victim.unit && victim.incident in sev && req.incident in sev
       && SeverityRank(sev[victim.incident]) < SeverityRank(sev[req.incident])
  }

  /** What Reroute asks for: the same incident, another unit. */
  predicate IsReroute(core: Core, req: Request) {
    && req.Reassign? && req.kind == Rerouted && req.dispatch in core.dispatches
    && req.incident == core.dispatches[req.dispatch].incident && req.unit != core.dispatches[req.dispatch].unit
  }

  predicate IsQuiet(core: Core, sev: Severities, req: Request) {
    || IsReroute(core, req)
    || (req.Advance? && IsActiveDispatch(req.to))
    || req.Override? || req.Operator?
  }

  lemma ReassignMovesRank(core: Core, op: Op, sev: Severities)
    requires Guard(core, op.req) && FreshIds(core, op) && op.req.Reassign?
    requires core.dispatches[op.req.dispatch].incident in sev && op.req.incident in sev
    ensures Potential(Effect(core, op), sev) + SeverityRank(sev[core.dispatches[op.req.dispatch].incident])
            == Potential(core, sev) + SeverityRank(sev[op.req.incident])
    ensures |Ranks(Effect(core, op).dispatches, sev)| == |Ranks(core.dispatches, sev)|
  {
    var Reassign(d, i, u, _) := op.req;
    ReassignEffect(core, op);
    hide Effect;
    RanksSwap(core.dispatches, d, op.newDispatch, Dispatch(i, u, DispatchReserved), sev);
  }

  /** One active row ends and one begins: the sum moves by the difference of the two ranks. */
  lemma RanksSwap(dispatches: map<DispatchId, Dispatch>, d: DispatchId, n: DispatchId, row: Dispatch, sev: Severities)
    requires d in dispatches && n !in dispatches && IsActiveDispatch(dispatches[d].status) && IsActiveDispatch(row.status)
    requires dispatches[d].incident in sev && row.incident in sev
    ensures var before := Ranks(dispatches, sev);
            var after := Ranks(dispatches[d := dispatches[d].(status := DispatchCancelled)][n := row], sev);
            && Sum(after) + SeverityRank(sev[dispatches[d].incident]) == Sum(before) + SeverityRank(sev[row.incident])
            && |after| == |before|
  {
    hide SeverityRank;
    var before := Ranks(dispatches, sev);
    var rest := before - {d};
    RanksAfterSwap(dispatches, d, n, row, sev);
    hide Ranks;
    SumRemove(before, d);
    SumInsert(rest, n, SeverityRank(sev[row.incident]));
    assert before.Keys == rest.Keys + {d};
  }

  lemma RanksAfterSwap(dispatches: map<DispatchId, Dispatch>, d: DispatchId, n: DispatchId, row: Dispatch, sev: Severities)
    requires d in dispatches && n !in dispatches && IsActiveDispatch(dispatches[d].status) && IsActiveDispatch(row.status)
    requires dispatches[d].incident in sev && row.incident in sev
    ensures var before := Ranks(dispatches, sev);
            && d in before && before[d] == SeverityRank(sev[dispatches[d].incident]) && n !in before - {d}
            && Ranks(dispatches[d := dispatches[d].(status := DispatchCancelled)][n := row], sev)
               == (before - {d})[n := SeverityRank(sev[row.incident])]
  {
    hide SeverityRank;
  }

  /** A row that stays on its incident, and as active as it was, keeps its rank. */
  lemma RanksStay(dispatches: map<DispatchId, Dispatch>, d: DispatchId, row: Dispatch, sev: Severities)
    requires d in dispatches && row.incident == dispatches[d].incident
    requires IsActiveDispatch(row.status) == IsActiveDispatch(dispatches[d].status)
    ensures Ranks(dispatches[d := row], sev) == Ranks(dispatches, sev)
  {
  }

  lemma PreemptionRaises(core: Core, op: Op, sev: Severities)
    requires Guard(core, op.req) && FreshIds(core, op) && IsPreemption(core, sev, op.req)
    ensures Potential(Effect(core, op), sev) > Potential(core, sev)
    ensures |Ranks(Effect(core, op).dispatches, sev)| == |Ranks(core.dispatches, sev)|
  {
    ReassignMovesRank(core, op, sev);
  }

  lemma AdvanceKeepsRanks(core: Core, op: Op, sev: Severities)
    requires Guard(core, op.req) && op.req.Advance? && IsQuiet(core, sev, op.req)
    ensures Ranks(Effect(core, op).dispatches, sev) == Ranks(core.dispatches, sev)
  {
    var Advance(d, to) := op.req;
    AdvanceEffect(core, op);
    hide Effect;
    RanksStay(core.dispatches, d, core.dispatches[d].(status := to), sev);
  }

  lemma QuietKeepsPotential(core: Core, op: Op, sev: Severities)
    requires Guard(core, op.req) && FreshIds(core, op) && IsQuiet(core, sev, op.req)
    requires forall d | d in core.dispatches :: core.dispatches[d].incident in sev
    ensures Potential(Effect(core, op), sev) == Potential(core, sev)
    ensures |Ranks(Effect(core, op).dispatches, sev)| == |Ranks(core.dispatches, sev)|
  {
    if op.req.Reassign? {
      ReassignMovesRank(core, op, sev);
    } else if op.req.Advance? {
      AdvanceKeepsRanks(core, op, sev);
    } else {
      assert Effect(core, op).dispatches == core.dispatches;
    }
  }

  // --- Whole runs ---

  ghost predicate CommittedStep(core: Core, op: Op, after: Core) {
    Guard(core, op.req) && FreshIds(core, op) && after == Effect(core, op)
  }

  /** states[k] becomes states[k+1] by the committed operation ops[k]. */
  ghost predicate CommittedRun(states: seq<Core>, ops: seq<Op>) {
    |states| == |ops| + 1 && forall k | 0 <= k < |ops| :: CommittedStep(states[k], ops[k], states[k + 1])
  }

  /** Severities are known for every incident a dispatch row names. */
  ghost predicate Covers(sev: Severities, core: Core) {
    forall d | d in core.dispatches :: core.dispatches[d].incident in sev
  }

  predicate PreemptsOrQuiet(core: Core, sev: Severities, req: Request) {
    IsPreemption(core, sev, req) || IsQuiet(core, sev, req)
  }

  function Preemptions(ops: seq<Op>, n: nat): nat
    requires n <= |ops|
  {
    if n == 0 then 0
    else Preemptions(ops, n - 1) + if ops[n - 1].req.Reassign? && ops[n - 1].req.kind == Preempted then 1 else 0
  }

  lemma StepMovesPotential(core: Core, op: Op, after: Core, sev: Severities)
    requires CommittedStep(core, op, after) && PreemptsOrQuiet(core, sev, op.req) && Covers(sev, core)
    ensures Potential(after, sev) >= Potential(core, sev) + if op.req.Reassign? && op.req.kind == Preempted then 1 else 0
    ensures |Ranks(after.dispatches, sev)| == |Ranks(core.dispatches, sev)|
  {
    if IsPreemption(core, sev, op.req) {
      PreemptionRaises(core, op, sev);
    } else {
      QuietKeepsPotential(core, op, sev);
    }
  }

  lemma {:induction false} RisesWithPreemptions(pots: seq<nat>, sizes: seq<nat>, ops: seq<Op>, n: nat)
    requires |pots| == |sizes| == |ops| + 1 && n <= |ops|
    requires forall k | 0 <= k < |ops| :: pots[k + 1] >= pots[k] + Preemptions(ops, k + 1) - Preemptions(ops, k)
    requires forall k | 0 <= k < |ops| :: sizes[k + 1] == sizes[k]
    ensures pots[n] >= pots[0] + Preemptions(ops, n) && sizes[n] == sizes[0]
  {
    if n > 0 {
      RisesWithPreemptions(pots, sizes, ops, n - 1);
    }
  }

  lemma StepAt(states: seq<Core>, ops: seq<Op>, sev: Severities, k: nat)
    requires CommittedRun(states, ops) && k < |ops|
    requires Covers(sev, states[k]) && PreemptsOrQuiet(states[k], sev, ops[k].req)
    ensures Potential(states[k + 1], sev) >= Potential(states[k], sev) + Preemptions(ops, k + 1) - Preemptions(ops, k)
    ensures |Ranks(states[k + 1].dispatches, sev)| == |Ranks(states[k].dispatches, sev)|
  {
    StepMovesPotential(states[k], ops[k], states[k + 1], sev);
  }

  lemma PotentialCountsPreemptions(states: seq<Core>, ops: seq<Op>, sev: Severities)
    requires CommittedRun(states, ops)
    requires forall k | 0 <= k < |ops| :: Covers(sev, states[k]) && PreemptsOrQuiet(states[k], sev, ops[k].req)
    ensures Potential(states[|ops|], sev) >= Potential(states[0], sev) + Preemptions(ops, |ops|)
    ensures |Ranks(states[|ops|].dispatches, sev)| == |Ranks(states[0].dispatches, sev)|
  {
    hide Potential, Ranks, Covers, PreemptsOrQuiet, CommittedStep;
    var pots := seq(|states|, k requires 0 <= k < |states| => Potential(states[k], sev));
    var sizes := seq(|states|, k requires 0 <= k < |states| => |Ranks(states[k].dispatches, sev)|);
    forall k | 0 <= k < |ops|
      ensures pots[k + 1] >= pots[k] + Preemptions(ops, k + 1) - Preemptions(ops, k) && sizes[k + 1] == sizes[k]
    {
      StepAt(states, ops, sev, k);
    }
    RisesWithPreemptions(pots, sizes, ops, |ops|);
  }

  lemma RanksBound(core: Core, sev: Severities)
    ensures |Ranks(core.dispatches, sev)| <= Potential(core, sev) <= 4 * |Ranks(core.dispatches, sev)|
  {
    SumBounds(Ranks(core.dispatches, sev), 1, 4);
  }

  /** With no new reservation and no finished dispatch, at most three preemptions per active dispatch. */
  lemma PreemptionCannotCycle(states: seq<Core>, ops: seq<Op>, sev: Severities)
    requires CommittedRun(states, ops)
    requires forall k | 0 <= k < |ops| :: Covers(sev, states[k]) && PreemptsOrQuiet(states[k], sev, ops[k].req)
    ensures Preemptions(ops, |ops|) <= 3 * |Ranks(states[0].dispatches, sev)|
  {
    PotentialCountsPreemptions(states, ops, sev);
    RanksBound(states[0], sev);
    RanksBound(states[|ops|], sev);
  }
}
