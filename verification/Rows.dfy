/**
 The rows of the dispatch subsystem, their lifecycle tables, and the effect of
 each single-row SQL statement the unit, incident and dispatch repositories issue.
 Identifiers are naturals: only their equality and their total order (used by the
 lock-ordering rule) matter.
 */
module Rows {
  type UnitId = nat
  type DispatchId = nat
  type IncidentId = nat
  type EventId = nat

  datatype UnitStatus = UnitAvailable | UnitReserved | UnitEnRoute | UnitOnScene | UnitOutOfService
  datatype DispatchStatus = DispatchReserved | DispatchEnRoute | DispatchOnScene | DispatchCompleted | DispatchCancelled
  datatype IncidentStatus = Reported | Verified | Dispatched | Resolved | Cancelled
  datatype Severity = Low | Medium | High | Critical
  datatype EventKind = Created | Completed | Rerouted | Preempted

  datatype Place = Place(lat: real, lng: real)

  datatype Unit = Unit(status: UnitStatus, version: int)
  datatype Dispatch = Dispatch(incident: IncidentId, unit: UnitId, status: DispatchStatus)
  datatype Incident = Incident(severity: Severity, status: IncidentStatus, place: Place, createdAt: int, reports: nat)
  datatype Event = Event(kind: EventKind, dispatch: DispatchId)

  // --- Dispatch lifecycle ---

  predicate CanTransitionDispatch(from: DispatchStatus, to: DispatchStatus) {
    match from
    case DispatchReserved => to == DispatchEnRoute || to == DispatchCancelled
    case DispatchEnRoute => to == DispatchOnScene || to == DispatchCancelled
    case DispatchOnScene => to == DispatchCompleted || to == DispatchCancelled
    case DispatchCompleted => false
    case DispatchCancelled => false
  }

  predicate IsActiveDispatch(s: DispatchStatus) {
    s == DispatchReserved || s == DispatchEnRoute || s == DispatchOnScene
  }

  function UnitStatusForDispatch(s: DispatchStatus): UnitStatus {
    match s
    case DispatchReserved => UnitReserved
    case DispatchEnRoute => UnitEnRoute
    case DispatchOnScene => UnitOnScene
    case DispatchCompleted => UnitAvailable
    case DispatchCancelled => UnitAvailable
  }

  /** A dispatch is active exactly while it can still move, and only then is its unit held. */
  lemma ActiveIffNotFinal(s: DispatchStatus)
    ensures IsActiveDispatch(s) <==> exists t :: CanTransitionDispatch(s, t)
    ensures IsActiveDispatch(s) <==> CanTransitionDispatch(s, DispatchCancelled)
    ensures IsActiveDispatch(s) <==> UnitStatusForDispatch(s) != UnitAvailable
    ensures forall a :: IsActiveDispatch(s) && CanTransitionDispatch(a, s) ==> IsActiveDispatch(a) && UnitStatusForDispatch(a) != UnitStatusForDispatch(s)
  {
    if IsActiveDispatch(s) { assert CanTransitionDispatch(s, DispatchCancelled); }
  }

  // --- Incident lifecycle (the operator's state machine) ---

  predicate CanTransitionIncident(from: IncidentStatus, to: IncidentStatus) {
    match from
    case Reported => to == Verified || to == Cancelled
    case Verified => to == Dispatched || to == Cancelled
    case Dispatched => to == Resolved || to == Cancelled
    case Resolved => false
    case Cancelled => false
  }

  predicate IsTerminal(s: IncidentStatus) { s == Resolved || s == Cancelled }

  /** Resolved and cancelled are exactly the statuses an operator cannot leave; cancelling is always possible before. */
  lemma TerminalIffNoWayOut(s: IncidentStatus)
    ensures IsTerminal(s) <==> forall t :: !CanTransitionIncident(s, t)
    ensures !IsTerminal(s) <==> CanTransitionIncident(s, Cancelled)
    ensures CanTransitionIncident(s, Resolved) <==> s == Dispatched
  {
    if !IsTerminal(s) { assert CanTransitionIncident(s, Cancelled); }
  }

  function SeverityRank(s: Severity): nat {
    match s
    case Low => 1
    case Medium => 2
    case High => 3
    case Critical => 4
  }

  // --- Unit statements ---

  /** UPDATE units SET status = ..., version = version + 1: every unit write bumps the version. */
  function SetUnitStatus(u: Unit, s: UnitStatus): Unit { Unit(s, u.version + 1) }

  function MarkReserved(u: Unit): Unit { SetUnitStatus(u, UnitReserved) }

  // --- Guarded incident statements ---

  predicate IsUndispatched(s: IncidentStatus) { s == Reported || s == Verified }

  /** MarkDispatchedTx: promote only from reported or verified. */
  function MarkDispatched(incidents: map<IncidentId, Incident>, i: IncidentId): map<IncidentId, Incident> {
    if i in incidents && IsUndispatched(incidents[i].status) then incidents[i := incidents[i].(status := Dispatched)] else incidents
  }

  /** ResolveIfDispatchedTx and RevertToVerifiedTx: move on only from dispatched. */
  function LeaveDispatched(incidents: map<IncidentId, Incident>, i: IncidentId, to: IncidentStatus): map<IncidentId, Incident> {
    if i in incidents && incidents[i].status == Dispatched then incidents[i := incidents[i].(status := to)] else incidents
  }

  // --- Dispatch table ---

  /** Some active dispatch holds `unit`; this is what the partial unique index looks up. */
  predicate Holds(dispatches: map<DispatchId, Dispatch>, d: DispatchId, unit: UnitId) {
    d in dispatches && dispatches[d].unit == unit && IsActiveDispatch(dispatches[d].status)
  }

  predicate Serves(dispatches: map<DispatchId, Dispatch>, d: DispatchId, incident: IncidentId) {
    d in dispatches && dispatches[d].incident == incident && IsActiveDispatch(dispatches[d].status)
  }

  predicate UnitFree(dispatches: map<DispatchId, Dispatch>, unit: UnitId) {
    forall d | d in dispatches :: !Holds(dispatches, d, unit)
  }

  predicate IncidentUnserved(dispatches: map<DispatchId, Dispatch>, incident: IncidentId) {
    forall d | d in dispatches :: !Serves(dispatches, d, incident)
  }

  /** SELECT count(*) of the incident's active dispatches. */
  function ActiveCount(dispatches: map<DispatchId, Dispatch>, incident: IncidentId): nat {
    |set d | d in dispatches && Serves(dispatches, d, incident)|
  }

  lemma CountIsZero(dispatches: map<DispatchId, Dispatch>, incident: IncidentId)
    ensures ActiveCount(dispatches, incident) == 0 <==> IncidentUnserved(dispatches, incident)
  {
    var s := set d | d in dispatches && Serves(dispatches, d, incident);
    if !IncidentUnserved(dispatches, incident) {
      var d :| d in dispatches && Serves(dispatches, d, incident);
      assert d in s;
    }
    if |s| != 0 {
      var d :| d in s;
    }
  }
}
