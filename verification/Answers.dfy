/**
 What each dispatch transaction answers and writes, told from the rows alone: which refusal is given for which
 table contents, in the order of the checks, and the rows a success leaves.
 */
module Answers {
  import opened Results
  import opened Rows
  import opened AtomicOps

  predicate Underway(s: DispatchStatus) { s in {DispatchReserved, DispatchEnRoute, DispatchOnScene} }

  predicate Over(s: IncidentStatus) { s in {Resolved, Cancelled} }

  /** Unit u is there, and free as its own row says. */
  predicate Available(units: map<UnitId, Unit>, u: UnitId) { u in units && units[u].status == UnitAvailable }

  predicate Open(incidents: map<IncidentId, Incident>, i: IncidentId) { i in incidents && !Over(incidents[i].status) }

  /** A dispatch under way, other than `except`, has the unit. */
  ghost predicate HeldBesides(dispatches: map<DispatchId, Dispatch>, u: UnitId, except: set<DispatchId>) {
    exists x | x in dispatches :: x !in except && dispatches[x].unit == u && Underway(dispatches[x].status)
  }

  /** A dispatch under way, other than `except`, serves the incident. */
  ghost predicate ServedBesides(dispatches: map<DispatchId, Dispatch>, i: IncidentId, except: set<DispatchId>) {
    exists x | x in dispatches :: x !in except && dispatches[x].incident == i && Underway(dispatches[x].status)
  }

  lemma HeldIff(dispatches: map<DispatchId, Dispatch>, u: UnitId)
    ensures UnitFree(dispatches, u) <==> !HeldBesides(dispatches, u, {})
  {
    if !UnitFree(dispatches, u) {
      var x :| x in dispatches && Holds(dispatches, x, u);
      assert x !in {} && dispatches[x].unit == u && Underway(dispatches[x].status);
    }
    if x :| x in dispatches && x !in {} && dispatches[x].unit == u && Underway(dispatches[x].status) {
      assert Holds(dispatches, x, u);
    }
  }

  lemma HeldByOthersIff(dispatches: map<DispatchId, Dispatch>, d: DispatchId, u: UnitId)
    requires d in dispatches
    ensures UnitFree(dispatches[d := Dispatch(dispatches[d].incident, dispatches[d].unit, DispatchCancelled)], u)
            <==> !HeldBesides(dispatches, u, {d})
  {
    FreeIffOnlyHolder(dispatches, d, u);
    if !HeldOnlyBy(dispatches, u, d) {
      var x :| x in dispatches && Holds(dispatches, x, u) && x != d;
      assert x !in {d} && dispatches[x].unit == u && Underway(dispatches[x].status);
    }
    if x :| x in dispatches && x !in {d} && dispatches[x].unit == u && Underway(dispatches[x].status) {
      assert Holds(dispatches, x, u) && x != d;
    }
  }

  // --- Reserving ---

  ghost predicate ReserveAnswer(db: Db, i: IncidentId, u: UnitId, r: Result<Dispatch, Error>) {
    var Core(units, dispatches, _) := db.core;
    && (r == Err(ErrUnitNotFound) <==> u !in units)
    && (r == Err(ErrIncidentNotFound) <==> Available(units, u) && i !in db.incidents)
    && (r == Err(ErrIncidentNotDispatchable) <==> Available(units, u) && i in db.incidents && Over(db.incidents[i].status))
    && (r == Err(ErrUnitNotAvailable) <==>
          u in units && (units[u].status != UnitAvailable || (Open(db.incidents, i) && HeldBesides(dispatches, u, {}))))
    && (r == Ok(Dispatch(i, u, DispatchReserved)) <==>
          Available(units, u) && Open(db.incidents, i) && !HeldBesides(dispatches, u, {}))
  }

  ghost predicate ReserveWrites(db: Db, i: IncidentId, u: UnitId, n: DispatchId, e: EventId, after: Db)
    requires u in db.core.units && i in db.incidents
  {
    after == Db(Core(db.core.units[u := Unit(UnitReserved, db.core.units[u].version + 1)],
                     db.core.dispatches[n := Dispatch(i, u, DispatchReserved)],
                     db.core.events[e := Event(Created, n)]),
                db.incidents[i := db.incidents[i].(status := Dispatched)])
  }

  lemma ReserveIsAnswered(db: Db, i: IncidentId, u: UnitId, n: DispatchId, e: EventId)
    ensures var r := RunReserve(db, i, u, n, e);
            && ReserveAnswer(db, i, u, if r.Ok? then Ok(Dispatch(i, u, DispatchReserved)) else Err(r.error))
            && (r.Ok? ==> u in db.core.units && i in db.incidents && ReserveWrites(db, i, u, n, e, r.value))
  {
    HeldIff(db.core.dispatches, u);
    hide UnitFree, HeldBesides;
    MarksOpen(db.incidents, i);
  }

  /** Marking an open incident leaves it dispatched whatever it was. */
  lemma MarksOpen(incidents: map<IncidentId, Incident>, i: IncidentId)
    ensures Open(incidents, i) ==> MarkDispatched(incidents, i) == incidents[i := incidents[i].(status := Dispatched)]
  {
  }

  // --- Advancing ---

  /** The phases of a dispatch in their order; cancelled is none of them. */
  function Phase(s: DispatchStatus): nat {
    match s
    case DispatchReserved => 0
    case DispatchEnRoute => 1
    case DispatchOnScene => 2
    case DispatchCompleted => 3
    case DispatchCancelled => 4
  }

  /** Under way, and one phase on or cancelled. */
  predicate NextPhase(from: DispatchStatus, to: DispatchStatus) {
    Underway(from) && (to == DispatchCancelled || Phase(to) == Phase(from) + 1)
  }

  lemma TransitionIsNextPhase(from: DispatchStatus, to: DispatchStatus)
    ensures CanTransitionDispatch(from, to) <==> NextPhase(from, to)
  {
  }

  /** What the unit of a dispatch that has moved to `to` is doing. */
  function Doing(to: DispatchStatus): UnitStatus {
    if to == DispatchEnRoute then UnitEnRoute else if to == DispatchOnScene then UnitOnScene
    else if to == DispatchReserved then UnitReserved else UnitAvailable
  }

  lemma ServedIff(dispatches: map<DispatchId, Dispatch>, d: DispatchId, row: Dispatch, i: IncidentId)
    requires !Underway(row.status)
    ensures IncidentUnserved(dispatches[d := row], i) <==> !ServedBesides(dispatches, i, {d})
  {
    var after := dispatches[d := row];
    if !IncidentUnserved(after, i) {
      var x :| x in after && Serves(after, x, i);
      assert x in dispatches && x !in {d} && dispatches[x].incident == i && Underway(dispatches[x].status);
    }
    if x :| x in dispatches && x !in {d} && dispatches[x].incident == i && Underway(dispatches[x].status) {
      assert Serves(after, x, i);
    }
  }

  ghost predicate AdvanceAnswer(db: Db, d: DispatchId, to: DispatchStatus, r: Result<Dispatch, Error>) {
    var dispatches := db.core.dispatches;
    && (r == Err(ErrDispatchNotFound) <==> d !in dispatches)
    && (r == Err(ErrIllegalDispatchTransition) <==> d in dispatches && !NextPhase(dispatches[d].status, to))
    && (r.Ok? <==> d in dispatches && NextPhase(dispatches[d].status, to))
    && (r.Ok? ==> r.value == Dispatch(dispatches[d].incident, dispatches[d].unit, to))
  }

  ghost predicate AdvanceWrites(db: Db, d: DispatchId, to: DispatchStatus, e: EventId, after: Db)
    requires d in db.core.dispatches
  {
    var Dispatch(i, u, _) := db.core.dispatches[d];
    && u in db.core.units && i in db.incidents
    && after.core == Core(db.core.units[u := Unit(Doing(to), db.core.units[u].version + 1)],
                          db.core.dispatches[d := Dispatch(i, u, to)],
                          if to == DispatchCompleted then db.core.events[e := Event(Completed, d)] else db.core.events)
    && after.incidents ==
         if to == DispatchCompleted && db.incidents[i].status == Dispatched && !ServedBesides(db.core.dispatches, i, {d})
         then db.incidents[i := db.incidents[i].(status := Resolved)] else db.incidents
  }

  lemma AdvanceIsAnswered(db: Db, d: DispatchId, to: DispatchStatus, e: EventId)
    requires ForeignKeys(db)
    ensures var r := RunAdvance(db, d, to, e);
            && AdvanceAnswer(db, d, to, if r.Ok? then Ok(r.value.core.dispatches[d]) else Err(r.error))
            && (r.Ok? ==> d in db.core.dispatches && AdvanceWrites(db, d, to, e, r.value))
  {
    if d in db.core.dispatches {
      var row := db.core.dispatches[d];
      TransitionIsNextPhase(row.status, to);
      if !Underway(to) { ServedIff(db.core.dispatches, d, Dispatch(row.incident, row.unit, to), row.incident); }
      hide ServedBesides, IncidentUnserved, CanTransitionDispatch;
    }
  }

  // --- Reassigning ---

  ghost predicate ReassignAnswer(db: Db, d: DispatchId, i: IncidentId, u: UnitId, r: Result<Dispatch, Error>) {
    var Core(units, dispatches, _) := db.core;
    if d !in dispatches then r == Err(ErrDispatchNotFound)
    else if !Underway(dispatches[d].status) then r == Err(ErrIllegalDispatchTransition)
    else
      var moves := dispatches[d].unit != u;
      var locked := moves ==> Available(units, u);
      && (r == Err(ErrUnitNotFound) <==> moves && u !in units)
      && (r == Err(ErrIncidentNotFound) <==> locked && i !in db.incidents)
      && (r == Err(ErrIncidentNotDispatchable) <==> locked && i in db.incidents && Over(db.incidents[i].status))
      && (r == Err(ErrUnitNotAvailable) <==>
            || (moves && u in units && units[u].status != UnitAvailable)
            || (locked && Open(db.incidents, i) && HeldBesides(dispatches, u, {d})))
      && (r == Ok(Dispatch(i, u, DispatchReserved)) <==> locked && Open(db.incidents, i) && !HeldBesides(dispatches, u, {d}))
  }

  ghost predicate ReassignWrites(db: Db, d: DispatchId, i: IncidentId, u: UnitId, kind: EventKind, n: DispatchId, e: EventId, after: Db)
    requires d in db.core.dispatches
  {
    var Core(units, dispatches, events) := db.core;
    var Dispatch(prior, held, _) := dispatches[d];
    && held in units && u in units && i in db.incidents && prior in db.incidents
    && after.core == Core(if held == u then units
                          else units[held := Unit(UnitAvailable, units[held].version + 1)][u := Unit(UnitReserved, units[u].version + 1)],
                          dispatches[d := Dispatch(prior, held, DispatchCancelled)][n := Dispatch(i, u, DispatchReserved)],
                          events[e := Event(kind, n)])
    && after.incidents ==
         var marked := db.incidents[i := db.incidents[i].(status := Dispatched)];
         if prior != i && db.incidents[prior].status == Dispatched && !ServedBesides(dispatches, prior, {d})
         then marked[prior := db.incidents[prior].(status := Verified)] else marked
  }

  lemma ReassignIsAnswered(db: Db, d: DispatchId, i: IncidentId, u: UnitId, kind: EventKind, n: DispatchId, e: EventId)
    requires ForeignKeys(db) && n !in db.core.dispatches
    ensures var r := RunReassign(db, d, i, u, kind, n, e);
            && ReassignAnswer(db, d, i, u, if r.Ok? then Ok(Dispatch(i, u, DispatchReserved)) else Err(r.error))
            && (r.Ok? ==> d in db.core.dispatches && ReassignWrites(db, d, i, u, kind, n, e, r.value))
  {
    if d in db.core.dispatches {
      var row := db.core.dispatches[d];
      var ended := Dispatch(row.incident, row.unit, DispatchCancelled);
      HeldByOthersIff(db.core.dispatches, d, u);
      MarksOpen(db.incidents, i);
      if row.incident != i { NewRowServesAnother(db.core.dispatches[d := ended], n, Dispatch(i, u, DispatchReserved), row.incident); }
      ServedIff(db.core.dispatches, d, ended, row.incident);
      hide ServedBesides, HeldBesides, IncidentUnserved, UnitFree;
    }
  }

  lemma NewRowServesAnother(dispatches: map<DispatchId, Dispatch>, n: DispatchId, row: Dispatch, i: IncidentId)
    requires n !in dispatches && row.incident != i
    ensures IncidentUnserved(dispatches[n := row], i) <==> IncidentUnserved(dispatches, i)
  {
    assert forall x | x in dispatches :: Serves(dispatches[n := row], x, i) == Serves(dispatches, x, i);
  }

  // --- An operator's changes ---

  /** The stages of an incident in their order; cancelled is none of them. */
  function IncidentStage(s: IncidentStatus): nat {
    match s
    case Reported => 0
    case Verified => 1
    case Dispatched => 2
    case Resolved => 3
    case Cancelled => 4
  }

  lemma OperatorMovesOn(from: IncidentStatus, to: IncidentStatus)
    ensures CanTransitionIncident(from, to) <==> !Over(from) && (to == Cancelled || IncidentStage(to) == IncidentStage(from) + 1)
  {
  }

  ghost predicate OperatorAnswer(db: Db, i: IncidentId, to: IncidentStatus, r: Result<Db, Error>) {
    && (r == Err(ErrIncidentNotFound) <==> i !in db.incidents)
    && (r == Err(ErrIllegalTransition) <==>
          i in db.incidents && (Over(db.incidents[i].status)
                                || (to != Cancelled && IncidentStage(to) != IncidentStage(db.incidents[i].status) + 1)))
    && (r.Err? || (i in db.incidents && r.value == db.(incidents := db.incidents[i := db.incidents[i].(status := to)])))
  }

  lemma OperatorIsAnswered(db: Db, i: IncidentId, to: IncidentStatus)
    ensures OperatorAnswer(db, i, to, RunOperator(db, i, to))
  {
    if i in db.incidents { OperatorMovesOn(db.incidents[i].status, to); }
    hide CanTransitionIncident;
  }
}
