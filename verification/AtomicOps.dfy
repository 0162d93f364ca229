/**
 The dispatch transactions as atomic operations: the guard each one checks, the
 rows it writes, and the error it reports when the guard fails. This is the
 reference the step-by-step repository methods and the statement-level
 interleaving model are both compared with.
 */
module AtomicOps {
  import opened Results
  import opened Rows

  datatype Error =
    | ErrUnitNotFound
    | ErrUnitNotAvailable
    | ErrIncidentNotFound
    | ErrIncidentNotDispatchable
    | ErrReservationConflict
    | ErrDispatchNotFound
    | ErrIllegalDispatchTransition
    | ErrIllegalTransition
    | ErrNoReassignCandidate

  /** The tables every dispatch transaction must agree on. */
  datatype Core = Core(units: map<UnitId, Unit>, dispatches: map<DispatchId, Dispatch>, events: map<EventId, Event>)
  datatype Db = Db(core: Core, incidents: map<IncidentId, Incident>)

  datatype Request =
    | Reserve(incident: IncidentId, unit: UnitId)
    | ReserveOptimistic(incident: IncidentId, unit: UnitId)
    | Advance(dispatch: DispatchId, to: DispatchStatus)
    | Reassign(dispatch: DispatchId, incident: IncidentId, unit: UnitId, kind: EventKind)
    | Override(unit: UnitId, status: UnitStatus)
    | Operator(incident: IncidentId, target: IncidentStatus)

  /** A request together with the identifiers the database generates for it. */
  datatype Op = Op(req: Request, newDispatch: DispatchId, event: EventId)

  predicate FreshIds(core: Core, op: Op) {
    op.newDispatch !in core.dispatches && op.event !in core.events
  }

  // --- Rows written ---

  predicate Inserts(req: Request) { req.Reserve? || req.ReserveOptimistic? || req.Reassign? }

  /** No active dispatch but `except` holds the unit: what the partial unique index demands of an insert. */
  predicate HeldOnlyBy(dispatches: map<DispatchId, Dispatch>, unit: UnitId, except: DispatchId) {
    forall d | d in dispatches :: Holds(dispatches, d, unit) ==> d == except
  }

  predicate Guard(core: Core, req: Request) {
    match req
    case Reserve(_, u) => u in core.units && core.units[u].status == UnitAvailable && UnitFree(core.dispatches, u)
    case ReserveOptimistic(_, u) => u in core.units && core.units[u].status == UnitAvailable && UnitFree(core.dispatches, u)
    case Advance(d, to) =>
      && d in core.dispatches && CanTransitionDispatch(core.dispatches[d].status, to)
      && core.dispatches[d].unit in core.units
    case Reassign(d, _, u, _) =>
      && d in core.dispatches && IsActiveDispatch(core.dispatches[d].status)
      && core.dispatches[d].unit in core.units && u in core.units
      && (u != core.dispatches[d].unit ==> core.units[u].status == UnitAvailable)
      && HeldOnlyBy(core.dispatches, u, d)
    case Override(u, _) => u in core.units
    case Operator(_, _) => true
  }

  function UnitWrites(core: Core, req: Request): map<UnitId, Unit>
    requires Guard(core, req)
  {
    match req
    case Reserve(_, u) => map[u := MarkReserved(core.units[u])]
    case ReserveOptimistic(_, u) => map[u := MarkReserved(core.units[u])]
    case Advance(d, to) =>
      var u := core.dispatches[d].unit;
      map[u := SetUnitStatus(core.units[u], UnitStatusForDispatch(to))]
    case Reassign(d, _, u, _) =>
      var prior := core.dispatches[d].unit;
      if u == prior then map[] else map[prior := SetUnitStatus(core.units[prior], UnitAvailable), u := MarkReserved(core.units[u])]
    case Override(u, s) => map[u := SetUnitStatus(core.units[u], s)]
    case Operator(_, _) => map[]
  }

  function DispatchWrites(core: Core, op: Op): map<DispatchId, Dispatch>
    requires Guard(core, op.req)
  {
    match op.req
    case Reserve(i, u) => map[op.newDispatch := Dispatch(i, u, DispatchReserved)]
    case ReserveOptimistic(i, u) => map[op.newDispatch := Dispatch(i, u, DispatchReserved)]
    case Advance(d, to) => map[d := core.dispatches[d].(status := to)]
    case Reassign(d, i, u, _) =>
      map[d := core.dispatches[d].(status := DispatchCancelled), op.newDispatch := Dispatch(i, u, DispatchReserved)]
    case Override(_, _) => map[]
    case Operator(_, _) => map[]
  }

  function EventWrites(op: Op): map<EventId, Event> {
    match op.req
    case Reserve(_, _) => map[op.event := Event(Created, op.newDispatch)]
    case ReserveOptimistic(_, _) => map[op.event := Event(Created, op.newDispatch)]
    case Advance(d, to) => if to == DispatchCompleted then map[op.event := Event(Completed, d)] else map[]
    case Reassign(_, _, _, k) => map[op.event := Event(k, op.newDispatch)]
    case Override(_, _) => map[]
    case Operator(_, _) => map[]
  }

  function Effect(core: Core, op: Op): Core
    requires Guard(core, op.req)
  {
    Core(core.units + UnitWrites(core, op.req), core.dispatches + DispatchWrites(core, op), core.events + EventWrites(op))
  }

  /** The incident cascade, on the dispatch rows the operation leaves behind. */
  function IncidentEffect(core: Core, incidents: map<IncidentId, Incident>, op: Op): map<IncidentId, Incident>
    requires Guard(core, op.req)
  {
    var after := Effect(core, op).dispatches;
    match op.req
    case Reserve(i, _) => MarkDispatched(incidents, i)
    case ReserveOptimistic(i, _) => MarkDispatched(incidents, i)
    case Advance(d, to) =>
      var i := core.dispatches[d].incident;
      if to == DispatchCompleted && IncidentUnserved(after, i) then LeaveDispatched(incidents, i, Resolved) else incidents
    case Reassign(d, i, _, _) =>
      var prior := core.dispatches[d].incident;
      var marked := MarkDispatched(incidents, i);
      if prior != i && IncidentUnserved(after, prior) then LeaveDispatched(marked, prior, Verified) else marked
    case Override(_, _) => incidents
    case Operator(i, to) => if i in incidents then incidents[i := incidents[i].(status := to)] else incidents
  }

  function DispatchableIncident(incidents: map<IncidentId, Incident>, i: IncidentId): (r: Result<(), Error>) {
    if i !in incidents then Err(ErrIncidentNotFound)
    else if IsTerminal(incidents[i].status) then Err(ErrIncidentNotDispatchable)
    else Ok(())
  }

  function UnitError(core: Core, u: UnitId): (r: Result<(), Error>) {
    if u !in core.units then Err(ErrUnitNotFound)
    else if core.units[u].status != UnitAvailable then Err(ErrUnitNotAvailable)
    else Ok(())
  }

  /** The foreign keys of the dispatches table. */
  predicate ForeignKeys(db: Db) {
    forall d | d in db.core.dispatches ::
      && db.core.dispatches[d].unit in db.core.units
      && db.core.dispatches[d].incident in db.incidents
  }

  // --- Whole transactions: all of the writes, or the first refusal the transaction meets ---

  function RunReserve(db: Db, i: IncidentId, u: UnitId, n: DispatchId, e: EventId): (r: Result<Db, Error>) {
    var Core(units, dispatches, events) := db.core;
    if UnitError(db.core, u).Err? then Err(UnitError(db.core, u).error)
    else if DispatchableIncident(db.incidents, i).Err? then Err(DispatchableIncident(db.incidents, i).error)
    else if !UnitFree(dispatches, u) then Err(ErrUnitNotAvailable)
    else Ok(Db(Core(units[u := MarkReserved(units[u])], dispatches[n := Dispatch(i, u, DispatchReserved)],
                    events[e := Event(Created, n)]),
               MarkDispatched(db.incidents, i)))
  }

  function RunAdvance(db: Db, d: DispatchId, to: DispatchStatus, e: EventId): (r: Result<Db, Error>)
    requires ForeignKeys(db)
  {
    var Core(units, dispatches, events) := db.core;
    if d !in dispatches then Err(ErrDispatchNotFound)
    else if !CanTransitionDispatch(dispatches[d].status, to) then Err(ErrIllegalDispatchTransition)
    else
      var Dispatch(i, u, _) := dispatches[d];
      var after := dispatches[d := Dispatch(i, u, to)];
      Ok(Db(Core(units[u := SetUnitStatus(units[u], UnitStatusForDispatch(to))], after,
                 if to == DispatchCompleted then events[e := Event(Completed, d)] else events),
            if to == DispatchCompleted && IncidentUnserved(after, i) then LeaveDispatched(db.incidents, i, Resolved) else db.incidents))
  }

  function RunReassign(db: Db, d: DispatchId, i: IncidentId, u: UnitId, k: EventKind, n: DispatchId, e: EventId): (r: Result<Db, Error>)
    requires ForeignKeys(db)
  {
    var Core(units, dispatches, events) := db.core;
    if d !in dispatches then Err(ErrDispatchNotFound)
    else if !IsActiveDispatch(dispatches[d].status) then Err(ErrIllegalDispatchTransition)
    else
      var Dispatch(prior, held, _) := dispatches[d];
      var ended := dispatches[d := Dispatch(prior, held, DispatchCancelled)];
      if held != u && UnitError(db.core, u).Err? then Err(UnitError(db.core, u).error)
      else if DispatchableIncident(db.incidents, i).Err? then Err(DispatchableIncident(db.incidents, i).error)
      else if !UnitFree(ended, u) then Err(ErrUnitNotAvailable)
      else
        var after := ended[n := Dispatch(i, u, DispatchReserved)];
        var marked := MarkDispatched(db.incidents, i);
        Ok(Db(Core(if held == u then units
                   else units[held := SetUnitStatus(units[held], UnitAvailable)][u := MarkReserved(units[u])],
                   after, events[e := Event(k, n)]),
              if prior != i && IncidentUnserved(after, prior) then LeaveDispatched(marked, prior, Verified) else marked))
  }

  function RunOperator(db: Db, i: IncidentId, to: IncidentStatus): (r: Result<Db, Error>) {
    if i !in db.incidents then Err(ErrIncidentNotFound)
    else if !CanTransitionIncident(db.incidents[i].status, to) then Err(ErrIllegalTransition)
    else Ok(db.(incidents := db.incidents[i := db.incidents[i].(status := to)]))
  }

  function Run(db: Db, op: Op): (r: Result<Db, Error>)
    requires ForeignKeys(db)
  {
    match op.req
    case Reserve(i, u) => RunReserve(db, i, u, op.newDispatch, op.event)
    case ReserveOptimistic(i, u) => RunReserve(db, i, u, op.newDispatch, op.event)
    case Advance(d, to) => RunAdvance(db, d, to, op.event)
    case Reassign(d, i, u, k) => RunReassign(db, d, i, u, k, op.newDispatch, op.event)
    case Override(u, s) =>
      if u !in db.core.units then Err(ErrUnitNotFound)
      else Ok(db.(core := db.core.(units := db.core.units[u := SetUnitStatus(db.core.units[u], s)])))
    case Operator(i, to) => RunOperator(db, i, to)
  }

  lemma FreeIffOnlyHolder(dispatches: map<DispatchId, Dispatch>, d: DispatchId, u: UnitId)
    requires d in dispatches
    ensures UnitFree(dispatches[d := dispatches[d].(status := DispatchCancelled)], u) <==> HeldOnlyBy(dispatches, u, d)
  {
    var after := dispatches[d := dispatches[d].(status := DispatchCancelled)];
    assert forall e | e in dispatches && e != d :: Holds(after, e, u) == Holds(dispatches, e, u);
    assert !Holds(after, d, u);
  }

  lemma ReassignMeetsGuard(db: Db, op: Op)
    requires ForeignKeys(db) && op.req.Reassign? && Run(db, op).Ok?
    ensures Guard(db.core, op.req)
  {
    FreeIffOnlyHolder(db.core.dispatches, op.req.dispatch, op.req.unit);
  }

  /** The rows a reassignment declares, as successive row updates. */
  lemma ReassignEffect(core: Core, op: Op)
    requires Guard(core, op.req) && op.req.Reassign? && FreshIds(core, op)
    ensures var Reassign(d, i, u, k) := op.req;
            var row := core.dispatches[d];
            && Effect(core, op).units ==
               (if row.unit == u then core.units
                else core.units[row.unit := SetUnitStatus(core.units[row.unit], UnitAvailable)][u := MarkReserved(core.units[u])])
            && Effect(core, op).dispatches ==
               core.dispatches[d := Dispatch(row.incident, row.unit, DispatchCancelled)][op.newDispatch := Dispatch(i, u, DispatchReserved)]
            && Effect(core, op).events == core.events[op.event := Event(k, op.newDispatch)]
  {
  }

  lemma InsertEffect(core: Core, op: Op)
    requires Guard(core, op.req) && (op.req.Reserve? || op.req.ReserveOptimistic?)
    ensures var u := op.req.unit;
            && Effect(core, op).units == core.units[u := MarkReserved(core.units[u])]
            && Effect(core, op).dispatches == core.dispatches[op.newDispatch := Dispatch(op.req.incident, u, DispatchReserved)]
            && Effect(core, op).events == core.events[op.event := Event(Created, op.newDispatch)]
  {
  }

  lemma AdvanceEffect(core: Core, op: Op)
    requires Guard(core, op.req) && op.req.Advance?
    ensures var Advance(d, to) := op.req;
            var row := core.dispatches[d];
            && Effect(core, op).units == core.units[row.unit := SetUnitStatus(core.units[row.unit], UnitStatusForDispatch(to))]
            && Effect(core, op).dispatches == core.dispatches[d := Dispatch(row.incident, row.unit, to)]
            && Effect(core, op).events ==
               if to == DispatchCompleted then core.events[op.event := Event(Completed, d)] else core.events
  {
  }

  lemma OverrideEffect(core: Core, op: Op)
    requires Guard(core, op.req) && (op.req.Override? || op.req.Operator?)
    ensures Effect(core, op).dispatches == core.dispatches && Effect(core, op).events == core.events
    ensures op.req.Operator? ==> Effect(core, op).units == core.units
    ensures op.req.Override? ==>
              Effect(core, op).units == core.units[op.req.unit := SetUnitStatus(core.units[op.req.unit], op.req.status)]
  {
  }

  ghost predicate IsEffect(db: Db, op: Op)
    requires ForeignKeys(db) && Run(db, op).Ok?
  {
    && Guard(db.core, op.req)
    && Run(db, op).value == Db(Effect(db.core, op), IncidentEffect(db.core, db.incidents, op))
  }

  lemma ReservationIsEffect(db: Db, op: Op)
    requires ForeignKeys(db) && Inserts(op.req) && !op.req.Reassign? && Run(db, op).Ok?
    ensures IsEffect(db, op)
  {
    InsertEffect(db.core, op);
  }

  lemma AdvanceIsEffect(db: Db, op: Op)
    requires ForeignKeys(db) && op.req.Advance? && Run(db, op).Ok?
    ensures IsEffect(db, op)
  {
    AdvanceEffect(db.core, op);
  }

  lemma ReassignmentIsEffect(db: Db, op: Op)
    requires ForeignKeys(db) && op.req.Reassign? && Run(db, op).Ok? && FreshIds(db.core, op)
    ensures IsEffect(db, op)
  {
    ReassignMeetsGuard(db, op);
    hide Guard, UnitFree, DispatchableIncident, HeldOnlyBy;
    ReassignEffect(db.core, op);
  }

  lemma StatusChangeIsEffect(db: Db, op: Op)
    requires ForeignKeys(db) && (op.req.Override? || op.req.Operator?) && Run(db, op).Ok?
    ensures IsEffect(db, op)
  {
    assert Run(db, op).value.core == Effect(db.core, op);
  }

  /** A transaction that succeeds had its guard met, and wrote exactly the declared rows. */
  lemma RunIsEffect(db: Db, op: Op)
    requires ForeignKeys(db) && Run(db, op).Ok? && FreshIds(db.core, op)
    ensures Guard(db.core, op.req)
    ensures Run(db, op).value.core == Effect(db.core, op)
    ensures Run(db, op).value.incidents == IncidentEffect(db.core, db.incidents, op)
  {
    hide RunReserve, RunAdvance, RunReassign, RunOperator, Guard, Effect, IncidentEffect;
    match op.req
    case Reserve(_, _) => ReservationIsEffect(db, op);
    case ReserveOptimistic(_, _) => ReservationIsEffect(db, op);
    case Advance(_, _) => AdvanceIsEffect(db, op);
    case Reassign(_, _, _, _) => ReassignmentIsEffect(db, op);
    case Override(_, _) => StatusChangeIsEffect(db, op);
    case Operator(_, _) => StatusChangeIsEffect(db, op);
  }
}
