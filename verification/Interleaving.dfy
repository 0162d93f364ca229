/**
 Any number of dispatch transactions running at once, one SQL statement per step,
 under READ COMMITTED row locking: FOR UPDATE and UPDATE wait for a row held by
 another transaction and then act on its newest committed version, a plain SELECT
 sees committed rows and the transaction's own writes, an insert into the partial
 unique index waits for an undecided rival entry, and every lock lasts until
 commit or rollback.
 */
module Interleaving {
  import opened Results
  import opened Rows
  import opened AtomicOps

  type TxId = nat

  datatype Key = DispatchRow(d: DispatchId) | UnitRow(u: UnitId) | IncidentRow(i: IncidentId)
  /** Where a transaction stands: named after the statement that has just completed. */
  datatype Pc =
    | Begun
    | VersionRead
    | StatusRead
    | DispatchLocked
    | FirstLocked
    | SecondLocked
    | UnitsLocked
    | IncidentRead
    | OldEnded
    | OldFreed
    | UnitsWritten
    | Inserted
    | IncidentMarked
    | Counted
    | IncidentSettled
    | ReadyToCommit

  function Stage(pc: Pc): nat {
    match pc
    case Begun => 0
    case VersionRead => 1
    case StatusRead => 1
    case DispatchLocked => 2
    case FirstLocked => 3
    case SecondLocked => 4
    case UnitsLocked => 5
    case IncidentRead => 6
    case OldEnded => 7
    case OldFreed => 8
    case UnitsWritten => 9
    case Inserted => 10
    case IncidentMarked => 11
    case Counted => 12
    case IncidentSettled => 13
    case ReadyToCommit => 14
  }

  /** Uncommitted writes, table by table. */
  datatype Writes = Writes(units: map<UnitId, Unit>, dispatches: map<DispatchId, Dispatch>,
                           incidents: map<IncidentId, Incident>, events: map<EventId, Event>)

  const NO_WRITES := Writes(map[], map[], map[], map[])

  /** `version` is what the optimistic read returned, `firstVersion` what the call's first read returned. */
  datatype Txn = Txn(req: Request, pc: Pc, newDispatch: DispatchId, event: EventId,
                     version: int, firstVersion: int, attempt: nat, lastOne: bool, w: Writes)

  function OpOf(t: Txn): Op { Op(t.req, t.newDispatch, t.event) }

  /** `history` and `log` record the committed states and the operations that led from one to the next. */
  datatype Sys = Sys(core: Core, incidents: map<IncidentId, Incident>, txns: map<TxId, Txn>, locks: map<Key, TxId>,
                     history: seq<Core>, log: seq<Op>, overridden: bool)

  const MAX_OPTIMISTIC_RETRIES: nat := 3

  // --- Who waits for whom ---

  function First(core: Core, t: Txn): UnitId
    requires t.req.Reassign? && t.req.dispatch in core.dispatches
  {
    var prior := core.dispatches[t.req.dispatch].unit;
    if prior > t.req.unit then t.req.unit else prior
  }

  function Second(core: Core, t: Txn): UnitId
    requires t.req.Reassign? && t.req.dispatch in core.dispatches
  {
    var prior := core.dispatches[t.req.dispatch].unit;
    if prior > t.req.unit then prior else t.req.unit
  }

  function IncidentKey(incidents: map<IncidentId, Incident>, i: IncidentId, wanted: bool): Option<Key> {
    if wanted && i in incidents then Some(IncidentRow(i)) else None
  }

  predicate Undispatched(incidents: map<IncidentId, Incident>, i: IncidentId) {
    i in incidents && IsUndispatched(incidents[i].status)
  }

  predicate InDispatch(incidents: map<IncidentId, Incident>, i: IncidentId) {
    i in incidents && incidents[i].status == Dispatched
  }

  /** The row lock the next statement takes; a guarded UPDATE whose WHERE is false takes none. */
  function NextRow(core: Core, incidents: map<IncidentId, Incident>, t: Txn): Option<Key> {
    match t.req
    case Reserve(i, u) =>
      if t.pc == Begun || t.pc == IncidentRead then (if u in core.units then Some(UnitRow(u)) else None)
      else if t.pc == Inserted then IncidentKey(incidents, i, Undispatched(incidents, i))
      else None
    case ReserveOptimistic(i, u) =>
      if t.pc == IncidentRead then
        (if u in core.units && core.units[u].version == t.version then Some(UnitRow(u)) else None)
      else if t.pc == Inserted then IncidentKey(incidents, i, Undispatched(incidents, i))
      else None
    case Advance(d, _) =>
      if d !in core.dispatches then None
      else if t.pc == Begun || t.pc == DispatchLocked then Some(DispatchRow(d))
      else if t.pc == OldEnded then Some(UnitRow(core.dispatches[d].unit))
      else if t.pc == Counted then
        var i := core.dispatches[d].incident;
        IncidentKey(incidents, i, t.lastOne && InDispatch(incidents, i))
      else None
    case Reassign(d, i, u, _) =>
      if d !in core.dispatches then None
      else if t.pc == Begun || t.pc == IncidentRead then Some(DispatchRow(d))
      else if t.pc == DispatchLocked then (if First(core, t) in core.units then Some(UnitRow(First(core, t))) else None)
      else if t.pc == FirstLocked then (if Second(core, t) in core.units then Some(UnitRow(Second(core, t))) else None)
      else if t.pc == SecondLocked || t.pc == OldFreed then Some(UnitRow(u))
      else if t.pc == OldEnded then Some(UnitRow(core.dispatches[d].unit))
      else if t.pc == Inserted then IncidentKey(incidents, i, Undispatched(incidents, i))
      else if t.pc == Counted then
        var prior := core.dispatches[d].incident;
        IncidentKey(incidents, prior, t.lastOne && InDispatch(incidents, prior))
      else None
    case Override(u, _) => if t.pc == Begun && u in core.units then Some(UnitRow(u)) else None
    case Operator(i, _) => if t.pc == StatusRead then IncidentKey(incidents, i, true) else None
  }

  predicate RowBlocked(s: Sys, id: TxId, rival: TxId)
    requires id in s.txns
  {
    var k := NextRow(s.core, s.incidents, s.txns[id]);
    k.Some? && k.value in s.locks && s.locks[k.value] == rival && rival != id
  }

  /** An uncommitted row of `w` that puts an active dispatch of `unit` in doubt. */
  predicate InDoubt(core: Core, w: Writes, d: DispatchId, unit: UnitId) {
    d in w.dispatches && w.dispatches[d].unit == unit
    && (IsActiveDispatch(w.dispatches[d].status) || Holds(core.dispatches, d, unit))
  }

  predicate IndexBlocked(s: Sys, id: TxId, rival: TxId)
    requires id in s.txns
  {
    var t := s.txns[id];
    && rival in s.txns && rival != id && t.pc == UnitsWritten && Inserts(t.req)
    && exists d | d in s.txns[rival].w.dispatches :: InDoubt(s.core, s.txns[rival].w, d, t.req.unit)
  }

  predicate WaitsFor(s: Sys, id: TxId, rival: TxId)
    requires id in s.txns
  {
    RowBlocked(s, id, rival) || IndexBlocked(s, id, rival)
  }

  ghost predicate Blocked(s: Sys, id: TxId)
    requires id in s.txns
  {
    exists rival :: WaitsFor(s, id, rival)
  }

  // --- One statement ---

  datatype Outcome = Next(t: Txn) | RolledBack(error: Error) | Retry(t: Txn) | Committed

  function Seen(core: Core, t: Txn): map<DispatchId, Dispatch> { core.dispatches + t.w.dispatches }

  function CheckIncident(incidents: map<IncidentId, Incident>, i: IncidentId, t: Txn): Outcome {
    match DispatchableIncident(incidents, i)
    case Err(e) => RolledBack(e)
    case Ok(_) => Next(t.(pc := IncidentRead))
  }

  /** INSERT INTO dispatches, mark the incident, write the event, commit: the tail all reservations share. */
  function ExecTail(core: Core, incidents: map<IncidentId, Incident>, t: Txn): Outcome
    requires Inserts(t.req)
  {
    var i, u := t.req.incident, t.req.unit;
    match t.pc
    case UnitsWritten =>
      if UnitFree(Seen(core, t), u) then
        Next(t.(pc := Inserted, w := t.w.(dispatches := t.w.dispatches[t.newDispatch := Dispatch(i, u, DispatchReserved)])))
      else RolledBack(ErrUnitNotAvailable)
    case Inserted =>
      Next(t.(pc := IncidentMarked, w := t.w.(incidents := MarkWrites(incidents, i))))
    case IncidentMarked =>
      if t.req.Reassign? then
        if t.req.dispatch !in core.dispatches then RolledBack(ErrDispatchNotFound) else
          var prior := core.dispatches[t.req.dispatch].incident;
          if prior == i then Next(t.(pc := IncidentSettled))
          else Next(t.(pc := Counted, lastOne := IncidentUnserved(Seen(core, t), prior)))
      else Next(WithEvent(t))
    case Counted =>
      if !t.req.Reassign? || t.req.dispatch !in core.dispatches then RolledBack(ErrDispatchNotFound) else
        var prior := core.dispatches[t.req.dispatch].incident;
        Next(Settle(incidents, t, prior, Verified))
    case IncidentSettled => Next(WithEvent(t))
    case _ => Committed
  }

  function MarkWrites(incidents: map<IncidentId, Incident>, i: IncidentId): map<IncidentId, Incident> {
    if Undispatched(incidents, i) then map[i := incidents[i].(status := Dispatched)] else map[]
  }

  function Settle(incidents: map<IncidentId, Incident>, t: Txn, i: IncidentId, to: IncidentStatus): Txn {
    if t.lastOne && InDispatch(incidents, i)
    then t.(pc := IncidentSettled, w := t.w.(incidents := t.w.incidents[i := incidents[i].(status := to)]))
    else t.(pc := IncidentSettled)
  }

  function WithEvent(t: Txn): Txn { t.(pc := ReadyToCommit, w := t.w.(events := EventWrites(OpOf(t)))) }

  function WithUnit(t: Txn, pc: Pc, u: UnitId, row: Unit): Txn { t.(pc := pc, w := t.w.(units := t.w.units[u := row])) }

  function ExecReserve(core: Core, incidents: map<IncidentId, Incident>, t: Txn): Outcome
    requires t.req.Reserve?
  {
    var Reserve(i, u) := t.req;
    match t.pc
    case Begun =>
      (match UnitError(core, u)
       case Err(e) => RolledBack(e)
       case Ok(_) => Next(t.(pc := UnitsLocked)))
    case UnitsLocked => CheckIncident(incidents, i, t)
    case IncidentRead =>
      if u in core.units then Next(WithUnit(t, UnitsWritten, u, MarkReserved(core.units[u]))) else RolledBack(ErrUnitNotFound)
    case _ => ExecTail(core, incidents, t)
  }

  function ExecOptimistic(core: Core, incidents: map<IncidentId, Incident>, t: Txn): Outcome
    requires t.req.ReserveOptimistic?
  {
    var ReserveOptimistic(i, u) := t.req;
    match t.pc
    case Begun =>
      (match UnitError(core, u)
       case Err(e) => RolledBack(e)
       case Ok(_) =>
         var v := core.units[u].version;
         Next(t.(pc := VersionRead, version := v, firstVersion := if t.attempt == 0 then v else t.firstVersion)))
    case VersionRead => CheckIncident(incidents, i, t)
    case IncidentRead =>
      if u in core.units && core.units[u].version == t.version
      then Next(WithUnit(t, UnitsWritten, u, MarkReserved(core.units[u])))
      else if t.attempt + 1 < MAX_OPTIMISTIC_RETRIES then Retry(t.(pc := Begun, attempt := t.attempt + 1))
      else RolledBack(ErrReservationConflict)
    case _ => ExecTail(core, incidents, t)
  }

  function ExecAdvance(core: Core, incidents: map<IncidentId, Incident>, t: Txn): Outcome
    requires t.req.Advance?
  {
    var Advance(d, to) := t.req;
    if d !in core.dispatches then RolledBack(ErrDispatchNotFound) else
      var row := core.dispatches[d];
      match t.pc
      case Begun =>
        if CanTransitionDispatch(row.status, to) then Next(t.(pc := DispatchLocked)) else RolledBack(ErrIllegalDispatchTransition)
      case DispatchLocked =>
        Next(t.(pc := OldEnded, w := t.w.(dispatches := t.w.dispatches[d := row.(status := to)])))
      case OldEnded =>
        if row.unit in core.units
        then Next(WithUnit(t, UnitsWritten, row.unit, SetUnitStatus(core.units[row.unit], UnitStatusForDispatch(to))))
        else RolledBack(ErrUnitNotFound)
      case UnitsWritten =>
        if to == DispatchCompleted
        then Next(t.(pc := Counted, lastOne := IncidentUnserved(Seen(core, t), row.incident)))
        else Next(t.(pc := ReadyToCommit))
      case Counted => Next(Settle(incidents, t, row.incident, Resolved))
      case IncidentSettled => Next(WithEvent(t))
      case _ => Committed
  }

  function ExecReassign(core: Core, incidents: map<IncidentId, Incident>, t: Txn): Outcome
    requires t.req.Reassign?
  {
    var Reassign(d, i, u, _) := t.req;
    if d !in core.dispatches then RolledBack(ErrDispatchNotFound) else
      var row := core.dispatches[d];
      match t.pc
      case Begun =>
        if IsActiveDispatch(row.status) then Next(t.(pc := DispatchLocked)) else RolledBack(ErrIllegalDispatchTransition)
      case DispatchLocked =>
        if First(core, t) !in core.units then RolledBack(ErrUnitNotFound)
        else Next(t.(pc := if row.unit == u then UnitsLocked else FirstLocked))
      case FirstLocked =>
        if Second(core, t) !in core.units then RolledBack(ErrUnitNotFound) else Next(t.(pc := SecondLocked))
      case SecondLocked =>
        (match UnitError(core, u)
         case Err(e) => RolledBack(e)
         case Ok(_) => Next(t.(pc := UnitsLocked)))
      case UnitsLocked => CheckIncident(incidents, i, t)
      case IncidentRead =>
        var w := t.w.(dispatches := t.w.dispatches[d := row.(status := DispatchCancelled)]);
        Next(t.(pc := if row.unit == u then UnitsWritten else OldEnded, w := w))
      case OldEnded =>
        if row.unit in core.units
        then Next(WithUnit(t, OldFreed, row.unit, SetUnitStatus(core.units[row.unit], UnitAvailable)))
        else RolledBack(ErrUnitNotFound)
      case OldFreed =>
        if u in core.units then Next(WithUnit(t, UnitsWritten, u, MarkReserved(core.units[u]))) else RolledBack(ErrUnitNotFound)
      case _ => ExecTail(core, incidents, t)
  }

  function Exec(core: Core, incidents: map<IncidentId, Incident>, t: Txn): Outcome {
    match t.req
    case Reserve(_, _) => ExecReserve(core, incidents, t)
    case ReserveOptimistic(_, _) => ExecOptimistic(core, incidents, t)
    case Advance(_, _) => ExecAdvance(core, incidents, t)
    case Reassign(_, _, _, _) => ExecReassign(core, incidents, t)
    case Override(u, st) =>
      if t.pc != Begun then Committed
      else if u !in core.units then RolledBack(ErrUnitNotFound)
      else Next(WithUnit(t, ReadyToCommit, u, SetUnitStatus(core.units[u], st)))
    case Operator(i, to) =>
      if t.pc != Begun && t.pc != StatusRead then Committed
      else if i !in incidents then RolledBack(ErrIncidentNotFound)
      else if t.pc == StatusRead then
        Next(t.(pc := ReadyToCommit, w := t.w.(incidents := map[i := incidents[i].(status := to)])))
      else if CanTransitionIncident(incidents[i].status, to) then Next(t.(pc := StatusRead))
      else RolledBack(ErrIllegalTransition)
  }

  // --- Steps of the whole system ---

  /** What the callers guarantee: Preempt picks a strictly less severe victim and keeps its unit, Reroute changes only the unit. */
  predicate Acceptable(core: Core, incidents: map<IncidentId, Incident>, req: Request) {
    req.Reassign? ==>
      && req.dispatch in core.dispatches
      && var row := core.dispatches[req.dispatch];
         || (req.kind == Rerouted && req.incident == row.incident && req.unit != row.unit)
         || (req.kind == Preempted && req.unit == row.unit && row.incident in incidents && req.incident in incidents
             && SeverityRank(incidents[row.incident].severity) < SeverityRank(incidents[req.incident].severity))
  }

  datatype Step = Begin(id: TxId, req: Request, newDispatch: DispatchId, event: EventId) | Statement(id: TxId) | Abort(id: TxId)

  ghost predicate Enabled(s: Sys, step: Step) {
    match step
    case Begin(id, req, n, e) =>
      && id !in s.txns && Acceptable(s.core, s.incidents, req)
      && n !in s.core.dispatches && e !in s.core.events
      && (forall x | x in s.txns :: s.txns[x].newDispatch != n && s.txns[x].event != e)
    case Statement(id) => id in s.txns && !Blocked(s, id)
    case Abort(id) => id in s.txns
  }

  function Release(locks: map<Key, TxId>, id: TxId): map<Key, TxId> {
    map k | k in locks && locks[k] != id :: locks[k]
  }

  function End(s: Sys, id: TxId): Sys { s.(txns := s.txns - {id}, locks := Release(s.locks, id)) }

  function Merge(core: Core, w: Writes): Core {
    Core(core.units + w.units, core.dispatches + w.dispatches, core.events + w.events)
  }

  function Commit(s: Sys, id: TxId): Sys
    requires id in s.txns
  {
    var t := s.txns[id];
    var after := Merge(s.core, t.w);
    End(s.(core := after, incidents := s.incidents + t.w.incidents,
           history := s.history + [after], log := s.log + [OpOf(t)]), id)
  }

  function Apply(s: Sys, step: Step): Sys {
    match step
    case Begin(id, req, n, e) =>
      s.(txns := s.txns[id := Txn(req, Begun, n, e, 0, 0, 0, false, NO_WRITES)], overridden := s.overridden || req.Override?)
    case Abort(id) => End(s, id)
    case Statement(id) =>
      if id !in s.txns then s else
        var t := s.txns[id];
        match Exec(s.core, s.incidents, t)
        case Next(t') =>
          var k := NextRow(s.core, s.incidents, t);
          s.(txns := s.txns[id := t'], locks := if k.Some? then s.locks[k.value := id] else s.locks)
        case RolledBack(_) => End(s, id)
        case Retry(t') => s.(txns := s.txns[id := t'], locks := Release(s.locks, id))
        case Committed => Commit(s, id)
  }

  // --- Runs ---

  ghost predicate Leads(s: Sys, step: Step, s': Sys) { Enabled(s, step) && Apply(s, step) == s' }

  ghost predicate Init(s: Sys) {
    && s.txns == map[] && s.locks == map[] && s.history == [s.core] && s.log == [] && !s.overridden
    && ForeignKeys(Db(s.core, s.incidents))
  }

  ghost predicate SysRun(states: seq<Sys>, steps: seq<Step>) {
    && |states| == |steps| + 1 && Init(states[0])
    && forall k | 0 <= k < |steps| :: Enabled(states[k], steps[k]) && states[k + 1] == Apply(states[k], steps[k])
  }
}
