/**
 A dispatch transaction with no other beside it: executed statement by statement it never waits, comes to an end,
 and answers and writes what the atomic operation does.
 */
module Alone {
  import opened Results
  import opened Rows
  import opened AtomicOps
  import opened Interleaving

  /** A statement leads to a later stage, or a lost swap to the next of three attempts. */
  predicate Advances(t: Txn, o: Outcome) {
    match o
    case Next(t') => OpOf(t') == OpOf(t) && t'.attempt == t.attempt && Stage(t.pc) < Stage(t'.pc)
    case Retry(t') => OpOf(t') == OpOf(t) && t'.attempt == t.attempt + 1 < MAX_OPTIMISTIC_RETRIES
    case _ => true
  }

  lemma TailAdvances(core: Core, incidents: map<IncidentId, Incident>, t: Txn)
    requires Inserts(t.req)
    ensures Advances(t, ExecTail(core, incidents, t))
  {
    hide UnitFree, IncidentUnserved, EventWrites, MarkWrites;
  }

  lemma CheckAdvances(incidents: map<IncidentId, Incident>, i: IncidentId, t: Txn)
    requires Stage(t.pc) < 6
    ensures Advances(t, CheckIncident(incidents, i, t))
  {
  }

  lemma ReservationAdvances(core: Core, incidents: map<IncidentId, Incident>, t: Txn)
    requires t.req.Reserve? || t.req.ReserveOptimistic?
    ensures Advances(t, Exec(core, incidents, t))
  {
    TailAdvances(core, incidents, t);
    if Stage(t.pc) < 6 { CheckAdvances(incidents, t.req.incident, t); }
    hide ExecTail, CheckIncident;
  }

  lemma AdvanceAdvances(core: Core, incidents: map<IncidentId, Incident>, t: Txn)
    requires t.req.Advance?
    ensures Advances(t, Exec(core, incidents, t))
  {
    hide IncidentUnserved, EventWrites, CanTransitionDispatch;
  }

  lemma ReassignAdvances(core: Core, incidents: map<IncidentId, Incident>, t: Txn)
    requires t.req.Reassign?
    ensures Advances(t, Exec(core, incidents, t))
  {
    TailAdvances(core, incidents, t);
    if Stage(t.pc) < 6 { CheckAdvances(incidents, t.req.incident, t); }
    hide ExecTail, CheckIncident, UnitError;
  }

  lemma StatementsAdvance(core: Core, incidents: map<IncidentId, Incident>, t: Txn)
    ensures Advances(t, Exec(core, incidents, t))
  {
    match t.req
    case Reserve(_, _) => ReservationAdvances(core, incidents, t);
    case ReserveOptimistic(_, _) => ReservationAdvances(core, incidents, t);
    case Advance(_, _) => AdvanceAdvances(core, incidents, t);
    case Reassign(_, _, _, _) => ReassignAdvances(core, incidents, t);
    case Override(_, _) =>
    case Operator(_, _) =>
  }

  /** What the statements of a transaction come to on rows nobody else changes. */
  function Play(core: Core, incidents: map<IncidentId, Incident>, t: Txn): Result<Writes, Error>
    decreases MAX_OPTIMISTIC_RETRIES - t.attempt, 14 - Stage(t.pc)
  {
    StatementsAdvance(core, incidents, t);
    hide Exec;
    match Exec(core, incidents, t)
    case Next(t') => Play(core, incidents, t')
    case Retry(t') => Play(core, incidents, t')
    case RolledBack(e) => Err(e)
    case Committed => Ok(t.w)
  }

  lemma Goes(core: Core, incidents: map<IncidentId, Incident>, t: Txn, t': Txn)
    requires Exec(core, incidents, t) == Next(t')
    ensures Play(core, incidents, t) == Play(core, incidents, t')
  {
    hide Exec;
  }

  lemma Ends(core: Core, incidents: map<IncidentId, Incident>, t: Txn)
    requires Exec(core, incidents, t).RolledBack? || Exec(core, incidents, t).Committed?
    ensures Play(core, incidents, t) ==
            match Exec(core, incidents, t)
            case RolledBack(e) => Err(e)
            case _ => Ok(t.w)
  {
    hide Exec;
  }

  function Started(op: Op): Txn { Txn(op.req, Begun, op.newDispatch, op.event, 0, 0, 0, false, NO_WRITES) }

  /** The statements answer what the operation answers, and leave the rows it leaves. */
  ghost predicate Agrees(db: Db, op: Op, r: Result<Writes, Error>)
    requires ForeignKeys(db)
  {
    match Run(db, op)
    case Err(e) => r == Err(e)
    case Ok(after) => r.Ok? && Db(Merge(db.core, r.value), db.incidents + r.value.incidents) == after
  }

  lemma MarksAlike(incidents: map<IncidentId, Incident>, i: IncidentId)
    ensures incidents + MarkWrites(incidents, i) == MarkDispatched(incidents, i)
  {
  }

  // --- Reservations ---

  /** The pc of a reservation that has written its units. */
  predicate InTail(core: Core, t: Txn) { Inserts(t.req) && Stage(t.pc) >= 9 && (t.req.Reassign? ==> t.req.dispatch in core.dispatches) }

  lemma TailIsShared(core: Core, incidents: map<IncidentId, Incident>, t: Txn)
    requires InTail(core, t)
    ensures Exec(core, incidents, t) == ExecTail(core, incidents, t)
  {
    hide ExecTail;
  }

  lemma GoesOn(core: Core, incidents: map<IncidentId, Incident>, t: Txn, t': Txn)
    requires InTail(core, t) && ExecTail(core, incidents, t) == Next(t')
    ensures Play(core, incidents, t) == Play(core, incidents, t')
  {
    TailIsShared(core, incidents, t);
    Goes(core, incidents, t, t');
  }

  lemma TailEnds(core: Core, incidents: map<IncidentId, Incident>, t: Txn)
    requires InTail(core, t)
    requires ExecTail(core, incidents, t).RolledBack? || ExecTail(core, incidents, t).Committed?
    ensures Play(core, incidents, t) ==
            match ExecTail(core, incidents, t)
            case RolledBack(e) => Err(e)
            case _ => Ok(t.w)
  {
    TailIsShared(core, incidents, t);
    hide Exec, ExecTail, Play;
    Ends(core, incidents, t);
  }

  /** The insert and the promotion of the incident. */
  lemma TailInserts(core: Core, incidents: map<IncidentId, Incident>, t: Txn)
    requires InTail(core, t) && t.pc == UnitsWritten
    ensures var i, u := t.req.incident, t.req.unit;
            var w := t.w.(dispatches := t.w.dispatches[t.newDispatch := Dispatch(i, u, DispatchReserved)], incidents := MarkWrites(incidents, i));
            Play(core, incidents, t) ==
              if UnitFree(Seen(core, t), u) then Play(core, incidents, t.(pc := IncidentMarked, w := w)) else Err(ErrUnitNotAvailable)
  {
    hide Play, UnitFree, MarkWrites, Exec, Seen;
    var i, u := t.req.incident, t.req.unit;
    if UnitFree(Seen(core, t), u) {
      var inserted := t.(pc := Inserted, w := t.w.(dispatches := t.w.dispatches[t.newDispatch := Dispatch(i, u, DispatchReserved)]));
      GoesOn(core, incidents, t, inserted);
      GoesOn(core, incidents, inserted, inserted.(pc := IncidentMarked, w := inserted.w.(incidents := MarkWrites(incidents, i))));
    } else {
      TailEnds(core, incidents, t);
    }
  }

  lemma ReservationTail(core: Core, incidents: map<IncidentId, Incident>, t: Txn, row: Unit)
    requires (t.req.Reserve? || t.req.ReserveOptimistic?) && t.pc == UnitsWritten
    requires t.w == NO_WRITES.(units := map[t.req.unit := row])
    ensures var i, u := t.req.incident, t.req.unit;
            Play(core, incidents, t) ==
              if UnitFree(core.dispatches, u)
              then Ok(Writes(map[u := row], map[t.newDispatch := Dispatch(i, u, DispatchReserved)], MarkWrites(incidents, i),
                             map[t.event := Event(Created, t.newDispatch)]))
              else Err(ErrUnitNotAvailable)
  {
    hide Play, UnitFree, MarkWrites, Exec;
    var i, u := t.req.incident, t.req.unit;
    assert Seen(core, t) == core.dispatches;
    TailInserts(core, incidents, t);
    if UnitFree(core.dispatches, u) {
      var w := t.w.(dispatches := map[t.newDispatch := Dispatch(i, u, DispatchReserved)], incidents := MarkWrites(incidents, i));
      var marked := t.(pc := IncidentMarked, w := w);
      GoesOn(core, incidents, marked, WithEvent(marked));
      TailEnds(core, incidents, WithEvent(marked));
    }
  }

  lemma ReservedRowsAgree(db: Db, op: Op, r: Result<Writes, Error>)
    requires ForeignKeys(db) && (op.req.Reserve? || op.req.ReserveOptimistic?)
    requires UnitError(db.core, op.req.unit).Ok? && DispatchableIncident(db.incidents, op.req.incident).Ok?
    requires var i, u := op.req.incident, op.req.unit;
             r == if UnitFree(db.core.dispatches, u)
                  then Ok(Writes(map[u := MarkReserved(db.core.units[u])], map[op.newDispatch := Dispatch(i, u, DispatchReserved)],
                                 MarkWrites(db.incidents, i), map[op.event := Event(Created, op.newDispatch)]))
                  else Err(ErrUnitNotAvailable)
    ensures Agrees(db, op, r)
  {
    var Core(units, dispatches, events) := db.core;
    var i, u := op.req.incident, op.req.unit;
    var row := Dispatch(i, u, DispatchReserved);
    hide UnitFree, MarkWrites, MarkDispatched, DispatchableIncident, UnitError;
    MarksAlike(db.incidents, i);
    assert units + map[u := MarkReserved(units[u])] == units[u := MarkReserved(units[u])];
    assert dispatches + map[op.newDispatch := row] == dispatches[op.newDispatch := row];
    assert events + map[op.event := Event(Created, op.newDispatch)] == events[op.event := Event(Created, op.newDispatch)];
    assert Run(db, op) == RunReserve(db, i, u, op.newDispatch, op.event);
  }

  /** Both ways of reserving come to the same once the unit has been looked at. */
  lemma ReservationAgrees(db: Db, op: Op, t: Txn, read: Txn)
    requires ForeignKeys(db) && FreshIds(db.core, op) && (op.req.Reserve? || op.req.ReserveOptimistic?)
    requires read.req == op.req && read.newDispatch == op.newDispatch && read.event == op.event && read.w == NO_WRITES
    requires UnitError(db.core, op.req.unit).Ok? && t.w == NO_WRITES
    requires Exec(db.core, db.incidents, t) == CheckIncident(db.incidents, op.req.incident, t)
    requires read == t.(pc := IncidentRead)
    requires var u := op.req.unit;
             Exec(db.core, db.incidents, read) == Next(WithUnit(read, UnitsWritten, u, MarkReserved(db.core.units[u])))
    ensures Agrees(db, op, Play(db.core, db.incidents, t))
  {
    var Db(core, incidents) := db;
    var i, u := op.req.incident, op.req.unit;
    hide Exec, UnitFree, Play, MarkWrites, MarkDispatched, Merge;
    if DispatchableIncident(incidents, i).Err? {
      Ends(core, incidents, t);
    } else {
      Goes(core, incidents, t, read);
      var row := MarkReserved(core.units[u]);
      var written := WithUnit(read, UnitsWritten, u, row);
      Goes(core, incidents, read, written);
      ReservationTail(core, incidents, written, row);
      ReservedRowsAgree(db, op, Play(core, incidents, written));
    }
  }

  lemma ReserveAgrees(db: Db, op: Op)
    requires ForeignKeys(db) && FreshIds(db.core, op) && op.req.Reserve?
    ensures Agrees(db, op, Play(db.core, db.incidents, Started(op)))
  {
    var Db(core, incidents) := db;
    var t := Started(op);
    hide UnitFree, Play, MarkDispatched, ExecTail, CheckIncident;
    if UnitError(core, op.req.unit).Err? {
      Ends(core, incidents, t);
    } else {
      var locked := t.(pc := UnitsLocked);
      Goes(core, incidents, t, locked);
      ReservationAgrees(db, op, locked, locked.(pc := IncidentRead));
    }
  }

  lemma ReserveOptimisticAgrees(db: Db, op: Op)
    requires ForeignKeys(db) && FreshIds(db.core, op) && op.req.ReserveOptimistic?
    ensures Agrees(db, op, Play(db.core, db.incidents, Started(op)))
  {
    var Db(core, incidents) := db;
    var t := Started(op);
    hide UnitFree, Play, MarkDispatched, ExecTail, CheckIncident;
    if UnitError(core, op.req.unit).Err? {
      Ends(core, incidents, t);
    } else {
      var v := core.units[op.req.unit].version;
      var looked := t.(pc := VersionRead, version := v, firstVersion := v);
      Goes(core, incidents, t, looked);
      ReservationAgrees(db, op, looked, looked.(pc := IncidentRead));
    }
  }

  // --- Reassignments ---

  /** The writes of a reassignment up to its insert. */
  function MovedWrites(core: Core, t: Txn): Writes
    requires t.req.Reassign? && t.req.dispatch in core.dispatches && ForeignKeysOfMove(core, t)
  {
    var Reassign(d, _, u, _) := t.req;
    var row := core.dispatches[d];
    Writes(if row.unit == u then map[]
           else map[row.unit := SetUnitStatus(core.units[row.unit], UnitAvailable)][u := MarkReserved(core.units[u])],
           map[d := row.(status := DispatchCancelled)], map[], map[])
  }

  predicate ForeignKeysOfMove(core: Core, t: Txn)
    requires t.req.Reassign? && t.req.dispatch in core.dispatches
  {
    core.dispatches[t.req.dispatch].unit in core.units && t.req.unit in core.units
  }

  function MovedIncidents(core: Core, incidents: map<IncidentId, Incident>, t: Txn): map<IncidentId, Incident>
    requires t.req.Reassign? && t.req.dispatch in core.dispatches
  {
    var Reassign(d, i, u, _) := t.req;
    var row := core.dispatches[d];
    var after := core.dispatches[d := row.(status := DispatchCancelled)][t.newDispatch := Dispatch(i, u, DispatchReserved)];
    var prior := row.incident;
    var marked := MarkWrites(incidents, i);
    if prior != i && IncidentUnserved(after, prior) && InDispatch(incidents, prior)
    then marked[prior := incidents[prior].(status := Verified)] else marked
  }

  lemma ReassignSettles(core: Core, incidents: map<IncidentId, Incident>, t: Txn)
    requires t.req.Reassign? && t.pc == IncidentMarked && InTail(core, t)
    ensures var prior := core.dispatches[t.req.dispatch].incident;
            Play(core, incidents, t) ==
              Ok(t.w.(incidents := if prior != t.req.incident && IncidentUnserved(Seen(core, t), prior) && InDispatch(incidents, prior)
                                   then t.w.incidents[prior := incidents[prior].(status := Verified)] else t.w.incidents,
                      events := map[t.event := Event(t.req.kind, t.newDispatch)]))
  {
    hide Play, Exec, IncidentUnserved, Seen;
    var prior := core.dispatches[t.req.dispatch].incident;
    var settled := t.(pc := IncidentSettled);
    if prior == t.req.incident {
      GoesOn(core, incidents, t, settled);
    } else {
      var counted := t.(pc := Counted, lastOne := IncidentUnserved(Seen(core, t), prior));
      GoesOn(core, incidents, t, counted);
      settled := Settle(incidents, counted, prior, Verified);
      GoesOn(core, incidents, counted, settled);
    }
    GoesOn(core, incidents, settled, WithEvent(settled));
    TailEnds(core, incidents, WithEvent(settled));
  }

  lemma ReassignTail(core: Core, incidents: map<IncidentId, Incident>, t: Txn)
    requires t.req.Reassign? && t.pc == UnitsWritten && t.req.dispatch in core.dispatches && ForeignKeysOfMove(core, t)
    requires t.w == MovedWrites(core, t)
    ensures var Reassign(d, i, u, k) := t.req;
            var row := core.dispatches[d];
            var ended := core.dispatches[d := row.(status := DispatchCancelled)];
            Play(core, incidents, t) ==
              if UnitFree(ended, u)
              then Ok(Writes(t.w.units, t.w.dispatches[t.newDispatch := Dispatch(i, u, DispatchReserved)],
                             MovedIncidents(core, incidents, t), map[t.event := Event(k, t.newDispatch)]))
              else Err(ErrUnitNotAvailable)
  {
    hide Play, UnitFree, MarkWrites, Exec, IncidentUnserved, InDispatch;
    var Reassign(d, i, u, k) := t.req;
    var ended := core.dispatches[d := core.dispatches[d].(status := DispatchCancelled)];
    assert Seen(core, t) == ended;
    TailInserts(core, incidents, t);
    if UnitFree(ended, u) {
      var w := t.w.(dispatches := t.w.dispatches[t.newDispatch := Dispatch(i, u, DispatchReserved)], incidents := MarkWrites(incidents, i));
      var marked := t.(pc := IncidentMarked, w := w);
      assert Seen(core, marked) == ended[t.newDispatch := Dispatch(i, u, DispatchReserved)];
      ReassignSettles(core, incidents, marked);
    }
  }

  /** The rows are checked and locked: the incident is read and the units are written. */
  lemma ReassignWritesUnits(core: Core, incidents: map<IncidentId, Incident>, t: Txn)
    requires t.req.Reassign? && t.pc == UnitsLocked && t.w == NO_WRITES && t.req.dispatch in core.dispatches && ForeignKeysOfMove(core, t)
    ensures Play(core, incidents, t) ==
              match DispatchableIncident(incidents, t.req.incident)
              case Err(e) => Err(e)
              case Ok(_) => Play(core, incidents, t.(pc := UnitsWritten, w := MovedWrites(core, t)))
  {
    hide Play, ExecTail, DispatchableIncident;
    var Reassign(d, i, u, k) := t.req;
    var row := core.dispatches[d];
    if DispatchableIncident(incidents, i).Err? {
      Ends(core, incidents, t);
    } else {
      var read := t.(pc := IncidentRead);
      Goes(core, incidents, t, read);
      var ended := read.(pc := if row.unit == u then UnitsWritten else OldEnded, w := read.w.(dispatches := map[d := row.(status := DispatchCancelled)]));
      Goes(core, incidents, read, ended);
      if row.unit != u {
        var freed := WithUnit(ended, OldFreed, row.unit, SetUnitStatus(core.units[row.unit], UnitAvailable));
        Goes(core, incidents, ended, freed);
        Goes(core, incidents, freed, WithUnit(freed, UnitsWritten, u, MarkReserved(core.units[u])));
      }
    }
  }

  /** The locks, lower unit first, and the check of the incoming unit. */
  lemma ReassignLocks(core: Core, incidents: map<IncidentId, Incident>, t: Txn)
    requires t.req.Reassign? && t.pc == Begun && t.req.dispatch in core.dispatches && core.dispatches[t.req.dispatch].unit in core.units
    ensures var Reassign(d, _, u, _) := t.req;
            var row := core.dispatches[d];
            Play(core, incidents, t) ==
              if !IsActiveDispatch(row.status) then Err(ErrIllegalDispatchTransition)
              else if row.unit != u && UnitError(core, u).Err? then Err(UnitError(core, u).error)
              else Play(core, incidents, t.(pc := UnitsLocked))
  {
    hide Play, ExecTail, CheckIncident;
    var row := core.dispatches[t.req.dispatch];
    if !IsActiveDispatch(row.status) {
      Ends(core, incidents, t);
    } else {
      var locked := t.(pc := DispatchLocked);
      Goes(core, incidents, t, locked);
      if row.unit == t.req.unit {
        Goes(core, incidents, locked, t.(pc := UnitsLocked));
      } else {
        UnitsLock(core, incidents, locked);
      }
    }
  }

  lemma UnitsLock(core: Core, incidents: map<IncidentId, Incident>, t: Txn)
    requires t.req.Reassign? && t.pc == DispatchLocked && t.req.dispatch in core.dispatches
    requires core.dispatches[t.req.dispatch].unit in core.units && core.dispatches[t.req.dispatch].unit != t.req.unit
    ensures Play(core, incidents, t) ==
              match UnitError(core, t.req.unit)
              case Err(e) => Err(e)
              case Ok(_) => Play(core, incidents, t.(pc := UnitsLocked))
  {
    hide Play, ExecTail, CheckIncident;
    var first, second := t.(pc := FirstLocked), t.(pc := SecondLocked);
    if First(core, t) !in core.units {
      Ends(core, incidents, t);
    } else {
      Goes(core, incidents, t, first);
      if Second(core, t) !in core.units {
        Ends(core, incidents, first);
      } else {
        Goes(core, incidents, first, second);
        if UnitError(core, t.req.unit).Err? {
          Ends(core, incidents, second);
        } else {
          Goes(core, incidents, second, t.(pc := UnitsLocked));
        }
      }
    }
  }

  lemma ReassignAgrees(db: Db, op: Op)
    requires ForeignKeys(db) && FreshIds(db.core, op) && op.req.Reassign?
    ensures Agrees(db, op, Play(db.core, db.incidents, Started(op)))
  {
    var Db(core, incidents) := db;
    var Reassign(d, i, u, k) := op.req;
    var t := Started(op);
    hide Play, UnitFree, Merge, Exec, MarkDispatched, IncidentUnserved;
    if d !in core.dispatches {
      MissingDispatch(core, incidents, t);
    } else {
      ReassignLocks(core, incidents, t);
      var row := core.dispatches[d];
      if IsActiveDispatch(row.status) && (row.unit == u || UnitError(core, u).Ok?) {
        var locked := t.(pc := UnitsLocked);
        ReassignWritesUnits(core, incidents, locked);
        if DispatchableIncident(incidents, i).Ok? {
          var written := locked.(pc := UnitsWritten, w := MovedWrites(core, locked));
          ReassignTail(core, incidents, written);
          if UnitFree(core.dispatches[d := row.(status := DispatchCancelled)], u) { MovedRowsAgree(db, op, written); }
        }
      }
    }
  }

  lemma MissingDispatch(core: Core, incidents: map<IncidentId, Incident>, t: Txn)
    requires (t.req.Reassign? || t.req.Advance?) && t.req.dispatch !in core.dispatches
    ensures Play(core, incidents, t) == Err(ErrDispatchNotFound)
  {
    Ends(core, incidents, t);
    hide Play;
  }

  lemma MovedRowsAgree(db: Db, op: Op, t: Txn)
    requires ForeignKeys(db) && FreshIds(db.core, op) && op.req.Reassign? && Run(db, op).Ok?
    requires t.req == op.req && t.newDispatch == op.newDispatch && t.event == op.event
    requires op.req.dispatch in db.core.dispatches && ForeignKeysOfMove(db.core, t) && t.w == MovedWrites(db.core, t)
    ensures var Reassign(_, i, u, k) := op.req;
            var w := Writes(t.w.units, t.w.dispatches[t.newDispatch := Dispatch(i, u, DispatchReserved)],
                            MovedIncidents(db.core, db.incidents, t), map[t.event := Event(k, t.newDispatch)]);
            Db(Merge(db.core, w), db.incidents + w.incidents) == Run(db, op).value
  {
    RunIsEffect(db, op);
    MovedIncidentsAgree(db, op, t);
    var Core(units, dispatches, events) := db.core;
    var Reassign(d, i, u, k) := op.req;
    hide Run, Effect, Guard, MovedIncidents, UnitFree, HeldOnlyBy, IncidentEffect;
    ReassignEffect(db.core, op);
    assert dispatches + t.w.dispatches[t.newDispatch := Dispatch(i, u, DispatchReserved)] == Effect(db.core, op).dispatches;
    assert events + map[t.event := Event(k, t.newDispatch)] == Effect(db.core, op).events;
    assert units + t.w.units == Effect(db.core, op).units;
  }

  lemma MovedIncidentsAgree(db: Db, op: Op, t: Txn)
    requires ForeignKeys(db) && op.req.Reassign? && Run(db, op).Ok?
    requires t.req == op.req && t.newDispatch == op.newDispatch && op.req.dispatch in db.core.dispatches
    ensures db.incidents + MovedIncidents(db.core, db.incidents, t) == Run(db, op).value.incidents
  {
    hide UnitFree, IncidentUnserved, DispatchableIncident, UnitError;
    MarksAlike(db.incidents, op.req.incident);
  }

  // --- Advances and status changes ---

  /** The writes of an advance up to its unit. */
  function AdvanceWrites(core: Core, t: Txn): Writes
    requires t.req.Advance? && t.req.dispatch in core.dispatches && core.dispatches[t.req.dispatch].unit in core.units
  {
    var row := core.dispatches[t.req.dispatch];
    Writes(map[row.unit := SetUnitStatus(core.units[row.unit], UnitStatusForDispatch(t.req.to))],
           map[t.req.dispatch := row.(status := t.req.to)], map[], map[])
  }

  lemma AdvanceFront(core: Core, incidents: map<IncidentId, Incident>, t: Txn)
    requires t.req.Advance? && t.pc == Begun && t.w == NO_WRITES
    requires t.req.dispatch in core.dispatches && core.dispatches[t.req.dispatch].unit in core.units
    ensures Play(core, incidents, t) ==
              if CanTransitionDispatch(core.dispatches[t.req.dispatch].status, t.req.to)
              then Play(core, incidents, t.(pc := UnitsWritten, w := AdvanceWrites(core, t))) else Err(ErrIllegalDispatchTransition)
  {
    hide Play, CanTransitionDispatch, IncidentUnserved;
    var Advance(d, to) := t.req;
    var row := core.dispatches[d];
    if CanTransitionDispatch(row.status, to) {
      var locked := t.(pc := DispatchLocked);
      var ended := locked.(pc := OldEnded, w := t.w.(dispatches := map[d := row.(status := to)]));
      Goes(core, incidents, t, locked);
      Goes(core, incidents, locked, ended);
      Goes(core, incidents, ended, WithUnit(ended, UnitsWritten, row.unit, SetUnitStatus(core.units[row.unit], UnitStatusForDispatch(to))));
    } else {
      Ends(core, incidents, t);
    }
  }

  lemma AdvanceBack(core: Core, incidents: map<IncidentId, Incident>, t: Txn)
    requires t.req.Advance? && t.pc == UnitsWritten && t.w.incidents == map[] && t.w.events == map[] && t.req.dispatch in core.dispatches
    ensures var i := core.dispatches[t.req.dispatch].incident;
            Play(core, incidents, t) ==
              if t.req.to != DispatchCompleted then Ok(t.w)
              else Ok(t.w.(incidents := if IncidentUnserved(Seen(core, t), i) && InDispatch(incidents, i)
                                        then map[i := incidents[i].(status := Resolved)] else map[],
                           events := map[t.event := Event(Completed, t.req.dispatch)]))
  {
    hide Play, CanTransitionDispatch, IncidentUnserved, Seen, ExecReserve, ExecOptimistic, ExecReassign, UnitStatusForDispatch;
    if t.req.to == DispatchCompleted {
      var i := core.dispatches[t.req.dispatch].incident;
      var counted := t.(pc := Counted, lastOne := IncidentUnserved(Seen(core, t), i));
      var settled := Settle(incidents, counted, i, Resolved);
      Goes(core, incidents, t, counted);
      Goes(core, incidents, counted, settled);
      Goes(core, incidents, settled, WithEvent(settled));
      Ends(core, incidents, WithEvent(settled));
    } else {
      Goes(core, incidents, t, t.(pc := ReadyToCommit));
      Ends(core, incidents, t.(pc := ReadyToCommit));
    }
  }

  lemma AdvanceAgrees(db: Db, op: Op)
    requires ForeignKeys(db) && op.req.Advance?
    ensures Agrees(db, op, Play(db.core, db.incidents, Started(op)))
  {
    var Db(core, incidents) := db;
    var Advance(d, to) := op.req;
    var t := Started(op);
    hide Play, CanTransitionDispatch, IncidentUnserved, Exec;
    if d !in core.dispatches {
      MissingDispatch(core, incidents, t);
    } else {
      AdvanceFront(core, incidents, t);
      var row := core.dispatches[d];
      if CanTransitionDispatch(row.status, to) {
        var written := t.(pc := UnitsWritten, w := AdvanceWrites(core, t));
        AdvanceBack(core, incidents, written);
        assert Seen(core, written) == core.dispatches[d := Dispatch(row.incident, row.unit, to)];
        AdvancedRowsAgree(db, op, Play(core, incidents, written).value);
      }
    }
  }

  lemma AdvancedRowsAgree(db: Db, op: Op, w: Writes)
    requires ForeignKeys(db) && op.req.Advance? && Run(db, op).Ok? && op.req.dispatch in db.core.dispatches
    requires w.units == AdvanceWrites(db.core, Started(op)).units && w.dispatches == AdvanceWrites(db.core, Started(op)).dispatches
    requires w.events == if op.req.to == DispatchCompleted then map[op.event := Event(Completed, op.req.dispatch)] else map[]
    requires var row := db.core.dispatches[op.req.dispatch];
             var after := db.core.dispatches[op.req.dispatch := Dispatch(row.incident, row.unit, op.req.to)];
             w.incidents == if op.req.to == DispatchCompleted && IncidentUnserved(after, row.incident) && InDispatch(db.incidents, row.incident)
                            then map[row.incident := db.incidents[row.incident].(status := Resolved)] else map[]
    ensures Db(Merge(db.core, w), db.incidents + w.incidents) == Run(db, op).value
  {
    var Core(units, dispatches, events) := db.core;
    var Advance(d, to) := op.req;
    var row := dispatches[d];
    var after := dispatches[d := Dispatch(row.incident, row.unit, to)];
    AdvancedIncidents(db.incidents, w.incidents, row.incident, to == DispatchCompleted && IncidentUnserved(after, row.incident));
    hide IncidentUnserved, CanTransitionDispatch, UnitStatusForDispatch, LeaveDispatched, InDispatch, RunReserve, RunReassign, RunOperator;
    assert units + w.units == units[row.unit := SetUnitStatus(units[row.unit], UnitStatusForDispatch(to))];
    assert dispatches + w.dispatches == after;
    assert events + w.events == if to == DispatchCompleted then events[op.event := Event(Completed, d)] else events;
  }

  lemma AdvancedIncidents(incidents: map<IncidentId, Incident>, written: map<IncidentId, Incident>, i: IncidentId, last: bool)
    requires written == if last && InDispatch(incidents, i) then map[i := incidents[i].(status := Resolved)] else map[]
    ensures incidents + written == if last then LeaveDispatched(incidents, i, Resolved) else incidents
  {
  }

  lemma OverrideAgrees(db: Db, op: Op)
    requires ForeignKeys(db) && op.req.Override?
    ensures Agrees(db, op, Play(db.core, db.incidents, Started(op)))
  {
    hide Play, ExecReserve, ExecOptimistic, ExecAdvance, ExecReassign, RunReserve, RunAdvance, RunReassign, RunOperator;
    var t, u := Started(op), op.req.unit;
    if u in db.core.units {
      var written := WithUnit(t, ReadyToCommit, u, SetUnitStatus(db.core.units[u], op.req.status));
      Goes(db.core, db.incidents, t, written);
      Ends(db.core, db.incidents, written);
      assert db.core.units + written.w.units == db.core.units[u := SetUnitStatus(db.core.units[u], op.req.status)];
    } else {
      Ends(db.core, db.incidents, t);
    }
  }

  lemma OperatorAgrees(db: Db, op: Op)
    requires ForeignKeys(db) && op.req.Operator?
    ensures Agrees(db, op, Play(db.core, db.incidents, Started(op)))
  {
    hide Play, CanTransitionIncident, ExecReserve, ExecOptimistic, ExecAdvance, ExecReassign, RunReserve, RunAdvance, RunReassign;
    var t, i, to := Started(op), op.req.incident, op.req.target;
    if i in db.incidents && CanTransitionIncident(db.incidents[i].status, to) {
      var read := t.(pc := StatusRead);
      var written := t.(pc := ReadyToCommit, w := t.w.(incidents := map[i := db.incidents[i].(status := to)]));
      Goes(db.core, db.incidents, t, read);
      Goes(db.core, db.incidents, read, written);
      Ends(db.core, db.incidents, written);
      assert Merge(db.core, written.w) == db.core;
    } else {
      Ends(db.core, db.incidents, t);
    }
  }

  lemma PlaysAsRun(db: Db, op: Op)
    requires ForeignKeys(db) && FreshIds(db.core, op)
    ensures Agrees(db, op, Play(db.core, db.incidents, Started(op)))
  {
    hide Play, Agrees;
    match op.req
    case Reserve(_, _) => ReserveAgrees(db, op);
    case ReserveOptimistic(_, _) => ReserveOptimisticAgrees(db, op);
    case Advance(_, _) => AdvanceAgrees(db, op);
    case Reassign(_, _, _, _) => ReassignAgrees(db, op);
    case Override(_, _) => OverrideAgrees(db, op);
    case Operator(_, _) => OperatorAgrees(db, op);
  }

  // --- In the system ---

  /** Transaction id is the only open one and holds every lock. */
  predicate OnlyOne(s: Sys, id: TxId) { s.txns.Keys == {id} && forall k | k in s.locks :: s.locks[k] == id }

  function After(s: Sys, id: TxId, n: nat): Sys
    decreases n
  {
    if n == 0 then s else After(Apply(s, Statement(id)), id, n - 1)
  }

  /** The next n statements of transaction id, one after the other, and nothing else. */
  ghost predicate CanGo(s: Sys, id: TxId, n: nat)
    decreases n
  {
    n == 0 || (Enabled(s, Statement(id)) && CanGo(Apply(s, Statement(id)), id, n - 1))
  }

  lemma NobodyToWaitFor(s: Sys, id: TxId)
    requires OnlyOne(s, id)
    ensures Enabled(s, Statement(id))
    ensures !Exec(s.core, s.incidents, s.txns[id]).RolledBack? && !Exec(s.core, s.incidents, s.txns[id]).Committed? ==>
              OnlyOne(Apply(s, Statement(id)), id)
  {
    hide Exec, NextRow;
    assert id in s.txns;
  }

  /** From here it runs to its end: every row committed or none, the log extended or not, and no lock left. */
  lemma {:induction false} GoesToItsEnd(s: Sys, id: TxId) returns (n: nat)
    requires OnlyOne(s, id)
    ensures CanGo(s, id, n) && After(s, id, n).txns == map[] && After(s, id, n).locks == map[]
    ensures var r, end := Play(s.core, s.incidents, s.txns[id]), After(s, id, n);
            if r.Ok? then end.core == Merge(s.core, r.value) && end.incidents == s.incidents + r.value.incidents
                          && end.log == s.log + [OpOf(s.txns[id])] && end.history == s.history + [end.core]
            else end.core == s.core && end.incidents == s.incidents && end.log == s.log && end.history == s.history
    decreases MAX_OPTIMISTIC_RETRIES - s.txns[id].attempt, 14 - Stage(s.txns[id].pc)
  {
    hide Exec, NextRow, Enabled, Merge;
    NobodyToWaitFor(s, id);
    StatementsAdvance(s.core, s.incidents, s.txns[id]);
    var next := Apply(s, Statement(id));
    match Exec(s.core, s.incidents, s.txns[id])
    case Next(_) =>
      var m := GoesToItsEnd(next, id);
      n := m + 1;
    case Retry(_) =>
      var m := GoesToItsEnd(next, id);
      n := m + 1;
    case _ =>
      n := 1;
      assert After(next, id, 0) == next && CanGo(next, id, 0);
      NothingLeft(s, id);
  }

  lemma NothingLeft(s: Sys, id: TxId)
    requires OnlyOne(s, id)
    ensures s.txns - {id} == map[] && Release(s.locks, id) == map[]
  {
  }

  /**
   Undisturbed, a transaction gets through: none of its statements waits, and it ends with the rows the atomic
   operation leaves if that succeeds, and with everything as it was if that refuses.
   */
  lemma RunsToItsAnswer(s: Sys, id: TxId, op: Op) returns (n: nat)
    requires s.txns == map[id := Started(op)] && s.locks == map[]
    requires ForeignKeys(Db(s.core, s.incidents)) && FreshIds(s.core, op)
    ensures CanGo(s, id, n) && After(s, id, n).txns == map[] && After(s, id, n).locks == map[]
    ensures var end, r := After(s, id, n), Run(Db(s.core, s.incidents), op);
            if r.Ok? then Db(end.core, end.incidents) == r.value && end.log == s.log + [op] && end.history == s.history + [end.core]
            else Db(end.core, end.incidents) == Db(s.core, s.incidents) && end.log == s.log
                 && Play(s.core, s.incidents, s.txns[id]) == Err(r.error)
  {
    hide Play, After, CanGo, Run, Merge;
    PlaysAsRun(Db(s.core, s.incidents), op);
    n := GoesToItsEnd(s, id);
  }
}
