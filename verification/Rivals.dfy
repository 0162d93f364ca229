/** What other transactions commit between two statements, or two attempts, of one caller. */
module Rivals {
  import opened Rows
  import opened AtomicOps
  import opened Answers
  import opened DispatchInvariants

  /** The operations of `ops` that apply, one after the other; identifiers `n` and `e` are taken. */
  function Meanwhile(db: Db, ops: seq<Op>, n: DispatchId, e: EventId): (r: Db)
    requires ForeignKeys(db)
    ensures ForeignKeys(r)
    decreases |ops|
  {
    if ops == [] then db
    else
      var op := ops[0];
      if FreshIds(db.core, op) && op.newDispatch != n && op.event != e && Run(db, op).Ok?
      then (ForeignKeysKept(db, op); Meanwhile(Run(db, op).value, ops[1..], n, e))
      else Meanwhile(db, ops[1..], n, e)
  }

  lemma RunTakesNoOtherIds(db: Db, op: Op, n: DispatchId, e: EventId)
    requires ForeignKeys(db) && FreshIds(db.core, op) && Run(db, op).Ok? && op.newDispatch != n && op.event != e
    requires n !in db.core.dispatches && e !in db.core.events
    ensures n !in Run(db, op).value.core.dispatches && e !in Run(db, op).value.core.events
  {
  }

  lemma {:induction false} MeanwhileTakesNoOtherIds(db: Db, ops: seq<Op>, n: DispatchId, e: EventId)
    requires ForeignKeys(db) && n !in db.core.dispatches && e !in db.core.events
    ensures n !in Meanwhile(db, ops, n, e).core.dispatches && e !in Meanwhile(db, ops, n, e).core.events
    decreases |ops|
  {
    hide Run;
    if ops != [] {
      var op := ops[0];
      if FreshIds(db.core, op) && op.newDispatch != n && op.event != e && Run(db, op).Ok? {
        RunTakesNoOtherIds(db, op, n, e);
        ForeignKeysKept(db, op);
        MeanwhileTakesNoOtherIds(Run(db, op).value, ops[1..], n, e);
      } else {
        MeanwhileTakesNoOtherIds(db, ops[1..], n, e);
      }
    }
  }

  predicate Bumped(before: Unit, after: Unit) { after.version > before.version || after == before }

  lemma ReassignBumps(db: Db, op: Op, u: UnitId)
    requires ForeignKeys(db) && op.req.Reassign? && Run(db, op).Ok? && u in db.core.units
    ensures u in Run(db, op).value.core.units && Bumped(db.core.units[u], Run(db, op).value.core.units[u])
  {
  }

  /** Every unit write bumps the version, so a version that stands still means the row did. */
  lemma RunBumps(db: Db, op: Op, u: UnitId)
    requires ForeignKeys(db) && Run(db, op).Ok? && u in db.core.units
    ensures u in Run(db, op).value.core.units && Bumped(db.core.units[u], Run(db, op).value.core.units[u])
  {
    if op.req.Reassign? { ReassignBumps(db, op, u); }
  }

  lemma {:induction false} RivalsBumpVersions(db: Db, ops: seq<Op>, n: DispatchId, e: EventId, u: UnitId)
    requires ForeignKeys(db) && u in db.core.units
    ensures u in Meanwhile(db, ops, n, e).core.units && Bumped(db.core.units[u], Meanwhile(db, ops, n, e).core.units[u])
    decreases |ops|
  {
    hide Run;
    if ops != [] {
      var op := ops[0];
      if FreshIds(db.core, op) && op.newDispatch != n && op.event != e && Run(db, op).Ok? {
        RunBumps(db, op, u);
        ForeignKeysKept(db, op);
        RivalsBumpVersions(Run(db, op).value, ops[1..], n, e, u);
      } else {
        RivalsBumpVersions(db, ops[1..], n, e, u);
      }
    }
  }

  // --- What others' transactions cannot undo ---

  /** Rows stay, a dispatch keeps its unit and its incident, and what is over stays over. */
  ghost predicate Persists(db: Db, after: Db) {
    && (forall d | d in db.core.dispatches ::
          && d in after.core.dispatches
          && after.core.dispatches[d].unit == db.core.dispatches[d].unit && after.core.dispatches[d].incident == db.core.dispatches[d].incident
          && (Underway(after.core.dispatches[d].status) ==> Underway(db.core.dispatches[d].status)))
    && (forall i | i in db.incidents :: i in after.incidents && (Over(db.incidents[i].status) ==> Over(after.incidents[i].status)))
  }

  lemma RunPersists(db: Db, op: Op)
    requires ForeignKeys(db) && FreshIds(db.core, op) && Run(db, op).Ok?
    ensures Persists(db, Run(db, op).value)
  {
    forall i | i in db.incidents
      ensures i in Run(db, op).value.incidents && (Over(db.incidents[i].status) ==> Over(Run(db, op).value.incidents[i].status))
    {
      TerminalAbsorbs(db, op, i);
    }
    forall d | d in db.core.dispatches
      ensures d in Run(db, op).value.core.dispatches
      ensures var row, now := db.core.dispatches[d], Run(db, op).value.core.dispatches[d];
              now.unit == row.unit && now.incident == row.incident && (Underway(now.status) ==> Underway(row.status))
    {
      RunPersistsAt(db, op, d);
    }
  }

  lemma RunPersistsAt(db: Db, op: Op, d: DispatchId)
    requires ForeignKeys(db) && FreshIds(db.core, op) && Run(db, op).Ok? && d in db.core.dispatches
    ensures d in Run(db, op).value.core.dispatches
    ensures var row, now := db.core.dispatches[d], Run(db, op).value.core.dispatches[d];
            now.unit == row.unit && now.incident == row.incident && (Underway(now.status) ==> Underway(row.status))
  {
    hide UnitFree, IncidentUnserved, MarkDispatched, LeaveDispatched;
  }

  lemma {:induction false} MeanwhilePersists(db: Db, ops: seq<Op>, n: DispatchId, e: EventId)
    requires ForeignKeys(db)
    ensures Persists(db, Meanwhile(db, ops, n, e))
    decreases |ops|
  {
    hide Run;
    if ops != [] {
      var op := ops[0];
      if FreshIds(db.core, op) && op.newDispatch != n && op.event != e && Run(db, op).Ok? {
        RunPersists(db, op);
        ForeignKeysKept(db, op);
        MeanwhilePersists(Run(db, op).value, ops[1..], n, e);
      } else {
        MeanwhilePersists(db, ops[1..], n, e);
      }
    }
  }
}
