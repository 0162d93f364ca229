/**
 The repositories themselves, statement by statement: a transaction works on its
 own copy of the rows, an early return drops the copy (the deferred rollback), and
 commit publishes it. Each method is proved to be the atomic operation.
 */
module DispatchStore {
  import opened Results
  import opened Rows
  import opened AtomicOps
  import opened DispatchInvariants
  import opened Answers
  import opened Rivals

  class Database {
    var units: map<UnitId, Unit>
    var dispatches: map<DispatchId, Dispatch>
    var incidents: map<IncidentId, Incident>
    var events: map<EventId, Event>

    constructor (db: Db)
      ensures View() == db
    {
      units, dispatches, incidents, events := db.core.units, db.core.dispatches, db.incidents, db.core.events;
    }

    ghost function View(): Db
      reads this
    {
      Db(Core(units, dispatches, events), incidents)
    }
  }

  class Tx {
    var units: map<UnitId, Unit>
    var dispatches: map<DispatchId, Dispatch>
    var incidents: map<IncidentId, Incident>
    var events: map<EventId, Event>
    /** The unit rows this transaction has locked, in the order it took them. */
    var locked: seq<UnitId>

    constructor Begin(home: Database)
      ensures View() == home.View() && locked == []
    {
      locked := [];
      units, dispatches, incidents, events := home.units, home.dispatches, home.incidents, home.events;
    }

    ghost function View(): Db
      reads this
    {
      Db(Core(units, dispatches, events), incidents)
    }

    /** Before its first write a READ COMMITTED transaction sees whatever has been committed meanwhile. */
    method SeeCommitted(home: Database)
      modifies `units, `dispatches, `incidents, `events
      ensures View() == home.View()
    {
      units, dispatches, incidents, events := home.units, home.dispatches, home.incidents, home.events;
    }

    method Commit(home: Database)
      modifies home
      ensures home.View() == View() && View() == old(View())
    {
      home.units, home.dispatches, home.incidents, home.events := units, dispatches, incidents, events;
    }

    // --- unit repository ---

    /** SELECT ... FOR UPDATE: a row that is there is locked, once. */
    method LockForReserve(u: UnitId) returns (r: Result<UnitStatus, Error>)
      modifies `locked
      ensures r == if u in units then Ok(units[u].status) else Err(ErrUnitNotFound)
      ensures locked == if u in units && u !in old(locked) then old(locked) + [u] else old(locked)
    {
      if u !in units { return Err(ErrUnitNotFound); }
      if u !in locked { locked := locked + [u]; }
      return Ok(units[u].status);
    }

    method ReadVersion(u: UnitId) returns (r: Result<(UnitStatus, int), Error>)
      ensures r == if u in units then Ok((units[u].status, units[u].version)) else Err(ErrUnitNotFound)
    {
      if u !in units { return Err(ErrUnitNotFound); }
      return Ok((units[u].status, units[u].version));
    }

    method SetStatus(u: UnitId, s: UnitStatus)
      modifies `units
      ensures units == if u in old(units) then old(units)[u := SetUnitStatus(old(units)[u], s)] else old(units)
    {
      if u in units { units := units[u := Unit(s, units[u].version + 1)]; }
    }

    method MarkUnitReserved(u: UnitId)
      modifies `units
      ensures units == if u in old(units) then old(units)[u := MarkReserved(old(units)[u])] else old(units)
    {
      SetStatus(u, UnitReserved);
    }

    /** Compare-and-swap: writes only the row whose version is the one the caller read. */
    method MarkReservedCAS(u: UnitId, version: int) returns (won: bool)
      modifies `units
      ensures won <==> u in old(units) && old(units)[u].version == version
      ensures units == if won then old(units)[u := MarkReserved(old(units)[u])] else old(units)
    {
      won := u in units && units[u].version == version;
      if won { units := units[u := Unit(UnitReserved, units[u].version + 1)]; }
    }

    // --- incident repository ---

    method IncidentStatusOf(i: IncidentId) returns (r: Result<IncidentStatus, Error>)
      ensures r == if i in incidents then Ok(incidents[i].status) else Err(ErrIncidentNotFound)
    {
      if i !in incidents { return Err(ErrIncidentNotFound); }
      return Ok(incidents[i].status);
    }

    method MarkIncidentDispatched(i: IncidentId)
      modifies `incidents
      ensures incidents == MarkDispatched(old(incidents), i)
    {
      if i in incidents && (incidents[i].status == Reported || incidents[i].status == Verified) {
        incidents := incidents[i := incidents[i].(status := Dispatched)];
      }
    }

    method ResolveIfDispatched(i: IncidentId)
      modifies `incidents
      ensures incidents == LeaveDispatched(old(incidents), i, Resolved)
    {
      if i in incidents && incidents[i].status == Dispatched {
        incidents := incidents[i := incidents[i].(status := Resolved)];
      }
    }

    method RevertToVerified(i: IncidentId)
      modifies `incidents
      ensures incidents == LeaveDispatched(old(incidents), i, Verified)
    {
      if i in incidents && incidents[i].status == Dispatched {
        incidents := incidents[i := incidents[i].(status := Verified)];
      }
    }

    // --- dispatch and outbox tables ---

    method CountActive(i: IncidentId) returns (n: nat)
      ensures n == 0 <==> IncidentUnserved(dispatches, i)
    {
      n := ActiveCount(dispatches, i);
      CountIsZero(dispatches, i);
    }

    method SetDispatchStatus(d: DispatchId, s: DispatchStatus)
      modifies `dispatches
      ensures dispatches == if d in old(dispatches) then old(dispatches)[d := old(dispatches)[d].(status := s)] else old(dispatches)
    {
      if d in dispatches { dispatches := dispatches[d := dispatches[d].(status := s)]; }
    }

    /** The insert the partial unique index guards; a violation reads as "unit not available". */
    method InsertDispatch(d: DispatchId, i: IncidentId, u: UnitId) returns (r: Result<Dispatch, Error>)
      modifies `dispatches
      ensures r == if UnitFree(old(dispatches), u) then Ok(Dispatch(i, u, DispatchReserved)) else Err(ErrUnitNotAvailable)
      ensures dispatches == if r.Ok? then old(dispatches)[d := r.value] else old(dispatches)
    {
      if !UnitFree(dispatches, u) { return Err(ErrUnitNotAvailable); }
      var row := Dispatch(i, u, DispatchReserved);
      dispatches := dispatches[d := row];
      return Ok(row);
    }

    method WriteEvent(e: EventId, kind: EventKind, d: DispatchId)
      modifies `events
      ensures events == old(events)[e := Event(kind, d)]
    {
      events := events[e := Event(kind, d)];
    }
  }

  datatype Attempt = Done(answer: Result<Dispatch, Error>, db: Db) | Again(db: Db)

  /** What a won swap leads to: the incident was checked before it, and only the index can still refuse. */
  function SwapOutcome(db: Db, i: IncidentId, u: UnitId, d: DispatchId, e: EventId): (r: Attempt)
    requires ForeignKeys(db) && u in db.core.units && i in db.incidents
    ensures ForeignKeys(r.db)
  {
    var Core(units, dispatches, events) := db.core;
    var row := Dispatch(i, u, DispatchReserved);
    if !UnitFree(dispatches, u) then Done(Err(ErrUnitNotAvailable), db)
    else Done(Ok(row), Db(Core(units[u := MarkReserved(units[u])], dispatches[d := row], events[e := Event(Created, d)]),
                          MarkDispatched(db.incidents, i)))
  }

  lemma RunKeepsIncidents(db: Db, op: Op, i: IncidentId)
    requires ForeignKeys(db) && Run(db, op).Ok? && i in db.incidents
    ensures i in Run(db, op).value.incidents
  {
  }

  lemma {:induction false} RivalsKeepIncidents(db: Db, ops: seq<Op>, n: DispatchId, e: EventId, i: IncidentId)
    requires ForeignKeys(db) && i in db.incidents
    ensures i in Meanwhile(db, ops, n, e).incidents
    decreases |ops|
  {
    hide Run;
    if ops != [] {
      var op := ops[0];
      if FreshIds(db.core, op) && op.newDispatch != n && op.event != e && Run(db, op).Ok? {
        RunKeepsIncidents(db, op, i);
        ForeignKeysKept(db, op);
        RivalsKeepIncidents(Run(db, op).value, ops[1..], n, e, i);
      } else {
        RivalsKeepIncidents(db, ops[1..], n, e, i);
      }
    }
  }

  /** What rivals commit during one optimistic attempt: between its two reads, and before its swap. */
  datatype Gaps = Gaps(amid: seq<Op>, swap: seq<Op>)

  function AtSwap(db: Db, gaps: Gaps, d: DispatchId, e: EventId): (r: Db)
    requires ForeignKeys(db)
    ensures ForeignKeys(r)
  {
    Meanwhile(Meanwhile(db, gaps.amid, d, e), gaps.swap, d, e)
  }

  lemma GapsBumpVersions(db: Db, gaps: Gaps, d: DispatchId, e: EventId, u: UnitId)
    requires ForeignKeys(db) && u in db.core.units
    ensures u in AtSwap(db, gaps, d, e).core.units && Bumped(db.core.units[u], AtSwap(db, gaps, d, e).core.units[u])
  {
    hide Meanwhile;
    RivalsBumpVersions(db, gaps.amid, d, e, u);
    RivalsBumpVersions(Meanwhile(db, gaps.amid, d, e), gaps.swap, d, e, u);
  }

  /** One optimistic attempt: the unit is read first, then the incident, then the swap is tried. */
  function AttemptOutcome(db: Db, i: IncidentId, u: UnitId, d: DispatchId, e: EventId, gaps: Gaps): (r: Attempt)
    requires ForeignKeys(db)
    ensures ForeignKeys(r.db)
  {
    var mid := Meanwhile(db, gaps.amid, d, e);
    if UnitError(db.core, u).Err? then Done(Err(UnitError(db.core, u).error), db)
    else if DispatchableIncident(mid.incidents, i).Err? then Done(Err(DispatchableIncident(mid.incidents, i).error), mid)
    else
      GapsBumpVersions(db, gaps, d, e, u);
      RivalsKeepIncidents(mid, gaps.swap, d, e, i);
      var seen := AtSwap(db, gaps, d, e);
      if seen.core.units[u].version != db.core.units[u].version then Again(seen) else SwapOutcome(seen, i, u, d, e)
  }

  /** The rows of a won swap: the incident was checked before it, so it may be over by now and is then left alone. */
  ghost predicate SwapWrites(db: Db, i: IncidentId, u: UnitId, d: DispatchId, e: EventId, after: Db)
    requires u in db.core.units && i in db.incidents
  {
    && after.core == Core(db.core.units[u := Unit(UnitReserved, db.core.units[u].version + 1)],
                          db.core.dispatches[d := Dispatch(i, u, DispatchReserved)], db.core.events[e := Event(Created, d)])
    && after.incidents ==
         if db.incidents[i].status in {Reported, Verified} then db.incidents[i := db.incidents[i].(status := Dispatched)] else db.incidents
  }

  /** The unit was free when read and the incident open when read, and since then the unit's row has been written. */
  ghost predicate LosesSwap(db: Db, i: IncidentId, u: UnitId, d: DispatchId, e: EventId, gaps: Gaps)
    requires ForeignKeys(db)
  {
    var mid, seen := Meanwhile(db, gaps.amid, d, e), AtSwap(db, gaps, d, e);
    && Available(db.core.units, u) && Open(mid.incidents, i)
    && u in seen.core.units && seen.core.units[u].version != db.core.units[u].version
  }

  /** What one attempt answers, from the rows each of its statements finds. */
  ghost predicate AttemptAnswer(db: Db, i: IncidentId, u: UnitId, d: DispatchId, e: EventId, gaps: Gaps, r: Result<Dispatch, Error>)
    requires ForeignKeys(db)
  {
    var mid, seen := Meanwhile(db, gaps.amid, d, e), AtSwap(db, gaps, d, e);
    var wins := Available(db.core.units, u) && Open(mid.incidents, i) && !LosesSwap(db, i, u, d, e, gaps);
    && (r == Err(ErrUnitNotFound) <==> u !in db.core.units)
    && (r == Err(ErrIncidentNotFound) <==> Available(db.core.units, u) && i !in mid.incidents)
    && (r == Err(ErrIncidentNotDispatchable) <==>
          Available(db.core.units, u) && i in mid.incidents && Over(mid.incidents[i].status))
    && (r == Err(ErrReservationConflict) <==> LosesSwap(db, i, u, d, e, gaps))
    && (r == Err(ErrUnitNotAvailable) <==>
          || (u in db.core.units && db.core.units[u].status != UnitAvailable)
          || (wins && HeldBesides(seen.core.dispatches, u, {})))
    && (r == Ok(Dispatch(i, u, DispatchReserved)) <==> wins && !HeldBesides(seen.core.dispatches, u, {}))
  }

  lemma AttemptIsAnswered(db: Db, i: IncidentId, u: UnitId, d: DispatchId, e: EventId, gaps: Gaps)
    requires ForeignKeys(db)
    ensures var a := AttemptOutcome(db, i, u, d, e, gaps);
            && (a.Again? <==> LosesSwap(db, i, u, d, e, gaps)) && (a.Done? ==> a.answer != Err(ErrReservationConflict))
            && AttemptAnswer(db, i, u, d, e, gaps, if a.Again? then Err(ErrReservationConflict) else a.answer)
            && (a.Done? && a.answer.Ok? ==>
                  var seen := AtSwap(db, gaps, d, e);
                  u in seen.core.units && i in seen.incidents && SwapWrites(seen, i, u, d, e, a.db))
  {
    var mid, seen := Meanwhile(db, gaps.amid, d, e), AtSwap(db, gaps, d, e);
    HeldIff(seen.core.dispatches, u);
    if u in db.core.units { GapsBumpVersions(db, gaps, d, e, u); }
    if i in mid.incidents { RivalsKeepIncidents(mid, gaps.swap, d, e, i); }
    hide Meanwhile, AtSwap, UnitFree, HeldBesides, ForeignKeys;
  }

  /** What the whole call answers: the first attempt that does not lose its swap decides, and three lost ones are a conflict. */
  ghost predicate OptimisticAnswer(db: Db, i: IncidentId, u: UnitId, d: DispatchId, e: EventId, rivals: seq<Gaps>, r: Result<Dispatch, Error>)
    requires ForeignKeys(db)
    decreases |rivals|
  {
    if rivals == [] then r == Err(ErrReservationConflict)
    else if LosesSwap(db, i, u, d, e, rivals[0]) then OptimisticAnswer(AtSwap(db, rivals[0], d, e), i, u, d, e, rivals[1..], r)
    else AttemptAnswer(db, i, u, d, e, rivals[0], r)
  }

  lemma {:induction false} CallIsAnswered(db: Db, i: IncidentId, u: UnitId, d: DispatchId, e: EventId, rivals: seq<Gaps>)
    requires ForeignKeys(db)
    ensures OptimisticAnswer(db, i, u, d, e, rivals, OptimisticOutcome(db, i, u, d, e, rivals).0)
    decreases |rivals|
  {
    hide AttemptOutcome, LosesSwap, AttemptAnswer, AtSwap;
    if rivals != [] {
      AttemptIsAnswered(db, i, u, d, e, rivals[0]);
      var a := AttemptOutcome(db, i, u, d, e, rivals[0]);
      if a.Again? {
        AgainMeansBumped(db, i, u, d, e, rivals[0]);
        CallIsAnswered(a.db, i, u, d, e, rivals[1..]);
      }
    }
  }

  /** The whole optimistic call as a function of what rivals commit: its answer and the database it leaves. */
  function OptimisticOutcome(db: Db, i: IncidentId, u: UnitId, d: DispatchId, e: EventId,
                             rivals: seq<Gaps>): (r: (Result<Dispatch, Error>, Db))
    requires ForeignKeys(db)
    decreases |rivals|
  {
    if rivals == [] then (Err(ErrReservationConflict), db)
    else match AttemptOutcome(db, i, u, d, e, rivals[0])
         case Done(answer, after) => (answer, after)
         case Again(seen) => OptimisticOutcome(seen, i, u, d, e, rivals[1..])
  }

  /** A won swap took a unit that was available: the row it marks is the one that was read. */
  lemma WonSwapWasAvailable(db: Db, i: IncidentId, u: UnitId, d: DispatchId, e: EventId, gaps: Gaps)
    requires ForeignKeys(db) && AttemptOutcome(db, i, u, d, e, gaps).Done? && AttemptOutcome(db, i, u, d, e, gaps).answer.Ok?
    ensures u in db.core.units && u in AtSwap(db, gaps, d, e).core.units
    ensures AtSwap(db, gaps, d, e).core.units[u] == db.core.units[u] && db.core.units[u].status == UnitAvailable
  {
    GapsBumpVersions(db, gaps, d, e, u);
  }

  lemma AgainMeansBumped(db: Db, i: IncidentId, u: UnitId, d: DispatchId, e: EventId, gaps: Gaps)
    requires ForeignKeys(db) && AttemptOutcome(db, i, u, d, e, gaps).Again?
    ensures var seen := AtSwap(db, gaps, d, e);
            && AttemptOutcome(db, i, u, d, e, gaps).db == seen && ForeignKeys(seen)
            && u in db.core.units && u in seen.core.units && seen.core.units[u].version >= db.core.units[u].version + 1
  {
    GapsBumpVersions(db, gaps, d, e, u);
  }

  lemma ConflictNeedsAgain(db: Db, i: IncidentId, u: UnitId, d: DispatchId, e: EventId, gaps: Gaps)
    requires ForeignKeys(db) && AttemptOutcome(db, i, u, d, e, gaps).Done?
    ensures AttemptOutcome(db, i, u, d, e, gaps).answer != Err(ErrReservationConflict)
  {
  }

  /** Giving up after n rounds means the unit was written at least n times. */
  lemma {:induction false} ConflictCountsWrites(db: Db, i: IncidentId, u: UnitId, d: DispatchId, e: EventId, rivals: seq<Gaps>)
    requires ForeignKeys(db) && u in db.core.units
    requires OptimisticOutcome(db, i, u, d, e, rivals).0 == Err(ErrReservationConflict)
    ensures u in OptimisticOutcome(db, i, u, d, e, rivals).1.core.units
    ensures OptimisticOutcome(db, i, u, d, e, rivals).1.core.units[u].version >= db.core.units[u].version + |rivals|
    decreases |rivals|
  {
    hide AttemptOutcome;
    if rivals != [] {
      if AttemptOutcome(db, i, u, d, e, rivals[0]).Done? {
        ConflictNeedsAgain(db, i, u, d, e, rivals[0]);
      } else {
        AgainMeansBumped(db, i, u, d, e, rivals[0]);
        ConflictCountsWrites(AttemptOutcome(db, i, u, d, e, rivals[0]).db, i, u, d, e, rivals[1..]);
      }
    }
  }

  class DispatchRepository {
    const db: Database

    constructor (db: Database)
      ensures this.db == db
    {
      this.db := db;
    }

    method Reserve(i: IncidentId, u: UnitId, d: DispatchId, e: EventId) returns (r: Result<Dispatch, Error>)
      requires ForeignKeys(db.View()) && FreshIds(db.View().core, Op(AtomicOps.Reserve(i, u), d, e))
      modifies db
      ensures match RunReserve(old(db.View()), i, u, d, e)
              case Ok(after) => r == Ok(Dispatch(i, u, DispatchReserved)) && db.View() == after
              case Err(err) => r == Err(err) && db.View() == old(db.View())
      ensures ReserveAnswer(old(db.View()), i, u, r)
      ensures r.Ok? ==> u in old(db.View()).core.units && i in old(db.View()).incidents && ReserveWrites(old(db.View()), i, u, d, e, db.View())
    {
      ReserveIsAnswered(db.View(), i, u, d, e);
      hide ReserveAnswer, ReserveWrites;
      var tx := new Tx.Begin(db);
      var status := tx.LockForReserve(u);
      if status.Err? { return Err(status.error); }
      if status.value != UnitAvailable { return Err(ErrUnitNotAvailable); }
      var incident := tx.IncidentStatusOf(i);
      if incident.Err? { return Err(incident.error); }
      if incident.value == Resolved || incident.value == Cancelled { return Err(ErrIncidentNotDispatchable); }
      tx.MarkUnitReserved(u);
      r := tx.InsertDispatch(d, i, u);
      if r.Err? { return; }
      tx.MarkIncidentDispatched(i);
      tx.WriteEvent(e, Created, d);
      tx.Commit(db);
    }

    method ReserveOptimistic(i: IncidentId, u: UnitId, d: DispatchId, e: EventId, rivals: seq<Gaps>)
      returns (r: Result<Dispatch, Error>)
      requires ForeignKeys(db.View()) && FreshIds(db.View().core, Op(AtomicOps.ReserveOptimistic(i, u), d, e))
      requires |rivals| == 3
      modifies db
      ensures (r, db.View()) == OptimisticOutcome(old(db.View()), i, u, d, e, rivals)
      ensures OptimisticAnswer(old(db.View()), i, u, d, e, rivals, r)
    {
      CallIsAnswered(db.View(), i, u, d, e, rivals);
      hide OptimisticAnswer;
      var attempt := 0;
      while attempt < 3
        invariant attempt <= 3 && ForeignKeys(db.View())
        invariant FreshIds(db.View().core, Op(AtomicOps.ReserveOptimistic(i, u), d, e))
        invariant OptimisticOutcome(old(db.View()), i, u, d, e, rivals) == OptimisticOutcome(db.View(), i, u, d, e, rivals[attempt..])
      {
        var retry;
        r, retry := TryReserveOptimistic(i, u, d, e, rivals[attempt]);
        if !retry { return; }
        assert rivals[attempt..][1..] == rivals[attempt + 1..];
        attempt := attempt + 1;
      }
      return Err(ErrReservationConflict);
    }

    /** One attempt, in whose gaps rivals commit. */
    method TryReserveOptimistic(i: IncidentId, u: UnitId, d: DispatchId, e: EventId, gaps: Gaps)
      returns (r: Result<Dispatch, Error>, retry: bool)
      requires ForeignKeys(db.View()) && FreshIds(db.View().core, Op(AtomicOps.ReserveOptimistic(i, u), d, e))
      modifies db
      ensures AttemptOutcome(old(db.View()), i, u, d, e, gaps) == if retry then Again(db.View()) else Done(r, db.View())
      ensures retry ==> FreshIds(db.View().core, Op(AtomicOps.ReserveOptimistic(i, u), d, e))
      ensures AttemptAnswer(old(db.View()), i, u, d, e, gaps, r) && (retry <==> r == Err(ErrReservationConflict))
      ensures r.Ok? ==> var seen := AtSwap(old(db.View()), gaps, d, e);
                        u in seen.core.units && i in seen.incidents && SwapWrites(seen, i, u, d, e, db.View())
    {
      hide Meanwhile, AttemptAnswer, SwapWrites, LosesSwap, UnitFree, SwapOutcome;
      ghost var before := db.View();
      AttemptIsAnswered(before, i, u, d, e, gaps);
      retry := false;
      var tx := new Tx.Begin(db);
      var read := tx.ReadVersion(u);
      if read.Err? { return Err(read.error), false; }
      if read.value.0 != UnitAvailable { return Err(ErrUnitNotAvailable), false; }
      CommitRivals(gaps.amid, d, e);
      ghost var mid := db.View();
      tx.SeeCommitted(db);
      var incident := tx.IncidentStatusOf(i);
      if incident.Err? { return Err(incident.error), false; }
      if incident.value == Resolved || incident.value == Cancelled { return Err(ErrIncidentNotDispatchable), false; }
      assert UnitError(before.core, u).Ok? && DispatchableIncident(mid.incidents, i).Ok?;
      GapsBumpVersions(before, gaps, d, e, u);
      RivalsKeepIncidents(mid, gaps.swap, d, e, i);
      CommitRivals(gaps.swap, d, e);
      tx.SeeCommitted(db);
      r, retry := Swap(tx, i, u, d, e, read.value.1);
    }

    /** The compare-and-swap and what follows it. */
    method Swap(tx: Tx, i: IncidentId, u: UnitId, d: DispatchId, e: EventId, version: int)
      returns (r: Result<Dispatch, Error>, retry: bool)
      requires tx.View() == db.View() && ForeignKeys(db.View()) && u in db.units && i in db.incidents
      modifies db, tx
      ensures retry <==> old(db.units)[u].version != version
      ensures retry ==> db.View() == old(db.View()) && r == Err(ErrReservationConflict)
      ensures !retry ==> SwapOutcome(old(db.View()), i, u, d, e) == Done(r, db.View())
    {
      var won := tx.MarkReservedCAS(u, version);
      if !won {
        return Err(ErrReservationConflict), true;
      }
      retry := false;
      r := tx.InsertDispatch(d, i, u);
      if r.Err? { return; }
      tx.MarkIncidentDispatched(i);
      tx.WriteEvent(e, Created, d);
      tx.Commit(db);
    }

    method CommitRivals(ops: seq<Op>, d: DispatchId, e: EventId)
      requires ForeignKeys(db.View()) && d !in db.dispatches && e !in db.events
      modifies db
      ensures db.View() == Meanwhile(old(db.View()), ops, d, e) && d !in db.dispatches && e !in db.events
    {
      MeanwhileTakesNoOtherIds(db.View(), ops, d, e);
      var after := Meanwhile(Db(Core(db.units, db.dispatches, db.events), db.incidents), ops, d, e);
      db.units, db.dispatches, db.incidents, db.events := after.core.units, after.core.dispatches, after.incidents, after.core.events;
    }

    method AdvanceStatus(d: DispatchId, to: DispatchStatus, e: EventId) returns (r: Result<Dispatch, Error>)
      requires ForeignKeys(db.View()) && e !in db.events
      modifies db
      ensures match RunAdvance(old(db.View()), d, to, e)
              case Ok(after) => r == Ok(after.core.dispatches[d]) && db.View() == after
              case Err(err) => r == Err(err) && db.View() == old(db.View())
      ensures AdvanceAnswer(old(db.View()), d, to, r)
      ensures r.Ok? ==> d in old(db.View()).core.dispatches && AdvanceWrites(old(db.View()), d, to, e, db.View())
    {
      AdvanceIsAnswered(db.View(), d, to, e);
      hide AdvanceAnswer, AdvanceWrites;
      var tx := new Tx.Begin(db);
      if d !in tx.dispatches { return Err(ErrDispatchNotFound); }
      var cur := tx.dispatches[d];
      if !CanTransitionDispatch(cur.status, to) { return Err(ErrIllegalDispatchTransition); }
      tx.SetDispatchStatus(d, to);
      tx.SetStatus(cur.unit, UnitStatusForDispatch(to));
      if to == DispatchCompleted {
        var active := tx.CountActive(cur.incident);
        if active == 0 { tx.ResolveIfDispatched(cur.incident); }
        tx.WriteEvent(e, Completed, d);
      }
      tx.Commit(db);
      return Ok(cur.(status := to));
    }

    method Reassign(d: DispatchId, i: IncidentId, u: UnitId, kind: EventKind, n: DispatchId, e: EventId) returns (r: Result<Dispatch, Error>)
      requires ForeignKeys(db.View()) && FreshIds(db.View().core, Op(AtomicOps.Reassign(d, i, u, kind), n, e))
      modifies db
      ensures match RunReassign(old(db.View()), d, i, u, kind, n, e)
              case Ok(after) => r == Ok(Dispatch(i, u, DispatchReserved)) && db.View() == after
              case Err(err) => r == Err(err) && db.View() == old(db.View())
      ensures ReassignAnswer(old(db.View()), d, i, u, r)
      ensures r.Ok? ==> d in old(db.View()).core.dispatches && ReassignWrites(old(db.View()), d, i, u, kind, n, e, db.View())
    {
      ReassignIsAnswered(db.View(), d, i, u, kind, n, e);
      hide ReassignAnswer, ReassignWrites;
      var tx := new Tx.Begin(db);
      if d !in tx.dispatches { return Err(ErrDispatchNotFound); }
      var prior := tx.dispatches[d];
      if !IsActiveDispatch(prior.status) { return Err(ErrIllegalDispatchTransition); }
      if prior.unit == u {
        var _ := tx.LockForReserve(prior.unit); // the row exists: dispatches.unit_id is a foreign key
      } else {
        var locked := LockBoth(tx, prior.unit, u);
        if locked.Err? { return Err(locked.error); }
      }
      var incident := tx.IncidentStatusOf(i);
      if incident.Err? { return Err(incident.error); }
      if incident.value == Resolved || incident.value == Cancelled { return Err(ErrIncidentNotDispatchable); }
      r := Replace(tx, d, i, u, kind, n, e);
    }

    /** The writes of a reassignment whose dispatch, unit and incident have all been checked. */
    method Replace(tx: Tx, d: DispatchId, i: IncidentId, u: UnitId, kind: EventKind, n: DispatchId, e: EventId)
      returns (r: Result<Dispatch, Error>)
      requires tx.View() == db.View() && ForeignKeys(db.View())
      requires d in db.dispatches && IsActiveDispatch(db.dispatches[d].status)
      requires db.dispatches[d].unit != u ==> UnitError(db.View().core, u).Ok?
      requires DispatchableIncident(db.incidents, i).Ok?
      modifies db, tx
      ensures match RunReassign(old(db.View()), d, i, u, kind, n, e)
              case Ok(after) => r == Ok(Dispatch(i, u, DispatchReserved)) && db.View() == after
              case Err(err) => r == Err(err) && db.View() == old(db.View())
    {
      var prior := tx.dispatches[d];
      tx.SetDispatchStatus(d, DispatchCancelled);
      if prior.unit != u {
        tx.SetStatus(prior.unit, UnitAvailable);
        tx.MarkUnitReserved(u);
      }
      r := tx.InsertDispatch(n, i, u);
      if r.Err? { return; }
      tx.MarkIncidentDispatched(i);
      if prior.incident != i {
        var stillActive := tx.CountActive(prior.incident);
        if stillActive == 0 { tx.RevertToVerified(prior.incident); }
      }
      tx.WriteEvent(e, kind, n);
      tx.Commit(db);
    }

    /** Both unit rows, the lower id first, then the incoming one re-checked under its lock. */
    method LockBoth(tx: Tx, held: UnitId, incoming: UnitId) returns (r: Result<(), Error>)
      requires held in tx.units && held != incoming && tx.locked == []
      modifies tx`locked
      ensures r == UnitError(tx.View().core, incoming)
      ensures r == if incoming !in tx.units then Err(ErrUnitNotFound)
                   else if tx.units[incoming].status != UnitAvailable then Err(ErrUnitNotAvailable) else Ok(())
      ensures forall a, b | 0 <= a < b < |tx.locked| :: tx.locked[a] < tx.locked[b]
      ensures incoming in tx.units ==> tx.locked == if held < incoming then [held, incoming] else [incoming, held]
    {
      var first, second := held, incoming;
      if first > second { first, second := second, first; }
      var a := tx.LockForReserve(first);
      if a.Err? { return Err(a.error); }
      var b := tx.LockForReserve(second);
      if b.Err? { return Err(b.error); }
      var status := tx.LockForReserve(incoming);
      if status != Ok(UnitAvailable) { return Err(ErrUnitNotAvailable); }
      return Ok(());
    }
  }
}
