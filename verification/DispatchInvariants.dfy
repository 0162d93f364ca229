/**
 What the atomic dispatch operations keep: unit and dispatch rows agree, the
 partial unique index holds, every dispatch has exactly one birth event, and the
 incident cascade never leaves an incident behind its dispatches.
 */
module DispatchInvariants {
  import opened Rows
  import opened AtomicOps

  // --- Units and dispatches ---

  ghost predicate OneActive(dispatches: map<DispatchId, Dispatch>) {
    forall d, e | d in dispatches && e in dispatches ::
      Holds(dispatches, d, dispatches[e].unit) && Holds(dispatches, e, dispatches[e].unit) ==> d == e
  }

  /** A dispatch under way has a unit in the same phase; a reserved one may have inherited a moving unit. */
  predicate Mirrors(u: UnitStatus, d: DispatchStatus) {
    match d
    case DispatchReserved => u == UnitReserved || u == UnitEnRoute || u == UnitOnScene
    case DispatchEnRoute => u == UnitEnRoute
    case DispatchOnScene => u == UnitOnScene
    case DispatchCompleted => true
    case DispatchCancelled => true
  }

  /** Row u agrees with the dispatches that hold it. */
  ghost predicate AgreesAt(units: map<UnitId, Unit>, dispatches: map<DispatchId, Dispatch>, u: UnitId)
    requires u in units
  {
    && (units[u].status == UnitAvailable <==> UnitFree(dispatches, u))
    && (forall d | d in dispatches && Holds(dispatches, d, u) :: Mirrors(units[u].status, dispatches[d].status))
  }

  ghost predicate Agreement(core: Core) {
    && OneActive(core.dispatches)
    && (forall d | d in core.dispatches :: core.dispatches[d].unit in core.units)
    && (forall u | u in core.units :: AgreesAt(core.units, core.dispatches, u))
  }

  lemma IndexKeptByInsert(before: map<DispatchId, Dispatch>, n: DispatchId, row: Dispatch)
    requires OneActive(before) && n !in before && UnitFree(before, row.unit)
    ensures OneActive(before[n := row])
  {
    var after := before[n := row];
    forall d, e | d in after && e in after && Holds(after, d, after[e].unit) && Holds(after, e, after[e].unit)
      ensures d == e
    {
      assert d in before ==> Holds(before, d, after[e].unit);
      assert e in before ==> Holds(before, e, after[e].unit);
    }
  }

  lemma IndexKeptByUpdate(before: map<DispatchId, Dispatch>, d: DispatchId, to: DispatchStatus)
    requires OneActive(before) && d in before && IsActiveDispatch(before[d].status)
    ensures OneActive(before[d := before[d].(status := to)])
  {
    var after := before[d := before[d].(status := to)];
    forall e, f | e in after && f in after && Holds(after, e, after[f].unit) && Holds(after, f, after[f].unit)
      ensures e == f
    {
      assert Holds(before, e, before[f].unit) && Holds(before, f, before[f].unit);
    }
  }

  lemma FreeAfterCancel(before: map<DispatchId, Dispatch>, d: DispatchId, u: UnitId)
    requires d in before && HeldOnlyBy(before, u, d)
    ensures UnitFree(before[d := before[d].(status := DispatchCancelled)], u)
  {
    var after := before[d := before[d].(status := DispatchCancelled)];
    forall e | e in after
      ensures !Holds(after, e, u)
    {
      assert Holds(after, e, u) ==> Holds(before, e, u);
    }
  }

  lemma IndexKept(core: Core, op: Op)
    requires OneActive(core.dispatches) && Guard(core, op.req) && FreshIds(core, op)
    ensures OneActive(Effect(core, op).dispatches)
  {
    hide Effect, OneActive, UnitFree, HeldOnlyBy;
    var before := core.dispatches;
    match op.req
    case Reserve(i, u) =>
      InsertEffect(core, op);
      IndexKeptByInsert(before, op.newDispatch, Dispatch(i, u, DispatchReserved));
    case ReserveOptimistic(i, u) =>
      InsertEffect(core, op);
      IndexKeptByInsert(before, op.newDispatch, Dispatch(i, u, DispatchReserved));
    case Advance(d, to) =>
      AdvanceEffect(core, op);
      IndexKeptByUpdate(before, d, to);
    case Reassign(d, i, u, _) =>
      ReassignEffect(core, op);
      IndexKeptByUpdate(before, d, DispatchCancelled);
      FreeAfterCancel(before, d, u);
      IndexKeptByInsert(before[d := before[d].(status := DispatchCancelled)], op.newDispatch, Dispatch(i, u, DispatchReserved));
    case Override(_, _) => OverrideEffect(core, op);
    case Operator(_, _) => OverrideEffect(core, op);
  }

  /** The same rows hold u, and they are the same rows. */
  ghost predicate SameHolders(before: map<DispatchId, Dispatch>, after: map<DispatchId, Dispatch>, u: UnitId) {
    && (forall d | d in before && Holds(before, d, u) :: d in after && after[d] == before[d])
    && (forall d | d in after && Holds(after, d, u) :: d in before && after[d] == before[d])
  }

  lemma PutElsewhere(before: map<DispatchId, Dispatch>, d: DispatchId, row: Dispatch, u: UnitId)
    requires row.unit != u && (d in before ==> before[d].unit != u)
    ensures SameHolders(before, before[d := row], u)
  {
  }

  /** A unit whose own row and whose holders did not change still agrees. */
  lemma UntouchedAgrees(units: map<UnitId, Unit>, now: map<UnitId, Unit>,
                        before: map<DispatchId, Dispatch>, after: map<DispatchId, Dispatch>, u: UnitId)
    requires u in units && u in now && now[u] == units[u] && AgreesAt(units, before, u) && SameHolders(before, after, u)
    ensures AgreesAt(now, after, u)
  {
    if !UnitFree(before, u) {
      var d :| d in before && Holds(before, d, u);
      assert Holds(after, d, u);
    }
    if !UnitFree(after, u) {
      var d :| d in after && Holds(after, d, u);
      assert Holds(before, d, u);
    }
  }

  lemma ReservedAgrees(core: Core, after: Core, n: DispatchId, row: Dispatch)
    requires Agreement(core) && n !in core.dispatches && row.unit in core.units && row.status == DispatchReserved
    requires UnitFree(core.dispatches, row.unit)
    requires after.units == core.units[row.unit := MarkReserved(core.units[row.unit])]
    requires after.dispatches == core.dispatches[n := row]
    ensures Agreement(after)
  {
    IndexKeptByInsert(core.dispatches, n, row);
    ReservedUnitAgrees(core.dispatches, after, n, row);
    hide AgreesAt, OneActive, SameHolders, UnitFree;
    forall u | u in after.units && u != row.unit ensures AgreesAt(after.units, after.dispatches, u) {
      PutElsewhere(core.dispatches, n, row, u);
      UntouchedAgrees(core.units, after.units, core.dispatches, after.dispatches, u);
    }
  }

  lemma ReservedUnitAgrees(before: map<DispatchId, Dispatch>, after: Core, n: DispatchId, row: Dispatch)
    requires n !in before && UnitFree(before, row.unit) && row.status == DispatchReserved && after.dispatches == before[n := row]
    requires row.unit in after.units && after.units[row.unit].status == UnitReserved
    ensures AgreesAt(after.units, after.dispatches, row.unit)
  {
    var u := row.unit;
    assert Holds(after.dispatches, n, u);
    forall d | d in after.dispatches && Holds(after.dispatches, d, u) ensures d == n {
      assert d in before ==> Holds(before, d, u);
    }
  }

  lemma AdvancedAgrees(core: Core, after: Core, d: DispatchId, to: DispatchStatus)
    requires Agreement(core) && d in core.dispatches && IsActiveDispatch(core.dispatches[d].status) && to != DispatchReserved
    requires var u := core.dispatches[d].unit;
             after.units == core.units[u := SetUnitStatus(core.units[u], UnitStatusForDispatch(to))]
    requires after.dispatches == core.dispatches[d := core.dispatches[d].(status := to)]
    ensures Agreement(after)
  {
    IndexKeptByUpdate(core.dispatches, d, to);
    AdvancedUnitAgrees(core, after, d, to);
    hide AgreesAt, OneActive, SameHolders;
    forall u | u in after.units && u != core.dispatches[d].unit ensures AgreesAt(after.units, after.dispatches, u) {
      PutElsewhere(core.dispatches, d, core.dispatches[d].(status := to), u);
      UntouchedAgrees(core.units, after.units, core.dispatches, after.dispatches, u);
    }
  }

  lemma AdvancedUnitAgrees(core: Core, after: Core, d: DispatchId, to: DispatchStatus)
    requires OneActive(core.dispatches) && d in core.dispatches && IsActiveDispatch(core.dispatches[d].status) && to != DispatchReserved
    requires core.dispatches[d].unit in after.units
    requires after.units[core.dispatches[d].unit].status == UnitStatusForDispatch(to)
    requires after.dispatches == core.dispatches[d := core.dispatches[d].(status := to)]
    ensures AgreesAt(after.units, after.dispatches, core.dispatches[d].unit)
  {
    var u := core.dispatches[d].unit;
    assert Holds(core.dispatches, d, u);
    forall e | e in after.dispatches && Holds(after.dispatches, e, u) ensures e == d {
      assert Holds(core.dispatches, e, u);
    }
    if IsActiveDispatch(to) { assert Holds(after.dispatches, d, u); }
  }

  lemma TakenOverAgrees(core: Core, after: Core, d: DispatchId, n: DispatchId, row: Dispatch)
    requires Agreement(core) && d in core.dispatches && IsActiveDispatch(core.dispatches[d].status)
    requires n !in core.dispatches && row.unit == core.dispatches[d].unit && row.status == DispatchReserved
    requires after.units == core.units
    requires after.dispatches == core.dispatches[d := core.dispatches[d].(status := DispatchCancelled)][n := row]
    ensures Agreement(after)
  {
    var mid := core.dispatches[d := core.dispatches[d].(status := DispatchCancelled)];
    IndexKeptByUpdate(core.dispatches, d, DispatchCancelled);
    assert HeldOnlyBy(core.dispatches, row.unit, d) by { assert Holds(core.dispatches, d, row.unit); }
    FreeAfterCancel(core.dispatches, d, row.unit);
    IndexKeptByInsert(mid, n, row);
    TakenOverUnitAgrees(core, after, d, n, row);
    hide AgreesAt, OneActive, UnitFree, HeldOnlyBy, SameHolders;
    forall u | u in after.units && u != row.unit ensures AgreesAt(after.units, after.dispatches, u) {
      PutElsewhere(core.dispatches, d, core.dispatches[d].(status := DispatchCancelled), u);
      PutElsewhere(mid, n, row, u);
      UntouchedAgrees(core.units, core.units, core.dispatches, mid, u);
      UntouchedAgrees(core.units, after.units, mid, after.dispatches, u);
    }
  }

  lemma TakenOverUnitAgrees(core: Core, after: Core, d: DispatchId, n: DispatchId, row: Dispatch)
    requires OneActive(core.dispatches) && d in core.dispatches && IsActiveDispatch(core.dispatches[d].status)
    requires n !in core.dispatches && row.unit == core.dispatches[d].unit && row.status == DispatchReserved
    requires after.units == core.units && row.unit in core.units && AgreesAt(core.units, core.dispatches, row.unit)
    requires after.dispatches == core.dispatches[d := core.dispatches[d].(status := DispatchCancelled)][n := row]
    ensures AgreesAt(after.units, after.dispatches, row.unit)
  {
    var u := row.unit;
    assert Holds(core.dispatches, d, u) && Holds(after.dispatches, n, u);
    assert Mirrors(core.units[u].status, core.dispatches[d].status);
    forall e | e in after.dispatches && Holds(after.dispatches, e, u) ensures e == n {
      assert e in core.dispatches && e != d ==> Holds(core.dispatches, e, u);
    }
  }

  lemma AgreementKept(core: Core, op: Op)
    requires Agreement(core) && Guard(core, op.req) && FreshIds(core, op) && !op.req.Override?
    ensures Agreement(Effect(core, op))
  {
    hide Agreement, Guard, FreshIds;
    var after := Effect(core, op);
    if op.req.Advance? {
      AdvanceAgrees(core, op, after);
    } else if op.req.Reassign? {
      ReassignedAgrees(core, op, after);
    } else if op.req.Operator? {
      assert after == core;
    } else {
      ReserveAgrees(core, op, after);
    }
  }

  lemma AdvanceAgrees(core: Core, op: Op, after: Core)
    requires Agreement(core) && Guard(core, op.req) && op.req.Advance? && after == Effect(core, op)
    ensures Agreement(after)
  {
    AdvanceEffect(core, op);
    AdvancedAgrees(core, after, op.req.dispatch, op.req.to);
  }

  lemma ReserveAgrees(core: Core, op: Op, after: Core)
    requires Agreement(core) && Guard(core, op.req) && FreshIds(core, op) && after == Effect(core, op)
    requires op.req.Reserve? || op.req.ReserveOptimistic?
    ensures Agreement(after)
  {
    InsertEffect(core, op);
    ReservedAgrees(core, after, op.newDispatch, Dispatch(op.req.incident, op.req.unit, DispatchReserved));
  }

  /** A reroute is a cancellation followed by a reservation; a preemption keeps the unit row as it is. */
  lemma ReassignedAgrees(core: Core, op: Op, after: Core)
    requires Agreement(core) && Guard(core, op.req) && FreshIds(core, op) && op.req.Reassign? && after == Effect(core, op)
    ensures Agreement(after)
  {
    ReassignEffect(core, op);
    hide Effect, OneActive, AgreesAt, UnitFree, HeldOnlyBy, Holds, Mirrors;
    var Reassign(d, i, u, _) := op.req;
    var prior := core.dispatches[d].unit;
    if u == prior {
      TakenOverAgrees(core, after, d, op.newDispatch, Dispatch(i, u, DispatchReserved));
    } else {
      MovedAgrees(core, after, d, op.newDispatch, Dispatch(i, u, DispatchReserved));
    }
  }

  lemma MovedAgrees(core: Core, after: Core, d: DispatchId, n: DispatchId, row: Dispatch)
    requires Agreement(core) && d in core.dispatches && IsActiveDispatch(core.dispatches[d].status) && n !in core.dispatches
    requires row.unit in core.units && row.unit != core.dispatches[d].unit && row.status == DispatchReserved
    requires HeldOnlyBy(core.dispatches, row.unit, d)
    requires var prior := core.dispatches[d].unit;
             && prior in core.units
             && after.units == core.units[prior := SetUnitStatus(core.units[prior], UnitAvailable)][row.unit := MarkReserved(core.units[row.unit])]
    requires after.dispatches == core.dispatches[d := core.dispatches[d].(status := DispatchCancelled)][n := row]
    ensures Agreement(after)
  {
    hide Agreement, UnitFree, HeldOnlyBy;
    var prior := core.dispatches[d].unit;
    var mid := Core(core.units[prior := SetUnitStatus(core.units[prior], UnitAvailable)],
                    core.dispatches[d := core.dispatches[d].(status := DispatchCancelled)], core.events);
    AdvancedAgrees(core, mid, d, DispatchCancelled);
    FreeAfterCancel(core.dispatches, d, row.unit);
    ReservedAgrees(mid, after, n, row);
  }

  // --- What is left of agreement once operators have overridden units ---

  /** An available unit is held by no active dispatch. */
  ghost predicate NoneStale(core: Core) {
    forall u | u in core.units && core.units[u].status == UnitAvailable :: UnitFree(core.dispatches, u)
  }

  lemma AgreementLeavesNoneStale(core: Core)
    requires Agreement(core)
    ensures NoneStale(core)
  {
    forall u | u in core.units && core.units[u].status == UnitAvailable ensures UnitFree(core.dispatches, u) {
      assert AgreesAt(core.units, core.dispatches, u);
    }
  }

  /** Whoever held the unit is gone once its one active dispatch has ended. */
  lemma EndedLeavesFree(before: map<DispatchId, Dispatch>, d: DispatchId, to: DispatchStatus)
    requires OneActive(before) && d in before && IsActiveDispatch(before[d].status) && !IsActiveDispatch(to)
    ensures UnitFree(before[d := Dispatch(before[d].incident, before[d].unit, to)], before[d].unit)
  {
    var u := before[d].unit;
    var after := before[d := Dispatch(before[d].incident, u, to)];
    assert Holds(before, d, u);
    forall e | e in before && Holds(before, e, u) ensures e == d {
      assert Holds(before, d, before[e].unit) && Holds(before, e, before[e].unit);
    }
    assert forall e | e in after && Holds(after, e, u) :: e != d && Holds(before, e, u);
  }

  lemma AdvanceLeavesNoneStale(core: Core, op: Op)
    requires OneActive(core.dispatches) && NoneStale(core) && Guard(core, op.req) && op.req.Advance?
    ensures NoneStale(Effect(core, op))
  {
    AdvanceEffect(core, op);
    var Advance(d, to) := op.req;
    var before, after := core.dispatches, Effect(core, op).dispatches;
    if !IsActiveDispatch(to) { EndedLeavesFree(before, d, to); }
    forall u | u in core.units && u != before[d].unit && core.units[u].status == UnitAvailable ensures UnitFree(after, u) {
      assert UnitFree(before, u);
      assert forall e | e in after :: Holds(after, e, u) ==> Holds(before, e, u);
    }
  }

  lemma ReserveLeavesNoneStale(core: Core, op: Op)
    requires NoneStale(core) && Guard(core, op.req) && (op.req.Reserve? || op.req.ReserveOptimistic?) && FreshIds(core, op)
    ensures NoneStale(Effect(core, op))
  {
    InsertEffect(core, op);
    var before, after := core.dispatches, Effect(core, op).dispatches;
    forall u | u in core.units && u != op.req.unit && core.units[u].status == UnitAvailable ensures UnitFree(after, u) {
      assert UnitFree(before, u);
      assert forall e | e in after :: Holds(after, e, u) ==> Holds(before, e, u);
    }
  }

  lemma ReassignLeavesNoneStale(core: Core, op: Op)
    requires OneActive(core.dispatches) && NoneStale(core) && Guard(core, op.req) && op.req.Reassign? && FreshIds(core, op)
    ensures NoneStale(Effect(core, op))
  {
    ReassignEffect(core, op);
    var Reassign(d, i, u, _) := op.req;
    var before, after := core.dispatches, Effect(core, op).dispatches;
    var prior := before[d].unit;
    var ended := before[d := Dispatch(before[d].incident, prior, DispatchCancelled)];
    EndedLeavesFree(before, d, DispatchCancelled);
    assert Holds(before, d, prior);
    forall x | x in Effect(core, op).units && Effect(core, op).units[x].status == UnitAvailable ensures UnitFree(after, x) {
      assert x != u;
      if x != prior { assert UnitFree(before, x); }
      forall e | e in after ensures !Holds(after, e, x) {
        assert e != op.newDispatch ==> (Holds(after, e, x) <==> Holds(ended, e, x));
      }
    }
  }

  /** Only an operator's override makes an available unit of one that is held. */
  lemma NoneStaleKept(core: Core, op: Op)
    requires OneActive(core.dispatches) && NoneStale(core) && Guard(core, op.req) && FreshIds(core, op) && !op.req.Override?
    ensures NoneStale(Effect(core, op))
  {
    if op.req.Advance? {
      AdvanceLeavesNoneStale(core, op);
    } else if op.req.Reassign? {
      ReassignLeavesNoneStale(core, op);
    } else if !op.req.Operator? {
      ReserveLeavesNoneStale(core, op);
    }
  }

  // --- Events ---

  predicate WellFormed(req: Request) {
    req.Reassign? ==> req.kind == Rerouted || req.kind == Preempted
  }

  predicate BirthOf(events: map<EventId, Event>, e: EventId, d: DispatchId) {
    e in events && events[e].dispatch == d && events[e].kind != Completed
  }

  predicate CompletionOf(events: map<EventId, Event>, e: EventId, d: DispatchId) {
    e in events && events[e].dispatch == d && events[e].kind == Completed
  }

  function Done(dispatches: map<DispatchId, Dispatch>): set<DispatchId> {
    set d | d in dispatches && dispatches[d].status == DispatchCompleted
  }

  /** Every dispatch in `all` was announced exactly once, and completion exactly for those in `done`. */
  ghost predicate Announces(events: map<EventId, Event>, all: set<DispatchId>, done: set<DispatchId>) {
    && (forall d | d in all :: exists e :: BirthOf(events, e, d))
    && (forall d | d in done :: exists e :: CompletionOf(events, e, d))
    && (forall e | e in events :: events[e].dispatch in if events[e].kind == Completed then done else all)
    && (forall e, f | e in events && f in events && events[e].dispatch == events[f].dispatch ::
          (events[e].kind == Completed <==> events[f].kind == Completed) ==> e == f)
  }

  ghost predicate EventsMatch(core: Core) {
    Announces(core.events, core.dispatches.Keys, Done(core.dispatches))
  }

  lemma BirthAnnounced(events: map<EventId, Event>, all: set<DispatchId>, done: set<DispatchId>, e: EventId, ev: Event)
    requires Announces(events, all, done) && e !in events && done <= all
    requires ev.kind != Completed && ev.dispatch !in all
    ensures Announces(events[e := ev], all + {ev.dispatch}, done)
  {
    var after := events[e := ev];
    forall d | d in all + {ev.dispatch} ensures exists f :: BirthOf(after, f, d) {
      if d in all { var f :| BirthOf(events, f, d); assert BirthOf(after, f, d); } else { assert BirthOf(after, e, d); }
    }
    forall d | d in done ensures exists f :: CompletionOf(after, f, d) {
      var f :| CompletionOf(events, f, d);
      assert CompletionOf(after, f, d);
    }
  }

  lemma CompletionAnnounced(events: map<EventId, Event>, all: set<DispatchId>, done: set<DispatchId>, e: EventId, d: DispatchId)
    requires Announces(events, all, done) && e !in events && d in all && d !in done
    ensures Announces(events[e := Event(Completed, d)], all, done + {d})
  {
    var after := events[e := Event(Completed, d)];
    forall c | c in all ensures exists f :: BirthOf(after, f, c) {
      var f :| BirthOf(events, f, c);
      assert BirthOf(after, f, c);
    }
    forall c | c in done + {d} ensures exists f :: CompletionOf(after, f, c) {
      if c in done { var f :| CompletionOf(events, f, c); assert CompletionOf(after, f, c); } else { assert CompletionOf(after, e, c); }
    }
  }

  lemma SameEventsMatch(core: Core, after: Core)
    requires EventsMatch(core)
    ensures after.dispatches == core.dispatches && after.events == core.events ==> EventsMatch(after)
  {
  }

  lemma EventsKept(core: Core, op: Op)
    requires EventsMatch(core) && Guard(core, op.req) && FreshIds(core, op) && WellFormed(op.req)
    ensures EventsMatch(Effect(core, op))
  {
    hide EventsMatch, Guard, Effect, FreshIds;
    SameEventsMatch(core, Effect(core, op));
    var after := Effect(core, op);
    if op.req.Advance? {
      EventsKeptByAdvance(core, op, after);
    } else if Inserts(op.req) {
      EventsKeptByInsert(core, op, after);
    } else {
      OverrideEffect(core, op);
    }
  }

  lemma EventsKeptByAdvance(core: Core, op: Op, after: Core)
    requires EventsMatch(core) && Guard(core, op.req) && FreshIds(core, op) && op.req.Advance? && after == Effect(core, op)
    ensures EventsMatch(after)
  {
    var d := op.req.dispatch;
    AdvanceEffect(core, op);
    AdvanceDone(core.dispatches, d, op.req.to);
    if op.req.to == DispatchCompleted {
      CompletionAnnounced(core.events, core.dispatches.Keys, Done(core.dispatches), op.event, d);
    }
  }

  lemma AdvanceDone(dispatches: map<DispatchId, Dispatch>, d: DispatchId, to: DispatchStatus)
    requires d in dispatches && dispatches[d].status != DispatchCompleted
    ensures var after := dispatches[d := Dispatch(dispatches[d].incident, dispatches[d].unit, to)];
            && after.Keys == dispatches.Keys
            && Done(after) == if to == DispatchCompleted then Done(dispatches) + {d} else Done(dispatches)
  {
  }

  lemma EventsKeptByInsert(core: Core, op: Op, after: Core)
    requires EventsMatch(core) && Guard(core, op.req) && FreshIds(core, op) && Inserts(op.req) && WellFormed(op.req)
    requires after == Effect(core, op)
    ensures EventsMatch(after)
  {
    hide Guard, Announces, Effect;
    var ev := Event(if op.req.Reassign? then op.req.kind else Created, op.newDispatch);
    BirthAnnounced(core.events, core.dispatches.Keys, Done(core.dispatches), op.event, ev);
    InsertAddsOneRow(core, op, after);
  }

  lemma InsertAddsOneRow(core: Core, op: Op, after: Core)
    requires Guard(core, op.req) && FreshIds(core, op) && Inserts(op.req) && after == Effect(core, op)
    ensures after.dispatches.Keys == core.dispatches.Keys + {op.newDispatch}
    ensures Done(after.dispatches) == Done(core.dispatches)
    ensures after.events == core.events[op.event := Event(if op.req.Reassign? then op.req.kind else Created, op.newDispatch)]
  {
    if op.req.Reassign? { ReassignEffect(core, op); } else { InsertEffect(core, op); }
    hide Effect;
  }

  // --- Incident cascade, with each transaction one atomic step ---

  /** An incident with help on the way is never back among the undispatched. */
  ghost predicate Cascaded(db: Db) {
    forall d, i | d in db.core.dispatches && Serves(db.core.dispatches, d, i) ::
      i in db.incidents && !IsUndispatched(db.incidents[i].status)
  }

  ghost predicate SameButStatus(a: Incident, b: Incident) {
    b == a.(status := b.status)
  }

  lemma ForeignKeysKept(db: Db, op: Op)
    requires ForeignKeys(db) && Run(db, op).Ok?
    ensures ForeignKeys(Run(db, op).value)
  {
  }

  lemma CascadeKept(db: Db, op: Op)
    requires ForeignKeys(db) && Cascaded(db) && FreshIds(db.core, op) && Run(db, op).Ok?
    ensures Cascaded(Run(db, op).value)
  {
    var after := Run(db, op).value;
    RunIsEffect(db, op);
    OperatorIsLegal(db, op);
    forall d, i | d in after.core.dispatches && Serves(after.core.dispatches, d, i)
      ensures i in after.incidents && !IsUndispatched(after.incidents[i].status)
    {
      ServedStaysDispatched(db, op, d, i);
    }
  }

  lemma OperatorIsLegal(db: Db, op: Op)
    requires ForeignKeys(db) && Run(db, op).Ok?
    ensures op.req.Operator? ==> op.req.incident in db.incidents
                                 && CanTransitionIncident(db.incidents[op.req.incident].status, op.req.target)
    ensures Inserts(op.req) ==> op.req.incident in db.incidents && !IsTerminal(db.incidents[op.req.incident].status)
  {
  }

  lemma ServedStaysDispatched(db: Db, op: Op, d: DispatchId, i: IncidentId)
    requires ForeignKeys(db) && Cascaded(db) && FreshIds(db.core, op) && Guard(db.core, op.req)
    requires op.req.Operator? && op.req.incident == i && i in db.incidents ==> CanTransitionIncident(db.incidents[i].status, op.req.target)
    requires Inserts(op.req) ==> op.req.incident in db.incidents && !IsTerminal(db.incidents[op.req.incident].status)
    requires Serves(Effect(db.core, op).dispatches, d, i)
    ensures var after := IncidentEffect(db.core, db.incidents, op); i in after && !IsUndispatched(after[i].status)
  {
    if d in db.core.dispatches {
      assert Serves(db.core.dispatches, d, i);
      assert !IncidentUnserved(Effect(db.core, op).dispatches, i);
      StaysDispatched(db, op, i);
    } else {
      InsertPromotes(db, op);
    }
  }

  lemma StaysDispatched(db: Db, op: Op, i: IncidentId)
    requires Guard(db.core, op.req) && i in db.incidents && !IsUndispatched(db.incidents[i].status)
    requires !IncidentUnserved(Effect(db.core, op).dispatches, i)
    requires op.req.Operator? && op.req.incident == i ==> CanTransitionIncident(db.incidents[i].status, op.req.target)
    ensures var after := IncidentEffect(db.core, db.incidents, op); i in after && !IsUndispatched(after[i].status)
  {
    hide Effect, HeldOnlyBy, UnitFree;
  }

  lemma InsertPromotes(db: Db, op: Op)
    requires ForeignKeys(db) && Inserts(op.req) && Guard(db.core, op.req)
    requires op.req.incident in db.incidents && !IsTerminal(db.incidents[op.req.incident].status)
    ensures var after := IncidentEffect(db.core, db.incidents, op); op.req.incident in after && !IsUndispatched(after[op.req.incident].status)
  {
  }

  /** Terminal statuses absorb, and nothing but the status of an incident ever moves. */
  lemma TerminalAbsorbs(db: Db, op: Op, i: IncidentId)
    requires ForeignKeys(db) && Run(db, op).Ok? && i in db.incidents
    ensures i in Run(db, op).value.incidents && SameButStatus(db.incidents[i], Run(db, op).value.incidents[i])
    ensures IsTerminal(db.incidents[i].status) ==> Run(db, op).value.incidents[i] == db.incidents[i]
  {
  }

  lemma LastCompletionCloses(db: Db, op: Op)
    requires ForeignKeys(db) && Cascaded(db) && Run(db, op).Ok?
    requires op.req.Advance? && op.req.to == DispatchCompleted
    ensures var i := db.core.dispatches[op.req.dispatch].incident;
            var after := Run(db, op).value;
            i in after.incidents
            && (IncidentUnserved(after.core.dispatches, i) ==> IsTerminal(after.incidents[i].status))
            && (!IncidentUnserved(after.core.dispatches, i) ==> after.incidents == db.incidents)
  {
    assert Serves(db.core.dispatches, op.req.dispatch, db.core.dispatches[op.req.dispatch].incident);
  }

  /** An incident that loses its last unit is verified, unless it was over; one that keeps a unit is left alone. */
  lemma PreemptedIncidentResurfaces(db: Db, op: Op)
    requires ForeignKeys(db) && Cascaded(db) && FreshIds(db.core, op) && Run(db, op).Ok? && op.req.Reassign?
    ensures var prior := db.core.dispatches[op.req.dispatch].incident;
            var after := Run(db, op).value;
            && after.incidents[op.req.incident].status == Dispatched
            && (prior != op.req.incident && IncidentUnserved(after.core.dispatches, prior) ==>
                  after.incidents[prior].status == Verified || IsTerminal(after.incidents[prior].status))
            && (prior != op.req.incident && !IncidentUnserved(after.core.dispatches, prior) ==>
                  after.incidents[prior] == db.incidents[prior] && !IsUndispatched(after.incidents[prior].status))
            && (IsTerminal(db.incidents[prior].status) ==> after.incidents[prior] == db.incidents[prior])
  {
    var prior := db.core.dispatches[op.req.dispatch].incident;
    assert Serves(db.core.dispatches, op.req.dispatch, prior);
    TerminalAbsorbs(db, op, prior);
  }

  // --- Whole histories of atomic transactions ---

  ghost predicate History(dbs: seq<Db>, ops: seq<Op>) {
    && |dbs| == |ops| + 1 && ForeignKeys(dbs[0])
    && forall k | 0 <= k < |ops| ::
         && ForeignKeys(dbs[k]) && FreshIds(dbs[k].core, ops[k])
         && Run(dbs[k], ops[k]).Ok? && Run(dbs[k], ops[k]).value == dbs[k + 1]
  }

  /** Over any history: an incident with an active dispatch is never reported or verified. */
  lemma {:induction false} ServedIncidentsAreDispatched(dbs: seq<Db>, ops: seq<Op>, n: nat)
    requires History(dbs, ops) && Cascaded(dbs[0]) && n <= |ops|
    ensures ForeignKeys(dbs[n]) && Cascaded(dbs[n])
  {
    hide Cascaded, FreshIds, ForeignKeys;
    if n > 0 {
      ServedIncidentsAreDispatched(dbs, ops, n - 1);
      ForeignKeysKept(dbs[n - 1], ops[n - 1]);
      CascadeKept(dbs[n - 1], ops[n - 1]);
    }
  }

  /** Over any history: an incident that is resolved or cancelled stays exactly as it is. */
  lemma {:induction false} TerminalForever(dbs: seq<Db>, ops: seq<Op>, m: nat, n: nat, i: IncidentId)
    requires History(dbs, ops) && m <= n <= |ops| && i in dbs[m].incidents && IsTerminal(dbs[m].incidents[i].status)
    ensures i in dbs[n].incidents && dbs[n].incidents[i] == dbs[m].incidents[i]
    decreases n
  {
    hide FreshIds, ForeignKeys;
    if n > m {
      TerminalForever(dbs, ops, m, n - 1, i);
      TerminalAbsorbs(dbs[n - 1], ops[n - 1], i);
    }
  }
}
