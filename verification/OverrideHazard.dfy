/**
 What operators' overrides cost: exactly when transactions can end in a circle again. A finishing
 dispatch has updated its own row; a reservation locks the unit that an override made available, and its
 insert must wait for the finishing transaction, which in turn waits for the unit.
 */
module OverrideHazard {
  import opened Rows
  import opened AtomicOps
  import opened DispatchInvariants
  import opened Preemption
  import opened Interleaving
  import opened SerialRuns
  import opened Deadlock

  // --- Runs that go on from a state ---

  predicate Quiet(step: Step) { step.Begin? ==> !step.req.Override? }

  ghost predicate QuietRun(states: seq<Sys>, steps: seq<Step>) {
    && |states| == |steps| + 1
    && forall k | 0 <= k < |steps| :: Leads(states[k], steps[k], states[k + 1]) && Quiet(steps[k])
  }

  /** s' can be reached from s without another override. */
  ghost predicate Reaches(s: Sys, s': Sys) {
    exists states, steps :: QuietRun(states, steps) && states[0] == s && states[|steps|] == s'
  }

  ghost predicate CanStick(s: Sys) {
    exists t, ring :: Reaches(s, t) && Circle(t, ring)
  }

  // --- What exposes a state ---

  /** An available unit that an active dispatch holds, and an incident that can still be dispatched to. */
  ghost predicate Exposed(s: Sys) { !NoneStale(s.core) && exists i :: OpenIncident(s.incidents, i) }

  predicate OpenIncident(incidents: map<IncidentId, Incident>, i: IncidentId) {
    i in incidents && !IsTerminal(incidents[i].status)
  }

  ghost predicate AllClosed(incidents: map<IncidentId, Incident>) { forall i :: !OpenIncident(incidents, i) }

  // --- With no stale unit there is no circle ---

  ghost predicate Sound(s: Sys) {
    SysInv(s) && HoldsOnlyExpected(s) && OneActive(s.core.dispatches) && EventsMatch(s.core) && NoOverride(s.txns)
  }

  lemma NoOverrideStays(s: Sys, step: Step)
    requires Enabled(s, step) && Quiet(step) && NoOverride(s.txns)
    ensures NoOverride(Apply(s, step).txns)
  {
    if step.Statement? { SameRequestAfter(s.core, s.incidents, s.txns[step.id]); }
  }

  lemma SameRequestAfter(core: Core, incidents: map<IncidentId, Incident>, t: Txn)
    ensures Exec(core, incidents, t).Next? ==> Exec(core, incidents, t).t.req == t.req
    ensures Exec(core, incidents, t).Retry? ==> Exec(core, incidents, t).t.req == t.req
  {
    if Exec(core, incidents, t).Next? { SameCallAfter(core, incidents, t); }
    if Exec(core, incidents, t).Retry? { OnlyLostSwapsRetry(core, incidents, t); }
  }

  lemma StepStaysSound(s: Sys, step: Step)
    requires Sound(s) && Enabled(s, step) && Quiet(step)
    ensures Sound(Apply(s, step))
  {
    hide SysInv, HoldsOnlyExpected, OneActive, EventsMatch, NoOverride, Enabled, Apply, Quiet;
    StepKeeps(s, step);
    StepHolds(s, step);
    StepCarriesIndexAndEvents(s, step);
    NoOverrideStays(s, step);
  }

  lemma StepLeavesNoneStale(s: Sys, step: Step)
    requires Sound(s) && NoneStale(s.core) && Enabled(s, step) && Quiet(step)
    ensures NoneStale(Apply(s, step).core)
  {
    hide SysInv, HoldsOnlyExpected, OneActive, EventsMatch, NoneStale, Enabled, Apply, Guard, FreshIds, Effect;
    StepExtendsHistory(s, step);
    var s' := Apply(s, step);
    if s'.core != s.core {
      var op: Op :| CommittedStep(s.core, op, s'.core) && (op.req.Override? ==> !NoOverride(s.txns));
      NoneStaleKept(s.core, op);
    }
  }

  lemma {:induction false} StaysUnstale(states: seq<Sys>, steps: seq<Step>, n: nat)
    requires QuietRun(states, steps) && Sound(states[0]) && NoneStale(states[0].core) && n <= |steps|
    ensures Sound(states[n]) && NoneStale(states[n].core)
  {
    hide Sound, NoneStale, Enabled, Apply, Quiet;
    if n > 0 {
      StaysUnstale(states, steps, n - 1);
      assert Leads(states[n - 1], steps[n - 1], states[n]);
      StepStaysSound(states[n - 1], steps[n - 1]);
      StepLeavesNoneStale(states[n - 1], steps[n - 1]);
    }
  }

  // --- With every incident closed nothing is ever inserted ---

  /** A transaction that has changed no incident and, if it is to insert, has not got past its incident's check. */
  predicate Harmless(t: Txn) {
    && t.w.incidents == map[] && (t.req.Operator? ==> t.pc == Begun)
    && (Inserts(t.req) ==> t.pc in {Begun, VersionRead, DispatchLocked, FirstLocked, SecondLocked, UnitsLocked})
  }

  ghost predicate Closed(s: Sys) {
    AllClosed(s.incidents) && forall id | id in s.txns :: Harmless(s.txns[id])
  }

  lemma InserterStaysHarmless(core: Core, incidents: map<IncidentId, Incident>, t: Txn)
    requires AllClosed(incidents) && Harmless(t) && Inserts(t.req) && Exec(core, incidents, t).Next?
    ensures Harmless(Exec(core, incidents, t).t)
  {
    assert DispatchableIncident(incidents, t.req.incident).Err? by {
      assert !OpenIncident(incidents, t.req.incident);
    }
  }

  lemma OtherStaysHarmless(core: Core, incidents: map<IncidentId, Incident>, t: Txn)
    requires AllClosed(incidents) && Harmless(t) && !Inserts(t.req) && Exec(core, incidents, t).Next?
    ensures Harmless(Exec(core, incidents, t).t)
  {
    assert t.req.Operator? ==> !OpenIncident(incidents, t.req.incident);
    assert t.req.Advance? && t.req.dispatch in core.dispatches ==>
        !OpenIncident(incidents, core.dispatches[t.req.dispatch].incident);
  }

  /** Nobody gets to a swap that could be lost. */
  lemma HarmlessNeverRetries(core: Core, incidents: map<IncidentId, Incident>, t: Txn)
    requires Harmless(t)
    ensures !Exec(core, incidents, t).Retry?
  {
    if Exec(core, incidents, t).Retry? {
      OnlyLostSwapsRetry(core, incidents, t);
      assert false;
    }
  }

  lemma StepStaysClosed(s: Sys, step: Step)
    requires Closed(s) && Enabled(s, step)
    ensures Closed(Apply(s, step))
  {
    hide AllClosed, Exec, Harmless, NextRow, Blocked, Acceptable;
    var s' := Apply(s, step);
    if step.Begin? {
      FreshIsHarmless(s'.txns[step.id]);
    } else if step.Statement? {
      var t := s.txns[step.id];
      match Exec(s.core, s.incidents, t)
      case Next(_) =>
        if Inserts(t.req) { InserterStaysHarmless(s.core, s.incidents, t); } else { OtherStaysHarmless(s.core, s.incidents, t); }
      case Committed => CommitsNoIncident(s, step.id);
      case _ => HarmlessNeverRetries(s.core, s.incidents, t);
    }
  }

  lemma FreshIsHarmless(t: Txn)
    requires t.pc == Begun && t.w == NO_WRITES
    ensures Harmless(t)
  {
  }

  lemma CommitsNoIncident(s: Sys, id: TxId)
    requires id in s.txns && Harmless(s.txns[id])
    ensures Commit(s, id).incidents == s.incidents
  {
  }

  lemma {:induction false} StaysClosed(states: seq<Sys>, steps: seq<Step>, n: nat)
    requires QuietRun(states, steps) && Sound(states[0]) && Closed(states[0]) && n <= |steps|
    ensures Sound(states[n]) && Closed(states[n])
  {
    hide Sound, Closed, Enabled, Apply, Quiet;
    if n > 0 {
      StaysClosed(states, steps, n - 1);
      assert Leads(states[n - 1], steps[n - 1], states[n]);
      StepStaysSound(states[n - 1], steps[n - 1]);
      StepStaysClosed(states[n - 1], steps[n - 1]);
    }
  }

  lemma NeverGetsToInsert(s: Sys, id: TxId, rival: TxId)
    requires id in s.txns && Harmless(s.txns[id])
    ensures !IndexBlocked(s, id, rival)
  {
  }

  lemma ClosedHasNoCircle(s: Sys, ring: seq<TxId>)
    requires Sound(s) && Closed(s)
    ensures !Circle(s, ring)
  {
    hide SysInv, HoldsOnlyExpected, OneActive, EventsMatch, NoOverride, AllClosed, WaitsFor, Harmless, IndexBlocked;
    if Circle(s, ring) {
      CircleNeedsIndexWait(s, ring);
      var k :| 0 <= k < |ring| && IndexBlocked(s, ring[k], Successor(ring, k));
      NeverGetsToInsert(s, ring[k], Successor(ring, k));
      assert false;
    }
  }

  /** One half: a state that is not exposed cannot come to a circle by quiet steps. */
  lemma UnexposedNeverSticks(s: Sys, t: Sys, ring: seq<TxId>)
    requires Sound(s) && s.txns == map[] && !Exposed(s) && Reaches(s, t)
    ensures !Circle(t, ring)
  {
    hide Sound, NoneStale, Circle, AllClosed;
    var states, steps :| QuietRun(states, steps) && states[0] == s && states[|steps|] == t;
    if NoneStale(s.core) {
      StaysUnstale(states, steps, |steps|);
      UnstaleHasNoCircle(t, ring);
    } else {
      NothingOpen(s);
      StaysClosed(states, steps, |steps|);
      ClosedHasNoCircle(t, ring);
    }
  }

  lemma UnstaleHasNoCircle(s: Sys, ring: seq<TxId>)
    requires Sound(s) && NoneStale(s.core)
    ensures !Circle(s, ring)
  {
    hide SysInv, HoldsOnlyExpected, OneActive, NoneStale, Circle;
    NoCircle(s, ring);
  }

  lemma NothingOpen(s: Sys)
    requires s.txns == map[] && !Exposed(s) && !NoneStale(s.core)
    ensures Closed(s)
  {
    hide NoneStale;
  }

  // --- An exposed state sticks: the circle, for any unit, dispatch and incident ---

  predicate Idle(s: Sys) { s.txns == map[] && s.locks == map[] }

  /** What the run needs: dispatch d holds the available unit u, incident i is open, and four ids are free. */
  ghost predicate Cast(s: Sys, u: UnitId, d: DispatchId, i: IncidentId, n: nat, e: nat) {
    && Idle(s) && ForeignKeys(Db(s.core, s.incidents))
    && u in s.core.units && s.core.units[u].status == UnitAvailable
    && d in s.core.dispatches && Holds(s.core.dispatches, d, u) && OpenIncident(s.incidents, i)
    && n !in s.core.dispatches && n + 1 !in s.core.dispatches && e !in s.core.events && e + 1 !in s.core.events
  }

  function Finishing(s: Sys, d: DispatchId, n: nat, e: nat, pc: Pc): Txn
    requires d in s.core.dispatches
  {
    Txn(Advance(d, DispatchCancelled), pc, n, e, 0, 0, 0, false,
        if pc == OldEnded then Writes(map[], map[d := s.core.dispatches[d].(status := DispatchCancelled)], map[], map[]) else NO_WRITES)
  }

  function TakingUnit(s: Sys, u: UnitId, i: IncidentId, n: nat, e: nat, pc: Pc): Txn
    requires u in s.core.units
  {
    Txn(Reserve(i, u), pc, n + 1, e + 1, 0, 0, 0, false,
        if pc == UnitsWritten then Writes(map[u := MarkReserved(s.core.units[u])], map[], map[], map[]) else NO_WRITES)
  }

  /** The finishing transaction alone. */
  function Alone(s: Sys, d: DispatchId, n: nat, e: nat, pc: Pc): Sys
    requires d in s.core.dispatches
  {
    s.(txns := map[1 := Finishing(s, d, n, e, pc)], locks := if pc == Begun then map[] else map[DispatchRow(d) := 1])
  }

  /** Both, the finishing one waiting to be. */
  function Both(s: Sys, u: UnitId, d: DispatchId, i: IncidentId, n: nat, e: nat, pc: Pc): Sys
    requires d in s.core.dispatches && u in s.core.units
  {
    s.(txns := map[1 := Finishing(s, d, n, e, OldEnded), 2 := TakingUnit(s, u, i, n, e, pc)],
       locks := if pc == Begun then map[DispatchRow(d) := 1] else map[DispatchRow(d) := 1, UnitRow(u) := 2])
  }

  lemma CastIsThere(s: Sys, u: UnitId, d: DispatchId, i: IncidentId, n: nat, e: nat)
    requires Cast(s, u, d, i, n, e)
    ensures d in s.core.dispatches && u in s.core.units
  {
  }

  lemma Begins(s: Sys, u: UnitId, d: DispatchId, i: IncidentId, n: nat, e: nat)
    requires Cast(s, u, d, i, n, e)
    ensures Leads(s, Begin(1, Advance(d, DispatchCancelled), n, e), Alone(s, d, n, e, Begun))
  {
    var none: map<TxId, Txn> := map[];
    assert none[1 := Finishing(s, d, n, e, Begun)] == map[1 := Finishing(s, d, n, e, Begun)];
  }

  lemma Finishes(s: Sys, u: UnitId, d: DispatchId, i: IncidentId, n: nat, e: nat)
    requires Cast(s, u, d, i, n, e)
    ensures Leads(Alone(s, d, n, e, Begun), Statement(1), Alone(s, d, n, e, DispatchLocked))
  {
    var a, b := Alone(s, d, n, e, Begun), Alone(s, d, n, e, DispatchLocked);
    assert forall rival :: !WaitsFor(a, 1, rival);
    var none: map<Key, TxId> := map[];
    assert none[DispatchRow(d) := 1] == map[DispatchRow(d) := 1];
    assert Apply(a, Statement(1)).txns == b.txns;
  }

  lemma Cancels(s: Sys, u: UnitId, d: DispatchId, i: IncidentId, n: nat, e: nat)
    requires Cast(s, u, d, i, n, e)
    ensures Leads(Alone(s, d, n, e, DispatchLocked), Statement(1), Alone(s, d, n, e, OldEnded))
  {
    var a, b := Alone(s, d, n, e, DispatchLocked), Alone(s, d, n, e, OldEnded);
    assert forall rival :: !WaitsFor(a, 1, rival);
    var row := s.core.dispatches[d].(status := DispatchCancelled);
    assert NO_WRITES.dispatches[d := row] == map[d := row];
    assert a.txns[1 := Finishing(s, d, n, e, OldEnded)] == b.txns;
    assert a.locks[DispatchRow(d) := 1] == b.locks;
  }

  lemma Joins(s: Sys, u: UnitId, d: DispatchId, i: IncidentId, n: nat, e: nat)
    requires Cast(s, u, d, i, n, e)
    ensures Leads(Alone(s, d, n, e, OldEnded), Begin(2, Reserve(i, u), n + 1, e + 1), Both(s, u, d, i, n, e, Begun))
  {
    var a := Alone(s, d, n, e, OldEnded);
    assert a.txns[2 := TakingUnit(s, u, i, n, e, Begun)] == Both(s, u, d, i, n, e, Begun).txns;
  }

  lemma Locks(s: Sys, u: UnitId, d: DispatchId, i: IncidentId, n: nat, e: nat)
    requires Cast(s, u, d, i, n, e)
    ensures Leads(Both(s, u, d, i, n, e, Begun), Statement(2), Both(s, u, d, i, n, e, UnitsLocked))
  {
    var a, b := Both(s, u, d, i, n, e, Begun), Both(s, u, d, i, n, e, UnitsLocked);
    assert forall rival :: !WaitsFor(a, 2, rival);
    assert a.txns[2 := TakingUnit(s, u, i, n, e, UnitsLocked)] == b.txns;
    assert a.locks[UnitRow(u) := 2] == b.locks;
  }

  lemma Reads(s: Sys, u: UnitId, d: DispatchId, i: IncidentId, n: nat, e: nat)
    requires Cast(s, u, d, i, n, e)
    ensures Leads(Both(s, u, d, i, n, e, UnitsLocked), Statement(2), Both(s, u, d, i, n, e, IncidentRead))
  {
    var a, b := Both(s, u, d, i, n, e, UnitsLocked), Both(s, u, d, i, n, e, IncidentRead);
    assert forall rival :: !WaitsFor(a, 2, rival);
    assert a.txns[2 := TakingUnit(s, u, i, n, e, IncidentRead)] == b.txns;
  }

  lemma Marks(s: Sys, u: UnitId, d: DispatchId, i: IncidentId, n: nat, e: nat)
    requires Cast(s, u, d, i, n, e)
    ensures Leads(Both(s, u, d, i, n, e, IncidentRead), Statement(2), Both(s, u, d, i, n, e, UnitsWritten))
  {
    var a, b := Both(s, u, d, i, n, e, IncidentRead), Both(s, u, d, i, n, e, UnitsWritten);
    assert forall rival :: !WaitsFor(a, 2, rival);
    assert NO_WRITES.units[u := MarkReserved(s.core.units[u])] == map[u := MarkReserved(s.core.units[u])];
    assert a.txns[2 := TakingUnit(s, u, i, n, e, UnitsWritten)] == b.txns;
    assert a.locks[UnitRow(u) := 2] == b.locks;
  }

  lemma Sticks(s: Sys, u: UnitId, d: DispatchId, i: IncidentId, n: nat, e: nat)
    requires Cast(s, u, d, i, n, e)
    ensures Circle(Both(s, u, d, i, n, e, UnitsWritten), [1, 2])
  {
    var t := Both(s, u, d, i, n, e, UnitsWritten);
    assert RowBlocked(t, 1, 2);
    assert InDoubt(t.core, t.txns[1].w, d, u) && IndexBlocked(t, 2, 1);
  }

  /** The other half: with the cast present, seven quiet steps end in a circle. */
  lemma CastSticks(s: Sys, u: UnitId, d: DispatchId, i: IncidentId, n: nat, e: nat)
    requires Cast(s, u, d, i, n, e)
    ensures CanStick(s)
  {
    hide Cast, Enabled, Apply, Alone, Both, Circle;
    CastIsThere(s, u, d, i, n, e);
    Begins(s, u, d, i, n, e);
    Finishes(s, u, d, i, n, e);
    Cancels(s, u, d, i, n, e);
    Joins(s, u, d, i, n, e);
    Locks(s, u, d, i, n, e);
    Reads(s, u, d, i, n, e);
    Marks(s, u, d, i, n, e);
    Sticks(s, u, d, i, n, e);
    var steps := [Begin(1, Advance(d, DispatchCancelled), n, e), Statement(1), Statement(1),
                  Begin(2, Reserve(i, u), n + 1, e + 1), Statement(2), Statement(2), Statement(2)];
    var states := [s, Alone(s, d, n, e, Begun), Alone(s, d, n, e, DispatchLocked), Alone(s, d, n, e, OldEnded),
                   Both(s, u, d, i, n, e, Begun), Both(s, u, d, i, n, e, UnitsLocked), Both(s, u, d, i, n, e, IncidentRead),
                   Both(s, u, d, i, n, e, UnitsWritten)];
    assert QuietRun(states, steps);
    assert Reaches(s, states[7]) && Circle(states[7], [1, 2]);
  }

  lemma {:induction false} Unused(taken: set<nat>) returns (n: nat)
    ensures forall x | x in taken :: x < n
    decreases |taken|
  {
    n := 0;
    if taken != {} {
      var x :| x in taken;
      n := Unused(taken - {x});
      assert forall y | y in taken :: y == x || y in taken - {x};
      if n <= x { n := x + 1; }
    }
  }

  lemma ExposedSticks(s: Sys)
    requires Sound(s) && Idle(s) && Exposed(s)
    ensures CanStick(s)
  {
    hide HoldsOnlyExpected, OneActive, EventsMatch, CanStick;
    var u :| u in s.core.units && s.core.units[u].status == UnitAvailable && !UnitFree(s.core.dispatches, u);
    var d :| d in s.core.dispatches && Holds(s.core.dispatches, d, u);
    var i :| OpenIncident(s.incidents, i);
    var n := Unused(s.core.dispatches.Keys);
    var e := Unused(s.core.events.Keys);
    CastSticks(s, u, d, i, n, e);
  }

  // --- Exactly when ---

  lemma ReachableIsSound(states: seq<Sys>, steps: seq<Step>, n: nat)
    requires SysRun(states, steps) && n <= |steps| && Agreement(states[0].core) && EventsMatch(states[0].core)
    requires states[n].txns == map[]
    ensures Sound(states[n]) && Idle(states[n])
  {
    hide HoldsOnlyExpected, OneActive, EventsMatch, Agreement, Serial;
    SerialRefinement(states, steps, n);
    LocksStayExpected(states, steps, n);
    CommittedStatesAgree(states, steps, n);
    assert forall k | k in states[n].locks :: states[n].locks[k] in states[n].txns;
  }

  /**
   In any reachable state without open transactions, whatever operators have overridden so far: a circle can be
   reached without a further override exactly if some available unit is held by an active dispatch and some
   incident can still be dispatched to.
   */
  lemma CircleReachableIff(states: seq<Sys>, steps: seq<Step>, n: nat)
    requires SysRun(states, steps) && n <= |steps| && Agreement(states[0].core) && EventsMatch(states[0].core)
    requires states[n].txns == map[]
    ensures CanStick(states[n]) <==> Exposed(states[n])
  {
    hide Sound, Exposed, Reaches, Circle;
    ReachableIsSound(states, steps, n);
    if Exposed(states[n]) { ExposedSticks(states[n]); }
    if CanStick(states[n]) && !Exposed(states[n]) {
      var t, ring :| Reaches(states[n], t) && Circle(t, ring);
      UnexposedNeverSticks(states[n], t, ring);
      assert false;
    }
  }

  // --- One override is enough ---

  function Freeing(s: Sys, u: UnitId, n: nat, e: nat, pc: Pc): Sys
    requires u in s.core.units
  {
    var w := if pc == Begun then NO_WRITES else Writes(map[u := SetUnitStatus(s.core.units[u], UnitAvailable)], map[], map[], map[]);
    s.(txns := map[1 := Txn(Override(u, UnitAvailable), pc, n, e, 0, 0, 0, false, w)],
       locks := if pc == Begun then map[] else map[UnitRow(u) := 1], overridden := true)
  }

  function Freed(s: Sys, u: UnitId, n: nat, e: nat): Sys
    requires u in s.core.units
  {
    Commit(Freeing(s, u, n, e, ReadyToCommit), 1)
  }

  lemma OverrideBegins(s: Sys, u: UnitId, n: nat, e: nat)
    requires Idle(s) && u in s.core.units && n !in s.core.dispatches && e !in s.core.events
    ensures Leads(s, Begin(1, Override(u, UnitAvailable), n, e), Freeing(s, u, n, e, Begun))
  {
    var a := Freeing(s, u, n, e, Begun);
    var none: map<TxId, Txn> := map[];
    assert none[1 := a.txns[1]] == a.txns;
  }

  lemma OverrideWrites(s: Sys, u: UnitId, n: nat, e: nat)
    requires Idle(s) && u in s.core.units
    ensures Leads(Freeing(s, u, n, e, Begun), Statement(1), Freeing(s, u, n, e, ReadyToCommit))
  {
    var a, b := Freeing(s, u, n, e, Begun), Freeing(s, u, n, e, ReadyToCommit);
    assert forall rival :: !WaitsFor(a, 1, rival);
    var free: map<Key, TxId> := map[];
    assert a.txns[1 := b.txns[1]] == b.txns && free[UnitRow(u) := 1] == b.locks;
    assert NO_WRITES.units[u := SetUnitStatus(s.core.units[u], UnitAvailable)] == b.txns[1].w.units;
  }

  lemma OverrideCommits(s: Sys, u: UnitId, n: nat, e: nat)
    requires Idle(s) && u in s.core.units
    ensures Leads(Freeing(s, u, n, e, ReadyToCommit), Statement(1), Freed(s, u, n, e))
  {
    hide Commit;
    assert forall rival :: !WaitsFor(Freeing(s, u, n, e, ReadyToCommit), 1, rival);
  }

  lemma OverrideExposes(s: Sys, u: UnitId, d: DispatchId, i: IncidentId, n: nat, e: nat)
    requires Idle(s) && u in s.core.units && d in s.core.dispatches && Holds(s.core.dispatches, d, u) && OpenIncident(s.incidents, i)
    ensures Freed(s, u, n, e).txns == map[] && Exposed(Freed(s, u, n, e))
  {
    var t := Freed(s, u, n, e);
    assert t.core.units[u].status == UnitAvailable && Holds(t.core.dispatches, d, u);
    assert OpenIncident(t.incidents, i);
  }

  /**
   From any reachable state without open transactions in which some active dispatch holds a unit and some incident
   is open: overriding that one unit to available exposes the state, and transactions can then end in a circle.
   */
  lemma OverrideCanDeadlock(states: seq<Sys>, steps: seq<Step>, u: UnitId, d: DispatchId, i: IncidentId)
    returns (later: seq<Sys>, more: seq<Step>, n: DispatchId, e: EventId)
    requires SysRun(states, steps) && Agreement(states[0].core) && EventsMatch(states[0].core) && states[|steps|].txns == map[]
    requires var s := states[|steps|];
             d in s.core.dispatches && Holds(s.core.dispatches, d, u) && OpenIncident(s.incidents, i)
    ensures SysRun(later, more) && states <= later
    ensures more == steps + [Begin(1, Override(u, UnitAvailable), n, e), Statement(1), Statement(1)]
    ensures later[|more|].txns == map[] && CanStick(later[|more|])
  {
    hide Sound, Exposed, CanStick, Enabled, Apply, Freed, Freeing, Agreement, EventsMatch;
    var s := states[|steps|];
    ReachableIsSound(states, steps, |steps|);
    SoundForeignKeys(s);
    n := Unused(s.core.dispatches.Keys);
    e := Unused(s.core.events.Keys);
    OverrideBegins(s, u, n, e);
    OverrideWrites(s, u, n, e);
    OverrideCommits(s, u, n, e);
    OverrideExposes(s, u, d, i, n, e);
    later := states + [Freeing(s, u, n, e, Begun), Freeing(s, u, n, e, ReadyToCommit), Freed(s, u, n, e)];
    more := steps + [Begin(1, Override(u, UnitAvailable), n, e), Statement(1), Statement(1)];
    forall k | 0 <= k < |more| ensures Enabled(later[k], more[k]) && later[k + 1] == Apply(later[k], more[k]) {
      if k < |steps| {
        assert Enabled(states[k], steps[k]) && states[k + 1] == Apply(states[k], steps[k]);
      } else {
        assert Leads(later[k], more[k], later[k + 1]);
      }
    }
    CircleReachableIff(later, more, |more|);
  }

  lemma SoundForeignKeys(s: Sys)
    requires Sound(s)
    ensures ForeignKeys(Db(s.core, s.incidents))
  {
  }
}
