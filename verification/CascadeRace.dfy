/**
 A guard that falls: an operator verifies a reported incident while a unit is being reserved for it. The status
 is checked before the reservation commits and written after, and the incident is verified with help on the way.
 */
module CascadeRace {
  import opened Results
  import opened Rows
  import opened AtomicOps
  import opened DispatchInvariants
  import opened Interleaving
  import opened CascadeRuns

  /** What the run needs: unit u is free, incident i is reported, nobody is at work, and four ids are unused. */
  ghost predicate Cast(s: Sys, u: UnitId, i: IncidentId, n: nat, e: nat) {
    && s.txns == map[] && s.locks == map[]
    && u in s.core.units && s.core.units[u].status == UnitAvailable && UnitFree(s.core.dispatches, u)
    && i in s.incidents && s.incidents[i].status == Reported
    && n !in s.core.dispatches && n + 1 !in s.core.dispatches && e !in s.core.events && e + 1 !in s.core.events
  }

  function Verifying(i: IncidentId, n: nat, e: nat, pc: Pc, w: Writes): Txn {
    Txn(Operator(i, Verified), pc, n, e, 0, 0, 0, false, w)
  }

  function SentSoFar(s: Sys, u: UnitId, i: IncidentId, n: nat, e: nat, pc: Pc): Writes
    requires u in s.core.units && i in s.incidents
  {
    var none := NO_WRITES;
    Writes(if Stage(pc) < 9 then none.units else map[u := MarkReserved(s.core.units[u])],
           if Stage(pc) < 10 then none.dispatches else map[n + 1 := Dispatch(i, u, DispatchReserved)],
           if Stage(pc) < 11 then none.incidents else map[i := s.incidents[i].(status := Dispatched)],
           if Stage(pc) < 14 then none.events else map[e + 1 := Event(Created, n + 1)])
  }

  function LockedSoFar(u: UnitId, i: IncidentId, pc: Pc): map<Key, TxId> {
    if Stage(pc) < 5 then map[] else if Stage(pc) < 11 then map[UnitRow(u) := 2] else map[UnitRow(u) := 2, IncidentRow(i) := 2]
  }

  function Sending(s: Sys, u: UnitId, i: IncidentId, n: nat, e: nat, pc: Pc): Txn
    requires u in s.core.units && i in s.incidents
  {
    Txn(Reserve(i, u), pc, n + 1, e + 1, 0, 0, 0, false, SentSoFar(s, u, i, n, e, pc))
  }

  /** The operator has checked the status; the reservation stands at `pc`. */
  function Racing(s: Sys, u: UnitId, i: IncidentId, n: nat, e: nat, pc: Pc): Sys
    requires u in s.core.units && i in s.incidents
  {
    s.(txns := map[1 := Verifying(i, n, e, StatusRead, NO_WRITES),
                   2 := Sending(s, u, i, n, e, pc)],
       locks := LockedSoFar(u, i, pc))
  }

  function Alone(s: Sys, i: IncidentId, n: nat, e: nat, pc: Pc): Sys {
    s.(txns := map[1 := Verifying(i, n, e, pc, NO_WRITES)], locks := map[])
  }

  function SentCore(s: Sys, u: UnitId, i: IncidentId, n: nat, e: nat): Core
    requires u in s.core.units
  {
    Core(s.core.units[u := MarkReserved(s.core.units[u])], s.core.dispatches[n + 1 := Dispatch(i, u, DispatchReserved)],
         s.core.events[e + 1 := Event(Created, n + 1)])
  }

  /** The reservation has committed. */
  function Sent(s: Sys, u: UnitId, i: IncidentId, n: nat, e: nat): Sys
    requires u in s.core.units && i in s.incidents
  {
    var core := SentCore(s, u, i, n, e);
    Sys(core, s.incidents[i := s.incidents[i].(status := Dispatched)], map[1 := Verifying(i, n, e, StatusRead, NO_WRITES)], map[],
        s.history + [core], s.log + [Op(Reserve(i, u), n + 1, e + 1)], s.overridden)
  }

  /** The operator's UPDATE, on the row as it is by then. */
  function Overwritten(s: Sys, u: UnitId, i: IncidentId, n: nat, e: nat): Sys
    requires u in s.core.units && i in s.incidents
  {
    var w := Writes(map[], map[], map[i := s.incidents[i].(status := Verified)], map[]);
    Sent(s, u, i, n, e).(txns := map[1 := Verifying(i, n, e, ReadyToCommit, w)], locks := map[IncidentRow(i) := 1])
  }

  function Broken(s: Sys, u: UnitId, i: IncidentId, n: nat, e: nat): Sys
    requires u in s.core.units && i in s.incidents
  {
    Commit(Overwritten(s, u, i, n, e), 1)
  }

  lemma Begins(s: Sys, u: UnitId, i: IncidentId, n: nat, e: nat)
    requires Cast(s, u, i, n, e)
    ensures Leads(s, Begin(1, Operator(i, Verified), n, e), Alone(s, i, n, e, Begun))
  {
    var none: map<TxId, Txn> := map[];
    assert none[1 := Verifying(i, n, e, Begun, NO_WRITES)] == Alone(s, i, n, e, Begun).txns;
  }

  lemma Checks(s: Sys, u: UnitId, i: IncidentId, n: nat, e: nat)
    requires Cast(s, u, i, n, e)
    ensures Leads(Alone(s, i, n, e, Begun), Statement(1), Alone(s, i, n, e, StatusRead))
  {
    var a, b := Alone(s, i, n, e, Begun), Alone(s, i, n, e, StatusRead);
    assert forall rival :: !WaitsFor(a, 1, rival);
    assert a.txns[1 := b.txns[1]] == b.txns;
  }

  lemma Joins(s: Sys, u: UnitId, i: IncidentId, n: nat, e: nat)
    requires Cast(s, u, i, n, e)
    ensures Leads(Alone(s, i, n, e, StatusRead), Begin(2, Reserve(i, u), n + 1, e + 1), Racing(s, u, i, n, e, Begun))
  {
    var a, b := Alone(s, i, n, e, StatusRead), Racing(s, u, i, n, e, Begun);
    assert a.txns[2 := b.txns[2]] == b.txns;
  }

  lemma NeverWaits(s: Sys, u: UnitId, i: IncidentId, n: nat, e: nat, pc: Pc)
    requires u in s.core.units && i in s.incidents
    ensures !Blocked(Racing(s, u, i, n, e, pc), 2)
  {
    var a := Racing(s, u, i, n, e, pc);
    assert forall rival :: !RowBlocked(a, 2, rival) && !IndexBlocked(a, 2, rival);
  }

  /** The reservation's statement, where the outcome and the row it locks are known. */
  lemma MovesOn(s: Sys, u: UnitId, i: IncidentId, n: nat, e: nat, pc: Pc, to: Pc, k: Option<Key>)
    requires u in s.core.units && i in s.incidents
    requires Exec(s.core, s.incidents, Sending(s, u, i, n, e, pc)) == Next(Sending(s, u, i, n, e, to))
    requires NextRow(s.core, s.incidents, Sending(s, u, i, n, e, pc)) == k
    requires LockedSoFar(u, i, to) == if k.Some? then LockedSoFar(u, i, pc)[k.value := 2] else LockedSoFar(u, i, pc)
    ensures Leads(Racing(s, u, i, n, e, pc), Statement(2), Racing(s, u, i, n, e, to))
  {
    NeverWaits(s, u, i, n, e, pc);
    hide Exec, NextRow, LockedSoFar, Sending, Blocked;
    var a, b := Racing(s, u, i, n, e, pc), Racing(s, u, i, n, e, to);
    assert a.txns[2 := b.txns[2]] == b.txns;
  }

  lemma Locks(s: Sys, u: UnitId, i: IncidentId, n: nat, e: nat)
    requires Cast(s, u, i, n, e)
    ensures Leads(Racing(s, u, i, n, e, Begun), Statement(2), Racing(s, u, i, n, e, UnitsLocked))
  {
    assert Exec(s.core, s.incidents, Sending(s, u, i, n, e, Begun)) == Next(Sending(s, u, i, n, e, UnitsLocked));
    MovesOn(s, u, i, n, e, Begun, UnitsLocked, Some(UnitRow(u)));
  }

  lemma Reads(s: Sys, u: UnitId, i: IncidentId, n: nat, e: nat)
    requires Cast(s, u, i, n, e)
    ensures Leads(Racing(s, u, i, n, e, UnitsLocked), Statement(2), Racing(s, u, i, n, e, IncidentRead))
  {
    assert Exec(s.core, s.incidents, Sending(s, u, i, n, e, UnitsLocked)) == Next(Sending(s, u, i, n, e, IncidentRead));
    MovesOn(s, u, i, n, e, UnitsLocked, IncidentRead, None);
  }

  lemma Marks(s: Sys, u: UnitId, i: IncidentId, n: nat, e: nat)
    requires Cast(s, u, i, n, e)
    ensures Leads(Racing(s, u, i, n, e, IncidentRead), Statement(2), Racing(s, u, i, n, e, UnitsWritten))
  {
    assert Exec(s.core, s.incidents, Sending(s, u, i, n, e, IncidentRead)) == Next(Sending(s, u, i, n, e, UnitsWritten));
    MovesOn(s, u, i, n, e, IncidentRead, UnitsWritten, Some(UnitRow(u)));
  }

  lemma Inserts(s: Sys, u: UnitId, i: IncidentId, n: nat, e: nat)
    requires Cast(s, u, i, n, e)
    ensures Leads(Racing(s, u, i, n, e, UnitsWritten), Statement(2), Racing(s, u, i, n, e, Inserted))
  {
    assert Exec(s.core, s.incidents, Sending(s, u, i, n, e, UnitsWritten)) == Next(Sending(s, u, i, n, e, Inserted)) by {
      assert Seen(s.core, Sending(s, u, i, n, e, UnitsWritten)) == s.core.dispatches;
    }
    MovesOn(s, u, i, n, e, UnitsWritten, Inserted, None);
  }

  lemma Promotes(s: Sys, u: UnitId, i: IncidentId, n: nat, e: nat)
    requires Cast(s, u, i, n, e)
    ensures Leads(Racing(s, u, i, n, e, Inserted), Statement(2), Racing(s, u, i, n, e, IncidentMarked))
  {
    assert Exec(s.core, s.incidents, Sending(s, u, i, n, e, Inserted)) == Next(Sending(s, u, i, n, e, IncidentMarked));
    MovesOn(s, u, i, n, e, Inserted, IncidentMarked, Some(IncidentRow(i)));
  }

  lemma Announces(s: Sys, u: UnitId, i: IncidentId, n: nat, e: nat)
    requires Cast(s, u, i, n, e)
    ensures Leads(Racing(s, u, i, n, e, IncidentMarked), Statement(2), Racing(s, u, i, n, e, ReadyToCommit))
  {
    assert Exec(s.core, s.incidents, Sending(s, u, i, n, e, IncidentMarked)) == Next(Sending(s, u, i, n, e, ReadyToCommit));
    MovesOn(s, u, i, n, e, IncidentMarked, ReadyToCommit, None);
  }

  lemma Commits(s: Sys, u: UnitId, i: IncidentId, n: nat, e: nat)
    requires Cast(s, u, i, n, e)
    ensures Leads(Racing(s, u, i, n, e, ReadyToCommit), Statement(2), Sent(s, u, i, n, e))
  {
    NeverWaits(s, u, i, n, e, ReadyToCommit);
    CommitGives(s, u, i, n, e);
    hide Commit, Sent, Blocked;
  }

  lemma CommitGives(s: Sys, u: UnitId, i: IncidentId, n: nat, e: nat)
    requires Cast(s, u, i, n, e)
    ensures Commit(Racing(s, u, i, n, e, ReadyToCommit), 2) == Sent(s, u, i, n, e)
  {
    hide Cast, SentSoFar, LockedSoFar, SentCore, Merge, Release;
    CastIsThere(s, u, i, n, e);
    AllSent(s, u, i, n, e);
    AllReleased(u, i);
    assert Racing(s, u, i, n, e, ReadyToCommit).txns - {2} == Sent(s, u, i, n, e).txns;
  }

  lemma AllSent(s: Sys, u: UnitId, i: IncidentId, n: nat, e: nat)
    requires u in s.core.units && i in s.incidents
    ensures var w := SentSoFar(s, u, i, n, e, ReadyToCommit);
            Merge(s.core, w) == SentCore(s, u, i, n, e) && s.incidents + w.incidents == s.incidents[i := s.incidents[i].(status := Dispatched)]
  {
  }

  lemma AllReleased(u: UnitId, i: IncidentId)
    ensures Release(LockedSoFar(u, i, ReadyToCommit), 2) == map[]
  {
  }

  lemma Overwrites(s: Sys, u: UnitId, i: IncidentId, n: nat, e: nat)
    requires Cast(s, u, i, n, e)
    ensures Leads(Sent(s, u, i, n, e), Statement(1), Overwritten(s, u, i, n, e))
  {
    hide SentCore;
    var a, b := Sent(s, u, i, n, e), Overwritten(s, u, i, n, e);
    assert forall rival :: !WaitsFor(a, 1, rival);
    var free: map<Key, TxId> := map[];
    assert a.txns[1 := b.txns[1]] == b.txns && free[IncidentRow(i) := 1] == b.locks;
  }

  lemma Ends(s: Sys, u: UnitId, i: IncidentId, n: nat, e: nat)
    requires Cast(s, u, i, n, e)
    ensures Leads(Overwritten(s, u, i, n, e), Statement(1), Broken(s, u, i, n, e))
  {
    hide Commit, SentCore;
    assert forall rival :: !WaitsFor(Overwritten(s, u, i, n, e), 1, rival);
  }

  lemma EndsBroken(s: Sys, u: UnitId, i: IncidentId, n: nat, e: nat)
    requires Cast(s, u, i, n, e)
    ensures var t := Broken(s, u, i, n, e);
            t.txns == map[] && Serves(t.core.dispatches, n + 1, i) && i in t.incidents && t.incidents[i].status == Verified
  {
    hide Cast;
    CastIsThere(s, u, i, n, e);
    assert Overwritten(s, u, i, n, e).txns - {1} == map[];
  }

  /** From any idle state with a free unit and a reported incident twelve steps leave that incident verified and served. */
  lemma VerifiedWithHelpOnTheWay(s: Sys, u: UnitId, i: IncidentId, n: nat, e: nat) returns (states: seq<Sys>, steps: seq<Step>)
    requires Cast(s, u, i, n, e)
    ensures |states| == |steps| + 1 && states[0] == s && (forall k | 0 <= k < |steps| :: Leads(states[k], steps[k], states[k + 1]))
    ensures states[|steps|].txns == map[] && !Cascaded(DbOf(states[|steps|]))
  {
    hide Cast, Enabled, Apply, Alone, Racing, Sent, Overwritten, Broken;
    CastIsThere(s, u, i, n, e);
    Begins(s, u, i, n, e);
    Checks(s, u, i, n, e);
    Joins(s, u, i, n, e);
    Locks(s, u, i, n, e);
    Reads(s, u, i, n, e);
    Marks(s, u, i, n, e);
    Inserts(s, u, i, n, e);
    Promotes(s, u, i, n, e);
    Announces(s, u, i, n, e);
    Commits(s, u, i, n, e);
    Overwrites(s, u, i, n, e);
    Ends(s, u, i, n, e);
    EndsBroken(s, u, i, n, e);
    steps := [Begin(1, Operator(i, Verified), n, e), Statement(1), Begin(2, Reserve(i, u), n + 1, e + 1)]
             + seq(7, _ => Statement(2)) + [Statement(1), Statement(1)];
    states := [s, Alone(s, i, n, e, Begun), Alone(s, i, n, e, StatusRead), Racing(s, u, i, n, e, Begun),
               Racing(s, u, i, n, e, UnitsLocked), Racing(s, u, i, n, e, IncidentRead), Racing(s, u, i, n, e, UnitsWritten),
               Racing(s, u, i, n, e, Inserted), Racing(s, u, i, n, e, IncidentMarked), Racing(s, u, i, n, e, ReadyToCommit),
               Sent(s, u, i, n, e), Overwritten(s, u, i, n, e), Broken(s, u, i, n, e)];
    assert Serves(states[12].core.dispatches, n + 1, i);
  }

  lemma CastIsThere(s: Sys, u: UnitId, i: IncidentId, n: nat, e: nat)
    requires Cast(s, u, i, n, e)
    ensures u in s.core.units && i in s.incidents
  {
  }
}
