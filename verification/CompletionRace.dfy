/**
 The other guard that falls: the last two dispatches of an incident complete at the same time. Each counts the
 other as still active, so neither resolves the incident, and it stays dispatched with nobody coming.
 */
module CompletionRace {
  import opened Results
  import opened Rows
  import opened AtomicOps
  import opened Interleaving

  /** One of the two: the dispatch it completes and the ids it was given. */
  datatype Part = Part(id: TxId, d: DispatchId, n: DispatchId, e: EventId)

  predicate OnScene(core: Core, incidents: map<IncidentId, Incident>, d: DispatchId, i: IncidentId) {
    && d in core.dispatches && core.dispatches[d].status == DispatchOnScene && core.dispatches[d].incident == i
    && core.dispatches[d].unit in core.units && i in incidents && incidents[i].status == Dispatched
  }

  /** What the run needs: two dispatches on scene, with units of their own, and no other for incident i. */
  ghost predicate Cast(s: Sys, i: IncidentId, x: Part, y: Part) {
    && s.txns == map[] && s.locks == map[]
    && OnScene(s.core, s.incidents, x.d, i) && OnScene(s.core, s.incidents, y.d, i)
    && x.d != y.d && s.core.dispatches[x.d].unit != s.core.dispatches[y.d].unit
    && (forall d | d in s.core.dispatches && Serves(s.core.dispatches, d, i) :: d == x.d || d == y.d)
    && x.id != y.id && x.n != y.n && x.e != y.e
    && x.n !in s.core.dispatches && y.n !in s.core.dispatches && x.e !in s.core.events && y.e !in s.core.events
  }

  /** The transaction that completes p.d, having counted another active dispatch. */
  function Completing(core: Core, p: Part, pc: Pc): Txn
    requires p.d in core.dispatches && core.dispatches[p.d].unit in core.units
  {
    var row := core.dispatches[p.d];
    var none := NO_WRITES;
    Txn(Advance(p.d, DispatchCompleted), pc, p.n, p.e, 0, 0, 0, false,
        Writes(if Stage(pc) < 9 then none.units else map[row.unit := SetUnitStatus(core.units[row.unit], UnitAvailable)],
               if Stage(pc) < 7 then none.dispatches else map[p.d := row.(status := DispatchCompleted)],
               none.incidents,
               if Stage(pc) < 14 then none.events else map[p.e := Event(Completed, p.d)]))
  }

  function After(pc: Pc): Pc {
    match pc
    case Begun => DispatchLocked
    case DispatchLocked => OldEnded
    case OldEnded => UnitsWritten
    case UnitsWritten => Counted
    case Counted => IncidentSettled
    case _ => ReadyToCommit
  }

  predicate OnTheWay(pc: Pc) { pc in {Begun, DispatchLocked, OldEnded, UnitsWritten, Counted, IncidentSettled} }

  function LockTaken(core: Core, p: Part, pc: Pc): Option<Key>
    requires p.d in core.dispatches
  {
    if pc == Begun || pc == DispatchLocked then Some(DispatchRow(p.d))
    else if pc == OldEnded then Some(UnitRow(core.dispatches[p.d].unit)) else None
  }

  /** Each statement's outcome; the count sees some other active dispatch. */
  lemma Statements(core: Core, incidents: map<IncidentId, Incident>, p: Part, pc: Pc, i: IncidentId)
    requires OnScene(core, incidents, p.d, i) && OnTheWay(pc)
    requires pc == UnitsWritten ==> !IncidentUnserved(Seen(core, Completing(core, p, pc)), i)
    ensures Exec(core, incidents, Completing(core, p, pc)) == Next(Completing(core, p, After(pc)))
    ensures NextRow(core, incidents, Completing(core, p, pc)) == LockTaken(core, p, pc)
  {
    hide IncidentUnserved, Seen;
  }

  function LocksOf(core: Core, p: Part, pc: Pc): map<Key, TxId>
    requires p.d in core.dispatches
  {
    (if Stage(pc) < 2 then map[] else map[DispatchRow(p.d) := p.id])
    + (if Stage(pc) < 9 then map[] else map[UnitRow(core.dispatches[p.d].unit) := p.id])
  }

  /** Both at work. */
  function Both(s: Sys, x: Part, px: Pc, y: Part, py: Pc): Sys
    requires x.d in s.core.dispatches && s.core.dispatches[x.d].unit in s.core.units
    requires y.d in s.core.dispatches && s.core.dispatches[y.d].unit in s.core.units
  {
    s.(txns := map[x.id := Completing(s.core, x, px), y.id := Completing(s.core, y, py)],
       locks := LocksOf(s.core, x, px) + LocksOf(s.core, y, py))
  }

  lemma BothCommute(s: Sys, i: IncidentId, x: Part, px: Pc, y: Part, py: Pc)
    requires Cast(s, i, x, y)
    ensures Both(s, x, px, y, py) == Both(s, y, py, x, px)
  {
    assert Both(s, x, px, y, py).txns == Both(s, y, py, x, px).txns;
    LocksApart(s, i, x, px, y, py);
    hide Cast, LocksOf, Completing;
  }

  lemma LocksApart(s: Sys, i: IncidentId, x: Part, px: Pc, y: Part, py: Pc)
    requires Cast(s, i, x, y)
    ensures LocksOf(s.core, x, px).Keys !! LocksOf(s.core, y, py).Keys
    ensures LocksOf(s.core, x, px) + LocksOf(s.core, y, py) == LocksOf(s.core, y, py) + LocksOf(s.core, x, px)
  {
  }

  lemma CastIsThere(s: Sys, i: IncidentId, x: Part, y: Part)
    requires Cast(s, i, x, y)
    ensures Cast(s, i, y, x) && OnScene(s.core, s.incidents, x.d, i) && OnScene(s.core, s.incidents, y.d, i) && x.id != y.id
  {
  }

  /** The row the next statement locks is nobody else's. */
  lemma RowIsFree(s: Sys, i: IncidentId, x: Part, px: Pc, y: Part, py: Pc)
    requires Cast(s, i, x, y) && LockTaken(s.core, x, px).Some?
    ensures LockTaken(s.core, x, px).value !in LocksOf(s.core, y, py)
  {
  }

  lemma LocksAreOwn(core: Core, p: Part, pc: Pc)
    requires p.d in core.dispatches
    ensures forall k | k in LocksOf(core, p, pc) :: LocksOf(core, p, pc)[k] == p.id
    ensures var k := LockTaken(core, p, pc);
            OnTheWay(pc) ==> LocksOf(core, p, After(pc)) == if k.Some? then LocksOf(core, p, pc)[k.value := p.id] else LocksOf(core, p, pc)
  {
  }

  lemma AddLeft(a: map<Key, TxId>, b: map<Key, TxId>, k: Key, id: TxId)
    requires k !in b
    ensures a[k := id] + b == (a + b)[k := id]
  {
  }

  lemma NeverWaits(s: Sys, i: IncidentId, x: Part, px: Pc, y: Part, py: Pc)
    requires Cast(s, i, x, y) && OnTheWay(px)
    requires NextRow(s.core, s.incidents, Completing(s.core, x, px)) == LockTaken(s.core, x, px)
    ensures !Blocked(Both(s, x, px, y, py), x.id)
  {
    var a := Both(s, x, px, y, py);
    LocksAreOwn(s.core, x, px);
    if LockTaken(s.core, x, px).Some? { RowIsFree(s, i, x, px, y, py); }
    hide Cast, LocksOf, LockTaken, NextRow, InDoubt;
    assert forall rival :: !RowBlocked(a, x.id, rival) && !IndexBlocked(a, x.id, rival);
  }

  lemma OtherIsCounted(s: Sys, i: IncidentId, x: Part, y: Part)
    requires Cast(s, i, x, y)
    ensures !IncidentUnserved(Seen(s.core, Completing(s.core, x, UnitsWritten)), i)
  {
    assert Serves(Seen(s.core, Completing(s.core, x, UnitsWritten)), y.d, i);
  }

  lemma LocksGrow(s: Sys, i: IncidentId, x: Part, px: Pc, y: Part, py: Pc)
    requires Cast(s, i, x, y) && OnTheWay(px)
    ensures x.d in s.core.dispatches && y.d in s.core.dispatches
    ensures var k := LockTaken(s.core, x, px);
            var before, after := LocksOf(s.core, x, px) + LocksOf(s.core, y, py), LocksOf(s.core, x, After(px)) + LocksOf(s.core, y, py);
            after == if k.Some? then before[k.value := x.id] else before
  {
    hide *;
    CastIsThere(s, i, x, y);
    LocksAreOwn(s.core, x, px);
    if LockTaken(s.core, x, px).Some? {
      RowIsFree(s, i, x, px, y, py);
      AddLeft(LocksOf(s.core, x, px), LocksOf(s.core, y, py), LockTaken(s.core, x, px).value, x.id);
    }
  }

  /** A statement whose outcome and row are known leads to the state they make. */
  lemma MoveLeads(a: Sys, id: TxId, t': Txn, b: Sys)
    requires id in a.txns && !Blocked(a, id) && Exec(a.core, a.incidents, a.txns[id]) == Next(t')
    requires var k := NextRow(a.core, a.incidents, a.txns[id]);
             b == a.(txns := a.txns[id := t'], locks := if k.Some? then a.locks[k.value := id] else a.locks)
    ensures Leads(a, Statement(id), b)
  {
    hide Blocked, Exec, NextRow;
  }

  lemma FirstMoves(s: Sys, i: IncidentId, x: Part, px: Pc, y: Part, py: Pc)
    requires Cast(s, i, x, y) && OnTheWay(px)
    ensures Leads(Both(s, x, px, y, py), Statement(x.id), Both(s, x, After(px), y, py))
  {
    hide Leads, Exec, NextRow, LocksOf, LockTaken, Blocked, IncidentUnserved, Seen, Cast, Completing, After;
    OtherIsCounted(s, i, x, y);
    CastIsThere(s, i, x, y);
    Statements(s.core, s.incidents, x, px, i);
    NeverWaits(s, i, x, px, y, py);
    LocksGrow(s, i, x, px, y, py);
    hide OnScene, OnTheWay;
    var a, b := Both(s, x, px, y, py), Both(s, x, After(px), y, py);
    assert a.txns[x.id := Completing(s.core, x, After(px))] == b.txns;
    MoveLeads(a, x.id, Completing(s.core, x, After(px)), b);
  }

  lemma SecondMoves(s: Sys, i: IncidentId, x: Part, px: Pc, y: Part, py: Pc)
    requires Cast(s, i, x, y) && OnTheWay(py)
    ensures Leads(Both(s, x, px, y, py), Statement(y.id), Both(s, x, px, y, After(py)))
  {
    hide Leads;
    CastIsThere(s, i, x, y);
    BothCommute(s, i, x, px, y, py);
    BothCommute(s, i, x, px, y, After(py));
    hide Cast, Both;
    FirstMoves(s, i, y, py, x, px);
  }

  // --- The two commits ---

  function Closed(core: Core, p: Part): Core
    requires p.d in core.dispatches && core.dispatches[p.d].unit in core.units
  {
    var row := core.dispatches[p.d];
    Core(core.units[row.unit := SetUnitStatus(core.units[row.unit], UnitAvailable)],
         core.dispatches[p.d := row.(status := DispatchCompleted)], core.events[p.e := Event(Completed, p.d)])
  }

  /** The first has committed, the second is ready to. */
  function Last(s: Sys, x: Part, y: Part): Sys
    requires x.d in s.core.dispatches && s.core.dispatches[x.d].unit in s.core.units
    requires y.d in s.core.dispatches && s.core.dispatches[y.d].unit in s.core.units
  {
    var core := Closed(s.core, x);
    Sys(core, s.incidents, map[y.id := Completing(s.core, y, ReadyToCommit)], LocksOf(s.core, y, ReadyToCommit),
        s.history + [core], s.log + [Op(Advance(x.d, DispatchCompleted), x.n, x.e)], s.overridden)
  }

  lemma ReadyWritesAll(core: Core, p: Part)
    requires p.d in core.dispatches && core.dispatches[p.d].unit in core.units
    ensures Merge(core, Completing(core, p, ReadyToCommit).w) == Closed(core, p)
    ensures Completing(core, p, ReadyToCommit).w.incidents == map[]
    ensures OpOf(Completing(core, p, ReadyToCommit)) == Op(Advance(p.d, DispatchCompleted), p.n, p.e)
  {
  }

  lemma ReadyCommits(core: Core, incidents: map<IncidentId, Incident>, p: Part, t: Txn)
    requires t.req == Advance(p.d, DispatchCompleted) && t.pc == ReadyToCommit && p.d in core.dispatches
    ensures Exec(core, incidents, t).Committed? && NextRow(core, incidents, t).None?
  {
  }

  lemma ReleasesOwn(core: Core, x: Part, px: Pc, y: Part, py: Pc)
    requires x.d in core.dispatches && y.d in core.dispatches && x.id != y.id
    requires LocksOf(core, x, px).Keys !! LocksOf(core, y, py).Keys
    ensures Release(LocksOf(core, x, px) + LocksOf(core, y, py), x.id) == LocksOf(core, y, py)
  {
    LocksAreOwn(core, x, px);
    LocksAreOwn(core, y, py);
    hide LocksOf, LockTaken, After;
  }

  lemma FirstCommits(s: Sys, i: IncidentId, x: Part, y: Part)
    requires Cast(s, i, x, y)
    ensures Leads(Both(s, x, ReadyToCommit, y, ReadyToCommit), Statement(x.id), Last(s, x, y))
  {
    hide Cast, Exec, NextRow, LocksOf, Merge, Release, Closed, OpOf, Last, Leads, Commit;
    CastIsThere(s, i, x, y);
    var a := Both(s, x, ReadyToCommit, y, ReadyToCommit);
    ReadyCommits(s.core, s.incidents, x, a.txns[x.id]);
    CommitLeads(a, x.id);
    FirstCommitGives(s, i, x, y);
  }

  lemma FirstCommitGives(s: Sys, i: IncidentId, x: Part, y: Part)
    requires Cast(s, i, x, y)
    ensures Commit(Both(s, x, ReadyToCommit, y, ReadyToCommit), x.id) == Last(s, x, y)
  {
    hide Cast, LocksOf, Merge, Release, Closed, OpOf, Completing;
    CastIsThere(s, i, x, y);
    var a := Both(s, x, ReadyToCommit, y, ReadyToCommit);
    LocksApart(s, i, x, ReadyToCommit, y, ReadyToCommit);
    ReadyWritesAll(s.core, x);
    ReleasesOwn(s.core, x, ReadyToCommit, y, ReadyToCommit);
    hide OnScene;
    assert a.txns - {x.id} == map[y.id := Completing(s.core, y, ReadyToCommit)];
    assert s.incidents + a.txns[x.id].w.incidents == s.incidents;
  }

  lemma CommitLeads(a: Sys, id: TxId)
    requires id in a.txns && Exec(a.core, a.incidents, a.txns[id]).Committed? && NextRow(a.core, a.incidents, a.txns[id]).None?
    requires a.txns[id].req.Advance?
    ensures Leads(a, Statement(id), Commit(a, id))
  {
    hide Exec, NextRow, Commit;
    assert forall rival :: !RowBlocked(a, id, rival) && !IndexBlocked(a, id, rival);
  }

  lemma SecondCommits(s: Sys, i: IncidentId, x: Part, y: Part)
    requires Cast(s, i, x, y)
    ensures y.id in Last(s, x, y).txns && Leads(Last(s, x, y), Statement(y.id), Commit(Last(s, x, y), y.id))
  {
    CastIsThere(s, i, x, y);
    hide Cast, Commit, Exec, NextRow, LocksOf;
    var a := Last(s, x, y);
    ReadyCommits(a.core, a.incidents, y, a.txns[y.id]);
    CommitLeads(a, y.id);
  }

  /** With its only two active dispatches completed, the incident is unserved. */
  lemma BothDone(s: Sys, i: IncidentId, x: Part, y: Part)
    requires Cast(s, i, x, y)
    ensures var both := s.core.dispatches[x.d := s.core.dispatches[x.d].(status := DispatchCompleted)]
                                         [y.d := s.core.dispatches[y.d].(status := DispatchCompleted)];
            IncidentUnserved(both, i)
  {
    var both := s.core.dispatches[x.d := s.core.dispatches[x.d].(status := DispatchCompleted)]
                                 [y.d := s.core.dispatches[y.d].(status := DispatchCompleted)];
    forall d | d in both ensures !Serves(both, d, i) {
      assert d != x.d && d != y.d ==> !Serves(s.core.dispatches, d, i);
    }
  }

  lemma LastRows(s: Sys, i: IncidentId, x: Part, y: Part)
    requires Cast(s, i, x, y)
    ensures y.id in Last(s, x, y).txns
    ensures var t := Commit(Last(s, x, y), y.id);
            && t.txns == map[] && t.incidents == s.incidents
            && t.core.dispatches == s.core.dispatches[x.d := s.core.dispatches[x.d].(status := DispatchCompleted)]
                                                     [y.d := s.core.dispatches[y.d].(status := DispatchCompleted)]
  {
    hide Cast, LocksOf, Release;
    CastIsThere(s, i, x, y);
    var a := Last(s, x, y);
    assert a.txns - {y.id} == map[];
    assert s.incidents + a.txns[y.id].w.incidents == s.incidents;
  }

  lemma NobodyIsLeft(s: Sys, i: IncidentId, x: Part, y: Part)
    requires Cast(s, i, x, y)
    ensures y.id in Last(s, x, y).txns
    ensures var t := Commit(Last(s, x, y), y.id);
            t.txns == map[] && IncidentUnserved(t.core.dispatches, i) && i in t.incidents && t.incidents[i].status == Dispatched
  {
    hide Cast, Last, Commit, IncidentUnserved;
    CastIsThere(s, i, x, y);
    LastRows(s, i, x, y);
    BothDone(s, i, x, y);
  }

  lemma BeginLeads(s: Sys, i: IncidentId, x: Part, y: Part)
    requires Cast(s, i, x, y)
    ensures Leads(s, Begin(x.id, Advance(x.d, DispatchCompleted), x.n, x.e), Alone(s, x))
    ensures Leads(Alone(s, x), Begin(y.id, Advance(y.d, DispatchCompleted), y.n, y.e), Both(s, x, Begun, y, Begun))
  {
    var none: map<TxId, Txn> := map[];
    assert none[x.id := Completing(s.core, x, Begun)] == Alone(s, x).txns;
    assert Alone(s, x).txns[y.id := Completing(s.core, y, Begun)] == Both(s, x, Begun, y, Begun).txns;
  }

  function Alone(s: Sys, x: Part): Sys
    requires x.d in s.core.dispatches && s.core.dispatches[x.d].unit in s.core.units
  {
    s.(txns := map[x.id := Completing(s.core, x, Begun)])
  }

  const PCS: seq<Pc> := [Begun, DispatchLocked, OldEnded, UnitsWritten, Counted, IncidentSettled, ReadyToCommit]

  function StateAt(s: Sys, x: Part, y: Part, k: nat): Sys
    requires x.d in s.core.dispatches && s.core.dispatches[x.d].unit in s.core.units
    requires y.d in s.core.dispatches && s.core.dispatches[y.d].unit in s.core.units
    requires y.id in Last(s, x, y).txns && k <= 16
  {
    if k == 0 then s
    else if k == 1 then Alone(s, x)
    else if k <= 8 then Both(s, x, PCS[k - 2], y, Begun)
    else if k <= 14 then Both(s, x, ReadyToCommit, y, PCS[k - 8])
    else if k == 15 then Last(s, x, y)
    else Commit(Last(s, x, y), y.id)
  }

  function StepAt(x: Part, y: Part, k: nat): Step {
    if k == 0 then Begin(x.id, Advance(x.d, DispatchCompleted), x.n, x.e)
    else if k == 1 then Begin(y.id, Advance(y.d, DispatchCompleted), y.n, y.e)
    else if k < 8 || k == 14 then Statement(x.id) else Statement(y.id)
  }

  lemma PcsFollow(k: nat)
    requires k < 6
    ensures PCS[k + 1] == After(PCS[k]) && OnTheWay(PCS[k])
  {
  }

  lemma FirstWorks(s: Sys, i: IncidentId, x: Part, y: Part, k: nat)
    requires Cast(s, i, x, y) && k < 6
    ensures Leads(Both(s, x, PCS[k], y, Begun), Statement(x.id), Both(s, x, PCS[k + 1], y, Begun))
  {
    hide Cast, Leads, Both;
    CastIsThere(s, i, x, y);
    PcsFollow(k);
    hide PCS, After, OnTheWay;
    FirstMoves(s, i, x, PCS[k], y, Begun);
  }

  lemma SecondWorks(s: Sys, i: IncidentId, x: Part, y: Part, k: nat)
    requires Cast(s, i, x, y) && k < 6
    ensures Leads(Both(s, x, ReadyToCommit, y, PCS[k]), Statement(y.id), Both(s, x, ReadyToCommit, y, PCS[k + 1]))
  {
    hide Cast, Leads, Both;
    CastIsThere(s, i, x, y);
    PcsFollow(k);
    hide PCS, After, OnTheWay;
    SecondMoves(s, i, x, ReadyToCommit, y, PCS[k]);
  }

  lemma StepLeads(s: Sys, i: IncidentId, x: Part, y: Part, k: nat)
    requires Cast(s, i, x, y) && k < 16
    ensures OnScene(s.core, s.incidents, x.d, i) && OnScene(s.core, s.incidents, y.d, i) && y.id in Last(s, x, y).txns
    ensures Leads(StateAt(s, x, y, k), StepAt(x, y, k), StateAt(s, x, y, k + 1))
  {
    hide Cast, Leads, Both, Last, Alone, Commit;
    CastIsThere(s, i, x, y);
    SecondCommits(s, i, x, y);
    if k < 2 { BeginLeads(s, i, x, y); }
    else if k < 8 { FirstWorks(s, i, x, y, k - 2); }
    else if k < 14 { SecondWorks(s, i, x, y, k - 8); }
    else if k == 14 { FirstCommits(s, i, x, y); }
  }

  /**
   From any idle state in which two dispatches are all that serve an incident: sixteen steps complete both, and
   leave the incident dispatched with no active dispatch.
   */
  lemma DispatchedWithNobodyComing(s: Sys, i: IncidentId, x: Part, y: Part) returns (states: seq<Sys>, steps: seq<Step>)
    requires Cast(s, i, x, y)
    ensures |states| == |steps| + 1 && states[0] == s && (forall k | 0 <= k < |steps| :: Leads(states[k], steps[k], states[k + 1]))
    ensures var t := states[|steps|];
            t.txns == map[] && IncidentUnserved(t.core.dispatches, i) && i in t.incidents && t.incidents[i].status == Dispatched
  {
    hide Cast, Leads, Both, Last, Alone, Commit, IncidentUnserved, StepAt;
    StepLeads(s, i, x, y, 0);
    NobodyIsLeft(s, i, x, y);
    states := seq(17, k requires 0 <= k < 17 => StateAt(s, x, y, k));
    steps := seq(16, k requires 0 <= k < 16 => StepAt(x, y, k));
    forall k | 0 <= k < |steps| ensures Leads(states[k], steps[k], states[k + 1]) {
      StepLeads(s, i, x, y, k);
    }
  }
}
