/**
 The walks of Reroute and Preempt: which attempt settles them when others commit in between, and which dispatches
 a preemption may take.
 */
module ReassignWalks {
  import opened Results
  import opened Rows
  import opened AtomicOps
  import opened Answers
  import opened Rivals

  datatype Preemptable = Preemptable(dispatch: DispatchId, unit: UnitId, incident: IncidentId, severity: Severity)

  predicate Preemptible(db: Db, severity: Severity, d: DispatchId)
    requires ForeignKeys(db) && d in db.core.dispatches
  {
    var row := db.core.dispatches[d];
    IsActiveDispatch(row.status) && SeverityRank(db.incidents[row.incident].severity) < SeverityRank(severity)
  }

  predicate IsVictim(db: Db, severity: Severity, v: Preemptable)
    requires ForeignKeys(db) && v.dispatch in db.core.dispatches
  {
    var row := db.core.dispatches[v.dispatch];
    && v.unit == row.unit && v.incident == row.incident && v.severity == db.incidents[v.incident].severity
    && SeverityRank(v.severity) < SeverityRank(severity)
  }

  // --- What others commit while a walk goes on ---

  /** The database each attempt of a walk meets: the one before it, and what `rivals` committed since. */
  ghost predicate Meets(db: Db, rivals: seq<seq<Op>>, n: DispatchId, e: EventId, met: seq<Db>) {
    && |met| <= |rivals| && ForeignKeys(db)
    && forall j | 0 <= j < |met| ::
         && ForeignKeys(met[j])
         && (j == 0 ==> met[j] == Meanwhile(db, rivals[j], n, e))
         && (j > 0 ==> ForeignKeys(met[j - 1]) && met[j] == Meanwhile(met[j - 1], rivals[j], n, e))
  }

  // --- Which candidate a walk settles on ---

  /** Reassigning to candidate `c`, as the walk sees it: skipped, refused, or decided. `row` was read at the start. */
  function RerouteTry(db: Db, d: DispatchId, row: Dispatch, c: UnitId, n: DispatchId, e: EventId): (r: Result<Db, Error>)
    requires ForeignKeys(db)
  {
    if c == row.unit then Err(ErrUnitNotAvailable) else RunReassign(db, d, row.incident, c, Rerouted, n, e)
  }

  function PreemptTry(db: Db, i: IncidentId, v: Preemptable, n: DispatchId, e: EventId): (r: Result<Db, Error>)
    requires ForeignKeys(db)
  {
    RunReassign(db, v.dispatch, i, v.unit, Preempted, n, e)
  }

  predicate LostRace(r: Result<Db, Error>) { r == Err(ErrUnitNotAvailable) }

  predicate VictimGone(r: Result<Db, Error>) { r == Err(ErrUnitNotAvailable) || r == Err(ErrIllegalDispatchTransition) }

  /** The active dispatches of strictly less severe incidents among `nearest`, in that order. */
  function Victims(db: Db, severity: Severity, nearest: seq<DispatchId>): seq<Preemptable>
    requires ForeignKeys(db)
  {
    if nearest == [] then []
    else
      var d := nearest[|nearest| - 1];
      Victims(db, severity, nearest[..|nearest| - 1]) +
      if d in db.core.dispatches && Preemptible(db, severity, d) then [VictimOf(db, d)] else []
  }

  function VictimOf(db: Db, d: DispatchId): Preemptable
    requires ForeignKeys(db) && d in db.core.dispatches
  {
    var row := db.core.dispatches[d];
    Preemptable(d, row.unit, row.incident, db.incidents[row.incident].severity)
  }

  function Nearest(victims: seq<Preemptable>, limit: nat): seq<Preemptable> {
    if |victims| <= limit then victims else victims[..limit]
  }

  lemma {:induction false} VictimsOfPrefix(db: Db, severity: Severity, nearest: seq<DispatchId>, k: nat)
    requires ForeignKeys(db) && k <= |nearest|
    ensures Victims(db, severity, nearest[..k]) <= Victims(db, severity, nearest)
    decreases |nearest|
  {
    if k < |nearest| {
      var n := |nearest| - 1;
      assert nearest[..n][..k] == nearest[..k];
      VictimsOfPrefix(db, severity, nearest[..n], k);
    } else {
      assert nearest[..k] == nearest;
    }
  }

  lemma {:induction false} VictimsAreVictims(db: Db, severity: Severity, nearest: seq<DispatchId>)
    requires ForeignKeys(db)
    ensures forall v | v in Victims(db, severity, nearest) ::
              v.dispatch in nearest && v.dispatch in db.core.dispatches && IsVictim(db, severity, v)
  {
    if nearest != [] {
      var n := |nearest| - 1;
      VictimsAreVictims(db, severity, nearest[..n]);
      assert nearest == nearest[..n] + [nearest[n]];
    }
  }

  lemma EmptyVictims(db: Db, severity: Severity, nearest: seq<DispatchId>)
    requires ForeignKeys(db)
    ensures Victims(db, severity, nearest[..0]) == []
  {
  }

  lemma VictimsNext(db: Db, severity: Severity, nearest: seq<DispatchId>, k: nat)
    requires ForeignKeys(db) && k < |nearest|
    ensures Victims(db, severity, nearest[..k + 1])
            == Victims(db, severity, nearest[..k])
               + if nearest[k] in db.core.dispatches && Preemptible(db, severity, nearest[k]) then [VictimOf(db, nearest[k])] else []
  {
    assert nearest[..k + 1][..k] == nearest[..k];
  }

  /** Scanning until `limit` victims are found, or to the end, finds the nearest of them. */
  lemma ScanFindsNearest(db: Db, severity: Severity, nearest: seq<DispatchId>, k: nat, limit: nat)
    requires ForeignKeys(db) && k <= |nearest| && |Victims(db, severity, nearest[..k])| <= limit
    requires k == |nearest| || |Victims(db, severity, nearest[..k])| == limit
    ensures Victims(db, severity, nearest[..k]) == Nearest(Victims(db, severity, nearest), limit)
    ensures forall v | v in Victims(db, severity, nearest[..k]) ::
              v.dispatch in nearest && v.dispatch in db.core.dispatches && IsVictim(db, severity, v)
  {
    hide Victims, IsVictim;
    VictimsOfPrefix(db, severity, nearest, k);
    VictimsAreVictims(db, severity, nearest[..k]);
    assert k == |nearest| ==> nearest[..k] == nearest;
  }

  lemma NoneMetYet(db: Db, rivals: seq<seq<Op>>, n: DispatchId, e: EventId)
    requires ForeignKeys(db)
    ensures Meets(db, rivals, n, e, [])
  {
  }

  lemma MeetsNext(db: Db, rivals: seq<seq<Op>>, n: DispatchId, e: EventId, met: seq<Db>, last: Db)
    requires Meets(db, rivals, n, e, met) && |met| < |rivals| && ForeignKeys(last)
    requires last == if met == [] then db else met[|met| - 1]
    ensures Meets(db, rivals, n, e, met + [Meanwhile(last, rivals[|met|], n, e)])
  {
    hide Meanwhile, ForeignKeys;
  }

  // --- What the walks promise, told from the rows they meet ---

  predicate LessSevere(a: Severity, b: Severity) {
    match b
    case Critical => a != Critical
    case High => a == Medium || a == Low
    case Medium => a == Low
    case Low => false
  }

  lemma RanksOrderSeverities(a: Severity, b: Severity)
    ensures SeverityRank(a) < SeverityRank(b) <==> LessSevere(a, b)
  {
  }

  /** A dispatch under way, for a strictly less severe incident. */
  predicate Wanted(db: Db, severity: Severity, d: DispatchId) {
    && d in db.core.dispatches && Underway(db.core.dispatches[d].status)
    && db.core.dispatches[d].incident in db.incidents
    && LessSevere(db.incidents[db.core.dispatches[d].incident].severity, severity)
  }

  lemma WantedIff(db: Db, severity: Severity, d: DispatchId)
    requires ForeignKeys(db)
    ensures Wanted(db, severity, d) <==> d in db.core.dispatches && Preemptible(db, severity, d)
  {
    if d in db.core.dispatches { RanksOrderSeverities(db.incidents[db.core.dispatches[d].incident].severity, severity); }
  }

  /** Where in `nearest` the wanted dispatches stand. */
  function Positions(db: Db, severity: Severity, nearest: seq<DispatchId>): (ps: seq<nat>)
    ensures forall a | 0 <= a < |ps| :: ps[a] < |nearest| && Wanted(db, severity, nearest[ps[a]])
    ensures forall a, b | 0 <= a < b < |ps| :: ps[a] < ps[b]
    ensures forall k | 0 <= k < |nearest| && Wanted(db, severity, nearest[k]) :: k in ps
  {
    if nearest == [] then []
    else
      var k := |nearest| - 1;
      Positions(db, severity, nearest[..k]) + if Wanted(db, severity, nearest[k]) then [k] else []
  }

  lemma {:induction false} VictimsStandAt(db: Db, severity: Severity, nearest: seq<DispatchId>)
    requires ForeignKeys(db)
    ensures var victims, ps := Victims(db, severity, nearest), Positions(db, severity, nearest);
            |victims| == |ps| && forall a | 0 <= a < |ps| :: victims[a] == VictimOf(db, nearest[ps[a]])
  {
    if nearest != [] {
      var k := |nearest| - 1;
      VictimsStandAt(db, severity, nearest[..k]);
      WantedIff(db, severity, nearest[k]);
    }
  }

  ghost predicate AllWanted(db: Db, severity: Severity, victims: seq<Preemptable>) {
    forall v | v in victims ::
      && Wanted(db, severity, v.dispatch)
      && var row := db.core.dispatches[v.dispatch];
         v == Preemptable(v.dispatch, row.unit, row.incident, db.incidents[row.incident].severity)
  }

  predicate Lists(victims: seq<Preemptable>, d: DispatchId) { exists v | v in victims :: v.dispatch == d }

  /** A wanted dispatch is left out only when `limit` nearer ones are listed. */
  ghost predicate NoneLeftOut(db: Db, severity: Severity, nearest: seq<DispatchId>, limit: nat, victims: seq<Preemptable>) {
    forall k | 0 <= k < |nearest| && Wanted(db, severity, nearest[k]) ::
      Lists(victims, nearest[k]) || (|victims| == limit && forall v | v in victims :: v.dispatch in nearest[..k])
  }

  /** In the order of `nearest`, only wanted dispatches, and none left out before `limit` is reached. */
  ghost predicate NearestWanted(db: Db, severity: Severity, nearest: seq<DispatchId>, limit: nat, victims: seq<Preemptable>) {
    && |victims| <= limit && AllWanted(db, severity, victims) && NoneLeftOut(db, severity, nearest, limit, victims)
    && exists ps: seq<nat> :: StandAt(nearest, victims, ps)
  }

  predicate StandAt(nearest: seq<DispatchId>, victims: seq<Preemptable>, ps: seq<nat>) {
    && |ps| == |victims|
    && (forall a | 0 <= a < |ps| :: ps[a] < |nearest| && victims[a].dispatch == nearest[ps[a]])
    && (forall a, b | 0 <= a < b < |ps| :: ps[a] < ps[b])
  }

  lemma NearestVictimsAreWanted(db: Db, severity: Severity, nearest: seq<DispatchId>, limit: nat)
    requires ForeignKeys(db)
    ensures NearestWanted(db, severity, nearest, limit, Nearest(Victims(db, severity, nearest), limit))
  {
    hide Wanted, Victims, Positions, AllWanted, NoneLeftOut;
    var victims, ps := Nearest(Victims(db, severity, nearest), limit), Positions(db, severity, nearest);
    VictimsStandAt(db, severity, nearest);
    assert StandAt(nearest, victims, ps[..|victims|]);
    ListedAreWanted(db, severity, nearest, limit);
    NoVictimLeftOut(db, severity, nearest, limit);
  }

  lemma ListedWhenWanted(db: Db, severity: Severity, nearest: seq<DispatchId>, victims: seq<Preemptable>)
    requires NearestWanted(db, severity, nearest, 5, victims)
    ensures victims == [] <==> forall d | d in nearest :: !Wanted(db, severity, d)
    ensures Genuine(db, victims)
  {
    if victims == [] {
      forall k | 0 <= k < |nearest| ensures !Wanted(db, severity, nearest[k]) {
        assert !Lists(victims, nearest[k]);
      }
    } else {
      var ps :| StandAt(nearest, victims, ps);
      assert victims[0] in victims && nearest[ps[0]] == victims[0].dispatch;
    }
  }

  lemma ListedAreWanted(db: Db, severity: Severity, nearest: seq<DispatchId>, limit: nat)
    requires ForeignKeys(db)
    ensures AllWanted(db, severity, Nearest(Victims(db, severity, nearest), limit))
  {
    hide Victims, Positions, Wanted;
    var victims, ps := Nearest(Victims(db, severity, nearest), limit), Positions(db, severity, nearest);
    VictimsStandAt(db, severity, nearest);
    forall v | v in victims
      ensures Wanted(db, severity, v.dispatch) && v.dispatch in db.core.dispatches && v == VictimOf(db, v.dispatch)
    {
      var a :| 0 <= a < |victims| && victims[a] == v;
      WantedIff(db, severity, nearest[ps[a]]);
    }
  }

  lemma NoVictimLeftOut(db: Db, severity: Severity, nearest: seq<DispatchId>, limit: nat)
    requires ForeignKeys(db)
    ensures NoneLeftOut(db, severity, nearest, limit, Nearest(Victims(db, severity, nearest), limit))
  {
    hide Wanted, Victims, Positions, Lists, Nearest;
    forall k | 0 <= k < |nearest| && Wanted(db, severity, nearest[k])
      ensures var victims := Nearest(Victims(db, severity, nearest), limit);
              Lists(victims, nearest[k]) || (|victims| == limit && forall v | v in victims :: v.dispatch in nearest[..k])
    {
      EveryWantedIsListed(db, severity, nearest, limit, k);
    }
  }

  lemma EveryWantedIsListed(db: Db, severity: Severity, nearest: seq<DispatchId>, limit: nat, k: nat)
    requires ForeignKeys(db) && k < |nearest| && Wanted(db, severity, nearest[k])
    ensures var victims := Nearest(Victims(db, severity, nearest), limit);
            Lists(victims, nearest[k]) || (|victims| == limit && forall v | v in victims :: v.dispatch in nearest[..k])
  {
    hide Wanted, Victims, Positions;
    var victims, ps := Nearest(Victims(db, severity, nearest), limit), Positions(db, severity, nearest);
    VictimsStandAt(db, severity, nearest);
    var a :| 0 <= a < |ps| && ps[a] == k;
    if a < |victims| {
      WantedIff(db, severity, nearest[k]);
      assert victims[a] in victims && victims[a].dispatch == nearest[k];
    } else {
      forall v | v in victims ensures v.dispatch in nearest[..k] {
        var b :| 0 <= b < |victims| && victims[b] == v;
        WantedIff(db, severity, nearest[ps[b]]);
        assert ps[b] < k && nearest[..k][ps[b]] == v.dispatch;
      }
    }
  }

  // --- Walks over candidates that others are after too ---

  /** The database attempt j meets if no attempt before it has changed anything. */
  function Turn(db: Db, rivals: seq<seq<Op>>, n: DispatchId, e: EventId, j: nat): (r: Db)
    requires ForeignKeys(db) && j < |rivals|
    ensures ForeignKeys(r)
  {
    if j == 0 then Meanwhile(db, rivals[0], n, e) else Meanwhile(Turn(db, rivals, n, e, j - 1), rivals[j], n, e)
  }

  lemma {:induction false} MeetsTurn(db: Db, rivals: seq<seq<Op>>, n: DispatchId, e: EventId, met: seq<Db>, j: nat)
    requires Meets(db, rivals, n, e, met) && j < |met|
    ensures met[j] == Turn(db, rivals, n, e, j)
  {
    hide Meanwhile, ForeignKeys;
    if j > 0 { MeetsTurn(db, rivals, n, e, met, j - 1); }
  }

  lemma {:induction false} TurnIsFresh(db: Db, rivals: seq<seq<Op>>, n: DispatchId, e: EventId, j: nat)
    requires ForeignKeys(db) && j < |rivals| && n !in db.core.dispatches && e !in db.core.events
    ensures n !in Turn(db, rivals, n, e, j).core.dispatches && e !in Turn(db, rivals, n, e, j).core.events
  {
    hide Meanwhile, ForeignKeys;
    if j == 0 {
      MeanwhileTakesNoOtherIds(db, rivals[0], n, e);
    } else {
      TurnIsFresh(db, rivals, n, e, j - 1);
      MeanwhileTakesNoOtherIds(Turn(db, rivals, n, e, j - 1), rivals[j], n, e);
    }
  }

  lemma {:induction false} TurnsPersist(db: Db, rivals: seq<seq<Op>>, n: DispatchId, e: EventId, j: nat, k: nat)
    requires ForeignKeys(db) && j <= k < |rivals|
    ensures Persists(db, Turn(db, rivals, n, e, k)) && Persists(Turn(db, rivals, n, e, j), Turn(db, rivals, n, e, k))
    decreases k
  {
    hide Meanwhile, ForeignKeys;
    if k == 0 {
      MeanwhilePersists(db, rivals[0], n, e);
    } else {
      TurnsPersist(db, rivals, n, e, if j < k then j else k - 1, k - 1);
      MeanwhilePersists(Turn(db, rivals, n, e, k - 1), rivals[k], n, e);
    }
  }

  /** Unit u is no use for dispatch d just now: it is there, but not available, or another dispatch has it. */
  ghost predicate TakenFor(db: Db, d: DispatchId, u: UnitId) {
    u in db.core.units && (db.core.units[u].status != UnitAvailable || HeldBesides(db.core.dispatches, u, {d}))
  }

  predicate StillOn(db: Db, d: DispatchId, i: IncidentId) {
    d in db.core.dispatches && Underway(db.core.dispatches[d].status) && Open(db.incidents, i)
  }

  /** Dispatch d can move to unit u now. */
  ghost predicate FreeFor(db: Db, d: DispatchId, i: IncidentId, u: UnitId) {
    StillOn(db, d, i) && db.core.dispatches[d].unit != u && Available(db.core.units, u) && !HeldBesides(db.core.dispatches, u, {d})
  }

  lemma TakenIsLost(db: Db, d: DispatchId, row: Dispatch, u: UnitId, n: DispatchId, e: EventId)
    requires ForeignKeys(db) && n !in db.core.dispatches && StillOn(db, d, row.incident) && db.core.dispatches[d].unit == row.unit
    ensures u == row.unit || TakenFor(db, d, u) ==> LostRace(RerouteTry(db, d, row, u, n, e))
    ensures FreeFor(db, d, row.incident, u) ==> RerouteTry(db, d, row, u, n, e).Ok?
  {
    ReassignIsAnswered(db, d, row.incident, u, Rerouted, n, e);
    hide RunReassign, HeldBesides;
  }

  /** The first candidate that is free when its turn comes, only taken ones before it. */
  ghost predicate FirstFree(db: Db, rivals: seq<seq<Op>>, n: DispatchId, e: EventId, d: DispatchId, row: Dispatch, candidates: seq<UnitId>, k: nat)
    requires ForeignKeys(db) && k < |candidates| <= |rivals|
  {
    && FreeFor(Turn(db, rivals, n, e, k), d, row.incident, candidates[k])
    && forall j | 0 <= j < k :: candidates[j] == row.unit || TakenFor(Turn(db, rivals, n, e, j), d, candidates[j])
  }

  /** How the walk has gone: every attempt but the last was lost, and the last decided. */
  ghost predicate Walked(db: Db, rivals: seq<seq<Op>>, n: DispatchId, e: EventId, d: DispatchId, row: Dispatch, candidates: seq<UnitId>,
                         met: seq<Db>, r: Result<Dispatch, Error>)
  {
    var k := |met| - 1;
    && Meets(db, rivals, n, e, met) && |met| <= |candidates| <= |rivals|
    && (forall j | 0 <= j < k :: LostRace(RerouteTry(met[j], d, row, candidates[j], n, e)))
    && (candidates != [] ==>
          k >= 0 && match RerouteTry(met[k], d, row, candidates[k], n, e)
               case Ok(_) => r == Ok(Dispatch(row.incident, candidates[k], DispatchReserved))
               case Err(err) => if err == ErrUnitNotAvailable then k + 1 == |candidates| && r == Err(ErrNoReassignCandidate) else r == Err(err))
  }

  /** The dispatch is still under way and its incident open at turn j as well, when they are at the later turn k. */
  lemma StillOnBefore(db: Db, rivals: seq<seq<Op>>, n: DispatchId, e: EventId, d: DispatchId, i: IncidentId, j: nat, k: nat)
    requires ForeignKeys(db) && j <= k < |rivals| && d in db.core.dispatches && i in db.incidents
    requires StillOn(Turn(db, rivals, n, e, k), d, i)
    ensures StillOn(Turn(db, rivals, n, e, j), d, i)
    ensures Turn(db, rivals, n, e, j).core.dispatches[d].unit == db.core.dispatches[d].unit
  {
    hide Turn, ForeignKeys;
    TurnsPersist(db, rivals, n, e, j, k);
    TurnsPersist(db, rivals, n, e, j, j);
  }

  /** The walk succeeds with the first free candidate. */
  lemma FirstFreeIsTaken(db: Db, rivals: seq<seq<Op>>, n: DispatchId, e: EventId, d: DispatchId, candidates: seq<UnitId>,
                         met: seq<Db>, r: Result<Dispatch, Error>, k: nat)
    requires ForeignKeys(db) && n !in db.core.dispatches && e !in db.core.events && d in db.core.dispatches
    requires Walked(db, rivals, n, e, d, db.core.dispatches[d], candidates, met, r)
    requires k < |candidates| && FirstFree(db, rivals, n, e, d, db.core.dispatches[d], candidates, k)
    ensures r == Ok(Dispatch(db.core.dispatches[d].incident, candidates[k], DispatchReserved))
  {
    var row := db.core.dispatches[d];
    var last := |met| - 1;
    var j := if last < k then last else k;
    StillOnBefore(db, rivals, n, e, d, row.incident, j, k);
    MeetsTurn(db, rivals, n, e, met, j);
    TurnIsFresh(db, rivals, n, e, j);
    TakenIsLost(met[j], d, row, candidates[j], n, e);
    hide Meets, TakenFor, FreeFor, StillOn, RerouteTry, Turn;
  }

  /**
   Attempt j cannot end the walk: the candidate is the unit itself, or it is there but not available, or another
   dispatch has it while the incident is open; the dispatch being still under way.
   */
  ghost predicate GoesOn(db: Db, d: DispatchId, row: Dispatch, u: UnitId) {
    || u == row.unit
    || (d in db.core.dispatches && Underway(db.core.dispatches[d].status) && u in db.core.units
        && (db.core.units[u].status != UnitAvailable || (Open(db.incidents, row.incident) && HeldBesides(db.core.dispatches, u, {d}))))
  }

  lemma GoesOnIsLost(db: Db, d: DispatchId, row: Dispatch, u: UnitId, n: DispatchId, e: EventId)
    requires ForeignKeys(db) && n !in db.core.dispatches && d in db.core.dispatches && db.core.dispatches[d].unit == row.unit
    requires GoesOn(db, d, row, u)
    ensures LostRace(RerouteTry(db, d, row, u, n, e))
  {
    ReassignIsAnswered(db, d, row.incident, u, Rerouted, n, e);
    hide RunReassign, HeldBesides;
  }

  lemma GoesOnUnlessLast(db: Db, rivals: seq<seq<Op>>, n: DispatchId, e: EventId, d: DispatchId, candidates: seq<UnitId>,
                         met: seq<Db>, r: Result<Dispatch, Error>, j: nat)
    requires ForeignKeys(db) && n !in db.core.dispatches && e !in db.core.events && d in db.core.dispatches
    requires Walked(db, rivals, n, e, d, db.core.dispatches[d], candidates, met, r)
    requires j < |met| && GoesOn(met[j], d, db.core.dispatches[d], candidates[j])
    ensures j + 1 < |met| || (j + 1 == |candidates| && r == Err(ErrNoReassignCandidate))
  {
    MeetsTurn(db, rivals, n, e, met, j);
    TurnsPersist(db, rivals, n, e, j, j);
    TurnIsFresh(db, rivals, n, e, j);
    GoesOnIsLost(met[j], d, db.core.dispatches[d], candidates[j], n, e);
    hide Meets, GoesOn, RerouteTry, Turn;
  }

  /** The promise of a reroute: a taken candidate never ends it, and the first free one is what it settles on. */
  ghost predicate RerouteKeepsOn(db: Db, rivals: seq<seq<Op>>, n: DispatchId, e: EventId, d: DispatchId, candidates: seq<UnitId>,
                                 met: seq<Db>, r: Result<Dispatch, Error>)
    requires ForeignKeys(db) && d in db.core.dispatches && |met| <= |candidates| <= |rivals|
  {
    var row := db.core.dispatches[d];
    && (forall j | 0 <= j < |met| && GoesOn(met[j], d, row, candidates[j]) ::
          j + 1 < |met| || (j + 1 == |candidates| && r == Err(ErrNoReassignCandidate)))
    && (forall k | 0 <= k < |candidates| && FirstFree(db, rivals, n, e, d, row, candidates, k) ::
          r == Ok(Dispatch(row.incident, candidates[k], DispatchReserved)))
  }

  lemma WalkKeepsOn(db: Db, rivals: seq<seq<Op>>, n: DispatchId, e: EventId, d: DispatchId, candidates: seq<UnitId>,
                    met: seq<Db>, r: Result<Dispatch, Error>)
    requires ForeignKeys(db) && n !in db.core.dispatches && e !in db.core.events && d in db.core.dispatches
    requires Walked(db, rivals, n, e, d, db.core.dispatches[d], candidates, met, r)
    ensures RerouteKeepsOn(db, rivals, n, e, d, candidates, met, r)
  {
    hide GoesOn, FirstFree, ForeignKeys;
    forall j | 0 <= j < |met| && GoesOn(met[j], d, db.core.dispatches[d], candidates[j])
      ensures j + 1 < |met| || (j + 1 == |candidates| && r == Err(ErrNoReassignCandidate))
    {
      GoesOnUnlessLast(db, rivals, n, e, d, candidates, met, r, j);
    }
    forall k | 0 <= k < |candidates| && FirstFree(db, rivals, n, e, d, db.core.dispatches[d], candidates, k)
      ensures r == Ok(Dispatch(db.core.dispatches[d].incident, candidates[k], DispatchReserved))
    {
      FirstFreeIsTaken(db, rivals, n, e, d, candidates, met, r, k);
    }
  }

  // --- Walks over victims ---

  /** Victim d is still to be had for incident i: its dispatch goes on and no other has its unit. */
  ghost predicate ToBeHad(db: Db, d: DispatchId, i: IncidentId) {
    StillOn(db, d, i) && !HeldBesides(db.core.dispatches, db.core.dispatches[d].unit, {d})
  }

  /** Victim d is gone: its dispatch has ended, or another holds its unit. */
  ghost predicate Gone(db: Db, d: DispatchId) {
    d in db.core.dispatches
    && (!Underway(db.core.dispatches[d].status) || HeldBesides(db.core.dispatches, db.core.dispatches[d].unit, {d}))
  }

  lemma GoneOrHad(db: Db, i: IncidentId, v: Preemptable, n: DispatchId, e: EventId)
    requires ForeignKeys(db) && n !in db.core.dispatches && v.dispatch in db.core.dispatches && v.unit == db.core.dispatches[v.dispatch].unit
    ensures Gone(db, v.dispatch) && Open(db.incidents, i) ==> VictimGone(PreemptTry(db, i, v, n, e))
    ensures ToBeHad(db, v.dispatch, i) ==> PreemptTry(db, i, v, n, e).Ok?
  {
    ReassignIsAnswered(db, v.dispatch, i, v.unit, Preempted, n, e);
    hide RunReassign, HeldBesides;
  }

  ghost predicate FirstToBeHad(db: Db, rivals: seq<seq<Op>>, n: DispatchId, e: EventId, i: IncidentId, victims: seq<Preemptable>, k: nat)
    requires ForeignKeys(db) && k < |victims| <= |rivals|
  {
    && ToBeHad(Turn(db, rivals, n, e, k), victims[k].dispatch, i)
    && forall j | 0 <= j < k :: Gone(Turn(db, rivals, n, e, j), victims[j].dispatch)
  }

  ghost predicate WalkedVictims(db: Db, rivals: seq<seq<Op>>, n: DispatchId, e: EventId, i: IncidentId, victims: seq<Preemptable>,
                                met: seq<Db>, r: Result<Dispatch, Error>)
  {
    var k := |met| - 1;
    && Meets(db, rivals, n, e, met) && |met| <= |victims| <= |rivals|
    && (forall j | 0 <= j < k :: VictimGone(PreemptTry(met[j], i, victims[j], n, e)))
    && (victims != [] ==>
          k >= 0 && match PreemptTry(met[k], i, victims[k], n, e)
               case Ok(_) => r == Ok(Dispatch(i, victims[k].unit, DispatchReserved))
               case Err(err) => if VictimGone(Err(err)) then k + 1 == |victims| && r == Err(ErrNoReassignCandidate) else r == Err(err))
  }

  /** The promise of a preemption: the first victim that is still to be had when its turn comes is taken. */
  ghost predicate PreemptKeepsOn(db: Db, rivals: seq<seq<Op>>, n: DispatchId, e: EventId, i: IncidentId, victims: seq<Preemptable>,
                                 r: Result<Dispatch, Error>)
    requires ForeignKeys(db) && |victims| <= |rivals|
  {
    forall k | 0 <= k < |victims| && FirstToBeHad(db, rivals, n, e, i, victims, k) ::
      r == Ok(Dispatch(i, victims[k].unit, DispatchReserved))
  }

  ghost predicate Genuine(db: Db, victims: seq<Preemptable>) {
    forall v | v in victims :: v.dispatch in db.core.dispatches && v.unit == db.core.dispatches[v.dispatch].unit
  }

  lemma OpenBefore(db: Db, rivals: seq<seq<Op>>, n: DispatchId, e: EventId, i: IncidentId, j: nat, k: nat)
    requires ForeignKeys(db) && j <= k < |rivals| && i in db.incidents && Open(Turn(db, rivals, n, e, k).incidents, i)
    ensures Open(Turn(db, rivals, n, e, j).incidents, i)
  {
    hide Turn, ForeignKeys;
    TurnsPersist(db, rivals, n, e, j, k);
    TurnsPersist(db, rivals, n, e, j, j);
  }

  lemma FirstToBeHadIsTaken(db: Db, rivals: seq<seq<Op>>, n: DispatchId, e: EventId, i: IncidentId, victims: seq<Preemptable>,
                            met: seq<Db>, r: Result<Dispatch, Error>, k: nat)
    requires ForeignKeys(db) && n !in db.core.dispatches && e !in db.core.events && i in db.incidents && Genuine(db, victims)
    requires WalkedVictims(db, rivals, n, e, i, victims, met, r)
    requires k < |victims| && FirstToBeHad(db, rivals, n, e, i, victims, k)
    ensures r == Ok(Dispatch(i, victims[k].unit, DispatchReserved))
  {
    hide Meets, Gone, PreemptTry, Turn, ForeignKeys, Genuine;
    var last := |met| - 1;
    var j := if last < k then last else k;
    OpenBefore(db, rivals, n, e, i, j, k);
    MeetsTurn(db, rivals, n, e, met, j);
    TurnIsFresh(db, rivals, n, e, j);
    StillGenuine(db, rivals, n, e, victims, j);
    GoneOrHad(met[j], i, victims[j], n, e);
  }

  lemma StillGenuine(db: Db, rivals: seq<seq<Op>>, n: DispatchId, e: EventId, victims: seq<Preemptable>, j: nat)
    requires ForeignKeys(db) && j < |victims| <= |rivals| && Genuine(db, victims)
    ensures var now, v := Turn(db, rivals, n, e, j), victims[j];
            v.dispatch in now.core.dispatches && v.unit == now.core.dispatches[v.dispatch].unit
  {
    hide Turn, ForeignKeys;
    assert victims[j] in victims;
    TurnsPersist(db, rivals, n, e, j, j);
  }

  lemma VictimWalkKeepsOn(db: Db, rivals: seq<seq<Op>>, n: DispatchId, e: EventId, i: IncidentId, victims: seq<Preemptable>,
                          met: seq<Db>, r: Result<Dispatch, Error>)
    requires ForeignKeys(db) && n !in db.core.dispatches && e !in db.core.events && i in db.incidents && Genuine(db, victims)
    requires WalkedVictims(db, rivals, n, e, i, victims, met, r)
    ensures PreemptKeepsOn(db, rivals, n, e, i, victims, r)
  {
    hide FirstToBeHad, ForeignKeys;
    forall k | 0 <= k < |victims| && FirstToBeHad(db, rivals, n, e, i, victims, k)
      ensures r == Ok(Dispatch(i, victims[k].unit, DispatchReserved))
    {
      FirstToBeHadIsTaken(db, rivals, n, e, i, victims, met, r, k);
    }
  }
}
