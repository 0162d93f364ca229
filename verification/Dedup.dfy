/**
 Filing reports: merged into the nearest active incident within 100 m and 15 minutes, else a new incident.
 Distance is any symmetric function of two places.
 */
module Dedup {
  import opened Results
  import opened MapSums
  import opened Rows
  import AtomicOps
  import DispatchInvariants

  type Metric = (Place, Place) -> real
  type Incidents = map<IncidentId, Incident>

  const RADIUS := 100.0
  const WINDOW := 15 * 60

  ghost predicate Symmetric(dist: Metric) { forall p, q :: dist(p, q) == dist(q, p) }

  predicate Active(i: Incident) { !IsTerminal(i.status) }

  /** The rows TryDedupe's inner query ranges over. */
  predicate Duplicates(dist: Metric, i: Incident, place: Place, now: int) {
    Active(i) && i.createdAt > now - WINDOW && dist(i.place, place) <= RADIUS
  }

  function Matches(dist: Metric, incidents: Incidents, place: Place, now: int): set<IncidentId> {
    set i | i in incidents && Duplicates(dist, incidents[i], place, now)
  }

  /** ORDER BY distance LIMIT 1: the nearest match, if there is any. */
  predicate IsNearest(dist: Metric, incidents: Incidents, place: Place, now: int, found: Option<IncidentId>) {
    match found
    case None => Matches(dist, incidents, place, now) == {}
    case Some(i) =>
      && i in Matches(dist, incidents, place, now)
      && forall j | j in Matches(dist, incidents, place, now) :: dist(incidents[i].place, place) <= dist(incidents[j].place, place)
  }

  function Counted(i: Incident): Incident { i.(reports := i.reports + 1) }

  function NewIncident(severity: Severity, place: Place, now: int): Incident { Incident(severity, Reported, place, now, 1) }

  lemma {:induction false} SomeNearest(dist: Metric, incidents: Incidents, place: Place, among: set<IncidentId>) returns (i: IncidentId)
    requires among != {} && forall j | j in among :: j in incidents
    ensures i in among && forall j | j in among :: dist(incidents[i].place, place) <= dist(incidents[j].place, place)
    decreases |among|
  {
    i :| i in among;
    var rest := among - {i};
    assert forall j | j in among :: j == i || j in rest;
    if rest != {} {
      var k := SomeNearest(dist, incidents, place, rest);
      if dist(incidents[k].place, place) < dist(incidents[i].place, place) { i := k; }
    }
  }

  lemma NoMatchIff(dist: Metric, incidents: Incidents, place: Place, now: int)
    ensures Matches(dist, incidents, place, now) == {} <==>
              forall i | i in incidents :: incidents[i].status in {Resolved, Cancelled} || incidents[i].createdAt <= now - 900
                                           || dist(incidents[i].place, place) > 100.0
  {
    forall i | i in incidents ensures i in Matches(dist, incidents, place, now) <==> Duplicates(dist, incidents[i], place, now) {}
  }

  /** Told from the rows alone: the nearest of the open incidents at most 100 m away and less than 15 minutes old, if any is. */
  ghost predicate NearestDuplicate(dist: Metric, incidents: Incidents, place: Place, now: int, found: Option<IncidentId>) {
    if found.None? then
      forall i | i in incidents :: incidents[i].status in {Resolved, Cancelled} || incidents[i].createdAt <= now - 900
                                   || dist(incidents[i].place, place) > 100.0
    else
      var i := found.value;
      && i in incidents && incidents[i].status in {Reported, Verified, Dispatched} && incidents[i].createdAt > now - 900
      && dist(incidents[i].place, place) <= 100.0
      && forall j | j in incidents && incidents[j].status in {Reported, Verified, Dispatched} && incidents[j].createdAt > now - 900 ::
           dist(incidents[i].place, place) <= dist(incidents[j].place, place)
  }

  lemma NearestIsTold(dist: Metric, incidents: Incidents, place: Place, now: int, found: Option<IncidentId>)
    ensures IsNearest(dist, incidents, place, now, found) <==> NearestDuplicate(dist, incidents, place, now, found)
  {
    NoMatchIff(dist, incidents, place, now);
    if found.Some? {
      forall j ensures j in Matches(dist, incidents, place, now) <==> j in incidents && Duplicates(dist, incidents[j], place, now) {}
    }
  }

  // --- Separation, with each filing one atomic step ---

  predicate Apart(dist: Metric, a: Incident, b: Incident) {
    Active(a) && Active(b) && -WINDOW < a.createdAt - b.createdAt < WINDOW ==> dist(a.place, b.place) > RADIUS
  }

  /** No two active incidents created within a window of each other are within the radius of each other. */
  ghost predicate Separated(dist: Metric, incidents: Incidents) {
    forall i, j | i in incidents && j in incidents && i != j :: Apart(dist, incidents[i], incidents[j])
  }

  datatype World = World(db: AtomicOps.Db, now: int)

  datatype Action =
    | Tick(seconds: nat)
    | File(severity: Severity, place: Place, found: Option<IncidentId>, id: IncidentId)
    | Dispatching(op: AtomicOps.Op)

  /** Dispatch transactions and operators' status changes take part as whole transactions. */
  ghost predicate Possible(dist: Metric, w: World, a: Action)
    requires AtomicOps.ForeignKeys(w.db)
  {
    match a
    case Tick(_) => true
    case File(_, place, found, id) => IsNearest(dist, w.db.incidents, place, w.now, found) && id !in w.db.incidents
    case Dispatching(op) => AtomicOps.FreshIds(w.db.core, op) && AtomicOps.Run(w.db, op).Ok?
  }

  function Filed(w: World, a: Action): Incidents
    requires a.File? && (a.found.Some? ==> a.found.value in w.db.incidents)
  {
    var incidents := w.db.incidents;
    match a.found
    case Some(i) => incidents[i := Counted(incidents[i])]
    case None => incidents[a.id := NewIncident(a.severity, a.place, w.now)]
  }

  ghost predicate Becomes(dist: Metric, w: World, a: Action, w': World) {
    && AtomicOps.ForeignKeys(w.db) && Possible(dist, w, a)
    && match a
       case Tick(seconds) => w' == w.(now := w.now + seconds)
       case File(_, _, _, _) => w' == w.(db := w.db.(incidents := Filed(w, a)))
       case Dispatching(op) => w' == w.(db := AtomicOps.Run(w.db, op).value)
  }

  ghost predicate WorldInv(dist: Metric, w: World) {
    && AtomicOps.ForeignKeys(w.db)
    && (forall i | i in w.db.incidents :: w.db.incidents[i].createdAt <= w.now)
    && Separated(dist, w.db.incidents)
  }

  /** Rows that keep their place and birth, and never come back to life, stay apart. */
  ghost predicate Settles(before: Incidents, after: Incidents) {
    && after.Keys == before.Keys
    && forall i | i in before ::
         && after[i].place == before[i].place && after[i].createdAt == before[i].createdAt
         && (Active(after[i]) ==> Active(before[i]))
  }

  lemma SettlingKeepsApart(dist: Metric, before: Incidents, after: Incidents)
    requires Separated(dist, before) && Settles(before, after)
    ensures Separated(dist, after)
  {
    forall i, j | i in after && j in after && i != j ensures Apart(dist, after[i], after[j]) {
      assert Apart(dist, before[i], before[j]);
    }
  }

  lemma RunAddsNoIncident(db: AtomicOps.Db, op: AtomicOps.Op)
    requires AtomicOps.ForeignKeys(db) && AtomicOps.Run(db, op).Ok?
    ensures AtomicOps.Run(db, op).value.incidents.Keys == db.incidents.Keys
  {
  }

  /** Terminal statuses absorb across every dispatch cascade, so no transaction revives an incident. */
  lemma RunSettles(db: AtomicOps.Db, op: AtomicOps.Op)
    requires AtomicOps.ForeignKeys(db) && AtomicOps.Run(db, op).Ok?
    ensures Settles(db.incidents, AtomicOps.Run(db, op).value.incidents)
  {
    hide AtomicOps.Run, AtomicOps.ForeignKeys;
    RunAddsNoIncident(db, op);
    forall i | i in db.incidents
      ensures var a, b := db.incidents[i], AtomicOps.Run(db, op).value.incidents[i];
              b.place == a.place && b.createdAt == a.createdAt && (Active(b) ==> Active(a))
    {
      DispatchInvariants.TerminalAbsorbs(db, op, i);
    }
  }

  /** A new row keeps the rows apart exactly if no active, recent row is within the radius. */
  lemma InsertKeepsApartIff(dist: Metric, incidents: Incidents, severity: Severity, place: Place, now: int, id: IncidentId)
    requires Symmetric(dist) && Separated(dist, incidents) && id !in incidents
    requires forall i | i in incidents :: incidents[i].createdAt <= now
    ensures Separated(dist, incidents[id := NewIncident(severity, place, now)]) <==> Matches(dist, incidents, place, now) == {}
    ensures Matches(dist, incidents, place, now) == {} <==>
              forall i | i in incidents :: incidents[i].status in {Resolved, Cancelled} || incidents[i].createdAt <= now - 900
                                           || dist(incidents[i].place, place) > 100.0
  {
    NoMatchIff(dist, incidents, place, now);
    var row := NewIncident(severity, place, now);
    var after := incidents[id := row];
    if Separated(dist, after) {
      forall i | i in incidents ensures i !in Matches(dist, incidents, place, now) {
        assert Apart(dist, after[i], after[id]);
      }
    }
    if Matches(dist, incidents, place, now) == {} {
      forall i | i in incidents ensures Apart(dist, incidents[i], row) && Apart(dist, row, incidents[i]) {
        assert i !in Matches(dist, incidents, place, now);
      }
      assert forall i, j | i in incidents && j in incidents && i != j :: Apart(dist, incidents[i], incidents[j]);
    }
  }

  lemma ActionKeepsApart(dist: Metric, w: World, a: Action, w': World)
    requires Symmetric(dist) && WorldInv(dist, w) && Becomes(dist, w, a, w')
    ensures WorldInv(dist, w')
  {
    match a
    case Tick(_) =>
    case Dispatching(op) =>
      RunSettles(w.db, op);
      SettlingKeepsApart(dist, w.db.incidents, w'.db.incidents);
      DispatchInvariants.ForeignKeysKept(w.db, op);
    case File(severity, place, found, id) =>
      if found.Some? {
        SettlingKeepsApart(dist, w.db.incidents, w'.db.incidents);
      } else {
        InsertKeepsApartIff(dist, w.db.incidents, severity, place, w.now, id);
      }
  }

  ghost predicate History(dist: Metric, worlds: seq<World>, actions: seq<Action>) {
    && |worlds| == |actions| + 1 && WorldInv(dist, worlds[0])
    && forall k | 0 <= k < |actions| :: Becomes(dist, worlds[k], actions[k], worlds[k + 1])
  }

  /** In every reachable state, any two active incidents filed less than 15 minutes apart are more than 100 m apart. */
  lemma {:induction false} IncidentsStayApart(dist: Metric, worlds: seq<World>, actions: seq<Action>, n: nat)
    requires Symmetric(dist) && History(dist, worlds, actions) && n <= |actions|
    ensures WorldInv(dist, worlds[n])
    ensures var incidents := worlds[n].db.incidents;
            forall i, j | i in incidents && j in incidents && i != j
                          && incidents[i].status !in {Resolved, Cancelled} && incidents[j].status !in {Resolved, Cancelled}
                          && -900 < incidents[i].createdAt - incidents[j].createdAt < 900 :: dist(incidents[i].place, incidents[j].place) > 100.0
  {
    hide Becomes;
    if n > 0 {
      IncidentsStayApart(dist, worlds, actions, n - 1);
      ActionKeepsApart(dist, worlds[n - 1], actions[n - 1], worlds[n]);
    }
  }

  // --- The report counts, with the statements of a filing apart ---

  type FilerId = nat

  /**
   Where a filing stands: TryDedupe's inner query chose a row whose increment is still to come, perhaps waiting for
   its lock, or it found none and the INSERT is still to come.
   */
  datatype Stage = Chose(i: IncidentId) | Missed(place: Place)

  datatype Filing = Filing(incidents: Incidents, filers: map<FilerId, Stage>, accepted: nat, now: int)

  datatype Step =
    | Query(f: FilerId, place: Place, found: Option<IncidentId>)
    | Increment(f: FilerId)
    | InsertNew(f: FilerId, severity: Severity, id: IncidentId)
    | GiveUp(f: FilerId)
    | SetStatus(i: IncidentId, status: IncidentStatus)
    | Later(seconds: nat)

  /**
   The increment re-checks only the row's id, so it goes through whatever the row's status has become.
   SetStatus stands for any single status write by an operator or a dispatch cascade in between.
   */
  ghost predicate Enabled(dist: Metric, s: Filing, step: Step) {
    match step
    case Query(f, place, found) => f !in s.filers && IsNearest(dist, s.incidents, place, s.now, found)
    case Increment(f) => f in s.filers && s.filers[f].Chose? && s.filers[f].i in s.incidents
    case InsertNew(f, _, id) => f in s.filers && s.filers[f].Missed? && id !in s.incidents
    case GiveUp(f) => f in s.filers
    case SetStatus(i, _) => i in s.incidents
    case Later(_) => true
  }

  function Apply(s: Filing, step: Step): Filing {
    match step
    case Query(f, place, found) => s.(filers := s.filers[f := if found.Some? then Chose(found.value) else Missed(place)])
    case Increment(f) =>
      if f in s.filers && s.filers[f].Chose? && s.filers[f].i in s.incidents then
        var i := s.filers[f].i;
        s.(incidents := s.incidents[i := Counted(s.incidents[i])], filers := s.filers - {f}, accepted := s.accepted + 1)
      else s
    case InsertNew(f, severity, id) =>
      if f in s.filers && s.filers[f].Missed? then
        s.(incidents := s.incidents[id := NewIncident(severity, s.filers[f].place, s.now)], filers := s.filers - {f},
           accepted := s.accepted + 1)
      else s
    case GiveUp(f) => s.(filers := s.filers - {f})
    case SetStatus(i, status) => if i in s.incidents then s.(incidents := s.incidents[i := s.incidents[i].(status := status)]) else s
    case Later(seconds) => s.(now := s.now + seconds)
  }

  function Reports(incidents: Incidents): map<IncidentId, nat> { map i | i in incidents :: incidents[i].reports }

  ghost function Total(s: Filing): nat { Sum(Reports(s.incidents)) }

  lemma ReportsOfChanged(incidents: Incidents, i: IncidentId, row: Incident)
    ensures Sum(Reports(incidents[i := row])) + (if i in incidents then incidents[i].reports else 0) == Sum(Reports(incidents)) + row.reports
  {
    assert Reports(incidents[i := row]) == Reports(incidents)[i := row.reports];
    if i in incidents { SumUpdate(Reports(incidents), i, row.reports); } else { SumInsert(Reports(incidents), i, row.reports); }
  }

  lemma StepCounts(dist: Metric, s: Filing, step: Step)
    requires Enabled(dist, s, step)
    ensures Total(Apply(s, step)) - Apply(s, step).accepted == Total(s) - s.accepted
  {
    match step
    case Increment(f) => ReportsOfChanged(s.incidents, s.filers[f].i, Counted(s.incidents[s.filers[f].i]));
    case InsertNew(f, severity, id) => ReportsOfChanged(s.incidents, id, NewIncident(severity, s.filers[f].place, s.now));
    case SetStatus(i, status) => ReportsOfChanged(s.incidents, i, s.incidents[i].(status := status));
    case _ =>
  }

  ghost predicate Filings(dist: Metric, states: seq<Filing>, steps: seq<Step>) {
    && |states| == |steps| + 1
    && forall k | 0 <= k < |steps| :: Enabled(dist, states[k], steps[k]) && states[k + 1] == Apply(states[k], steps[k])
  }

  /** Every accepted report is counted exactly once, however the statements of the filings interleave. */
  lemma {:induction false} ReportsAreCounted(dist: Metric, states: seq<Filing>, steps: seq<Step>, n: nat)
    requires Filings(dist, states, steps) && n <= |steps|
    ensures Total(states[n]) - Total(states[0]) == states[n].accepted - states[0].accepted
  {
    hide Total, Enabled, Apply;
    if n > 0 {
      ReportsAreCounted(dist, states, steps, n - 1);
      StepCounts(dist, states[n - 1], steps[n - 1]);
    }
  }

  /** Separation needs the filing to be atomic: two first reports that both miss end as two incidents on one spot. */
  lemma TwoFirstReports(dist: Metric, place: Place) returns (states: seq<Filing>, steps: seq<Step>)
    requires dist(place, place) == 0.0
    ensures Filings(dist, states, steps) && states[0].incidents == map[] && !Separated(dist, states[|steps|].incidents)
  {
    var row := NewIncident(High, place, 0);
    var s0 := Filing(map[], map[], 0, 0);
    var s1 := s0.(filers := map[0 := Missed(place)]);
    var s2 := s0.(filers := map[0 := Missed(place), 1 := Missed(place)]);
    var s3 := Filing(map[0 := row], map[1 := Missed(place)], 1, 0);
    var s4 := Filing(map[0 := row, 1 := row], map[], 2, 0);
    states := [s0, s1, s2, s3, s4];
    steps := [Query(0, place, None), Query(1, place, None), InsertNew(0, High, 0), InsertNew(1, High, 1)];
    assert Apply(s2, steps[2]) == s3;
    assert Apply(s3, steps[3]) == s4;
    assert !Apart(dist, s4.incidents[0], s4.incidents[1]);
  }

  // --- The service ---

  datatype ServiceError = ErrInvalidSeverity | ErrInvalidStatus | ErrIncidentNotFound | ErrIllegalTransition

  class IncidentService {
    const dist: Metric
    var incidents: Incidents

    ghost predicate Valid(now: int)
      reads this
    {
      Separated(dist, incidents) && forall i | i in incidents :: incidents[i].createdAt <= now
    }

    constructor (dist: Metric)
      ensures this.dist == dist && incidents == map[]
    {
      this.dist, incidents := dist, map[];
    }

    method TryDedupe(place: Place, now: int) returns (found: Option<IncidentId>)
      modifies `incidents
      ensures NearestDuplicate(dist, old(incidents), place, now, found)
      ensures if found.None? then incidents == old(incidents)
              else found.value in old(incidents)
                   && var was := old(incidents)[found.value];
                   incidents == old(incidents)[found.value := was.(reports := was.reports + 1)]
    {
      var matches := Matches(dist, incidents, place, now);
      if matches == {} {
        NearestIsTold(dist, incidents, place, now, None);
        return None;
      }
      ghost var nearest := SomeNearest(dist, incidents, place, matches);
      var i :| i in matches && forall j | j in matches :: dist(incidents[i].place, place) <= dist(incidents[j].place, place);
      NearestIsTold(dist, incidents, place, now, Some(i));
      incidents := incidents[i := incidents[i].(reports := incidents[i].reports + 1)];
      return Some(i);
    }

    /** Merge into the nearest active incident nearby and recent, else file a new one; either way the rows stay apart. */
    method Create(severity: Option<Severity>, place: Place, now: int, id: IncidentId) returns (r: Result<(IncidentId, bool), ServiceError>)
      requires Symmetric(dist) && Valid(now) && id !in incidents
      modifies `incidents
      ensures Valid(now)
      ensures severity.None? ==> r == Err(ErrInvalidSeverity) && incidents == old(incidents)
      ensures severity.Some? ==> r.Ok? && NearestDuplicate(dist, old(incidents), place, now, if r.value.1 then Some(r.value.0) else None)
      ensures severity.Some? ==>
                if r.value.1
                then r.value.0 in old(incidents)
                     && var was := old(incidents)[r.value.0];
                     incidents == old(incidents)[r.value.0 := was.(reports := was.reports + 1)]
                else r.value.0 == id && incidents == old(incidents)[id := Incident(severity.value, Reported, place, now, 1)]
    {
      hide NearestDuplicate, Duplicates, Apart, Matches;
      if severity.None? { return Err(ErrInvalidSeverity); }
      var found := TryDedupe(place, now);
      NearestIsTold(dist, old(incidents), place, now, found);
      if found.Some? {
        SettlingKeepsApart(dist, old(incidents), incidents);
        return Ok((found.value, true));
      }
      InsertKeepsApartIff(dist, incidents, severity.value, place, now, id);
      incidents := incidents[id := Incident(severity.value, Reported, place, now, 1)];
      return Ok((id, false));
    }

    /** The operator's state machine: unknown status, unknown incident and illegal move are told apart, in that order. */
    method UpdateStatus(i: IncidentId, to: Option<IncidentStatus>, now: int) returns (r: Result<Incident, ServiceError>)
      requires Valid(now)
      modifies `incidents
      ensures Valid(now)
      ensures r.Ok? <==> to.Some? && i in old(incidents) && CanTransitionIncident(old(incidents)[i].status, to.value)
      ensures r.Ok? ==> r.value == old(incidents)[i].(status := to.value) && incidents == old(incidents)[i := r.value]
                        && Active(old(incidents)[i])
      ensures r.Err? ==> incidents == old(incidents)
                         && r.error == (if to.None? then ErrInvalidStatus
                                        else if i !in incidents then ErrIncidentNotFound else ErrIllegalTransition)
    {
      if to.None? { return Err(ErrInvalidStatus); }
      if i !in incidents { return Err(ErrIncidentNotFound); }
      var row := incidents[i];
      if !CanTransitionIncident(row.status, to.value) { return Err(ErrIllegalTransition); }
      var moved := row.(status := to.value);
      SettlingKeepsApart(dist, incidents, incidents[i := moved]);
      incidents := incidents[i := moved];
      return Ok(moved);
    }
  }
}
