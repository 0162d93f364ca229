/**
 Reroute and Preempt: candidates are ranked outside any transaction and may be
 stale, so the service walks them in order and lets Reassign re-check each one.
 */
module ReassignService {
  import opened Results
  import opened Rows
  import opened AtomicOps
  import opened Answers
  import opened DispatchInvariants
  import opened Preemption
  import opened Rivals
  import opened DispatchStore
  import opened ReassignWalks

  const REASSIGN_CANDIDATE_LIMIT: nat := 5

  class Service {
    const repo: DispatchRepository

    constructor (repo: DispatchRepository)
      ensures this.repo == repo
    {
      this.repo := repo;
    }

    ghost function View(): Db
      reads repo.db
    {
      repo.db.View()
    }

    /** One attempt of a walk, after others have committed. */
    method Attempt(d: DispatchId, i: IncidentId, u: UnitId, kind: EventKind, n: DispatchId, e: EventId, ops: seq<Op>)
      returns (r: Result<Dispatch, Error>, ghost seen: Db)
      requires ForeignKeys(View()) && n !in View().core.dispatches && e !in View().core.events
      modifies repo.db
      ensures seen == Meanwhile(old(View()), ops, n, e) && ForeignKeys(seen)
      ensures match RunReassign(seen, d, i, u, kind, n, e)
              case Ok(after) => r == Ok(Dispatch(i, u, DispatchReserved)) && View() == after
              case Err(err) => r == Err(err) && View() == seen && n !in seen.core.dispatches && e !in seen.core.events
    {
      repo.CommitRivals(ops, n, e);
      seen := View();
      r := repo.Reassign(d, i, u, kind, n, e);
    }

    /**
     Settles on the first candidate that is not merely taken when its turn comes, and on nothing if all of them are.
     `rivals[j]` is what others commit before attempt j.
     */
    method Reroute(d: DispatchId, candidates: seq<UnitId>, n: DispatchId, e: EventId, rivals: seq<seq<Op>>)
      returns (r: Result<Dispatch, Error>, ghost met: seq<Db>)
      requires ForeignKeys(View()) && n !in View().core.dispatches && e !in View().core.events
      requires |candidates| <= REASSIGN_CANDIDATE_LIMIT && |rivals| == |candidates|
      modifies repo.db
      ensures d !in old(View()).core.dispatches ==> r == Err(ErrDispatchNotFound) && View() == old(View())
      ensures d in old(View()).core.dispatches && !IsActiveDispatch(old(View()).core.dispatches[d].status) ==>
                r == Err(ErrIllegalDispatchTransition) && View() == old(View())
      ensures d in old(View()).core.dispatches && IsActiveDispatch(old(View()).core.dispatches[d].status) ==>
                var row, k := old(View()).core.dispatches[d], |met| - 1;
                && Meets(old(View()), rivals, n, e, met)
                && (forall j | 0 <= j < k :: LostRace(RerouteTry(met[j], d, row, candidates[j], n, e)))
                && if candidates == [] then r == Err(ErrNoReassignCandidate) && View() == old(View())
                   else k >= 0 && match RerouteTry(met[k], d, row, candidates[k], n, e)
                        case Ok(after) => r == Ok(Dispatch(row.incident, candidates[k], DispatchReserved)) && View() == after
                        case Err(err) =>
                          && View() == met[k]
                          && (if err == ErrUnitNotAvailable then k + 1 == |candidates| && r == Err(ErrNoReassignCandidate)
                              else r == Err(err))
      ensures d in old(View()).core.dispatches && Underway(old(View()).core.dispatches[d].status) ==>
                |met| <= |candidates| && RerouteKeepsOn(old(View()), rivals, n, e, d, candidates, met, r)
    {
      hide RunReassign, Meanwhile, Meets, RerouteKeepsOn;
      NoneMetYet(View(), rivals, n, e);
      met := [];
      if d !in repo.db.dispatches { return Err(ErrDispatchNotFound), []; }
      var prior := repo.db.dispatches[d];
      if !IsActiveDispatch(prior.status) { return Err(ErrIllegalDispatchTransition), []; }
      r := Err(ErrNoReassignCandidate);
      for next := 0 to |candidates|
        invariant |met| == next && Meets(old(View()), rivals, n, e, met) && r == Err(ErrNoReassignCandidate)
        invariant View() == if next == 0 then old(View()) else met[next - 1]
        invariant ForeignKeys(View()) && n !in View().core.dispatches && e !in View().core.events
        invariant forall j | 0 <= j < next :: ForeignKeys(met[j]) && LostRace(RerouteTry(met[j], d, prior, candidates[j], n, e))
      {
        ghost var seen;
        MeetsNext(old(View()), rivals, n, e, met, View());
        if candidates[next] == prior.unit {
          repo.CommitRivals(rivals[next], n, e);
          met := met + [View()];
        } else {
          var answer;
          answer, seen := Attempt(d, prior.incident, candidates[next], Rerouted, n, e, rivals[next]);
          met := met + [seen];
          if answer.Ok? || answer.error != ErrUnitNotAvailable {
            WalkKeepsOn(old(View()), rivals, n, e, d, candidates, met, answer);
            return answer, met;
          }
        }
      }
      WalkKeepsOn(old(View()), rivals, n, e, d, candidates, met, r);
    }

    /** ORDER BY distance LIMIT: the first `limit` preemptible dispatches in nearest-first order. */
    method FindPreemptable(severity: Severity, nearest: seq<DispatchId>, limit: nat) returns (victims: seq<Preemptable>)
      requires ForeignKeys(View())
      ensures victims == Nearest(Victims(View(), severity, nearest), limit)
      ensures forall v | v in victims ::
                v.dispatch in nearest && v.dispatch in View().core.dispatches && IsVictim(View(), severity, v)
      ensures NearestWanted(View(), severity, nearest, limit, victims)
    {
      hide Victims, IsVictim, Nearest, NearestWanted;
      NearestVictimsAreWanted(View(), severity, nearest, limit);
      victims := [];
      EmptyVictims(View(), severity, nearest);
      var k := 0;
      while k < |nearest| && |victims| < limit
        invariant k <= |nearest| && |victims| <= limit && victims == Victims(View(), severity, nearest[..k])
      {
        var d := nearest[k];
        VictimsNext(View(), severity, nearest, k);
        if d in repo.db.dispatches {
          var row := repo.db.dispatches[d];
          var served := repo.db.incidents[row.incident];
          if IsActiveDispatch(row.status) && SeverityRank(served.severity) < SeverityRank(severity) {
            victims := victims + [Preemptable(d, row.unit, row.incident, served.severity)];
          }
        }
        k := k + 1;
      }
      ScanFindsNearest(View(), severity, nearest, k, limit);
    }

    /**
     Takes the first of the nearest victims that is still there when its turn comes. The strict severity comparison
     was made before any attempt, and still holds: neither a dispatch's incident nor a severity ever changes.
     */
    method Preempt(i: IncidentId, nearest: seq<DispatchId>, n: DispatchId, e: EventId, rivals: seq<seq<Op>>)
      returns (r: Result<Dispatch, Error>, ghost victims: seq<Preemptable>, ghost met: seq<Db>)
      requires ForeignKeys(View()) && n !in View().core.dispatches && e !in View().core.events
      requires |rivals| >= REASSIGN_CANDIDATE_LIMIT
      modifies repo.db
      ensures i !in old(View()).incidents ==> r == Err(ErrIncidentNotFound) && View() == old(View())
      ensures i in old(View()).incidents && IsTerminal(old(View()).incidents[i].status) ==>
                r == Err(ErrIncidentNotDispatchable) && View() == old(View())
      ensures i in old(View()).incidents && !IsTerminal(old(View()).incidents[i].status) ==>
                var k := |met| - 1;
                && victims == Nearest(Victims(old(View()), old(View()).incidents[i].severity, nearest), REASSIGN_CANDIDATE_LIMIT)
                && Meets(old(View()), rivals, n, e, met) && |met| <= |victims|
                && (forall j | 0 <= j < k :: VictimGone(PreemptTry(met[j], i, victims[j], n, e)))
                && if victims == [] then r == Err(ErrNoReassignCandidate) && View() == old(View())
                   else k >= 0 && match PreemptTry(met[k], i, victims[k], n, e)
                        case Ok(after) => r == Ok(Dispatch(i, victims[k].unit, DispatchReserved)) && View() == after
                        case Err(err) =>
                          && View() == met[k]
                          && (if VictimGone(Err(err)) then k + 1 == |victims| && r == Err(ErrNoReassignCandidate)
                              else r == Err(err))
      ensures Open(old(View()).incidents, i) ==>
                var severity := old(View()).incidents[i].severity;
                && NearestWanted(old(View()), severity, nearest, 5, victims) && PreemptKeepsOn(old(View()), rivals, n, e, i, victims, r)
                && (victims == [] <==> forall d | d in nearest :: !Wanted(old(View()), severity, d))
    {
      hide RunReassign, Meanwhile, Victims, Meets, IsVictim, NearestWanted, PreemptKeepsOn, Wanted;
      NoneMetYet(View(), rivals, n, e);
      victims, met := [], [];
      if i !in repo.db.incidents { return Err(ErrIncidentNotFound), [], []; }
      var status := repo.db.incidents[i].status;
      if status == Resolved || status == Cancelled { return Err(ErrIncidentNotDispatchable), [], []; }
      var listed := FindPreemptable(repo.db.incidents[i].severity, nearest, REASSIGN_CANDIDATE_LIMIT);
      victims := listed;
      ListedWhenWanted(View(), repo.db.incidents[i].severity, nearest, victims);
      r := Err(ErrNoReassignCandidate);
      for next := 0 to |listed|
        invariant |met| == next && Meets(old(View()), rivals, n, e, met) && r == Err(ErrNoReassignCandidate)
        invariant View() == if next == 0 then old(View()) else met[next - 1]
        invariant ForeignKeys(View()) && n !in View().core.dispatches && e !in View().core.events
        invariant forall j | 0 <= j < next :: ForeignKeys(met[j]) && VictimGone(PreemptTry(met[j], i, listed[j], n, e))
      {
        var answer;
        ghost var seen;
        MeetsNext(old(View()), rivals, n, e, met, View());
        answer, seen := Attempt(listed[next].dispatch, i, listed[next].unit, Preempted, n, e, rivals[next]);
        met := met + [seen];
        if answer.Ok? || !VictimGone(Err(answer.error)) {
          VictimWalkKeepsOn(old(View()), rivals, n, e, i, victims, met, answer);
          return answer, victims, met;
        }
      }
      VictimWalkKeepsOn(old(View()), rivals, n, e, i, victims, met, r);
    }
  }

  /** A victim stays a victim across whatever other transactions commit in between. */
  lemma VictimStaysVictim(db: Db, op: Op, severity: Severity, v: Preemptable)
    requires ForeignKeys(db) && FreshIds(db.core, op) && Run(db, op).Ok?
    requires v.dispatch in db.core.dispatches && IsVictim(db, severity, v)
    ensures ForeignKeys(Run(db, op).value) && v.dispatch in Run(db, op).value.core.dispatches
    ensures IsVictim(Run(db, op).value, severity, v)
  {
    ForeignKeysKept(db, op);
    TerminalAbsorbs(db, op, v.incident);
  }

  lemma {:induction false} VictimStaysMeanwhile(db: Db, ops: seq<Op>, n: DispatchId, e: EventId, severity: Severity, v: Preemptable)
    requires ForeignKeys(db) && v.dispatch in db.core.dispatches && IsVictim(db, severity, v)
    ensures v.dispatch in Meanwhile(db, ops, n, e).core.dispatches && IsVictim(Meanwhile(db, ops, n, e), severity, v)
    decreases |ops|
  {
    hide Run, IsVictim;
    if ops != [] {
      var op := ops[0];
      if FreshIds(db.core, op) && op.newDispatch != n && op.event != e && Run(db, op).Ok? {
        VictimStaysVictim(db, op, severity, v);
        VictimStaysMeanwhile(Run(db, op).value, ops[1..], n, e, severity, v);
      } else {
        VictimStaysMeanwhile(db, ops[1..], n, e, severity, v);
      }
    }
  }

  /** Taking a victim is a strict preemption: the potential that bounds preemptions rises. */
  lemma PreemptRaisesPotential(db: Db, i: IncidentId, v: Preemptable, n: DispatchId, e: EventId, sev: Severities)
    requires ForeignKeys(db) && n !in db.core.dispatches && e !in db.core.events && i in db.incidents
    requires v.dispatch in db.core.dispatches && IsVictim(db, db.incidents[i].severity, v)
    requires forall j | j in db.incidents :: j in sev && sev[j] == db.incidents[j].severity
    requires PreemptTry(db, i, v, n, e).Ok?
    ensures Potential(PreemptTry(db, i, v, n, e).value.core, sev) > Potential(db.core, sev)
  {
    var op := Op(Reassign(v.dispatch, i, v.unit, Preempted), n, e);
    RunIsEffect(db, op);
    PreemptionRaises(db.core, op, sev);
  }
}
