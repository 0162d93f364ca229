/** Assignments of victims to shelters interleaved statement by statement, with operators opening and closing shelters. */
module BedRuns {
  import opened Results
  import opened ShelterRows
  import opened Beds

  type TxId = nat

  /** `Refused`: the guard matched no row, and the next statement reads why. */
  datatype Pc = Begun | VictimLocked | Refused | Admitted | VictimPlaced

  datatype Txn = Txn(victim: VictimId, shelter: ShelterId, pc: Pc, row: Option<Shelter>, placed: Option<Victim>)

  datatype Sys = Sys(shelters: Shelters, victims: Victims, txns: map<TxId, Txn>,
                     shelterLocks: map<ShelterId, TxId>, victimLocks: map<VictimId, TxId>)

  datatype Outcome = Next(t: Txn) | RolledBack(error: Error) | Committed

  /** A guarded UPDATE waits for a held row only if the committed row meets its guard; else it is refused at once. */
  predicate Waits(s: Sys, id: TxId)
    requires id in s.txns
  {
    var t := s.txns[id];
    || (t.pc == VictimLocked && t.shelter in s.shelters && HasRoom(s.shelters[t.shelter])
        && t.shelter in s.shelterLocks && s.shelterLocks[t.shelter] != id)
    || (t.pc == Begun && t.victim in s.victimLocks && s.victimLocks[t.victim] != id)
  }

  /** Why an admission is refused, as the row reads. */
  function ReasonFor(shelters: Shelters, x: ShelterId): Error {
    if x !in shelters then ErrShelterNotFound else if !shelters[x].status.Open? then ErrShelterClosed else ErrShelterFull
  }

  function Exec(s: Sys, t: Txn): Outcome {
    match t.pc
    case Begun =>
      if t.victim !in s.victims then RolledBack(ErrVictimNotFound)
      else if !s.victims[t.victim].status.Registered? then RolledBack(ErrVictimAlreadyAssigned)
      else Next(t.(pc := VictimLocked))
    case VictimLocked =>
      if t.shelter in s.shelters && HasRoom(s.shelters[t.shelter])
      then Next(t.(pc := Admitted, row := Some(Admitting(s.shelters[t.shelter]))))
      else Next(t.(pc := Refused))
    case Refused => RolledBack(ReasonFor(s.shelters, t.shelter))
    case Admitted => Next(t.(pc := VictimPlaced, placed := Some(Placed(t.shelter))))
    case VictimPlaced => Committed
  }

  datatype Step = Begin(id: TxId, victim: VictimId, shelter: ShelterId) | Statement(id: TxId) | Abort(id: TxId)
                | SetStatus(shelter: ShelterId, status: Status)

  ghost predicate Enabled(s: Sys, step: Step) {
    match step
    case Begin(id, _, _) => id !in s.txns
    case Statement(id) => id in s.txns && !Waits(s, id)
    case Abort(id) => id in s.txns
    case SetStatus(x, _) => x in s.shelters && x !in s.shelterLocks
  }

  function Release<K>(locks: map<K, TxId>, id: TxId): map<K, TxId> { map k | k in locks && locks[k] != id :: locks[k] }

  function End(s: Sys, id: TxId): Sys {
    s.(txns := s.txns - {id}, shelterLocks := Release(s.shelterLocks, id), victimLocks := Release(s.victimLocks, id))
  }

  function Commit(s: Sys, id: TxId): Sys
    requires id in s.txns
  {
    var t := s.txns[id];
    End(s.(shelters := if t.row.Some? then s.shelters[t.shelter := t.row.value] else s.shelters,
           victims := if t.placed.Some? then s.victims[t.victim := t.placed.value] else s.victims), id)
  }

  function Apply(s: Sys, step: Step): Sys {
    match step
    case Begin(id, v, x) => s.(txns := s.txns[id := Txn(v, x, Begun, None, None)])
    case Abort(id) => End(s, id)
    case SetStatus(x, status) => if x in s.shelters then s.(shelters := s.shelters[x := s.shelters[x].(status := status)]) else s
    case Statement(id) =>
      if id !in s.txns then s else
        var t := s.txns[id];
        match Exec(s, t)
        case Next(t') =>
          s.(txns := s.txns[id := t'],
             shelterLocks := if t'.pc == Admitted then s.shelterLocks[t.shelter := id] else s.shelterLocks,
             victimLocks := if t.pc == Begun then s.victimLocks[t.victim := id] else s.victimLocks)
        case Committed => Commit(s, id)
        case RolledBack(_) => End(s, id)
  }

  // --- What every step keeps ---

  predicate OwnsShelter(s: Sys, id: TxId, x: ShelterId) { x in s.shelterLocks && s.shelterLocks[x] == id }

  predicate OwnsVictim(s: Sys, id: TxId, v: VictimId) { v in s.victimLocks && s.victimLocks[v] == id }

  ghost predicate TxOk(s: Sys, id: TxId, t: Txn) {
    && t.row.Some? == (t.pc == Admitted || t.pc == VictimPlaced) && t.placed.Some? == (t.pc == VictimPlaced)
    && (t.pc != Begun ==> t.victim in s.victims && OwnsVictim(s, id, t.victim) && s.victims[t.victim].status.Registered?)
    && (t.row.Some? ==>
          && t.shelter in s.shelters && OwnsShelter(s, id, t.shelter) && HasRoom(s.shelters[t.shelter])
          && t.row.value == Admitting(s.shelters[t.shelter]))
    && (t.placed.Some? ==> t.placed.value == Placed(t.shelter))
  }

  /** A held shelter row has an image waiting to be committed; a held victim's transaction is past its first lock. */
  ghost predicate HoldersKnown(s: Sys) {
    && (forall x | x in s.shelterLocks ::
          s.shelterLocks[x] in s.txns && s.txns[s.shelterLocks[x]].row.Some? && s.txns[s.shelterLocks[x]].shelter == x)
    && (forall v | v in s.victimLocks ::
          s.victimLocks[v] in s.txns && s.txns[s.victimLocks[v]].pc != Begun && s.txns[s.victimLocks[v]].victim == v)
  }

  ghost predicate BedInv(s: Sys) {
    && Housed(s.shelters, s.victims)
    && HoldersKnown(s)
    && forall id | id in s.txns :: TxOk(s, id, s.txns[id])
  }

  ghost predicate Spares(s: Sys, s': Sys, id: TxId) {
    && (forall x | x in s.shelters && OwnsShelter(s, id, x) :: x in s'.shelters && s'.shelters[x] == s.shelters[x] && OwnsShelter(s', id, x))
    && (forall v | v in s.victims && OwnsVictim(s, id, v) :: v in s'.victims && s'.victims[v] == s.victims[v] && OwnsVictim(s', id, v))
  }

  lemma TxFrame(s: Sys, s': Sys, id: TxId, t: Txn)
    requires TxOk(s, id, t) && Spares(s, s', id)
    ensures TxOk(s', id, t)
  {
  }

  lemma StepSpares(s: Sys, step: Step, other: TxId)
    requires BedInv(s) && Enabled(s, step) && other in s.txns
    requires !step.SetStatus? ==> step.id != other
    ensures Spares(s, Apply(s, step), other)
  {
    hide BedInv, TxOk, Housed, HasRoom, Exec, Commit, Spares, Waits;
    match step
    case Begin(_, _, _) => SameRowsSpare(s, Apply(s, step), other);
    case Abort(id) => EndSpares(s, id, other);
    case SetStatus(_, _) => StatusSpares(s, step, other);
    case Statement(id) =>
      match Exec(s, s.txns[id])
      case Next(_) => NextSpares(s, id, other);
      case Committed => CommitSpares(s, id, other);
      case RolledBack(_) => EndSpares(s, id, other);
  }

  lemma SameRowsSpare(s: Sys, s': Sys, other: TxId)
    requires s'.shelters == s.shelters && s'.victims == s.victims
    requires s'.shelterLocks == s.shelterLocks && s'.victimLocks == s.victimLocks
    ensures Spares(s, s', other)
  {
  }

  lemma EndSpares(s: Sys, id: TxId, other: TxId)
    requires id != other
    ensures Spares(s, End(s, id), other)
  {
  }

  lemma StatusSpares(s: Sys, step: Step, other: TxId)
    requires step.SetStatus? && Enabled(s, step)
    ensures Spares(s, Apply(s, step), other)
  {
  }

  lemma NextSpares(s: Sys, id: TxId, other: TxId)
    requires Enabled(s, Statement(id)) && Exec(s, s.txns[id]).Next? && id != other
    ensures Spares(s, Apply(s, Statement(id)), other)
  {
    hide HasRoom, Admitting;
  }

  /** A commit writes rows its transaction has locked. */
  lemma CommitSpares(s: Sys, id: TxId, other: TxId)
    requires BedInv(s) && id in s.txns && id != other
    ensures Spares(s, Commit(s, id), other)
  {
    hide Housed, HasRoom, HoldersKnown;
    assert TxOk(s, id, s.txns[id]);
  }

  lemma StatementOk(s: Sys, id: TxId)
    requires BedInv(s) && id in s.txns && Exec(s, s.txns[id]).Next?
    ensures var s' := Apply(s, Statement(id)); TxOk(s', id, s'.txns[id])
  {
    hide Housed;
    assert TxOk(s, id, s.txns[id]);
  }

  lemma StepHouses(s: Sys, step: Step)
    requires BedInv(s) && Enabled(s, step)
    ensures Housed(Apply(s, step).shelters, Apply(s, step).victims)
  {
    hide Housed, HasRoom;
    if step.SetStatus? {
      StatusKeeps(s.shelters, s.victims, step.shelter, step.status);
    } else if step.Statement? && Exec(s, s.txns[step.id]).Committed? {
      var t := s.txns[step.id];
      assert TxOk(s, step.id, t);
      PlacingKeeps(s.shelters, s.victims, t.shelter, t.victim);
    }
  }

  lemma HoldersStayKnown(s: Sys, step: Step)
    requires HoldersKnown(s) && Enabled(s, step)
    ensures HoldersKnown(Apply(s, step))
  {
    if step.Statement? {
      hide HoldersKnown, Exec, Commit, End;
      match Exec(s, s.txns[step.id])
      case Next(_) => HolderMovesOn(s, step.id);
      case Committed => HolderCommits(s, step.id);
      case RolledBack(_) => HolderEnds(s, step.id);
    } else if step.Abort? {
      HolderEnds(s, step.id);
    } else {
      hide Exec, Commit, End;
    }
  }

  lemma HolderEnds(s: Sys, id: TxId)
    requires HoldersKnown(s)
    ensures HoldersKnown(End(s, id))
  {
  }

  lemma HolderCommits(s: Sys, id: TxId)
    requires HoldersKnown(s) && id in s.txns
    ensures HoldersKnown(Commit(s, id))
  {
    hide Admitting, Placed;
  }

  lemma HolderMovesOn(s: Sys, id: TxId)
    requires HoldersKnown(s) && Enabled(s, Statement(id)) && Exec(s, s.txns[id]).Next?
    ensures HoldersKnown(Apply(s, Statement(id)))
  {
    hide HasRoom, Admitting, Placed;
  }

  lemma StepKeepsBeds(s: Sys, step: Step)
    requires BedInv(s) && Enabled(s, step)
    ensures BedInv(Apply(s, step))
  {
    hide Housed, TxOk, Spares, Waits, HoldersKnown, Exec;
    var s' := Apply(s, step);
    StepHouses(s, step);
    HoldersStayKnown(s, step);
    forall id | id in s'.txns ensures TxOk(s', id, s'.txns[id]) {
      if !step.SetStatus? && id == step.id {
        if step.Statement? { StatementOk(s, id); } else { FreshOk(s', id); }
      } else {
        StepSpares(s, step, id);
        TxFrame(s, s', id, s.txns[id]);
      }
    }
  }

  lemma FreshOk(s: Sys, id: TxId)
    requires id in s.txns && s.txns[id].pc == Begun && s.txns[id].row.None? && s.txns[id].placed.None?
    ensures TxOk(s, id, s.txns[id])
  {
  }

  // --- Whole runs ---

  ghost predicate Init(s: Sys) {
    Housed(s.shelters, s.victims) && s.txns == map[] && s.shelterLocks == map[] && s.victimLocks == map[]
  }

  ghost predicate Run(states: seq<Sys>, steps: seq<Step>) {
    && |states| == |steps| + 1 && Init(states[0])
    && forall k | 0 <= k < |steps| :: Enabled(states[k], steps[k]) && states[k + 1] == Apply(states[k], steps[k])
  }

  lemma StartsWell(s: Sys)
    requires Init(s)
    ensures BedInv(s)
  {
  }

  lemma {:induction false} RunKeepsBeds(states: seq<Sys>, steps: seq<Step>, n: nat)
    requires Run(states, steps) && n <= |steps|
    ensures BedInv(states[n])
  {
    hide BedInv, Apply, Enabled;
    if n > 0 {
      RunKeepsBeds(states, steps, n - 1);
      StepKeepsBeds(states[n - 1], steps[n - 1]);
    } else {
      StartsWell(states[0]);
    }
  }

  /** In every committed state of every interleaving occupancy counts the victims assigned there, within capacity. */
  lemma BedsAreConserved(states: seq<Sys>, steps: seq<Step>, n: nat, x: ShelterId)
    requires Run(states, steps) && n <= |steps| && x in states[n].shelters
    ensures var s := states[n]; s.shelters[x].occupancy == HeadCount(s.victims, x) <= s.shelters[x].capacity
  {
    RunKeepsBeds(states, steps, n);
    assert Balanced(states[n].shelters[x], states[n].victims, x);
  }

  lemma {:induction false} VictimsStay(states: seq<Sys>, steps: seq<Step>, m: nat, n: nat, v: VictimId)
    requires Run(states, steps) && m <= n <= |steps| && v in states[m].victims && !states[m].victims[v].status.Registered?
    ensures v in states[n].victims && states[n].victims[v] == states[m].victims[v]
    decreases n
  {
    if n > m {
      hide BedInv, Apply, Enabled;
      VictimsStay(states, steps, m, n - 1, v);
      RunKeepsBeds(states, steps, n - 1);
      PlacedStays(states[n - 1], steps[n - 1], v);
    }
  }

  /** A victim that has a bed keeps it: no later assignment, however it overlapped, moves or places it again. */
  lemma PlacedStays(s: Sys, step: Step, v: VictimId)
    requires BedInv(s) && Enabled(s, step) && v in s.victims && !s.victims[v].status.Registered?
    ensures v in Apply(s, step).victims && Apply(s, step).victims[v] == s.victims[v]
  {
    hide Housed, HasRoom;
    if step.Statement? { assert TxOk(s, step.id, s.txns[step.id]); }
  }

  /** The transaction a waiting one waits for. */
  function Holder(s: Sys, id: TxId): TxId
    requires id in s.txns && Waits(s, id)
  {
    if s.txns[id].pc == Begun then s.victimLocks[s.txns[id].victim] else s.shelterLocks[s.txns[id].shelter]
  }

  /** Victim before shelter: a chain of waiting transactions is at most two long, so none closes into a circle. */
  lemma WaitsAreShort(states: seq<Sys>, steps: seq<Step>, n: nat, id: TxId)
    requires Run(states, steps) && n <= |steps| && id in states[n].txns && Waits(states[n], id)
    ensures var s := states[n];
            var holder := Holder(s, id);
            && holder in s.txns && holder != id
            && (Waits(s, holder) ==> Holder(s, holder) in s.txns && !Waits(s, Holder(s, holder)))
  {
    hide Housed;
    RunKeepsBeds(states, steps, n);
    var s := states[n];
    var holder := Holder(s, id);
    assert TxOk(s, holder, s.txns[holder]);
    if Waits(s, holder) { assert TxOk(s, Holder(s, holder), s.txns[Holder(s, holder)]); }
  }

  /** Another one has locked the victim, or has taken a bed in the shelter wanted, which is open and has room as committed. */
  predicate InTheWay(shelters: Shelters, t: Txn, other: Txn) {
    if t.pc == Begun then other.pc != Begun && other.victim == t.victim
    else
      && t.pc == VictimLocked && (other.pc == Admitted || other.pc == VictimPlaced) && other.shelter == t.shelter
      && t.shelter in shelters && shelters[t.shelter].status == Open && shelters[t.shelter].occupancy < shelters[t.shelter].capacity
  }

  /** A transaction waits exactly if another one is in its way; an admission that will be refused waits for nobody. */
  lemma WaitsIff(states: seq<Sys>, steps: seq<Step>, n: nat, id: TxId)
    requires Run(states, steps) && n <= |steps| && id in states[n].txns
    ensures var s, t := states[n], states[n].txns[id];
            !Enabled(s, Statement(id)) <==> exists y | y in s.txns :: y != id && InTheWay(s.shelters, t, s.txns[y])
  {
    hide Housed;
    RunKeepsBeds(states, steps, n);
    var s := states[n];
    forall y | y in s.txns ensures TxOk(s, y, s.txns[y]) {}
  }

  // --- The reason given for a refusal ---

  /** Shelters come and go with nobody; beds are never given back and never added. */
  ghost predicate OnlyFills(before: Shelters, after: Shelters) {
    && before.Keys == after.Keys
    && forall x | x in before :: after[x].capacity == before[x].capacity && after[x].occupancy >= before[x].occupancy
  }

  lemma StepOnlyFills(s: Sys, step: Step)
    requires BedInv(s) && Enabled(s, step)
    ensures OnlyFills(s.shelters, Apply(s, step).shelters)
  {
    hide Housed, HasRoom, HoldersKnown, Waits;
    if step.Statement? { assert TxOk(s, step.id, s.txns[step.id]); }
  }

  lemma {:induction false} RunOnlyFills(states: seq<Sys>, steps: seq<Step>, m: nat, n: nat)
    requires Run(states, steps) && m <= n <= |steps|
    ensures OnlyFills(states[m].shelters, states[n].shelters)
    decreases n
  {
    hide BedInv, Apply, Enabled;
    if m < n {
      RunOnlyFills(states, steps, m, n - 1);
      RunKeepsBeds(states, steps, n - 1);
      StepOnlyFills(states[n - 1], steps[n - 1]);
    }
  }

  /** Transaction id's admission was refused in step c, and it has not answered by state p. */
  ghost predicate RefusedSince(states: seq<Sys>, steps: seq<Step>, c: nat, p: nat, id: TxId) {
    && Run(states, steps) && c < p <= |steps| && steps[c] == Statement(id)
    && id in states[c].txns && states[c].txns[id].pc == VictimLocked
    && Exec(states[c], states[c].txns[id]) == Next(states[c].txns[id].(pc := Refused))
    && forall k | c < k <= p :: id in states[k].txns
  }

  lemma RefusedStays(s: Sys, step: Step, id: TxId)
    requires Enabled(s, step) && id in s.txns && s.txns[id].pc == Refused && id in Apply(s, step).txns
    ensures Apply(s, step).txns[id] == s.txns[id]
  {
  }

  lemma {:induction false} StillRefused(states: seq<Sys>, steps: seq<Step>, c: nat, p: nat, id: TxId)
    requires RefusedSince(states, steps, c, p, id)
    ensures states[p].txns[id] == states[c].txns[id].(pc := Refused)
    decreases p
  {
    hide Enabled;
    assert Enabled(states[p - 1], steps[p - 1]) && states[p] == Apply(states[p - 1], steps[p - 1]);
    if c + 1 < p {
      StillRefused(states, steps, c, p - 1, id);
      hide Exec, Apply;
      RefusedStays(states[p - 1], steps[p - 1], id);
    }
  }

  lemma RefusedForAReason(s: Sys, t: Txn)
    requires t.pc == VictimLocked && Exec(s, t) == Next(t.(pc := Refused))
    ensures !(t.shelter in s.shelters && HasRoom(s.shelters[t.shelter]))
  {
  }

  /**
   The re-read names the reason the admission was refused for exactly if nobody has opened or closed the shelter
   between the two statements.
   */
  lemma ReasonIsRightIff(states: seq<Sys>, steps: seq<Step>, c: nat, p: nat, id: TxId)
    requires RefusedSince(states, steps, c, p, id)
    ensures var x := states[c].txns[id].shelter;
            && Exec(states[p], states[p].txns[id]) == RolledBack(ReasonFor(states[p].shelters, x))
            && ReasonFor(states[p].shelters, x) == (if x !in states[p].shelters then ErrShelterNotFound
                                                    else if states[p].shelters[x].status == Closed then ErrShelterClosed else ErrShelterFull)
            && (x in states[c].shelters <==> x in states[p].shelters)
            && (ReasonFor(states[p].shelters, x) == ReasonFor(states[c].shelters, x) <==>
                  (x in states[c].shelters ==> states[p].shelters[x].status == states[c].shelters[x].status))
  {
    hide Enabled, Apply;
    StillRefused(states, steps, c, p, id);
    RunOnlyFills(states, steps, c, p);
  }

  /**
   And it says full of a shelter that has room exactly if the shelter was closed when the admission was refused and
   is open, with a bed free, when it is read again: a full shelter never gets room.
   */
  lemma FullWithRoomIff(states: seq<Sys>, steps: seq<Step>, c: nat, p: nat, id: TxId)
    requires RefusedSince(states, steps, c, p, id)
    ensures var x := states[c].txns[id].shelter;
            (Exec(states[p], states[p].txns[id]) == RolledBack(ErrShelterFull)
             && x in states[p].shelters && HasRoom(states[p].shelters[x])) <==>
              (x in states[c].shelters && states[c].shelters[x].status.Closed?
               && x in states[p].shelters && HasRoom(states[p].shelters[x]))
  {
    hide Enabled, Apply;
    RefusedForAReason(states[c], states[c].txns[id]);
    StillRefused(states, steps, c, p, id);
    RunOnlyFills(states, steps, c, p);
  }

  /** It happens: refused because it is closed, the shelter opens, and the answer is that it is full. */
  lemma FullWithAFreeBed(s: Sys, v: VictimId, x: ShelterId) returns (states: seq<Sys>, steps: seq<Step>)
    requires Init(s) && v in s.victims && s.victims[v].status.Registered?
    requires x in s.shelters && s.shelters[x].status.Closed? && s.shelters[x].occupancy < s.shelters[x].capacity
    ensures RefusedSince(states, steps, 2, 4, 0) && |steps| == 4 && states[0] == s
    ensures Enabled(states[4], Statement(0)) && Exec(states[4], states[4].txns[0]) == RolledBack(ErrShelterFull)
    ensures x in states[4].shelters && HasRoom(states[4].shelters[x])
  {
    hide Housed;
    steps := [Begin(0, v, x), Statement(0), Statement(0), SetStatus(x, Open)];
    var t := Txn(v, x, Begun, None, None);
    var begun := s.(txns := map[0 := t]);
    var held := s.(txns := map[0 := t.(pc := VictimLocked)], victimLocks := map[v := 0]);
    var refused := held.(txns := map[0 := t.(pc := Refused)]);
    var reopened := refused.(shelters := s.shelters[x := s.shelters[x].(status := Open)]);
    states := [s, begun, held, refused, reopened];
    assert s.txns[0 := t] == begun.txns && begun.txns[0 := t.(pc := VictimLocked)] == held.txns;
    assert s.victimLocks[v := 0] == held.victimLocks && held.txns[0 := t.(pc := Refused)] == refused.txns;
  }

  // --- One assignment with no other beside it ---

  ghost predicate Leads(s: Sys, step: Step, s': Sys) { Enabled(s, step) && Apply(s, step) == s' }

  ghost predicate Idle(s: Sys) { s.txns == map[] && s.shelterLocks == map[] && s.victimLocks == map[] }

  /** States in which transaction id is the only one, as t, holding at most these rows. */
  function With(s: Sys, id: TxId, t: Txn, shelters: map<ShelterId, TxId>, victims: map<VictimId, TxId>): Sys {
    s.(txns := map[id := t], shelterLocks := shelters, victimLocks := victims)
  }

  lemma Begins(s: Sys, id: TxId, v: VictimId, x: ShelterId)
    requires Idle(s)
    ensures Leads(s, Begin(id, v, x), With(s, id, Txn(v, x, Begun, None, None), map[], map[]))
  {
    assert s.txns[id := Txn(v, x, Begun, None, None)] == map[id := Txn(v, x, Begun, None, None)];
  }

  lemma Moves(s: Sys, id: TxId, t: Txn, shelters: map<ShelterId, TxId>, victims: map<VictimId, TxId>, t': Txn)
    requires (forall x | x in shelters :: shelters[x] == id) && (forall v | v in victims :: victims[v] == id)
    requires Exec(With(s, id, t, shelters, victims), t) == Next(t')
    ensures Leads(With(s, id, t, shelters, victims), Statement(id),
                  With(s, id, t', if t'.pc == Admitted then shelters[t.shelter := id] else shelters,
                       if t.pc == Begun then victims[t.victim := id] else victims))
  {
    hide Exec;
    assert map[id := t][id := t'] == map[id := t'];
  }

  lemma Ends(s: Sys, id: TxId, t: Txn, shelters: map<ShelterId, TxId>, victims: map<VictimId, TxId>)
    requires Idle(s) && (forall x | x in shelters :: shelters[x] == id) && (forall v | v in victims :: victims[v] == id)
    requires !Exec(With(s, id, t, shelters, victims), t).Next?
    ensures var at := With(s, id, t, shelters, victims);
            Leads(at, Statement(id),
                  if Exec(at, t).Committed?
                  then s.(shelters := if t.row.Some? then s.shelters[t.shelter := t.row.value] else s.shelters,
                          victims := if t.placed.Some? then s.victims[t.victim := t.placed.value] else s.victims)
                  else s)
  {
    hide Exec;
    assert map[id := t] - {id} == map[];
    assert Release(shelters, id) == map[] && Release(victims, id) == map[];
  }

  /** An assignment alone: the bed and the victim's row, exactly if the guards are met, else nothing and the reason. */
  lemma AssignmentAlone(s: Sys, id: TxId, v: VictimId, x: ShelterId) returns (states: seq<Sys>, steps: seq<Step>)
    requires Idle(s)
    ensures |states| == |steps| + 1 && states[0] == s && forall k | 0 <= k < |steps| :: Leads(states[k], steps[k], states[k + 1])
    ensures |steps| > 0 && id in states[|steps| - 1].txns
    ensures if v in s.victims && s.victims[v].status == Registered && x in s.shelters && s.shelters[x].status == Open
               && s.shelters[x].occupancy < s.shelters[x].capacity
            then states[|steps|] == s.(shelters := s.shelters[x := s.shelters[x].(occupancy := s.shelters[x].occupancy + 1)],
                                       victims := s.victims[v := Victim(Sheltered, Some(x))])
            else states[|steps|] == s
                 && Exec(states[|steps| - 1], states[|steps| - 1].txns[id]) ==
                      RolledBack(if v !in s.victims then ErrVictimNotFound
                                 else if s.victims[v].status != Registered then ErrVictimAlreadyAssigned
                                 else if x !in s.shelters then ErrShelterNotFound
                                 else if s.shelters[x].status != Open then ErrShelterClosed else ErrShelterFull)
  {
    hide Leads;
    var t := Txn(v, x, Begun, None, None);
    var s1 := With(s, id, t, map[], map[]);
    Begins(s, id, v, x);
    if v !in s.victims || !s.victims[v].status.Registered? {
      Ends(s, id, t, map[], map[]);
      states, steps := [s, s1, s], [Begin(id, v, x), Statement(id)];
    } else {
      var locked := t.(pc := VictimLocked);
      var s2 := With(s, id, locked, map[], map[v := id]);
      Moves(s, id, t, map[], map[], locked);
      if x in s.shelters && HasRoom(s.shelters[x]) {
        var admitted := locked.(pc := Admitted, row := Some(Admitting(s.shelters[x])));
        var placed := admitted.(pc := VictimPlaced, placed := Some(Placed(x)));
        Moves(s, id, locked, map[], map[v := id], admitted);
        Moves(s, id, admitted, map[x := id], map[v := id], placed);
        Ends(s, id, placed, map[x := id], map[v := id]);
        var end := s.(shelters := s.shelters[x := admitted.row.value], victims := s.victims[v := placed.placed.value]);
        states := [s, s1, s2, With(s, id, admitted, map[x := id], map[v := id]), With(s, id, placed, map[x := id], map[v := id]), end];
        steps := [Begin(id, v, x), Statement(id), Statement(id), Statement(id), Statement(id)];
      } else {
        var refused := locked.(pc := Refused);
        Moves(s, id, locked, map[], map[v := id], refused);
        Ends(s, id, refused, map[], map[v := id]);
        states := [s, s1, s2, With(s, id, refused, map[], map[v := id]), s];
        steps := [Begin(id, v, x), Statement(id), Statement(id), Statement(id)];
      }
    }
  }
}
