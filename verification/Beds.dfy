/** Beds in shelters: one guarded increment per admitted victim, in the transaction that places the victim. */
module Beds {
  import opened Results
  import opened MapSums
  import opened ShelterRows

  type VictimId = nat

  datatype VictimStatus = Registered | Sheltered | Discharged

  datatype Victim = Victim(status: VictimStatus, shelter: Option<ShelterId>)

  datatype Error = ErrVictimNotFound | ErrVictimAlreadyAssigned | ErrShelterNotFound | ErrShelterClosed | ErrShelterFull

  type Shelters = map<ShelterId, Shelter>
  type Victims = map<VictimId, Victim>

  function Lodged(v: Victim, s: ShelterId): nat { if v.shelter == Some(s) then 1 else 0 }

  function Lodgers(victims: Victims, s: ShelterId): map<VictimId, nat> {
    map v | v in victims :: Lodged(victims[v], s)
  }

  /** The number of victims assigned to a shelter. */
  ghost function HeadCount(victims: Victims, s: ShelterId): nat { Sum(Lodgers(victims, s)) }

  ghost predicate Balanced(row: Shelter, victims: Victims, s: ShelterId) {
    row.occupancy == HeadCount(victims, s) && row.occupancy <= row.capacity
  }

  ghost predicate Housed(shelters: Shelters, victims: Victims) {
    && (forall s | s in shelters :: Balanced(shelters[s], victims, s))
    && (forall v | v in victims :: victims[v].shelter.Some? <==> !victims[v].status.Registered?)
  }

  /** The guard of the admission's UPDATE. */
  predicate HasRoom(row: Shelter) { row.status.Open? && row.occupancy < row.capacity }

  function Admitting(row: Shelter): Shelter { row.(occupancy := row.occupancy + 1) }

  function Placed(s: ShelterId): Victim { Victim(Sheltered, Some(s)) }

  lemma PlacingBalances(shelters: Shelters, victims: Victims, s: ShelterId, v: VictimId, x: ShelterId)
    requires x in shelters && Balanced(shelters[x], victims, x)
    requires s in shelters && HasRoom(shelters[s]) && v in victims && victims[v].shelter.None?
    ensures Balanced(shelters[s := Admitting(shelters[s])][x], victims[v := Placed(s)], x)
  {
    assert Lodgers(victims[v := Placed(s)], x) == Lodgers(victims, x)[v := Lodged(Placed(s), x)];
    SumUpdate(Lodgers(victims, x), v, Lodged(Placed(s), x));
  }

  lemma PlacingKeeps(shelters: Shelters, victims: Victims, s: ShelterId, v: VictimId)
    requires Housed(shelters, victims) && s in shelters && HasRoom(shelters[s]) && v in victims && victims[v].status.Registered?
    ensures Housed(shelters[s := Admitting(shelters[s])], victims[v := Placed(s)])
  {
    hide HeadCount;
    forall x | x in shelters ensures Balanced(shelters[s := Admitting(shelters[s])][x], victims[v := Placed(s)], x) {
      PlacingBalances(shelters, victims, s, v, x);
    }
  }

  lemma StatusKeeps(shelters: Shelters, victims: Victims, s: ShelterId, status: Status)
    requires Housed(shelters, victims) && s in shelters
    ensures Housed(shelters[s := shelters[s].(status := status)], victims)
  {
    hide HeadCount;
  }

  class Database {
    var shelters: Shelters
    var victims: Victims

    ghost predicate Valid()
      reads this
    {
      Housed(shelters, victims)
    }

    constructor (shelters: Shelters, victims: Victims)
      requires forall s | s in shelters :: shelters[s].occupancy == 0 <= shelters[s].capacity
      requires forall v | v in victims :: victims[v] == Victim(Registered, None)
      ensures Valid() && this.shelters == shelters && this.victims == victims
    {
      this.shelters, this.victims := shelters, victims;
      new;
      forall s | s in shelters ensures Balanced(shelters[s], victims, s) { NobodyLodged(victims, s); }
    }
  }

  lemma {:induction false} NobodyLodged(victims: Victims, s: ShelterId)
    requires forall v | v in victims :: victims[v].shelter.None?
    ensures HeadCount(victims, s) == 0
  {
    SumBounds(Lodgers(victims, s), 0, 0);
  }

  class ShelterRepository {
    const db: Database

    constructor (db: Database)
      ensures this.db == db
    {
      this.db := db;
    }

    /** One bed, or the reason there is none: only an open shelter with room admits. */
    method AdmitTx(s: ShelterId) returns (r: Result<Shelter, Error>)
      modifies db`shelters
      ensures r.Ok? <==> s in old(db.shelters) && old(db.shelters)[s].status == Open
                         && old(db.shelters)[s].occupancy < old(db.shelters)[s].capacity
      ensures r.Ok? ==> && db.shelters == old(db.shelters)[s := r.value]
                        && r.value == old(db.shelters)[s].(occupancy := old(db.shelters)[s].occupancy + 1)
      ensures r.Err? ==> db.shelters == old(db.shelters)
                         && r.error == (if s !in db.shelters then ErrShelterNotFound
                                        else if !db.shelters[s].status.Open? then ErrShelterClosed else ErrShelterFull)
    {
      if s in db.shelters && db.shelters[s].status.Open? && db.shelters[s].occupancy < db.shelters[s].capacity {
        var row := db.shelters[s];
        db.shelters := db.shelters[s := row.(occupancy := row.occupancy + 1)];
        return Ok(db.shelters[s]);
      }
      if s !in db.shelters { return Err(ErrShelterNotFound); }
      if db.shelters[s].status != Open { return Err(ErrShelterClosed); }
      return Err(ErrShelterFull);
    }

    /** Closing and reopening moves no one. */
    method UpdateStatus(s: ShelterId, status: Status) returns (r: Result<Shelter, Error>)
      requires db.Valid()
      modifies db`shelters
      ensures db.Valid()
      ensures if s in old(db.shelters)
              then r == Ok(old(db.shelters)[s].(status := status)) && db.shelters == old(db.shelters)[s := r.value]
              else r == Err(ErrShelterNotFound) && db.shelters == old(db.shelters)
    {
      if s !in db.shelters { return Err(ErrShelterNotFound); }
      StatusKeeps(db.shelters, db.victims, s, status);
      db.shelters := db.shelters[s := db.shelters[s].(status := status)];
      return Ok(db.shelters[s]);
    }
  }

  class VictimRepository {
    const db: Database
    const shelters: ShelterRepository

    constructor (db: Database, shelters: ShelterRepository)
      ensures this.db == db && this.shelters == shelters
    {
      this.db, this.shelters := db, shelters;
    }

    /** Victim first, then shelter; both rows change or neither does. */
    method Assign(v: VictimId, s: ShelterId) returns (r: Result<Shelter, Error>)
      requires db.Valid() && shelters.db == db
      modifies db
      ensures db.Valid()
      ensures r.Ok? <==> && v in old(db.victims) && old(db.victims)[v].status.Registered?
                         && s in old(db.shelters) && old(db.shelters)[s].status == Open
                         && old(db.shelters)[s].occupancy < old(db.shelters)[s].capacity
      ensures r.Ok? ==> && r.value == old(db.shelters)[s].(occupancy := old(db.shelters)[s].occupancy + 1)
                        && db.shelters == old(db.shelters)[s := r.value] && db.victims == old(db.victims)[v := Victim(Sheltered, Some(s))]
      ensures r.Err? ==> db.shelters == old(db.shelters) && db.victims == old(db.victims)
      ensures r.Err? ==> r.error == if v !in db.victims then ErrVictimNotFound
                                    else if !db.victims[v].status.Registered? then ErrVictimAlreadyAssigned
                                    else if s !in db.shelters then ErrShelterNotFound
                                    else if !db.shelters[s].status.Open? then ErrShelterClosed else ErrShelterFull
    {
      hide HeadCount;
      if v !in db.victims { return Err(ErrVictimNotFound); }
      if !db.victims[v].status.Registered? { return Err(ErrVictimAlreadyAssigned); }
      ghost var before := db.shelters;
      r := shelters.AdmitTx(s);
      if r.Ok? {
        PlacingKeeps(before, db.victims, s, v);
        db.victims := db.victims[v := Placed(s)];
      }
    }
  }
}
