/** The cache-aside reads and writes of shelters by id, one call at a time. */
module ShelterCache {
  import opened Results
  import opened CacheRuns
  import opened ShelterRows

  datatype Cached = Cached(row: Shelter, until: real)

  datatype ServiceError = ErrShelterNotFound | ErrInvalidShelterStatus

  /** What Redis answers for a key at an instant. */
  function Hit(entries: map<ShelterId, Cached>, now: real, id: ShelterId): Option<Shelter> {
    if id in entries && now < entries[id].until then Some(entries[id].row) else None
  }

  function StatusOf(status: string): Option<Status> {
    if status == "open" then Some(Open) else if status == "closed" then Some(Closed) else None
  }

  /** A backfill is found for at least 48 s and at most 72 s, and only under its own key; a DEL ends it at once. */
  lemma BackfillLivesItsTtl(entries: map<ShelterId, Cached>, now: real, later: real, id: ShelterId, other: ShelterId, row: Shelter, spread: real)
    requires 0.0 <= spread < 1.0
    ensures var filled := entries[id := Cached(row, now + Jitter(TTL, spread))];
            && (later < now + 48.0 ==> Hit(filled, later, id) == Some(row))
            && (later >= now + 72.0 ==> Hit(filled, later, id) == None)
            && Hit(filled - {id}, later, id) == None
            && (other != id ==> Hit(filled, later, other) == Hit(filled - {id}, later, other) == Hit(entries, later, other))
  {
    JitterRange(spread);
  }

  class Cache {
    var entries: map<ShelterId, Cached>
    var now: real

    constructor (now: real)
      ensures entries == map[] && this.now == now
    {
      entries, this.now := map[], now;
    }

    method GetJSON(id: ShelterId) returns (hit: Option<Shelter>)
      ensures hit == if id in entries && now < entries[id].until then Some(entries[id].row) else None
    {
      hit := None;
      if id in entries && now < entries[id].until { hit := Some(entries[id].row); }
    }

    /** A backfill lives 80% to 120% of its TTL, by the random `spread`; one that fails is only logged. */
    method SetJSON(id: ShelterId, row: Shelter, ttl: real, spread: real, stored: bool)
      requires 0.0 <= spread < 1.0
      modifies `entries
      ensures entries == if stored then old(entries)[id := Cached(row, now + Jitter(ttl, spread))] else old(entries)
    {
      var life := ttl;
      if ttl > 0.0 {
        var margin := ttl * 0.2;
        life := ttl - margin + spread * 2.0 * margin;
      }
      if stored { entries := entries[id := Cached(row, now + life)]; }
    }

    method Del(id: ShelterId, ok: bool)
      modifies `entries
      ensures entries == if ok then old(entries) - {id} else old(entries)
    {
      if ok { entries := entries - {id}; }
    }
  }

  class ShelterService {
    const cache: Cache
    var rows: map<ShelterId, Shelter>

    /** If the key is cached and alive, it is the committed row. */
    ghost predicate CoherentAt(id: ShelterId)
      reads this, cache
    {
      var hit := Hit(cache.entries, cache.now, id);
      hit.Some? ==> id in rows && rows[id] == hit.value
    }

    constructor (cache: Cache, rows: map<ShelterId, Shelter>)
      requires cache.entries == map[]
      ensures (forall id :: CoherentAt(id)) && this.cache == cache && this.rows == rows
    {
      this.cache, this.rows := cache, rows;
    }

    /**
     Serves what is cached, stale or not; a miss is answered from the database, or by the leader of the flight
     (`meanwhile`), and leaves the key coherent. No key becomes incoherent by a read.
     */
    method GetByID(id: ShelterId, meanwhile: Option<Shelter>, spread: real, stored: bool) returns (r: Result<Shelter, ServiceError>)
      requires 0.0 <= spread < 1.0
      modifies cache`entries
      ensures forall k :: old(CoherentAt(k)) ==> CoherentAt(k)
      ensures old(CoherentAt(id)) && (meanwhile.Some? ==> id in rows && meanwhile.value == rows[id]) ==>
                r == if id in rows then Ok(rows[id]) else Err(ErrShelterNotFound)
      ensures r.Ok? ==> Some(r.value) == old(Hit(cache.entries, cache.now, id)) || Some(r.value) == meanwhile
                        || (id in rows && r.value == rows[id])
      ensures old(Hit(cache.entries, cache.now, id)).Some? ==> r == Ok(old(Hit(cache.entries, cache.now, id)).value)
      ensures old(Hit(cache.entries, cache.now, id)).None? && meanwhile.None? ==> r == if id in rows then Ok(rows[id]) else Err(ErrShelterNotFound)
      ensures cache.entries ==
                if old(Hit(cache.entries, cache.now, id)).None? && meanwhile.None? && id in rows && stored
                then old(cache.entries)[id := Cached(rows[id], cache.now + 48.0 + 24.0 * spread)] else old(cache.entries)
    {
      var hit := cache.GetJSON(id);
      if hit.Some? { return Ok(hit.value); }
      if meanwhile.Some? { return Ok(meanwhile.value); }
      if id !in rows { return Err(ErrShelterNotFound); }
      cache.SetJSON(id, rows[id], TTL, spread, stored);
      JitterRange(spread);
      return Ok(rows[id]);
    }

    /** Postgres first, then DEL: this key is coherent afterwards unless the DEL failed, and no other key is touched. */
    method UpdateStatus(id: ShelterId, status: string, delOk: bool) returns (r: Result<Shelter, ServiceError>)
      modifies `rows, cache`entries
      ensures r.Ok? && delOk ==> CoherentAt(id)
      ensures forall k :: k != id && old(CoherentAt(k)) ==> CoherentAt(k)
      ensures r == Err(ErrInvalidShelterStatus) <==> status != "open" && status != "closed"
      ensures r == Err(ErrShelterNotFound) <==> (status == "open" || status == "closed") && id !in old(rows)
      ensures r.Err? ==> rows == old(rows) && cache.entries == old(cache.entries)
      ensures r.Ok? ==> && rows == old(rows)[id := old(rows)[id].(status := if status == "open" then Open else Closed)]
                        && r.value == rows[id] && cache.entries == if delOk then old(cache.entries) - {id} else old(cache.entries)
    {
      var parsed := StatusOf(status);
      if parsed.None? { return Err(ErrInvalidShelterStatus); }
      if id !in rows { return Err(ErrShelterNotFound); }
      rows := rows[id := rows[id].(status := parsed.value)];
      cache.Del(id, delOk);
      return Ok(rows[id]);
    }
  }
}
