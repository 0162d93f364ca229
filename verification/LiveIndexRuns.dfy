/**
 Heartbeats, expiries and searches on the live index, one store command at a time: a heartbeat is a SET and
 then a GEOADD, a search a GEOSEARCH, then an EXISTS per member found, then a ZREM of the dark ones.
 */
module LiveIndexRuns {
  import opened LiveIndex

  type SearchId = nat
  type BeatId = nat

  /** A search that has still to check `fetched`, and when it found the `dark` ones without a key. */
  datatype Query = Query(fetched: set<UnitId>, dark: map<UnitId, nat>)

  /** An eviction of one unit: when its search found it dark, and when it took it off the index. */
  datatype Eviction = Eviction(unit: UnitId, checked: nat, ran: nat)

  /**
   `keys` are the presence keys, `geo` the members of the index, `beats` the heartbeats whose GEOADD is still to
   come. `tick` counts commands; `lastSet`, `lastAdd` and `evictions` remember when things happened.
   */
  datatype Store = Store(tick: nat, keys: set<UnitId>, geo: set<UnitId>, beats: map<BeatId, UnitId>, queries: map<SearchId, Query>,
                         lastSet: map<UnitId, nat>, lastAdd: map<UnitId, nat>, evictions: set<Eviction>)

  datatype Command =
    | SetKey(b: BeatId, u: UnitId)
    | GeoAdd(b: BeatId)
    | Expire(u: UnitId)
    | GeoSearch(q: SearchId, found: set<UnitId>)
    | Exists(q: SearchId, u: UnitId)
    | ZRem(q: SearchId)
    | GiveUp(q: SearchId)

  predicate Enabled(s: Store, c: Command) {
    match c
    case SetKey(b, _) => b !in s.beats
    case GeoAdd(b) => b in s.beats
    case Expire(u) => u in s.keys
    case GeoSearch(q, found) => q !in s.queries && found <= s.geo
    case Exists(q, u) => q in s.queries && u in s.queries[q].fetched
    case ZRem(q) => q in s.queries && s.queries[q].fetched == {}
    case GiveUp(q) => q in s.queries
  }

  function Evictions(q: Query, now: nat): set<Eviction> {
    set u | u in q.dark :: Eviction(u, q.dark[u], now)
  }

  /** EXISTS for one member of a search. */
  function Checked(q: Query, u: UnitId, live: bool, now: nat): Query {
    Query(q.fetched - {u}, if live then q.dark else q.dark[u := now])
  }

  function Apply(s: Store, c: Command): Store
    requires Enabled(s, c)
  {
    var s := s.(tick := s.tick + 1);
    var now := s.tick;
    match c
    case SetKey(b, u) => s.(keys := s.keys + {u}, beats := s.beats[b := u], lastSet := s.lastSet[u := now])
    case GeoAdd(b) => s.(geo := s.geo + {s.beats[b]}, beats := s.beats - {b}, lastAdd := s.lastAdd[s.beats[b] := now])
    case Expire(u) => s.(keys := s.keys - {u})
    case GeoSearch(q, found) => s.(queries := s.queries[q := Query(found, map[])])
    case Exists(q, u) => s.(queries := s.queries[q := Checked(s.queries[q], u, u in s.keys, now)])
    case ZRem(q) =>
      s.(geo := s.geo - s.queries[q].dark.Keys, queries := s.queries - {q}, evictions := s.evictions + Evictions(s.queries[q], now))
    case GiveUp(q) => s.(queries := s.queries - {q})
  }

  // --- What every command keeps ---

  /** An eviction of u that no GEOADD has undone. */
  predicate Undone(s: Store, u: UnitId, e: Eviction) { e in s.evictions && e.unit == u && u in s.lastAdd && e.ran > s.lastAdd[u] }

  /** The index holds exactly the units added and not evicted since. */
  ghost predicate IndexKnown(s: Store) {
    forall u :: u in s.geo <==> u in s.lastAdd && forall e | e in s.evictions :: !Undone(s, u, e)
  }

  /** Nobody was found dark after the SET of a key that still lives. */
  ghost predicate DarkBeforeSet(s: Store) {
    && (forall u | u in s.keys :: u in s.lastSet)
    && (forall e | e in s.evictions && e.unit in s.keys :: e.checked < s.lastSet[e.unit])
    && (forall q, u | q in s.queries && u in s.queries[q].dark && u in s.keys :: s.queries[q].dark[u] < s.lastSet[u])
  }

  ghost predicate Timed(s: Store) {
    && (forall u | u in s.lastSet :: s.lastSet[u] <= s.tick)
    && (forall u | u in s.lastAdd :: s.lastAdd[u] <= s.tick)
    && (forall e | e in s.evictions :: e.ran <= s.tick && e.checked <= s.tick)
    && (forall q, u | q in s.queries && u in s.queries[q].dark :: s.queries[q].dark[u] <= s.tick)
  }

  /** A unit whose heartbeats are all complete has been added after its last SET. */
  ghost predicate BeatsComplete(s: Store) {
    forall u | u in s.lastSet && (forall b | b in s.beats :: s.beats[b] != u) :: u in s.lastAdd && s.lastSet[u] < s.lastAdd[u]
  }

  ghost predicate StoreInv(s: Store) { IndexKnown(s) && DarkBeforeSet(s) && Timed(s) && BeatsComplete(s) }

  lemma CommandKeepsTimes(s: Store, c: Command)
    requires StoreInv(s) && Enabled(s, c)
    ensures Timed(Apply(s, c))
  {
    hide IndexKnown, DarkBeforeSet, BeatsComplete;
  }

  lemma CommandKeepsDark(s: Store, c: Command)
    requires StoreInv(s) && Enabled(s, c)
    ensures DarkBeforeSet(Apply(s, c))
  {
    hide IndexKnown, BeatsComplete;
  }

  lemma CommandKeepsBeats(s: Store, c: Command)
    requires StoreInv(s) && Enabled(s, c)
    ensures BeatsComplete(Apply(s, c))
  {
    hide IndexKnown, DarkBeforeSet;
    var s' := Apply(s, c);
    forall u | u in s'.lastSet && (forall b | b in s'.beats :: s'.beats[b] != u)
      ensures u in s'.lastAdd && s'.lastSet[u] < s'.lastAdd[u]
    {
      if c.SetKey? { assert s'.beats[c.b] == c.u; }
      if !(c.GeoAdd? && s.beats[c.b] == u) {
        forall b | b in s.beats ensures s.beats[b] != u {
          if !(c.GeoAdd? && b == c.b) { assert b in s'.beats && s'.beats[b] == s.beats[b]; }
        }
      }
    }
  }

  lemma CommandKeepsIndex(s: Store, c: Command)
    requires StoreInv(s) && Enabled(s, c)
    ensures IndexKnown(Apply(s, c))
  {
    hide DarkBeforeSet, BeatsComplete;
    var s' := Apply(s, c);
    forall u ensures u in s'.geo <==> u in s'.lastAdd && forall e | e in s'.evictions :: !Undone(s', u, e) {
      if c.ZRem? {
        EvictionTakesOff(s, c, u);
      } else if !(c.GeoAdd? && s.beats[c.b] == u) {
        forall e ensures Undone(s', u, e) <==> Undone(s, u, e) {}
      }
    }
  }

  lemma EvictionTakesOff(s: Store, c: Command, u: UnitId)
    requires IndexKnown(s) && Timed(s) && Enabled(s, c) && c.ZRem?
    ensures var s' := Apply(s, c); u in s'.geo <==> u in s'.lastAdd && forall e | e in s'.evictions :: !Undone(s', u, e)
  {
    var s' := Apply(s, c);
    forall e | e in s.evictions ensures Undone(s', u, e) <==> Undone(s, u, e) {}
    if u in s.queries[c.q].dark {
      var e := Eviction(u, s.queries[c.q].dark[u], s'.tick);
      assert e in s'.evictions;
      assert u in s.lastAdd ==> Undone(s', u, e);
    }
  }

  lemma CommandKeepsStore(s: Store, c: Command)
    requires StoreInv(s) && Enabled(s, c)
    ensures StoreInv(Apply(s, c))
  {
    hide IndexKnown, DarkBeforeSet, Timed, BeatsComplete, Apply;
    CommandKeepsTimes(s, c);
    CommandKeepsDark(s, c);
    CommandKeepsBeats(s, c);
    CommandKeepsIndex(s, c);
  }

  // --- Whole runs ---

  ghost predicate Run(states: seq<Store>, commands: seq<Command>) {
    && |states| == |commands| + 1 && states[0] == Store(0, {}, {}, map[], map[], map[], map[], {})
    && forall k | 0 <= k < |commands| :: Enabled(states[k], commands[k]) && states[k + 1] == Apply(states[k], commands[k])
  }

  lemma {:induction false} RunKeepsStore(states: seq<Store>, commands: seq<Command>, n: nat)
    requires Run(states, commands) && n <= |commands|
    ensures StoreInv(states[n])
  {
    hide IndexKnown, DarkBeforeSet, Timed, BeatsComplete, Apply;
    if n > 0 {
      RunKeepsStore(states, commands, n - 1);
      CommandKeepsStore(states[n - 1], commands[n - 1]);
    } else {
      EmptyStoreIsSound(states[0]);
    }
  }

  lemma EmptyStoreIsSound(s: Store)
    requires s == Store(0, {}, {}, map[], map[], map[], map[], {})
    ensures StoreInv(s)
  {
  }

  /** An eviction that ran after u's last GEOADD on a check made before u's last SET. */
  predicate LateEviction(s: Store, u: UnitId, e: Eviction) {
    && e in s.evictions && e.unit == u && u in s.lastAdd && e.ran > s.lastAdd[u]
    && u in s.lastSet && e.checked < s.lastSet[u]
  }

  /**
   In every reachable state, for any heartbeats, expiries and searches: a live unit is off the index exactly if it
   has never been added, or an eviction of it ran after its last GEOADD on a check made before its last SET.
   */
  lemma LiveButOffIndexIff(states: seq<Store>, commands: seq<Command>, n: nat, u: UnitId)
    requires Run(states, commands) && n <= |commands| && u in states[n].keys
    ensures u !in states[n].geo <==>
              u !in states[n].lastAdd || exists e | e in states[n].evictions :: LateEviction(states[n], u, e)
  {
    hide Timed, BeatsComplete;
    RunKeepsStore(states, commands, n);
    var s := states[n];
    forall e | e in s.evictions ensures Undone(s, u, e) <==> LateEviction(s, u, e) {}
  }

  /**
   With the unit's heartbeats complete, what is left is the race alone: the eviction ran after the last heartbeat,
   on a check made before it.
   */
  lemma OnlyLateEvictionsHide(states: seq<Store>, commands: seq<Command>, n: nat, u: UnitId)
    requires Run(states, commands) && n <= |commands| && u in states[n].keys
    requires forall b | b in states[n].beats :: states[n].beats[b] != u
    ensures u in states[n].lastSet && u in states[n].lastAdd && states[n].lastSet[u] < states[n].lastAdd[u]
    ensures u !in states[n].geo <==>
              exists e | e in states[n].evictions :: e.unit == u && e.ran > states[n].lastAdd[u] && e.checked < states[n].lastSet[u]
  {
    hide IndexKnown, Timed;
    RunKeepsStore(states, commands, n);
    LiveButOffIndexIff(states, commands, n, u);
    var s := states[n];
    assert u in s.lastSet;
    forall e | e in s.evictions
      ensures LateEviction(s, u, e) <==> e.unit == u && e.ran > s.lastAdd[u] && e.checked < s.lastSet[u]
    {}
  }

  // --- One heartbeat, or one search, with nobody in between ---

  /** A heartbeat leaves the unit alive and on the index. */
  lemma HeartbeatLands(s: Store, b: BeatId, u: UnitId)
    requires b !in s.beats
    ensures Enabled(s, SetKey(b, u)) && Enabled(Apply(s, SetKey(b, u)), GeoAdd(b))
    ensures var s' := Apply(Apply(s, SetKey(b, u)), GeoAdd(b));
            s'.keys == s.keys + {u} && s'.geo == s.geo + {u} && s'.beats == s.beats && s'.queries == s.queries
  {
    var s' := Apply(Apply(s, SetKey(b, u)), GeoAdd(b));
    assert s'.beats == s.beats;
  }

  /** The checks of a search that has fetched what it has still to check, one after the other. */
  lemma {:induction false} ChecksAll(s: Store, q: SearchId) returns (states: seq<Store>, commands: seq<Command>)
    requires q in s.queries
    ensures |states| == |commands| + 1 && states[0] == s
    ensures forall k | 0 <= k < |commands| :: Enabled(states[k], commands[k]) && states[k + 1] == Apply(states[k], commands[k])
    ensures var end := states[|commands|];
            && end.keys == s.keys && end.geo == s.geo && end.beats == s.beats && q in end.queries && end.queries[q].fetched == {}
            && end.queries - {q} == s.queries - {q}
            && end.queries[q].dark.Keys == s.queries[q].dark.Keys + (s.queries[q].fetched - s.keys)
    decreases |s.queries[q].fetched|
  {
    var fetched := s.queries[q].fetched;
    if fetched == {} {
      states, commands := [s], [];
    } else {
      var u :| u in fetched;
      var next := Apply(s, Exists(q, u));
      assert next.queries[q].fetched == fetched - {u};
      assert next.queries - {q} == s.queries - {q};
      var rest, more := ChecksAll(next, q);
      states, commands := [s] + rest, [Exists(q, u)] + more;
    }
  }

  /** A search takes just those of the units it found off the index that have no key. */
  lemma SearchSweeps(s: Store, q: SearchId, found: set<UnitId>) returns (states: seq<Store>, commands: seq<Command>)
    requires q !in s.queries && found <= s.geo
    ensures |states| == |commands| + 1 && states[0] == s
    ensures forall k | 0 <= k < |commands| :: Enabled(states[k], commands[k]) && states[k + 1] == Apply(states[k], commands[k])
    ensures var end := states[|commands|];
            end.keys == s.keys && end.geo == s.geo - (found - s.keys) && end.beats == s.beats && end.queries == s.queries
  {
    var searched := Apply(s, GeoSearch(q, found));
    var mid, checks := ChecksAll(searched, q);
    var n := |checks|;
    var swept := Apply(mid[n], ZRem(q));
    assert searched.queries - {q} == s.queries;
    states, commands := [s] + mid + [swept], [GeoSearch(q, found)] + checks + [ZRem(q)];
    forall k | 0 <= k < |commands| ensures Enabled(states[k], commands[k]) && states[k + 1] == Apply(states[k], commands[k]) {
      if 0 < k <= n { assert states[k] == mid[k - 1] && commands[k] == checks[k - 1] && states[k + 1] == mid[k]; }
    }
  }

  /** The race happens: one search, one heartbeat between its check and its eviction. */
  lemma LateHeartbeatIsEvicted() returns (states: seq<Store>, commands: seq<Command>)
    ensures Run(states, commands)
    ensures var s := states[|commands|]; 1 in s.keys && 1 !in s.geo && s.beats == map[]
  {
    commands := [SetKey(0, 1), GeoAdd(0), Expire(1), GeoSearch(0, {1}), Exists(0, 1), SetKey(0, 1), GeoAdd(0), ZRem(0)];
    var none: map<BeatId, UnitId> := map[];
    var s0 := Store(0, {}, {}, map[], map[], map[], map[], {});
    var s1 := s0.(tick := 1, keys := {1}, beats := map[0 := 1], lastSet := map[1 := 1]);
    var s2 := s1.(tick := 2, geo := {1}, beats := none, lastAdd := map[1 := 2]);
    var s3 := s2.(tick := 3, keys := {});
    var s4 := s3.(tick := 4, queries := map[0 := Query({1}, map[])]);
    var s5 := s4.(tick := 5, queries := map[0 := Query({}, map[1 := 5])]);
    var s6 := s5.(tick := 6, keys := {1}, beats := map[0 := 1], lastSet := map[1 := 6]);
    var s7 := s6.(tick := 7, beats := none, lastAdd := map[1 := 7]);
    var s8 := s7.(tick := 8, geo := {}, queries := map[], evictions := {Eviction(1, 5, 8)});
    states := [s0, s1, s2, s3, s4, s5, s6, s7, s8];
    hide Enabled, Apply;
    RaceSets(s0, s1);
    RaceAdds(s1, s2);
    RaceExpires(s2, s3);
    RaceSearches(s3, s4, s5);
    RaceSets(s5, s6);
    RaceAdds(s6, s7);
    RaceEvicts(s7, s8);
  }

  lemma RaceSets(s: Store, s': Store)
    requires s.beats == map[] && s' == s.(tick := s.tick + 1, keys := {1}, beats := map[0 := 1], lastSet := map[1 := s.tick + 1])
    requires s.keys == {} && s.lastSet.Keys <= {1}
    ensures Enabled(s, SetKey(0, 1)) && s' == Apply(s, SetKey(0, 1))
  {
    assert s.keys + {1} == {1};
    assert s.lastSet[1 := s.tick + 1] == map[1 := s.tick + 1];
  }

  lemma RaceAdds(s: Store, s': Store)
    requires s.beats == map[0 := 1] && s' == s.(tick := s.tick + 1, geo := {1}, beats := map[], lastAdd := map[1 := s.tick + 1])
    requires s.geo <= {1} && s.lastAdd.Keys <= {1}
    ensures Enabled(s, GeoAdd(0)) && s' == Apply(s, GeoAdd(0))
  {
    assert s.geo + {1} == {1} && s.beats - {0} == map[];
    assert s.lastAdd[1 := s.tick + 1] == map[1 := s.tick + 1];
  }

  lemma RaceExpires(s: Store, s': Store)
    requires s.keys == {1} && s' == s.(tick := s.tick + 1, keys := {})
    ensures Enabled(s, Expire(1)) && s' == Apply(s, Expire(1))
  {
    assert s.keys - {1} == {};
  }

  lemma RaceSearches(s: Store, found: Store, checked: Store)
    requires s.queries == map[] && s.geo == {1} && s.keys == {} && s.tick == 3
    requires found == s.(tick := 4, queries := map[0 := Query({1}, map[])])
    requires checked == found.(tick := 5, queries := map[0 := Query({}, map[1 := 5])])
    ensures Enabled(s, GeoSearch(0, {1})) && found == Apply(s, GeoSearch(0, {1}))
    ensures Enabled(found, Exists(0, 1)) && checked == Apply(found, Exists(0, 1))
  {
    var q := Query({1}, map[]);
    assert Checked(q, 1, false, 5) == Query({}, map[1 := 5]) by { assert q.fetched - {1} == {}; }
  }

  lemma RaceEvicts(s: Store, s': Store)
    requires s.queries == map[0 := Query({}, map[1 := 5])] && s.geo == {1} && s.tick == 7 && s.evictions == {}
    requires s' == s.(tick := 8, geo := {}, queries := map[], evictions := {Eviction(1, 5, 8)})
    ensures Enabled(s, ZRem(0)) && s' == Apply(s, ZRem(0))
  {
    assert s.queries[0].dark.Keys == {1};
    assert s.geo - {1} == {} && s.queries - {0} == map[];
    assert s.evictions + Evictions(s.queries[0], 8) == {Eviction(1, 5, 8)};
  }
}
