/**
 Live positions: presence keys that expire, and a spatial index whose members do not.
 Searches filter the index by the keys and evict the dark members they come across.
 */
module LiveIndex {
  import opened MapSums

  type UnitId = nat

  datatype Point = Point(lat: real, lng: real)

  type Metric = (Point, Point) -> real

  datatype NearbyUnit = NearbyUnit(unit: UnitId, at: Point, distance: real)

  const TTL := 30.0

  function Dist(geo: map<UnitId, Point>, dist: Metric, from: Point, u: UnitId): real {
    if u in geo then dist(from, geo[u]) else 0.0
  }

  /** What GEOSEARCH ... ASC lists without a count: the members within the radius, nearest first. */
  ghost predicate NearestFirst(geo: map<UnitId, Point>, dist: Metric, from: Point, radius: real, order: seq<UnitId>) {
    && (forall u :: u in order <==> u in geo && Dist(geo, dist, from, u) <= radius)
    && (forall i, j | 0 <= i < j < |order| :: order[i] != order[j] && Dist(geo, dist, from, order[i]) <= Dist(geo, dist, from, order[j]))
  }

  function LiveOf(order: seq<UnitId>, live: set<UnitId>): seq<UnitId> {
    if order == [] then []
    else LiveOf(order[..|order| - 1], live) + if order[|order| - 1] in live then [order[|order| - 1]] else []
  }

  function DarkOf(order: seq<UnitId>, live: set<UnitId>): set<UnitId> { set u | u in order && u !in live }

  function Fetched(order: seq<UnitId>, limit: nat): seq<UnitId> {
    if |order| <= 2 * limit then order else order[..2 * limit]
  }

  function First(s: seq<UnitId>, limit: nat): seq<UnitId> { if |s| <= limit then s else s[..limit] }

  function Min(a: nat, b: nat): nat { if a < b then a else b }

  lemma {:induction false} LiveOfPrefix(order: seq<UnitId>, k: nat, live: set<UnitId>)
    requires k <= |order|
    ensures LiveOf(order[..k], live) <= LiveOf(order, live)
    decreases |order|
  {
    if k < |order| {
      var n := |order| - 1;
      assert order[..n][..k] == order[..k];
      LiveOfPrefix(order[..n], k, live);
    } else {
      assert order[..k] == order;
    }
  }

  lemma {:induction false} LiveOfIsLive(order: seq<UnitId>, live: set<UnitId>)
    ensures forall u :: u in LiveOf(order, live) <==> u in order && u in live
  {
    if order != [] {
      var n := |order| - 1;
      LiveOfIsLive(order[..n], live);
      assert order == order[..n] + [order[n]];
    }
  }

  predicate Distinct(order: seq<UnitId>) { forall i, j | 0 <= i < j < |order| :: order[i] != order[j] }

  lemma {:induction false} LiveAndDark(order: seq<UnitId>, live: set<UnitId>)
    requires Distinct(order)
    ensures |LiveOf(order, live)| + |DarkOf(order, live)| == |order|
  {
    if order == [] {
      assert DarkOf(order, live) == {};
    } else {
      var n := |order| - 1;
      var u, rest := order[n], order[..n];
      LiveAndDark(rest, live);
      assert order == rest + [u];
      assert u !in rest;
      assert DarkOf(order, live) == if u in live then DarkOf(rest, live) else DarkOf(rest, live) + {u};
    }
  }

  /** Fewer units than asked for and than there are: then more than `limit` of the fetched members were dark. */
  lemma ShortMeansManyDark(order: seq<UnitId>, live: set<UnitId>, limit: nat)
    requires Distinct(order)
    ensures var found := First(LiveOf(Fetched(order, limit), live), limit);
            && found <= LiveOf(order, live)
            && (|found| < Min(limit, |LiveOf(order, live)|) ==> |DarkOf(Fetched(order, limit), live)| > limit)
  {
    var got := Fetched(order, limit);
    LiveOfPrefix(order, |got|, live);
    assert got == order[..|got|];
    LiveAndDark(got, live);
  }

  lemma NothingSifted(locs: seq<UnitId>, live: set<UnitId>)
    ensures LiveOf(locs[..0], live) == [] && DarkOf(locs[..0], live) == {}
  {
  }

  lemma SiftNext(locs: seq<UnitId>, i: nat, live: set<UnitId>)
    requires i < |locs|
    ensures LiveOf(locs[..i + 1], live) == LiveOf(locs[..i], live) + if locs[i] in live then [locs[i]] else []
    ensures DarkOf(locs[..i + 1], live) == DarkOf(locs[..i], live) + if locs[i] in live then {} else {locs[i]}
  {
    assert locs[..i + 1] == locs[..i] + [locs[i]] && locs[..i + 1][..i] == locs[..i];
  }

  // --- A search's answer, told from the index and the keys ---

  predicate Alive(expires: map<UnitId, real>, now: real, u: UnitId) { u in expires && now < expires[u] }

  /** The answer: live units within the radius, nearest first, at most `limit`; no live one of the first 2 * limit on the index is nearer. */
  ghost predicate NearestAlive(geo: map<UnitId, Point>, expires: map<UnitId, real>, now: real, dist: Metric, from: Point, radius: real,
                               order: seq<UnitId>, limit: nat, found: seq<NearbyUnit>)
  {
    && |found| <= limit
    && (forall n | n in found ::
          && n.unit in expires && now < expires[n.unit] && n.unit in geo
          && n.at == geo[n.unit] && n.distance == dist(from, geo[n.unit]) <= radius)
    && (forall i, j | 0 <= i < j < |found| :: found[i].unit != found[j].unit && found[i].distance <= found[j].distance)
    && (forall k | 0 <= k < |order| && k < 2 * limit && Alive(expires, now, order[k]) && order[k] in geo ::
          FoundOrFarther(found, limit, order[k], dist(from, geo[order[k]])))
  }

  /** In the answer, or no nearer than any of a full answer. */
  ghost predicate FoundOrFarther(found: seq<NearbyUnit>, limit: nat, u: UnitId, distance: real) {
    (exists n | n in found :: n.unit == u) || (|found| == limit && forall n | n in found :: n.distance <= distance)
  }

  /** Among the first 2 * limit on the index and without a living key. */
  ghost predicate FoundDark(expires: map<UnitId, real>, now: real, order: seq<UnitId>, limit: nat, u: UnitId) {
    !(u in expires && now < expires[u]) && exists k | 0 <= k < |order| :: k < 2 * limit && order[k] == u
  }

  ghost predicate Rising(geo: map<UnitId, Point>, dist: Metric, from: Point, s: seq<UnitId>) {
    forall i, j | 0 <= i < j < |s| :: s[i] != s[j] && Dist(geo, dist, from, s[i]) <= Dist(geo, dist, from, s[j])
  }

  lemma {:induction false} LiveOfRises(geo: map<UnitId, Point>, dist: Metric, from: Point, order: seq<UnitId>, live: set<UnitId>)
    requires Rising(geo, dist, from, order)
    ensures Rising(geo, dist, from, LiveOf(order, live))
  {
    if order != [] {
      var n := |order| - 1;
      LiveOfRises(geo, dist, from, order[..n], live);
      LiveOfIsLive(order[..n], live);
      var rest, all := LiveOf(order[..n], live), LiveOf(order, live);
      forall i, j | 0 <= i < j < |all|
        ensures all[i] != all[j] && Dist(geo, dist, from, all[i]) <= Dist(geo, dist, from, all[j])
      {
        if j == |rest| { assert all[i] in rest; }
      }
    }
  }

  /** The answer's i-th unit is the i-th live one of those fetched. */
  ghost predicate AnswerOf(geo: map<UnitId, Point>, dist: Metric, from: Point, all: seq<UnitId>, limit: nat, found: seq<NearbyUnit>) {
    && |found| == Min(limit, |all|)
    && forall i | 0 <= i < |found| :: found[i].unit == all[i] && all[i] in geo && found[i] == NearbyUnit(all[i], geo[all[i]], dist(from, geo[all[i]]))
  }

  lemma FoundAnswers(geo: map<UnitId, Point>, dist: Metric, from: Point, all: seq<UnitId>, limit: nat, found: seq<NearbyUnit>)
    requires Ids(found) == First(all, limit)
    requires forall n | n in found :: n.unit in geo && n == NearbyUnit(n.unit, geo[n.unit], dist(from, geo[n.unit]))
    ensures AnswerOf(geo, dist, from, all, limit, found)
  {
    forall i | 0 <= i < |found| ensures found[i].unit == all[i] { assert Ids(found)[i] == all[i]; }
  }

  lemma AnswerReaches(geo: map<UnitId, Point>, dist: Metric, from: Point, all: seq<UnitId>, limit: nat, found: seq<NearbyUnit>, u: UnitId)
    requires AnswerOf(geo, dist, from, all, limit, found) && Rising(geo, dist, from, all) && u in all && u in geo
    ensures FoundOrFarther(found, limit, u, dist(from, geo[u]))
  {
    var m :| 0 <= m < |all| && all[m] == u;
    if m < |found| { assert found[m] in found && found[m].unit == u; }
  }

  lemma AnswerIsAlive(geo: map<UnitId, Point>, expires: map<UnitId, real>, now: real, dist: Metric, from: Point, radius: real,
                      all: seq<UnitId>, limit: nat, found: seq<NearbyUnit>)
    requires AnswerOf(geo, dist, from, all, limit, found) && Rising(geo, dist, from, all)
    requires forall u | u in all :: u in geo && Dist(geo, dist, from, u) <= radius && Alive(expires, now, u)
    ensures |found| <= limit
    ensures forall n | n in found ::
              && n.unit in expires && now < expires[n.unit] && n.unit in geo
              && n.at == geo[n.unit] && n.distance == dist(from, geo[n.unit]) <= radius
    ensures forall i, j | 0 <= i < j < |found| :: found[i].unit != found[j].unit && found[i].distance <= found[j].distance
  {
    forall i | 0 <= i < |found| ensures Alive(expires, now, found[i].unit) && Dist(geo, dist, from, found[i].unit) <= radius {
      assert all[i] in all;
    }
  }

  /** The live ones of those fetched: still nearest first, within the radius, and all of them. */
  lemma ListOfLive(geo: map<UnitId, Point>, expires: map<UnitId, real>, now: real, dist: Metric, from: Point, radius: real,
                   order: seq<UnitId>, limit: nat, live: set<UnitId>)
    requires NearestFirst(geo, dist, from, radius, order) && forall u :: u in live <==> Alive(expires, now, u)
    ensures var all := LiveOf(Fetched(order, limit), live);
            && Rising(geo, dist, from, all)
            && (forall u | u in all :: u in geo && Dist(geo, dist, from, u) <= radius && Alive(expires, now, u))
            && (forall k | 0 <= k < |order| && k < 2 * limit && Alive(expires, now, order[k]) :: order[k] in all)
  {
    var got := Fetched(order, limit);
    LiveOfRises(geo, dist, from, got, live);
    LiveOfIsLive(got, live);
    hide LiveOf, Rising;
    forall k | 0 <= k < |order| && k < 2 * limit ensures order[k] in got { assert got[k] == order[k]; }
    forall u | u in got ensures u in order {}
  }

  lemma FoundAreNearest(geo: map<UnitId, Point>, expires: map<UnitId, real>, now: real, dist: Metric, from: Point, radius: real,
                        order: seq<UnitId>, limit: nat, live: set<UnitId>, found: seq<NearbyUnit>)
    requires NearestFirst(geo, dist, from, radius, order) && forall u :: u in live <==> Alive(expires, now, u)
    requires Ids(found) == First(LiveOf(Fetched(order, limit), live), limit)
    requires forall n | n in found :: n.unit in geo && n == NearbyUnit(n.unit, geo[n.unit], dist(from, geo[n.unit]))
    ensures NearestAlive(geo, expires, now, dist, from, radius, order, limit, found)
  {
    var all := LiveOf(Fetched(order, limit), live);
    ListOfLive(geo, expires, now, dist, from, radius, order, limit, live);
    FoundAnswers(geo, dist, from, all, limit, found);
    hide LiveOf, First, Ids, AnswerOf, Rising, NearestFirst, Fetched, FoundOrFarther;
    AnswerIsAlive(geo, expires, now, dist, from, radius, all, limit, found);
    forall k | 0 <= k < |order| && k < 2 * limit && Alive(expires, now, order[k]) && order[k] in geo
      ensures FoundOrFarther(found, limit, order[k], dist(from, geo[order[k]]))
    {
      AnswerReaches(geo, dist, from, all, limit, found, order[k]);
    }
  }

  lemma DarkAreFetched(expires: map<UnitId, real>, now: real, order: seq<UnitId>, limit: nat, live: set<UnitId>)
    requires forall u :: u in live <==> Alive(expires, now, u)
    ensures forall u :: u in DarkOf(Fetched(order, limit), live) <==> FoundDark(expires, now, order, limit, u)
  {
    var got := Fetched(order, limit);
    forall u ensures u in DarkOf(got, live) <==> FoundDark(expires, now, order, limit, u) {
      if u in DarkOf(got, live) {
        var k :| 0 <= k < |got| && got[k] == u;
        assert order[k] == u && k < 2 * limit;
      }
      if FoundDark(expires, now, order, limit, u) {
        var k :| 0 <= k < |order| && k < 2 * limit && order[k] == u;
        assert got[k] == u;
      }
    }
  }

  // --- The service ---

  class Service {
    var geo: map<UnitId, Point>
    var expires: map<UnitId, real>
    var now: real

    constructor (now: real)
      ensures geo == map[] && expires == map[] && this.now == now
    {
      geo, expires, this.now := map[], map[], now;
    }

    /** The units whose presence key has not expired. */
    function Live(): set<UnitId>
      reads `expires, `now
    {
      set u | u in expires && now < expires[u]
    }

    /** Alive, at this position, for another TTL; the index entry never expires. */
    method Heartbeat(u: UnitId, at: Point)
      modifies `geo, `expires
      ensures Live() == old(Live()) + {u} && geo == old(geo)[u := at]
      ensures expires == old(expires)[u := now + 30.0]
    {
      expires := expires[u := now + TTL];
      geo := geo[u := at];
    }

    method FilterPresent(ids: seq<UnitId>) returns (present: map<UnitId, bool>)
      ensures forall u | u in ids :: u in present && present[u] == (u in expires && now < expires[u])
    {
      present := map[];
      for i := 0 to |ids|
        invariant forall u | u in ids[..i] :: u in present && present[u] == (u in Live())
      {
        var alive := ids[i] in expires && now < expires[ids[i]];
        present := present[ids[i] := alive];
      }
    }

    /** The loop over the fetched members: the first `limit` live ones, and every dark one. */
    method Sift(locs: seq<UnitId>, present: map<UnitId, bool>, dist: Metric, from: Point, limit: nat)
      returns (found: seq<NearbyUnit>, stale: set<UnitId>)
      requires forall u | u in locs :: u in present && u in geo && present[u] == (u in Live())
      ensures stale == DarkOf(locs, Live())
      ensures Ids(found) == First(LiveOf(locs, Live()), limit)
      ensures forall n | n in found :: n.unit in geo && n == NearbyUnit(n.unit, geo[n.unit], dist(from, geo[n.unit]))
    {
      hide LiveOf, DarkOf, Live;
      found, stale := [], {};
      NothingSifted(locs, Live());
      for i := 0 to |locs|
        invariant stale == DarkOf(locs[..i], Live())
        invariant Ids(found) == First(LiveOf(locs[..i], Live()), limit)
        invariant forall n | n in found :: n.unit in geo && n == NearbyUnit(n.unit, geo[n.unit], dist(from, geo[n.unit]))
      {
        var u := locs[i];
        SiftNext(locs, i, Live());
        if !present[u] {
          stale := stale + {u};
        } else if |found| < limit {
          found := found + [NearbyUnit(u, geo[u], dist(from, geo[u]))];
        }
      }
      assert locs[..|locs|] == locs;
    }

    /**
     `order` is what the index holds for this search; Redis is asked for twice the limit. The answer is the nearest
     live ones of those, nearest first, and every dark one among them is evicted.
     */
    method NearbyLive(dist: Metric, from: Point, radius: real, wanted: int, order: seq<UnitId>) returns (found: seq<NearbyUnit>)
      requires NearestFirst(geo, dist, from, radius, order)
      modifies `geo
      ensures var limit := if wanted <= 0 then 5 else wanted;
              && Ids(found) == First(LiveOf(Fetched(order, limit), Live()), limit)
              && Ids(found) <= LiveOf(order, Live())
              && geo == old(geo) - DarkOf(Fetched(order, limit), Live())
              && (|found| < Min(limit, |LiveOf(order, Live())|) ==> |DarkOf(Fetched(order, limit), Live())| > limit)
      ensures forall n | n in found :: n.unit in geo && n == NearbyUnit(n.unit, geo[n.unit], dist(from, geo[n.unit]))
      ensures NearestAlive(old(geo), expires, now, dist, from, radius, order, if wanted <= 0 then 5 else wanted, found)
      ensures forall u | u in old(geo) ::
                u !in geo <==> FoundDark(expires, now, order, if wanted <= 0 then 5 else wanted, u)
    {
      hide LiveOf, First, Ids, DarkOf, NearestAlive, FoundDark;
      var limit := if wanted <= 0 then 5 else wanted;
      var locs := Fetched(order, limit);
      assert forall u | u in locs :: u in order;
      var present := FilterPresent(locs);
      var stale;
      found, stale := Sift(locs, present, dist, from, limit);
      ShortMeansManyDark(order, Live(), limit);
      FoundAreLive(found, locs, Live(), limit);
      FoundAreNearest(geo, expires, now, dist, from, radius, order, limit, Live(), found);
      geo := geo - stale;
      DarkAreFetched(expires, now, order, limit, Live());
    }
  }

  function Ids(found: seq<NearbyUnit>): (r: seq<UnitId>)
    ensures |r| == |found| && forall i | 0 <= i < |r| :: r[i] == found[i].unit
  {
    if found == [] then [] else Ids(found[..|found| - 1]) + [found[|found| - 1].unit]
  }

  lemma FoundAreLive(found: seq<NearbyUnit>, locs: seq<UnitId>, live: set<UnitId>, limit: nat)
    requires Ids(found) == First(LiveOf(locs, live), limit)
    ensures forall n | n in found :: n.unit !in DarkOf(locs, live)
  {
    LiveOfIsLive(locs, live);
    forall n | n in found ensures n.unit in live {
      var i :| 0 <= i < |found| && found[i] == n;
      assert Ids(found)[i] == n.unit;
    }
  }

  // --- Convergence ---

  /** One search: its nearest-first list and its limit. */
  datatype Search = Search(order: seq<UnitId>, limit: nat)

  function Answer(s: Search, live: set<UnitId>): seq<UnitId> { First(LiveOf(Fetched(s.order, s.limit), live), s.limit) }

  predicate Short(s: Search, live: set<UnitId>) { |Answer(s, live)| < Min(s.limit, |LiveOf(s.order, live)|) }

  /** A search that is not short is exact: its answer is what the whole nearest-first list would have given. */
  lemma NotShortIsExact(s: Search, live: set<UnitId>)
    requires Distinct(s.order)
    ensures !Short(s, live) <==> Answer(s, live) == First(LiveOf(s.order, live), s.limit)
  {
    ShortMeansManyDark(s.order, live, s.limit);
  }

  function Evicted(members: set<UnitId>, s: Search, live: set<UnitId>): set<UnitId> {
    members - DarkOf(Fetched(s.order, s.limit), live)
  }

  ghost predicate Searches(members: seq<set<UnitId>>, searches: seq<Search>, live: set<UnitId>) {
    && |members| == |searches| + 1
    && forall k | 0 <= k < |searches| ::
         && Distinct(searches[k].order) && (forall u | u in searches[k].order :: u in members[k])
         && members[k + 1] == Evicted(members[k], searches[k], live)
  }

  function ShortCount(searches: seq<Search>, live: set<UnitId>, n: nat): nat
    requires n <= |searches|
  {
    if n == 0 then 0 else ShortCount(searches, live, n - 1) + if Short(searches[n - 1], live) then 1 else 0
  }

  lemma Shrinks(all: set<UnitId>, part: set<UnitId>)
    requires part <= all
    ensures |all - part| + |part| == |all|
  {
    assert (all - part) + part == all;
    assert (all - part) * part == {};
  }

  /** No search costs the index a live unit; a short one costs it more than its limit of dark members. */
  lemma SearchEvictsDark(members: set<UnitId>, s: Search, live: set<UnitId>)
    requires Distinct(s.order) && forall u | u in s.order :: u in members
    ensures Evicted(members, s, live) * live == members * live
    ensures |Evicted(members, s, live) - live| + (if Short(s, live) then s.limit + 1 else 0) <= |members - live|
  {
    var dark := DarkOf(Fetched(s.order, s.limit), live);
    ShortMeansManyDark(s.order, live, s.limit);
    assert dark <= members - live;
    assert (members - dark) - live == (members - live) - dark;
    Shrinks(members - live, dark);
  }

  /**
   While no key expires and none is written, searches never evict a live unit, and of any number of them only
   finitely many can come back short: each of those costs the index more than its limit of dark members.
   */
  lemma {:induction false} SearchesConverge(members: seq<set<UnitId>>, searches: seq<Search>, live: set<UnitId>, least: nat, n: nat)
    requires Searches(members, searches, live) && n <= |searches|
    requires forall k | 0 <= k < |searches| :: searches[k].limit >= least
    ensures members[n] * live == members[0] * live
    ensures (least + 1) * ShortCount(searches, live, n) + |members[n] - live| <= |members[0] - live|
  {
    hide Short, Evicted, Distinct;
    if n > 0 {
      SearchesConverge(members, searches, live, least, n - 1);
      SearchEvictsDark(members[n - 1], searches[n - 1], live);
      MulStep(least + 1, ShortCount(searches, live, n - 1));
    }
  }
}
