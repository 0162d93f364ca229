/** The candidate list: live units hydrated from the registry, scored, and sorted stably by score. */
module Ranking {
  import opened Results
  import opened LiveIndex
  import opened Scoring

  // --- The stable sort, on positions ---

  /** Higher score first, and among equals the earlier position. */
  predicate Precedes(scores: seq<real>, i: nat, j: nat)
    requires i < |scores| && j < |scores|
  {
    scores[i] > scores[j] || (scores[i] == scores[j] && i < j)
  }

  predicate Sorted(scores: seq<real>, order: seq<nat>)
    requires Within(order, |scores|)
  {
    forall a, b | 0 <= a < b < |order| :: Precedes(scores, order[a], order[b])
  }

  predicate Within(order: seq<nat>, n: nat) { forall a | 0 <= a < |order| :: order[a] < n }

  function Insert(scores: seq<real>, order: seq<nat>, x: nat): (r: seq<nat>)
    requires x < |scores| && Within(order, |scores|)
    ensures |r| == |order| + 1 && (forall y :: y in r <==> y in order || y == x)
    ensures forall m | x < m && Within(order, m) :: Within(r, m)
  {
    if order == [] then [x]
    else
      var last := order[|order| - 1];
      assert forall m | Within(order, m) :: Within(order[..|order| - 1], m) && last < m;
      if Precedes(scores, x, last) then Insert(scores, order[..|order| - 1], x) + [last] else order + [x]
  }

  /** The positions 0..n-1 in the order a stable sort by descending score leaves them. */
  function Order(scores: seq<real>, n: nat): (r: seq<nat>)
    requires n <= |scores|
    ensures |r| == n && Within(r, n) && forall y: nat | y < n :: y in r
  {
    if n == 0 then [] else Insert(scores, Order(scores, n - 1), n - 1)
  }

  lemma {:induction false} InsertSorted(scores: seq<real>, order: seq<nat>, x: nat)
    requires x < |scores| && x !in order && Within(order, |scores|) && Sorted(scores, order)
    ensures Within(Insert(scores, order, x), |scores|) && Sorted(scores, Insert(scores, order, x))
  {
    var r := Insert(scores, order, x);
    if order != [] {
      var n := |order| - 1;
      if Precedes(scores, x, order[n]) {
        InsertSorted(scores, order[..n], x);
        forall a, b | 0 <= a < b < |r| ensures Precedes(scores, r[a], r[b]) {
          if b == n + 1 { assert r[a] in Insert(scores, order[..n], x); }
        }
      }
    }
  }

  lemma {:induction false} OrderSorted(scores: seq<real>, n: nat)
    requires n <= |scores|
    ensures Within(Order(scores, n), |scores|) && Sorted(scores, Order(scores, n))
  {
    if n > 0 {
      OrderSorted(scores, n - 1);
      InsertSorted(scores, Order(scores, n - 1), n - 1);
    }
  }

  // --- What ranking does to the incoming order ---

  predicate NearestFirst(units: seq<Responder>) {
    && (forall i | 0 <= i < |units| :: units[i].distance >= 0.0)
    && forall i, j | 0 <= i < j < |units| :: units[i].distance <= units[j].distance
  }

  function Scores(units: seq<Responder>, need: Need): (r: seq<real>)
    ensures |r| == |units| && forall i | 0 <= i < |r| :: r[i] == Score(units[i], need)
  {
    seq(|units|, i requires 0 <= i < |units| => Score(units[i], need))
  }

  function Arranged(units: seq<Responder>, order: seq<nat>): (r: seq<Responder>)
    requires |order| == |units| && Within(order, |units|)
    ensures |r| == |units|
  {
    seq(|units|, a requires 0 <= a < |units| => units[order[a]])
  }

  /** The ranked list: unit units[order[a]] comes a-th. */
  function Ranked(units: seq<Responder>, need: Need): (r: seq<Responder>)
    ensures |r| == |units|
  {
    Arranged(units, Order(Scores(units, need), |units|))
  }

  /** Positions in the ranked list and where they came from: a permutation. */
  lemma RankedIsPermutation(units: seq<Responder>, need: Need)
    ensures var order := Order(Scores(units, need), |units|);
            && (forall a | 0 <= a < |units| :: order[a] < |units| && Ranked(units, need)[a] == units[order[a]])
            && (forall a, b | 0 <= a < b < |units| :: order[a] != order[b])
            && (forall i: nat | i < |units| :: i in order)
  {
    OrderSorted(Scores(units, need), |units|);
  }

  /**
   For candidates that come nearest-first, the answer is in descending score within [0, 1], ties in the incoming
   order, and units of one type are still nearest-first among themselves.
   */
  lemma RankingPreservesNearness(units: seq<Responder>, need: Need, a: nat, b: nat)
    requires NearestFirst(units) && a < b < |units|
    ensures var r := Ranked(units, need);
            && 0.0 <= Score(r[b], need) <= Score(r[a], need) <= 1.0
            && (Score(r[a], need) == Score(r[b], need) ==> Order(Scores(units, need), |units|)[a] < Order(Scores(units, need), |units|)[b])
            && (r[a].kind == r[b].kind ==> r[a].distance <= r[b].distance)
  {
    hide Score, Insert;
    var scores := Scores(units, need);
    var order, r := Order(scores, |units|), Ranked(units, need);
    OrderSorted(scores, |units|);
    assert order[a] < |units| && order[b] < |units| && Precedes(scores, order[a], order[b]);
    ScoreInRange(r[a], need);
    ScoreInRange(r[b], need);
    if r[a].kind == r[b].kind && r[a].distance > r[b].distance {
      NearerScoresNoLess(r[b], r[a], need);
      assert false;
    }
  }

  /** Which of two comes first when only one is of the required type t: the other only if its clipped lead makes up for the skill. */
  predicate LeadDecides(first: Responder, second: Responder, need: Need, t: UnitType) {
    var w := WeightsFor(need.severity);
    if second.kind == t then w.time * (Clipped(second) - Clipped(first)) >= 630.0 * w.skill
    else w.time * (Clipped(first) - Clipped(second)) <= 630.0 * w.skill
  }

  lemma HigherScoreLeads(first: Responder, second: Responder, need: Need, t: UnitType)
    requires need.required == Some(t) && (first.kind == t) != (second.kind == t) && first.distance >= 0.0 && second.distance >= 0.0
    requires Score(first, need) >= Score(second, need)
    ensures LeadDecides(first, second, need, t)
  {
    hide Score, Clipped, WeightsFor;
    if second.kind == t { MismatchWinsIff(first, second, need, t); } else { MismatchWinsIff(second, first, need, t); }
  }

  /** One of the required type is preceded by one of another only if that one's clipped lead makes up for the skill, and by none that makes up for less. */
  ghost predicate RequiredTypeFirst(ranked: seq<Responder>, need: Need) {
    forall a, b, t | 0 <= a < b < |ranked| && need.required == Some(t) && (ranked[a].kind == t) != (ranked[b].kind == t) ::
      LeadDecides(ranked[a], ranked[b], need, t)
  }

  lemma RankedPutsRequiredTypeFirst(units: seq<Responder>, need: Need)
    requires NearestFirst(units)
    ensures RequiredTypeFirst(Ranked(units, need), need)
  {
    hide Score, LeadDecides, Ranked;
    var r := Ranked(units, need);
    forall a, b, t | 0 <= a < b < |r| && need.required == Some(t) && (r[a].kind == t) != (r[b].kind == t)
      ensures LeadDecides(r[a], r[b], need, t)
    {
      RankingPreservesNearness(units, need, a, b);
      RankedAreCandidates(units, need, a);
      RankedAreCandidates(units, need, b);
      HigherScoreLeads(r[a], r[b], need, t);
    }
  }

  lemma RankedAreCandidates(units: seq<Responder>, need: Need, a: nat)
    requires NearestFirst(units) && a < |units|
    ensures Ranked(units, need)[a] in units && Ranked(units, need)[a].distance >= 0.0
  {
    hide Score;
    RankedIsPermutation(units, need);
  }

  // --- The live path ---

  /** The available live units, nearest first, at their live distance. */
  function Usable(nearby: seq<NearbyUnit>, rows: map<UnitId, UnitType>): seq<Responder> {
    if nearby == [] then []
    else
      var n := nearby[|nearby| - 1];
      Usable(nearby[..|nearby| - 1], rows) + if n.unit in rows then [Responder(n.unit, rows[n.unit], n.distance)] else []
  }

  function Take(units: seq<Responder>, limit: nat): seq<Responder> { if |units| <= limit then units else units[..limit] }

  predicate DistancesSorted(nearby: seq<NearbyUnit>) {
    && (forall i | 0 <= i < |nearby| :: nearby[i].distance >= 0.0)
    && forall i, j | 0 <= i < j < |nearby| :: nearby[i].distance <= nearby[j].distance
  }

  lemma {:induction false} UsableStaysNearestFirst(nearby: seq<NearbyUnit>, rows: map<UnitId, UnitType>)
    requires DistancesSorted(nearby)
    ensures NearestFirst(Usable(nearby, rows))
    ensures forall u | u in Usable(nearby, rows) :: u.distance <= nearby[|nearby| - 1].distance
  {
    if nearby != [] {
      UsableStaysNearestFirst(nearby[..|nearby| - 1], rows);
    }
  }

  lemma {:induction false} UsableOfPrefix(nearby: seq<NearbyUnit>, rows: map<UnitId, UnitType>, k: nat)
    requires k <= |nearby|
    ensures Usable(nearby[..k], rows) <= Usable(nearby, rows)
    decreases |nearby|
  {
    if k < |nearby| {
      var n := |nearby| - 1;
      assert nearby[..n][..k] == nearby[..k];
      UsableOfPrefix(nearby[..n], rows, k);
    } else {
      assert nearby[..k] == nearby;
    }
  }

  predicate IsHit(u: Responder, n: NearbyUnit, rows: map<UnitId, UnitType>) {
    u.id == n.unit && u.distance == n.distance && n.unit in rows && u.kind == rows[n.unit]
  }

  /** Just the available ones of the first `k` hits; the walk ends there because it has enough, or no more are left. */
  ghost predicate WalkedTo(nearby: seq<NearbyUnit>, rows: map<UnitId, UnitType>, limit: nat, units: seq<Responder>, k: nat) {
    && k <= |nearby| && |units| <= limit && (k < |nearby| ==> |units| == limit)
    && (forall u | u in units :: exists j | 0 <= j < k :: IsHit(u, nearby[j], rows))
    && (forall j | 0 <= j < k && nearby[j].unit in rows :: exists u | u in units :: IsHit(u, nearby[j], rows))
  }

  lemma {:induction false} UsableAreHits(nearby: seq<NearbyUnit>, rows: map<UnitId, UnitType>, k: nat)
    requires k <= |nearby|
    ensures forall u | u in Usable(nearby[..k], rows) :: exists j | 0 <= j < k :: IsHit(u, nearby[j], rows)
    ensures forall j | 0 <= j < k && nearby[j].unit in rows :: exists u | u in Usable(nearby[..k], rows) :: IsHit(u, nearby[j], rows)
  {
    if k > 0 {
      UsableAreHits(nearby, rows, k - 1);
      assert nearby[..k][..k - 1] == nearby[..k - 1];
      var n, before := nearby[k - 1], Usable(nearby[..k - 1], rows);
      var all := Usable(nearby[..k], rows);
      assert all == before + if n.unit in rows then [Responder(n.unit, rows[n.unit], n.distance)] else [];
      forall j | 0 <= j < k && nearby[j].unit in rows ensures exists u | u in all :: IsHit(u, nearby[j], rows) {
        if j < k - 1 {
          var u :| u in before && IsHit(u, nearby[j], rows);
          assert u in all;
        } else {
          assert IsHit(all[|all| - 1], n, rows) && all[|all| - 1] in all;
        }
      }
    }
  }

  /** Walks the live hits in their order and stops at the limit; unavailable units have no row. */
  method HydrateLive(nearby: seq<NearbyUnit>, rows: map<UnitId, UnitType>, limit: nat) returns (units: seq<Responder>, ok: bool)
    requires limit > 0
    ensures units == Take(Usable(nearby, rows), limit) && ok == (units != [])
    ensures exists k :: WalkedTo(nearby, rows, limit, units, k)
  {
    units := [];
    var i := 0;
    while i < |nearby| && |units| < limit
      invariant i <= |nearby| && |units| <= limit && units == Usable(nearby[..i], rows)
    {
      var n := nearby[i];
      assert nearby[..i + 1][..i] == nearby[..i];
      if n.unit in rows { units := units + [Responder(n.unit, rows[n.unit], n.distance)]; }
      i := i + 1;
    }
    UsableOfPrefix(nearby, rows, i);
    UsableAreHits(nearby, rows, i);
    assert WalkedTo(nearby, rows, limit, units, i);
    assert i == |nearby| ==> nearby[..i] == nearby;
    ok := |units| > 0;
  }

  datatype Source = FromLive | FromRegistry

  /** Scores the units one by one, then sorts. */
  method RankUnits(units: seq<Responder>, need: Need) returns (ranked: seq<Responder>)
    ensures ranked == Ranked(units, need)
  {
    hide Score, Order;
    var scores: seq<real> := [];
    for i := 0 to |units|
      invariant scores == Scores(units, need)[..i]
    {
      scores := scores + [Score(units[i], need)];
    }
    assert scores == Scores(units, need);
    ranked := Arranged(units, Order(scores, |scores|));
  }

  /**
   Live candidates when there are any, else the registry's; scored one by one, then sorted.
   `nearby` is what the live search answered, nothing if it failed.
   */
  method Candidates(nearby: Option<seq<NearbyUnit>>, rows: map<UnitId, UnitType>, registry: seq<Responder>, need: Need, wanted: int)
    returns (ranked: seq<Responder>, source: Source)
    requires nearby.Some? ==> DistancesSorted(nearby.value)
    requires NearestFirst(registry)
    ensures var limit := if wanted <= 0 || wanted > 50 then 5 else wanted;
            var live := if nearby.Some? then Take(Usable(nearby.value, rows), limit) else [];
            && (source == FromLive <==> live != [])
            && ranked == Ranked(if live != [] then live else registry, need)
            && NearestFirst(live)
    ensures forall a, b | 0 <= a < b < |ranked| :: ranked[a].kind == ranked[b].kind ==> ranked[a].distance <= ranked[b].distance
    ensures forall a, b | 0 <= a < b < |ranked| :: Score(ranked[a], need) >= Score(ranked[b], need)
    ensures RequiredTypeFirst(ranked, need)
  {
    var limit := if wanted <= 0 || wanted > 50 then 5 else wanted;
    var units: seq<Responder> := [];
    var ok := false;
    if nearby.Some? {
      units, ok := HydrateLive(nearby.value, rows, limit);
      UsableStaysNearestFirst(nearby.value, rows);
    }
    source := if ok then FromLive else FromRegistry;
    if !ok { units := registry; }
    ranked := RankUnits(units, need);
    hide Ranked, Score, Usable;
    RankedPutsRequiredTypeFirst(units, need);
    hide RequiredTypeFirst;
    forall a, b | 0 <= a < b < |ranked|
      ensures (ranked[a].kind == ranked[b].kind ==> ranked[a].distance <= ranked[b].distance)
              && Score(ranked[a], need) >= Score(ranked[b], need)
    {
      RankingPreservesNearness(units, need, a, b);
    }
  }
}
