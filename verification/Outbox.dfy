/**
 The transactional outbox and its relay: claim what is due, publish, then record.
 A failed publish is an outcome on its own row (retry later, or dead after five),
 never an error of the batch.
 */
module Outbox {
  import opened Results
  import opened MapSums

  type EventId = nat
  type AggregateId = nat

  /** `firstFailure` is bookkeeping for the timing claims; every other field is a column. */
  datatype Row = Row(aggregate: AggregateId, published: Option<int>, attempts: nat, nextAt: int, dead: Option<int>, firstFailure: Option<int>)

  const MAX_PUBLISH_ATTEMPTS: nat := 5
  const MAX_BACKOFF_SECONDS := 300

  function NewRow(aggregate: AggregateId, now: int): Row { Row(aggregate, None, 0, now, None, None) }

  predicate Pending(r: Row) { r.published.None? && r.dead.None? }

  predicate Due(r: Row, now: int) { Pending(r) && r.nextAt <= now }

  // --- The retry ladder ---

  function Pow2(n: nat): nat { if n == 0 then 1 else 2 * Pow2(n - 1) }

  /** 1 << attempt, guarded and capped as the relay computes it. */
  function BackoffSeconds(attempt: int): (b: int) {
    var a := if attempt < 1 then 1 else attempt;
    if a > 30 then MAX_BACKOFF_SECONDS
    else if Pow2(a) < MAX_BACKOFF_SECONDS then Pow2(a) else MAX_BACKOFF_SECONDS
  }

  lemma {:induction false} Pow2Grows(m: nat, n: nat)
    requires m <= n
    ensures 1 <= Pow2(m) <= Pow2(n)
    decreases n
  {
    if n > 0 {
      if m < n { Pow2Grows(m, n - 1); } else { Pow2Grows(n - 1, n - 1); }
    }
  }

  lemma Pow2Values()
    ensures Pow2(1) == 2 && Pow2(2) == 4 && Pow2(3) == 8 && Pow2(4) == 16 && Pow2(5) == 32 && Pow2(8) == 256 && Pow2(9) == 512
  {
    assert Pow2(4) == 16;
    assert Pow2(6) == 64 && Pow2(8) == 256;
  }

  /** The guard on the shift never shows: for every attempt the backoff is the capped power of two. */
  lemma BackoffIsCappedPower(attempt: int)
    ensures var p := Pow2(if attempt < 1 then 1 else attempt);
            BackoffSeconds(attempt) == if p < MAX_BACKOFF_SECONDS then p else MAX_BACKOFF_SECONDS
  {
    if attempt > 30 {
      Pow2Values();
      Pow2Grows(9, attempt);
    }
  }

  /** Below nine failures the power itself, from then on the cap. */
  lemma BackoffOf(attempts: nat)
    ensures BackoffSeconds(attempts + 1) == if attempts < 8 then Pow2(attempts + 1) else 300
  {
    BackoffIsCappedPower(attempts + 1);
    Pow2Values();
    if attempts < 8 { Pow2Grows(attempts + 1, 8); } else { Pow2Grows(9, attempts + 1); }
  }

  lemma BackoffIsMonotone(a: int, b: int)
    requires a <= b
    ensures 0 < BackoffSeconds(a) <= BackoffSeconds(b) <= MAX_BACKOFF_SECONDS
  {
    BackoffIsCappedPower(a);
    BackoffIsCappedPower(b);
    Pow2Grows(if a < 1 then 1 else a, if b < 1 then 1 else b);
  }

  /** Seconds that have passed at least between the first failure and the gate after `attempts` failures. */
  function Ladder(attempts: nat): int {
    if attempts == 0 then 0 else Pow2(attempts + 1) - 2
  }

  /**
   A row in good standing: dead exactly after five failures and never while published, and
   never retried or given up earlier than the ladder of backoffs allows.
   */
  predicate RowOk(r: Row) {
    && (r.dead.Some? <==> r.attempts == MAX_PUBLISH_ATTEMPTS)
    && r.attempts <= MAX_PUBLISH_ATTEMPTS
    && !(r.published.Some? && r.dead.Some?)
    && (r.firstFailure.Some? <==> r.attempts > 0)
    && (r.attempts > 0 && r.dead.None? ==> r.nextAt >= r.firstFailure.value + Ladder(r.attempts))
    && (r.dead.Some? ==> r.dead.value >= r.firstFailure.value + 30)
  }

  /** markFailed: count, schedule and give-up all derive from the same incremented value. */
  function MarkFailed(r: Row, start: int): Row {
    var next := r.attempts + 1;
    Row(r.aggregate, r.published, next, start + BackoffSeconds(next),
        if next >= MAX_PUBLISH_ATTEMPTS then Some(start) else None,
        if r.firstFailure.Some? then r.firstFailure else Some(start))
  }

  function Settled(r: Row, ok: bool, start: int): Row {
    if ok then r.(published := Some(start)) else MarkFailed(r, start)
  }

  lemma SettledStaysOk(r: Row, ok: bool, start: int)
    requires RowOk(r) && Due(r, start)
    ensures RowOk(Settled(r, ok, start))
    ensures !ok && MarkFailed(r, start).dead.None? ==> MarkFailed(r, start).nextAt > start
  {
    Pow2Values();
    assert Ladder(1) == 2 && Ladder(2) == 6 && Ladder(3) == 14 && Ladder(4) == 30;
    assert BackoffSeconds(1) == 2 && BackoffSeconds(2) == 4 && BackoffSeconds(3) == 8 && BackoffSeconds(4) == 16;
  }

  // --- Whole batches ---

  predicate Distinct(ids: seq<EventId>) {
    forall i, j | 0 <= i < j < |ids| :: ids[i] != ids[j]
  }

  predicate AllDue(rows: map<EventId, Row>, ids: seq<EventId>, now: int) {
    forall x | x in ids :: x in rows && Due(rows[x], now)
  }

  predicate AllOk(rows: map<EventId, Row>) { forall x | x in rows :: RowOk(rows[x]) }

  /** The rows a committed batch leaves: each claimed row published if it was sent, failed otherwise. */
  function AfterBatch(rows: map<EventId, Row>, ids: seq<EventId>, sent: set<EventId>, start: int): map<EventId, Row>
  {
    map x | x in rows :: if x in ids then Settled(rows[x], x in sent, start) else rows[x]
  }

  /** Publish attempts still allowed: what every committed batch uses up. */
  function Budgets(rows: map<EventId, Row>): map<EventId, nat> {
    map x | x in rows :: if Pending(rows[x]) && rows[x].attempts <= 5 then 5 - rows[x].attempts else 0
  }

  ghost function Budget(rows: map<EventId, Row>): nat { Sum(Budgets(rows)) }

  lemma BudgetOfOne(rows: map<EventId, Row>, x: EventId, row: Row)
    requires x in rows
    ensures Budget(rows[x := row]) + Budgets(rows)[x] == Budget(rows) + Budgets(map[x := row])[x]
  {
    var v := Budgets(map[x := row])[x];
    assert Budgets(rows[x := row]) == Budgets(rows)[x := v];
    SumUpdate(Budgets(rows), x, v);
  }

  lemma AfterBatchLast(rows: map<EventId, Row>, ids: seq<EventId>, sent: set<EventId>, start: int)
    requires ids != [] && Distinct(ids) && ids[|ids| - 1] in rows
    ensures var x, rest := ids[|ids| - 1], ids[..|ids| - 1];
            && x !in rest
            && AfterBatch(rows, rest, sent, start)[x] == rows[x]
            && AfterBatch(rows, ids, sent, start) == AfterBatch(rows, rest, sent, start)[x := Settled(rows[x], x in sent, start)]
  {
    var x, rest := ids[|ids| - 1], ids[..|ids| - 1];
    assert ids == rest + [x];
    assert x !in rest;
    assert forall y :: y in ids <==> y in rest || y == x;
  }

  lemma SettlingSpends(r: Row, ok: bool, start: int, x: EventId)
    requires RowOk(r) && Due(r, start)
    ensures Budgets(map[x := Settled(r, ok, start)])[x] + 1 <= Budgets(map[x := r])[x]
  {
  }

  /** Every committed batch spends at least one attempt per claimed row, whatever the publishes did. */
  lemma {:induction false} BatchSpendsBudget(rows: map<EventId, Row>, ids: seq<EventId>, sent: set<EventId>, start: int)
    requires Distinct(ids) && AllDue(rows, ids, start) && AllOk(rows)
    ensures Budget(AfterBatch(rows, ids, sent, start)) + |ids| <= Budget(rows)
    decreases |ids|
  {
    if ids == [] {
      assert AfterBatch(rows, ids, sent, start) == rows;
    } else {
      var x, rest := ids[|ids| - 1], ids[..|ids| - 1];
      BatchSpendsBudget(rows, rest, sent, start);
      assert x in ids && Due(rows[x], start) && RowOk(rows[x]);
      AfterBatchLast(rows, ids, sent, start);
      SettlingSpends(rows[x], x in sent, start, x);
      BudgetOfOne(AfterBatch(rows, rest, sent, start), x, Settled(rows[x], x in sent, start));
    }
  }

  lemma BatchKeepsRowsOk(rows: map<EventId, Row>, ids: seq<EventId>, sent: set<EventId>, start: int)
    requires AllDue(rows, ids, start) && AllOk(rows)
    ensures AllOk(AfterBatch(rows, ids, sent, start))
  {
    forall x | x in ids ensures RowOk(Settled(rows[x], x in sent, start)) {
      SettledStaysOk(rows[x], x in sent, start);
    }
  }

  // --- The claiming query: due rows in id order, at most `limit` ---

  predicate Ascending(ids: seq<EventId>) {
    forall i, j | 0 <= i < j < |ids| :: ids[i] < ids[j]
  }

  predicate Claimable(rows: map<EventId, Row>, now: int, locked: set<EventId>, x: EventId) {
    x in rows && Due(rows[x], now) && x !in locked
  }

  /** SKIP LOCKED ... ORDER BY id LIMIT: the first `limit` by id of the due rows that nobody has locked. */
  ghost predicate IsClaim(rows: map<EventId, Row>, now: int, limit: nat, locked: set<EventId>, ids: seq<EventId>) {
    && Ascending(ids) && |ids| <= limit && (forall x | x in ids :: Claimable(rows, now, locked, x))
    && (forall x | Claimable(rows, now, locked, x) && x !in ids :: |ids| == limit && forall y | y in ids :: y < x)
  }

  /** The claimable rows among `order`, in that order. */
  function ClaimableIn(rows: map<EventId, Row>, order: seq<EventId>, now: int, locked: set<EventId>): seq<EventId> {
    if order == [] then []
    else
      var x := order[|order| - 1];
      ClaimableIn(rows, order[..|order| - 1], now, locked) + if Claimable(rows, now, locked, x) then [x] else []
  }

  lemma {:induction false} ClaimableInFilters(rows: map<EventId, Row>, order: seq<EventId>, now: int, locked: set<EventId>)
    requires Ascending(order)
    ensures Ascending(ClaimableIn(rows, order, now, locked))
    ensures forall x :: x in ClaimableIn(rows, order, now, locked) <==> x in order && Claimable(rows, now, locked, x)
  {
    hide Claimable;
    if order != [] {
      var n := |order| - 1;
      ClaimableInFilters(rows, order[..n], now, locked);
      assert order == order[..n] + [order[n]];
      AppendAscending(ClaimableIn(rows, order[..n], now, locked), order[n]);
    }
  }

  /** Scanning the id index until `limit` rows are found, or to its end, finds the first claimable rows by id. */
  lemma ScanFinds(rows: map<EventId, Row>, index: seq<EventId>, k: nat, now: int, limit: nat, locked: set<EventId>)
    requires Ascending(index) && k <= |index| && forall x :: x in rows <==> x in index
    requires |ClaimableIn(rows, index[..k], now, locked)| <= limit
    requires k == |index| || |ClaimableIn(rows, index[..k], now, locked)| == limit
    ensures IsClaim(rows, now, limit, locked, ClaimableIn(rows, index[..k], now, locked))
  {
    var ids := ClaimableIn(rows, index[..k], now, locked);
    ClaimableInFilters(rows, index[..k], now, locked);
    forall x | Claimable(rows, now, locked, x) && x !in ids ensures |ids| == limit && forall y | y in ids :: y < x {
      var j :| 0 <= j < |index| && index[j] == x;
      assert x !in index[..k];
      assert j >= k;
    }
  }

  lemma ClaimSpelledOut(rows: map<EventId, Row>, now: int, limit: nat, locked: set<EventId>, ids: seq<EventId>)
    requires IsClaim(rows, now, limit, locked, ids)
    ensures |ids| <= limit && forall i, j | 0 <= i < j < |ids| :: ids[i] < ids[j]
    ensures forall x | x in ids :: x in rows && rows[x].published.None? && rows[x].dead.None? && rows[x].nextAt <= now && x !in locked
    ensures forall x | x in rows && rows[x].published.None? && rows[x].dead.None? && rows[x].nextAt <= now && x !in locked && x !in ids ::
              |ids| == limit && forall y | y in ids :: y < x
  {
    forall x | x in rows && rows[x].published.None? && rows[x].dead.None? && rows[x].nextAt <= now && x !in locked
      ensures Claimable(rows, now, locked, x)
    {}
  }

  lemma AscendingIsDistinct(ids: seq<EventId>)
    requires Ascending(ids)
    ensures Distinct(ids)
  {
  }

  /** The index with one more id in its place: ids come from a sequence but commit in any order. */
  function Inserted(index: seq<EventId>, e: EventId): (r: seq<EventId>)
    ensures forall x :: x in r <==> x in index || x == e
  {
    if index == [] || index[|index| - 1] < e then index + [e]
    else Inserted(index[..|index| - 1], e) + [index[|index| - 1]]
  }

  lemma {:induction false} InsertedAscending(index: seq<EventId>, e: EventId)
    requires Ascending(index) && e !in index
    ensures Ascending(Inserted(index, e))
  {
    if index == [] || index[|index| - 1] < e {
      AppendAscending(index, e);
    } else {
      InsertedAscending(index[..|index| - 1], e);
      AppendAscending(Inserted(index[..|index| - 1], e), index[|index| - 1]);
    }
  }

  lemma AppendAscending(ids: seq<EventId>, x: EventId)
    requires Ascending(ids) && forall y | y in ids :: y < x
    ensures Ascending(ids + [x])
  {
    var more := ids + [x];
    forall i, j | 0 <= i < j < |more| ensures more[i] < more[j] {
      if j == |ids| { assert more[i] == ids[i] && ids[i] in ids; }
    }
  }

  datatype PublishResult = PublishResult(claimed: nat, published: nat, failed: nat, deadLettered: nat)

  class OutboxRepository {
    var rows: map<EventId, Row>
    /** The primary-key index the claiming query scans. */
    var index: seq<EventId>
    /** What the broker has received, in order. */
    var log: seq<EventId>

    ghost predicate Valid()
      reads this
    {
      Ascending(index) && AllOk(rows) && forall x :: x in rows <==> x in index
    }

    constructor ()
      ensures Valid() && rows == map[] && log == []
    {
      rows, index, log := map[], [], [];
    }

    /** The new row has been tried by nobody and is due from now on. */
    method WriteTx(e: EventId, aggregate: AggregateId, now: int)
      requires Valid() && e !in rows
      modifies `rows, `index
      ensures Valid() && rows == old(rows)[e := Row(aggregate, None, 0, now, None, None)]
    {
      InsertedAscending(index, e);
      rows, index := rows[e := Row(aggregate, None, 0, now, None, None)], Inserted(index, e);
    }

    /** SELECT ... WHERE due ORDER BY id LIMIT limit FOR UPDATE SKIP LOCKED; `locked` rows belong to other workers. */
    method Claim(limit: nat, now: int, locked: set<EventId>) returns (ids: seq<EventId>)
      requires Valid()
      ensures IsClaim(rows, now, limit, locked, ids)
      ensures |ids| <= limit && forall i, j | 0 <= i < j < |ids| :: ids[i] < ids[j]
      ensures forall x | x in ids ::
                x in rows && rows[x].published.None? && rows[x].dead.None? && rows[x].nextAt <= now && x !in locked
      ensures forall x | x in rows && rows[x].published.None? && rows[x].dead.None? && rows[x].nextAt <= now && x !in locked && x !in ids ::
                |ids| == limit && forall y | y in ids :: y < x
    {
      hide IsClaim, Ascending, AllOk, RowOk;
      ids := [];
      var k := 0;
      while k < |index| && |ids| < limit
        invariant k <= |index| && |ids| <= limit
        invariant ids == ClaimableIn(rows, index[..k], now, locked)
      {
        var x := index[k];
        assert index[..k + 1][..k] == index[..k];
        if rows[x].published.None? && rows[x].dead.None? && rows[x].nextAt <= now && x !in locked { ids := ids + [x]; }
        k := k + 1;
      }
      ScanFinds(rows, index, k, now, limit, locked);
      ClaimSpelledOut(rows, now, limit, locked, ids);
    }

    /** The wait doubles with each failure, up to 300 s; the fifth failure is the last. */
    method MarkFailedRow(e: EventId, attempts: nat, start: int) returns (dead: bool)
      requires e in rows && rows[e].attempts == attempts
      modifies `rows
      ensures rows == old(rows)[e := MarkFailed(old(rows)[e], start)]
      ensures rows.Keys == old(rows).Keys && rows[e].attempts == attempts + 1
      ensures rows[e].nextAt == start + if attempts < 8 then Pow2(attempts + 1) else 300
      ensures rows[e].dead == (if attempts >= 4 then Some(start) else None) && (dead <==> attempts >= 4)
      ensures rows[e].aggregate == old(rows)[e].aggregate && rows[e].published == old(rows)[e].published
    {
      var next := attempts + 1;
      dead := next >= MAX_PUBLISH_ATTEMPTS;
      var r := rows[e];
      BackoffOf(attempts);
      rows := rows[e := Row(r.aggregate, r.published, next, start + BackoffSeconds(next), if dead then Some(start) else None,
                            if r.firstFailure.Some? then r.firstFailure else Some(start))];
    }

    /** One publish: a failure is recorded on its own row, a success only in the log. */
    method PublishOne(e: EventId, start: int, accepted: bool) returns (gaveUp: bool)
      requires e in rows
      modifies `rows, `log
      ensures rows == (if accepted then old(rows) else old(rows)[e := MarkFailed(old(rows)[e], start)])
      ensures log == old(log) + if accepted then [e] else []
      ensures gaveUp <==> GivesUp(old(rows)[e], accepted)
    {
      if accepted {
        log := log + [e];
        gaveUp := false;
      } else {
        gaveUp := MarkFailedRow(e, rows[e].attempts, start);
      }
    }

    /** The publish loop: each failure is recorded on its own row and the rest of the batch goes on. */
    method PublishEach(events: seq<EventId>, start: int, accepts: EventId -> bool)
      returns (published: seq<EventId>, failed: nat, deadLettered: nat)
      requires Ascending(events) && forall x | x in events :: x in rows
      modifies `rows, `log
      ensures rows == AfterFailures(old(rows), events, accepts, start)
      ensures published == Accepted(events, accepts) && log == old(log) + published
      ensures |published| + failed == |events| && deadLettered == GivenUp(old(rows), events, accepts)
    {
      hide AfterFailures, Accepted, GivenUp, MarkFailed, Ascending;
      published, failed, deadLettered := [], 0, 0;
      ghost var before, sent := rows, log;
      NoFailures(rows, events, accepts, start);
      for k := 0 to |events|
        invariant rows == AfterFailures(before, events[..k], accepts, start)
        invariant published == Accepted(events[..k], accepts)
        invariant log == sent + published
        invariant |published| + failed == k && deadLettered == GivenUp(before, events[..k], accepts)
      {
        var e := events[k];
        NextFailure(before, events, k, accepts, start);
        var gaveUp := PublishOne(e, start, accepts(e));
        if accepts(e) {
          assert (sent + published) + [e] == sent + (published + [e]);
          published := published + [e];
        } else {
          failed := failed + 1;
          if gaveUp { deadLettered := deadLettered + 1; }
        }
      }
      assert events[..|events|] == events;
    }

    /** One batch: publish first, record after. `accepts` is the broker's answer for each event. */
    method PublishBatch(limit: nat, start: int, locked: set<EventId>, accepts: EventId -> bool)
      returns (res: PublishResult, ghost ids: seq<EventId>)
      requires Valid()
      modifies `rows, `log
      ensures Valid() && IsClaim(old(rows), start, limit, locked, ids) && res.claimed == |ids|
      ensures rows == AfterBatch(old(rows), ids, (set x | x in ids && accepts(x)), start)
      ensures log == old(log) + Accepted(ids, accepts)
      ensures res.published == |Accepted(ids, accepts)| && res.published + res.failed == res.claimed
      ensures res.deadLettered == GivenUp(old(rows), ids, accepts)
      ensures rows.Keys == old(rows).Keys && forall x | x in rows && x !in ids :: rows[x] == old(rows)[x]
      ensures forall x | x in ids && x in rows && accepts(x) :: rows[x] == old(rows)[x].(published := Some(start))
      ensures forall x | x in ids && x in rows && !accepts(x) :: rows[x].published.None? && rows[x].attempts == old(rows)[x].attempts + 1
      ensures old(log) <= log && |log| == |old(log)| + res.published
      ensures forall i | |old(log)| <= i < |log| :: log[i] in ids
      ensures forall i, j | |old(log)| <= i < j < |log| :: log[i] < log[j]
    {
      hide AfterFailures, Accepted, Ascending, IsClaim, Stamped, AfterBatch, GivenUp, AllDue, AllOk, RowOk;
      ghost var before := rows;
      var events := Claim(limit, start, locked);
      ids := events;
      ClaimIsDue(rows, start, limit, locked, ids);
      var published, failed, deadLettered := PublishEach(events, start, accepts);
      rows := Stamped(rows, published, start);
      StampingSettles(before, ids, accepts, start);
      SettledLiterally(before, ids, accepts, start);
      assert log == old(log) + Accepted(ids, accepts);
      AcceptedInLog(ids, accepts, old(log), log);
      res := PublishResult(|events|, |published|, failed, deadLettered);
    }

    /** A batch within one transaction: if the database fails it is rolled back, but what it published stays published. */
    method RunBatch(batch: nat, start: int, locked: set<EventId>, accepts: EventId -> bool, commitFails: bool)
      returns (claimed: nat)
      requires Valid()
      modifies `rows, `log
      ensures Valid() && (commitFails ==> rows == old(rows))
      ensures !commitFails ==> Budget(rows) + claimed <= Budget(old(rows))
      ensures !commitFails && claimed < batch ==>
                forall x | x in rows && x !in locked && rows[x].published.None? && rows[x].dead.None? :: rows[x].nextAt > start
    {
      var saved := rows;
      var res, ids := PublishBatch(batch, start, locked, accepts);
      claimed := res.claimed;
      if commitFails {
        rows := saved;
      } else {
        ghost var sent := set x | x in ids && accepts(x);
        BatchSpendsBudget(saved, ids, sent, start);
        if claimed < batch {
          ShortBatchClears(saved, ids, sent, start, batch, locked);
        }
      }
    }

    /** The relay's tick: batches until one comes back short or the database fails. */
    method Drain(batch: nat, clock: nat -> int, locked: nat -> set<EventId>,
                 accepts: (nat, EventId) -> bool, commitFails: nat -> bool)
      returns (rounds: nat, failed: bool)
      requires batch > 0 && Valid()
      modifies `rows, `log
      ensures Valid() && rounds > 0 && failed == commitFails(rounds - 1)
      ensures Budget(rows) + batch * (rounds - 1) <= Budget(old(rows))
      ensures !failed ==> forall x | x in rows && x !in locked(rounds - 1) && rows[x].published.None? && rows[x].dead.None? ::
                            rows[x].nextAt > clock(rounds - 1)
    {
      rounds := 0;
      while true
        invariant Valid() && Budget(rows) + batch * rounds <= Budget(old(rows))
        decreases Budget(rows)
      {
        var round: nat := rounds;
        failed := commitFails(round);
        var claimed := RunBatch(batch, clock(round), locked(round), (x: EventId) => accepts(round, x), failed);
        MulStep(batch, round);
        rounds := round + 1;
        if failed || claimed < batch { return; }
      }
    }
  }

  /** The rows with the failures of `ids` recorded and the successes not yet stamped. */
  function AfterFailures(rows: map<EventId, Row>, ids: seq<EventId>, accepts: EventId -> bool, start: int): map<EventId, Row> {
    map x | x in rows :: if x in ids && !accepts(x) then MarkFailed(rows[x], start) else rows[x]
  }

  /** UPDATE ... SET published_at = now() WHERE id = ANY(published). */
  function Stamped(rows: map<EventId, Row>, published: seq<EventId>, start: int): map<EventId, Row> {
    map x | x in rows :: if x in published then rows[x].(published := Some(start)) else rows[x]
  }

  lemma StampingSettles(rows: map<EventId, Row>, ids: seq<EventId>, accepts: EventId -> bool, start: int)
    requires AllDue(rows, ids, start) && AllOk(rows)
    ensures var after := Stamped(AfterFailures(rows, ids, accepts, start), Accepted(ids, accepts), start);
            after == AfterBatch(rows, ids, (set x | x in ids && accepts(x)), start) && AllOk(after) && after.Keys == rows.Keys
  {
    AcceptedAre(ids, accepts);
    BatchKeepsRowsOk(rows, ids, (set x | x in ids && accepts(x)), start);
  }

  predicate GivesUp(r: Row, accepted: bool) { !accepted && r.attempts + 1 >= MAX_PUBLISH_ATTEMPTS }

  /** How many of `ids` exhaust their budget with this batch. */
  function GivenUp(rows: map<EventId, Row>, ids: seq<EventId>, accepts: EventId -> bool): nat {
    if ids == [] then 0
    else
      var x := ids[|ids| - 1];
      GivenUp(rows, ids[..|ids| - 1], accepts) + if x in rows && GivesUp(rows[x], accepts(x)) then 1 else 0
  }

  lemma NoFailures(rows: map<EventId, Row>, ids: seq<EventId>, accepts: EventId -> bool, start: int)
    ensures Accepted(ids[..0], accepts) == [] && GivenUp(rows, ids[..0], accepts) == 0
    ensures AfterFailures(rows, ids[..0], accepts, start) == rows
  {
  }

  lemma NextFailure(rows: map<EventId, Row>, ids: seq<EventId>, k: nat, accepts: EventId -> bool, start: int)
    requires k < |ids| && Ascending(ids) && ids[k] in rows
    ensures Accepted(ids[..k + 1], accepts) == Accepted(ids[..k], accepts) + if accepts(ids[k]) then [ids[k]] else []
    ensures GivenUp(rows, ids[..k + 1], accepts) == GivenUp(rows, ids[..k], accepts)
              + if GivesUp(rows[ids[k]], accepts(ids[k])) then 1 else 0
    ensures ids[k] in AfterFailures(rows, ids[..k], accepts, start)
    ensures AfterFailures(rows, ids[..k], accepts, start)[ids[k]] == rows[ids[k]]
    ensures AfterFailures(rows, ids[..k + 1], accepts, start)
            == if accepts(ids[k]) then AfterFailures(rows, ids[..k], accepts, start)
               else AfterFailures(rows, ids[..k], accepts, start)[ids[k] := MarkFailed(rows[ids[k]], start)]
  {
    assert ids[..k + 1] == ids[..k] + [ids[k]];
    assert ids[..k + 1][..k] == ids[..k];
    assert ids[k] !in ids[..k];
  }

  /** The claimed events the broker accepted, in order. */
  function Accepted(ids: seq<EventId>, accepts: EventId -> bool): seq<EventId> {
    if ids == [] then []
    else Accepted(ids[..|ids| - 1], accepts) + if accepts(ids[|ids| - 1]) then [ids[|ids| - 1]] else []
  }

  lemma {:induction false} AcceptedAre(ids: seq<EventId>, accepts: EventId -> bool)
    ensures forall x :: x in Accepted(ids, accepts) <==> x in ids && accepts(x)
  {
    if ids != [] {
      var n := |ids| - 1;
      AcceptedAre(ids[..n], accepts);
      assert ids == ids[..n] + [ids[n]];
    }
  }

  lemma {:induction false} AcceptedAscend(ids: seq<EventId>, accepts: EventId -> bool)
    requires Ascending(ids)
    ensures Ascending(Accepted(ids, accepts))
  {
    if ids != [] {
      var n := |ids| - 1;
      AcceptedAscend(ids[..n], accepts);
      AcceptedAre(ids[..n], accepts);
      if accepts(ids[n]) { AppendAscending(Accepted(ids[..n], accepts), ids[n]); }
    }
  }

  lemma AcceptedInLog(ids: seq<EventId>, accepts: EventId -> bool, log: seq<EventId>, more: seq<EventId>)
    requires Ascending(ids) && more == log + Accepted(ids, accepts)
    ensures forall i | |log| <= i < |more| :: more[i] in ids
    ensures forall i, j | |log| <= i < j < |more| :: more[i] < more[j]
  {
    AcceptedAscend(ids, accepts);
    AcceptedAre(ids, accepts);
    var sent := Accepted(ids, accepts);
    forall i | 0 <= i < |sent| ensures sent[i] in ids { assert sent[i] in sent; }
    hide Accepted;
  }

  lemma ClaimIsDue(rows: map<EventId, Row>, now: int, limit: nat, locked: set<EventId>, ids: seq<EventId>)
    requires IsClaim(rows, now, limit, locked, ids)
    ensures Ascending(ids) && AllDue(rows, ids, now)
  {
  }

  lemma SettledLiterally(rows: map<EventId, Row>, ids: seq<EventId>, accepts: EventId -> bool, start: int)
    requires AllDue(rows, ids, start)
    ensures var after := AfterBatch(rows, ids, (set x | x in ids && accepts(x)), start);
            && after.Keys == rows.Keys && (forall x | x in rows && x !in ids :: after[x] == rows[x])
            && (forall x | x in ids && accepts(x) :: after[x] == rows[x].(published := Some(start)))
            && (forall x | x in ids && !accepts(x) :: after[x].published.None? && after[x].attempts == rows[x].attempts + 1)
  {
  }

  /** A batch that came back short leaves nothing due but what others have locked: its failures are backed off past its start. */
  lemma ShortBatchClears(rows: map<EventId, Row>, ids: seq<EventId>, sent: set<EventId>, start: int, limit: nat, locked: set<EventId>)
    requires IsClaim(rows, start, limit, locked, ids) && |ids| < limit && AllOk(rows)
    ensures var after := AfterBatch(rows, ids, sent, start);
            forall x | x in after && x !in locked && after[x].published.None? && after[x].dead.None? :: after[x].nextAt > start
  {
    var after := AfterBatch(rows, ids, sent, start);
    forall x | x in after && x !in locked && after[x].published.None? && after[x].dead.None? ensures after[x].nextAt > start {
      if x in ids { SettledStaysOk(rows[x], x in sent, start); }
    }
  }
}
