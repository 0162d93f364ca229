/**
 Any number of relay workers over one outbox: batches claimed with SKIP LOCKED, a crash possible
 between any two statements, and a broker whose refusals may or may not have written the message.
 */
module RelayRuns {
  import opened MapSums
  import opened Outbox

  type WorkerId = nat

  datatype Message = Envelope(id: EventId) | Garbage

  /**
   An open PublishBatch transaction: it has gone through `done` of its claimed rows, of which the broker
   acknowledged `sent` and refused `silent` without writing them.
   */
  datatype Batch = Batch(start: int, claimed: seq<EventId>, done: nat, sent: set<EventId>, silent: set<EventId>)

  /**
   `rolledBack` counts, per event, the batches that had published it and were then rolled back;
   `unacked` counts the publishes that were reported as failed although the broker wrote them;
   `settled` counts the rows claimed by committed batches.
   */
  datatype Relay = Relay(rows: map<EventId, Row>, log: seq<Message>, workers: map<WorkerId, Batch>,
                         rolledBack: multiset<EventId>, unacked: multiset<EventId>, settled: nat)

  datatype Step =
    | DomainCommit(e: EventId, aggregate: AggregateId, at: int)
    | Claim(w: WorkerId, start: int, limit: nat, ids: seq<EventId>)
    | Publish(w: WorkerId, acked: bool, wrote: bool)
    | CommitBatch(w: WorkerId)
    | Crash(w: WorkerId)
    | Foreign

  predicate ClaimedBy(b: Batch, e: EventId) { e in b.claimed }

  /** The rows open batches have locked. */
  function Held(workers: map<WorkerId, Batch>): set<EventId> {
    set w, e | w in workers && e in workers[w].claimed :: e
  }

  /** An aggregate's rows are committed one after the other, so their ids rise; those of different aggregates need not. */
  predicate NewestOfIts(rows: map<EventId, Row>, e: EventId, aggregate: AggregateId) {
    forall x | x in rows && rows[x].aggregate == aggregate :: x < e
  }

  ghost predicate Enabled(s: Relay, step: Step) {
    match step
    case DomainCommit(e, aggregate, _) => e !in s.rows && NewestOfIts(s.rows, e, aggregate)
    case Claim(w, start, limit, ids) => w !in s.workers && IsClaim(s.rows, start, limit, Held(s.workers), ids)
    case Publish(w, acked, wrote) => w in s.workers && s.workers[w].done < |s.workers[w].claimed| && (acked ==> wrote)
    case CommitBatch(w) => w in s.workers && s.workers[w].done == |s.workers[w].claimed|
    case Crash(w) => w in s.workers
    case Foreign => true
  }

  function Apply(s: Relay, step: Step): Relay {
    match step
    case DomainCommit(e, aggregate, at) => s.(rows := s.rows[e := NewRow(aggregate, at)])
    case Claim(w, start, _, ids) => s.(workers := s.workers[w := Batch(start, ids, 0, {}, {})])
    case Publish(w, acked, wrote) => if w in s.workers then AfterPublish(s, w, acked, wrote) else s
    case CommitBatch(w) =>
      if w !in s.workers then s else
        var b := s.workers[w];
        s.(rows := AfterBatch(s.rows, b.claimed, b.sent, b.start), workers := s.workers - {w},
           settled := s.settled + |b.claimed|)
    case Crash(w) =>
      if w !in s.workers then s else
        s.(workers := s.workers - {w}, rolledBack := s.rolledBack + multiset(s.workers[w].sent))
    case Foreign => s.(log := s.log + [Garbage])
  }

  function AfterPublish(s: Relay, w: WorkerId, acked: bool, wrote: bool): Relay
    requires w in s.workers
  {
    var b := s.workers[w];
    if b.done >= |b.claimed| then s else
      var e := b.claimed[b.done];
      s.(log := if wrote then s.log + [Envelope(e)] else s.log,
         workers := s.workers[w := b.(done := b.done + 1, sent := if acked then b.sent + {e} else b.sent,
                                      silent := if wrote then b.silent else b.silent + {e})],
         unacked := if wrote && !acked then s.unacked + multiset{e} else s.unacked)
  }

  // --- What every step keeps ---

  predicate BatchOk(rows: map<EventId, Row>, b: Batch) {
    && Ascending(b.claimed) && AllDue(rows, b.claimed, b.start) && b.done <= |b.claimed|
    && (forall e | e in b.sent :: e in b.claimed[..b.done])
    && (forall e | e in b.silent :: e in b.claimed[..b.done])
  }

  ghost predicate Locked(s: Relay) {
    && (forall w | w in s.workers :: BatchOk(s.rows, s.workers[w]))
    && (forall w, v, e | w in s.workers && v in s.workers && w != v && ClaimedBy(s.workers[w], e) :: !ClaimedBy(s.workers[v], e))
  }

  function Copies(log: seq<Message>, e: EventId): nat { multiset(log)[Envelope(e)] }

  predicate IsPublished(rows: map<EventId, Row>, e: EventId) { e in rows && rows[e].published.Some? }

  ghost predicate InFlight(workers: map<WorkerId, Batch>, e: EventId) {
    exists w :: w in workers && e in workers[w].sent
  }

  /** Every copy in the log is accounted for. */
  ghost predicate CopiesAccounted(s: Relay, e: EventId) {
    Copies(s.log, e) == s.rolledBack[e] + s.unacked[e]
      + (if IsPublished(s.rows, e) then 1 else 0) + (if InFlight(s.workers, e) then 1 else 0)
  }

  ghost predicate OnlyKnown(s: Relay) {
    forall e | e in s.rolledBack || e in s.unacked :: e in s.rows
  }

  ghost predicate RelayInv(s: Relay) {
    && AllOk(s.rows) && Locked(s) && OnlyKnown(s)
    && (forall e :: CopiesAccounted(s, e))
    && s.settled + Budget(s.rows) <= 5 * |s.rows|
  }

  lemma CommitKeepsBatches(s: Relay, w: WorkerId)
    requires Locked(s) && w in s.workers
    ensures Locked(Apply(s, CommitBatch(w)))
  {
    var s' := Apply(s, CommitBatch(w));
    forall v | v in s'.workers ensures BatchOk(s'.rows, s'.workers[v]) {
      var b := s.workers[v];
      assert BatchOk(s.rows, b);
      forall e | e in b.claimed ensures e in s'.rows && Due(s'.rows[e], b.start) {
        assert ClaimedBy(b, e);
        assert !ClaimedBy(s.workers[w], e);
      }
    }
  }

  lemma StepKeepsLocks(s: Relay, step: Step)
    requires Locked(s) && Enabled(s, step)
    ensures Locked(Apply(s, step))
  {
    match step
    case CommitBatch(w) => CommitKeepsBatches(s, w);
    case Publish(w, acked, wrote) => PublishKeepsLocks(s, step);
    case Claim(w, start, limit, ids) =>
      assert BatchOk(s.rows, Batch(start, ids, 0, {}, {}));
      forall v, e | v in s.workers && e in ids ensures !ClaimedBy(s.workers[v], e) {
        assert ClaimedBy(s.workers[v], e) ==> e in Held(s.workers);
      }
    case DomainCommit(e, aggregate, at) =>
      forall v | v in s.workers ensures BatchOk(s.rows[e := NewRow(aggregate, at)], s.workers[v]) {
        assert BatchOk(s.rows, s.workers[v]);
      }
    case _ =>
  }

  lemma PublishKeepsLocks(s: Relay, step: Step)
    requires Locked(s) && Enabled(s, step) && step.Publish?
    ensures Locked(Apply(s, step))
  {
    var s', w := Apply(s, step), step.w;
    var b, b' := s.workers[w], s'.workers[w];
    assert BatchOk(s.rows, b);
    assert b.claimed[..b.done + 1] == b.claimed[..b.done] + [b.claimed[b.done]];
    forall v, e | v in s.workers ensures ClaimedBy(s'.workers[v], e) <==> ClaimedBy(s.workers[v], e) {}
  }

  lemma MultisetOfSet(a: set<EventId>, e: EventId)
    ensures multiset(a)[e] == if e in a then 1 else 0
  {
  }

  lemma NotSentElsewhere(s: Relay, w: WorkerId, v: WorkerId, e: EventId)
    requires Locked(s) && w in s.workers && v in s.workers && w != v && ClaimedBy(s.workers[w], e)
    ensures e !in s.workers[v].sent
  {
    assert BatchOk(s.rows, s.workers[v]);
    assert !ClaimedBy(s.workers[v], e);
  }

  lemma PublishAccounts(s: Relay, step: Step, e: EventId)
    requires Locked(s) && Enabled(s, step) && step.Publish? && CopiesAccounted(s, e)
    ensures CopiesAccounted(Apply(s, step), e)
  {
    var s', w := Apply(s, step), step.w;
    var b := s.workers[w];
    var x := b.claimed[b.done];
    assert BatchOk(s.rows, b);
    if e == x {
      assert ClaimedBy(b, e);
      assert x !in b.claimed[..b.done];
      forall v | v in s.workers ensures e !in s.workers[v].sent {
        if v != w { NotSentElsewhere(s, w, v, e); }
      }
      assert step.acked ==> e in s'.workers[w].sent;
    } else {
      assert forall v | v in s.workers :: e in s.workers[v].sent <==> e in s'.workers[v].sent;
      assert InFlight(s.workers, e) <==> InFlight(s'.workers, e);
    }
  }

  lemma EndAccounts(s: Relay, w: WorkerId, e: EventId)
    requires Locked(s) && w in s.workers
    ensures InFlight(s.workers, e) == (e in s.workers[w].sent || InFlight(s.workers - {w}, e))
    ensures e in s.workers[w].sent ==> e in s.workers[w].claimed && !InFlight(s.workers - {w}, e)
  {
    assert BatchOk(s.rows, s.workers[w]);
    var rest := s.workers - {w};
    if v :| v in s.workers && e in s.workers[v].sent && v != w { assert v in rest; }
    if e in s.workers[w].sent {
      assert ClaimedBy(s.workers[w], e);
      forall v | v in rest ensures e !in rest[v].sent { NotSentElsewhere(s, w, v, e); }
    }
  }

  lemma CommitAccounts(s: Relay, w: WorkerId, e: EventId)
    requires Locked(s) && w in s.workers && CopiesAccounted(s, e)
    ensures CopiesAccounted(Apply(s, CommitBatch(w)), e)
  {
    EndAccounts(s, w, e);
    assert BatchOk(s.rows, s.workers[w]);
  }

  lemma CrashAccounts(s: Relay, w: WorkerId, e: EventId)
    requires Locked(s) && w in s.workers && CopiesAccounted(s, e)
    ensures CopiesAccounted(Apply(s, Crash(w)), e)
  {
    EndAccounts(s, w, e);
    MultisetOfSet(s.workers[w].sent, e);
  }

  lemma ClaimAccounts(s: Relay, step: Step, e: EventId)
    requires Enabled(s, step) && step.Claim? && CopiesAccounted(s, e)
    ensures CopiesAccounted(Apply(s, step), e)
  {
    var after := Apply(s, step).workers;
    if v :| v in s.workers && e in s.workers[v].sent { assert v in after && e in after[v].sent; }
  }

  lemma StepAccounts(s: Relay, step: Step, e: EventId)
    requires Locked(s) && Enabled(s, step) && CopiesAccounted(s, e)
    ensures CopiesAccounted(Apply(s, step), e)
  {
    match step
    case Publish(_, _, _) => PublishAccounts(s, step, e);
    case CommitBatch(w) => CommitAccounts(s, w, e);
    case Crash(w) => CrashAccounts(s, w, e);
    case Claim(_, _, _, _) => ClaimAccounts(s, step, e);
    case DomainCommit(_, _, _) =>
    case Foreign =>
  }

  lemma StepKeepsKnown(s: Relay, step: Step)
    requires Locked(s) && OnlyKnown(s) && Enabled(s, step)
    ensures OnlyKnown(Apply(s, step))
  {
    if step.Crash? || step.Publish? { assert BatchOk(s.rows, s.workers[step.w]); }
  }

  // --- The retry ladder and the termination measure, over any workers and any clock ---

  lemma StepKeepsLadder(s: Relay, step: Step)
    requires Locked(s) && AllOk(s.rows) && Enabled(s, step)
    ensures AllOk(Apply(s, step).rows)
  {
    if step.CommitBatch? {
      var b := s.workers[step.w];
      assert BatchOk(s.rows, b);
      BatchKeepsRowsOk(s.rows, b.claimed, b.sent, b.start);
    }
  }

  lemma NewRowBudget(rows: map<EventId, Row>, e: EventId, aggregate: AggregateId, at: int)
    requires e !in rows
    ensures Budget(rows[e := NewRow(aggregate, at)]) == Budget(rows) + 5
  {
    assert Budgets(rows[e := NewRow(aggregate, at)]) == Budgets(rows)[e := 5];
    SumInsert(Budgets(rows), e, 5);
  }

  /** A committed batch takes at least one attempt per claimed row out of the budget; only new events add to it. */
  lemma StepSpends(s: Relay, step: Step)
    requires Locked(s) && AllOk(s.rows) && Enabled(s, step)
    ensures var s' := Apply(s, step);
            s'.settled + Budget(s'.rows) <= s.settled + Budget(s.rows) + if step.DomainCommit? then 5 else 0
    ensures |Apply(s, step).rows| == |s.rows| + if step.DomainCommit? then 1 else 0
  {
    match step
    case CommitBatch(w) =>
      var b := s.workers[w];
      assert BatchOk(s.rows, b);
      AscendingIsDistinct(b.claimed);
      BatchSpendsBudget(s.rows, b.claimed, b.sent, b.start);
      assert AfterBatch(s.rows, b.claimed, b.sent, b.start).Keys == s.rows.Keys;
    case DomainCommit(e, aggregate, at) =>
      NewRowBudget(s.rows, e, aggregate, at);
    case _ =>
  }

  lemma StepKeepsRelay(s: Relay, step: Step)
    requires RelayInv(s) && Enabled(s, step)
    ensures RelayInv(Apply(s, step))
  {
    StepKeepsLocks(s, step);
    StepKeepsKnown(s, step);
    StepKeepsLadder(s, step);
    StepSpends(s, step);
    forall e ensures CopiesAccounted(Apply(s, step), e) { StepAccounts(s, step, e); }
  }

  // --- Whole runs ---

  ghost predicate Init(s: Relay) {
    s == Relay(map[], [], map[], multiset{}, multiset{}, 0)
  }

  ghost predicate Run(states: seq<Relay>, steps: seq<Step>) {
    && |states| == |steps| + 1
    && forall k | 0 <= k < |steps| :: Enabled(states[k], steps[k]) && states[k + 1] == Apply(states[k], steps[k])
  }

  lemma {:induction false} RunKeepsRelay(states: seq<Relay>, steps: seq<Step>, n: nat)
    requires Run(states, steps) && Init(states[0]) && n <= |steps|
    ensures RelayInv(states[n])
  {
    if n > 0 {
      RunKeepsRelay(states, steps, n - 1);
      StepKeepsRelay(states[n - 1], steps[n - 1]);
    }
  }

  /**
   In every reachable state an event is exactly one of pending, published and dead; a published one has
   a copy in the log, a logged one was committed by a domain transaction; and, per event, copies exceed
   one only by the rolled-back batches that had sent it and the refusals that wrote it all the same.
   */
  lemma RelayLosesNothing(states: seq<Relay>, steps: seq<Step>, n: nat, e: EventId)
    requires Run(states, steps) && Init(states[0]) && n <= |steps|
    ensures var s := states[n];
            && (e in s.rows ==> (if Pending(s.rows[e]) then 1 else 0) + (if s.rows[e].published.Some? then 1 else 0)
                                + (if s.rows[e].dead.Some? then 1 else 0) == 1)
            && (IsPublished(s.rows, e) ==> Envelope(e) in s.log)
            && (Envelope(e) in s.log ==> e in s.rows)
            && Copies(s.log, e) <= 1 + s.rolledBack[e] + s.unacked[e]
  {
    var s := states[n];
    RunKeepsRelay(states, steps, n);
    assert CopiesAccounted(s, e);
    assert e in s.rows ==> RowOk(s.rows[e]);
    assert Envelope(e) in s.log <==> Envelope(e) in multiset(s.log);
    if w :| w in s.workers && e in s.workers[w].sent { assert BatchOk(s.rows, s.workers[w]); }
    if IsPublished(s.rows, e) {
      forall w | w in s.workers ensures e !in s.workers[w].sent { assert BatchOk(s.rows, s.workers[w]); }
    }
  }

  /** Dead means five recorded failures, the first at least 30 seconds earlier; alive means at most four. */
  lemma RetryLadder(states: seq<Relay>, steps: seq<Step>, n: nat, e: EventId)
    requires Run(states, steps) && Init(states[0]) && n <= |steps| && e in states[n].rows
    ensures var r := states[n].rows[e];
            && (r.dead.Some? <==> r.attempts == 5) && r.attempts <= 5
            && (r.dead.Some? ==> r.published.None? && r.firstFailure.Some? && r.dead.value - r.firstFailure.value >= 30)
  {
    RunKeepsRelay(states, steps, n);
    assert RowOk(states[n].rows[e]);
  }

  /** However many workers, whatever the broker and the clock do: five claims per event are all that ever commit. */
  lemma ClaimsAreBounded(states: seq<Relay>, steps: seq<Step>, n: nat)
    requires Run(states, steps) && Init(states[0]) && n <= |steps|
    ensures states[n].settled <= 5 * |states[n].rows|
  {
    RunKeepsRelay(states, steps, n);
  }

  /** With no new events, the claims committed over any stretch of a run are paid for by the drop of the budget. */
  lemma {:induction false} QuietStretchTerminates(states: seq<Relay>, steps: seq<Step>, from: nat, n: nat)
    requires Run(states, steps) && Init(states[0]) && from <= n <= |steps|
    requires forall k | from <= k < n :: !steps[k].DomainCommit?
    ensures states[n].settled - states[from].settled <= Budget(states[from].rows) - Budget(states[n].rows)
    decreases n
  {
    if n > from {
      QuietStretchTerminates(states, steps, from, n - 1);
      RunKeepsRelay(states, steps, n - 1);
      StepSpends(states[n - 1], steps[n - 1]);
    }
  }

  // --- One batch with the broker's answers given ---

  function Letters(ids: seq<EventId>): (r: seq<Message>)
    ensures |r| == |ids| && forall k | 0 <= k < |r| :: r[k] == Envelope(ids[k])
  {
    seq(|ids|, k requires 0 <= k < |ids| => Envelope(ids[k]))
  }

  /** Worker w has gone through the first k of its rows: what was accepted is in the log, in order, and nothing else has happened. */
  ghost predicate PublishedTo(s: Relay, s': Relay, w: WorkerId, start: int, ids: seq<EventId>, accepts: EventId -> bool, k: nat) {
    && k <= |ids| && w in s'.workers && s'.workers - {w} == s.workers && s'.rows == s.rows
    && s'.workers[w].start == start && s'.workers[w].claimed == ids && s'.workers[w].done == k
    && s'.workers[w].sent == (set x | x in ids[..k] && accepts(x))
    && s'.log == s.log + Letters(Accepted(ids[..k], accepts))
  }

  lemma PublishesNext(s: Relay, s': Relay, w: WorkerId, start: int, ids: seq<EventId>, accepts: EventId -> bool, k: nat)
    requires PublishedTo(s, s', w, start, ids, accepts, k) && k < |ids| && w !in s.workers
    ensures var step := Publish(w, accepts(ids[k]), accepts(ids[k]));
            Enabled(s', step) && PublishedTo(s, Apply(s', step), w, start, ids, accepts, k + 1)
  {
    var e := ids[k];
    var next := Apply(s', Publish(w, accepts(e), accepts(e)));
    assert ids[..k + 1] == ids[..k] + [e] && ids[..k + 1][..k] == ids[..k];
    assert next.workers - {w} == s.workers;
    var sent := Accepted(ids[..k], accepts);
    assert Accepted(ids[..k + 1], accepts) == if accepts(e) then sent + [e] else sent;
    assert accepts(e) ==> s.log + Letters(sent + [e]) == (s.log + Letters(sent)) + [Envelope(e)];
  }

  lemma {:induction false} PublishesAll(s: Relay, first: Relay, w: WorkerId, start: int, ids: seq<EventId>, accepts: EventId -> bool, k: nat)
    returns (states: seq<Relay>, steps: seq<Step>)
    requires PublishedTo(s, first, w, start, ids, accepts, 0) && w !in s.workers && k <= |ids|
    ensures Run(states, steps) && |steps| == k && states[0] == first
    ensures PublishedTo(s, states[k], w, start, ids, accepts, k)
  {
    hide PublishedTo, Enabled, Apply;
    if k == 0 {
      states, steps := [first], [];
    } else {
      states, steps := PublishesAll(s, first, w, start, ids, accepts, k - 1);
      var step := Publish(w, accepts(ids[k - 1]), accepts(ids[k - 1]));
      PublishesNext(s, states[k - 1], w, start, ids, accepts, k - 1);
      states, steps := states + [Apply(states[k - 1], step)], steps + [step];
    }
  }

  /**
   Whatever other workers hold, a worker can claim the first due rows nobody has locked, publish each and commit;
   that leaves the rows and the log one batch of the repository leaves.
   */
  lemma BatchGoesThrough(s: Relay, w: WorkerId, start: int, limit: nat, ids: seq<EventId>, accepts: EventId -> bool)
    returns (states: seq<Relay>, steps: seq<Step>)
    requires w !in s.workers && IsClaim(s.rows, start, limit, Held(s.workers), ids)
    ensures Run(states, steps) && |steps| == |ids| + 2 && states[0] == s
    ensures var end := states[|steps|];
            && end.rows == AfterBatch(s.rows, ids, (set x | x in ids && accepts(x)), start)
            && end.log == s.log + Letters(Accepted(ids, accepts)) && end.workers == s.workers
  {
    var claim := Claim(w, start, limit, ids);
    var first := Apply(s, claim);
    assert first.workers - {w} == s.workers && s.log + Letters([]) == s.log;
    assert Enabled(s, claim) && PublishedTo(s, first, w, start, ids, accepts, 0);
    hide IsClaim, AfterBatch, Accepted;
    var n := |ids|;
    var mid, publishes := PublishesAll(s, first, w, start, ids, accepts, n);
    assert ids[..n] == ids;
    assert Enabled(mid[n], CommitBatch(w));
    hide Enabled, Apply, PublishedTo;
    states, steps := [s] + mid + [Apply(mid[n], CommitBatch(w))], [claim] + publishes + [CommitBatch(w)];
    forall k | 0 <= k < |steps| ensures Enabled(states[k], steps[k]) && states[k + 1] == Apply(states[k], steps[k]) {
      if 0 < k <= n { assert states[k] == mid[k - 1] && steps[k] == publishes[k - 1] && states[k + 1] == mid[k]; }
    }
    BatchCommits(s, mid[n], w, start, ids, accepts);
  }

  lemma BatchCommits(s: Relay, s': Relay, w: WorkerId, start: int, ids: seq<EventId>, accepts: EventId -> bool)
    requires PublishedTo(s, s', w, start, ids, accepts, |ids|)
    ensures var end := Apply(s', CommitBatch(w));
            && end.rows == AfterBatch(s.rows, ids, (set x | x in ids && accepts(x)), start)
            && end.log == s.log + Letters(Accepted(ids, accepts)) && end.workers == s.workers
  {
    assert ids[..|ids|] == ids;
    hide AfterBatch, Accepted;
  }
}
