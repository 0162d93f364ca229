/**
 Order of publication within an aggregate: exactly when a later event overtakes an earlier one, and
 when first copies stay in id order.
 */
module RelayOrder {
  import opened Results
  import opened Outbox
  import opened RelayRuns

  // --- What a run cannot change ---

  predicate Earlier(rows: map<EventId, Row>, e: EventId, f: EventId) {
    e in rows && f in rows && e < f && rows[e].aggregate == rows[f].aggregate
  }

  lemma StepKeepsAggregates(s: Relay, step: Step, x: EventId)
    requires Enabled(s, step) && x in s.rows
    ensures x in Apply(s, step).rows && Apply(s, step).rows[x].aggregate == s.rows[x].aggregate
  {
  }

  /** A row of an aggregate that appears in a step is newer than all that were there. */
  lemma StepAddsNewest(s: Relay, step: Step, e: EventId, f: EventId)
    requires Enabled(s, step) && f in s.rows && Earlier(Apply(s, step).rows, e, f)
    ensures Earlier(s.rows, e, f)
  {
    StepKeepsAggregates(s, step, f);
    if e in s.rows { StepKeepsAggregates(s, step, e); }
  }

  lemma {:induction false} EarlierAllAlong(states: seq<Relay>, steps: seq<Step>, c: nat, p: nat, e: EventId, f: EventId)
    requires Run(states, steps) && c <= p <= |steps| && f in states[c].rows && Earlier(states[p].rows, e, f)
    ensures Earlier(states[c].rows, e, f)
    decreases p
  {
    hide Enabled, Apply, Earlier;
    if c < p {
      RowStays(states, steps, c, p - 1, f);
      StepAddsNewest(states[p - 1], steps[p - 1], e, f);
      EarlierAllAlong(states, steps, c, p - 1, e, f);
    }
  }

  lemma {:induction false} RowStays(states: seq<Relay>, steps: seq<Step>, c: nat, p: nat, x: EventId)
    requires Run(states, steps) && c <= p <= |steps| && x in states[c].rows
    ensures x in states[p].rows
    decreases p
  {
    hide Enabled, Apply;
    if c < p {
      RowStays(states, steps, c, p - 1, x);
      StepKeepsAggregates(states[p - 1], steps[p - 1], x);
    }
  }

  // --- Who writes what ---

  predicate Writes(s: Relay, step: Step, e: EventId) {
    && step.Publish? && step.wrote && step.w in s.workers
    && var b := s.workers[step.w]; b.done < |b.claimed| && b.claimed[b.done] == e
  }

  lemma CopiesGrowByWrites(s: Relay, step: Step, e: EventId)
    requires Enabled(s, step)
    ensures Copies(Apply(s, step).log, e) == Copies(s.log, e) + if Writes(s, step, e) then 1 else 0
  {
  }

  /** Some step between c and p writes e. */
  ghost predicate Written(states: seq<Relay>, steps: seq<Step>, c: nat, p: nat, e: EventId)
    requires p <= |steps| < |states|
  {
    exists k | c <= k < p :: Writes(states[k], steps[k], e)
  }

  lemma {:induction false} UnwrittenIffNoCopies(states: seq<Relay>, steps: seq<Step>, c: nat, p: nat, e: EventId)
    requires Run(states, steps) && c <= p <= |steps| && Copies(states[c].log, e) == 0
    ensures Copies(states[p].log, e) == 0 <==> !Written(states, steps, c, p, e)
    decreases p
  {
    hide Enabled, Apply, Writes, Copies;
    if c < p {
      UnwrittenIffNoCopies(states, steps, c, p - 1, e);
      CopiesGrowByWrites(states[p - 1], steps[p - 1], e);
      if k :| c <= k < p && Writes(states[k], steps[k], e) && k < p - 1 {
        assert Written(states, steps, c, p - 1, e);
      }
      if k :| c <= k < p - 1 && Writes(states[k], steps[k], e) {
        assert Written(states, steps, c, p, e);
      }
    }
  }

  // --- One batch, from its claim to one of its publishes ---

  /** Worker w claimed `b.claimed` in step c and has kept that batch open up to state p. */
  ghost predicate OpenSince(states: seq<Relay>, steps: seq<Step>, c: nat, p: nat, w: WorkerId) {
    && Run(states, steps) && RelayInv(states[0]) && c < p <= |steps| && steps[c].Claim? && steps[c].w == w
    && forall k | c < k <= p :: w in states[k].workers
  }

  lemma {:induction false} InvAlong(states: seq<Relay>, steps: seq<Step>, n: nat)
    requires Run(states, steps) && RelayInv(states[0]) && n <= |steps|
    ensures RelayInv(states[n])
  {
    hide RelayInv, Enabled, Apply;
    if n > 0 {
      InvAlong(states, steps, n - 1);
      StepKeepsRelay(states[n - 1], steps[n - 1]);
    }
  }

  lemma BatchStays(s: Relay, step: Step, w: WorkerId)
    requires Enabled(s, step) && w in s.workers && w in Apply(s, step).workers
    ensures var b, b' := s.workers[w], Apply(s, step).workers[w];
            && b'.claimed == b.claimed && b'.start == b.start
            && (b' == b || (step.Publish? && step.w == w))
  {
  }

  lemma ClaimOpens(s: Relay, step: Step)
    requires Enabled(s, step) && step.Claim?
    ensures step.w in Apply(s, step).workers
    ensures Apply(s, step).workers[step.w] == Batch(step.start, step.ids, 0, {}, {}) && Apply(s, step).log == s.log
  {
  }

  /** The step from state k to the next. */
  lemma Taken(states: seq<Relay>, steps: seq<Step>, k: nat)
    requires Run(states, steps) && k < |steps|
    ensures Enabled(states[k], steps[k]) && states[k + 1] == Apply(states[k], steps[k])
  {
  }

  lemma {:induction false} SameBatch(states: seq<Relay>, steps: seq<Step>, c: nat, p: nat, w: WorkerId)
    requires OpenSince(states, steps, c, p, w)
    ensures states[p].workers[w].claimed == steps[c].ids && states[p].workers[w].start == steps[c].start
    decreases p
  {
    hide Enabled, Apply, RelayInv;
    Taken(states, steps, p - 1);
    if c + 1 < p {
      SameBatch(states, steps, c, p - 1, w);
      BatchStays(states[p - 1], steps[p - 1], w);
    } else {
      ClaimOpens(states[c], steps[c]);
    }
  }

  /** A claimed event is written by its own batch or not at all, once its turn has come. */
  ghost predicate TurnTaken(s: Relay, w: WorkerId, j: nat)
    requires w in s.workers && j < |s.workers[w].claimed|
  {
    var b := s.workers[w];
    var e := b.claimed[j];
    if b.done <= j then Copies(s.log, e) == 0 && e !in b.silent else Copies(s.log, e) == 0 <==> e in b.silent
  }

  lemma OnlyTheHolderWrites(s: Relay, step: Step, w: WorkerId, e: EventId)
    requires Locked(s) && w in s.workers && ClaimedBy(s.workers[w], e) && Writes(s, step, e)
    ensures step.w == w
  {
    assert ClaimedBy(s.workers[step.w], e);
  }

  lemma TurnsAreTaken(s: Relay, step: Step, w: WorkerId, j: nat)
    requires Locked(s) && Enabled(s, step) && w in s.workers && w in Apply(s, step).workers
    requires j < |s.workers[w].claimed| && TurnTaken(s, w, j)
    ensures j < |Apply(s, step).workers[w].claimed| && TurnTaken(Apply(s, step), w, j)
  {
    hide Copies, Locked;
    var b := s.workers[w];
    var e := b.claimed[j];
    assert ClaimedBy(b, e);
    HeldOnce(s, w);
    BatchStays(s, step, w);
    CopiesGrowByWrites(s, step, e);
    if Writes(s, step, e) { OnlyTheHolderWrites(s, step, w, e); }
  }

  lemma HeldOnce(s: Relay, w: WorkerId)
    requires Locked(s) && w in s.workers
    ensures Ascending(s.workers[w].claimed) && s.workers[w].done <= |s.workers[w].claimed|
    ensures forall e | e in s.workers[w].silent :: e in s.workers[w].claimed[..s.workers[w].done]
  {
    assert BatchOk(s.rows, s.workers[w]);
  }

  lemma {:induction false} TurnsAlong(states: seq<Relay>, steps: seq<Step>, c: nat, p: nat, w: WorkerId, j: nat)
    requires OpenSince(states, steps, c, p, w) && j < |steps[c].ids| && Copies(states[c].log, steps[c].ids[j]) == 0
    ensures j < |states[p].workers[w].claimed| && TurnTaken(states[p], w, j)
    decreases p
  {
    hide Enabled, Apply, RelayInv, TurnTaken, Copies;
    Taken(states, steps, p - 1);
    if c + 1 < p {
      TurnsAlong(states, steps, c, p - 1, w, j);
      InvAlong(states, steps, p - 1);
      LocksOf(states[p - 1]);
      TurnsAreTaken(states[p - 1], steps[p - 1], w, j);
    } else {
      ClaimOpens(states[c], steps[c]);
      FirstTurn(states[p], w, j);
    }
  }

  lemma LocksOf(s: Relay)
    requires RelayInv(s)
    ensures Locked(s)
  {
  }

  lemma FirstTurn(s: Relay, w: WorkerId, j: nat)
    requires w in s.workers && j < |s.workers[w].claimed| && s.workers[w].done == 0 && s.workers[w].silent == {}
    requires Copies(s.log, s.workers[w].claimed[j]) == 0
    ensures TurnTaken(s, w, j)
  {
  }

  // --- Exactly when an earlier event is overtaken ---

  /** What made the claim pass e over: it was settled, backed off past the batch's start, or locked by another batch. */
  predicate PassedOver(s: Relay, start: int, e: EventId)
    requires e in s.rows
  {
    s.rows[e].published.Some? || s.rows[e].dead.Some? || s.rows[e].nextAt > start || e in Held(s.workers)
  }

  lemma ClaimTakesOrPasses(s: Relay, step: Step, e: EventId, f: EventId)
    requires Enabled(s, step) && step.Claim? && f in step.ids && e in s.rows && e < f
    ensures e in step.ids <==> !PassedOver(s, step.start, e)
  {
    assert e !in step.ids && Claimable(s.rows, step.start, Held(s.workers), e) ==> f < e;
  }

  /** The bookkeeping half: refused in this very batch, or passed over and not written since. */
  lemma OvertakenUnlessWritten(states: seq<Relay>, steps: seq<Step>, c: nat, p: nat, w: WorkerId, e: EventId)
    requires OpenSince(states, steps, c, p, w) && states[p].workers[w].done < |states[p].workers[w].claimed|
    requires Earlier(states[p].rows, e, states[p].workers[w].claimed[states[p].workers[w].done])
    requires Copies(states[c].log, e) == 0
    ensures e in states[c].rows
    ensures Copies(states[p].log, e) == 0 <==>
              || e in states[p].workers[w].silent
              || (PassedOver(states[c], steps[c].start, e) && !Written(states, steps, c, p, e))
  {
    hide Copies, Written, PassedOver, RelayInv;
    var b := states[p].workers[w];
    var f := b.claimed[b.done];
    SameBatch(states, steps, c, p, w);
    InvAlong(states, steps, p);
    ClaimedIsThere(states[c], steps[c], f);
    EarlierAllAlong(states, steps, c, p, e, f);
    ClaimTakesOrPasses(states[c], steps[c], e, f);
    UnwrittenIffNoCopies(states, steps, c, p, e);
    BatchIsOrdered(states[p], w, e);
    if e in steps[c].ids {
      var j :| 0 <= j < |b.claimed| && b.claimed[j] == e;
      TurnsAlong(states, steps, c, p, w, j);
      assert j < b.done;
    }
  }

  lemma ClaimedIsThere(s: Relay, step: Step, f: EventId)
    requires Enabled(s, step) && step.Claim? && f in step.ids
    ensures f in s.rows
  {
    assert Claimable(s.rows, step.start, Held(s.workers), f);
  }

  lemma BatchIsOrdered(s: Relay, w: WorkerId, e: EventId)
    requires RelayInv(s) && w in s.workers
    ensures Ascending(s.workers[w].claimed) && (e in s.workers[w].silent ==> e in s.workers[w].claimed)
  {
    HeldOnce(s, w);
  }

  // --- Who can still write an event that was passed over ---

  /** Worker v claims e anew: it is due again and nobody holds it. */
  predicate Reclaims(s: Relay, step: Step, v: WorkerId, e: EventId) {
    step.Claim? && step.w == v && e in step.ids && e in s.rows && Due(s.rows[e], step.start) && e !in Held(s.workers)
  }

  /** At state k worker v has e from a batch that held it at claim c already, or that claimed it anew since. */
  ghost predicate TakenBy(states: seq<Relay>, steps: seq<Step>, c: nat, k: nat, v: WorkerId, e: EventId)
    requires c <= k <= |steps| < |states|
  {
    || (v in states[c].workers && ClaimedBy(states[c].workers[v], e))
    || exists j | c < j < k :: Reclaims(states[j], steps[j], v, e)
  }

  /** Between claim c and state p a batch that held e, or claimed it once it was due again and free, wrote it. */
  ghost predicate Retaken(states: seq<Relay>, steps: seq<Step>, c: nat, p: nat, e: EventId)
    requires p <= |steps| < |states|
  {
    exists k | c <= k < p :: Writes(states[k], steps[k], e) && TakenBy(states, steps, c, k, steps[k].w, e)
  }

  lemma BatchBegins(s: Relay, step: Step, v: WorkerId, e: EventId)
    requires Enabled(s, step) && v in Apply(s, step).workers && ClaimedBy(Apply(s, step).workers[v], e)
    ensures if v in s.workers then ClaimedBy(s.workers[v], e) else Reclaims(s, step, v, e)
  {
    if v in s.workers { BatchStays(s, step, v); }
    else { assert step.Claim? ==> Claimable(s.rows, step.start, Held(s.workers), e); }
  }

  lemma {:induction false} OriginOf(states: seq<Relay>, steps: seq<Step>, c: nat, k: nat, v: WorkerId, e: EventId)
    requires Run(states, steps) && c <= k <= |steps| && c < |steps| && steps[c].Claim? && e !in steps[c].ids
    requires v in states[k].workers && ClaimedBy(states[k].workers[v], e)
    ensures TakenBy(states, steps, c, k, v, e)
    decreases k
  {
    hide Enabled, Apply;
    if c < k {
      Taken(states, steps, k - 1);
      BatchBegins(states[k - 1], steps[k - 1], v, e);
      if v in states[k - 1].workers { OriginOf(states, steps, c, k - 1, v, e); }
    }
  }

  lemma WrittenIffRetaken(states: seq<Relay>, steps: seq<Step>, c: nat, p: nat, e: EventId)
    requires Run(states, steps) && c <= p <= |steps| && c < |steps| && steps[c].Claim? && e !in steps[c].ids
    ensures Written(states, steps, c, p, e) <==> Retaken(states, steps, c, p, e)
  {
    hide Enabled, Apply, TakenBy;
    if Written(states, steps, c, p, e) {
      var k :| c <= k < p && Writes(states[k], steps[k], e);
      OriginOf(states, steps, c, k, steps[k].w, e);
    }
  }

  lemma DeadStays(s: Relay, step: Step, e: EventId)
    requires RelayInv(s) && Enabled(s, step) && e in s.rows && s.rows[e].dead.Some?
    ensures !Writes(s, step, e) && e in Apply(s, step).rows && Apply(s, step).rows[e].dead.Some?
  {
    if (step.Publish? || step.CommitBatch?) && step.w in s.workers {
      assert BatchOk(s.rows, s.workers[step.w]);
      assert e !in s.workers[step.w].claimed;
    }
  }

  lemma {:induction false} DeadIsNeverWritten(states: seq<Relay>, steps: seq<Step>, c: nat, p: nat, e: EventId)
    requires Run(states, steps) && RelayInv(states[0]) && c <= p <= |steps| && e in states[c].rows && states[c].rows[e].dead.Some?
    ensures e in states[p].rows && states[p].rows[e].dead.Some? && !Written(states, steps, c, p, e)
    decreases p
  {
    hide Enabled, Apply, RelayInv, Writes;
    if c < p {
      DeadIsNeverWritten(states, steps, c, p - 1, e);
      InvAlong(states, steps, p - 1);
      Taken(states, steps, p - 1);
      DeadStays(states[p - 1], steps[p - 1], e);
      assert !Written(states, steps, c, p - 1, e);
    }
  }

  /**
   Overtaking, exactly, for any number of workers. Worker w is about to publish f, from a batch it claimed in step c,
   and at the claim no copy of the earlier event e of the same aggregate existed. There is still none exactly if
   this very batch had e refused without a write; or e was dead; or it was backed off past the batch's start or held
   by another batch, and no batch that held it, or claimed it once it was due and free again, has written it.
   */
  lemma OvertakenIff(states: seq<Relay>, steps: seq<Step>, c: nat, p: nat, w: WorkerId, e: EventId)
    requires OpenSince(states, steps, c, p, w) && states[p].workers[w].done < |states[p].workers[w].claimed|
    requires Earlier(states[p].rows, e, states[p].workers[w].claimed[states[p].workers[w].done])
    requires Copies(states[c].log, e) == 0
    ensures e in states[c].rows
    ensures Copies(states[p].log, e) == 0 <==>
              || e in states[p].workers[w].silent
              || states[c].rows[e].dead.Some?
              || ((states[c].rows[e].nextAt > steps[c].start || e in Held(states[c].workers)) && !Retaken(states, steps, c, p, e))
  {
    hide Copies, RelayInv, Written, Retaken, Held;
    OvertakenUnlessWritten(states, steps, c, p, w, e);
    InvAlong(states, steps, c);
    UnloggedIsUnpublished(states[c], e);
    Taken(states, steps, c);
    ClaimedIsDue(states[c], steps[c], e);
    InvAlong(states, steps, p);
    SameBatch(states, steps, c, p, w);
    BatchIsOrdered(states[p], w, e);
    if states[c].rows[e].dead.Some? { DeadIsNeverWritten(states, steps, c, p, e); }
    if PassedOver(states[c], steps[c].start, e) { WrittenIffRetaken(states, steps, c, p, e); }
  }

  /** At most one open batch in every state. */
  ghost predicate OneAtATime(states: seq<Relay>) {
    forall k, v, w | 0 <= k < |states| && v in states[k].workers && w in states[k].workers :: v == w
  }

  /**
   With one worker at a time the condition is the guard of the branch alone: e was refused without a write in this
   batch, or at its claim e was dead or backed off past the batch's start.
   */
  lemma OvertakenIffAlone(states: seq<Relay>, steps: seq<Step>, c: nat, p: nat, w: WorkerId, e: EventId)
    requires OpenSince(states, steps, c, p, w) && states[p].workers[w].done < |states[p].workers[w].claimed|
    requires Earlier(states[p].rows, e, states[p].workers[w].claimed[states[p].workers[w].done])
    requires Copies(states[c].log, e) == 0 && OneAtATime(states)
    ensures e in states[c].rows
    ensures Copies(states[p].log, e) == 0 <==>
              || e in states[p].workers[w].silent
              || states[c].rows[e].dead.Some? || states[c].rows[e].nextAt > steps[c].start
  {
    hide Copies, RelayInv;
    OvertakenUnlessWritten(states, steps, c, p, w, e);
    InvAlong(states, steps, c);
    UnloggedIsUnpublished(states[c], e);
    if PassedOver(states[c], steps[c].start, e) && e !in steps[c].ids {
      NobodyElseWrites(states, steps, c, p, w, e);
    }
    ClaimedIsDue(states[c], steps[c], e);
    Taken(states, steps, c);
    ClaimsAlone(states[c], steps[c]);
  }

  lemma UnloggedIsUnpublished(s: Relay, e: EventId)
    requires RelayInv(s) && e in s.rows && Copies(s.log, e) == 0
    ensures s.rows[e].published.None?
  {
    assert CopiesAccounted(s, e);
  }

  lemma ClaimedIsDue(s: Relay, step: Step, e: EventId)
    requires Enabled(s, step) && step.Claim? && e in s.rows
    ensures e in step.ids ==> !PassedOver(s, step.start, e)
  {
    assert e in step.ids ==> Claimable(s.rows, step.start, Held(s.workers), e);
  }

  lemma ClaimsAlone(s: Relay, step: Step)
    requires Enabled(s, step) && step.Claim?
    requires forall v, w | v in Apply(s, step).workers && w in Apply(s, step).workers :: v == w
    ensures s.workers == map[] && Held(s.workers) == {}
  {
    hide IsClaim;
    ClaimOpens(s, step);
    assert forall v | v in s.workers :: v in Apply(s, step).workers;
  }

  lemma NobodyElseWrites(states: seq<Relay>, steps: seq<Step>, c: nat, p: nat, w: WorkerId, e: EventId)
    requires OpenSince(states, steps, c, p, w) && OneAtATime(states) && e !in steps[c].ids
    ensures !Written(states, steps, c, p, e)
  {
    forall k | c <= k < p ensures !Writes(states[k], steps[k], e) {
      if k > c {
        OpenUpTo(states, steps, c, p, k, w);
        SameBatch(states, steps, c, k, w);
      }
    }
  }

  lemma OpenUpTo(states: seq<Relay>, steps: seq<Step>, c: nat, p: nat, k: nat, w: WorkerId)
    requires OpenSince(states, steps, c, p, w) && c < k <= p
    ensures OpenSince(states, steps, c, k, w)
  {
  }

  // --- When first copies stay in id order ---

  predicate Logged(log: seq<Message>, e: EventId) { Envelope(e) in log }

  /** No copy of a later event of an aggregate comes before the first copy of an earlier one. */
  ghost predicate InOrder(rows: map<EventId, Row>, log: seq<Message>) {
    forall i, e, f | 0 <= i < |log| && log[i] == Envelope(f) && Earlier(rows, e, f) :: Logged(log[..i], e)
  }

  /** Every attempted row has a copy in the log, and so has every row an open batch has gone through. */
  ghost predicate AttemptsLogged(s: Relay) {
    && (forall e | e in s.rows && (s.rows[e].attempts > 0 || s.rows[e].published.Some?) :: Logged(s.log, e))
    && (forall w, j | w in s.workers && 0 <= j < s.workers[w].done && j < |s.workers[w].claimed| :: Logged(s.log, s.workers[w].claimed[j]))
  }

  /** An event older than a claimed one of its aggregate is claimed as well, or logged already. */
  ghost predicate ClaimsAreClosed(s: Relay) {
    forall w, e, f | w in s.workers && ClaimedBy(s.workers[w], f) && Earlier(s.rows, e, f) ::
      ClaimedBy(s.workers[w], e) || Logged(s.log, e)
  }

  /** Among rows not yet attempted, an aggregate's later row is due no earlier. */
  ghost predicate StampsRise(rows: map<EventId, Row>) {
    forall e, f | Earlier(rows, e, f) && rows[e].attempts == 0 && rows[f].attempts == 0 :: rows[e].nextAt <= rows[f].nextAt
  }

  ghost predicate OrderInv(s: Relay) {
    RelayInv(s) && InOrder(s.rows, s.log) && AttemptsLogged(s) && ClaimsAreClosed(s) && StampsRise(s.rows)
  }

  /** No refusal without a write, and an aggregate's events are stamped in the order they are committed. */
  ghost predicate Orderly(s: Relay, step: Step) {
    && (step.Publish? ==> step.wrote)
    && (step.DomainCommit? ==>
          forall x | x in s.rows && s.rows[x].aggregate == step.aggregate && s.rows[x].attempts == 0 :: s.rows[x].nextAt <= step.at)
  }

  lemma LoggedIsKnown(s: Relay, f: EventId)
    requires RelayInv(s) && Logged(s.log, f)
    ensures f in s.rows
  {
    assert CopiesAccounted(s, f);
    assert Envelope(f) in multiset(s.log);
    if w :| w in s.workers && f in s.workers[w].sent { assert BatchOk(s.rows, s.workers[w]); }
  }

  lemma AppendKeepsOrder(rows: map<EventId, Row>, log: seq<Message>, m: Message)
    requires InOrder(rows, log)
    requires forall e | m.Envelope? && Earlier(rows, e, m.id) :: Logged(log, e)
    ensures InOrder(rows, log + [m])
  {
    var more := log + [m];
    forall i, e, f | 0 <= i < |more| && more[i] == Envelope(f) && Earlier(rows, e, f) ensures Logged(more[..i], e) {
      if i < |log| { assert more[..i] == log[..i]; } else { assert more[..i] == log; }
    }
  }

  /** Rows change without a new member of any aggregate in front of a logged one. */
  lemma RowsKeepOrder(rows: map<EventId, Row>, after: map<EventId, Row>, log: seq<Message>)
    requires InOrder(rows, log)
    requires forall e, f | Earlier(after, e, f) && Logged(log, f) :: Earlier(rows, e, f)
    ensures InOrder(after, log)
  {
    forall i, e, f | 0 <= i < |log| && log[i] == Envelope(f) && Earlier(after, e, f) ensures Logged(log[..i], e) {
      assert log[i] in log;
    }
  }

  /** What comes before a published event in its aggregate has been published already. */
  lemma PublishIsInTurn(s: Relay, step: Step, e: EventId)
    requires OrderInv(s) && Enabled(s, step) && step.Publish?
    requires var b := s.workers[step.w]; Earlier(s.rows, e, b.claimed[b.done])
    ensures Logged(s.log, e)
  {
    hide RelayInv, InOrder, StampsRise;
    var b := s.workers[step.w];
    LocksOf(s);
    HeldOnce(s, step.w);
    assert ClaimedBy(b, b.claimed[b.done]);
    if ClaimedBy(b, e) {
      var j :| 0 <= j < |b.claimed| && b.claimed[j] == e;
      assert j < b.done;
    }
  }

  lemma PublishKeepsOrder(s: Relay, step: Step)
    requires OrderInv(s) && Enabled(s, step) && step.Publish? && step.wrote
    ensures InOrder(s.rows, Apply(s, step).log) && AttemptsLogged(Apply(s, step)) && ClaimsAreClosed(Apply(s, step))
  {
    hide RelayInv, InOrder, StampsRise, Earlier;
    var b, s' := s.workers[step.w], Apply(s, step);
    var f := b.claimed[b.done];
    assert s'.log == s.log + [Envelope(f)];
    forall e | Logged(s.log, e) ensures Logged(s'.log, e) {}
    forall e | Earlier(s.rows, e, f) ensures Logged(s.log, e) { PublishIsInTurn(s, step, e); }
    AppendKeepsOrder(s.rows, s.log, Envelope(f));
    forall w | w in s.workers ensures s'.workers[w].claimed == s.workers[w].claimed {}
  }

  lemma CommitKeepsOrder(s: Relay, step: Step)
    requires OrderInv(s) && Enabled(s, step) && step.CommitBatch?
    ensures var s' := Apply(s, step); InOrder(s'.rows, s'.log) && AttemptsLogged(s') && ClaimsAreClosed(s') && StampsRise(s'.rows)
  {
    hide RelayInv, InOrder;
    var b, s' := s.workers[step.w], Apply(s, step);
    forall e, f ensures Earlier(s'.rows, e, f) <==> Earlier(s.rows, e, f) {}
    RowsKeepOrder(s.rows, s'.rows, s.log);
    forall e | e in b.claimed ensures Logged(s.log, e) {
      var j :| 0 <= j < |b.claimed| && b.claimed[j] == e;
    }
  }

  lemma EndKeepsOrder(s: Relay, step: Step)
    requires OrderInv(s) && Enabled(s, step) && (step.Crash? || step.Foreign?)
    ensures var s' := Apply(s, step); InOrder(s'.rows, s'.log) && AttemptsLogged(s') && ClaimsAreClosed(s')
  {
    hide RelayInv, InOrder, StampsRise;
    var s' := Apply(s, step);
    forall e | Logged(s.log, e) ensures Logged(s'.log, e) {}
    if step.Foreign? { AppendKeepsOrder(s.rows, s.log, Garbage); }
  }

  lemma ClaimKeepsClosed(s: Relay, step: Step)
    requires OrderInv(s) && Enabled(s, step) && step.Claim? && s.workers == map[]
    ensures AttemptsLogged(Apply(s, step)) && ClaimsAreClosed(Apply(s, step))
  {
    hide RelayInv, IsClaim;
    var s' := Apply(s, step);
    ClaimOpens(s, step);
    forall e, f | f in step.ids && Earlier(s.rows, e, f) ensures e in step.ids || Logged(s.log, e) {
      ClaimedOrLogged(s, step, e, f);
    }
  }

  lemma ClaimedOrLogged(s: Relay, step: Step, e: EventId, f: EventId)
    requires OrderInv(s) && Enabled(s, step) && step.Claim? && s.workers == map[] && f in step.ids && Earlier(s.rows, e, f)
    ensures e in step.ids || Logged(s.log, e)
  {
    ClaimTakesOrPasses(s, step, e, f);
    assert Claimable(s.rows, step.start, Held(s.workers), f);
    assert RowOk(s.rows[e]);
    if s.rows[e].attempts == 0 && s.rows[f].attempts > 0 {
      assert Logged(s.log, f);
      var i :| 0 <= i < |s.log| && s.log[i] == Envelope(f);
      assert Logged(s.log[..i], e);
    }
  }

  lemma DomainKeepsOrder(s: Relay, step: Step)
    requires OrderInv(s) && Enabled(s, step) && step.DomainCommit? && Orderly(s, step)
    ensures var s' := Apply(s, step); InOrder(s'.rows, s'.log) && AttemptsLogged(s') && ClaimsAreClosed(s') && StampsRise(s'.rows)
  {
    hide InOrder, RelayInv;
    var s' := Apply(s, step);
    forall e, f | Earlier(s'.rows, e, f) && Logged(s.log, f) ensures Earlier(s.rows, e, f) { LoggedIsKnown(s, f); }
    RowsKeepOrder(s.rows, s'.rows, s.log);
    forall w, f | w in s.workers && ClaimedBy(s.workers[w], f) ensures f in s.rows { ClaimedIsKnown(s, w, f); }
  }

  lemma ClaimedIsKnown(s: Relay, w: WorkerId, f: EventId)
    requires RelayInv(s) && w in s.workers && ClaimedBy(s.workers[w], f)
    ensures f in s.rows
  {
    assert BatchOk(s.rows, s.workers[w]);
  }

  lemma StepKeepsOrder(s: Relay, step: Step)
    requires OrderInv(s) && Enabled(s, step) && Orderly(s, step) && (step.Claim? ==> s.workers == map[])
    ensures OrderInv(Apply(s, step))
  {
    hide RelayInv, InOrder, AttemptsLogged, ClaimsAreClosed, StampsRise, Enabled;
    StepKeepsRelay(s, step);
    match step
    case DomainCommit(_, _, _) => DomainKeepsOrder(s, step);
    case Claim(_, _, _, _) => ClaimKeepsClosed(s, step);
    case Publish(w, _, wrote) => PublishKeepsOrder(s, step);
    case CommitBatch(_) => CommitKeepsOrder(s, step);
    case _ => EndKeepsOrder(s, step);
  }

  /**
   With one worker at a time, no refusal without a write and stamps in commit order, the first copies of an
   aggregate's events are in id order, whatever crashes, retries and dead letters there are.
   */
  lemma {:induction false} FirstCopiesStayInOrder(states: seq<Relay>, steps: seq<Step>, n: nat)
    requires Run(states, steps) && Init(states[0]) && n <= |steps| && OneAtATime(states)
    requires forall k | 0 <= k < |steps| :: Orderly(states[k], steps[k])
    ensures RelayInv(states[n]) && InOrder(states[n].rows, states[n].log) && OrderInv(states[n])
  {
    hide RelayInv, InOrder, AttemptsLogged, ClaimsAreClosed, StampsRise, Enabled, Orderly, Apply;
    if n == 0 {
      StartsInOrder(states, steps);
    } else {
      FirstCopiesStayInOrder(states, steps, n - 1);
      Taken(states, steps, n - 1);
      if steps[n - 1].Claim? { ClaimsAlone(states[n - 1], steps[n - 1]); }
      StepKeepsOrder(states[n - 1], steps[n - 1]);
    }
  }

  lemma StartsInOrder(states: seq<Relay>, steps: seq<Step>)
    requires Run(states, steps) && Init(states[0])
    ensures OrderInv(states[0])
  {
    RunKeepsRelay(states, steps, 0);
  }

  // --- The other half has a witness ---

  const OVERTAKING: seq<Step> :=
    [DomainCommit(1, 7, 0), DomainCommit(2, 7, 0), Claim(0, 0, 10, [1, 2]), Publish(0, false, false), Publish(0, true, true),
     CommitBatch(0), Claim(0, 2, 10, [1]), Publish(0, true, true)]

  function Overtaken(k: nat): Relay {
    var empty := Relay(map[], [], map[], multiset{}, multiset{}, 0);
    var both := empty.(rows := map[1 := NewRow(7, 0), 2 := NewRow(7, 0)]);
    var failed := Relay(map[1 := Row(7, None, 1, 2, None, Some(0)), 2 := Row(7, Some(0), 0, 0, None, None)],
                        [Envelope(2)], map[], multiset{}, multiset{}, 2);
    if k == 0 then empty
    else if k == 1 then empty.(rows := map[1 := NewRow(7, 0)])
    else if k == 2 then both
    else if k == 3 then both.(workers := map[0 := Batch(0, [1, 2], 0, {}, {})])
    else if k == 4 then both.(workers := map[0 := Batch(0, [1, 2], 1, {}, {1})])
    else if k == 5 then both.(workers := map[0 := Batch(0, [1, 2], 2, {2}, {1})], log := [Envelope(2)])
    else if k == 6 then failed
    else if k == 7 then failed.(workers := map[0 := Batch(2, [1], 0, {}, {})])
    else failed.(workers := map[0 := Batch(2, [1], 1, {1}, {})], log := [Envelope(2), Envelope(1)])
  }

  ghost predicate Leads(s: Relay, step: Step, s': Relay) { Enabled(s, step) && s' == Apply(s, step) }

  lemma OvertakingCommits(k: nat)
    requires k in {0, 1}
    ensures Leads(Overtaken(k), OVERTAKING[k], Overtaken(k + 1))
  {
  }

  lemma OvertakingClaims(k: nat)
    requires k in {2, 6}
    ensures Leads(Overtaken(k), OVERTAKING[k], Overtaken(k + 1))
  {
    assert Held(Overtaken(k).workers) == {};
  }

  lemma OvertakingPublishes(k: nat)
    requires k in {3, 4, 7}
    ensures Leads(Overtaken(k), OVERTAKING[k], Overtaken(k + 1))
  {
    var none: set<EventId> := {};
    var silent: seq<Message> := [];
    assert none + {1} == {1} && none + {2} == {2};
    assert silent + [Envelope(2)] == [Envelope(2)] && [Envelope(2)] + [Envelope(1)] == [Envelope(2), Envelope(1)];
    assert Apply(Overtaken(k), OVERTAKING[k]).workers == Overtaken(k + 1).workers;
  }

  lemma OvertakingRecords()
    ensures Leads(Overtaken(5), OVERTAKING[5], Overtaken(6))
  {
    assert BackoffSeconds(1) == 2;
    assert AfterBatch(Overtaken(5).rows, [1, 2], {2}, 0) == Overtaken(6).rows;
  }

  lemma OvertakenEnds()
    ensures Init(Overtaken(0)) && Earlier(Overtaken(8).rows, 1, 2) && Overtaken(8).log == [Envelope(2), Envelope(1)]
  {
  }

  lemma OnlyWorkerZero(k: nat)
    ensures forall v | v in Overtaken(k).workers :: v == 0
  {
  }

  /** Two events of one aggregate, one refusal without a write, and the later event is in the log before the earlier one. */
  lemma BackedOffRowIsOvertaken() returns (states: seq<Relay>)
    ensures Run(states, OVERTAKING) && Init(states[0]) && OneAtATime(states)
    ensures Earlier(states[8].rows, 1, 2) && states[8].log == [Envelope(2), Envelope(1)]
  {
    hide Enabled, Apply, Overtaken, Earlier;
    states := seq(9, k requires 0 <= k => Overtaken(k));
    OvertakenEnds();
    forall k | 0 <= k < 9 ensures forall v | v in states[k].workers :: v == 0 { OnlyWorkerZero(k); }
    forall k | 0 <= k < |OVERTAKING|
      ensures Enabled(states[k], OVERTAKING[k]) && states[k + 1] == Apply(states[k], OVERTAKING[k])
    {
      if k == 5 { OvertakingRecords(); }
      else if k in {3, 4, 7} { OvertakingPublishes(k); }
      else if k in {2, 6} { OvertakingClaims(k); }
      else { OvertakingCommits(k); }
    }
  }
}
