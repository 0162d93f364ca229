/** One consumer as the code runs it: the inbox transaction, the bounded retries, the dead-letter queue, the offset. */
module ConsumerLoop {
  import opened Outbox
  import opened RelayRuns
  import opened ConsumerRuns

  /** What may happen to one inbox transaction; `AckLost` commits although the caller is told it failed. */
  datatype Fate = Fine | InsertFails | EffectFails | CommitFails | AckLost

  predicate Commits(f: Fate) { f.Fine? || f.AckLost? }

  /** Whether the call reports an error: a duplicate is found out before the effect and the commit can fail. */
  predicate Reports(present: bool, f: Fate) { f.InsertFails? || (!present && !f.Fine?) }

  class InboxRepository {
    var ledger: set<(Group, EventId)>
    var effects: multiset<(Group, EventId)>

    ghost predicate Valid()
      reads this
    {
      effects == multiset(ledger)
    }

    constructor ()
      ensures Valid() && ledger == {}
    {
      ledger, effects := {}, multiset{};
    }

    /** Marker and side effect in one transaction: both are committed or neither is. */
    method ProcessOnce(consumer: Group, e: EventId, fate: Fate) returns (processed: bool, failed: bool)
      requires Valid()
      modifies this
      ensures Valid()
      ensures ledger == (if fate.Fine? || fate.AckLost? then old(ledger) + {(consumer, e)} else old(ledger))
      ensures failed <==> fate.InsertFails? || ((consumer, e) !in old(ledger) && !fate.Fine?)
      ensures processed <==> (consumer, e) !in old(ledger) && fate.Fine?
    {
      var key := (consumer, e);
      if fate.InsertFails? { return false, true; }
      if key in ledger {
        assert ledger + {key} == ledger;
        return false, false;
      }
      var marked := ledger + {key};
      if fate.EffectFails? { return false, true; }
      var done := effects + multiset{key};
      if fate.CommitFails? { return false, true; }
      assert multiset(marked) == multiset(ledger) + multiset{key};
      ledger, effects := marked, done;
      return fate.Fine?, !fate.Fine?;
    }
  }

  /** How the attempts at a message end: dealt with, given up on shutdown between two attempts, or all used up. */
  datatype Verdict = Dealt | Abandoned | UsedUp

  function VerdictOf(present: bool, fates: nat -> Fate, cancelled: nat -> bool, attempt: nat): Verdict
    decreases MAX_ATTEMPTS + 1 - attempt
  {
    if attempt > MAX_ATTEMPTS then UsedUp
    else if !Reports(present, fates(attempt)) then Verdict.Dealt
    else if attempt < MAX_ATTEMPTS && cancelled(attempt) then Abandoned
    else VerdictOf(present || Commits(fates(attempt)), fates, cancelled, attempt + 1)
  }

  /** Attempt by attempt: used up after three errors, abandoned between two, dealt with by the first attempt without an error. */
  lemma ThreeAttempts(present: bool, fates: nat -> Fate, cancelled: nat -> bool)
    ensures var second := present || fates(1).AckLost?;
            var third := second || fates(2).AckLost?;
            var e1 := fates(1).InsertFails? || (!present && !fates(1).Fine?);
            var e2 := fates(2).InsertFails? || (!second && !fates(2).Fine?);
            var e3 := fates(3).InsertFails? || (!third && !fates(3).Fine?);
            VerdictOf(present, fates, cancelled, 1) ==
              if !e1 then Verdict.Dealt
              else if cancelled(1) then Abandoned
              else if !e2 then Verdict.Dealt
              else if cancelled(2) then Abandoned
              else if !e3 then Verdict.Dealt else UsedUp
  {
    var second := present || Commits(fates(1));
    var third := second || Commits(fates(2));
    assert VerdictOf(third, fates, cancelled, 3) == if Reports(third, fates(3)) then UsedUp else Verdict.Dealt;
    assert VerdictOf(second, fates, cancelled, 2) ==
           if !Reports(second, fates(2)) then Verdict.Dealt else if cancelled(2) then Abandoned else VerdictOf(third, fates, cancelled, 3);
  }

  /** Where messages end up. */
  datatype Ends = Ends(dlq: set<nat>, dropped: set<nat>, abandoned: set<nat>, ledger: set<(Group, EventId)>)

  /** What the messages from lo to hi have come to. */
  ghost predicate Served(log: seq<Message>, name: Group, queue: bool, fates: (nat, nat) -> Fate, accepted: nat -> bool,
                         before: Ends, after: Ends, lo: nat, hi: nat)
  {
    && hi <= |log| && before.ledger <= after.ledger
    && (forall q | lo <= q < hi ::
          q in after.dlq || q in after.dropped || q in after.abandoned || (log[q].Envelope? && (name, log[q].id) in after.ledger))
    && (forall q | q in after.dlq && q !in before.dlq :: lo <= q < hi && MayFail(log, fates, q))
    && (forall q | q in after.dropped && q !in before.dropped :: lo <= q < hi && MayFail(log, fates, q))
    && (forall q | lo <= q < hi && log[q].Garbage? :: if queue && accepted(q) then q in after.dlq else q in after.dropped)
  }

  predicate MayFail(log: seq<Message>, fates: (nat, nat) -> Fate, q: nat)
    requires q < |log|
  {
    log[q].Garbage? || (!fates(q, 1).Fine? && !fates(q, 2).Fine? && !fates(q, 3).Fine?)
  }

  lemma NothingServed(log: seq<Message>, name: Group, queue: bool, fates: (nat, nat) -> Fate, accepted: nat -> bool, ends: Ends, lo: nat)
    requires lo <= |log|
    ensures Served(log, name, queue, fates, accepted, ends, ends, lo, lo)
  {
  }

  lemma ServedNext(log: seq<Message>, name: Group, queue: bool, fates: (nat, nat) -> Fate, accepted: nat -> bool,
                   before: Ends, was: Ends, after: Ends, lo: nat, p: nat, verdict: Verdict)
    requires Served(log, name, queue, fates, accepted, before, was, lo, p) && lo <= p < |log|
    requires after.dlq == (if verdict.UsedUp? && queue && accepted(p) then was.dlq + {p} else was.dlq)
    requires after.dropped == (if verdict.UsedUp? && !(queue && accepted(p)) then was.dropped + {p} else was.dropped)
    requires after.abandoned == (if verdict.Abandoned? then was.abandoned + {p} else was.abandoned)
    requires was.ledger <= after.ledger
    requires verdict == Verdict.Dealt ==> log[p].Envelope? && (name, log[p].id) in after.ledger
    requires verdict.UsedUp? ==> MayFail(log, fates, p)
    requires log[p].Garbage? ==> verdict.UsedUp?
    ensures Served(log, name, queue, fates, accepted, before, after, lo, p + 1)
  {
  }

  lemma ServedMeans(log: seq<Message>, name: Group, queue: bool, fates: (nat, nat) -> Fate, accepted: nat -> bool,
                    before: Ends, after: Ends, lo: nat, hi: nat)
    requires Served(log, name, queue, fates, accepted, before, after, lo, hi)
    ensures hi <= |log| && before.ledger <= after.ledger
    ensures forall p | lo <= p < hi ::
              p in after.dlq || p in after.dropped || p in after.abandoned
              || (log[p].Envelope? && multiset(after.ledger)[(name, log[p].id)] == 1)
    ensures forall p | (p in after.dlq && p !in before.dlq) || (p in after.dropped && p !in before.dropped) ::
              lo <= p < hi && (log[p].Garbage? || (!fates(p, 1).Fine? && !fates(p, 2).Fine? && !fates(p, 3).Fine?))
    ensures forall p | lo <= p < hi && log[p].Garbage? :: if queue && accepted(p) then p in after.dlq else p in after.dropped
  {
  }

  class Consumer {
    const name: Group
    const inbox: InboxRepository
    const queue: bool
    var dlq: set<nat>
    var dropped: set<nat>
    var abandoned: set<nat>
    var offset: nat

    ghost predicate Valid()
      reads this, inbox
    {
      inbox.Valid()
    }

    constructor (name: Group, inbox: InboxRepository, queue: bool)
      requires inbox.Valid()
      ensures Valid() && this.name == name && this.inbox == inbox && this.queue == queue
      ensures dlq == {} && dropped == {} && abandoned == {} && offset == 0
    {
      this.name, this.inbox, this.queue, dlq, dropped, abandoned, offset := name, inbox, queue, {}, {}, {}, 0;
    }

    /** Without a queue, or when it refuses, the message is only logged. */
    method DeadLetter(p: nat, accepted: bool)
      modifies `dlq, `dropped
      ensures dlq == (if queue && accepted then old(dlq) + {p} else old(dlq))
      ensures dropped == (if queue && accepted then old(dropped) else old(dropped) + {p})
    {
      if !queue || !accepted { dropped := dropped + {p}; } else { dlq := dlq + {p}; }
    }

    /** One message: dead-lettered exactly if it does not decode or all three attempts report an error. */
    method Process(log: seq<Message>, p: nat, fates: nat -> Fate, cancelled: nat -> bool, accepted: bool) returns (verdict: Verdict)
      requires Valid() && p < |log|
      modifies `dlq, `dropped, `abandoned, inbox
      ensures Valid() && verdict == if log[p].Garbage? then UsedUp
                                    else VerdictOf((name, log[p].id) in old(inbox.ledger), fates, cancelled, 1)
      ensures dlq == (if verdict.UsedUp? && queue && accepted then old(dlq) + {p} else old(dlq))
      ensures dropped == (if verdict.UsedUp? && !(queue && accepted) then old(dropped) + {p} else old(dropped))
      ensures abandoned == (if verdict.Abandoned? then old(abandoned) + {p} else old(abandoned))
      ensures verdict.UsedUp? && log[p].Envelope? ==> !fates(1).Fine? && !fates(2).Fine? && !fates(3).Fine?
      ensures verdict.Abandoned? ==> cancelled(1) || cancelled(2)
      ensures verdict == Verdict.Dealt ==> log[p].Envelope? && (name, log[p].id) in inbox.ledger
      ensures log[p].Garbage? ==> inbox.ledger == old(inbox.ledger)
      ensures log[p].Envelope? ==> old(inbox.ledger) <= inbox.ledger <= old(inbox.ledger) + {(name, log[p].id)}
    {
      if log[p].Garbage? {
        DeadLetter(p, accepted);
        return UsedUp;
      }
      var e := log[p].id;
      ghost var present := (name, e) in inbox.ledger;
      ThreeAttempts(present, fates, cancelled);
      var attempt := 1;
      while attempt <= MAX_ATTEMPTS
        invariant 1 <= attempt <= MAX_ATTEMPTS + 1 && inbox.Valid()
        invariant old(inbox.ledger) <= inbox.ledger <= old(inbox.ledger) + {(name, e)}
        invariant VerdictOf(present, fates, cancelled, 1) == VerdictOf((name, e) in inbox.ledger, fates, cancelled, attempt)
        invariant dlq == old(dlq) && dropped == old(dropped) && abandoned == old(abandoned)
        decreases MAX_ATTEMPTS + 1 - attempt
      {
        var processed, failed := inbox.ProcessOnce(name, e, fates(attempt));
        if !failed { return Verdict.Dealt; }
        if attempt < MAX_ATTEMPTS && cancelled(attempt) {
          abandoned := abandoned + {p};
          return Abandoned;
        }
        attempt := attempt + 1;
      }
      DeadLetter(p, accepted);
      return UsedUp;
    }

    ghost function Now(): Ends
      reads this, inbox
    {
      Ends(dlq, dropped, abandoned, inbox.ledger)
    }

    /** The message fetched at p, after those from `lo` on. */
    method ProcessNext(log: seq<Message>, p: nat, fates: (nat, nat) -> Fate, cancelled: (nat, nat) -> bool, accepted: nat -> bool,
                       ghost before: Ends, ghost lo: nat)
      returns (verdict: Verdict)
      requires Valid() && lo <= p < |log| && Served(log, name, queue, fates, accepted, before, Now(), lo, p)
      modifies `dlq, `dropped, `abandoned, inbox
      ensures Valid() && Served(log, name, queue, fates, accepted, before, Now(), lo, p + 1)
      ensures abandoned == (if verdict.Abandoned? then old(abandoned) + {p} else old(abandoned))
      ensures verdict.Abandoned? ==> cancelled(p, 1) || cancelled(p, 2)
    {
      hide VerdictOf, Served;
      ghost var was := Now();
      verdict := Process(log, p, (attempt: nat) => fates(p, attempt), (attempt: nat) => cancelled(p, attempt), accepted(p));
      ServedNext(log, name, queue, fates, accepted, before, was, Now(), lo, p, verdict);
    }

    /**
     Fetch, process, commit the offset; a commit that fails is only logged, and the next one covers it. A shutdown
     ends the loop at `stop`, after the message it interrupted.
     */
    method Run(log: seq<Message>, fates: (nat, nat) -> Fate, cancelled: (nat, nat) -> bool, accepted: nat -> bool, stored: nat -> bool)
      returns (stop: nat)
      requires Valid() && offset <= |log|
      modifies this, inbox
      ensures Valid() && old(offset) <= offset <= stop <= |log| && old(inbox.ledger) <= inbox.ledger
      ensures forall p | old(offset) <= p < stop ::
                p in dlq || p in dropped || p in abandoned || (log[p].Envelope? && inbox.effects[(name, log[p].id)] == 1)
      ensures forall p | (p in dlq && p !in old(dlq)) || (p in dropped && p !in old(dropped)) ::
                old(offset) <= p < stop && (log[p].Garbage? || (!fates(p, 1).Fine? && !fates(p, 2).Fine? && !fates(p, 3).Fine?))
      ensures forall p | p in abandoned && p !in old(abandoned) :: old(offset) <= p < stop && (cancelled(p, 1) || cancelled(p, 2))
      ensures forall p | old(offset) <= p < stop && log[p].Garbage? :: if queue && accepted(p) then p in dlq else p in dropped
      ensures forall p | offset <= p < stop :: !stored(p)
      ensures offset > old(offset) ==> stored(offset - 1)
      ensures stop < |log| ==> stop > old(offset) && stop - 1 in abandoned
    {
      hide VerdictOf, Served;
      stop := offset;
      ghost var before := Now();
      NothingServed(log, name, queue, fates, accepted, before, stop);
      while stop < |log|
        invariant Valid() && old(offset) <= offset <= stop <= |log|
        invariant Served(log, name, queue, fates, accepted, before, Now(), old(offset), stop)
        invariant abandoned == old(abandoned)
        invariant forall q | offset <= q < stop :: !stored(q)
        invariant offset > old(offset) ==> stored(offset - 1)
      {
        var p := stop;
        var verdict := ProcessNext(log, p, fates, cancelled, accepted, before, old(offset));
        stop := p + 1;
        if stored(p) { offset := p + 1; }
        if verdict.Abandoned? { break; }
      }
      ServedMeans(log, name, queue, fates, accepted, before, Now(), old(offset), stop);
    }
  }
}
