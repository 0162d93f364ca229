/** The whole path from a committed event to its effects: relay workers, the log, and the consumer groups. */
module Pipeline {
  import opened Outbox
  import opened RelayRuns
  import opened ConsumerRuns

  datatype System = System(relay: Relay, groups: Groups)

  datatype Move = Relayed(step: Step) | Consumes(action: Action)

  ghost predicate Possible(s: System, m: Move) {
    match m
    case Relayed(step) => Enabled(s.relay, step)
    case Consumes(a) => CanAct(s.relay.log, s.groups, a)
  }

  function After(s: System, m: Move): System {
    match m
    case Relayed(step) => s.(relay := Apply(s.relay, step))
    case Consumes(a) => s.(groups := Act(s.relay.log, s.groups, a))
  }

  ghost predicate Starts(s: System) {
    RelayRuns.Init(s.relay) && s.groups == Groups(map[], map[], {}, multiset{}, {}, {}, {})
  }

  ghost predicate Runs(states: seq<System>, moves: seq<Move>) {
    && |states| == |moves| + 1 && Starts(states[0])
    && forall k | 0 <= k < |moves| :: Possible(states[k], moves[k]) && states[k + 1] == After(states[k], moves[k])
  }

  ghost predicate PipelineInv(s: System) { RelayInv(s.relay) && GroupsInv(s.relay.log, s.groups) }

  lemma LogOnlyGrows(s: Relay, step: Step)
    ensures s.log <= Apply(s, step).log
  {
  }

  lemma StartsWell(s: System)
    requires Starts(s)
    ensures PipelineInv(s)
  {
    forall e ensures CopiesAccounted(s.relay, e) {}
    assert Budget(s.relay.rows) == 0 by { assert Budgets(s.relay.rows) == map[]; }
  }

  lemma MoveKeepsPipeline(s: System, m: Move)
    requires PipelineInv(s) && Possible(s, m)
    ensures PipelineInv(After(s, m))
  {
    hide RelayInv, GroupsInv, Enabled, Act, CanAct;
    match m
    case Relayed(step) =>
      StepKeepsRelay(s.relay, step);
      LogOnlyGrows(s.relay, step);
      LogGrowthKeeps(s.relay.log, Apply(s.relay, step).log, s.groups);
    case Consumes(a) =>
      ActKeepsGroups(s.relay.log, s.groups, a);
  }

  lemma {:induction false} RunKeepsPipeline(states: seq<System>, moves: seq<Move>, n: nat)
    requires Runs(states, moves) && n <= |moves|
    ensures PipelineInv(states[n])
  {
    hide PipelineInv, Possible, After, Starts;
    if n > 0 {
      RunKeepsPipeline(states, moves, n - 1);
      MoveKeepsPipeline(states[n - 1], moves[n - 1]);
    } else {
      StartsWell(states[0]);
    }
  }

  lemma CountInSet(ledger: set<(Group, EventId)>, key: (Group, EventId))
    ensures multiset(ledger)[key] == if key in ledger then 1 else 0
  {
  }

  lemma LoggedWasCommitted(s: Relay, e: EventId)
    requires RelayInv(s) && Envelope(e) in s.log
    ensures e in s.rows
  {
    assert CopiesAccounted(s, e);
    assert Envelope(e) in multiset(s.log);
    if w :| w in s.workers && e in s.workers[w].sent { assert BatchOk(s.rows, s.workers[w]); }
  }

  lemma CountsOnce(s: System, group: Group, e: EventId)
    requires PipelineInv(s)
    ensures s.groups.effects[(group, e)] == if (group, e) in s.groups.ledger then 1 else 0
    ensures (group, e) in s.groups.effects ==> e in s.relay.rows
  {
    CountInSet(s.groups.ledger, (group, e));
    if (group, e) in s.groups.ledger {
      assert Logged(s.relay.log, e);
      LoggedWasCommitted(s.relay, e);
    }
  }

  /**
   Exactly once: in every reachable state the number of committed effects of an event for a group is one if
   its marker is in the ledger and zero otherwise, and no effect is of an event no domain transaction committed.
   */
  lemma ExactlyOnce(states: seq<System>, moves: seq<Move>, n: nat, group: Group, e: EventId)
    requires Runs(states, moves) && n <= |moves|
    ensures var c := states[n].groups; c.effects[(group, e)] == if (group, e) in c.ledger then 1 else 0
    ensures (group, e) in states[n].groups.effects ==> e in states[n].relay.rows
  {
    hide PipelineInv;
    RunKeepsPipeline(states, moves, n);
    CountsOnce(states[n], group, e);
  }

  /** The group has given up nothing: every dead letter was accepted and no message was dropped on shutdown. */
  ghost predicate NothingGivenUp(c: Groups, group: Group) {
    forall p: nat :: (group, p) !in c.dropped && (group, p) !in c.abandoned
  }

  ghost predicate DealtWith(s: System, group: Group, p: nat)
    requires p < |s.relay.log|
  {
    (group, p) in s.groups.dlq || (s.relay.log[p].Envelope? && s.groups.effects[(group, s.relay.log[p].id)] == 1)
  }

  lemma SkipsNothing(s: System, group: Group, p: nat)
    requires PipelineInv(s) && p < OffsetOf(s.groups, group)
    ensures p < |s.relay.log| && (NothingGivenUp(s.groups, group) ==> DealtWith(s, group, p))
  {
    var log, c := s.relay.log, s.groups;
    assert Consumed(log, c, group, c.offsets[group]);
    assert Handled(log, c, group, p);
    if log[p].Envelope? { CountsOnce(s, group, log[p].id); }
  }

  /** Whatever lies below a group's committed offset was processed or dead-lettered, unless the queue refused it. */
  lemma OffsetsSkipNothing(states: seq<System>, moves: seq<Move>, n: nat, group: Group, p: nat)
    requires Runs(states, moves) && n <= |moves| && p < OffsetOf(states[n].groups, group)
    ensures var log, c := states[n].relay.log, states[n].groups;
            && p < |log|
            && (NothingGivenUp(c, group) ==>
                  (group, p) in c.dlq || (log[p].Envelope? && c.effects[(group, log[p].id)] == 1))
  {
    hide PipelineInv;
    RunKeepsPipeline(states, moves, n);
    SkipsNothing(states[n], group, p);
  }

  ghost predicate CaughtUp(s: System, group: Group) {
    OffsetOf(s.groups, group) == |s.relay.log| && NothingGivenUp(s.groups, group)
  }

  /** The event took effect for the group exactly once, or a copy of it lies in the group's dead letters. */
  ghost predicate Delivered(s: System, group: Group, e: EventId) {
    || s.groups.effects[(group, e)] == 1
    || exists p | 0 <= p < |s.relay.log| :: s.relay.log[p] == Envelope(e) && (group, p) in s.groups.dlq
  }

  lemma Delivers(s: System, group: Group, e: EventId)
    requires PipelineInv(s) && IsPublished(s.relay.rows, e) && CaughtUp(s, group)
    ensures Delivered(s, group, e)
  {
    assert CopiesAccounted(s.relay, e);
    assert Envelope(e) in multiset(s.relay.log);
    var p :| 0 <= p < |s.relay.log| && s.relay.log[p] == Envelope(e);
    SkipsNothing(s, group, p);
  }

  /** End to end: once a group has caught up, every published event took effect for it exactly once or lies in its dead letters. */
  lemma CaughtUpMeansDelivered(states: seq<System>, moves: seq<Move>, n: nat, group: Group, e: EventId)
    requires Runs(states, moves) && n <= |moves|
    requires IsPublished(states[n].relay.rows, e) && CaughtUp(states[n], group)
    ensures Delivered(states[n], group, e)
  {
    hide PipelineInv, Delivered, CaughtUp;
    RunKeepsPipeline(states, moves, n);
    Delivers(states[n], group, e);
  }
}
