/**
 Consumer groups over the event log: any number of instances fetching, retrying through the inbox,
 dead-lettering and committing offsets, each of which may stop between any two steps.
 */
module ConsumerRuns {
  import opened Outbox
  import opened RelayRuns

  type Group = nat
  type InstanceId = nat

  const MAX_ATTEMPTS: nat := 3

  /** `marked`: the attempt's transaction holds the uncommitted (group, event) marker. */
  datatype Phase = Fetching | Trying(attempt: nat, marked: bool) | Exhausted | Dealt

  datatype Instance = Instance(group: Group, pos: nat, phase: Phase)

  /** `dropped`: dead letters the broker refused or no queue was configured for; `abandoned`: given up on shutdown. */
  datatype Groups = Groups(instances: map<InstanceId, Instance>, offsets: map<Group, nat>,
                           ledger: set<(Group, EventId)>, effects: multiset<(Group, EventId)>,
                           dlq: set<(Group, nat)>, dropped: set<(Group, nat)>, abandoned: set<(Group, nat)>)

  datatype Action =
    | Start(i: InstanceId, group: Group)
    | Fetch(i: InstanceId)
    | Mark(i: InstanceId)
    | CommitEffect(i: InstanceId, acked: bool)
    | FailAttempt(i: InstanceId)
    | Shutdown(i: InstanceId)
    | DeadLetter(i: InstanceId, published: bool)
    | CommitOffset(i: InstanceId, stored: bool)
    | Stop(i: InstanceId)

  predicate AtEnvelope(log: seq<Message>, x: Instance) { x.pos < |log| && log[x.pos].Envelope? }

  /** The ledger key of the message an instance stands at. */
  function KeyOf(log: seq<Message>, x: Instance): (Group, EventId)
    requires AtEnvelope(log, x)
  {
    (x.group, log[x.pos].id)
  }

  predicate Holds(log: seq<Message>, x: Instance, key: (Group, EventId)) {
    AtEnvelope(log, x) && x.phase.Trying? && x.phase.marked && KeyOf(log, x) == key
  }

  ghost predicate CanAct(log: seq<Message>, c: Groups, a: Action) {
    if a.Start? then a.i !in c.instances
    else if a.i !in c.instances then false
    else
      var x := c.instances[a.i];
      match a
      case Fetch(_) => x.phase.Fetching? && x.pos < |log|
      case Mark(i) =>
        && x.phase.Trying? && !x.phase.marked && AtEnvelope(log, x)
        && forall j | j in c.instances :: !Holds(log, c.instances[j], KeyOf(log, x))
      case CommitEffect(_, _) => x.phase.Trying? && x.phase.marked
      case FailAttempt(_) => x.phase.Trying?
      case Shutdown(_) => x.phase.Trying? && x.phase.attempt < MAX_ATTEMPTS
      case DeadLetter(_, _) => x.phase.Exhausted?
      case CommitOffset(_, _) => x.phase.Dealt?
      case Stop(_) => true
  }

  function NextAttempt(attempt: nat): Phase {
    if attempt < MAX_ATTEMPTS then Trying(attempt + 1, false) else Exhausted
  }

  function Moved(c: Groups, i: InstanceId, phase: Phase): Groups
    requires i in c.instances
  {
    c.(instances := c.instances[i := c.instances[i].(phase := phase)])
  }

  function OffsetOf(c: Groups, g: Group): nat { if g in c.offsets then c.offsets[g] else 0 }

  function Act(log: seq<Message>, c: Groups, a: Action): Groups {
    if a.Start? then c.(instances := c.instances[a.i := Instance(a.group, OffsetOf(c, a.group), Fetching)])
    else if a.i !in c.instances then c
    else
      var x := c.instances[a.i];
      var here := (x.group, x.pos);
      match a
      case Fetch(i) => Moved(c, i, if AtEnvelope(log, x) then Trying(1, false) else Exhausted)
      case Mark(i) => if AtEnvelope(log, x) && x.phase.Trying? then Marked(log, c, i) else c
      case CommitEffect(i, acked) => if AtEnvelope(log, x) && x.phase.Trying? then Committed(log, c, i, acked) else c
      case FailAttempt(i) => if x.phase.Trying? then Moved(c, i, NextAttempt(x.phase.attempt)) else c
      case Shutdown(i) => Moved(c, i, Dealt).(abandoned := c.abandoned + {here})
      case DeadLetter(i, true) => Moved(c, i, Dealt).(dlq := c.dlq + {here})
      case DeadLetter(i, false) => Moved(c, i, Dealt).(dropped := c.dropped + {here})
      case CommitOffset(i, stored) =>
        c.(instances := c.instances[i := Instance(x.group, x.pos + 1, Fetching)],
           offsets := if stored then c.offsets[x.group := x.pos + 1] else c.offsets)
      case Stop(i) => c.(instances := c.instances - {i})
  }

  /** INSERT ... ON CONFLICT DO NOTHING: no row inserted means a duplicate, which is dealt with. */
  function Marked(log: seq<Message>, c: Groups, i: InstanceId): Groups
    requires i in c.instances && AtEnvelope(log, c.instances[i]) && c.instances[i].phase.Trying?
  {
    var x := c.instances[i];
    Moved(c, i, if KeyOf(log, x) in c.ledger then Dealt else x.phase.(marked := true))
  }

  /** Marker and effect commit together; a lost acknowledgement looks like a failed attempt. */
  function Committed(log: seq<Message>, c: Groups, i: InstanceId, acked: bool): Groups
    requires i in c.instances && AtEnvelope(log, c.instances[i]) && c.instances[i].phase.Trying?
  {
    var x := c.instances[i];
    var key := KeyOf(log, x);
    Moved(c, i, if acked then Dealt else NextAttempt(x.phase.attempt))
      .(ledger := c.ledger + {key}, effects := c.effects + multiset{key})
  }

  // --- What every action keeps ---

  predicate Logged(log: seq<Message>, e: EventId) { Envelope(e) in log }

  /** The marker is the proof of the effect: one effect per ledger entry, and no other. */
  ghost predicate EffectsMatch(log: seq<Message>, c: Groups) {
    && c.effects == multiset(c.ledger)
    && (forall key | key in c.ledger :: Logged(log, key.1))
    && (forall i, key | i in c.instances && Holds(log, c.instances[i], key) :: key !in c.ledger)
    && (forall i, j, key | i in c.instances && j in c.instances && i != j && Holds(log, c.instances[i], key) ::
          !Holds(log, c.instances[j], key))
  }

  predicate Handled(log: seq<Message>, c: Groups, g: Group, p: nat) {
    && p < |log|
    && ((log[p].Envelope? && (g, log[p].id) in c.ledger) || (g, p) in c.dlq || (g, p) in c.dropped || (g, p) in c.abandoned)
  }

  ghost predicate Consumed(log: seq<Message>, c: Groups, g: Group, n: nat) {
    forall p | 0 <= p < n :: Handled(log, c, g, p)
  }

  ghost predicate InstanceOk(log: seq<Message>, c: Groups, x: Instance) {
    && Consumed(log, c, x.group, x.pos)
    && (x.phase.Trying? ==> AtEnvelope(log, x) && 1 <= x.phase.attempt <= MAX_ATTEMPTS)
    && (x.phase.Exhausted? ==> x.pos < |log|)
    && (x.phase.Dealt? ==> Handled(log, c, x.group, x.pos))
  }

  ghost predicate OffsetsSafe(log: seq<Message>, c: Groups) {
    && (forall g | g in c.offsets :: Consumed(log, c, g, c.offsets[g]))
    && (forall i | i in c.instances :: InstanceOk(log, c, c.instances[i]))
  }

  ghost predicate GroupsInv(log: seq<Message>, c: Groups) { EffectsMatch(log, c) && OffsetsSafe(log, c) }

  predicate Grows(c: Groups, d: Groups) {
    c.ledger <= d.ledger && c.dlq <= d.dlq && c.dropped <= d.dropped && c.abandoned <= d.abandoned
  }

  lemma StaysConsumed(log: seq<Message>, more: seq<Message>, c: Groups, d: Groups, g: Group, n: nat)
    requires Consumed(log, c, g, n) && Grows(c, d) && log <= more
    ensures Consumed(more, d, g, n)
  {
    forall p | 0 <= p < n ensures Handled(more, d, g, p) { assert Handled(log, c, g, p); }
  }

  lemma StaysOk(log: seq<Message>, more: seq<Message>, c: Groups, d: Groups, x: Instance)
    requires InstanceOk(log, c, x) && Grows(c, d) && log <= more
    ensures InstanceOk(more, d, x)
  {
    StaysConsumed(log, more, c, d, x.group, x.pos);
  }

  /** The log only grows, and what was dealt with stays dealt with. */
  lemma LogGrowthKeeps(log: seq<Message>, more: seq<Message>, c: Groups)
    requires GroupsInv(log, c) && log <= more
    ensures GroupsInv(more, c)
  {
    forall i | i in c.instances ensures InstanceOk(more, c, c.instances[i]) { StaysOk(log, more, c, c, c.instances[i]); }
    forall g | g in c.offsets ensures Consumed(more, c, g, c.offsets[g]) { StaysConsumed(log, more, c, c, g, c.offsets[g]); }
    forall i, key | i in c.instances ensures Holds(more, c.instances[i], key) ==> Holds(log, c.instances[i], key) {
      assert InstanceOk(log, c, c.instances[i]);
    }
    forall key | key in c.ledger ensures Logged(more, key.1) { assert Logged(log, key.1); }
  }

  /** The state of one instance after an action is a good one. */
  lemma ActorStaysOk(log: seq<Message>, c: Groups, a: Action)
    requires GroupsInv(log, c) && CanAct(log, c, a) && !a.Stop?
    ensures var d := Act(log, c, a); Grows(c, d) && a.i in d.instances && InstanceOk(log, d, d.instances[a.i])
  {
    hide EffectsMatch;
    var d := Act(log, c, a);
    if a.Start? {
      assert Consumed(log, d, a.group, OffsetOf(c, a.group)) by {
        if a.group in c.offsets { StaysConsumed(log, log, c, d, a.group, c.offsets[a.group]); }
      }
    } else {
      var x := c.instances[a.i];
      assert InstanceOk(log, c, x);
      StaysConsumed(log, log, c, d, x.group, x.pos);
    }
  }

  lemma ActKeepsOffsets(log: seq<Message>, c: Groups, a: Action)
    requires GroupsInv(log, c) && CanAct(log, c, a)
    ensures OffsetsSafe(log, Act(log, c, a))
  {
    var d := Act(log, c, a);
    if !a.Stop? { ActorStaysOk(log, c, a); }
    assert Grows(c, d);
    forall j | j in d.instances ensures InstanceOk(log, d, d.instances[j]) {
      if j != a.i { StaysOk(log, log, c, d, c.instances[j]); }
    }
    forall g | g in d.offsets ensures Consumed(log, d, g, d.offsets[g]) {
      if a.CommitOffset? && g == c.instances[a.i].group && a.stored {
        assert InstanceOk(log, d, d.instances[a.i]);
      } else {
        StaysConsumed(log, log, c, d, g, c.offsets[g]);
      }
    }
  }

  lemma OneMoreMarker(ledger: set<(Group, EventId)>, key: (Group, EventId))
    requires key !in ledger
    ensures multiset(ledger + {key}) == multiset(ledger) + multiset{key}
  {
  }

  lemma CommitKeepsEffects(log: seq<Message>, c: Groups, a: Action)
    requires GroupsInv(log, c) && CanAct(log, c, a) && a.CommitEffect?
    ensures EffectsMatch(log, Act(log, c, a))
  {
    hide Consumed, Handled;
    var d, x := Act(log, c, a), c.instances[a.i];
    assert InstanceOk(log, c, x);
    hide InstanceOk, OffsetsSafe;
    var key := KeyOf(log, x);
    assert Holds(log, x, key);
    assert Logged(log, key.1) by { assert log[x.pos] in log; }
    OneMoreMarker(c.ledger, key);
    forall j, k | j in d.instances && Holds(log, d.instances[j], k) ensures j != a.i && k !in d.ledger {
      assert Holds(log, c.instances[j], k);
    }
  }

  lemma ActKeepsEffects(log: seq<Message>, c: Groups, a: Action)
    requires GroupsInv(log, c) && CanAct(log, c, a)
    ensures EffectsMatch(log, Act(log, c, a))
  {
    var d := Act(log, c, a);
    if a.CommitEffect? {
      CommitKeepsEffects(log, c, a);
    } else if a.Mark? {
      MarkKeepsEffects(log, c, a);
    } else {
      forall j, key | j in d.instances && Holds(log, d.instances[j], key) ensures j in c.instances && Holds(log, c.instances[j], key) {}
    }
  }

  lemma MarkKeepsEffects(log: seq<Message>, c: Groups, a: Action)
    requires GroupsInv(log, c) && CanAct(log, c, a) && a.Mark?
    ensures EffectsMatch(log, Act(log, c, a))
  {
    var d, x := Act(log, c, a), c.instances[a.i];
    var mine := KeyOf(log, x);
    forall j, key | j in d.instances && Holds(log, d.instances[j], key)
      ensures if j == a.i then key == mine && mine !in c.ledger else Holds(log, c.instances[j], key)
    {}
  }

  lemma ActKeepsGroups(log: seq<Message>, c: Groups, a: Action)
    requires GroupsInv(log, c) && CanAct(log, c, a)
    ensures GroupsInv(log, Act(log, c, a))
  {
    ActKeepsOffsets(log, c, a);
    ActKeepsEffects(log, c, a);
  }

  // --- One message, with nothing going wrong ---

  ghost predicate Acts(log: seq<Message>, c: Groups, a: Action, c': Groups) { CanAct(log, c, a) && Act(log, c, a) == c' }

  predicate Ready(log: seq<Message>, c: Groups, i: InstanceId) {
    i in c.instances && c.instances[i].phase.Fetching? && c.instances[i].pos < |log|
  }

  /** The instance past its message, with the offset committed. */
  function Past(c: Groups, i: InstanceId): Groups
    requires i in c.instances
  {
    var Instance(g, p, _) := c.instances[i];
    c.(instances := c.instances[i := Instance(g, p + 1, Fetching)], offsets := c.offsets[g := p + 1])
  }

  lemma CommitsOffset(log: seq<Message>, c: Groups, i: InstanceId)
    requires i in c.instances && c.instances[i].phase.Dealt?
    ensures Acts(log, c, CommitOffset(i, true), Past(c, i))
  {
  }

  lemma GarbageGoes(log: seq<Message>, c: Groups, i: InstanceId)
    requires Ready(log, c, i) && log[c.instances[i].pos].Garbage?
    ensures Acts(log, c, Fetch(i), Moved(c, i, Exhausted))
    ensures Acts(log, Moved(c, i, Exhausted), DeadLetter(i, true),
                 Moved(c, i, Dealt).(dlq := c.dlq + {(c.instances[i].group, c.instances[i].pos)}))
  {
    assert c.instances[i := c.instances[i].(phase := Exhausted)][i := c.instances[i].(phase := Dealt)]
           == c.instances[i := c.instances[i].(phase := Dealt)];
  }

  lemma EnvelopeIsFetched(log: seq<Message>, c: Groups, i: InstanceId)
    requires Ready(log, c, i) && log[c.instances[i].pos].Envelope?
    ensures Acts(log, c, Fetch(i), Moved(c, i, Trying(1, false)))
  {
  }

  lemma EnvelopeIsMarked(log: seq<Message>, c: Groups, i: InstanceId)
    requires Ready(log, c, i) && log[c.instances[i].pos].Envelope?
    requires forall j, key | j in c.instances :: !Holds(log, c.instances[j], key)
    ensures Acts(log, Moved(c, i, Trying(1, false)), Mark(i),
                 Moved(c, i, if KeyOf(log, c.instances[i]) in c.ledger then Dealt else Trying(1, true)))
  {
    var c1 := Moved(c, i, Trying(1, false));
    var next: Phase := if KeyOf(log, c.instances[i]) in c.ledger then Dealt else Trying(1, true);
    assert Moved(c1, i, next) == Moved(c, i, next);
    forall j | j in c1.instances ensures !Holds(log, c1.instances[j], KeyOf(log, c1.instances[i])) {}
  }

  lemma EffectIsCommitted(log: seq<Message>, c: Groups, i: InstanceId)
    requires Ready(log, c, i) && log[c.instances[i].pos].Envelope?
    ensures var key := KeyOf(log, c.instances[i]);
            Acts(log, Moved(c, i, Trying(1, true)), CommitEffect(i, true),
                 Moved(c, i, Dealt).(ledger := c.ledger + {key}, effects := c.effects + multiset{key}))
  {
    assert Moved(Moved(c, i, Trying(1, true)), i, Dealt) == Moved(c, i, Dealt);
  }

  /** A new event takes effect once, a known one is passed over, garbage goes to the dead letters; then the offset moves on. */
  lemma MessageGoesThrough(log: seq<Message>, c: Groups, i: InstanceId) returns (states: seq<Groups>, actions: seq<Action>)
    requires i in c.instances && c.instances[i].phase.Fetching? && c.instances[i].pos < |log|
    requires forall j, key | j in c.instances :: !Holds(log, c.instances[j], key)
    ensures |states| == |actions| + 1 && states[0] == c && forall k | 0 <= k < |actions| :: Acts(log, states[k], actions[k], states[k + 1])
    ensures var Instance(g, p, _) := c.instances[i];
            var end := c.(instances := c.instances[i := Instance(g, p + 1, Fetching)], offsets := c.offsets[g := p + 1]);
            states[|actions|] ==
              match log[p]
              case Garbage => end.(dlq := c.dlq + {(g, p)})
              case Envelope(e) => if (g, e) in c.ledger then end
                                  else end.(ledger := c.ledger + {(g, e)}, effects := c.effects + multiset{(g, e)})
  {
    hide Acts, Holds;
    var x := c.instances[i];
    var dealt := Moved(c, i, Dealt);
    if log[x.pos].Garbage? {
      GarbageGoes(log, c, i);
      dealt := dealt.(dlq := c.dlq + {(x.group, x.pos)});
      states, actions := [c, Moved(c, i, Exhausted), dealt], [Fetch(i), DeadLetter(i, true)];
    } else {
      EnvelopeIsFetched(log, c, i);
      EnvelopeIsMarked(log, c, i);
      states, actions := [c, Moved(c, i, Trying(1, false)), dealt], [Fetch(i), Mark(i)];
      var key := KeyOf(log, x);
      if key !in c.ledger {
        EffectIsCommitted(log, c, i);
        dealt := dealt.(ledger := c.ledger + {key}, effects := c.effects + multiset{key});
        states := [c, Moved(c, i, Trying(1, false)), Moved(c, i, Trying(1, true)), dealt];
        actions := [Fetch(i), Mark(i), CommitEffect(i, true)];
      }
    }
    CommitsOffset(log, dealt, i);
    assert Past(dealt, i).instances == c.instances[i := Instance(x.group, x.pos + 1, Fetching)];
    states, actions := states + [Past(dealt, i)], actions + [CommitOffset(i, true)];
  }
}
