/** Nothing is given up lightly: what a group has dead-lettered, dropped or abandoned, and why, over whole runs. */
module DeadLetters {
  import opened RelayRuns
  import opened ConsumerRuns
  import opened Pipeline

  /** Instance i stands at message p in its attempt-th try, and the move ends that try with an error. */
  predicate FailedTry(s: System, m: Move, i: InstanceId, group: Group, p: nat, attempt: nat) {
    && m.Consumes? && (m.action == FailAttempt(i) || m.action == CommitEffect(i, false))
    && i in s.groups.instances
    && var x := s.groups.instances[i];
       x.group == group && x.pos == p && x.phase.Trying? && x.phase.attempt == attempt
  }

  /** Tries 1, 2, ... of one instance at one message, one failed move after the other. */
  ghost predicate FailedTries(states: seq<System>, moves: seq<Move>, n: nat, i: InstanceId, group: Group, p: nat, ks: seq<nat>) {
    && n <= |moves| < |states|
    && (forall j | 0 <= j < |ks| :: ks[j] < n && FailedTry(states[ks[j]], moves[ks[j]], i, group, p, j + 1))
    && (forall j | 0 < j < |ks| :: ks[j - 1] < ks[j])
  }

  /** How many tries must have failed for an instance to be in this phase. */
  function TriesBehind(phase: Phase): nat {
    match phase
    case Trying(attempt, _) => if attempt > 0 then attempt - 1 else 0
    case Exhausted => 3
    case _ => 0
  }

  predicate AtWork(s: System, i: InstanceId) {
    && i in s.groups.instances && AtEnvelope(s.relay.log, s.groups.instances[i])
    && (s.groups.instances[i].phase.Trying? || s.groups.instances[i].phase.Exhausted?)
  }

  /** One move back: the same instance at the same message with the same tries behind it, or one fewer and this one failed. */
  ghost predicate Continues(s: System, m: Move, s': System, i: InstanceId)
    requires AtWork(s', i)
  {
    var x := s'.groups.instances[i];
    || TriesBehind(x.phase) == 0
    || (&& AtWork(s, i)
        && var y := s.groups.instances[i];
           && y.group == x.group && y.pos == x.pos
           && (TriesBehind(y.phase) == TriesBehind(x.phase)
               || (TriesBehind(y.phase) + 1 == TriesBehind(x.phase) && FailedTry(s, m, i, x.group, x.pos, TriesBehind(x.phase)))))
  }

  /** The instance itself acts. */
  lemma TryActs(s: System, a: Action)
    requires CanAct(s.relay.log, s.groups, a) && AtWork(After(s, Consumes(a)), a.i)
    requires a.i in s.groups.instances ==> InstanceOk(s.relay.log, s.groups, s.groups.instances[a.i])
    ensures Continues(s, Consumes(a), After(s, Consumes(a)), a.i)
  {
    hide Consumed, Handled;
  }

  lemma OthersStay(log: seq<Message>, c: Groups, a: Action, i: InstanceId)
    requires i != a.i && i in Act(log, c, a).instances
    ensures i in c.instances && Act(log, c, a).instances[i] == c.instances[i]
  {
  }

  lemma TryStep(s: System, m: Move, i: InstanceId)
    requires PipelineInv(s) && Possible(s, m) && AtWork(After(s, m), i)
    ensures Continues(s, m, After(s, m), i)
  {
    hide EffectsMatch, RelayInv, Consumed, Handled, Act, CanAct, FailedTry, Continues;
    LogStays(s, m);
    if m.Consumes? && m.action.i == i {
      if i in s.groups.instances { assert InstanceOk(s.relay.log, s.groups, s.groups.instances[i]); }
      TryActs(s, m.action);
    } else {
      if m.Consumes? { OthersStay(s.relay.log, s.groups, m.action, i); }
      assert InstanceOk(s.relay.log, s.groups, s.groups.instances[i]);
      TryWaits(s, m, After(s, m), i);
    }
  }

  lemma TryWaits(s: System, m: Move, s': System, i: InstanceId)
    requires AtWork(s', i) && i in s.groups.instances && s'.groups.instances[i] == s.groups.instances[i]
    requires s.relay.log <= s'.relay.log && InstanceOk(s.relay.log, s.groups, s.groups.instances[i])
    ensures Continues(s, m, s', i)
  {
    hide Consumed, Handled;
  }

  lemma LogStays(s: System, m: Move)
    ensures s.relay.log <= After(s, m).relay.log
    ensures m.Consumes? ==> After(s, m).relay == s.relay
    ensures m.Relayed? ==> After(s, m).groups == s.groups
  {
  }

  lemma {:induction false} TriesAreEarned(states: seq<System>, moves: seq<Move>, n: nat, i: InstanceId) returns (ks: seq<nat>)
    requires Runs(states, moves) && n <= |moves| && AtWork(states[n], i)
    ensures var x := states[n].groups.instances[i];
            |ks| == TriesBehind(x.phase) && FailedTries(states, moves, n, i, x.group, x.pos, ks)
  {
    hide PipelineInv, Possible, After, FailedTry;
    var x := states[n].groups.instances[i];
    ks := [];
    if TriesBehind(x.phase) > 0 && n > 0 {
      RunKeepsPipeline(states, moves, n - 1);
      TryStep(states[n - 1], moves[n - 1], i);
      ks := TriesAreEarned(states, moves, n - 1, i);
      if |ks| < TriesBehind(x.phase) { ks := ks + [n - 1]; }
    }
  }

  /** Where a group has given a message up for lost. */
  predicate LostAt(c: Groups, group: Group, p: nat) { (group, p) in c.dlq || (group, p) in c.dropped }

  /** The move that gave it up: an instance whose tries are used up. */
  lemma {:induction false} LostByADeadLetter(states: seq<System>, moves: seq<Move>, n: nat, group: Group, p: nat) returns (m: nat, i: InstanceId)
    requires Runs(states, moves) && n <= |moves| && LostAt(states[n].groups, group, p)
    ensures m < n && moves[m].Consumes? && moves[m].action.DeadLetter? && moves[m].action.i == i
    ensures i in states[m].groups.instances
    ensures var x := states[m].groups.instances[i]; x.group == group && x.pos == p && x.phase.Exhausted?
  {
    hide Possible, After, LostAt;
    if n == 0 {
      NothingLostYet(states[0], group, p);
    } else {
      LostStep(states[n - 1], moves[n - 1], group, p);
      if LostAt(states[n - 1].groups, group, p) {
        m, i := LostByADeadLetter(states, moves, n - 1, group, p);
      } else {
        m, i := n - 1, moves[n - 1].action.i;
      }
    }
  }

  lemma NothingLostYet(s: System, group: Group, p: nat)
    requires Starts(s)
    ensures !LostAt(s.groups, group, p)
  {
  }

  lemma LostStep(s: System, m: Move, group: Group, p: nat)
    requires Possible(s, m) && LostAt(After(s, m).groups, group, p)
    ensures LostAt(s.groups, group, p)
            || (m.Consumes? && m.action.DeadLetter? && m.action.i in s.groups.instances
                && var x := s.groups.instances[m.action.i]; x.group == group && x.pos == p && x.phase.Exhausted?)
  {
    hide Enabled, Apply;
  }

  lemma {:induction false} LogGrows(states: seq<System>, moves: seq<Move>, m: nat, n: nat)
    requires Runs(states, moves) && m <= n <= |moves|
    ensures states[m].relay.log <= states[n].relay.log
    decreases n
  {
    hide Possible, After;
    if m < n {
      LogGrows(states, moves, m, n - 1);
      LogStays(states[n - 1], moves[n - 1]);
    }
  }

  /**
   In every run, whatever a group has dead-lettered or dropped cannot be decoded, or one of its instances has tried it
   three times and each try has failed.
   */
  lemma DeadLettersAreEarned(states: seq<System>, moves: seq<Move>, n: nat, group: Group, p: nat) returns (i: InstanceId, ks: seq<nat>)
    requires Runs(states, moves) && n <= |moves|
    requires (group, p) in states[n].groups.dlq || (group, p) in states[n].groups.dropped
    ensures p < |states[n].relay.log|
    ensures states[n].relay.log[p] == Garbage || (|ks| == 3 && FailedTries(states, moves, n, i, group, p, ks))
  {
    hide PipelineInv, Possible, After, FailedTry;
    var m;
    m, i := LostByADeadLetter(states, moves, n, group, p);
    RunKeepsPipeline(states, moves, m);
    ExhaustedAtAMessage(states[m], i);
    LogGrows(states, moves, m, n);
    ks := [];
    if states[m].relay.log[p].Envelope? { ks := TriesAreEarned(states, moves, m, i); }
  }

  lemma ExhaustedAtAMessage(s: System, i: InstanceId)
    requires PipelineInv(s) && i in s.groups.instances && s.groups.instances[i].phase.Exhausted?
    ensures s.groups.instances[i].pos < |s.relay.log|
  {
    hide RelayInv, EffectsMatch;
    assert InstanceOk(s.relay.log, s.groups, s.groups.instances[i]);
  }
}
