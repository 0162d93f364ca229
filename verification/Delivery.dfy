/** The dispatch transactions and the pipeline together: the events of one are the outbox rows of the other. */
module Delivery {
  import opened Rows
  import opened AtomicOps
  import opened DispatchInvariants
  import opened Interleaving
  import opened SerialRuns
  import RelayRuns
  import Pipeline

  datatype World = World(db: Sys, pipe: Pipeline.System)

  /** `at` is the stamp of the event row a statement of a dispatch transaction commits, if it commits one. */
  datatype Event = Dispatching(step: Step, at: int) | Delivering(move: Pipeline.Move)

  function NewEvents(before: Core, after: Core): set<EventId> { after.events.Keys - before.events.Keys }

  /** The outbox row of event e, as the transaction that announces it writes it. */
  function RowOf(core: Core, e: EventId, at: int): Pipeline.Move
    requires e in core.events
  {
    Pipeline.Relayed(RelayRuns.DomainCommit(e, core.events[e].dispatch, at))
  }

  /** A dispatch transaction that commits an event commits its outbox row with it; everything else leaves one half alone. */
  ghost predicate Becomes(w: World, ev: Event, w': World) {
    match ev
    case Delivering(m) => Pipeline.Possible(w.pipe, m) && w' == w.(pipe := Pipeline.After(w.pipe, m))
    case Dispatching(step, at) =>
      && Enabled(w.db, step) && w'.db == Apply(w.db, step)
      && (NewEvents(w.db.core, w'.db.core) == {} ==> w'.pipe == w.pipe)
      && (NewEvents(w.db.core, w'.db.core) != {} ==>
            exists e | e in w'.db.core.events :: CommitsRow(w, w', e, at))
  }

  ghost predicate CommitsRow(w: World, w': World, e: EventId, at: int)
    requires e in w'.db.core.events
  {
    && NewEvents(w.db.core, w'.db.core) == {e}
    && Pipeline.Possible(w.pipe, RowOf(w'.db.core, e, at))
    && w'.pipe == Pipeline.After(w.pipe, RowOf(w'.db.core, e, at))
  }

  ghost predicate Joined(w: World) { w.db.core.events.Keys <= w.pipe.relay.rows.Keys }

  ghost predicate WorldInv(w: World) {
    && SysInv(w.db) && OneActive(w.db.core.dispatches) && EventsMatch(w.db.core)
    && Pipeline.PipelineInv(w.pipe) && Joined(w)
  }

  lemma MovesKeepRows(s: Pipeline.System, m: Pipeline.Move)
    ensures s.relay.rows.Keys <= Pipeline.After(s, m).relay.rows.Keys
    ensures m.Relayed? && m.step.DomainCommit? ==> m.step.e in Pipeline.After(s, m).relay.rows
  {
  }

  lemma StaysJoined(w: World, ev: Event, w': World)
    requires WorldInv(w) && Becomes(w, ev, w')
    ensures Joined(w')
  {
    hide SysInv, EventsMatch, Pipeline.PipelineInv, Pipeline.Possible, Pipeline.After, Enabled, Apply;
    match ev
    case Delivering(m) => MovesKeepRows(w.pipe, m);
    case Dispatching(step, at) =>
      if NewEvents(w.db.core, w'.db.core) != {} {
        var e :| e in w'.db.core.events && CommitsRow(w, w', e, at);
        MovesKeepRows(w.pipe, RowOf(w'.db.core, e, at));
        assert w'.db.core.events.Keys <= w.db.core.events.Keys + {e};
      } else {
        forall e | e in w'.db.core.events ensures e in w.db.core.events {
          assert e !in w.db.core.events ==> e in NewEvents(w.db.core, w'.db.core);
        }
      }
  }

  lemma StaysSound(w: World, ev: Event, w': World)
    requires WorldInv(w) && Becomes(w, ev, w')
    ensures WorldInv(w')
  {
    StaysJoined(w, ev, w');
    hide SysInv, EventsMatch, OneActive, Pipeline.PipelineInv, Pipeline.Possible, Pipeline.After, Enabled, Apply, Joined;
    match ev
    case Delivering(m) => Pipeline.MoveKeepsPipeline(w.pipe, m);
    case Dispatching(step, at) =>
      StepKeeps(w.db, step);
      StepCarriesIndexAndEvents(w.db, step);
      if NewEvents(w.db.core, w'.db.core) != {} {
        var e :| e in w'.db.core.events && CommitsRow(w, w', e, at);
        Pipeline.MoveKeepsPipeline(w.pipe, RowOf(w'.db.core, e, at));
      }
  }

  ghost predicate History(worlds: seq<World>, evs: seq<Event>) {
    && |worlds| == |evs| + 1 && WorldInv(worlds[0])
    && forall k | 0 <= k < |evs| :: Becomes(worlds[k], evs[k], worlds[k + 1])
  }

  lemma {:induction false} HistoriesAreSound(worlds: seq<World>, evs: seq<Event>, n: nat)
    requires History(worlds, evs) && n <= |evs|
    ensures WorldInv(worlds[n])
  {
    hide WorldInv, Becomes;
    if n > 0 {
      HistoriesAreSound(worlds, evs, n - 1);
      StaysSound(worlds[n - 1], evs[n - 1], worlds[n]);
    }
  }

  predicate Undelivered(pipe: Pipeline.System, e: EventId) {
    e in pipe.relay.rows && pipe.relay.rows[e].published.None?
  }

  /**
   From the dispatch to its effect: in every reachable state every committed dispatch has exactly one birth event,
   and that event is waiting in the outbox or dead, or each group that has caught up has had its effect exactly
   once or has it among its dead letters.
   */
  lemma EveryDispatchIsTold(worlds: seq<World>, evs: seq<Event>, n: nat, d: DispatchId) returns (e: EventId)
    requires History(worlds, evs) && n <= |evs| && d in worlds[n].db.core.dispatches
    ensures var w := worlds[n];
            && BirthOf(w.db.core.events, e, d) && (forall f | BirthOf(w.db.core.events, f, d) :: f == e)
            && (Undelivered(w.pipe, e) || forall group | Pipeline.CaughtUp(w.pipe, group) :: Pipeline.Delivered(w.pipe, group, e))
  {
    hide SysInv, OneActive, Pipeline.PipelineInv, Pipeline.CaughtUp, Pipeline.Delivered, Becomes;
    HistoriesAreSound(worlds, evs, n);
    var w := worlds[n];
    e :| BirthOf(w.db.core.events, e, d);
    if !Undelivered(w.pipe, e) {
      forall group | Pipeline.CaughtUp(w.pipe, group) ensures Pipeline.Delivered(w.pipe, group, e) {
        Pipeline.Delivers(w.pipe, group, e);
      }
    }
  }
}
