# Verified model of the CrisisLink backend

This project models, in Dafny, the parts of the CrisisLink backend in which several writers share
state, and proves what the code promises about them: the reservation of units by dispatches, the
outbox pipeline, the shelter cache, the seat and bed counters, the rate limiter, the live-position
index, candidate ranking and report deduplication. Verify it with `dafny verify dfyconfig.toml`.

## How it is organised

Most topics come in two forms. A class has the fields and methods of the repository's own type and
says what one call does to them. A transition system takes the same statements one at a time, for
any number of concurrent transactions, workers or readers, and carries the theorems over all runs;
a lemma beside most of them says that a call with nobody in its way gets through to what the class says.

| module | topic |
|---|---|
| `Rows`, `AtomicOps`, `DispatchInvariants` | dispatch, unit and incident rows; each transaction as one atomic operation; what every operation keeps |
| `Answers`, `Phases` | what each transaction answers and writes, told from the rows alone; the phases of a dispatch over histories and interleavings |
| `Interleaving`, `Refinement`, `SerialRuns` | the same transactions one SQL statement at a time, and their refinement to the atomic operations |
| `Alone` | the converse: undisturbed, the statements get through to just what the atomic operation answers and writes |
| `IncidentWrites`, `CascadeRuns`, `Cascade`, `FallenGuards` | the incident cascade in those interleavings: exactly when a commit is atomic there too, exactly when each of its properties holds, and what makes a guard fall |
| `CascadeRace`, `CompletionRace` | two runs in which the cascade fails |
| `Deadlock`, `OverrideHazard` | lock ranks, absence of circles, and exactly when operators' unit overrides make one reachable |
| `Preemption`, `PreemptionRuns` | the potential that bounds preemptions |
| `DispatchStore`, `ReassignService`, `ReassignWalks`, `Rivals` | `DispatchRepository` and the reassignment service as classes, their walks over candidates and victims, and what others commit meanwhile |
| `Outbox`, `RelayRuns`, `RelayOrder` | outbox rows, relay workers, and the order of an aggregate's events |
| `ConsumerRuns`, `ConsumerLoop`, `Pipeline`, `DeadLetters`, `Delivery` | consumer groups and the inbox, the whole pipeline, what is given up in it, and the pipeline fed by the dispatch transactions |
| `ShelterRows`, `ShelterCache`, `CacheRuns` | cache-aside reads and writes |
| `Seats`, `SeatRuns`, `Beds`, `BedRuns` | the counters and the records they summarise |
| `RateLimit` | the token bucket |
| `LiveIndex`, `LiveIndexRuns`, `Scoring`, `Ranking` | live positions and the candidate list |
| `Dedup` | filing reports |
| `MapSums`, `Results` | sums over finite maps; `Option` and `Result` |

## The database and the other assumptions

- PostgreSQL at READ COMMITTED (PostgreSQL 16 documentation, sections 13.2.1 and 13.3.2): a locking
  statement waits for the holder of its row and then sees the newest committed version; a plain
  `SELECT` sees committed rows and the transaction's own writes; locks last to the end of the
  transaction. An insert into `dispatches` also waits while another open transaction's row would
  decide the partial unique index.
- The log is an append-only sequence with one committed offset per consumer group. Redis is a map
  with expiry instants; in `RateLimit` the store has a clock of its own, which never steps back, beside
  the stamps its callers send. Unless a property says otherwise clocks may do anything; where they must
  not run backwards the statement asks for it.
- The events of one aggregate are committed in id order, since each comes from a transaction that holds
  the aggregate's row; those of different aggregates commit in any order.
- Identifiers are naturals, distances an arbitrary function of two places (symmetric where that
  matters), arithmetic over reals where the code uses floats. Answers of the outside world (the
  broker, a failing commit, random jitter, the rows a search returns) are parameters.

## Where the code and its own words differ

- `internal/relay/relay.go:68-70` says that events of one aggregate stay in order. They do not: a
  row in backoff is overtaken. `RelayOrder.OvertakenIff` says exactly when that happens, and
  `RelayOrder.FirstCopiesStayInOrder` when it cannot.
- `internal/dispatch/reassign.go:143-145` and `internal/dispatch/repository.go:375` close an incident
  when its last dispatch ends. The count takes no lock and sees only what is committed, so two
  dispatches that complete at once both leave it to the other (`CompletionRace`). An operator's change
  checks a status that may have moved by the time it is written (`CascadeRace`).
  `CascadeRuns.CommitIsAtomicIff` says exactly when a commit is what the transaction alone would do,
  and `Cascade` exactly when each property survives overlap: terminal statuses
  (`TerminalStaysIff`), help on the way (`CascadeStaysIff`), the last completion (`CompletionClosesIff`).
- `internal/shelter/repository.go:117-118` calls the re-read after a refused admission a consistent
  view. At READ COMMITTED it is a new snapshot, and the answer can be wrong: `BedRuns.ReasonIsRightIff`
  and `BedRuns.FullWithRoomIff` say exactly when, `BedRuns.FullWithAFreeBed` is such a run.
- `internal/presence/service.go:109-120` takes the presence keys as the authority when it evicts.
  A heartbeat between the check and the eviction leaves a live unit off the index;
  `LiveIndexRuns.LiveButOffIndexIff` says exactly when.
- The partial unique index is a backstop that is never reached, except after an operator has
  overridden a unit's status. Then it can even take part in a deadlock;
  `OverrideHazard.CircleReachableIff` says exactly when.
- The token bucket adopts a timestamp that lies in the past and then refills the same time twice
  (`RateLimit.SteppingBackRefillsTwice`), and a key that has expired on the store's clock starts full
  whatever stamp comes next (`RateLimit.ExpiryIsInvisibleIff`).
- A preempted unit keeps the status it had (`internal/dispatch/reassign.go:102-120`), so a unit that was
  on scene can hold a dispatch that is only reserved. `DispatchInvariants` states agreement accordingly.

## Model

| member | source | states |
|---|---|---|
| `AtomicOps.RunIsEffect` | internal/dispatch/repository.go:112-190 | a transaction that succeeds met its guard and wrote exactly the declared unit, dispatch, event and incident rows |
| `AtomicOps.FreeIffOnlyHolder` | internal/dispatch/reassign.go:102-137 | once the old dispatch is ended, the index accepts the new one exactly if no other dispatch held the unit |
| `Answers.ReserveIsAnswered` | internal/dispatch/repository.go:112-190 | a reservation, from the rows alone: missing unit, taken unit, missing incident, incident over, unit held by a dispatch under way, each exactly when it is answered and in that order; else just these rows are written |
| `Answers.AdvanceIsAnswered` | internal/dispatch/repository.go:332-405 | an advance: no such dispatch, not the next phase, or the rows written, the incident resolved exactly if it stood dispatched and no other dispatch under way serves it |
| `Answers.ReassignIsAnswered` | internal/dispatch/reassign.go:39-179 | a reassignment likewise: each refusal exactly when it is given, the rows of a success, and the incident left behind verified exactly if it stood dispatched and nobody else under way serves it |
| `Answers.OperatorIsAnswered` | internal/incident/service.go:144-161 | an operator's change: missing, or not one stage on and no cancellation of an open incident, or that status and nothing else |
| `Phases.AdvanceAcceptedIff` | internal/dispatch/model.go:36-42 | an advance of an existing dispatch succeeds exactly if it is reserved, en route or on scene and the target is cancelled or the very next phase |
| `Phases.CompletedWentThrough` | internal/dispatch/model.go:36-42 | over serial histories a completed dispatch was committed as reserved, then en route, then on scene |
| `Phases.CompletedWentThroughAnyway` | internal/dispatch/repository.go:353 | so it was over every interleaving of transactions, in the committed states |
| `Phases.CommittedAdvancesMoveOn` | internal/dispatch/repository.go:332-405 | in every interleaving each advance that commits raises its dispatch's phase by exactly one or cancels it |
| `Alone.PlaysAsRun` | internal/dispatch/repository.go:112-405 | on rows nobody else changes the statements of each transaction come to the refusal, or the rows, of the atomic operation |
| `Alone.RunsToItsAnswer` | internal/dispatch/reassign.go:39-179 | as the only open transaction it never waits, ends after finitely many statements with every lock released, and leaves just that in the database |
| `Rows.CountIsZero` | internal/dispatch/repository.go:376-388 | the count of an incident's active dispatches is zero exactly when none serves it |
| `Rows.ActiveIffNotFinal` | internal/dispatch/model.go:36-82 | a dispatch is active exactly while it can still move, being cancelled included, and exactly then its unit is held; which moves there are is `Phases.AdvanceAcceptedIff` |
| `Rows.TerminalIffNoWayOut` | internal/incident/service.go:33-49 | resolved and cancelled are exactly the statuses without a way out; before them cancelling is always possible |
| `DispatchInvariants.IndexKept` | internal/platform/database/migrations/000008_create_dispatches.up.sql:24-26 | every operation, overrides included, leaves at most one active dispatch per unit |
| `DispatchInvariants.AgreementKept` | internal/dispatch/repository.go:357-373 | every operation but an override keeps: available iff no active dispatch, en route and on scene mirrored, reserved held |
| `DispatchInvariants.NoneStaleKept` | internal/dispatch/repository.go:357-373 | only an override makes available a unit that an active dispatch holds |
| `DispatchInvariants.EventsKept` | internal/dispatch/reassign.go:164-171 | every operation keeps exactly one birth event per dispatch row and one completion event per completed one |
| `DispatchInvariants.ForeignKeysKept` | internal/dispatch/repository.go:146-167 | no transaction leaves a dispatch pointing at a missing unit or incident |
| `DispatchInvariants.CascadeKept` | internal/dispatch/repository.go:375-388 | a transaction that runs atomically never leaves an incident with an active dispatch back at reported or verified |
| `DispatchInvariants.TerminalAbsorbs` | internal/incident/service.go:33-39 | resolved and cancelled absorb across every cascade and operator change; nothing but the status of an incident moves |
| `DispatchInvariants.LastCompletionCloses` | internal/dispatch/repository.go:376-388 | completing the last active dispatch leaves the incident terminal, completing another leaves incidents alone |
| `DispatchInvariants.PreemptedIncidentResurfaces` | internal/dispatch/reassign.go:139-160 | an incident that loses its last unit ends verified unless it was over, one that keeps a unit is left alone, and the newly served one is dispatched |
| `DispatchInvariants.ServedIncidentsAreDispatched` | internal/incident/repository.go:41-55 | over whole histories of atomic transactions, an incident with help on the way is never reported or verified |
| `DispatchInvariants.TerminalForever` | internal/incident/repository.go:205-210 | over whole histories, a resolved or cancelled incident stays as it is |
| `Refinement.OwnStatement` | internal/dispatch/repository.go:219-292 | each statement of a transaction keeps what the transaction knows about the rows it has read and locked |
| `Refinement.TxFrame` | internal/unit/repository.go:34-78 | what a transaction knows survives whatever the others commit |
| `Refinement.CommitIsAtomic` | internal/dispatch/reassign.go:39-179 | a transaction ready to commit has written exactly what its atomic operation would write on the rows committed now |
| `Refinement.WritesAreLocked` | internal/unit/repository.go:58-78 | what a transaction has written it has locked, apart from its own new row |
| `SerialRuns.StepKeeps` | internal/dispatch/repository.go:332-405 | every statement, commit, retry and rollback keeps the invariants of all open transactions |
| `SerialRuns.SerialRefinement` | internal/dispatch/repository.go:112-405 | in every interleaving the committed rows are those of the committed operations run one at a time in commit order |
| `SerialRuns.CommittedStatesAgree` | internal/dispatch/repository.go:125-167 | in every committed state of every interleaving: one active dispatch per unit, one birth event per dispatch, and unit/dispatch agreement until an override |
| `SerialRuns.WonSwapIsSound` | internal/unit/repository.go:69-78 | a swap that wins finds the row that was read, still available: no ABA, even with overrides |
| `SerialRuns.ConflictMeansThreeWrites` | internal/dispatch/repository.go:202-214 | giving up with a reservation conflict means the unit's version rose by at least three during the call |
| `SerialRuns.SwapIsAnswered` | internal/dispatch/repository.go:202-214 | in every reachable state: a swap is won exactly if the version stood still; lost it is tried anew twice and the third time given up for a conflict |
| `SerialRuns.OneDispatchPerCall` | internal/dispatch/repository.go:202-292 | an open call has not yet used its dispatch id; committing adds at most that row and ends the call with all its locks |
| `SerialRuns.OneCommitPerInsert` | internal/dispatch/repository.go:202-292 | over a whole run no dispatch id is inserted by two commits |
| `IncidentWrites.StepKeepsRecords` | internal/incident/repository.go:41-55 | at every step each open transaction has locked the incident rows its guarded updates matched, and they still stand as matched |
| `CascadeRuns.CommitIsAtomicIff` | internal/dispatch/repository.go:375-388 | in every reachable state a commit is the atomic transaction on all four tables, incidents included, exactly if every guard on incidents the transaction went by (status, count, operator's check) comes out the same at the commit |
| `CascadeRuns.SerialWithIncidentsIff` | internal/dispatch/reassign.go:139-160 | the commits of an interleaving are a history of atomic transactions on the whole database exactly if every commit finds its guards so |
| `Cascade.TerminalStepIff` | internal/incident/service.go:33-39 | in any reachable state a step moves a resolved or cancelled incident exactly if it commits an operator's change of that very incident to another status |
| `Cascade.TerminalStaysIff` | internal/incident/service.go:144-161 | over any run of overlapping transactions such an incident stays exactly as it is if and only if no such change commits: no dispatch transaction revives one |
| `Cascade.CascadeStaysIff` | internal/incident/repository.go:41-55 | over any run, each incident by itself: it is never reported or verified with an active dispatch if and only if no commit finds a guard fallen that concerns it (an insert that skipped marking it, a reassignment that sent it back to verified, an operator's step back) |
| `Cascade.CommitKeepsCascadeIff` | internal/dispatch/reassign.go:139-160 | a commit on a database where no served incident is reported or verified keeps it so exactly if those three guards stand, each for its own incident; advances and overrides always do |
| `Cascade.CompletionClosesIff` | internal/dispatch/repository.go:375-388 | a completion that leaves its incident unserved ends it exactly if this commit's own count and status guard still stand |
| `FallenGuards.FallenGuardHasACause` | internal/incident/service.go:149-161 | a guard falls only if, between the transaction's begin and its commit, another transaction committed a change to the status of an incident it went by or to the dispatches serving the one it was to close |
| `CascadeRace.VerifiedWithHelpOnTheWay` | internal/incident/service.go:149-161 | from any idle state with a free unit and a reported incident: an operator and a reservation at once leave the incident verified with an active dispatch |
| `CompletionRace.DispatchedWithNobodyComing` | internal/dispatch/repository.go:375-388 | from any idle state in which two dispatches are all that serve an incident: completing both at once leaves it dispatched with none |
| `Deadlock.WaitsAbove` | internal/dispatch/reassign.go:46-78 | a transaction waits only for rows ranked above every row it holds |
| `Deadlock.IndexNeverRejects` | internal/dispatch/reassign.go:122-137 | while no available unit is held, so without overrides, the partial unique index never rejects an insert |
| `Deadlock.IndexNeverBlocks` | internal/dispatch/reassign.go:122-137 | while no available unit is held, so without overrides, no insert waits on another transaction's row |
| `Deadlock.DeadlockFreedom` | internal/dispatch/reassign.go:46-78 | in every reachable state without overrides the wait-for graph has no circle |
| `Deadlock.DeadlockNeedsIndexWait` | internal/dispatch/reassign.go:139-160 | overrides or not, any deadlock involves a wait on the unique index |
| `Deadlock.Progress` | internal/dispatch/reassign.go:39-179 | while a transaction is open, some transaction can execute its next statement |
| `OverrideHazard.CircleReachableIff` | internal/unit/repository.go:189-199 | in any reachable idle state, whatever was overridden: a circle can be reached without a further override exactly if an available unit is held by an active dispatch and some incident is open |
| `OverrideHazard.UnexposedNeverSticks` | internal/dispatch/reassign.go:122-137 | from a state that is not so exposed no run without overrides comes to a circle |
| `OverrideHazard.CastSticks` | internal/dispatch/repository.go:125-167 | for any held available unit and any open incident, seven steps end in a circle of two transactions |
| `OverrideHazard.OverrideCanDeadlock` | internal/unit/repository.go:189-199 | from any reachable idle state with an active dispatch and an open incident: overriding that dispatch's unit to available makes a circle reachable |
| `Preemption.PreemptionRaises` | internal/dispatch/reassign.go:203-214 | a preemption raises the summed severity of active dispatches and keeps their number |
| `Preemption.QuietKeepsPotential` | internal/dispatch/reassign_service.go:31-68 | reroutes, non-terminal advances and overrides leave that sum unchanged |
| `Preemption.PreemptionCannotCycle` | internal/dispatch/reassign_service.go:82-117 | without new reservations and terminal advances at most three preemptions per active dispatch commit |
| `PreemptionRuns.InterleavedPreemptionsBounded` | internal/dispatch/reassign_service.go:82-117 | the same bound for every statement-level interleaving, victims being chosen outside the transaction |
| `DispatchStore.DispatchRepository.Reserve` | internal/dispatch/repository.go:112-190 | which of the four refusals is answered exactly when, in terms of the rows, and the rows of a success; a refusal changes nothing |
| `DispatchStore.DispatchRepository.ReserveOptimistic` | internal/dispatch/repository.go:202-214 | the answer and database of up to three attempts, for any transactions rivals commit between an attempt's reads and before its swap: each refusal as the rows of the deciding attempt say, a conflict exactly after three lost swaps |
| `DispatchStore.DispatchRepository.TryReserveOptimistic` | internal/dispatch/repository.go:219-292 | one attempt, told from the rows at its reads and its swap: done, a refusal, or retry exactly if the version moved; rivals may commit any transactions between its two reads and before its swap |
| `DispatchStore.DispatchRepository.AdvanceStatus` | internal/dispatch/repository.go:332-405 | accepted exactly for the next phase or a cancellation, else which refusal; the rows of dispatch, unit, incident and event a success leaves |
| `DispatchStore.DispatchRepository.Reassign` | internal/dispatch/reassign.go:39-179 | end-and-begin in one transaction: each refusal exactly when it is answered, in terms of the rows, and the rows of a success; a refusal changes nothing |
| `DispatchStore.DispatchRepository.LockBoth` | internal/dispatch/reassign.go:55-78 | both units locked in id order, whichever is incoming; missing exactly if the incoming unit is not there, not available exactly if it is there and taken |
| `Rivals.RivalsBumpVersions` | internal/unit/repository.go:115-120 | whatever transactions rivals commit, a version that stood still means the row stood still |
| `DispatchStore.WonSwapWasAvailable` | internal/dispatch/repository.go:219-292 | an attempt that succeeds marked the row it had read, still available |
| `DispatchStore.ConflictCountsWrites` | internal/dispatch/repository.go:202-214 | giving up after n attempts means at least n writes to the unit |
| `DispatchStore.AttemptIsAnswered` | internal/dispatch/repository.go:219-292 | the specification of one optimistic attempt gives each answer exactly when the rows it reads call for it |
| `DispatchStore.CallIsAnswered` | internal/dispatch/repository.go:202-214 | and so does that of a whole call: the answer is that of its last attempt, and every earlier one lost its swap |
| `ReassignService.Service.Reroute` | internal/dispatch/reassign_service.go:31-68 | each of at most five candidates is re-checked on the rows it meets, whatever rivals commit between attempts: while the dispatch is active and its incident open, one whose unit is there and taken, or held by another dispatch, never ends the walk, and the first that is free when its turn comes gets it; a dispatch that is missing or over is refused at once |
| `ReassignService.Service.FindPreemptable` | internal/dispatch/reassign.go:203-230 | of the active dispatches of strictly less severe incidents each one in `nearest` is listed, or `limit` listed ones all stand before it; nothing else is listed, and the order is kept |
| `ReassignService.Service.Preempt` | internal/dispatch/reassign_service.go:82-117 | the first of the five nearest victims still to be had when its turn comes is taken, whatever rivals commit between attempts; it finds no candidate list exactly if no active dispatch nearby serves a less severe incident |
| `ReassignWalks.WalkKeepsOn` | internal/dispatch/reassign_service.go:52-67 | a walk over candidates told from the rows alone: which candidate takes the dispatch, and that a taken or held one never stops it |
| `ReassignWalks.VictimWalkKeepsOn` | internal/dispatch/reassign_service.go:99-116 | the same of a walk over victims: one that is over or whose unit is held by another dispatch is passed over |
| `ReassignWalks.NearestVictimsAreWanted` | internal/dispatch/reassign.go:203-230 | the list of victims is complete up to its limit, sound and in order, in terms of statuses and severities |
| `ReassignWalks.ListedWhenWanted` | internal/dispatch/reassign.go:203-230 | it is empty exactly if no dispatch nearby is active for a strictly less severe incident |
| `ReassignService.VictimStaysVictim` | internal/dispatch/reassign.go:203-214 | a listed victim stays strictly less severe across whatever commits in between |
| `ReassignService.VictimStaysMeanwhile` | internal/dispatch/reassign_service.go:82-117 | so the severity test made once, outside any transaction, holds at every later attempt |
| `ReassignService.PreemptRaisesPotential` | internal/dispatch/reassign_service.go:82-117 | taking a victim raises the potential that bounds preemptions |
| `Outbox.BackoffIsCappedPower` | internal/outbox/repository.go:201-212 | the backoff is min(2^max(n,1), 300) for every n |
| `Outbox.BackoffIsMonotone` | internal/outbox/repository.go:201-212 | the backoff is positive, monotone and at most 300 |
| `Outbox.SettledStaysOk` | internal/outbox/repository.go:175-193 | settling one claimed row keeps: dead iff five failures, never dead and published, retries no earlier than the ladder |
| `Outbox.BatchSpendsBudget` | internal/outbox/repository.go:94-161 | a committed batch uses up at least one publish attempt per claimed row |
| `Outbox.ShortBatchClears` | internal/outbox/repository.go:103-111 | a short batch leaves nothing due at its own start but what others have locked |
| `Outbox.OutboxRepository.WriteTx` | internal/outbox/repository.go:32-43 | the event row is untried, unpublished and due from its commit on, whatever ids have committed before it |
| `Outbox.OutboxRepository.Claim` | internal/outbox/repository.go:103-127 | the unpublished, undead rows whose gate has passed and that no other worker has locked, the first by id up to the limit |
| `Outbox.OutboxRepository.MarkFailedRow` | internal/outbox/repository.go:175-193 | one more attempt, the next gate 2^n seconds on, at most 300, and dead exactly with the fifth failure |
| `Outbox.OutboxRepository.PublishEach` | internal/outbox/repository.go:129-146 | every failure is recorded on its own row, every success is in the log, in order, and the counts match |
| `Outbox.OutboxRepository.PublishBatch` | internal/outbox/repository.go:94-161 | of the claimed rows the accepted are published and each of the others has one more failure, no other row changes; the log grows by the accepted events in id order |
| `Outbox.OutboxRepository.Drain` | internal/relay/relay.go:54-103 | terminates for any broker, clock, commit failures and rows locked by others; after a clean stop no row unpublished, undead and past its gate is left but those others have locked |
| `RelayRuns.StepKeepsRelay` | internal/outbox/repository.go:94-161 | claims stay disjoint, rows in good standing and copies accounted for at every step of every worker |
| `RelayRuns.RelayLosesNothing` | internal/outbox/repository.go:129-161 | an event is exactly one of pending, published, dead; published means logged; logged means committed; copies at most one plus rolled-back batches plus refusals that wrote |
| `RelayRuns.RetryLadder` | internal/outbox/repository.go:175-193 | dead iff five recorded failures, at most four otherwise, dead at least 30 s after the first failure |
| `RelayRuns.ClaimsAreBounded` | internal/relay/relay.go:54-103 | at most five claims per event ever commit, for any number of workers |
| `RelayRuns.QuietStretchTerminates` | internal/relay/relay.go:54-103 | with no new events, committed claims are paid for by the drop in remaining attempts |
| `RelayRuns.BatchGoesThrough` | internal/outbox/repository.go:94-161 | whatever other workers hold, a worker can claim, publish and commit, and for any answers of the broker that leaves the rows and the log `PublishBatch` leaves |
| `RelayOrder.OvertakenIff` | internal/outbox/repository.go:103-155 | worker w is about to publish f, and at its claim no copy of the earlier event e of the same aggregate existed: there is still none exactly if this batch had e refused without a write, or e was dead, or it was backed off past the batch's start or held by another batch and no batch that held it, or claimed it once it was due and free again, has written it |
| `RelayOrder.OvertakenIffAlone` | internal/relay/relay.go:68-70 | with one worker at a time: exactly if e was refused without a write in this batch, or was dead or backed off past the batch's start |
| `RelayOrder.FirstCopiesStayInOrder` | internal/relay/relay.go:68-70 | with one worker at a time, stamps in commit order and no refusal without a write, first copies of an aggregate's events are logged in id order |
| `RelayOrder.BackedOffRowIsOvertaken` | internal/relay/relay.go:68-70 | a run with one worker, one refusal and two events of one aggregate in which the later is logged first |
| `ConsumerRuns.ActKeepsEffects` | internal/outbox/inbox_repository.go:38-69 | effects match ledger markers one to one at every step, a held marker is in nobody else's hands |
| `ConsumerRuns.ActKeepsOffsets` | internal/consumer/consumer.go:73-131 | everything below a committed offset, and below where an instance stands, is dealt with |
| `ConsumerRuns.MessageGoesThrough` | internal/consumer/consumer.go:73-131 | with nothing going wrong a new event takes effect once, a known one is passed over, an undecodable message is dead-lettered, and the offset moves on by one |
| `Pipeline.ExactlyOnce` | internal/outbox/inbox_repository.go:38-69 | in every reachable state the effects of an event for a group number one if its marker exists and zero otherwise, and the event was committed |
| `Pipeline.OffsetsSkipNothing` | internal/consumer/consumer.go:81-145 | every consumed message took effect once or is dead-lettered, if no dead letter was refused and nothing abandoned |
| `Pipeline.CaughtUpMeansDelivered` | internal/consumer/consumer.go:73-131 | for a group that has caught up every published event took effect exactly once or lies in its dead letters |
| `DeadLetters.DeadLettersAreEarned` | internal/consumer/consumer.go:91-131 | in every run, whatever a group has dead-lettered or dropped cannot be decoded, or one instance has tried it three times, one after the other, and failed each time |
| `Delivery.EveryDispatchIsTold` | internal/dispatch/repository.go:155-190 | dispatch transactions and pipeline together: every committed dispatch has one birth event, which is still unpublished or, for each caught-up group, took effect exactly once or lies in its dead letters |
| `ConsumerLoop.InboxRepository.ProcessOnce` | internal/outbox/inbox_repository.go:38-69 | marker and effect commit together or not at all; what the caller is told, for every failure point |
| `ConsumerLoop.ThreeAttempts` | internal/consumer/consumer.go:100-131 | the verdict spelled out: used up exactly after three errors, abandoned exactly on a cancellation after the first or second, else dealt with, a lost acknowledgement making the next attempt a duplicate |
| `ConsumerLoop.Consumer.Process` | internal/consumer/consumer.go:91-131 | the verdict from ledger, attempts and cancellation, and where the message ends: dead-lettered, dropped without a queue, abandoned, or with its marker in the ledger |
| `ConsumerLoop.Consumer.Run` | internal/consumer/consumer.go:73-87 | every message up to where the loop stops took effect exactly once, or was given up for cause: undecodable or three failed attempts, or a shutdown in between; the offset never passes one not dealt with; only a shutdown stops early |
| `CacheRuns.StaleOnlyIfExcused` | internal/shelter/cache.go:62-105 | a cached shelter differs from the committed row only if each newer version's DEL is pending, was missed, or ran between the load's read and its SET |
| `CacheRuns.QuietCacheIsCoherent` | internal/shelter/cache.go:103-105 | with every DEL run and none in that window, the cached row is the committed one |
| `CacheRuns.HitsAreBounded` | internal/platform/cache/cache.go:102-138 | even with failed DELs a hit is the row committed at its load's read, less than 72 s plus the load's own delay ago |
| `CacheRuns.LateBackfillIsStale` | internal/shelter/cache.go:73-88 | a concrete run in which every DEL ran and the cache still holds the old row |
| `CacheRuns.ReadFills` | internal/shelter/cache.go:62-98 | a read that finds nothing alive, alone, leaves the committed row cached, for 48 s plus its share of 24 s |
| `CacheRuns.WriteInvalidates` | internal/shelter/service.go:102-120 | a write, alone, commits its row and leaves the key uncached |
| `CacheRuns.JitterRange` | internal/platform/cache/cache.go:132-138 | a 60 s TTL is stored as 48 s plus a random share of 24 s |
| `ShelterCache.Cache.SetJSON` | internal/platform/cache/cache.go:102-111 | the entry lives for the jittered TTL; a failed store changes nothing |
| `ShelterCache.BackfillLivesItsTtl` | internal/platform/cache/cache.go:63-129 | a stored row is a hit for at least 48 s and for no more than 72 s, a DEL ends it at once, and no other key notices either |
| `ShelterCache.ShelterService.GetByID` | internal/shelter/service.go:75-90 | serves a live entry, stale or not; a miss is answered by the committed row, which is cached for 48 s plus a share of 24 s if the store works; a missing shelter is never cached; no key becomes incoherent |
| `ShelterCache.ShelterService.UpdateStatus` | internal/shelter/service.go:102-120 | a status that is neither open nor closed, a missing shelter, or the row and the DEL: which is answered when; the key is coherent afterwards unless its DEL failed, and no other key is touched |
| `Seats.BookingKeeps` | internal/transport/repository.go:157-242 | a guarded booking keeps the total equal to the sum of live bookings and within capacity |
| `Seats.CancellingKeeps` | internal/transport/repository.go:252-317 | so does a cancellation, and its refund is exact |
| `Seats.ClampNeverEngages` | internal/transport/repository.go:284-295 | a live booking's seats never exceed the total |
| `Seats.TransportRepository.BookSeats` | internal/transport/repository.go:157-242 | all seats or none, exactly by availability and capacity, and which refusal in which order |
| `Seats.TransportRepository.CancelBooking` | internal/transport/repository.go:252-317 | the booking is cancelled once and exactly its seats return |
| `SeatRuns.SeatsAreConserved` | internal/transport/repository.go:157-317 | in every committed state of every interleaving seats_taken is the sum of booked seats and within capacity |
| `SeatRuns.RefundIsExact` | internal/transport/repository.go:284-295 | in every interleaving a refund subtracts exactly the booking's seats, neither the clamp nor the row's check deciding |
| `SeatRuns.OneRefundPerBooking` | internal/transport/repository.go:259-281 | of two open cancellations of one booking at most one has got past the status flip |
| `SeatRuns.CancelledAtMostOnce` | internal/transport/repository.go:252-317 | over any run at most one cancellation of a booking commits, and the booking is cancelled from then on |
| `SeatRuns.WaitsIff` | internal/transport/repository.go:173-181 | a request waits exactly if another one has seats of the transport in hand while the committed row meets its guard, or is cancelling the same booking; a booking that will be refused waits for nobody |
| `SeatRuns.WaitsAreShort` | internal/transport/repository.go:252-317 | booking before transport: a chain of waiting requests has at most two links, so no deadlock |
| `SeatRuns.BookingAlone` | internal/transport/repository.go:157-242 | a booking with no other beside it gets through, statement by statement, to the rows or the refusal the repository's method gives |
| `SeatRuns.CancellationAlone` | internal/transport/repository.go:252-317 | so does a cancellation |
| `Beds.PlacingKeeps` | internal/victim/repository.go:142-203 | a guarded admission keeps occupancy equal to the number of victims assigned and within capacity |
| `Beds.ShelterRepository.AdmitTx` | internal/shelter/repository.go:104-136 | one bed exactly if the shelter is open with room, else which refusal |
| `Beds.ShelterRepository.UpdateStatus` | internal/shelter/repository.go:199-209 | closing and reopening moves no one |
| `Beds.VictimRepository.Assign` | internal/victim/repository.go:142-203 | both rows change or neither, with the verdicts in the code's order |
| `BedRuns.BedsAreConserved` | internal/shelter/repository.go:104-136 | in every committed state of every interleaving occupancy counts the victims assigned there, within capacity |
| `BedRuns.VictimsStay` | internal/victim/repository.go:149-161 | a placed victim is never placed again or moved |
| `BedRuns.ReasonIsRightIff` | internal/shelter/repository.go:117-135 | the re-read names the reason the admission was refused for exactly if the shelter's status is the same as at the refusal |
| `BedRuns.FullWithRoomIff` | internal/shelter/repository.go:117-135 | it answers full of a shelter with room exactly if the shelter was closed at the refusal and is open with a bed free at the re-read |
| `BedRuns.FullWithAFreeBed` | internal/shelter/repository.go:117-135 | a run in which it does |
| `BedRuns.WaitsAreShort` | internal/victim/repository.go:141 | victim before shelter: a chain of waiting transactions has at most two links, so no deadlock |
| `BedRuns.WaitsIff` | internal/shelter/repository.go:104-115 | an assignment waits exactly if another one has locked its victim, or has taken a bed in the shelter it wants while the committed row is open with room; one that will be refused waits for nobody |
| `BedRuns.AssignmentAlone` | internal/victim/repository.go:142-203 | an assignment with no other beside it gets through, statement by statement, to both rows or to the refusal the repository's method gives |
| `RateLimit.TokensInRange` | internal/platform/middleware/ratelimit_redis.go:44-60 | tokens stay between zero and the capacity for timestamps in any order |
| `RateLimit.AllowedAreBounded` | internal/platform/middleware/ratelimit_redis.go:50-58 | for stamps in any order that are in step with expiry, any stretch of requests is granted at most the capacity plus the refill of the stamps' forward moves |
| `RateLimit.ExactLedger` | internal/platform/middleware/ratelimit_redis.go:44-60 | for any bucket and stamp: what is granted plus the tokens left equals the smaller of the capacity and the tokens before plus the rate times the forward move |
| `RateLimit.GrantedIff` | internal/platform/middleware/ratelimit_redis.go:44-60 | over any stamps in step with expiry: a request is granted exactly if for every stretch of requests ending with it the grants, itself included, fit into a full bucket plus the refill of the stamps' forward moves |
| `RateLimit.RefusedIffUsedUp` | internal/platform/middleware/ratelimit_redis.go:34-66 | on one nondecreasing clock a request is refused exactly if the grants of some stretch ending there, plus one, exceed the capacity plus rate times its length |
| `RateLimit.SpacedRequestsAreServed` | internal/platform/middleware/ratelimit_redis.go:34-66 | with a capacity of at least one, a client whose requests come at least 1 / rate apart is always served |
| `RateLimit.RefusalsLeaveNoTrace` | internal/platform/middleware/ratelimit_redis.go:57-60 | on one nondecreasing clock, taking a refused request out of a run changes no later answer |
| `RateLimit.WindowBound` | internal/platform/middleware/ratelimit_redis.go:34-66 | stamped and served on one nondecreasing clock, a window of width w admits at most capacity + rate * w requests |
| `RateLimit.SteppingBackRefillsTwice` | internal/platform/middleware/ratelimit_redis.go:50-60 | for every step back of a stamp, however small, some limit grants two requests where the bound allows one |
| `RateLimit.ExpiryIsInvisibleIff` | internal/platform/middleware/ratelimit_redis.go:60-62 | requests are answered, and leave the bucket, as if the key never expired exactly if each request that finds the key dropped carries a stamp at which a kept bucket would have been full |
| `RateLimit.KeepingPaceIsInStep` | internal/platform/middleware/ratelimit_redis.go:60-62 | stamps that lag the store's clock by at most a second between requests, on one clock in particular, meet that condition |
| `RateLimit.RedisRateLimiter.Allow` | internal/platform/middleware/ratelimit_redis.go:34-66 | one evaluation of the script, stamped by the caller and served on the store's clock: granted plus tokens left is the smaller of the capacity and the tokens before plus the refill, granted exactly if that covers a request; renewed expiry; other clients untouched |
| `LiveIndex.Service.Heartbeat` | internal/presence/service.go:69-96 | the unit is live for another 30 s at this position |
| `LiveIndex.Service.FilterPresent` | internal/presence/service.go:243-267 | present exactly if the key lives |
| `LiveIndex.Service.NearbyLive` | internal/presence/service.go:122-178 | only live units in the radius, each once, nearest first, at most `limit`; of the first 2 * limit on the index no live one is nearer than a full answer; exactly the dark ones among those are evicted, more than the limit if the answer is short |
| `LiveIndex.ShortMeansManyDark` | internal/presence/service.go:131-165 | an answer shorter than asked for and than there is means more than `limit` dark members were fetched |
| `LiveIndex.SearchesConverge` | internal/presence/service.go:117-121 | with no heartbeat or expiry in between, whatever mix of searches runs: the number of short ones times least limit + 1 is at most the dark members evicted, and no live unit is evicted |
| `LiveIndex.NotShortIsExact` | internal/presence/service.go:131-165 | a search is not short exactly if its answer is what the whole nearest-first list of live units gives |
| `LiveIndex.SearchEvictsDark` | internal/presence/service.go:149-176 | a search evicts no live unit, and a short one evicts more dark members than its limit |
| `LiveIndexRuns.LiveButOffIndexIff` | internal/presence/service.go:149-176 | in every reachable state of heartbeats, expiries and searches, one store command at a time: a live unit is off the index exactly if it was never added or an eviction ran after its last add on a check made before its last key was set |
| `LiveIndexRuns.OnlyLateEvictionsHide` | internal/presence/service.go:69-96 | with its heartbeats complete, exactly if an eviction ran after the last one on a check made before it |
| `LiveIndexRuns.LateHeartbeatIsEvicted` | internal/presence/service.go:109-120 | a run with one search and one heartbeat in between that hides a live unit |
| `LiveIndexRuns.HeartbeatLands` | internal/presence/service.go:69-96 | a heartbeat with nobody in between leaves its unit alive and on the index |
| `LiveIndexRuns.SearchSweeps` | internal/presence/service.go:131-176 | a search with nobody in between takes just those units it found without a key off the index |
| `Scoring.ScoreInRange` | internal/scoring/scoring.go:149-181 | a score lies between zero and one |
| `Scoring.NearerScoresNoLess` | internal/scoring/scoring.go:61-67 | of two units of one type the nearer never scores less |
| `Scoring.MismatchWinsIff` | internal/scoring/scoring.go:89-100 | exactly when a unit of another type than the required t outscores one of type t, for ETAs beyond the falloff too: its clipped lead, weighed, exceeds 630 * skill |
| `Scoring.RightTypeWinsAtEqualEta` | internal/scoring/scoring.go:155-175 | of two units with equal ETAs the one of the required type scores strictly more |
| `Scoring.WithoutRequirementSoonerWins` | internal/scoring/scoring.go:155-175 | with no type required the score is a matter of severity and arrival time alone, the sooner within the falloff scoring more |
| `Scoring.EtaByType` | internal/scoring/scoring.go:26-67 | arrival time by type: 1.3 times the straight line at 13.9, 16.7 or 11.1 m/s |
| `Scoring.MismatchWinsOnlyIfMuchSooner` | internal/scoring/scoring.go:149-181 | a unit of another type than the required one that outscores it is more than 630 * skill / time seconds sooner |
| `Scoring.MismatchNeedsLead` | internal/scoring/scoring.go:47-52 | within the falloff another type than the required one wins exactly with a lead of more than 630, 420, 210 or 111.2 seconds, by rising severity |
| `Scoring.SeverityFavoursSpeed` | internal/scoring/scoring.go:76-100 | the more severe the incident the smaller that lead; the weights add up to one |
| `Ranking.RankedIsPermutation` | internal/dispatch/service.go:199-205 | the ranked list is a permutation of the candidates |
| `Ranking.RankingPreservesNearness` | internal/dispatch/service.go:199-205 | descending scores in [0, 1], ties in the incoming order, units of one type still nearest-first |
| `Ranking.RankedPutsRequiredTypeFirst` | internal/dispatch/service.go:199-205 | in the ranked list a unit of another type stands before one of the required type only with that lead, and after it only without more |
| `Ranking.HydrateLive` | internal/dispatch/service.go:240-277 | just the available ones of the live hits up to where the limit is reached or no more are left, at their live distances |
| `Ranking.Candidates` | internal/dispatch/service.go:173-236 | live candidates if there are any, else the registry's; ranked by score, nearness kept within a type, and a unit of another type before one of the required type only if its clipped lead makes up for the skill |
| `Dedup.InsertKeepsApartIff` | internal/incident/service.go:92-108 | a new incident keeps active incidents apart exactly if none that is neither resolved nor cancelled and less than 15 minutes old lies within 100 m |
| `Dedup.IncidentsStayApart` | internal/incident/service.go:83-110 | in every reachable state active incidents filed less than 15 minutes apart are more than 100 m apart |
| `Dedup.RunSettles` | internal/dispatch/reassign.go:139-160 | no dispatch transaction or operator revives an incident or moves its place or birth |
| `Dedup.ReportsAreCounted` | internal/incident/repository.go:179-196 | in every interleaving, increments on rows that have meanwhile turned terminal included, the report counts add up to the accepted reports |
| `Dedup.TwoFirstReports` | internal/incident/repository.go:174-177 | two concurrent first reports that both miss end as two incidents on one spot |
| `Dedup.IncidentService.TryDedupe` | internal/incident/repository.go:179-196 | the nearest of the open incidents within 100 m and 15 minutes, if there is one, is counted once |
| `Dedup.IncidentService.Create` | internal/incident/service.go:83-110 | merge exactly if there is such an incident, into the nearest, else file it as reported with one report; rows stay apart |
| `Dedup.IncidentService.UpdateStatus` | internal/incident/service.go:144-161 | the operator's state machine and its three refusals in order |

## Left out

- DispatchInvariants.CascadeKept: speaks of one transaction at a time; `Cascade` says exactly which overlapping ones keep it too.
- DispatchStore.DispatchRepository.TryReserveOptimistic: rivals commit between its statements up to the swap; what they commit after it, beside the locked unit, is in `Interleaving`.
- ShelterCache.ShelterService.GetByID: one caller at a time, another caller's load being an input; `CacheRuns` lets any number of loads run at once.
- BedRuns.BedsAreConserved: victims and shelters are there from the start; registering one more changes no count.
- Delivery.EveryDispatchIsTold: starts from a state in which every event has its outbox row, as the empty database does.
- Creating units and incidents as steps of the dispatch interleavings: their rows are there from the start, so a run covers the rows that exist at its beginning.
- Share locks taken by foreign-key checks.
- Several partitions of a topic: one partition is one log, and no order across partitions is claimed.
- Contents of events and notifications, JSON encoding, error text and its truncation.
- The context being cancelled while the relay publishes: a crash of the worker covers it.
- Redis being unreachable: the limiter, the cache and presence then let the request through, a branch without state.
- The geometry behind distances and nearest-first searches, and the validation of coordinates.
- Rounding of floats.
- Ranking of shelters for a victim, round-robin gateways, list and page queries, seeding: simple members.
- HTTP handlers, authentication, ownership checks, metrics, logging and configuration.
