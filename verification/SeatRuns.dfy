/**
 Bookings and cancellations interleaved statement by statement: row locks until commit, and
 UPDATEs that wait for a held row and then see its newest committed version.
 */
module SeatRuns {
  import opened Results
  import opened Seats

  type TxId = nat

  datatype Request = Book(transport: TransportId, incident: IncidentId, seats: int, id: BookingId) | Cancel(id: BookingId)

  /** `Refused`: the guarded UPDATE matched no row, and the next statement reads why. */
  datatype Pc = Begun | IncidentSeen | Refused | SeatsTaken | Inserted | Flipped | Refunded

  /** An open transaction: where it stands and the row images it has not committed. */
  datatype Txn = Txn(req: Request, pc: Pc, row: Option<Transport>, booking: Option<Booking>)

  /** `log` is the requests that committed, in order. */
  datatype Sys = Sys(transports: Transports, bookings: Bookings, incidents: set<IncidentId>, txns: map<TxId, Txn>,
                     rowLocks: map<TransportId, TxId>, bookingLocks: map<BookingId, TxId>, log: seq<Request>)

  datatype Outcome = Next(t: Txn) | RolledBack(error: Error) | Violation | Committed

  /** The transport whose row the next statement writes; a guarded UPDATE whose guard the committed row fails writes none. */
  function Target(s: Sys, t: Txn): Option<TransportId> {
    match (t.req, t.pc)
    case (Book(v, _, seats, _), IncidentSeen) => if v in s.transports && Fits(s.transports[v], seats) then Some(v) else None
    case (Cancel(b), Flipped) => if b in s.bookings then Some(s.bookings[b].transport) else None
    case _ => None
  }

  /** The flip of a booking matches its committed row. */
  predicate Flips(s: Sys, t: Txn) { t.req.Cancel? && t.pc == Begun && t.req.id in s.bookings && s.bookings[t.req.id].status.Booked? }

  predicate Waits(s: Sys, id: TxId)
    requires id in s.txns
  {
    var t := s.txns[id];
    || (Target(s, t).Some? && Target(s, t).value in s.rowLocks && s.rowLocks[Target(s, t).value] != id)
    || (Flips(s, t) && t.req.id in s.bookingLocks && s.bookingLocks[t.req.id] != id)
  }

  /** The row's own CHECK (seats_taken >= 0 AND seats_taken <= capacity). */
  predicate RowCheck(row: Transport) { 0 <= row.taken <= row.capacity }

  function ExecBook(s: Sys, t: Txn): Outcome
    requires t.req.Book?
  {
    var Book(v, incident, seats, id) := t.req;
    match t.pc
    case Begun => if incident in s.incidents then Next(t.(pc := IncidentSeen)) else RolledBack(ErrIncidentNotFound)
    case IncidentSeen =>
      if v !in s.transports || !Fits(s.transports[v], seats) then Next(t.(pc := Refused))
      else if !RowCheck(Taking(s.transports[v], seats)) then Violation
      else Next(t.(pc := SeatsTaken, row := Some(Taking(s.transports[v], seats))))
    case Refused =>
      RolledBack(if v !in s.transports then ErrTransportNotFound
                 else if !s.transports[v].available then ErrTransportUnavailable else ErrInsufficientSeats)
    case SeatsTaken =>
      if seats > 0 then Next(t.(pc := Inserted, booking := Some(Booking(v, incident, seats, Booked)))) else Violation
    case _ => Committed
  }

  function ExecCancel(s: Sys, t: Txn): Outcome
    requires t.req.Cancel?
  {
    var b := t.req.id;
    match t.pc
    case Begun =>
      if Flips(s, t) then Next(t.(pc := Flipped, booking := Some(s.bookings[b].(status := Cancelled)))) else Next(t.(pc := Refused))
    case Refused => RolledBack(if b in s.bookings then ErrBookingNotActive else ErrBookingNotFound)
    case Flipped =>
      if b !in s.bookings || s.bookings[b].transport !in s.transports then Violation
      else
        var v := s.bookings[b].transport;
        if !RowCheck(Refunding(s.transports[v], s.bookings[b].seats)) then Violation
        else Next(t.(pc := Refunded, row := Some(Refunding(s.transports[v], s.bookings[b].seats))))
    case _ => Committed
  }

  function Exec(s: Sys, t: Txn): Outcome { if t.req.Book? then ExecBook(s, t) else ExecCancel(s, t) }

  datatype Step = Begin(id: TxId, req: Request) | Statement(id: TxId) | Abort(id: TxId)

  /** A booking's id is fresh: no row and no open transaction has it. */
  ghost predicate Enabled(s: Sys, step: Step) {
    match step
    case Begin(id, req) =>
      && id !in s.txns
      && (req.Book? ==> req.id !in s.bookings && forall x | x in s.txns :: s.txns[x].req.Book? ==> s.txns[x].req.id != req.id)
    case Statement(id) => id in s.txns && !Waits(s, id)
    case Abort(id) => id in s.txns
  }

  function Release<K>(locks: map<K, TxId>, id: TxId): map<K, TxId> { map k | k in locks && locks[k] != id :: locks[k] }

  function End(s: Sys, id: TxId): Sys {
    s.(txns := s.txns - {id}, rowLocks := Release(s.rowLocks, id), bookingLocks := Release(s.bookingLocks, id))
  }

  /** The transport a transaction that has written a row image has written. */
  function Written(s: Sys, t: Txn): TransportId {
    match t.req
    case Book(v, _, _, _) => v
    case Cancel(b) => if b in s.bookings then s.bookings[b].transport else 0
  }

  function Commit(s: Sys, id: TxId): Sys
    requires id in s.txns
  {
    var t := s.txns[id];
    End(s.(transports := if t.row.Some? then s.transports[Written(s, t) := t.row.value] else s.transports,
           bookings := if t.booking.Some? then s.bookings[t.req.id := t.booking.value] else s.bookings,
           log := s.log + [t.req]), id)
  }

  function Apply(s: Sys, step: Step): Sys {
    match step
    case Begin(id, req) => s.(txns := s.txns[id := Txn(req, Begun, None, None)])
    case Abort(id) => End(s, id)
    case Statement(id) =>
      if id !in s.txns then s else
        var t := s.txns[id];
        match Exec(s, t)
        case Next(t') =>
          s.(txns := s.txns[id := t'],
             rowLocks := if Target(s, t).Some? && t'.row.Some? then s.rowLocks[Target(s, t).value := id] else s.rowLocks,
             bookingLocks := if Flips(s, t) then s.bookingLocks[t.req.id := id] else s.bookingLocks)
        case Committed => Commit(s, id)
        case _ => End(s, id)
  }

  // --- What every step keeps ---

  predicate OwnsRow(s: Sys, id: TxId, v: TransportId) { v in s.rowLocks && s.rowLocks[v] == id }

  predicate OwnsBooking(s: Sys, id: TxId, b: BookingId) { b in s.bookingLocks && s.bookingLocks[b] == id }

  ghost predicate BookOk(s: Sys, id: TxId, t: Txn)
    requires t.req.Book?
  {
    var Book(v, incident, seats, b) := t.req;
    && b !in s.bookings && t.pc != Flipped && t.pc != Refunded
    && t.row.Some? == (t.pc == SeatsTaken || t.pc == Inserted) && t.booking.Some? == (t.pc == Inserted)
    && (t.row.Some? ==>
          v in s.transports && OwnsRow(s, id, v) && Fits(s.transports[v], seats) && t.row.value == Taking(s.transports[v], seats))
    && (t.booking.Some? ==> seats > 0 && t.booking.value == Booking(v, incident, seats, Booked))
  }

  predicate PastFlip(t: Txn) { t.pc == Flipped || t.pc == Refunded }

  ghost predicate CancelOk(s: Sys, id: TxId, t: Txn)
    requires t.req.Cancel?
  {
    var b := t.req.id;
    && (t.pc == Begun || t.pc == Refused || PastFlip(t))
    && t.booking.Some? == PastFlip(t) && t.row.Some? == (t.pc == Refunded)
    && (PastFlip(t) ==>
          && b in s.bookings && OwnsBooking(s, id, b) && s.bookings[b].status.Booked?
          && t.booking.value == s.bookings[b].(status := Cancelled))
    && (t.pc == Refunded ==>
          var v := s.bookings[b].transport;
          && v in s.transports && OwnsRow(s, id, v) && t.row.value == Refunding(s.transports[v], s.bookings[b].seats))
  }

  ghost predicate TxOk(s: Sys, id: TxId, t: Txn) { if t.req.Book? then BookOk(s, id, t) else CancelOk(s, id, t) }

  ghost predicate LocksOwned(s: Sys) {
    (forall v | v in s.rowLocks :: s.rowLocks[v] in s.txns) && (forall b | b in s.bookingLocks :: s.bookingLocks[b] in s.txns)
  }

  ghost predicate DistinctIds(s: Sys) {
    forall x, y | x in s.txns && y in s.txns && x != y && s.txns[x].req.Book? && s.txns[y].req.Book? ::
      s.txns[x].req.id != s.txns[y].req.id
  }

  ghost predicate SeatInv(s: Sys) {
    && Conserved(s.transports, s.bookings)
    && LocksOwned(s) && DistinctIds(s)
    && forall id | id in s.txns :: TxOk(s, id, s.txns[id])
  }

  /** What one transaction relies on while others commit: the rows it has locked stay as they are. */
  ghost predicate Spares(s: Sys, s': Sys, id: TxId) {
    && (forall v | v in s.transports && OwnsRow(s, id, v) :: v in s'.transports && s'.transports[v] == s.transports[v] && OwnsRow(s', id, v))
    && (forall b | b in s.bookings && OwnsBooking(s, id, b) :: b in s'.bookings && s'.bookings[b] == s.bookings[b] && OwnsBooking(s', id, b))
  }

  lemma TxFrame(s: Sys, s': Sys, id: TxId, t: Txn)
    requires TxOk(s, id, t) && Spares(s, s', id)
    requires t.req.Book? ==> t.req.id !in s'.bookings
    ensures TxOk(s', id, t)
  {
  }

  lemma EndSpares(s: Sys, id: TxId, other: TxId)
    requires other != id
    ensures Spares(s, End(s, id), other)
  {
  }

  /** A commit writes rows its transaction has locked, or its own new booking. */
  lemma CommitSpares(s: Sys, id: TxId, other: TxId)
    requires SeatInv(s) && id in s.txns && other in s.txns && other != id
    ensures Spares(s, Commit(s, id), other)
    ensures s.txns[other].req.Book? ==> s.txns[other].req.id !in Commit(s, id).bookings
  {
    hide Conserved;
    assert TxOk(s, id, s.txns[id]) && TxOk(s, other, s.txns[other]);
  }

  lemma CommitConserves(s: Sys, id: TxId)
    requires SeatInv(s) && id in s.txns && Exec(s, s.txns[id]).Committed?
    ensures Conserved(Commit(s, id).transports, Commit(s, id).bookings)
  {
    hide Conserved;
    var t := s.txns[id];
    assert TxOk(s, id, t);
    if t.req.Book? {
      BookingKeeps(s.transports, s.bookings, t.req.id, t.booking.value);
    } else {
      CancellingKeeps(s.transports, s.bookings, t.req.id);
    }
  }

  lemma StatementOk(s: Sys, id: TxId)
    requires SeatInv(s) && id in s.txns && Exec(s, s.txns[id]).Next?
    ensures var s' := Apply(s, Statement(id)); TxOk(s', id, s'.txns[id])
  {
    hide Conserved;
    assert TxOk(s, id, s.txns[id]);
  }

  lemma NextSpares(s: Sys, id: TxId, other: TxId)
    requires SeatInv(s) && Enabled(s, Statement(id)) && Exec(s, s.txns[id]).Next? && other != id
    ensures Spares(s, Apply(s, Statement(id)), other)
  {
    hide Conserved;
  }

  lemma SameRequest(s: Sys, t: Txn)
    ensures Exec(s, t).Next? ==> Exec(s, t).t.req == t.req
  {
  }

  lemma StepConserves(s: Sys, step: Step)
    requires SeatInv(s) && Enabled(s, step)
    ensures Conserved(Apply(s, step).transports, Apply(s, step).bookings)
  {
    hide Conserved, LocksOwned, DistinctIds, TxOk, Exec, Commit, Waits;
    if step.Statement? && Exec(s, s.txns[step.id]).Committed? { CommitConserves(s, step.id); }
  }

  lemma StepKeepsLocks(s: Sys, step: Step)
    requires LocksOwned(s) && DistinctIds(s) && Enabled(s, step)
    ensures LocksOwned(Apply(s, step)) && DistinctIds(Apply(s, step))
  {
    hide Exec, Waits, Target, Written;
    if step.Statement? { SameRequest(s, s.txns[step.id]); }
  }

  lemma StepKeepsSeats(s: Sys, step: Step)
    requires SeatInv(s) && Enabled(s, step)
    ensures SeatInv(Apply(s, step))
  {
    hide Conserved, TxOk, Enabled, Apply;
    var s' := Apply(s, step);
    StepConserves(s, step);
    StepKeepsLocks(s, step);
    forall other | other in s'.txns ensures TxOk(s', other, s'.txns[other]) {
      OtherStaysOk(s, step, other);
    }
  }

  lemma NotYetBooked(s: Sys, id: TxId)
    requires SeatInv(s) && id in s.txns
    ensures TxOk(s, id, s.txns[id]) && (s.txns[id].req.Book? ==> s.txns[id].req.id !in s.bookings)
  {
    hide Conserved;
  }

  lemma OtherIsSpared(s: Sys, step: Step, other: TxId)
    requires SeatInv(s) && Enabled(s, step) && other in Apply(s, step).txns && other != step.id
    ensures other in s.txns && Apply(s, step).txns[other] == s.txns[other]
    ensures TxOk(s, other, s.txns[other]) && Spares(s, Apply(s, step), other)
    ensures s.txns[other].req.Book? ==> s.txns[other].req.id !in Apply(s, step).bookings
  {
    hide SeatInv, TxOk, Exec, Target, Written, Release;
    NotYetBooked(s, other);
    if step.Statement? {
      match Exec(s, s.txns[step.id])
      case Next(_) => NextSpares(s, step.id, other);
      case Committed => CommitSpares(s, step.id, other);
      case _ => EndSpares(s, step.id, other);
    } else if step.Abort? {
      EndSpares(s, step.id, other);
    }
  }

  lemma OtherStaysOk(s: Sys, step: Step, other: TxId)
    requires SeatInv(s) && Enabled(s, step) && other in Apply(s, step).txns
    ensures TxOk(Apply(s, step), other, Apply(s, step).txns[other])
  {
    if other != step.id {
      OtherIsSpared(s, step, other);
      hide *;
      TxFrame(s, Apply(s, step), other, s.txns[other]);
    } else if step.Statement? {
      hide Conserved, TxOk, LocksOwned, DistinctIds, Commit;
      StatementOk(s, other);
    } else {
      hide Conserved, LocksOwned, DistinctIds;
    }
  }

  // --- Whole runs ---

  ghost predicate Init(s: Sys) {
    Conserved(s.transports, s.bookings) && s.txns == map[] && s.rowLocks == map[] && s.bookingLocks == map[] && s.log == []
  }

  ghost predicate Run(states: seq<Sys>, steps: seq<Step>) {
    && |states| == |steps| + 1 && Init(states[0])
    && forall k | 0 <= k < |steps| :: Enabled(states[k], steps[k]) && states[k + 1] == Apply(states[k], steps[k])
  }

  lemma {:induction false} RunKeepsSeats(states: seq<Sys>, steps: seq<Step>, n: nat)
    requires Run(states, steps) && n <= |steps|
    ensures SeatInv(states[n])
  {
    hide SeatInv, Apply, Enabled;
    if n > 0 {
      RunKeepsSeats(states, steps, n - 1);
      StepKeepsSeats(states[n - 1], steps[n - 1]);
    } else {
      StartsWell(states[0]);
    }
  }

  lemma StartsWell(s: Sys)
    requires Init(s)
    ensures SeatInv(s)
  {
  }

  /** In every committed state of every interleaving the total is the sum of the live bookings and within capacity. */
  lemma SeatsAreConserved(states: seq<Sys>, steps: seq<Step>, n: nat, v: TransportId)
    requires Run(states, steps) && n <= |steps| && v in states[n].transports
    ensures var s := states[n]; s.transports[v].taken == SeatsOn(s.bookings, v) <= s.transports[v].capacity
  {
    RunKeepsSeats(states, steps, n);
    assert Balanced(states[n].transports[v], states[n].bookings, v);
  }

  /** A refund subtracts exactly the booking's seats: neither the clamp nor the row's check is ever what decides. */
  lemma RefundIsExact(states: seq<Sys>, steps: seq<Step>, n: nat, id: TxId)
    requires Run(states, steps) && n <= |steps| && id in states[n].txns
    requires states[n].txns[id].req.Cancel? && states[n].txns[id].pc == Flipped
    ensures var s, t := states[n], states[n].txns[id];
            && t.req.id in s.bookings && s.bookings[t.req.id].transport in s.transports
            && var v := s.bookings[t.req.id].transport;
               var row := s.transports[v];
            Exec(s, t) == Next(t.(pc := Refunded, row := Some(row.(taken := row.taken - s.bookings[t.req.id].seats, version := row.version + 1))))
  {
    hide SeatsOn;
    RunKeepsSeats(states, steps, n);
    var s, t := states[n], states[n].txns[id];
    assert TxOk(s, id, t);
    ClampNeverEngages(s.transports, s.bookings, t.req.id);
    assert Balanced(s.transports[s.bookings[t.req.id].transport], s.bookings, s.bookings[t.req.id].transport);
  }

  /** Of two cancellations of one booking at most one gets past the flip, so the seats come back once. */
  lemma OneRefundPerBooking(states: seq<Sys>, steps: seq<Step>, n: nat, x: TxId, y: TxId)
    requires Run(states, steps) && n <= |steps| && x in states[n].txns && y in states[n].txns && x != y
    requires var s := states[n]; s.txns[x].req.Cancel? && s.txns[y].req == s.txns[x].req && PastFlip(s.txns[x])
    ensures !PastFlip(states[n].txns[y])
  {
    hide Conserved;
    RunKeepsSeats(states, steps, n);
    assert TxOk(states[n], x, states[n].txns[x]) && TxOk(states[n], y, states[n].txns[y]);
  }

  // --- One refund per booking, over whole runs ---

  /** A committed cancellation leaves its booking cancelled, and no booking is cancelled twice. */
  ghost predicate CancelledOnce(s: Sys) {
    && (forall k | 0 <= k < |s.log| && s.log[k].Cancel? :: s.log[k].id in s.bookings && !s.bookings[s.log[k].id].status.Booked?)
    && (forall j, k | 0 <= j < k < |s.log| && s.log[j].Cancel? :: s.log[k] != s.log[j])
  }

  lemma CommitCancelsOnce(s: Sys, id: TxId)
    requires SeatInv(s) && CancelledOnce(s) && id in s.txns && Exec(s, s.txns[id]).Committed?
    ensures CancelledOnce(Commit(s, id))
  {
    hide Conserved, LocksOwned, DistinctIds;
    assert TxOk(s, id, s.txns[id]);
  }

  lemma StepCancelsOnce(s: Sys, step: Step)
    requires SeatInv(s) && CancelledOnce(s) && Enabled(s, step)
    ensures CancelledOnce(Apply(s, step))
  {
    hide SeatInv, CancelledOnce, Exec, Commit;
    if step.Statement? && Exec(s, s.txns[step.id]).Committed? {
      CommitCancelsOnce(s, step.id);
    } else {
      SameBookings(s, step);
    }
  }

  lemma SameBookings(s: Sys, step: Step)
    requires CancelledOnce(s) && !(step.Statement? && step.id in s.txns && Exec(s, s.txns[step.id]).Committed?)
    ensures CancelledOnce(Apply(s, step))
  {
    hide Exec;
    assert Apply(s, step).bookings == s.bookings && Apply(s, step).log == s.log;
  }

  /** Over any run a booking is cancelled by at most one committed transaction, so its seats come back at most once. */
  lemma {:induction false} CancelledAtMostOnce(states: seq<Sys>, steps: seq<Step>, n: nat)
    requires Run(states, steps) && n <= |steps|
    ensures CancelledOnce(states[n])
  {
    hide SeatInv, CancelledOnce, Apply, Enabled;
    if n > 0 {
      CancelledAtMostOnce(states, steps, n - 1);
      RunKeepsSeats(states, steps, n - 1);
      StepCancelsOnce(states[n - 1], steps[n - 1]);
    } else {
      NoneCancelledYet(states[0]);
    }
  }

  lemma NoneCancelledYet(s: Sys)
    requires s.log == []
    ensures CancelledOnce(s)
  {
  }

  // --- Who waits for whom ---

  predicate Takes(bookings: Bookings, t: Txn, v: TransportId) {
    match t.req
    case Book(w, _, _, _) => w == v
    case Cancel(b) => b in bookings && bookings[b].transport == v
  }

  /** A held transport row has an image waiting to be committed, a held booking is being cancelled. */
  ghost predicate HoldersKnown(s: Sys) {
    && (forall v | v in s.rowLocks ::
          s.rowLocks[v] in s.txns && s.txns[s.rowLocks[v]].row.Some? && Takes(s.bookings, s.txns[s.rowLocks[v]], v))
    && (forall b | b in s.bookingLocks ::
          s.bookingLocks[b] in s.txns && PastFlip(s.txns[s.bookingLocks[b]]) && s.txns[s.bookingLocks[b]].req == Cancel(b))
  }

  /** A booking stays with its transport. */
  ghost predicate SameTransports(before: Bookings, after: Bookings) {
    forall b | b in before :: b in after && after[b].transport == before[b].transport
  }

  lemma CommitKeepsTransports(s: Sys, id: TxId)
    requires SeatInv(s) && id in s.txns
    ensures SameTransports(s.bookings, Commit(s, id).bookings)
  {
    hide Conserved;
    assert TxOk(s, id, s.txns[id]);
  }

  lemma HolderMovesOn(s: Sys, id: TxId)
    requires HoldersKnown(s) && Enabled(s, Statement(id)) && Exec(s, s.txns[id]).Next?
    ensures HoldersKnown(Apply(s, Statement(id)))
  {
    hide Fits, Taking, Refunding, RowCheck;
  }

  lemma HolderEnds(s: Sys, s': Sys, id: TxId)
    requires HoldersKnown(s) && SameTransports(s.bookings, s'.bookings)
    requires s'.txns == s.txns - {id} && s'.rowLocks == Release(s.rowLocks, id) && s'.bookingLocks == Release(s.bookingLocks, id)
    ensures HoldersKnown(s')
  {
  }

  lemma HoldersStayKnown(s: Sys, step: Step)
    requires SeatInv(s) && HoldersKnown(s) && Enabled(s, step)
    ensures HoldersKnown(Apply(s, step))
  {
    if step.Begin? {
      hide SeatInv;
    } else {
      hide HoldersKnown, SameTransports, Exec, SeatInv, Written;
      SameTransportsTrivially(s.bookings);
      if step.Statement? && Exec(s, s.txns[step.id]).Next? {
        HolderMovesOn(s, step.id);
      } else {
        if step.Statement? && Exec(s, s.txns[step.id]).Committed? { CommitKeepsTransports(s, step.id); }
        HolderEnds(s, Apply(s, step), step.id);
      }
    }
  }

  lemma SameTransportsTrivially(bookings: Bookings)
    ensures SameTransports(bookings, bookings)
  {
  }

  lemma {:induction false} RunKnowsHolders(states: seq<Sys>, steps: seq<Step>, n: nat)
    requires Run(states, steps) && n <= |steps|
    ensures HoldersKnown(states[n])
  {
    hide SeatInv, Apply, Enabled;
    if n > 0 {
      RunKnowsHolders(states, steps, n - 1);
      RunKeepsSeats(states, steps, n - 1);
      hide HoldersKnown;
      HoldersStayKnown(states[n - 1], steps[n - 1]);
    }
  }

  /** Another one has seats taken or given back on the transport wanted, whose committed row meets the guard; or has cancelled the booking. */
  predicate InTheWay(s: Sys, t: Txn, other: Txn) {
    match t.req
    case Book(v, _, seats, _) =>
      && t.pc == IncidentSeen && other.row.Some? && Takes(s.bookings, other, v)
      && v in s.transports && s.transports[v].available && s.transports[v].taken + seats <= s.transports[v].capacity
    case Cancel(b) =>
      || (t.pc == Begun && b in s.bookings && s.bookings[b].status == Booked && PastFlip(other) && other.req == t.req)
      || (t.pc == Flipped && b in s.bookings && other.row.Some? && Takes(s.bookings, other, s.bookings[b].transport))
  }

  /** A request waits exactly if another one is in its way; a booking that will be refused waits for nobody. */
  lemma WaitsIff(states: seq<Sys>, steps: seq<Step>, n: nat, id: TxId)
    requires Run(states, steps) && n <= |steps| && id in states[n].txns
    ensures !Enabled(states[n], Statement(id)) <==>
              exists y | y in states[n].txns :: y != id && InTheWay(states[n], states[n].txns[id], states[n].txns[y])
  {
    hide Conserved;
    RunKeepsSeats(states, steps, n);
    RunKnowsHolders(states, steps, n);
    var s := states[n];
    forall y | y in s.txns ensures TxOk(s, y, s.txns[y]) {}
  }

  /** Booking before transport: a chain of waiting requests has at most two links, so none closes into a circle. */
  lemma WaitsAreShort(states: seq<Sys>, steps: seq<Step>, n: nat, x: TxId, y: TxId, z: TxId)
    requires Run(states, steps) && n <= |steps| && {x, y, z} <= states[n].txns.Keys
    requires InTheWay(states[n], states[n].txns[x], states[n].txns[y]) && InTheWay(states[n], states[n].txns[y], states[n].txns[z])
    ensures Enabled(states[n], Statement(z))
  {
    hide Conserved, Fits;
    RunKeepsSeats(states, steps, n);
    var s := states[n];
    assert x in s.txns && y in s.txns && z in s.txns;
    assert TxOk(s, x, s.txns[x]) && TxOk(s, y, s.txns[y]) && TxOk(s, z, s.txns[z]);
  }

  // --- One request with no other beside it ---

  ghost predicate Leads(s: Sys, step: Step, s': Sys) { Enabled(s, step) && Apply(s, step) == s' }

  ghost predicate Idle(s: Sys) { s.txns == map[] && s.rowLocks == map[] && s.bookingLocks == map[] }

  /** States in which transaction id is the only one, as t, holding at most these rows. */
  function With(s: Sys, id: TxId, t: Txn, rows: map<TransportId, TxId>, bookings: map<BookingId, TxId>): Sys {
    s.(txns := map[id := t], rowLocks := rows, bookingLocks := bookings)
  }

  lemma Begins(s: Sys, id: TxId, req: Request)
    requires Idle(s) && (req.Book? ==> req.id !in s.bookings)
    ensures Leads(s, Begin(id, req), With(s, id, Txn(req, Begun, None, None), map[], map[]))
  {
    assert s.txns[id := Txn(req, Begun, None, None)] == map[id := Txn(req, Begun, None, None)];
  }

  lemma Moves(s: Sys, id: TxId, t: Txn, rows: map<TransportId, TxId>, bookings: map<BookingId, TxId>, t': Txn)
    requires (forall v | v in rows :: rows[v] == id) && (forall b | b in bookings :: bookings[b] == id)
    requires Exec(With(s, id, t, rows, bookings), t) == Next(t')
    ensures var at := With(s, id, t, rows, bookings);
            Leads(at, Statement(id),
                  With(s, id, t', if Target(at, t).Some? && t'.row.Some? then rows[Target(at, t).value := id] else rows,
                       if Flips(at, t) then bookings[t.req.id := id] else bookings))
  {
    hide Exec, Target, Flips;
    assert map[id := t][id := t'] == map[id := t'];
  }

  lemma Ends(s: Sys, id: TxId, t: Txn, rows: map<TransportId, TxId>, bookings: map<BookingId, TxId>)
    requires Idle(s) && (forall v | v in rows :: rows[v] == id) && (forall b | b in bookings :: bookings[b] == id)
    requires !Exec(With(s, id, t, rows, bookings), t).Next?
    ensures var at := With(s, id, t, rows, bookings);
            Leads(at, Statement(id),
                  if Exec(at, t).Committed?
                  then s.(transports := if t.row.Some? then s.transports[Written(at, t) := t.row.value] else s.transports,
                          bookings := if t.booking.Some? then s.bookings[t.req.id := t.booking.value] else s.bookings, log := s.log + [t.req])
                  else s)
  {
    hide Exec, Target, Flips, Written;
    assert map[id := t] - {id} == map[];
    assert Release(rows, id) == map[] && Release(bookings, id) == map[];
  }

  /** A booking alone: its seats and its row, exactly if the guard is met, and otherwise nothing. */
  lemma BookingAlone(s: Sys, id: TxId, v: TransportId, incident: IncidentId, seats: int, b: BookingId) returns (states: seq<Sys>, steps: seq<Step>)
    requires Idle(s) && Conserved(s.transports, s.bookings) && b !in s.bookings && seats > 0
    ensures |states| == |steps| + 1 && states[0] == s && forall k | 0 <= k < |steps| :: Leads(states[k], steps[k], states[k + 1])
    ensures states[|steps|] ==
              if incident in s.incidents && v in s.transports && s.transports[v].available
                 && s.transports[v].taken + seats <= s.transports[v].capacity
              then var row := s.transports[v];
                   s.(transports := s.transports[v := row.(taken := row.taken + seats, version := row.version + 1)],
                      bookings := s.bookings[b := Booking(v, incident, seats, Booked)], log := s.log + [Book(v, incident, seats, b)])
              else s
    ensures |steps| > 0 && id in states[|steps| - 1].txns
    ensures states[|steps|] == s ==>
              Exec(states[|steps| - 1], states[|steps| - 1].txns[id]) ==
                RolledBack(if incident !in s.incidents then ErrIncidentNotFound
                           else if v !in s.transports then ErrTransportNotFound
                           else if !s.transports[v].available then ErrTransportUnavailable else ErrInsufficientSeats)
  {
    hide Conserved, SeatsOn, Leads;
    var t := Txn(Book(v, incident, seats, b), Begun, None, None);
    var s1 := With(s, id, t, map[], map[]);
    Begins(s, id, t.req);
    if incident !in s.incidents {
      Ends(s, id, t, map[], map[]);
      states, steps := [s, s1, s], [Begin(id, t.req), Statement(id)];
    } else {
      var seen := t.(pc := IncidentSeen);
      var s2 := With(s, id, seen, map[], map[]);
      Moves(s, id, t, map[], map[], seen);
      if v in s.transports && Fits(s.transports[v], seats) {
        TakenIsNat(s, v);
        var taken := seen.(pc := SeatsTaken, row := Some(Taking(s.transports[v], seats)));
        var booked := taken.(pc := Inserted, booking := Some(Booking(v, incident, seats, Booked)));
        var s3, s4 := With(s, id, taken, map[v := id], map[]), With(s, id, booked, map[v := id], map[]);
        Moves(s, id, seen, map[], map[], taken);
        Moves(s, id, taken, map[v := id], map[], booked);
        Ends(s, id, booked, map[v := id], map[]);
        var end := s.(transports := s.transports[v := taken.row.value], bookings := s.bookings[b := booked.booking.value], log := s.log + [t.req]);
        states := [s, s1, s2, s3, s4, end];
        steps := [Begin(id, t.req), Statement(id), Statement(id), Statement(id), Statement(id)];
      } else {
        var refused := seen.(pc := Refused);
        Moves(s, id, seen, map[], map[], refused);
        Ends(s, id, refused, map[], map[]);
        states := [s, s1, s2, With(s, id, refused, map[], map[]), s];
        steps := [Begin(id, t.req), Statement(id), Statement(id), Statement(id)];
      }
    }
  }

  lemma TakenIsNat(s: Sys, v: TransportId)
    requires Conserved(s.transports, s.bookings) && v in s.transports
    ensures s.transports[v].taken >= 0
  {
    assert Balanced(s.transports[v], s.bookings, v);
  }

  /** A cancellation alone: the booking cancelled and its seats back, exactly if it was booked, and otherwise nothing. */
  lemma CancellationAlone(s: Sys, id: TxId, b: BookingId) returns (states: seq<Sys>, steps: seq<Step>)
    requires Idle(s) && Conserved(s.transports, s.bookings)
    ensures |states| == |steps| + 1 && states[0] == s && forall k | 0 <= k < |steps| :: Leads(states[k], steps[k], states[k + 1])
    ensures states[|steps|] ==
              if b in s.bookings && s.bookings[b].status == Booked && s.bookings[b].transport in s.transports
              then var was := s.bookings[b];
                   var row := s.transports[was.transport];
                   s.(transports := s.transports[was.transport := row.(taken := row.taken - was.seats, version := row.version + 1)],
                      bookings := s.bookings[b := was.(status := Cancelled)], log := s.log + [Cancel(b)])
              else s
    ensures |steps| > 0 && id in states[|steps| - 1].txns
    ensures states[|steps|] == s ==>
              Exec(states[|steps| - 1], states[|steps| - 1].txns[id]) == RolledBack(if b in s.bookings then ErrBookingNotActive else ErrBookingNotFound)
  {
    hide Conserved, SeatsOn, Leads;
    var t := Txn(Cancel(b), Begun, None, None);
    var s1 := With(s, id, t, map[], map[]);
    Begins(s, id, t.req);
    if b in s.bookings && s.bookings[b].status.Booked? {
      var was := s.bookings[b];
      RefundFits(s, b);
      var row := s.transports[was.transport];
      var flipped := t.(pc := Flipped, booking := Some(was.(status := Cancelled)));
      var refunded := flipped.(pc := Refunded, row := Some(Refunding(row, was.seats)));
      var s2, s3 := With(s, id, flipped, map[], map[b := id]), With(s, id, refunded, map[was.transport := id], map[b := id]);
      Moves(s, id, t, map[], map[], flipped);
      Moves(s, id, flipped, map[], map[b := id], refunded);
      Ends(s, id, refunded, map[was.transport := id], map[b := id]);
      var end := s.(transports := s.transports[was.transport := refunded.row.value], bookings := s.bookings[b := flipped.booking.value],
                    log := s.log + [t.req]);
      states := [s, s1, s2, s3, end];
      steps := [Begin(id, t.req), Statement(id), Statement(id), Statement(id)];
    } else {
      var refused := t.(pc := Refused);
      Moves(s, id, t, map[], map[], refused);
      Ends(s, id, refused, map[], map[]);
      states := [s, s1, With(s, id, refused, map[], map[]), s];
      steps := [Begin(id, t.req), Statement(id), Statement(id)];
    }
  }

  lemma RefundFits(s: Sys, b: BookingId)
    requires Conserved(s.transports, s.bookings) && b in s.bookings && s.bookings[b].status.Booked?
    ensures var was := s.bookings[b];
            && was.transport in s.transports && 0 < was.seats <= s.transports[was.transport].taken
            && s.transports[was.transport].taken <= s.transports[was.transport].capacity
  {
    ClampNeverEngages(s.transports, s.bookings, b);
    assert Balanced(s.transports[s.bookings[b].transport], s.bookings, s.bookings[b].transport);
  }
}
