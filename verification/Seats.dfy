/** Seats of evacuation transports: a running total guarded by one UPDATE, and the bookings it summarises. */
module Seats {
  import opened Results
  import opened MapSums

  type TransportId = nat
  type BookingId = nat
  type IncidentId = nat

  datatype Transport = Transport(capacity: int, taken: int, available: bool, version: int)

  datatype BookingStatus = Booked | Completed | Cancelled

  datatype Booking = Booking(transport: TransportId, incident: IncidentId, seats: int, status: BookingStatus)

  datatype Error = ErrIncidentNotFound | ErrTransportNotFound | ErrTransportUnavailable | ErrInsufficientSeats
                 | ErrInvalidSeats | ErrBookingNotFound | ErrBookingNotActive

  type Transports = map<TransportId, Transport>
  type Bookings = map<BookingId, Booking>

  function Share(b: Booking, t: TransportId): nat {
    if b.status.Booked? && b.transport == t && b.seats > 0 then b.seats else 0
  }

  function Shares(bookings: Bookings, t: TransportId): map<BookingId, nat> {
    map b | b in bookings :: Share(bookings[b], t)
  }

  /** The seats of the live bookings on a transport. */
  ghost function SeatsOn(bookings: Bookings, t: TransportId): nat { Sum(Shares(bookings, t)) }

  /** The running total is the sum it stands for, and nothing is oversold. */
  ghost predicate Balanced(row: Transport, bookings: Bookings, t: TransportId) {
    row.taken == SeatsOn(bookings, t) && row.taken <= row.capacity
  }

  ghost predicate Conserved(transports: Transports, bookings: Bookings) {
    && (forall t | t in transports :: Balanced(transports[t], bookings, t))
    && (forall b | b in bookings :: bookings[b].transport in transports && bookings[b].seats > 0)
  }

  /** The guard of the booking's UPDATE. */
  predicate Fits(row: Transport, seats: int) { row.available && row.taken + seats <= row.capacity }

  function Taking(row: Transport, seats: int): Transport { row.(taken := row.taken + seats, version := row.version + 1) }

  /** GREATEST(seats_taken - n, 0). */
  function Refunding(row: Transport, seats: int): Transport {
    row.(taken := if row.taken - seats > 0 then row.taken - seats else 0, version := row.version + 1)
  }

  lemma ShareOfNew(bookings: Bookings, b: BookingId, row: Booking, t: TransportId)
    requires b !in bookings
    ensures SeatsOn(bookings[b := row], t) == SeatsOn(bookings, t) + Share(row, t)
  {
    assert Shares(bookings[b := row], t) == Shares(bookings, t)[b := Share(row, t)];
    SumInsert(Shares(bookings, t), b, Share(row, t));
  }

  lemma ShareOfChanged(bookings: Bookings, b: BookingId, row: Booking, t: TransportId)
    requires b in bookings
    ensures SeatsOn(bookings[b := row], t) + Share(bookings[b], t) == SeatsOn(bookings, t) + Share(row, t)
  {
    assert Shares(bookings[b := row], t) == Shares(bookings, t)[b := Share(row, t)];
    SumUpdate(Shares(bookings, t), b, Share(row, t));
  }

  lemma BookingBalances(transports: Transports, bookings: Bookings, b: BookingId, row: Booking, t: TransportId)
    requires t in transports && Balanced(transports[t], bookings, t) && b !in bookings && row.status.Booked? && row.seats > 0
    requires row.transport in transports && Fits(transports[row.transport], row.seats)
    ensures Balanced(transports[row.transport := Taking(transports[row.transport], row.seats)][t], bookings[b := row], t)
  {
    ShareOfNew(bookings, b, row, t);
  }

  lemma BookingKeeps(transports: Transports, bookings: Bookings, b: BookingId, row: Booking)
    requires Conserved(transports, bookings) && b !in bookings && row.status.Booked? && row.seats > 0
    requires row.transport in transports && Fits(transports[row.transport], row.seats)
    ensures Conserved(transports[row.transport := Taking(transports[row.transport], row.seats)], bookings[b := row])
  {
    hide SeatsOn;
    forall t | t in transports
      ensures Balanced(transports[row.transport := Taking(transports[row.transport], row.seats)][t], bookings[b := row], t)
    {
      BookingBalances(transports, bookings, b, row, t);
    }
  }

  /** A live booking's seats are in the total, so giving them back never reaches the clamp. */
  lemma ClampNeverEngages(transports: Transports, bookings: Bookings, b: BookingId)
    requires Conserved(transports, bookings) && b in bookings && bookings[b].status.Booked?
    ensures bookings[b].seats <= transports[bookings[b].transport].taken
  {
    var t := bookings[b].transport;
    assert Balanced(transports[t], bookings, t);
    SumPositive(Shares(bookings, t), b);
  }

  lemma CancellingBalances(transports: Transports, bookings: Bookings, b: BookingId, t: TransportId)
    requires t in transports && Balanced(transports[t], bookings, t) && b in bookings && bookings[b].status.Booked?
    requires bookings[b].transport in transports && 0 < bookings[b].seats <= transports[bookings[b].transport].taken
    ensures var v := bookings[b].transport;
            Balanced(transports[v := Refunding(transports[v], bookings[b].seats)][t],
                     bookings[b := bookings[b].(status := Cancelled)], t)
  {
    ShareOfChanged(bookings, b, bookings[b].(status := Cancelled), t);
  }

  lemma CancellingKeeps(transports: Transports, bookings: Bookings, b: BookingId)
    requires Conserved(transports, bookings) && b in bookings && bookings[b].status.Booked?
    ensures Refunding(transports[bookings[b].transport], bookings[b].seats) == Taking(transports[bookings[b].transport], -bookings[b].seats)
    ensures var t := bookings[b].transport;
            Conserved(transports[t := Refunding(transports[t], bookings[b].seats)], bookings[b := bookings[b].(status := Cancelled)])
  {
    hide SeatsOn;
    ClampNeverEngages(transports, bookings, b);
    var v := bookings[b].transport;
    forall t | t in transports
      ensures Balanced(transports[v := Refunding(transports[v], bookings[b].seats)][t],
                       bookings[b := bookings[b].(status := Cancelled)], t)
    {
      CancellingBalances(transports, bookings, b, t);
    }
  }

  class TransportRepository {
    var transports: Transports
    var bookings: Bookings
    var incidents: set<IncidentId>

    ghost predicate Valid()
      reads this
    {
      Conserved(transports, bookings)
    }

    constructor (transports: Transports, incidents: set<IncidentId>)
      requires forall t | t in transports :: transports[t].taken == 0 <= transports[t].capacity
      ensures Valid() && this.transports == transports && bookings == map[]
    {
      this.transports, this.incidents, bookings := transports, incidents, map[];
      new;
      forall t | t in transports ensures Balanced(transports[t], bookings, t) { assert Shares(bookings, t) == map[]; }
    }

    /** All or nothing: the seats are taken and recorded, or a precise reason is given and nothing changes. */
    method BookSeats(t: TransportId, incident: IncidentId, seats: int, id: BookingId) returns (r: Result<Booking, Error>)
      requires Valid() && id !in bookings
      modifies `transports, `bookings
      ensures Valid()
      ensures r.Ok? <==> seats > 0 && incident in incidents && t in old(transports) && old(transports)[t].available
                         && old(transports)[t].taken + seats <= old(transports)[t].capacity
      ensures r.Ok? ==> var was := old(transports)[t];
                        && transports == old(transports)[t := was.(taken := was.taken + seats, version := was.version + 1)]
                        && bookings == old(bookings)[id := r.value] && r.value == Booking(t, incident, seats, Booked)
      ensures r.Err? ==> transports == old(transports) && bookings == old(bookings)
      ensures r.Err? ==> r.error == if seats <= 0 then ErrInvalidSeats
                                    else if incident !in incidents then ErrIncidentNotFound
                                    else if t !in old(transports) then ErrTransportNotFound
                                    else if !old(transports)[t].available then ErrTransportUnavailable else ErrInsufficientSeats
    {
      if seats <= 0 { return Err(ErrInvalidSeats); }
      if incident !in incidents { return Err(ErrIncidentNotFound); }
      if t !in transports { return Err(ErrTransportNotFound); }
      var row := transports[t];
      if !(row.available && row.taken + seats <= row.capacity) {
        return Err(if !row.available then ErrTransportUnavailable else ErrInsufficientSeats);
      }
      var booking := Booking(t, incident, seats, Booked);
      BookingKeeps(transports, bookings, id, booking);
      transports, bookings := transports[t := Taking(row, seats)], bookings[id := booking];
      r := Ok(booking);
    }

    /** Only the caller that moves the booking out of 'booked' gives the seats back, exactly as many as it took. */
    method CancelBooking(id: BookingId) returns (r: Result<Booking, Error>)
      requires Valid()
      modifies `transports, `bookings
      ensures Valid()
      ensures r.Ok? <==> id in old(bookings) && old(bookings)[id].status.Booked?
      ensures r.Ok? ==> var was := old(bookings)[id];
                        && r.value == was.(status := Cancelled) && bookings == old(bookings)[id := r.value]
                        && was.transport in old(transports)
                        && var row := old(transports)[was.transport];
                        transports == old(transports)[was.transport := row.(taken := row.taken - was.seats, version := row.version + 1)]
      ensures r.Err? ==> transports == old(transports) && bookings == old(bookings)
      ensures r.Err? ==> r.error == if id in old(bookings) then ErrBookingNotActive else ErrBookingNotFound
    {
      hide SeatsOn;
      if id !in bookings { return Err(ErrBookingNotFound); }
      var booking := bookings[id];
      if !booking.status.Booked? { return Err(ErrBookingNotActive); }
      CancellingKeeps(transports, bookings, id);
      var row := transports[booking.transport];
      var released := booking.(status := Cancelled);
      transports, bookings := transports[booking.transport := Refunding(row, booking.seats)], bookings[id := released];
      r := Ok(released);
    }
  }
}
