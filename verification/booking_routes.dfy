/** The booking handlers (routes/bookings.js): creation with its availability
    and date-conflict guards, the owner-or-admin view rule, the admin status
    update with its effect on the car's `available` flag, cancellation, and
    the listings. Each handler runs as one atomic step on the store. */
module BookingRoutes {
  import opened Common
  import opened CarModel
  import opened BookingModel
  import opened UserModel
  import opened Database

  /** A booking that still holds its car: pending or confirmed. */
  predicate IsActive(s: Status) { s == Pending || s == Confirmed }

  /** The date test of the conflict query: `[s1, e1]` and `[s2, e2]` share an
      instant, both ends included. */
  predicate Overlaps(s1: Ms, e1: Ms, s2: Ms, e2: Ms) { s1 <= e2 && e1 >= s2 }

  /** `b` matches the conflict query for a request on `car` from `start` to
      `end`: same car, active, and `b.startDate <= end && b.endDate >= start`. */
  predicate Blocks(b: Booking, car: CarId, start: Ms, end: Ms) {
    b.car == car && IsActive(b.status) && Overlaps(b.startDate, b.endDate, start, end)
  }

  /** The conflict query finds some booking. */
  predicate HasConflict(bs: map<BookingId, Booking>, car: CarId, start: Ms, end: Ms) {
    exists id :: id in bs && Blocks(bs[id], car, start, end)
  }

  /** No two active bookings of one car overlap. */
  predicate ActiveDisjoint(bs: map<BookingId, Booking>) {
    forall i, j :: i in bs && j in bs && i != j && bs[i].car == bs[j].car
      && IsActive(bs[i].status) && IsActive(bs[j].status)
      ==> !Overlaps(bs[i].startDate, bs[i].endDate, bs[j].startDate, bs[j].endDate)
  }

  lemma OverlapsSymmetric(s1: Ms, e1: Ms, s2: Ms, e2: Ms)
    ensures Overlaps(s1, e1, s2, e2) == Overlaps(s2, e2, s1, e1)
  {
  }

  /** A request that starts on the day an existing booking ends conflicts with it. */
  lemma TouchingRangesConflict(s1: Ms, e1: Ms, e2: Ms)
    requires s1 <= e1 <= e2
    ensures Overlaps(s1, e1, e1, e2) && Overlaps(e1, e2, s1, e1)
  {
  }

  /** Cancelled and completed bookings never block a request. */
  lemma InactiveNeverBlocks(bs: map<BookingId, Booking>, car: CarId, start: Ms, end: Ms)
    requires forall id :: id in bs ==> !IsActive(bs[id].status)
    ensures !HasConflict(bs, car, start, end)
  {
  }

  /** Storing a booking the conflict query did not object to keeps active
      bookings pairwise disjoint. */
  lemma AcceptPreservesDisjoint(bs: map<BookingId, Booking>, id: BookingId, b: Booking)
    requires ActiveDisjoint(bs) && id !in bs
    requires !HasConflict(bs, b.car, b.startDate, b.endDate)
    ensures ActiveDisjoint(bs[id := b])
  {
    var bs' := bs[id := b];
    forall i, j | i in bs' && j in bs' && i != j && bs'[i].car == bs'[j].car
      && IsActive(bs'[i].status) && IsActive(bs'[j].status)
      ensures !Overlaps(bs'[i].startDate, bs'[i].endDate, bs'[j].startDate, bs'[j].endDate)
    {
      if i == id {
        assert !Blocks(bs[j], b.car, b.startDate, b.endDate);
      } else if j == id {
        assert !Blocks(bs[i], b.car, b.startDate, b.endDate);
      }
    }
  }

  /** Giving one booking a new status keeps active bookings disjoint when the
      new status is inactive or the booking was already active. */
  lemma RestatusPreservesDisjoint(bs: map<BookingId, Booking>, id: BookingId, s: Status)
    requires ActiveDisjoint(bs) && id in bs
    requires !IsActive(s) || IsActive(bs[id].status)
    ensures ActiveDisjoint(bs[id := bs[id].(status := s)])
  {
  }

  /** The status update does not re-check dates: re-activating a cancelled
      booking can leave two active bookings of one car overlapping. */
  lemma ReactivationCanBreakDisjoint()
    ensures exists bs: map<BookingId, Booking>, id ::
      id in bs && ActiveDisjoint(bs) && !ActiveDisjoint(bs[id := bs[id].(status := Confirmed)])
  {
    var a := Booking(1, 7, 0, DayMs, 0, Cancelled, PaymentPending, CreditCard, "A", "A", 0, false, None);
    var b := a.(status := Pending);
    var bs := map[0 := a, 1 := b];
    assert ActiveDisjoint(bs);
    var bs' := bs[0 := bs[0].(status := Confirmed)];
    assert bs'[0].car == bs'[1].car && IsActive(bs'[0].status) && IsActive(bs'[1].status);
    assert Overlaps(bs'[0].startDate, bs'[0].endDate, bs'[1].startDate, bs'[1].endDate);
  }

  /** The effect of a new status on the car's `available` flag: cancelled and
      completed free the car, confirmed takes it, pending leaves the flag. The
      flag is set from this one booking alone, whatever other bookings of the
      car are active. */
  function AvailabilityAfter(s: Status, available: bool): (r: bool)
    ensures s == Confirmed ==> !r
    ensures s == Cancelled || s == Completed ==> r
    ensures s == Pending ==> r == available
  {
    match s
    case Cancelled | Completed => true
    case Confirmed => false
    case Pending => available
  }

  /** The view rule of `GET /:id`: the booking's owner or an admin. */
  predicate CanView(b: Booking, caller: UserId, callerIsAdmin: bool) {
    b.user == caller || callerIsAdmin
  }

  /** The decision of `PUT /:id/cancel` on an existing booking: only its owner
      or an admin may cancel, and only a pending or confirmed booking. */
  function Cancel(b: Booking, caller: UserId, callerIsAdmin: bool): (r: Result<Booking>)
    ensures r == Err(AccessDenied) <==> !CanView(b, caller, callerIsAdmin)
    ensures r == Err(CannotCancel) <==> CanView(b, caller, callerIsAdmin) && !IsActive(b.status)
    ensures r.Ok? <==> CanView(b, caller, callerIsAdmin) && IsActive(b.status)
    ensures r.Ok? ==> r.value == b.(status := Cancelled)
  {
    if !CanView(b, caller, callerIsAdmin) then Err(AccessDenied)
    else if !IsActive(b.status) then Err(CannotCancel)
    else Ok(b.(status := Cancelled))
  }

  /** A booking that was just cancelled cannot be cancelled again. */
  lemma CancelTwiceFails(b: Booking, caller: UserId, callerIsAdmin: bool)
    requires Cancel(b, caller, callerIsAdmin).Ok?
    ensures Cancel(Cancel(b, caller, callerIsAdmin).value, caller, callerIsAdmin) == Err(CannotCancel)
  {
  }

  /** A car at 50 a day booked from 2023-01-01 to 2023-01-03 costs 100, and a
      second request for 2023-01-02 to 2023-01-04 conflicts with it. */
  lemma TwoDayScenario(owner: UserId, car: CarId)
    ensures ServerPrice(Jan1, Jan1 + 2 * DayMs, 50) == 100
    ensures var first := Booking(owner, car, Jan1, Jan1 + 2 * DayMs, 100, Pending, PaymentPending,
                                 CreditCard, "X", "X", 0, false, None);
            HasConflict(map[0 := first], car, Jan1 + DayMs, Jan1 + 3 * DayMs)
  {
    WholeDaysChargedExactly(Jan1, 2, 50);
    var first := Booking(owner, car, Jan1, Jan1 + 2 * DayMs, 100, Pending, PaymentPending,
                         CreditCard, "X", "X", 0, false, None);
    assert Blocks(map[0 := first][0], car, Jan1 + DayMs, Jan1 + 3 * DayMs);
  }

  /** 2023-01-01T00:00:00Z in milliseconds. */
  const Jan1: Ms := 1_672_531_200_000

  /** `POST /`: create a booking for the caller. */
  method CreateBooking(db: Store, caller: UserId, body: BookingBody) returns (r: Result<BookingId>)
    requires db.Valid() && caller in db.users
    modifies db
    ensures db.Valid()
    ensures db.cars == old(db.cars) && db.notifications == old(db.notifications)
    ensures r.Ok? || r.error in {NotFound, CarNotAvailable, AlreadyBooked, ValidationFailed}
    ensures r == Err(NotFound) <==> body.car !in old(db.cars)
    ensures r == Err(CarNotAvailable) <==> body.car in old(db.cars) && !old(db.cars)[body.car].available
    ensures r == Err(AlreadyBooked) <==>
      && body.car in old(db.cars) && old(db.cars)[body.car].available
      && HasConflict(old(db.bookings), body.car, body.startDate, body.endDate)
    ensures r == Err(ValidationFailed) <==>
      && body.car in old(db.cars) && old(db.cars)[body.car].available
      && !HasConflict(old(db.bookings), body.car, body.startDate, body.endDate)
      && !BodyValid(body)
    ensures r.Err? ==> db.bookings == old(db.bookings) && db.users == old(db.users)
    ensures r.Ok? ==>
      && r.value !in old(db.bookings)
      && db.bookings == old(db.bookings)[r.value := NewBooking(body, caller, old(db.cars)[body.car].pricePerDay).value]
      && db.users == old(db.users)[caller := old(db.users)[caller].(bookings := old(db.users)[caller].bookings + [r.value])]
    ensures ActiveDisjoint(old(db.bookings)) ==> ActiveDisjoint(db.bookings)
  {
    if body.car !in db.cars {
      return Err(NotFound);
    }
    var car := db.cars[body.car];
    if !car.available {
      return Err(CarNotAvailable);
    }
    if HasConflict(db.bookings, body.car, body.startDate, body.endDate) {
      return Err(AlreadyBooked);
    }
    var booking := NewBooking(body, caller, car.pricePerDay);
    if booking.None? {
      return Err(ValidationFailed);
    }
    var id := db.FreshId();
    if ActiveDisjoint(db.bookings) {
      AcceptPreservesDisjoint(db.bookings, id, booking.value);
    }
    db.bookings := db.bookings[id := booking.value];
    var user := db.users[caller];
    db.users := db.users[caller := user.(bookings := user.bookings + [id])];
    r := Ok(id);
  }

  /** `GET /:id`: one booking, for its owner or an admin. */
  function GetBooking(db: Store, caller: UserId, id: BookingId): (r: Result<Booking>)
    reads db
    ensures r == Err(NotFound) <==> id !in db.bookings
    ensures r == Err(AccessDenied) <==> id in db.bookings && !CanView(db.bookings[id], caller, db.IsAdmin(caller))
    ensures r.Ok? <==> id in db.bookings && CanView(db.bookings[id], caller, db.IsAdmin(caller))
    ensures r.Ok? ==> r.value == db.bookings[id]
  {
    if id !in db.bookings then Err(NotFound)
    else if !CanView(db.bookings[id], caller, db.IsAdmin(caller)) then Err(AccessDenied)
    else Ok(db.bookings[id])
  }

  /** `PUT /:id/status`: an admin sets any status, with its effect on the car. */
  method UpdateBookingStatus(db: Store, caller: UserId, id: BookingId, status: string) returns (r: Result<Booking>)
    requires db.Valid()
    modifies db
    ensures db.Valid()
    ensures db.users == old(db.users) && db.notifications == old(db.notifications)
    ensures r.Ok? || r.error in {NotFound, AccessDenied, HandlerThrew, ValidationFailed}
    ensures r == Err(NotFound) <==> id !in old(db.bookings)
    ensures r == Err(AccessDenied) <==> id in old(db.bookings) && !old(db.IsAdmin(caller))
    ensures r == Err(HandlerThrew) <==>
      id in old(db.bookings) && old(db.IsAdmin(caller)) && old(db.bookings)[id].car !in old(db.cars)
    ensures r == Err(ValidationFailed) <==>
      && id in old(db.bookings) && old(db.IsAdmin(caller)) && old(db.bookings)[id].car in old(db.cars)
      && ParseStatus(status).None?
    ensures r.Err? ==> db.bookings == old(db.bookings) && db.cars == old(db.cars)
    ensures r.Ok? ==>
      var b := old(db.bookings)[id];
      var s := ParseStatus(status).value;
      var c := old(db.cars)[b.car];
      && r.value == b.(status := s)
      && db.bookings == old(db.bookings)[id := b.(status := s)]
      && db.cars == old(db.cars)[b.car := c.(available := AvailabilityAfter(s, c.available))]
  {
    if id !in db.bookings {
      return Err(NotFound);
    }
    if !db.IsAdmin(caller) {
      return Err(AccessDenied);
    }
    var booking := db.bookings[id];
    if booking.car !in db.cars {
      return Err(HandlerThrew);
    }
    var car := db.cars[booking.car];
    var s := ParseStatus(status);
    if s.None? {
      return Err(ValidationFailed);
    }
    db.cars := db.cars[booking.car := car.(available := AvailabilityAfter(s.value, car.available))];
    booking := PreSave(booking.(status := s.value), false, car.pricePerDay);
    db.bookings := db.bookings[id := booking];
    r := Ok(booking);
  }

  /** `PUT /:id/cancel`: the owner or an admin cancels an active booking. The
      booking is saved before the car is read, so a booking whose car is gone
      ends up cancelled although the request fails. */
  method CancelBooking(db: Store, caller: UserId, id: BookingId) returns (r: Result<Booking>)
    requires db.Valid()
    modifies db
    ensures db.Valid()
    ensures db.users == old(db.users) && db.notifications == old(db.notifications)
    ensures r.Ok? || r.error in {NotFound, AccessDenied, CannotCancel, HandlerThrew}
    ensures r == Err(NotFound) <==> id !in old(db.bookings)
    ensures id in old(db.bookings) ==>
      var b := old(db.bookings)[id];
      var decision := Cancel(b, caller, old(db.IsAdmin(caller)));
      && (decision.Err? ==> r == decision && db.bookings == old(db.bookings) && db.cars == old(db.cars))
      && (decision.Ok? ==> db.bookings == old(db.bookings)[id := b.(status := Cancelled)])
      && (decision.Ok? && b.car !in old(db.cars) ==> r == Err(HandlerThrew) && db.cars == old(db.cars))
      && (decision.Ok? && b.car in old(db.cars) ==>
            r == Ok(b.(status := Cancelled))
            && db.cars == old(db.cars)[b.car := old(db.cars)[b.car].(available := true)])
    ensures ActiveDisjoint(old(db.bookings)) ==> ActiveDisjoint(db.bookings)
  {
    if id !in db.bookings {
      return Err(NotFound);
    }
    var decision := Cancel(db.bookings[id], caller, db.IsAdmin(caller));
    if decision.Err? {
      return decision;
    }
    if ActiveDisjoint(db.bookings) {
      RestatusPreservesDisjoint(db.bookings, id, Cancelled);
    }
    var booking := decision.value;
    db.bookings := db.bookings[id := booking];
    if booking.car !in db.cars {
      return Err(HandlerThrew);
    }
    var car := db.cars[booking.car];
    db.cars := db.cars[booking.car := car.(available := true)];
    r := Ok(booking);
  }

  /** `GET /`: every booking, for admins only. */
  function ListBookings(db: Store, caller: UserId): (r: Result<set<BookingId>>)
    reads db
    ensures r.Ok? <==> db.IsAdmin(caller)
    ensures r.Err? ==> r.error == AccessDenied
    ensures r.Ok? ==> r.value == db.bookings.Keys
  {
    if !db.IsAdmin(caller) then Err(AccessDenied) else Ok(db.bookings.Keys)
  }

  /** `GET /my-bookings`: the caller's own bookings, whoever the caller is. */
  function MyBookings(db: Store, caller: UserId): (r: set<BookingId>)
    reads db
    ensures forall id :: id in r <==> id in db.bookings && db.bookings[id].user == caller
  {
    set id | id in db.bookings && db.bookings[id].user == caller
  }
}
