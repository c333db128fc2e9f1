/** Booking admission (backend/controllers/bookingController.js,
    `createBookings`): a request is refused when an existing booking of the
    property contains its first or its last day; otherwise a booking record
    is created and a summary of it is pushed onto the property's
    `currentBookings`. Dates are day numbers. */
module BookingController {
  import opened Wrappers
  import opened PropertyModel

  type PropertyId = string

  /** The body of a booking request. */
  datatype BookingRequest = BookingRequest(property: PropertyId, price: int, guests: int, fromDate: int, toDate: int)

  /** A record of the bookings collection. */
  datatype Booking = Booking(
    property: PropertyId,
    price: int,
    guests: int,
    fromDate: int,
    toDate: int,
    numberOfNights: int,
    user: UserId)

  /** Why a request fails: no authenticated user, no property under the
      given id (its `currentBookings` cannot be read), or the dates clash. */
  datatype BookingError = NotLoggedIn | PropertyNotFound | AlreadyBooked

  /** The existing booking covers day `d`, both ends included. */
  predicate Contains(b: BookingSummary, d: int) {
    b.fromDate <= d <= b.toDate
  }

  /** The test applied to one existing booking: it contains the requested
      first day or the requested last day. */
  predicate Clashes(b: BookingSummary, fromDate: int, toDate: int) {
    Contains(b, fromDate) || Contains(b, toDate)
  }

  /** `currentBookings.some(...)` with the test above, scanned from the
      front; a refusal names an existing booking that clashes. */
  predicate IsBooked(bookings: seq<BookingSummary>, fromDate: int, toDate: int)
    ensures IsBooked(bookings, fromDate, toDate) ==> exists b :: b in bookings && Clashes(b, fromDate, toDate)
  {
    bookings != [] && (Clashes(bookings[0], fromDate, toDate) || IsBooked(bookings[1..], fromDate, toDate))
  }

  /** The scan finds a clash iff some existing booking clashes. */
  lemma {:induction false} IsBookedExists(bookings: seq<BookingSummary>, fromDate: int, toDate: int)
    ensures IsBooked(bookings, fromDate, toDate) <==>
      exists i :: 0 <= i < |bookings| && Clashes(bookings[i], fromDate, toDate)
  {
    if bookings != [] {
      IsBookedExists(bookings[1..], fromDate, toDate);
      if IsBooked(bookings[1..], fromDate, toDate) {
        var i :| 0 <= i < |bookings[1..]| && Clashes(bookings[1..][i], fromDate, toDate);
        assert Clashes(bookings[i + 1], fromDate, toDate);
      }
      if exists i :: 0 <= i < |bookings| && Clashes(bookings[i], fromDate, toDate) {
        var i :| 0 <= i < |bookings| && Clashes(bookings[i], fromDate, toDate);
        if i > 0 {
          assert Clashes(bookings[1..][i - 1], fromDate, toDate);
        }
      }
    }
  }

  /** Same-day turnover: a request starting on the day an existing booking
      ends is refused. */
  lemma SameDayTurnoverRefused(bookings: seq<BookingSummary>, i: int, toDate: int)
    requires 0 <= i < |bookings| && bookings[i].fromDate <= bookings[i].toDate
    ensures IsBooked(bookings, bookings[i].toDate, toDate)
  {
    IsBookedExists(bookings, bookings[i].toDate, toDate);
    assert Clashes(bookings[i], bookings[i].toDate, toDate);
  }

  /** A request that strictly encloses every existing booking is not
      refused, although it overlaps each of them. */
  lemma EnclosingAdmitted(bookings: seq<BookingSummary>, fromDate: int, toDate: int)
    requires forall i :: 0 <= i < |bookings| ==> fromDate < bookings[i].fromDate && bookings[i].toDate < toDate
    ensures !IsBooked(bookings, fromDate, toDate)
  {
    IsBookedExists(bookings, fromDate, toDate);
  }

  /** The closed ranges `[fromDate, toDate]` and `[b.fromDate, b.toDate]`
      share a day. */
  predicate Overlaps(b: BookingSummary, fromDate: int, toDate: int) {
    fromDate <= b.toDate && b.fromDate <= toDate
  }

  /** For well-formed ranges, a request overlaps some existing booking iff
      the admission test refuses it or it strictly encloses some existing
      booking: the test misses exactly the enclosing requests. */
  lemma {:induction false} OverlapIsBookedOrEnclosing(bookings: seq<BookingSummary>, fromDate: int, toDate: int)
    requires fromDate <= toDate
    requires forall i :: 0 <= i < |bookings| ==> bookings[i].fromDate <= bookings[i].toDate
    ensures (exists i :: 0 <= i < |bookings| && Overlaps(bookings[i], fromDate, toDate)) <==>
      (IsBooked(bookings, fromDate, toDate)
       || exists i :: 0 <= i < |bookings| && fromDate < bookings[i].fromDate && bookings[i].toDate < toDate)
  {
    IsBookedExists(bookings, fromDate, toDate);
    if exists i :: 0 <= i < |bookings| && Overlaps(bookings[i], fromDate, toDate) {
      var i :| 0 <= i < |bookings| && Overlaps(bookings[i], fromDate, toDate);
      if !Clashes(bookings[i], fromDate, toDate) {
        assert fromDate < bookings[i].fromDate && bookings[i].toDate < toDate;
      }
    }
    if IsBooked(bookings, fromDate, toDate) {
      var i :| 0 <= i < |bookings| && Clashes(bookings[i], fromDate, toDate);
      assert Overlaps(bookings[i], fromDate, toDate);
    }
  }

  /** Two admitted bookings can share days: after `[5, 10]` is booked, the
      request `[1, 20]` passes the test. The test is not symmetric: in the
      opposite order the second request would be refused. */
  lemma AdmittedBookingsCanOverlap(u: UserId)
    ensures var first := BookingSummary(0, 5, 10, u);
      !IsBooked([], 5, 10) && !IsBooked([first], 1, 20) && Overlaps(first, 1, 20)
    ensures IsBooked([BookingSummary(0, 1, 20, u)], 5, 10)
  {
  }

  /** What admission guarantees of a property's bookings: no booking
      contains the first or the last day of any booking admitted after it. */
  predicate EndpointsClear(bookings: seq<BookingSummary>) {
    forall i, j :: 0 <= i < j < |bookings| ==> !Clashes(bookings[i], bookings[j].fromDate, bookings[j].toDate)
  }

  /** Appending an admitted request keeps that guarantee. */
  lemma AdmissionKeepsEndpointsClear(bookings: seq<BookingSummary>, s: BookingSummary)
    requires EndpointsClear(bookings)
    requires !IsBooked(bookings, s.fromDate, s.toDate)
    ensures EndpointsClear(bookings + [s])
  {
    IsBookedExists(bookings, s.fromDate, s.toDate);
    var all := bookings + [s];
    forall i, j | 0 <= i < j < |all|
      ensures !Clashes(all[i], all[j].fromDate, all[j].toDate)
    {
      if j == |bookings| {
        assert all[i] == bookings[i] && all[j] == s;
      } else {
        assert all[i] == bookings[i] && all[j] == bookings[j];
      }
    }
  }

  /** A summary on property `id` that describes booking record
      `s.bookingId`. */
  predicate Recorded(s: BookingSummary, id: PropertyId, bookings: seq<Booking>) {
    s.bookingId < |bookings|
    && bookings[s.bookingId].property == id
    && bookings[s.bookingId].fromDate == s.fromDate
    && bookings[s.bookingId].toDate == s.toDate
    && bookings[s.bookingId].user == s.userId
  }

  /** The stored properties and the bookings collection. */
  class Ledger {
    var properties: map<PropertyId, Property>
    var bookings: seq<Booking>

    /** Every summary describes a booking record of its property, and each
        property's bookings keep the admission guarantee. */
    predicate Valid()
      reads this
    {
      (forall id, i :: id in properties && 0 <= i < |properties[id].currentBookings| ==>
        Recorded(properties[id].currentBookings[i], id, bookings))
      && forall id :: id in properties ==> EndpointsClear(properties[id].currentBookings)
    }

    constructor(properties: map<PropertyId, Property>)
      requires forall id :: id in properties ==> properties[id].currentBookings == []
      ensures Valid()
      ensures this.properties == properties && bookings == []
    {
      this.properties := properties;
      bookings := [];
    }

    /** `createBookings`. Without a user it fails first; then the property
        must exist; then the request is refused when an existing booking
        contains its first or last day. Otherwise the booking record, with
        the whole-day difference as its nights count (zero or negative
        included), is added under the next id, and its summary is appended to
        the end of the property's `currentBookings`; nothing else changes. */
    method CreateBookings(user: Option<UserId>, req: BookingRequest) returns (r: Result<(Booking, Property), BookingError>)
      requires Valid()
      modifies this
      ensures Valid()
      ensures user.None? ==> r == Failure(NotLoggedIn)
      ensures user.Some? && req.property !in old(properties) ==> r == Failure(PropertyNotFound)
      ensures (user.Some? && req.property in old(properties)
               && IsBooked(old(properties)[req.property].currentBookings, req.fromDate, req.toDate)) ==>
        r == Failure(AlreadyBooked)
      ensures r.Success? <==>
        (user.Some? && req.property in old(properties)
         && !IsBooked(old(properties)[req.property].currentBookings, req.fromDate, req.toDate))
      ensures r.Failure? ==> properties == old(properties) && bookings == old(bookings)
      ensures r.Success? ==>
        var b := Booking(req.property, req.price, req.guests, req.fromDate, req.toDate, req.toDate - req.fromDate, user.value);
        var p := old(properties)[req.property];
        var updated := p.(currentBookings := p.currentBookings + [BookingSummary(|old(bookings)|, req.fromDate, req.toDate, user.value)]);
        r.value == (b, updated)
        && bookings == old(bookings) + [b]
        && properties == old(properties)[req.property := updated]
    {
      if user.None? {
        return Failure(NotLoggedIn);
      }
      var numberOfNights := req.toDate - req.fromDate;
      if req.property !in properties {
        return Failure(PropertyNotFound);
      }
      var selected := properties[req.property];
      if IsBooked(selected.currentBookings, req.fromDate, req.toDate) {
        return Failure(AlreadyBooked);
      }
      var newBooking := Booking(req.property, req.price, req.guests, req.fromDate, req.toDate, numberOfNights, user.value);
      var id := |bookings|;
      var summary := BookingSummary(id, req.fromDate, req.toDate, user.value);
      AdmissionKeepsEndpointsClear(selected.currentBookings, summary);
      ghost var before := bookings;
      bookings := bookings + [newBooking];
      var updated := selected.(currentBookings := selected.currentBookings + [summary]);
      properties := properties[req.property := updated];
      forall pid, i | pid in properties && 0 <= i < |properties[pid].currentBookings|
        ensures Recorded(properties[pid].currentBookings[i], pid, bookings)
      {
        if pid == req.property && i == |selected.currentBookings| {
          assert properties[pid].currentBookings[i] == summary;
        } else if pid == req.property {
          assert properties[pid].currentBookings[i] == selected.currentBookings[i];
          assert Recorded(selected.currentBookings[i], pid, before);
        } else {
          assert Recorded(properties[pid].currentBookings[i], pid, before);
        }
      }
      r := Success((newBooking, updated));
    }
  }
}
