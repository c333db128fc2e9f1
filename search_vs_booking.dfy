/** How the listing's availability condition (backend/utils/APIFeatures.js,
    `search()`, a half-open clash test) relates to the admission rule of
    backend/controllers/bookingController.js (an inclusive test on the
    requested first and last day): they agree on neither shared boundary days
    nor enclosing ranges. Also: the listing query never carries a top-level
    `address.city` key, so the schema's pre-find hook leaves it alone. */
module SearchVsBooking {
  import opened Wrappers
  import opened PropertyModel
  import opened ApiFeatures
  import opened BookingController

  predicate WellFormed(bookings: seq<BookingSummary>) {
    forall k :: 0 <= k < |bookings| ==> bookings[k].fromDate <= bookings[k].toDate
  }

  /** Shared boundary days: when every existing booking lies before
      `dateIn` or after `dateOut`, touching at most the boundary, and one of
      them touches it, the search lists the property as free for
      `[dateIn, dateOut]` while a booking of those dates is refused. */
  lemma BoundaryDayDisagreement(bookings: seq<BookingSummary>, dateIn: int, dateOut: int, k: int)
    requires dateIn < dateOut && WellFormed(bookings)
    requires forall j :: 0 <= j < |bookings| ==> bookings[j].toDate <= dateIn || dateOut <= bookings[j].fromDate
    requires 0 <= k < |bookings| && (bookings[k].toDate == dateIn || bookings[k].fromDate == dateOut)
    ensures !HasClash(bookings, dateIn, dateOut)
    ensures IsBooked(bookings, dateIn, dateOut)
  {
    IsBookedExists(bookings, dateIn, dateOut);
    assert Clashes(bookings[k], dateIn, dateOut);
  }

  /** Enclosing ranges: a request strictly enclosing every existing booking
      (there being at least one) is hidden by the search and admitted by the
      booking rule. */
  lemma EnclosingDisagreement(bookings: seq<BookingSummary>, dateIn: int, dateOut: int)
    requires bookings != [] && WellFormed(bookings)
    requires forall j :: 0 <= j < |bookings| ==> dateIn < bookings[j].fromDate && bookings[j].toDate < dateOut
    ensures HasClash(bookings, dateIn, dateOut)
    ensures !IsBooked(bookings, dateIn, dateOut)
  {
    assert SearchClash(bookings[0], dateIn, dateOut);
    EnclosingAdmitted(bookings, dateIn, dateOut);
  }

  /** Where the search hides a property for a non-empty stay, the stay
      shares a day with an existing booking, which the booking rule either
      refuses or misses because the stay encloses some booking. */
  lemma SearchHiddenMeansOverlap(bookings: seq<BookingSummary>, dateIn: int, dateOut: int)
    requires dateIn < dateOut && WellFormed(bookings)
    requires HasClash(bookings, dateIn, dateOut)
    ensures exists k :: 0 <= k < |bookings| && Overlaps(bookings[k], dateIn, dateOut)
    ensures IsBooked(bookings, dateIn, dateOut)
      || exists k :: 0 <= k < |bookings| && dateIn < bookings[k].fromDate && bookings[k].toDate < dateOut
  {
    var k :| 0 <= k < |bookings| && SearchClash(bookings[k], dateIn, dateOut);
    assert Overlaps(bookings[k], dateIn, dateOut);
    OverlapIsBookedOrEnclosing(bookings, dateIn, dateOut);
  }

  /** The listing's conditions never include a top-level `address.city`
      key (the city is matched inside `$or`), so the pre-find hook's city
      normalisation never applies to it. */
  lemma ListingHasNoCityKey(q: QueryString)
    requires ListingQuery(q).Success?
    ensures CityKey !in ListingQuery(q).value.conditions
  {
    assert CityKey !in FilterKeys && CityKey !in SearchKeys;
  }
}
