# HomelyHub decision rules, modelled in Dafny

HomelyHub is a holiday-rental web application: a Node/Express/Mongoose
backend and a React/Redux frontend. This project models, and proves
properties of, the small decision rules inside it:

- **Booking admission** (`createBookings`). A request is refused when an
  existing booking of the property contains the requested first day or the
  requested last day, both ends included. Otherwise a booking record is
  created with the whole-day difference as its nights count, and a summary
  of it is appended to the property's `currentBookings`. The class
  `BookingController.Ledger` holds the stored properties and the bookings
  collection.
- **The listing query builder** (`APIFeatures`). `filter()` and `search()`
  each build a condition document and merge it into the query; `paginate()`
  sets skip and limit; executing the query selects the matching properties
  and cuts out the page. The builder is a class whose methods reassign
  `query`. The conditions are given a meaning over property records,
  constraint by constraint.
- **The property schema**: the closed enumerations and their defaults, the
  "at least five images" validator, document creation with defaults and
  validation, and the pre-find hook that normalises an `address.city`
  condition.
- **The filter form** (`FilterModal`): defaulting, the blur-time coercion
  that restores `min <= max`, the apply-time validation against 600..30000,
  the amenity, property-type and room-type toggles, and clear.
- **The session slice** (`user-slice`): five fields and one reducer per
  action. The invariant is that `isAuthenticated` holds iff a user is held.
- **Auth helpers**: the allow-list projection `filterObj` and its use in
  `updateMe`, the token choice of `protect` and `isLoggedIn`, the
  `loggedout` cookie, and the credential check of `login`.

Module `SearchVsBooking` sets the listing's availability test against the
admission rule. The two disagree on shared boundary days and on enclosing
ranges. Dates are whole day numbers throughout.

What the code does, where it may not be what a reader expects:

- A full inclusive interval intersection would refuse every overlapping
  request; the code only tests whether an existing booking contains the
  request's first or last day, so a request whose endpoints avoid every
  booking is admitted even when it encloses one
  (`OverlapIsBookedOrEnclosing`); in particular a request strictly
  enclosing every existing booking is admitted (`EnclosingAdmitted`).
- So two admitted bookings of a property need not be disjoint:
  `AdmittedBookingsCanOverlap` shows two overlapping admitted bookings.
  What admission does keep is `EndpointsClear`: no booking contains an
  endpoint of a booking admitted after it.
- The test is not symmetric: admitting `[1, 20]` after `[5, 10]` succeeds,
  while the opposite order is refused (`AdmittedBookingsCanOverlap`, second
  ensures).
- A booked property is not always hidden from an overlapping later search.
  On a shared boundary day the search's half-open test lists the property,
  while booking those dates is refused (`BoundaryDayDisagreement`).
- An unknown property id is a failure of the request (the code answers 401
  with the error message), not a separate not-found status.

Modules: `Wrappers` (Option, Result), `Strings` (the JavaScript string
built-ins used: ASCII `toLowerCase`, the `\s` class, `split` on one
character, `trim`, `replaceAll` of one character, decimal integer parsing and
printing), `PropertyModel`, `ApiFeatures`, `BookingController`,
`SearchVsBooking`, `FilterModal`, `UserSlice`, `AuthController`.

## Model

| member | source | states |
|---|---|---|
| `Strings.ToLower` | backend/utils/APIFeatures.js:55 | `toLowerCase` lowers each character in place: same length, no upper-case letter left, a string without one unchanged |
| `Strings.ToLowerAppend` | backend/utils/APIFeatures.js:55 | lower-casing a concatenation lower-cases each piece |
| `Strings.Split` | backend/utils/APIFeatures.js:27 | `split` on one character gives at least one piece and no piece holds the separator |
| `Strings.JoinSplit` | backend/utils/APIFeatures.js:27 | joining the pieces of a split with the separator gives back the string |
| `Strings.SplitNoSeparator` | backend/controllers/authController.js:113 | a string without the separator splits into itself |
| `Strings.SplitFirstPiece` | backend/controllers/authController.js:113 | a separator-free first piece followed by the separator splits off as the first piece, the rest splitting on its own |
| `Strings.SplitJoin` | backend/utils/APIFeatures.js:27 | joining separator-free pieces and splitting again gives back the pieces |
| `Strings.Trim` | backend/utils/APIFeatures.js:27 | `trim` keeps a contiguous part of the string, everything cut off on either side is whitespace, and the part has no whitespace at either end |
| `Strings.RemoveAll` | backend/utils/APIFeatures.js:55 | removing every occurrence of a character leaves none, and only characters of the input |
| `Strings.RemoveAllAppend` | backend/utils/APIFeatures.js:55 | `replaceAll(c, '')` of a concatenation is the concatenation of the pieces' results |
| `Strings.RemoveAllChar` | backend/utils/APIFeatures.js:55 | on one character, `c` is dropped and any other character kept, so every other character survives in order |
| `Strings.RemoveAllAbsent` | backend/utils/APIFeatures.js:55 | a string without `c` is unchanged |
| `Strings.StripWhitespace` | backend/Models/propertyModel.js:115 | `replace(/\s/g, '')` leaves no whitespace character |
| `Strings.StripWhitespaceAppend` | backend/Models/propertyModel.js:115 | stripping a concatenation is the concatenation of the stripped pieces |
| `Strings.StripWhitespaceChar` | backend/Models/propertyModel.js:115 | on one character, whitespace is dropped and anything else kept, so every other character survives in order |
| `Strings.StripWhitespaceFixed` | backend/Models/propertyModel.js:115 | a string without whitespace is left unchanged |
| `Strings.ParseInt` | backend/utils/APIFeatures.js:99-100 | a string denotes a number iff it is a decimal numeral, and only a leading minus sign makes it negative |
| `Strings.IntToString` | frontend/src/Components/Home/FilterModal.js:48 | the plain numeral `String(n)` prints below 10^21 is a decimal numeral starting with a minus sign exactly when `n` is negative |
| `Strings.ParseIntToString` | frontend/src/Components/Home/FilterModal.js:48 | printing an integer as its plain numeral and parsing it back gives the integer |
| `Strings.LeadingDigits` | frontend/src/Components/Home/FilterModal.js:41-42 | the longest run of digits at the front of a string: a prefix, all digits, followed by no digit |
| `Strings.ParseIntPrefix` | frontend/src/Components/Home/FilterModal.js:41-42 | `parseInt(s, 10)` of an empty string is `NaN`, and a negative result needs a minus sign |
| `Strings.ParseIntPrefixDecimal` | frontend/src/Components/Home/FilterModal.js:41-42 | on a decimal numeral `parseInt` reads the number the numeral denotes |
| `Strings.ParseIntPrefixTrailing` | frontend/src/Components/Home/FilterModal.js:41-42 | `parseInt` reads the digits at the front and ignores anything after them |
| `Strings.ExponentForm` | frontend/src/Components/Home/FilterModal.js:48 | the exponent form starts with a non-zero digit followed by a non-digit |
| `Strings.NumberToString` | frontend/src/Components/Home/FilterModal.js:48 | `String(n)` is the plain numeral below 10^21 in magnitude and no decimal numeral from there on |
| `Strings.ParsePrintedPlain` | frontend/src/Components/Home/FilterModal.js:41-48 | `parseInt` of `String(n)` gives `n` back below 10^21 in magnitude |
| `Strings.ParsePrintedExponent` | frontend/src/Components/Home/FilterModal.js:41-48 | from 10^21 up, `parseInt` of `String(n)` reads only the first digit, a number from 1 to 9 |
| `PropertyModel.ParsePropertyType` | backend/Models/propertyModel.js:18-22 | the property-type enum accepts exactly House, Flat, Guest House, Hotel, each naming its own value |
| `PropertyModel.ParseRoomType` | backend/Models/propertyModel.js:23-27 | the room-type enum accepts exactly Anytype, Room, Entire Home |
| `PropertyModel.ParseAmenityName` | backend/Models/propertyModel.js:37 | an amenity name is one of the seven listed values |
| `PropertyModel.ImagesValid` | backend/Models/propertyModel.js:57-61 | the images validator accepts iff the list has at least 5 images |
| `PropertyModel.Create` | backend/Models/propertyModel.js:4-102 | creation fails iff some rule is violated, reporting every violated top-level field; missing or short images always fail; a created property has valid images, the type defaults House/Anytype or the given enum value, price 500, check-in 11:00 and check-out 13:00 unless given, no bookings unless the document carries some, which are kept as sent, and one amenity per input amenity |
| `PropertyModel.NormalizeCity` | backend/Models/propertyModel.js:113-115 | the normalised city has no whitespace and no upper-case letter |
| `PropertyModel.NormalizeCityExample` | backend/Models/propertyModel.js:113-115 | the city `"New  York"` normalises to `"newyork"` |
| `PropertyModel.NormalizeCityIdempotent` | backend/Models/propertyModel.js:113-115 | normalising a normalised city changes nothing |
| `PropertyModel.FindQuery.PreFind` | backend/Models/propertyModel.js:111-118 | only a truthy top-level `address.city` string is normalised; every other key and a query without that key are untouched; a truthy non-string throws and changes nothing |
| `ApiFeatures.Includes` | backend/utils/APIFeatures.js:15 | `includes('>')` on an array holds only when an element is exactly `'>'`, and then the array's text holds `'>'` too |
| `ApiFeatures.Cast` | backend/controllers/propertyController.js:54 | a string operand casts iff it is a decimal numeral, to the number it denotes; a Number path refuses every array; a Date path casts an array's comma-joined text, so a one-element array casts as its element and longer or empty arrays fail |
| `ApiFeatures.Interpolate` | backend/utils/APIFeatures.js:35 | a template string holds a string as it is and an array as its elements joined by commas, which split back into the elements when they hold no comma |
| `ApiFeatures.MongoQuery.Find` | backend/utils/APIFeatures.js:45 | `find(doc)` keeps skip and limit, and the conditions gain the document's keys with the document's entries, the other keys unchanged |
| `ApiFeatures.Holds` | backend/controllers/propertyController.js:54 | an empty `$in` and an empty `$all` match no property; a property without bookings passes the availability condition |
| `ApiFeatures.MergeIsConjunction` | backend/utils/APIFeatures.js:45-94 | merging two condition documents with disjoint keys matches exactly the properties both match, in either order |
| `ApiFeatures.TrimAll` | backend/utils/APIFeatures.js:27 | every part is trimmed, none dropped |
| `ApiFeatures.FilterDocument` | backend/utils/APIFeatures.js:7-47 | `filter()` throws iff `propertyType` is an array; otherwise each of its four keys is present exactly when its parameters are given, and no other key |
| `ApiFeatures.PriceFilter` | backend/utils/APIFeatures.js:14-23 | with both price bounds given, a `'>'` in `maxPrice` gives `price >= minPrice`, otherwise `minPrice <= price <= maxPrice`; it casts iff the used bounds are numbers |
| `ApiFeatures.PropertyTypeFilter` | backend/utils/APIFeatures.js:26-30 | a property matches iff its type equals, ignoring case, one trimmed comma-separated part |
| `ApiFeatures.PropertyTypeClauseHolds` | backend/utils/APIFeatures.js:27-29 | a clause built from trimmed parts holds iff the type equals one part ignoring case |
| `ApiFeatures.RoomTypeFilter` | backend/utils/APIFeatures.js:33-36 | a property matches iff its room type equals the parameter ignoring case |
| `ApiFeatures.AmenitiesFilter` | backend/utils/APIFeatures.js:39-41 | a property matches iff every requested amenity name is among its amenities (an empty request matches nothing) |
| `ApiFeatures.SearchTerm` | backend/utils/APIFeatures.js:55 | the city term holds no space and no upper-case letter, and is no longer than the parameter |
| `ApiFeatures.SearchTermAppend` | backend/utils/APIFeatures.js:55 | the term of a concatenation is the concatenation of the pieces' terms |
| `ApiFeatures.SearchTermChar` | backend/utils/APIFeatures.js:55 | each character is dropped when it is a space and lower-cased otherwise, so every other character survives in order |
| `ApiFeatures.SearchTermExample` | backend/utils/APIFeatures.js:55 | the city `"New  York"` searches for `"newyork"` |
| `ApiFeatures.SearchDocument` | backend/utils/APIFeatures.js:49-96 | `search()` throws iff `city` is an array; otherwise `$or`, `maximumGuest` and `$and` are present exactly when city, guests, and both dates are given |
| `ApiFeatures.LocationSearch` | backend/utils/APIFeatures.js:54-63 | a property matches iff the lower-cased, space-free term equals its city, its state or its area |
| `ApiFeatures.GuestsSearch` | backend/utils/APIFeatures.js:66-68 | a property matches iff it takes at least the requested number of guests |
| `ApiFeatures.AvailabilitySearch` | backend/utils/APIFeatures.js:71-92 | a property matches iff none of its bookings has `from < dateOut && to > dateIn` or `from < dateIn && to > dateIn` |
| `ApiFeatures.NumberOf` | backend/utils/APIFeatures.js:99-100 | `x * 1` is `NaN` for a missing value and otherwise the number the value's text denotes: `""` and `[]` are 0, a one-element array multiplies as its element, two or more elements are `NaN` |
| `ApiFeatures.NumberOr` | backend/utils/APIFeatures.js:99-100 | `x * 1 \|\| d` gives the default when the value is missing, zero or not a number, and otherwise the number, for strings and arrays alike |
| `ApiFeatures.PageOf` | backend/utils/APIFeatures.js:98-103 | page defaults to 1 and limit to 12, neither is ever 0, and `skip = (page - 1) * limit` |
| `ApiFeatures.APIFeatures.constructor` | backend/utils/APIFeatures.js:2-5 | the builder holds the given query and query string |
| `ApiFeatures.APIFeatures.Filter` | backend/utils/APIFeatures.js:7-47 | merges the filter document into the query, or throws and leaves it |
| `ApiFeatures.APIFeatures.Search` | backend/utils/APIFeatures.js:49-96 | merges the search document into the query, or throws and leaves it |
| `ApiFeatures.APIFeatures.Paginate` | backend/utils/APIFeatures.js:98-105 | sets skip and limit from the page numbers and leaves the conditions |
| `ApiFeatures.ListingQuery` | backend/controllers/propertyController.js:48-51 | the chained query's conditions are the filter document merged with the search document, with the page's skip and limit; a failure is the first stage's error |
| `ApiFeatures.BuildListing` | backend/controllers/propertyController.js:48-51 | running the builder's methods in order yields the listing query |
| `ApiFeatures.Select` | backend/controllers/propertyController.js:54 | the store's properties that match, and only those |
| `ApiFeatures.SelectCount` | backend/controllers/propertyController.js:54 | a matching property is listed as often as the store holds it, a non-matching one never |
| `ApiFeatures.SelectAppend` | backend/controllers/propertyController.js:54 | the matches keep the store's order: selecting from two stretches of the store gives the two selections one after the other |
| `ApiFeatures.Window` | backend/utils/APIFeatures.js:103 | skip and limit keep only properties of the selection |
| `ApiFeatures.Execute` | backend/controllers/propertyController.js:54 | executing fails with a cast error iff an operand does not cast, and otherwise with a negative-skip error iff the skip is negative; every listed property is in the store and matches |
| `ApiFeatures.ListedSatisfiesBothStages` | backend/utils/APIFeatures.js:45-94 | a listed property satisfies the filter stage and the search stage |
| `ApiFeatures.PageNumbers` | backend/utils/APIFeatures.js:98-101 | given positive page and limit, skip is `(page - 1) * limit` |
| `ApiFeatures.ExecuteSlice` | backend/utils/APIFeatures.js:103 | a non-negative skip and positive limit return exactly that slice of the matches |
| `ApiFeatures.PageSlice` | backend/utils/APIFeatures.js:98-103 | the listing for page and limit is the page-th slice of `limit` matches |
| `BookingController.IsBooked` | backend/controllers/bookingController.js:40-45 | the `some` scan refuses only when an existing booking contains the requested first or last day |
| `BookingController.IsBookedExists` | backend/controllers/bookingController.js:40-45 | the `some` scan refuses iff some existing booking contains the first or the last requested day |
| `BookingController.SameDayTurnoverRefused` | backend/controllers/bookingController.js:42 | a request starting on the day an existing booking ends is refused |
| `BookingController.EnclosingAdmitted` | backend/controllers/bookingController.js:40-45 | a request strictly enclosing every existing booking is not refused |
| `BookingController.OverlapIsBookedOrEnclosing` | backend/controllers/bookingController.js:40-45 | a request shares a day with some booking iff the test refuses it or it encloses some booking |
| `BookingController.AdmittedBookingsCanOverlap` | backend/controllers/bookingController.js:40-52 | two overlapping bookings can both be admitted, and the test is not symmetric |
| `BookingController.AdmissionKeepsEndpointsClear` | backend/controllers/bookingController.js:40-75 | appending an admitted request keeps every booking free of the endpoints of later ones |
| `BookingController.Ledger.CreateBookings` | backend/controllers/bookingController.js:29-90 | no user fails first, then an unknown property, then a clash; otherwise the record with nights `to - from` (zero or negative included) is added under the next id, its summary is appended at the end of that property's bookings, nothing else changes, and the ledger stays consistent |
| `SearchVsBooking.BoundaryDayDisagreement` | backend/utils/APIFeatures.js:71-92 | when bookings only touch the requested range at its boundary, the search lists the property while booking those dates is refused |
| `SearchVsBooking.EnclosingDisagreement` | backend/utils/APIFeatures.js:71-92 | a range strictly enclosing every booking is hidden by the search but admitted by booking |
| `SearchVsBooking.SearchHiddenMeansOverlap` | backend/utils/APIFeatures.js:71-92 | a property the search hides for a non-empty stay has an overlapping booking, which booking refuses or the stay encloses |
| `SearchVsBooking.ListingHasNoCityKey` | backend/Models/propertyModel.js:111-118 | the listing query never has a top-level `address.city` key, so the pre-find hook leaves it alone |
| `FilterModal.PriceOr` | frontend/src/Components/Home/FilterModal.js:9-10 | a missing or falsy bound becomes the default number |
| `FilterModal.TextOr` | frontend/src/Components/Home/FilterModal.js:12-13 | a missing type becomes "" |
| `FilterModal.InitialRange` | frontend/src/Components/Home/FilterModal.js:8-11 | missing price bounds start at 600 and 30000 |
| `FilterModal.ParsePrice` | frontend/src/Components/Home/FilterModal.js:41-42 | `parseInt(x, 10)` gives a number bound itself and a typed decimal numeral its number, and an empty box is `NaN` |
| `FilterModal.Read` | frontend/src/Components/Home/FilterModal.js:41-44 | an empty or unparsable bound reads as the default, any other as its number |
| `FilterModal.ReadPrinted` | frontend/src/Components/Home/FilterModal.js:48 | a bound written back as its plain numeral, which is what `String` prints below 10^21, reads as the same number |
| `FilterModal.MinBlurred` | frontend/src/Components/Home/FilterModal.js:39-50 | after min-blur the min reads as before, the max as the larger bound, so `min <= max` |
| `FilterModal.MaxBlurred` | frontend/src/Components/Home/FilterModal.js:51-62 | after max-blur the max reads as before, the min as the smaller bound, so `min <= max` |
| `FilterModal.BlurIdempotent` | frontend/src/Components/Home/FilterModal.js:39-62 | blurring a second time changes nothing |
| `FilterModal.CheckPrices` | frontend/src/Components/Home/FilterModal.js:65-76 | apply succeeds iff `600 <= min <= max <= 30000`; out of bounds is reported before out of order |
| `FilterModal.BlurredRangeInOrder` | frontend/src/Components/Home/FilterModal.js:39-76 | after either blur, apply never reports the order error |
| `FilterModal.MinBlurredAsWritten` | frontend/src/Components/Home/FilterModal.js:39-49 | the min blur writing its bounds with `String` agrees with `MinBlurred` while both bounds read below 10^21 |
| `FilterModal.MaxBlurredAsWritten` | frontend/src/Components/Home/FilterModal.js:51-61 | the max blur writing its bounds with `String` agrees with `MaxBlurred` while both bounds read below 10^21 |
| `FilterModal.MaxBlurOutOfOrderAsWritten` | frontend/src/Components/Home/FilterModal.js:51-72 | a min of 600..30000 and a max of 10^21 or more: after the max blur the max reads below 10 and apply reports the order error |
| `FilterModal.MinBlurNotIdempotentAsWritten` | frontend/src/Components/Home/FilterModal.js:39-49 | a min of 10^21 or more: a second min blur changes the range |
| `FilterModal.Without` | frontend/src/Components/Home/FilterModal.js:117 | the filtered list holds exactly the other elements of the list |
| `FilterModal.ToggleAmenity` | frontend/src/Components/Home/FilterModal.js:114-120 | toggling flips the amenity's membership, keeps the others', and appends an absent amenity at the end |
| `FilterModal.ToggleAbsentTwice` | frontend/src/Components/Home/FilterModal.js:114-120 | toggling an absent amenity twice restores the list |
| `FilterModal.TogglePresentTwice` | frontend/src/Components/Home/FilterModal.js:114-120 | toggling a present amenity twice leaves one occurrence of it, at the end |
| `FilterModal.ToggleChoice` | frontend/src/Components/Home/FilterModal.js:121-130 | choosing the current type clears it, choosing another selects it |
| `FilterModal.ToggleChoiceTwice` | frontend/src/Components/Home/FilterModal.js:121-130 | choosing the same new type twice comes back to none |
| `FilterModal.FilterModal.constructor` | frontend/src/Components/Home/FilterModal.js:8-15 | the form starts from the selected filters with their defaults and no error |
| `FilterModal.FilterModal.SyncFromSelected` | frontend/src/Components/Home/FilterModal.js:16-24 | a change of selected filters resets the fields the same way and keeps the error |
| `FilterModal.FilterModal.PriceRangeChange` | frontend/src/Components/Home/FilterModal.js:25-27 | the slider sets both bounds |
| `FilterModal.FilterModal.MinInputChange` | frontend/src/Components/Home/FilterModal.js:28-32 | typing keeps the min text as typed |
| `FilterModal.FilterModal.MaxInputChange` | frontend/src/Components/Home/FilterModal.js:33-37 | typing keeps the max text as typed |
| `FilterModal.FilterModal.MinInputBlur` | frontend/src/Components/Home/FilterModal.js:39-50 | leaving the min box gives the min-blurred range, in order |
| `FilterModal.FilterModal.MaxInputBlur` | frontend/src/Components/Home/FilterModal.js:51-62 | leaving the max box gives the max-blurred range, in order |
| `FilterModal.FilterModal.FilterChange` | frontend/src/Components/Home/FilterModal.js:63-87 | a bad range sets its message and emits nothing; otherwise the error is cleared and exactly the five filter fields are emitted |
| `FilterModal.FilterModal.ClearFilters` | frontend/src/Components/Home/FilterModal.js:108-113 | price back to 600/30000, no types, no amenities |
| `FilterModal.FilterModal.AmenitiesChange` | frontend/src/Components/Home/FilterModal.js:114-120 | the amenities become their toggle |
| `FilterModal.FilterModal.PropertyTypeChange` | frontend/src/Components/Home/FilterModal.js:121-125 | the property type becomes its toggle |
| `FilterModal.FilterModal.RoomTypeChange` | frontend/src/Components/Home/FilterModal.js:126-130 | the room type becomes its toggle |
| `UserSlice.UserState.constructor` | frontend/src/Store/User/user-slice.js:5-11 | unauthenticated, not loading, no user, no errors, no success; consistent |
| `UserSlice.UserState.StartLoading` | frontend/src/Store/User/user-slice.js:13-15 | a request reducer raises `loading` only and keeps the invariant |
| `UserSlice.UserState.SignUpRequest` | frontend/src/Store/User/user-slice.js:13-15 | `loading` only |
| `UserSlice.UserState.LoginRequest` | frontend/src/Store/User/user-slice.js:21-23 | `loading` only |
| `UserSlice.UserState.CurrentUserRequest` | frontend/src/Store/User/user-slice.js:33-35 | `loading` only |
| `UserSlice.UserState.UpdateUserRequest` | frontend/src/Store/User/user-slice.js:36-38 | `loading` only |
| `UserSlice.UserState.LogOutRequest` | frontend/src/Store/User/user-slice.js:49-51 | `loading` only |
| `UserSlice.UserState.PasswordRequest` | frontend/src/Store/User/user-slice.js:57-59 | `loading` only |
| `UserSlice.UserState.HoldUser` | frontend/src/Store/User/user-slice.js:16-28 | holds the payload as the user, authenticated, not loading; consistent iff the payload is a user |
| `UserSlice.UserState.SignUpDetails` | frontend/src/Store/User/user-slice.js:16-20 | as `HoldUser` |
| `UserSlice.UserState.LoginDetails` | frontend/src/Store/User/user-slice.js:24-28 | as `HoldUser` |
| `UserSlice.UserState.Error` | frontend/src/Store/User/user-slice.js:29-32 | sets errors and stops loading only |
| `UserSlice.UserState.CurrentUser` | frontend/src/Store/User/user-slice.js:39-48 | a user payload authenticates with it, a null one signs out; not loading; consistent |
| `UserSlice.UserState.Logout` | frontend/src/Store/User/user-slice.js:52-56 | no user, unauthenticated, not loading; errors and success untouched |
| `UserSlice.UserState.PasswordSuccess` | frontend/src/Store/User/user-slice.js:60-63 | sets success and stops loading only |
| `UserSlice.UserState.ClearError` | frontend/src/Store/User/user-slice.js:64-66 | clears errors only |
| `AuthController.FilterObj` | backend/controllers/authController.js:38-46 | the result holds exactly the allowed keys of the input, each with its original value |
| `AuthController.UpdateMeBody` | backend/controllers/authController.js:146 | only name, email, phoneNumber and avatar pass; password is dropped |
| `AuthController.SecondField` | backend/controllers/authController.js:113 | the second space-separated field holds no space |
| `AuthController.SelectToken` | backend/controllers/authController.js:110-116 | a Bearer header wins with its second field; else the `jwt` cookie unless empty or `loggedout`; else no token |
| `AuthController.BearerToken` | backend/controllers/authController.js:112-113 | the header `Bearer t` yields the token `t` |
| `AuthController.LoggedOutIgnored` | backend/controllers/authController.js:98-116 | the `loggedout` cookie selects no token without a Bearer header |
| `AuthController.Protect` | backend/controllers/authController.js:108-120 | without a non-empty token `protect` fails with the not-logged-in error, otherwise it goes on to verify the token |
| `AuthController.IsLoggedIn` | backend/controllers/authController.js:327-340 | without a non-empty token `isLoggedIn` continues with no user, otherwise it goes on to verify the token |
| `AuthController.CheckCredentials` | backend/controllers/authController.js:76-80 | `login` fails with the missing-credentials error iff the email or the password is missing or empty, before any lookup |

## Left out

- Payment checkout (`getCheckOutSession`): a Stripe call with a possibly fractional `amount * 100`.
- `getUserBookings`, `getBookingDetails` and the other database handlers: lookups and orchestration only.
- The race between the overlap check and the `$push` in `createBookings`: concurrency, not sequential logic.
- BookingController.Ledger.CreateBookings: an id that does not cast to an ObjectId is folded into `PropertyNotFound`; the bookings model (`backend/Models/bookingModel.js`) is not part of this model, so its own validation of the record is not modelled.
- Date handling: `moment` and `new Date` parsing are not modelled; dates are whole day numbers, and invalid dates are not represented.
- Strings.ParseInt: decimal digits with an optional minus sign only; `Number`'s surrounding whitespace and its hexadecimal, exponent and fraction forms are not modelled (`parseInt`'s own reading is `ParseIntPrefix`).
- Strings.IntToString: numbers are exact integers; a double's rounding above 2^53 - 1 (`"9007199254740993"` is written back as `"9007199254740992"`) is not modelled, and from 10^21 up `String` prints exponent form instead (`NumberToString`).
- Strings.ParseIntToString: holds for exact integers; doubles above 2^53 - 1 do not come back unchanged, which is not modelled.
- Strings.ParseIntPrefix: reads digits into an exact integer; a double's rounding of long digit runs, `Infinity` and a fraction after the digits (which `parseInt` drops with the rest) are not modelled as such.
- FilterModal.ParsePrice: a number bound is read as itself; the slider and the defaults keep such bounds within 600..30000, so `String` of one never reaches exponent form.
- FilterModal.ReadPrinted: holds for bounds below 10^21 in magnitude, with the double's rounding above 2^53 - 1 not modelled; from 10^21 up it fails (see Findings).
- FilterModal.MinBlurred: writes the bounds as plain numerals, the evidently intended behaviour; the program's `String` prints exponent form from 10^21 up, which `MinBlurredAsWritten` models (see Findings).
- FilterModal.MaxBlurred: as `MinBlurred`; the program as written is `MaxBlurredAsWritten`.
- FilterModal.BlurIdempotent: proved for the plain-numeral blur; the program as written is not idempotent from 10^21 up (`MinBlurNotIdempotentAsWritten`).
- FilterModal.BlurredRangeInOrder: proved for the plain-numeral blur; the program as written can report the order error after a blur (`MaxBlurOutOfOrderAsWritten`).
- FilterModal.FilterModal.MinInputBlur: uses the plain-numeral `MinBlurred`; neither exponent form nor a double's rounding above 2^53 - 1 is modelled in the class.
- FilterModal.FilterModal.MaxInputBlur: uses the plain-numeral `MaxBlurred`; as for `MinInputBlur`.
- ApiFeatures.Cast: the Date operand's text is read as a day number; `new Date`'s parsing of date strings, and Mongoose's casting of `""` to `null`, are not modelled.
- Strings.LowerChar: `toLowerCase` on ASCII letters only; other case mappings are not modelled.
- ApiFeatures.RegexMatches: the anchored case-insensitive regular expressions are modelled as case-insensitive equality; metacharacters in user input are out of scope.
- ApiFeatures.Window: MongoDB's reading of a negative limit as its absolute value follows its documentation, not code in the repository.
- ApiFeatures.Execute: the refusal of a negative skip (reached with `page=-1`, which gives skip -24) follows MongoDB's documentation, not code in the repository; the error message is not modelled.
- ApiFeatures.MongoQuery.Find: a key present in both documents takes the new entry, where Mongoose deep-merges object values; the listing query never merges documents that share a key (`MergeIsConjunction`).
- Query-string parsing: values are strings or arrays of strings; nested objects such as `minPrice[$gt]` are not modelled.
- The rest of the listing handler in `propertyController.js` (the unfiltered `Property.find()` and the response) and the other property handlers: orchestration.
- Auth plumbing: JWT signing and verification, cookie options and expiry, password hashing, `correctPassword`, `changedPasswordAfter`, the user lookup after the token step, email sending and the Cloudinary avatar upload in `updateMe`.
- Signup, password reset and the other auth handlers: library and database calls.
- Slug generation (`slugify`) in the pre-save hook: a foreign library.
- The long `extraInfo` default text of the schema: a constant with no rule attached.
- PropertyModel.Create: Mongoose's casting of wrongly typed fields is not modelled (inputs are already typed); an absent `images` list is taken as the empty array Mongoose supplies, which the validator refuses.
- BookingController.Ledger: the ledger starts from properties without bookings (its constructor's requires); a property created with client-supplied `currentBookings` (which `createProperty` passes on from the request body) carries summaries that need not describe any booking record or keep `EndpointsClear`, and the ledger's `Valid()` does not cover such a property.
- PropertyModel.Create: the entries of a client-supplied `currentBookings` are taken as already cast; Mongoose's casting of their ids and dates is not modelled.
- PropertyModel.Create: errors are reported per top-level field; a violation inside a subdocument, which Mongoose reports under a path such as `amenities.0.name` or `images.2.url`, is reported as `amenities` or `images`.
- Routing and server files, the frontend network and storage actions, `Filter.js`, and all rendering (JSX, `InputRange`).
- FilterModal.FilterModal.FilterChange: the `onFilterChange` callback is modelled as the emitted value; `onClose` is not modelled.
- UserSlice.UserState.PasswordSuccess: the payload is taken to be a boolean.
- The user objects held by the slice are abstract records; their fields are never inspected.

## Findings

| source | as written | input that shows it | evidently intended | confidence | as-written member | corrected member |
|---|---|---|---|---|---|---|
| frontend/src/Components/Home/FilterModal.js:51-72 | the max blur writes the bound back with `String(max)`, which is exponent form from 10^21 up, and `parseInt` then reads only its first digit | min "700", max "20000000000000000000000"; leave the max box: the boxes hold "700" and "2e+22", and apply reports "Min price cannot be greater than max price." | after a blur the range reads in order, so apply never reports the order error | not executed | `FilterModal.MaxBlurOutOfOrderAsWritten` | `FilterModal.BlurredRangeInOrder` |
| frontend/src/Components/Home/FilterModal.js:39-49 | the min blur writes `String(min)`, exponent form from 10^21 up, which the next blur reads as one digit | min "1000000000000000000000", max empty; leave the min box twice: "1e+21" becomes "1" | blurring a second time changes nothing | not executed | `FilterModal.MinBlurNotIdempotentAsWritten` | `FilterModal.BlurIdempotent` |
