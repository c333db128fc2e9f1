/** The property schema (backend/Models/propertyModel.js): the closed
    enumerations and their defaults, the "at least five images" validator,
    document creation with defaults and validation, and the pre-find hook
    that normalises the `address.city` condition of a query. */
module PropertyModel {
  import opened Wrappers
  import opened Strings

  type UserId = string

  datatype PropertyType = House | Flat | GuestHouse | Hotel

  function PropertyTypeName(t: PropertyType): string {
    match t
    case House => "House"
    case Flat => "Flat"
    case GuestHouse => "Guest House"
    case Hotel => "Hotel"
  }

  /** The schema's enum validator for `propertyType`: exact, case-sensitive. */
  function ParsePropertyType(s: string): (r: Option<PropertyType>)
    ensures r.Some? ==> PropertyTypeName(r.value) == s
    ensures forall t :: PropertyTypeName(t) == s ==> r == Some(t)
  {
    if s == "House" then Some(House)
    else if s == "Flat" then Some(Flat)
    else if s == "Guest House" then Some(GuestHouse)
    else if s == "Hotel" then Some(Hotel)
    else None
  }

  datatype RoomType = Anytype | Room | EntireHome

  function RoomTypeName(t: RoomType): string {
    match t
    case Anytype => "Anytype"
    case Room => "Room"
    case EntireHome => "Entire Home"
  }

  /** The schema's enum validator for `roomType`. */
  function ParseRoomType(s: string): (r: Option<RoomType>)
    ensures r.Some? ==> RoomTypeName(r.value) == s
    ensures forall t :: RoomTypeName(t) == s ==> r == Some(t)
  {
    if s == "Anytype" then Some(Anytype)
    else if s == "Room" then Some(Room)
    else if s == "Entire Home" then Some(EntireHome)
    else None
  }

  datatype AmenityName = Wifi | Kitchen | Ac | FreeParking | Tv | Pool | WashingMachine

  function AmenityLabel(a: AmenityName): string {
    match a
    case Wifi => "Wifi"
    case Kitchen => "Kitchen"
    case Ac => "Ac"
    case FreeParking => "Free Parking"
    case Tv => "Tv"
    case Pool => "Pool"
    case WashingMachine => "Washing Machine"
  }

  /** The schema's enum validator for an amenity's `name`. */
  function ParseAmenityName(s: string): (r: Option<AmenityName>)
    ensures r.Some? ==> AmenityLabel(r.value) == s
    ensures forall a :: AmenityLabel(a) == s ==> r == Some(a)
  {
    if s == "Wifi" then Some(Wifi)
    else if s == "Kitchen" then Some(Kitchen)
    else if s == "Ac" then Some(Ac)
    else if s == "Free Parking" then Some(FreeParking)
    else if s == "Tv" then Some(Tv)
    else if s == "Pool" then Some(Pool)
    else if s == "Washing Machine" then Some(WashingMachine)
    else None
  }

  const DefaultPropertyType: PropertyType := House
  const DefaultRoomType: RoomType := Anytype
  const DefaultPrice: int := 500
  const DefaultCheckInTime: string := "11:00"
  const DefaultCheckOutTime: string := "13:00"
  const MinImages: nat := 5

  datatype Amenity = Amenity(name: AmenityName, icon: string)

  datatype Image = Image(publicId: Option<string>, url: string)

  datatype Address = Address(area: Option<string>, city: Option<string>, state: Option<string>, pincode: Option<int>)

  /** One entry of a property's embedded `currentBookings` list; dates are
      day numbers. */
  datatype BookingSummary = BookingSummary(bookingId: nat, fromDate: int, toDate: int, userId: UserId)

  /** A stored property document. */
  datatype Property = Property(
    propertyName: string,
    description: string,
    propertyType: PropertyType,
    roomType: RoomType,
    maximumGuest: int,
    amenities: seq<Amenity>,
    images: seq<Image>,
    price: int,
    address: Address,
    currentBookings: seq<BookingSummary>,
    userId: Option<UserId>,
    checkInTime: string,
    checkOutTime: string)

  /** The images validator: a list passes iff it holds at least five images. */
  function ImagesValid(images: seq<Image>): (ok: bool)
    ensures ok <==> |images| >= MinImages
  {
    |images| >= MinImages
  }

  /** The fields of a document handed to `Property.create`, each missing
      or as sent. */
  datatype AmenityInput = AmenityInput(name: Option<string>, icon: Option<string>)
  datatype ImageInput = ImageInput(publicId: Option<string>, url: Option<string>)
  datatype PropertyInput = PropertyInput(
    propertyName: Option<string>,
    description: Option<string>,
    propertyType: Option<string>,
    roomType: Option<string>,
    maximumGuest: Option<int>,
    amenities: seq<AmenityInput>,
    images: Option<seq<ImageInput>>,
    price: Option<int>,
    address: Address,
    currentBookings: Option<seq<BookingSummary>>,
    userId: Option<UserId>,
    checkInTime: Option<string>,
    checkOutTime: Option<string>)

  /** A required string is missing when absent or empty. */
  predicate MissingText(s: Option<string>) { s.None? || s.value == "" }

  predicate AmenityInputValid(a: AmenityInput) {
    !MissingText(a.name) && ParseAmenityName(a.name.value).Some? && !MissingText(a.icon)
  }

  predicate ImageInputValid(i: ImageInput) { !MissingText(i.url) }

  function ImagesOf(input: PropertyInput): seq<ImageInput> {
    if input.images.Some? then input.images.value else []
  }

  /** The paths whose validation fails; schema validation reports all of them. */
  function Violations(input: PropertyInput): set<string> {
    (if MissingText(input.propertyName) then {"propertyName"} else {})
    + (if MissingText(input.description) then {"description"} else {})
    + (if input.propertyType.Some? && ParsePropertyType(input.propertyType.value).None? then {"propertyType"} else {})
    + (if input.roomType.Some? && ParseRoomType(input.roomType.value).None? then {"roomType"} else {})
    + (if input.maximumGuest.None? then {"maximumGuest"} else {})
    + (if exists i :: 0 <= i < |input.amenities| && !AmenityInputValid(input.amenities[i]) then {"amenities"} else {})
    + (if |ImagesOf(input)| < MinImages || exists i :: 0 <= i < |ImagesOf(input)| && !ImageInputValid(ImagesOf(input)[i]) then {"images"} else {})
  }

  function ToAmenity(a: AmenityInput): Amenity
    requires AmenityInputValid(a)
  {
    Amenity(ParseAmenityName(a.name.value).value, a.icon.value)
  }

  function ToImage(i: ImageInput): Image
    requires ImageInputValid(i)
  {
    Image(i.publicId, i.url.value)
  }

  /** Document creation: apply the schema defaults, then validate. A
      created property satisfies every schema rule, and every default
      stands exactly where the input left the field out. */
  function Create(input: PropertyInput): (r: Result<Property, set<string>>)
    ensures r.Failure? <==> Violations(input) != {}
    ensures r.Failure? ==> r.error == Violations(input)
    ensures (input.images.None? || |input.images.value| < MinImages) ==> r.Failure? && "images" in r.error
    ensures r.Success? ==> ImagesValid(r.value.images) && |r.value.images| == |ImagesOf(input)|
    ensures r.Success? ==> r.value.propertyType == (if input.propertyType.None? then DefaultPropertyType else ParsePropertyType(input.propertyType.value).value)
    ensures r.Success? && input.propertyType.Some? ==> PropertyTypeName(r.value.propertyType) == input.propertyType.value
    ensures r.Success? && input.roomType.Some? ==> RoomTypeName(r.value.roomType) == input.roomType.value
    ensures r.Success? && input.roomType.None? ==> r.value.roomType == DefaultRoomType
    ensures r.Success? ==> r.value.price == (if input.price.None? then DefaultPrice else input.price.value)
    ensures r.Success? ==> r.value.checkInTime == (if input.checkInTime.None? then DefaultCheckInTime else input.checkInTime.value)
    ensures r.Success? ==> r.value.checkOutTime == (if input.checkOutTime.None? then DefaultCheckOutTime else input.checkOutTime.value)
    ensures r.Success? && input.currentBookings.None? ==> r.value.currentBookings == []
    ensures r.Success? && input.currentBookings.Some? ==> r.value.currentBookings == input.currentBookings.value
    ensures r.Success? ==>
      (|r.value.amenities| == |input.amenities|
       && forall i :: 0 <= i < |input.amenities| ==> AmenityLabel(r.value.amenities[i].name) == input.amenities[i].name.value)
  {
    var v := Violations(input);
    if v != {} then Failure(v)
    else
      var imgs := ImagesOf(input);
      Success(Property(
        input.propertyName.value,
        input.description.value,
        if input.propertyType.None? then House else ParsePropertyType(input.propertyType.value).value,
        if input.roomType.None? then Anytype else ParseRoomType(input.roomType.value).value,
        input.maximumGuest.value,
        seq(|input.amenities|, i requires 0 <= i < |input.amenities| && AmenityInputValid(input.amenities[i]) => ToAmenity(input.amenities[i])),
        seq(|imgs|, i requires 0 <= i < |imgs| && ImageInputValid(imgs[i]) => ToImage(imgs[i])),
        if input.price.None? then 500 else input.price.value,
        input.address,
        if input.currentBookings.None? then [] else input.currentBookings.value,
        input.userId,
        if input.checkInTime.None? then "11:00" else input.checkInTime.value,
        if input.checkOutTime.None? then "13:00" else input.checkOutTime.value))
  }

  /** `toLowerCase().replace(/\s/g, '')`, as the pre-find hook applies it. */
  function NormalizeCity(city: string): (r: string)
    ensures forall i :: 0 <= i < |r| ==> !IsWhitespace(r[i]) && !IsUpper(r[i])
  {
    var lower := ToLower(city);
    StripWhitespaceNoUpper(lower);
    StripWhitespace(lower)
  }

  /** Normalising an already normalised city changes nothing. */
  lemma NormalizeCityIdempotent(city: string)
    ensures NormalizeCity(NormalizeCity(city)) == NormalizeCity(city)
  {
    var n := NormalizeCity(city);
    assert ToLower(n) == n;
    StripWhitespaceFixed(n);
  }

  /** Example: `"New  York"` normalises to `"newyork"`. */
  lemma NormalizeCityExample()
    ensures NormalizeCity("New  York") == "newyork"
  {
    var lower := ToLower("New  York");
    assert |lower| == 9 && forall i :: 0 <= i < 9 ==> lower[i] == LowerChar("New  York"[i]);
    assert lower == "new" + "  " + "york";
    StripWhitespaceBetween("new", "  ", "york");
  }

  /** A value in a query's conditions: a string, a number, or anything else
      (an operator object, a regular expression, an array). */
  datatype Term = Str(s: string) | Num(n: int) | Doc

  /** JavaScript truthiness of a condition value. */
  predicate Truthy(t: Term) {
    match t
    case Str(s) => s != ""
    case Num(n) => n != 0
    case Doc => true
  }

  const CityKey: string := "address.city"

  datatype HookOutcome = Next | Threw(message: string)

  /** The conditions of one find query, as the hook sees them through
      `getQuery()`. */
  class FindQuery {
    var conditions: map<string, Term>

    constructor(conditions: map<string, Term>)
      ensures this.conditions == conditions
    {
      this.conditions := conditions;
    }

    /** The pre-find hook: a truthy top-level `address.city` string is
        normalised in place; every other key, and a query without that key,
        are left as they are. A truthy non-string value throws: it has no
        `toLowerCase`. */
    method PreFind() returns (outcome: HookOutcome)
      modifies this
      ensures CityKey !in old(conditions) || !Truthy(old(conditions)[CityKey]) ==>
        outcome == Next && conditions == old(conditions)
      ensures CityKey in old(conditions) && old(conditions)[CityKey].Str? && Truthy(old(conditions)[CityKey]) ==>
        outcome == Next && conditions == old(conditions)[CityKey := Str(NormalizeCity(old(conditions)[CityKey].s))]
      ensures CityKey in old(conditions) && !old(conditions)[CityKey].Str? && Truthy(old(conditions)[CityKey]) ==>
        outcome.Threw? && conditions == old(conditions)
      ensures conditions.Keys == old(conditions).Keys
      ensures forall k :: k in conditions && k != CityKey ==> conditions[k] == old(conditions)[k]
    {
      outcome := Next;
      if CityKey in conditions && Truthy(conditions[CityKey]) {
        match conditions[CityKey]
        case Str(s) =>
          conditions := conditions[CityKey := Str(NormalizeCity(s))];
        case Num(_) =>
          outcome := Threw("toLowerCase is not a function");
        case Doc =>
          outcome := Threw("toLowerCase is not a function");
      }
    }
  }
}
