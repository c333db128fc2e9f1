/** The listing query builder (backend/utils/APIFeatures.js). `filter()`
    and `search()` each fill a condition document key by key and merge it
    into the query; `paginate()` sets skip and limit. Executing the query
    casts the numeric and date operands, selects the matching properties in
    store order and cuts out the requested page. */
module ApiFeatures {
  import opened Wrappers
  import opened Strings
  import opened PropertyModel

  /** A query-string value: one string, or an array when the parameter is
      repeated or sent in array form. */
  datatype Value = Text(s: string) | Many(items: seq<string>)

  type QueryString = map<string, Value>

  /** JavaScript truthiness of `queryObj[key]`: present and not the empty
      string (an array is always truthy). */
  predicate Given(q: QueryString, key: string) {
    key in q && (q[key].Many? || q[key].s != "")
  }

  /** `v.includes(c)`: on a string, whether the character occurs; on an
      array, whether some element is exactly that one-character string,
      which is stricter than the character occurring in the array's text. */
  predicate Includes(v: Value, c: char)
    ensures Includes(v, c) ==> c in Interpolate(v)
  {
    match v
    case Text(s) => c in s
    case Many(items) =>
      JoinHoldsPiece(items, ",", [c]);
      [c] in items
  }

  /** The schema type of the path a query operand is compared with. */
  datatype SchemaType = NumberType | DateType

  /** Mongoose's cast of a query operand to the path's type (dates are day
      numbers); `None` is a cast error. A string casts iff it is a decimal
      numeral. A Number path refuses every array; a Date path builds its
      date from the array's text, as `new Date` of an array does, so a
      one-element array casts as its element and any other array fails. */
  function Cast(v: Value, t: SchemaType): (r: Option<int>)
    ensures v.Text? ==> r == ParseInt(v.s)
    ensures t == NumberType && v.Many? ==> r.None?
    ensures t == DateType ==> r == ParseInt(Interpolate(v))
    ensures r.Some? <==>
      (v.Text? && IsDecimal(v.s)) || (t == DateType && v.Many? && |v.items| == 1 && IsDecimal(v.items[0]))
  {
    match v
    case Text(s) => ParseInt(s)
    case Many(items) =>
      if t == NumberType then None
      else if |items| == 1 then
        assert Interpolate(v) == items[0] && t == DateType;
        ParseInt(items[0])
      else if items == [] then None
      else
        assert Join(items, [',']) == items[0] + [','] + Join(items[1..], [',']);
        assert Join(items, [','])[|items[0]|] == ',';
        CommaNotDecimal(Join(items, [',']), |items[0]|);
        None
  }

  /** The operand of `$all` cast to an array. */
  function AsArray(v: Value): seq<string> {
    match v
    case Text(s) => [s]
    case Many(items) => items
  }

  /** A value interpolated into a template string: a string as it is, an
      array as its elements joined by commas, so splitting that text on
      commas gives back elements that hold no comma. */
  function Interpolate(v: Value): (r: string)
    ensures v.Text? ==> r == v.s
    ensures v.Many? && |v.items| == 1 ==> r == v.items[0]
    ensures v.Many? && v.items != [] && (forall i :: 0 <= i < |v.items| ==> ',' !in v.items[i]) ==>
      Split(r, ',') == v.items
  {
    match v
    case Text(s) => s
    case Many(items) =>
      if items != [] && forall i :: 0 <= i < |items| ==> ',' !in items[i] then
        SplitJoin(items, ',');
        Join(items, [','])
      else Join(items, [','])
  }

  const MinPriceParam: string := "minPrice"
  const MaxPriceParam: string := "maxPrice"
  const PropertyTypeParam: string := "propertyType"
  const RoomTypeParam: string := "roomType"
  const AmenitiesParam: string := "amenities"
  const CityParam: string := "city"
  const GuestsParam: string := "guests"
  const DateInParam: string := "dateIn"
  const DateOutParam: string := "dateOut"
  const PageParam: string := "page"
  const LimitParam: string := "limit"

  const PriceKey: string := "price"
  const PropertyTypeKey: string := "propertyType"
  const RoomTypeKey: string := "roomType"
  const AmenitiesKey: string := "amenities.name"
  const OrKey: string := "$or"
  const GuestsKey: string := "maximumGuest"
  const AndKey: string := "$and"

  const FilterKeys: set<string> := {PriceKey, PropertyTypeKey, RoomTypeKey, AmenitiesKey}
  const SearchKeys: set<string> := {OrKey, GuestsKey, AndKey}

  const DefaultPage: int := 1
  const DefaultLimit: int := 12

  datatype PriceBound = AtLeast(min: Value) | Between(min: Value, max: Value)

  /** One entry of a condition document, as the builder stores it. */
  datatype Clause =
    | PriceClause(bound: PriceBound)
    | PropertyTypeClause(patterns: seq<string>)
    | RoomTypeClause(pattern: string)
    | AmenitiesClause(names: Value)
    | LocationClause(term: string)
    | GuestsClause(min: Value)
    | AvailabilityClause(dateIn: Value, dateOut: Value)

  type Conditions = map<string, Clause>

  /** The state of a mongoose query: its merged conditions, skip and limit. */
  datatype MongoQuery = MongoQuery(conditions: Conditions, skip: Option<int>, limit: Option<int>) {
    /** `query.find(doc)`: add the document's conditions to the query's;
        skip and limit stay. Mongoose merges the two documents key by key
        and deep-merges object values under a shared key; the model lets the
        document's entry win instead. The two agree wherever the model uses
        `Find`, because the documents merged into one query have disjoint
        keys, which is what `MergeIsConjunction` requires. */
    function Find(doc: Conditions): (r: MongoQuery)
      ensures r.skip == skip && r.limit == limit
      ensures r.conditions.Keys == conditions.Keys + doc.Keys
      ensures forall k :: k in doc ==> r.conditions[k] == doc[k]
      ensures forall k :: k in conditions && k !in doc ==> r.conditions[k] == conditions[k]
    {
      this.(conditions := conditions + doc)
    }
  }

  /** `Property.find()`: no condition, no skip, no limit. */
  const FindAll: MongoQuery := MongoQuery(map[], None, None)

  datatype BuildError = NotAString(param: string)

  datatype Step = Done | Failed(error: BuildError)

  // ---------------------------------------------------------------------
  // What a condition means for a stored property.

  /** `new RegExp(`^${pattern}$`, 'i')` matching `s`, regular-expression
      metacharacters aside. */
  predicate RegexMatches(pattern: string, s: string) {
    ToLower(pattern) == ToLower(s)
  }

  /** `$all` on `amenities.name`: every requested name is the name of one of
      the amenities; an empty list matches nothing. */
  predicate HasAllAmenities(names: seq<string>, amenities: seq<Amenity>) {
    |names| > 0 &&
    forall j :: 0 <= j < |names| ==>
      exists k :: 0 <= k < |amenities| && AmenityLabel(amenities[k].name) == names[j]
  }

  /** The `$elemMatch` of the availability condition: a half-open overlap
      test against the requested arrival and departure days. */
  predicate SearchClash(b: BookingSummary, dateIn: int, dateOut: int) {
    (b.fromDate < dateOut && b.toDate > dateIn) || (b.fromDate < dateIn && b.toDate > dateIn)
  }

  predicate HasClash(bookings: seq<BookingSummary>, dateIn: int, dateOut: int) {
    exists k :: 0 <= k < |bookings| && SearchClash(bookings[k], dateIn, dateOut)
  }

  /** Every operand of the clause casts to the schema type. */
  predicate Casts(c: Clause) {
    match c
    case PriceClause(AtLeast(m)) => Cast(m, NumberType).Some?
    case PriceClause(Between(m, n)) => Cast(m, NumberType).Some? && Cast(n, NumberType).Some?
    case GuestsClause(m) => Cast(m, NumberType).Some?
    case AvailabilityClause(i, o) => Cast(i, DateType).Some? && Cast(o, DateType).Some?
    case _ => true
  }

  /** What a clause means for a stored property, as MongoDB matches it. An
      empty `$in` and an empty `$all` match nothing; a property without
      bookings passes the availability condition. */
  predicate Holds(c: Clause, p: Property)
    requires Casts(c)
    ensures c.PropertyTypeClause? && c.patterns == [] ==> !Holds(c, p)
    ensures c.AmenitiesClause? && AsArray(c.names) == [] ==> !Holds(c, p)
    ensures c.AvailabilityClause? && p.currentBookings == [] ==> Holds(c, p)
  {
    match c
    case PriceClause(AtLeast(m)) => Cast(m, NumberType).value <= p.price
    case PriceClause(Between(m, n)) => Cast(m, NumberType).value <= p.price <= Cast(n, NumberType).value
    case PropertyTypeClause(patterns) =>
      exists i :: 0 <= i < |patterns| && RegexMatches(patterns[i], PropertyTypeName(p.propertyType))
    case RoomTypeClause(pattern) => RegexMatches(pattern, RoomTypeName(p.roomType))
    case AmenitiesClause(names) => HasAllAmenities(AsArray(names), p.amenities)
    case LocationClause(term) =>
      p.address.city == Some(term) || p.address.state == Some(term) || p.address.area == Some(term)
    case GuestsClause(m) => p.maximumGuest >= Cast(m, NumberType).value
    case AvailabilityClause(i, o) => !HasClash(p.currentBookings, Cast(i, DateType).value, Cast(o, DateType).value)
  }

  predicate AllCast(d: Conditions) {
    forall k :: k in d ==> Casts(d[k])
  }

  predicate Matches(d: Conditions, p: Property)
    requires AllCast(d)
  {
    forall k :: k in d ==> Holds(d[k], p)
  }

  /** Merging documents with disjoint keys conjoins their conditions, in
      either order. */
  lemma MergeIsConjunction(a: Conditions, b: Conditions, p: Property)
    requires a.Keys !! b.Keys && AllCast(a) && AllCast(b)
    ensures AllCast(a + b) && AllCast(b + a)
    ensures Matches(a + b, p) <==> Matches(a, p) && Matches(b, p)
    ensures Matches(a + b, p) <==> Matches(b + a, p)
  {
    assert a + b == b + a;
    if Matches(a, p) && Matches(b, p) {
      forall k | k in a + b ensures Holds((a + b)[k], p) {
        if k in b { assert (a + b)[k] == b[k]; } else { assert (a + b)[k] == a[k]; }
      }
    }
    if Matches(a + b, p) {
      forall k | k in a ensures Holds(a[k], p) {
        assert (a + b)[k] == a[k];
      }
      forall k | k in b ensures Holds(b[k], p) {
        assert (a + b)[k] == b[k];
      }
    }
  }

  // ---------------------------------------------------------------------
  // The documents `filter()` and `search()` build.

  function TrimAll(parts: seq<string>): (r: seq<string>)
    ensures |r| == |parts|
    ensures forall i :: 0 <= i < |parts| ==> r[i] == Trim(parts[i])
  {
    seq(|parts|, i requires 0 <= i < |parts| => Trim(parts[i]))
  }

  function PriceEntry(q: QueryString): Conditions {
    if Given(q, MinPriceParam) && Given(q, MaxPriceParam) then
      if Includes(q[MaxPriceParam], '>') then map[PriceKey := PriceClause(AtLeast(q[MinPriceParam]))]
      else map[PriceKey := PriceClause(Between(q[MinPriceParam], q[MaxPriceParam]))]
    else map[]
  }

  function PropertyTypeEntry(q: QueryString): Conditions {
    if Given(q, PropertyTypeParam) && q[PropertyTypeParam].Text? then
      map[PropertyTypeKey := PropertyTypeClause(TrimAll(Split(q[PropertyTypeParam].s, ',')))]
    else map[]
  }

  function RoomTypeEntry(q: QueryString): Conditions {
    if Given(q, RoomTypeParam) then map[RoomTypeKey := RoomTypeClause(Interpolate(q[RoomTypeParam]))]
    else map[]
  }

  function AmenitiesEntry(q: QueryString): Conditions {
    if Given(q, AmenitiesParam) then map[AmenitiesKey := AmenitiesClause(q[AmenitiesParam])]
    else map[]
  }

  /** The reading of the price parameters: only with both bounds given; a
      `'>'` in `maxPrice` leaves the range open above. */
  predicate PriceWanted(q: QueryString, p: Property)
    requires Given(q, MinPriceParam) && Given(q, MaxPriceParam)
    requires Cast(q[MinPriceParam], NumberType).Some?
    requires !Includes(q[MaxPriceParam], '>') ==> Cast(q[MaxPriceParam], NumberType).Some?
  {
    Cast(q[MinPriceParam], NumberType).value <= p.price &&
    (!Includes(q[MaxPriceParam], '>') ==> p.price <= Cast(q[MaxPriceParam], NumberType).value)
  }

  /** The document `filter()` builds, or the error it throws when
      `propertyType` is an array (arrays have no `split`). Each key is
      present exactly when its parameters are given. */
  function FilterDocument(q: QueryString): (r: Result<Conditions, BuildError>)
    ensures r.Failure? <==> Given(q, PropertyTypeParam) && q[PropertyTypeParam].Many?
    ensures r.Failure? ==> r.error == NotAString(PropertyTypeParam)
    ensures r.Success? ==> r.value.Keys <= FilterKeys
    ensures r.Success? ==> (PriceKey in r.value <==> Given(q, MinPriceParam) && Given(q, MaxPriceParam))
    ensures r.Success? ==> (PropertyTypeKey in r.value <==> Given(q, PropertyTypeParam))
    ensures r.Success? ==> (RoomTypeKey in r.value <==> Given(q, RoomTypeParam))
    ensures r.Success? ==> (AmenitiesKey in r.value <==> Given(q, AmenitiesParam))
  {
    if Given(q, PropertyTypeParam) && q[PropertyTypeParam].Many? then Failure(NotAString(PropertyTypeParam))
    else Success(PriceEntry(q) + PropertyTypeEntry(q) + RoomTypeEntry(q) + AmenitiesEntry(q))
  }

  /** The price condition: with `'>'` in `maxPrice` only the lower bound
      applies, otherwise both; the operands must cast to numbers. */
  lemma PriceFilter(q: QueryString, p: Property)
    requires FilterDocument(q).Success? && PriceKey in FilterDocument(q).value
    ensures var c := FilterDocument(q).value[PriceKey];
      (Casts(c) <==> Cast(q[MinPriceParam], NumberType).Some? && (!Includes(q[MaxPriceParam], '>') ==> Cast(q[MaxPriceParam], NumberType).Some?))
      && (Casts(c) ==> (Holds(c, p) <==> PriceWanted(q, p)))
  {
    assert FilterDocument(q).value[PriceKey] == PriceEntry(q)[PriceKey];
  }

  /** A property-type clause built from comma-separated parts holds iff
      the type equals one trimmed part, ignoring case. */
  lemma PropertyTypeClauseHolds(parts: seq<string>, p: Property)
    ensures Holds(PropertyTypeClause(TrimAll(parts)), p) <==>
      exists part :: part in parts && RegexMatches(Trim(part), PropertyTypeName(p.propertyType))
  {
    var patterns := TrimAll(parts);
    var name := PropertyTypeName(p.propertyType);
    if Holds(PropertyTypeClause(patterns), p) {
      var i :| 0 <= i < |patterns| && RegexMatches(patterns[i], name);
      assert parts[i] in parts;
    }
    if exists part :: part in parts && RegexMatches(Trim(part), name) {
      var part :| part in parts && RegexMatches(Trim(part), name);
      var i :| 0 <= i < |parts| && parts[i] == part;
      assert RegexMatches(patterns[i], name);
    }
  }

  /** The property-type condition: the parameter is split on commas, each
      part trimmed, and a property matches iff its type equals one part,
      ignoring case. */
  lemma PropertyTypeFilter(q: QueryString, p: Property)
    requires FilterDocument(q).Success? && PropertyTypeKey in FilterDocument(q).value
    ensures var c := FilterDocument(q).value[PropertyTypeKey];
      Casts(c) &&
      (Holds(c, p) <==>
        exists part :: part in Split(q[PropertyTypeParam].s, ',') &&
          RegexMatches(Trim(part), PropertyTypeName(p.propertyType)))
  {
    var parts := Split(q[PropertyTypeParam].s, ',');
    assert FilterDocument(q).value[PropertyTypeKey] == PropertyTypeEntry(q)[PropertyTypeKey] == PropertyTypeClause(TrimAll(parts));
    PropertyTypeClauseHolds(parts, p);
  }

  /** The room-type condition: the parameter equals the room type, ignoring case. */
  lemma RoomTypeFilter(q: QueryString, p: Property)
    requires FilterDocument(q).Success? && RoomTypeKey in FilterDocument(q).value
    ensures var c := FilterDocument(q).value[RoomTypeKey];
      Casts(c) && (Holds(c, p) <==> RegexMatches(Interpolate(q[RoomTypeParam]), RoomTypeName(p.roomType)))
  {
    assert FilterDocument(q).value[RoomTypeKey] == RoomTypeEntry(q)[RoomTypeKey];
  }

  /** The amenities condition: all requested names must be present. */
  lemma AmenitiesFilter(q: QueryString, p: Property)
    requires FilterDocument(q).Success? && AmenitiesKey in FilterDocument(q).value
    ensures var c := FilterDocument(q).value[AmenitiesKey];
      Casts(c) && (Holds(c, p) <==> HasAllAmenities(AsArray(q[AmenitiesParam]), p.amenities))
  {
    assert FilterDocument(q).value[AmenitiesKey] == AmenitiesEntry(q)[AmenitiesKey];
  }

  /** `toLowerCase().replaceAll(' ', '')` of the city term: no space and
      no upper-case letter is left; only the space character is removed
      (`SearchTermChar`). */
  function SearchTerm(city: string): (r: string)
    ensures |r| <= |city|
    ensures forall i :: 0 <= i < |r| ==> r[i] != ' ' && !IsUpper(r[i])
  {
    RemoveAll(ToLower(city), ' ')
  }

  /** The term is built piece by piece ... */
  lemma SearchTermAppend(a: string, b: string)
    ensures SearchTerm(a + b) == SearchTerm(a) + SearchTerm(b)
  {
    ToLowerAppend(a, b);
    RemoveAllAppend(ToLower(a), ToLower(b), ' ');
  }

  /** ... and each character is dropped when it is a space and lower-cased
      otherwise, so every other character survives, in order. */
  lemma SearchTermChar(c: char)
    ensures SearchTerm([c]) == if c == ' ' then [] else [LowerChar(c)]
  {
    assert ToLower([c]) == [LowerChar(c)];
    RemoveAllChar(LowerChar(c), ' ');
  }

  /** Example: the term `"New  York"` becomes `"newyork"`. */
  lemma SearchTermExample()
    ensures SearchTerm("New  York") == "newyork"
  {
    var lower := ToLower("New  York");
    assert |lower| == 9 && forall i :: 0 <= i < 9 ==> lower[i] == LowerChar("New  York"[i]);
    assert lower == "new" + "  " + "york";
    RemoveAllBetween("new", "  ", "york", ' ');
  }

  function LocationEntry(q: QueryString): Conditions {
    if Given(q, CityParam) && q[CityParam].Text? then map[OrKey := LocationClause(SearchTerm(q[CityParam].s))]
    else map[]
  }

  function GuestsEntry(q: QueryString): Conditions {
    if Given(q, GuestsParam) then map[GuestsKey := GuestsClause(q[GuestsParam])] else map[]
  }

  function AvailabilityEntry(q: QueryString): Conditions {
    if Given(q, DateOutParam) && Given(q, DateInParam) then
      map[AndKey := AvailabilityClause(q[DateInParam], q[DateOutParam])]
    else map[]
  }

  /** The document `search()` builds, or the error it throws when `city` is
      an array (arrays have no `toLowerCase`). */
  function SearchDocument(q: QueryString): (r: Result<Conditions, BuildError>)
    ensures r.Failure? <==> Given(q, CityParam) && q[CityParam].Many?
    ensures r.Failure? ==> r.error == NotAString(CityParam)
    ensures r.Success? ==> r.value.Keys <= SearchKeys
    ensures r.Success? ==> (OrKey in r.value <==> Given(q, CityParam))
    ensures r.Success? ==> (GuestsKey in r.value <==> Given(q, GuestsParam))
    ensures r.Success? ==> (AndKey in r.value <==> Given(q, DateInParam) && Given(q, DateOutParam))
  {
    if Given(q, CityParam) && q[CityParam].Many? then Failure(NotAString(CityParam))
    else Success(LocationEntry(q) + GuestsEntry(q) + AvailabilityEntry(q))
  }

  /** The location condition: the normalised term equals the city, the
      state or the area. */
  lemma LocationSearch(q: QueryString, p: Property)
    requires SearchDocument(q).Success? && OrKey in SearchDocument(q).value
    ensures var c := SearchDocument(q).value[OrKey];
      var term := SearchTerm(q[CityParam].s);
      Casts(c) &&
      (Holds(c, p) <==> p.address.city == Some(term) || p.address.state == Some(term) || p.address.area == Some(term))
  {
    assert SearchDocument(q).value[OrKey] == LocationEntry(q)[OrKey];
  }

  /** The guest condition: the property takes at least the requested number. */
  lemma GuestsSearch(q: QueryString, p: Property)
    requires SearchDocument(q).Success? && GuestsKey in SearchDocument(q).value
    ensures var c := SearchDocument(q).value[GuestsKey];
      (Casts(c) <==> Cast(q[GuestsParam], NumberType).Some?)
      && (Casts(c) ==> (Holds(c, p) <==> p.maximumGuest >= Cast(q[GuestsParam], NumberType).value))
  {
    assert SearchDocument(q).value[GuestsKey] == GuestsEntry(q)[GuestsKey];
  }

  /** The availability condition: a property is excluded iff one of its
      bookings clashes with the requested days under the half-open test. */
  lemma AvailabilitySearch(q: QueryString, p: Property)
    requires SearchDocument(q).Success? && AndKey in SearchDocument(q).value
    ensures var c := SearchDocument(q).value[AndKey];
      (Casts(c) <==> Cast(q[DateInParam], DateType).Some? && Cast(q[DateOutParam], DateType).Some?)
      && (Casts(c) ==>
        (Holds(c, p) <==>
          forall k :: 0 <= k < |p.currentBookings| ==>
            !SearchClash(p.currentBookings[k], Cast(q[DateInParam], DateType).value, Cast(q[DateOutParam], DateType).value)))
  {
    assert SearchDocument(q).value[AndKey] == AvailabilityEntry(q)[AndKey];
  }

  /** `Number(s)`: the empty string is 0; `None` is `NaN`. */
  function NumberText(s: string): Option<int> {
    if s == "" then Some(0) else ParseInt(s)
  }

  /** `x * 1` for a query value. `undefined` is `NaN`; a value multiplies
      as the text it converts to, so `[]` is 0, `["3"]` is 3 and an array
      of two or more elements is `NaN`. */
  function NumberOf(v: Option<Value>): (r: Option<int>)
    ensures v.None? ==> r.None?
    ensures v.Some? ==> r == NumberText(Interpolate(v.value))
    ensures v.Some? && v.value.Many? && |v.value.items| >= 2 ==> r.None?
  {
    match v
    case None => None
    case Some(Text(s)) => if s == "" then Some(0) else ParseInt(s)
    case Some(Many(items)) =>
      if items == [] then Some(0)
      else if |items| == 1 then (if items[0] == "" then Some(0) else ParseInt(items[0]))
      else
        assert Join(items, [',']) == items[0] + [','] + Join(items[1..], [',']);
        assert Join(items, [','])[|items[0]|] == ',';
        CommaNotDecimal(Join(items, [',']), |items[0]|);
        None
  }

  function Lookup(q: QueryString, key: string): Option<Value> {
    if key in q then Some(q[key]) else None
  }

  /** `q[key] * 1 || d`: the number given, unless missing, zero or not a number. */
  function NumberOr(q: QueryString, key: string, d: int): (r: int)
    ensures key !in q ==> r == d
    ensures r == d || Some(r) == NumberOf(Lookup(q, key))
    ensures d != 0 ==> r != 0
    ensures NumberOf(Lookup(q, key)).Some? && NumberOf(Lookup(q, key)).value != 0 ==>
      r == NumberOf(Lookup(q, key)).value
  {
    var n := NumberOf(Lookup(q, key));
    if n.Some? && n.value != 0 then n.value else d
  }

  /** `paginate()`'s numbers: page and limit with their defaults, and the
      offset of the first record of the page. */
  function PageOf(q: QueryString): (r: (int, int, int))
    ensures r.0 != 0 && r.1 != 0
    ensures r.2 == (r.0 - 1) * r.1
    ensures PageParam !in q ==> r.0 == DefaultPage && r.2 == 0
    ensures LimitParam !in q ==> r.1 == DefaultLimit
  {
    var page := NumberOr(q, PageParam, 1);
    var limit := NumberOr(q, LimitParam, 12);
    (page, limit, (page - 1) * limit)
  }

  // ---------------------------------------------------------------------
  // The builder.

  class APIFeatures {
    var query: MongoQuery
    const queryString: QueryString

    constructor(query: MongoQuery, queryString: QueryString)
      ensures this.query == query && this.queryString == queryString
    {
      this.query := query;
      this.queryString := queryString;
    }

    /** `filter()`: build the filter document key by key and merge it into
        the query; a throw leaves the query as it was. */
    method Filter() returns (step: Step)
      modifies this
      ensures FilterDocument(queryString).Success? ==>
        step == Done && query == old(query).Find(FilterDocument(queryString).value)
      ensures FilterDocument(queryString).Failure? ==>
        step == Failed(FilterDocument(queryString).error) && query == old(query)
    {
      var queryObj := queryString;
      var filterQuery: Conditions := map[];
      if Given(queryObj, MinPriceParam) && Given(queryObj, MaxPriceParam) {
        if Includes(queryObj[MaxPriceParam], '>') {
          filterQuery := filterQuery[PriceKey := PriceClause(AtLeast(queryObj[MinPriceParam]))];
        } else {
          filterQuery := filterQuery[PriceKey := PriceClause(Between(queryObj[MinPriceParam], queryObj[MaxPriceParam]))];
        }
      }
      assert filterQuery == PriceEntry(queryObj);
      if Given(queryObj, PropertyTypeParam) {
        match queryObj[PropertyTypeParam]
        case Many(_) =>
          return Failed(NotAString(PropertyTypeParam));
        case Text(s) =>
          var types := TrimAll(Split(s, ','));
          filterQuery := filterQuery[PropertyTypeKey := PropertyTypeClause(types)];
      }
      assert filterQuery == PriceEntry(queryObj) + PropertyTypeEntry(queryObj);
      if Given(queryObj, RoomTypeParam) {
        filterQuery := filterQuery[RoomTypeKey := RoomTypeClause(Interpolate(queryObj[RoomTypeParam]))];
      }
      assert filterQuery == PriceEntry(queryObj) + PropertyTypeEntry(queryObj) + RoomTypeEntry(queryObj);
      if Given(queryObj, AmenitiesParam) {
        filterQuery := filterQuery[AmenitiesKey := AmenitiesClause(queryObj[AmenitiesParam])];
      }
      assert filterQuery == PriceEntry(queryObj) + PropertyTypeEntry(queryObj) + RoomTypeEntry(queryObj) + AmenitiesEntry(queryObj);
      query := query.Find(filterQuery);
      step := Done;
    }

    /** `search()`: build the search document and merge it into the query;
        a throw leaves the query as it was. */
    method Search() returns (step: Step)
      modifies this
      ensures SearchDocument(queryString).Success? ==>
        step == Done && query == old(query).Find(SearchDocument(queryString).value)
      ensures SearchDocument(queryString).Failure? ==>
        step == Failed(SearchDocument(queryString).error) && query == old(query)
    {
      var queryObj := queryString;
      var searchQuery: Conditions := map[];
      if Given(queryObj, CityParam) {
        match queryObj[CityParam]
        case Many(_) =>
          return Failed(NotAString(CityParam));
        case Text(city) =>
          var term := SearchTerm(city);
          searchQuery := map[OrKey := LocationClause(term)];
      }
      if Given(queryObj, GuestsParam) {
        searchQuery := searchQuery[GuestsKey := GuestsClause(queryObj[GuestsParam])];
      }
      assert searchQuery == LocationEntry(queryObj) + GuestsEntry(queryObj);
      if Given(queryObj, DateOutParam) && Given(queryObj, DateInParam) {
        searchQuery := searchQuery[AndKey := AvailabilityClause(queryObj[DateInParam], queryObj[DateOutParam])];
      }
      assert searchQuery == SearchDocument(queryObj).value;
      query := query.Find(searchQuery);
      step := Done;
    }

    /** `paginate()`: record skip and limit; the conditions are untouched. */
    method Paginate()
      modifies this
      ensures query == old(query).(skip := Some(PageOf(queryString).2), limit := Some(PageOf(queryString).1))
    {
      var page := NumberOr(queryString, PageParam, 1);
      var limit := NumberOr(queryString, LimitParam, 12);
      var skip := (page - 1) * limit;
      query := query.(skip := Some(skip), limit := Some(limit));
    }
  }

  /** The query `filter().search().paginate()` builds on `Property.find()`. */
  function ListingQuery(q: QueryString): (r: Result<MongoQuery, BuildError>)
    ensures r.Success? ==>
      (FilterDocument(q).Success? && SearchDocument(q).Success?
       && r.value.conditions == FilterDocument(q).value + SearchDocument(q).value
       && r.value.skip == Some(PageOf(q).2) && r.value.limit == Some(PageOf(q).1))
    ensures r.Failure? ==>
      (FilterDocument(q).Failure? && r.error == FilterDocument(q).error)
      || (FilterDocument(q).Success? && SearchDocument(q).Failure? && r.error == SearchDocument(q).error)
  {
    match FilterDocument(q)
    case Failure(e) => Failure(e)
    case Success(f) =>
      match SearchDocument(q)
      case Failure(e) => Failure(e)
      case Success(s) =>
        var (_, limit, skip) := PageOf(q);
        assert FindAll.Find(f).conditions == f;
        Success(FindAll.Find(f).Find(s).(skip := Some(skip), limit := Some(limit)))
  }

  /** The chain as the listing handler runs it. */
  method BuildListing(q: QueryString) returns (r: Result<MongoQuery, BuildError>)
    ensures r == ListingQuery(q)
  {
    var features := new APIFeatures(FindAll, q);
    var step := features.Filter();
    if step.Failed? {
      return Failure(step.error);
    }
    step := features.Search();
    if step.Failed? {
      return Failure(step.error);
    }
    features.Paginate();
    r := Success(features.query);
  }

  // ---------------------------------------------------------------------
  // Executing a query against the store.

  datatype ExecError = CastError | NegativeSkip

  /** The matching properties, in store order. */
  function Select(d: Conditions, store: seq<Property>): (r: seq<Property>)
    requires AllCast(d)
    ensures |r| <= |store|
    ensures forall p :: p in r ==> p in store && Matches(d, p)
    ensures forall p :: p in store && Matches(d, p) ==> p in r
  {
    if store == [] then []
    else
      var rest := Select(d, store[1..]);
      if Matches(d, store[0]) then [store[0]] + rest else rest
  }

  /** Each matching property is kept as often as the store holds it, and a
      property that does not match is never kept ... */
  lemma {:induction false} SelectCount(d: Conditions, store: seq<Property>, p: Property)
    requires AllCast(d)
    ensures multiset(Select(d, store))[p] == if Matches(d, p) then multiset(store)[p] else 0
  {
    if store != [] {
      var x, t := store[0], store[1..];
      SelectCount(d, t, p);
      assert store == [x] + t;
      SelectCons(d, x, t);
      assert multiset(store) == multiset([x]) + multiset(t);
    }
  }

  lemma ConcatAssoc<T>(x: seq<T>, y: seq<T>, z: seq<T>)
    ensures x + (y + z) == (x + y) + z
  {
  }

  /** Selecting from a store with a given first property. */
  lemma SelectCons(d: Conditions, x: Property, t: seq<Property>)
    requires AllCast(d)
    ensures Select(d, [x] + t) == if Matches(d, x) then [x] + Select(d, t) else Select(d, t)
  {
    assert ([x] + t)[1..] == t;
  }

  /** ... and the order is the store's: selecting from two stretches of the
      store one after the other gives the two selections one after the
      other. */
  lemma {:induction false} SelectAppend(d: Conditions, a: seq<Property>, b: seq<Property>)
    requires AllCast(d)
    ensures Select(d, a + b) == Select(d, a) + Select(d, b)
  {
    if a == [] {
      assert a + b == b;
    } else {
      var x, t := a[0], a[1..];
      assert a == [x] + t && a + b == [x] + (t + b);
      SelectAppend(d, t, b);
      SelectCons(d, x, t + b);
      SelectCons(d, x, t);
      ConcatAssoc([x], Select(d, t), Select(d, b));
    }
  }

  function Drop(s: seq<Property>, n: nat): seq<Property> {
    if n >= |s| then [] else s[n..]
  }

  /** skip and limit as the store applies them: a limit of 0 means none,
      a negative limit counts like its absolute value. */
  function Window(s: seq<Property>, skip: nat, limit: Option<int>): (r: seq<Property>)
    ensures forall p :: p in r ==> p in s
  {
    var rest := Drop(s, skip);
    if limit.None? || limit.value == 0 then rest
    else
      var n := if limit.value < 0 then -limit.value else limit.value;
      if n >= |rest| then rest else rest[..n]
  }

  /** Running a query: a cast error when an operand does not cast, else a
      negative skip is refused, else the window of the matching
      properties. */
  function Execute(mq: MongoQuery, store: seq<Property>): (r: Result<seq<Property>, ExecError>)
    ensures r.Success? ==> AllCast(mq.conditions) && forall p :: p in r.value ==> p in store && Matches(mq.conditions, p)
    ensures r == Failure(CastError) <==> !AllCast(mq.conditions)
    ensures AllCast(mq.conditions) ==> (r == Failure(NegativeSkip) <==> mq.skip.Some? && mq.skip.value < 0)
  {
    if !AllCast(mq.conditions) then Failure(CastError)
    else if mq.skip.Some? && mq.skip.value < 0 then Failure(NegativeSkip)
    else
      var skip: nat := if mq.skip.None? then 0 else mq.skip.value;
      Success(Window(Select(mq.conditions, store), skip, mq.limit))
  }

  /** A property listed after `filter()` then `search()` satisfies both
      stages' conditions, and the two stages could be merged in either
      order. */
  lemma ListedSatisfiesBothStages(q: QueryString, mq: MongoQuery, store: seq<Property>, p: Property)
    requires ListingQuery(q) == Success(mq)
    requires Execute(mq, store).Success? && p in Execute(mq, store).value
    ensures p in store
    ensures AllCast(FilterDocument(q).value) && Matches(FilterDocument(q).value, p)
    ensures AllCast(SearchDocument(q).value) && Matches(SearchDocument(q).value, p)
    ensures AllCast(SearchDocument(q).value + FilterDocument(q).value)
      && Matches(SearchDocument(q).value + FilterDocument(q).value, p)
  {
    var f, s := FilterDocument(q).value, SearchDocument(q).value;
    assert mq.conditions == f + s;
    assert FilterKeys !! SearchKeys;
    assert AllCast(f) && AllCast(s) by {
      forall k | k in f ensures Casts(f[k]) { assert (f + s)[k] == f[k]; }
      forall k | k in s ensures Casts(s[k]) { assert (f + s)[k] == s[k]; }
    }
    MergeIsConjunction(f, s, p);
  }

  /** Page and limit given as positive decimal numbers are taken as they are. */
  lemma PageNumbers(q: QueryString, page: int, limit: int)
    requires PageParam in q && q[PageParam] == Text(IntToString(page)) && page >= 1
    requires LimitParam in q && q[LimitParam] == Text(IntToString(limit)) && limit >= 1
    ensures PageOf(q) == (page, limit, (page - 1) * limit)
  {
    ParseIntToString(page);
    ParseIntToString(limit);
  }

  /** A query with a non-negative skip and a positive limit returns that
      slice of the matching properties. */
  lemma ExecuteSlice(mq: MongoQuery, store: seq<Property>, lo: nat, limit: nat)
    requires AllCast(mq.conditions) && mq.skip == Some(lo) && mq.limit == Some(limit) && limit >= 1
    ensures var all := Select(mq.conditions, store);
      Execute(mq, store) ==
        Success(if lo >= |all| then [] else if lo + limit >= |all| then all[lo..] else all[lo..lo + limit])
  {
    var all := Select(mq.conditions, store);
    if lo < |all| {
      assert Drop(all, lo) == all[lo..];
      if lo + limit < |all| {
        assert all[lo..][..limit] == all[lo..lo + limit];
      }
    }
  }

  /** With page and limit given as positive numbers, a query paginated by
      them (as `ListingQuery` is) returns the page-th slice of `limit`
      matching properties, the one starting at `lo == (page - 1) * limit`. */
  lemma PageSlice(q: QueryString, mq: MongoQuery, store: seq<Property>, page: nat, limit: nat, lo: nat)
    requires mq.skip == Some(PageOf(q).2) && mq.limit == Some(PageOf(q).1) && AllCast(mq.conditions)
    requires PageParam in q && q[PageParam] == Text(IntToString(page)) && page >= 1
    requires LimitParam in q && q[LimitParam] == Text(IntToString(limit)) && limit >= 1
    requires lo == (page - 1) * limit
    ensures var all := Select(mq.conditions, store);
      Execute(mq, store) ==
        Success(if lo >= |all| then [] else if lo + limit >= |all| then all[lo..] else all[lo..lo + limit])
  {
    PageNumbers(q, page, limit);
    ExecuteSlice(mq, store, lo, limit);
  }
}
