/** The filter form (frontend/src/Components/Home/FilterModal.js): its
    state is a price range, a property type, a room type, a list of
    amenities and a price error message. Blurring a price box coerces both
    bounds to integers and restores `min <= max`; applying validates the
    bounds against 600..30000 and emits the five filter fields; the toggles
    and the clear button edit the selections. */
module FilterModal {
  import opened Wrappers
  import opened Strings

  const LowestPrice: int := 600
  const HighestPrice: int := 30000
  const BoundsMessage: string := "Price must be between 600 and 30000."
  const OrderMessage: string := "Min price cannot be greater than max price."

  /** A price bound as the form holds it: a number (the defaults and the
      selected filters) or the text typed into a box. */
  datatype Price = Num(n: int) | Typed(s: string)

  predicate Truthy(p: Price) {
    match p
    case Num(n) => n != 0
    case Typed(s) => s != ""
  }

  datatype PriceRange = PriceRange(min: Price, max: Price)

  /** The filters the page hands to the form; a missing field is `None`. */
  datatype SelectedRange = SelectedRange(min: Option<Price>, max: Option<Price>)
  datatype SelectedFilters = SelectedFilters(
    priceRange: Option<SelectedRange>,
    propertyType: Option<string>,
    roomType: Option<string>,
    amenities: Option<seq<string>>)

  /** What applying the form emits. */
  datatype AppliedFilters = AppliedFilters(
    propertyType: string,
    roomType: string,
    amenities: seq<string>,
    minPrice: int,
    maxPrice: int)

  /** `value || default` for a price bound. */
  function PriceOr(p: Option<Price>, default: int): (r: Price)
    ensures (p.None? || !Truthy(p.value)) ==> r == Num(default)
    ensures p.Some? && Truthy(p.value) ==> r == p.value
  {
    if p.Some? && Truthy(p.value) then p.value else Num(default)
  }

  /** `value || ""` for a selected type. */
  function TextOr(s: Option<string>): (r: string)
    ensures s.Some? ==> r == s.value
    ensures s.None? ==> r == ""
  {
    if s.Some? then s.value else ""
  }

  /** The price range the form starts from. */
  function InitialRange(selected: SelectedFilters): (r: PriceRange)
    ensures selected.priceRange.None? ==> r == PriceRange(Num(LowestPrice), Num(HighestPrice))
    ensures selected.priceRange.Some? ==>
      r == PriceRange(PriceOr(selected.priceRange.value.min, LowestPrice), PriceOr(selected.priceRange.value.max, HighestPrice))
  {
    if selected.priceRange.None? then PriceRange(Num(LowestPrice), Num(HighestPrice))
    else PriceRange(PriceOr(selected.priceRange.value.min, LowestPrice), PriceOr(selected.priceRange.value.max, HighestPrice))
  }

  /** `parseInt(x, 10)`, `None` standing for `NaN`: an integer bound is
      itself; a typed bound is read by its leading digits, so a decimal
      numeral is its own number, text after the digits is ignored and an
      empty box is `NaN`. */
  function ParsePrice(p: Price): (r: Option<int>)
    ensures p.Num? ==> r == Some(p.n)
    ensures p.Typed? && IsDecimal(p.s) ==> r == ParseInt(p.s)
    ensures p == Typed("") ==> r.None?
  {
    match p
    case Num(n) => Some(n)
    case Typed(s) =>
      if IsDecimal(s) then
        ParseIntPrefixDecimal(s);
        ParseIntPrefix(s)
      else ParseIntPrefix(s)
  }

  /** The integer the handlers read from a bound: the default for an
      empty box or an unparsable one, otherwise the parsed number. */
  function Read(p: Price, default: int): (r: int)
    ensures p == Typed("") ==> r == default
    ensures p != Typed("") && ParsePrice(p).None? ==> r == default
    ensures p != Typed("") && ParsePrice(p).Some? ==> r == ParsePrice(p).value
  {
    if p == Typed("") then default
    else if ParsePrice(p).None? then default
    else ParsePrice(p).value
  }

  function ReadMin(r: PriceRange): int { Read(r.min, LowestPrice) }
  function ReadMax(r: PriceRange): int { Read(r.max, HighestPrice) }

  /** A bound written back as the text of an integer reads as that
      integer, whatever the default. */
  lemma ReadPrinted(n: int, default: int)
    ensures Read(Typed(IntToString(n)), default) == n
  {
    ParseIntToString(n);
  }

  /** The range after leaving the min box: both bounds as read, with the max
      raised to the min when the min exceeds it. Afterwards the min reads
      as before and the max as the larger of the two, so the range reads in
      order. */
  function MinBlurred(r: PriceRange): (b: PriceRange)
    ensures b.min.Typed? && b.max.Typed?
    ensures ReadMin(b) == ReadMin(r)
    ensures ReadMax(b) == if ReadMin(r) > ReadMax(r) then ReadMin(r) else ReadMax(r)
    ensures ReadMin(b) <= ReadMax(b)
  {
    var min := ReadMin(r);
    var max := if ReadMin(r) > ReadMax(r) then ReadMin(r) else ReadMax(r);
    ReadPrinted(min, LowestPrice);
    ReadPrinted(max, HighestPrice);
    PriceRange(Typed(IntToString(min)), Typed(IntToString(max)))
  }

  /** The range after leaving the max box: the min is lowered to the max
      when the max is below it. */
  function MaxBlurred(r: PriceRange): (b: PriceRange)
    ensures b.min.Typed? && b.max.Typed?
    ensures ReadMax(b) == ReadMax(r)
    ensures ReadMin(b) == if ReadMax(r) < ReadMin(r) then ReadMax(r) else ReadMin(r)
    ensures ReadMin(b) <= ReadMax(b)
  {
    var max := ReadMax(r);
    var min := if ReadMax(r) < ReadMin(r) then ReadMax(r) else ReadMin(r);
    ReadPrinted(min, LowestPrice);
    ReadPrinted(max, HighestPrice);
    PriceRange(Typed(IntToString(min)), Typed(IntToString(max)))
  }

  /** Leaving a box a second time changes nothing more. */
  lemma BlurIdempotent(r: PriceRange)
    ensures MinBlurred(MinBlurred(r)) == MinBlurred(r)
    ensures MaxBlurred(MaxBlurred(r)) == MaxBlurred(r)
  {
  }

  /** Apply's validation: out of bounds first, then out of order;
      otherwise the two bounds as read. */
  function CheckPrices(r: PriceRange): (res: Result<(int, int), string>)
    ensures res.Success? <==> LowestPrice <= ReadMin(r) <= ReadMax(r) <= HighestPrice
    ensures res.Success? ==> res.value == (ReadMin(r), ReadMax(r))
    ensures res.Failure? ==>
      res.error == (if ReadMin(r) < LowestPrice || ReadMax(r) > HighestPrice then BoundsMessage else OrderMessage)
  {
    var min := ReadMin(r);
    var max := ReadMax(r);
    if min < LowestPrice || max > HighestPrice then Failure(BoundsMessage)
    else if min > max then Failure(OrderMessage)
    else Success((min, max))
  }

  /** After either blur, applying never reports the order error. */
  lemma BlurredRangeInOrder(r: PriceRange)
    ensures CheckPrices(MinBlurred(r)) != Failure(OrderMessage)
    ensures CheckPrices(MaxBlurred(r)) != Failure(OrderMessage)
  {
  }

  // The blur handlers as the program writes the bounds back: through
  // `String`, which prints exponent form from 10^21 up.

  /** `handleMinInputBlur` with the program's `String`. It agrees with
      `MinBlurred` while both bounds read as numbers `String` prints
      plainly. */
  function MinBlurredAsWritten(r: PriceRange): (b: PriceRange)
    ensures Plain(ReadMin(r)) && Plain(ReadMax(r)) ==> b == MinBlurred(r)
  {
    var min := ReadMin(r);
    var max := if ReadMin(r) > ReadMax(r) then ReadMin(r) else ReadMax(r);
    PriceRange(Typed(NumberToString(min)), Typed(NumberToString(max)))
  }

  /** `handleMaxInputBlur` with the program's `String`. It agrees with
      `MaxBlurred` while both bounds read as numbers `String` prints
      plainly. */
  function MaxBlurredAsWritten(r: PriceRange): (b: PriceRange)
    ensures Plain(ReadMin(r)) && Plain(ReadMax(r)) ==> b == MaxBlurred(r)
  {
    var max := ReadMax(r);
    var min := if ReadMax(r) < ReadMin(r) then ReadMax(r) else ReadMin(r);
    PriceRange(Typed(NumberToString(min)), Typed(NumberToString(max)))
  }

  /** Leaving the max box with an admissible min in the min box (say
      "700") and a max of 10^21 or more typed (say
      "20000000000000000000000"): the max goes back as exponent text
      ("2e+22"), which `parseInt` reads as one digit, so the range reads out
      of order and applying reports the order error. */
  lemma MaxBlurOutOfOrderAsWritten(m: int, n: int)
    requires LowestPrice <= m <= HighestPrice && n >= ExponentFrom
    ensures var b := MaxBlurredAsWritten(PriceRange(Typed(IntToString(m)), Typed(IntToString(n))));
      b == PriceRange(Typed(IntToString(m)), Typed(NumberToString(n)))
      && ReadMin(b) == m && ReadMax(b) < 10
      && CheckPrices(b) == Failure(OrderMessage)
  {
    ReadPrinted(m, LowestPrice);
    ReadPrinted(n, HighestPrice);
    ParsePrintedExponent(n);
  }

  /** Leaving the min box twice after typing a min of 10^21 or more (say
      "1000000000000000000000"): the first blur writes "1e+21" into both
      boxes, the second reads that as 1 and writes "1", so the second blur
      changes the range. */
  lemma MinBlurNotIdempotentAsWritten(n: int)
    requires n >= ExponentFrom
    ensures var once := MinBlurredAsWritten(PriceRange(Typed(IntToString(n)), Typed("")));
      MinBlurredAsWritten(once) != once
  {
    ReadPrinted(n, LowestPrice);
    ParsePrintedExponent(n);
    var once := MinBlurredAsWritten(PriceRange(Typed(IntToString(n)), Typed("")));
    assert once.min == Typed(NumberToString(n));
    var d := ReadMin(once);
    assert 1 <= d <= 9;
    assert MinBlurredAsWritten(once).min == Typed(IntToString(d));
  }

  /** `list.filter(item => item !== a)`. */
  function Without(list: seq<string>, a: string): (r: seq<string>)
    ensures a !in r
    ensures forall x :: x in r <==> x in list && x != a
  {
    if list == [] then []
    else if list[0] == a then Without(list[1..], a)
    else [list[0]] + Without(list[1..], a)
  }

  lemma {:induction false} WithoutAbsent(list: seq<string>, a: string)
    requires a !in list
    ensures Without(list, a) == list
  {
    if list != [] {
      WithoutAbsent(list[1..], a);
    }
  }

  lemma {:induction false} WithoutAppend(list: seq<string>, a: string, b: string)
    ensures Without(list + [b], a) == Without(list, a) + Without([b], a)
  {
    if list != [] {
      assert (list + [b])[1..] == list[1..] + [b];
      WithoutAppend(list[1..], a, b);
    } else {
      assert list + [b] == [b];
    }
  }

  /** The amenity toggle: a selected amenity is removed, every occurrence
      of it; an unselected one is appended at the end. */
  function ToggleAmenity(list: seq<string>, a: string): (r: seq<string>)
    ensures a in r <==> a !in list
    ensures forall x :: x != a ==> (x in r <==> x in list)
    ensures a !in list ==> r == list + [a]
  {
    if a in list then Without(list, a) else list + [a]
  }

  /** Toggling an unselected amenity twice restores the list. */
  lemma ToggleAbsentTwice(list: seq<string>, a: string)
    requires a !in list
    ensures ToggleAmenity(ToggleAmenity(list, a), a) == list
  {
    WithoutAppend(list, a, a);
    WithoutAbsent(list, a);
  }

  /** Toggling a selected amenity twice leaves one occurrence of it, at
      the end, and the other amenities in their order. */
  lemma TogglePresentTwice(list: seq<string>, a: string)
    requires a in list
    ensures ToggleAmenity(ToggleAmenity(list, a), a) == Without(list, a) + [a]
  {
  }

  /** The property type and room type toggles: choosing the current choice
      clears it, choosing anything else selects it. */
  function ToggleChoice(current: string, chosen: string): (r: string)
    ensures current == chosen ==> r == ""
    ensures current != chosen ==> r == chosen
  {
    if current == chosen then "" else chosen
  }

  /** Choosing the same option twice from any other state comes back to
      nothing selected. */
  lemma ToggleChoiceTwice(current: string, chosen: string)
    requires current != chosen
    ensures ToggleChoice(ToggleChoice(current, chosen), chosen) == ""
  {
  }

  /** The form's state. */
  class FilterModal {
    var priceRange: PriceRange
    var propertyType: string
    var roomType: string
    var amenities: seq<string>
    var priceError: string

    /** The initial state: falsy bounds become 600 and 30000, falsy types
        "", missing amenities the empty list, and no error. */
    constructor(selected: SelectedFilters)
      ensures priceRange == InitialRange(selected)
      ensures propertyType == TextOr(selected.propertyType) && roomType == TextOr(selected.roomType)
      ensures amenities == (if selected.amenities.None? then [] else selected.amenities.value)
      ensures priceError == ""
    {
      priceRange := InitialRange(selected);
      propertyType := TextOr(selected.propertyType);
      roomType := TextOr(selected.roomType);
      amenities := if selected.amenities.None? then [] else selected.amenities.value;
      priceError := "";
    }

    /** The effect run when the selected filters change: the same
        defaulting as the initial state; the error message stays. */
    method SyncFromSelected(selected: SelectedFilters)
      modifies this
      ensures priceRange == InitialRange(selected)
      ensures propertyType == TextOr(selected.propertyType) && roomType == TextOr(selected.roomType)
      ensures amenities == (if selected.amenities.None? then [] else selected.amenities.value)
      ensures priceError == old(priceError)
    {
      priceRange := InitialRange(selected);
      propertyType := TextOr(selected.propertyType);
      roomType := TextOr(selected.roomType);
      amenities := if selected.amenities.None? then [] else selected.amenities.value;
    }

    /** Moving the slider sets both bounds to the slider's numbers. */
    method PriceRangeChange(min: int, max: int)
      modifies this`priceRange
      ensures priceRange == PriceRange(Num(min), Num(max))
    {
      priceRange := PriceRange(Num(min), Num(max));
    }

    /** Typing in the min box keeps the text as typed. */
    method MinInputChange(value: string)
      modifies this`priceRange
      ensures priceRange == old(priceRange).(min := Typed(value))
    {
      priceRange := priceRange.(min := Typed(value));
    }

    /** Typing in the max box keeps the text as typed. */
    method MaxInputChange(value: string)
      modifies this`priceRange
      ensures priceRange == old(priceRange).(max := Typed(value))
    {
      priceRange := priceRange.(max := Typed(value));
    }

    /** Leaving the min box. */
    method MinInputBlur()
      modifies this`priceRange
      ensures priceRange == MinBlurred(old(priceRange))
      ensures ReadMin(priceRange) <= ReadMax(priceRange)
    {
      var min: Option<int> := if priceRange.min == Typed("") then Some(LowestPrice) else ParsePrice(priceRange.min);
      var max: Option<int> := if priceRange.max == Typed("") then Some(HighestPrice) else ParsePrice(priceRange.max);
      if min.None? { min := Some(LowestPrice); }
      if max.None? { max := Some(HighestPrice); }
      var lo, hi := min.value, max.value;
      if lo > hi {
        hi := lo;
      }
      priceRange := PriceRange(Typed(IntToString(lo)), Typed(IntToString(hi)));
    }

    /** Leaving the max box. */
    method MaxInputBlur()
      modifies this`priceRange
      ensures priceRange == MaxBlurred(old(priceRange))
      ensures ReadMin(priceRange) <= ReadMax(priceRange)
    {
      var min: Option<int> := if priceRange.min == Typed("") then Some(LowestPrice) else ParsePrice(priceRange.min);
      var max: Option<int> := if priceRange.max == Typed("") then Some(HighestPrice) else ParsePrice(priceRange.max);
      if min.None? { min := Some(LowestPrice); }
      if max.None? { max := Some(HighestPrice); }
      var lo, hi := min.value, max.value;
      if hi < lo {
        lo := hi;
      }
      priceRange := PriceRange(Typed(IntToString(lo)), Typed(IntToString(hi)));
    }

    /** Applying the form: on a bad range only the error message is set and
        nothing is emitted; otherwise the error is cleared and exactly the
        five filter fields are emitted, with the bounds as read. */
    method FilterChange() returns (emitted: Option<AppliedFilters>)
      modifies this`priceError
      ensures CheckPrices(priceRange).Failure? ==> emitted.None? && priceError == CheckPrices(priceRange).error
      ensures CheckPrices(priceRange).Success? ==>
        priceError == ""
        && emitted == Some(AppliedFilters(propertyType, roomType, amenities, ReadMin(priceRange), ReadMax(priceRange)))
    {
      var min: Option<int> := if priceRange.min == Typed("") then Some(LowestPrice) else ParsePrice(priceRange.min);
      var max: Option<int> := if priceRange.max == Typed("") then Some(HighestPrice) else ParsePrice(priceRange.max);
      if min.None? { min := Some(LowestPrice); }
      if max.None? { max := Some(HighestPrice); }
      if min.value < LowestPrice || max.value > HighestPrice {
        priceError := BoundsMessage;
        return None;
      }
      if min.value > max.value {
        priceError := OrderMessage;
        return None;
      }
      priceError := "";
      emitted := Some(AppliedFilters(propertyType, roomType, amenities, min.value, max.value));
    }

    /** The clear button: default bounds, no types, no amenities; the error
        message stays. */
    method ClearFilters()
      modifies this`priceRange, this`propertyType, this`roomType, this`amenities
      ensures priceRange == PriceRange(Num(LowestPrice), Num(HighestPrice))
      ensures propertyType == "" && roomType == "" && amenities == []
    {
      priceRange := PriceRange(Num(LowestPrice), Num(HighestPrice));
      propertyType := "";
      roomType := "";
      amenities := [];
    }

    method AmenitiesChange(selectedAmenity: string)
      modifies this`amenities
      ensures amenities == ToggleAmenity(old(amenities), selectedAmenity)
    {
      amenities := if selectedAmenity in amenities then Without(amenities, selectedAmenity) else amenities + [selectedAmenity];
    }

    method PropertyTypeChange(selectedType: string)
      modifies this`propertyType
      ensures propertyType == ToggleChoice(old(propertyType), selectedType)
    {
      propertyType := if propertyType == selectedType then "" else selectedType;
    }

    method RoomTypeChange(selectedType: string)
      modifies this`roomType
      ensures roomType == ToggleChoice(old(roomType), selectedType)
    {
      roomType := if roomType == selectedType then "" else selectedType;
    }
  }
}
