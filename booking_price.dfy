/** The price shown by the booking forms. Dates are date-only inputs, which
    parse to midnight UTC, so they are day numbers here; prices are whole
    numbers, so no floating point is needed. */
module BookingPrice {

  import opened Common

  /** `1000 * 60 * 60 * 24` */
  const MS_PER_DAY: int := 1000 * 60 * 60 * 24

  /** `new Date(input).getTime()` for a date-only input: midnight UTC of that day. */
  function Timestamp(day: Day): int {
    day * MS_PER_DAY
  }

  /** `Math.ceil(a / b)` for a positive divisor: the least whole number at or above a / b. */
  function CeilDiv(a: int, b: int): (r: int)
    requires b > 0
    ensures (r - 1) * b < a <= r * b
  {
    var q := (-a) / b;
    assert q * b <= -a < q * b + b;
    -q
  }

  /** For date-only inputs the ceiling of the millisecond difference over a
      day is the plain difference of the day numbers. */
  lemma {:induction false} NightsAreDays(checkIn: Day, checkOut: Day)
    ensures CeilDiv(Timestamp(checkOut) - Timestamp(checkIn), MS_PER_DAY) == checkOut - checkIn
  {
    var d := checkOut - checkIn;
    var r := CeilDiv(Timestamp(checkOut) - Timestamp(checkIn), MS_PER_DAY);
    assert Timestamp(checkOut) - Timestamp(checkIn) == d * MS_PER_DAY;
    assert (r - 1) * MS_PER_DAY < d * MS_PER_DAY <= r * MS_PER_DAY;
  }

  /** `nights`: the ceiling of the difference in days, 0 while either date is empty. */
  function Nights(checkIn: Option<Day>, checkOut: Option<Day>): (n: int)
    ensures checkIn.Some? && checkOut.Some? ==> n == checkOut.value - checkIn.value
    ensures checkIn.None? || checkOut.None? ==> n == 0
  {
    if checkIn.Some? && checkOut.Some? then
      NightsAreDays(checkIn.value, checkOut.value);
      CeilDiv(Timestamp(checkOut.value) - Timestamp(checkIn.value), MS_PER_DAY)
    else 0
  }

  /** `calculateTotalPrice()`: 0 while either date is empty, otherwise nights
      times the nightly price, which is the day difference times the price. */
  function CalculateTotalPrice(checkIn: Option<Day>, checkOut: Option<Day>, price: int): (subtotal: int)
    ensures checkIn.Some? && checkOut.Some? ==> subtotal == (checkOut.value - checkIn.value) * price
    ensures checkIn.None? || checkOut.None? ==> subtotal == 0
  {
    if checkIn.None? || checkOut.None? then 0 else Nights(checkIn, checkOut) * price
  }

  /** `Math.round(subtotal * 0.1)`: the whole number nearest a tenth of the
      subtotal, halves rounded up. For whole subtotals this is (subtotal + 5) / 10. */
  function ServiceFee(subtotal: int): (fee: int)
    ensures 10 * fee - 5 <= subtotal < 10 * fee + 5
  {
    (subtotal + 5) / 10
  }

  /** `subtotal + serviceFee`; never below the subtotal when the subtotal is not negative. */
  function Total(subtotal: int): (total: int)
    ensures total - subtotal == ServiceFee(subtotal)
    ensures subtotal >= 0 ==> subtotal <= total <= subtotal + subtotal / 10 + 1
  {
    subtotal + ServiceFee(subtotal)
  }

  /** The breakdown is shown when both dates are set and there is at least
      one night, that is, exactly when check-out is a later day than check-in. */
  predicate ShowBreakdown(checkIn: Option<Day>, checkOut: Option<Day>)
    ensures ShowBreakdown(checkIn, checkOut) <==>
              checkIn.Some? && checkOut.Some? && checkIn.value < checkOut.value
  {
    checkIn.Some? && checkOut.Some? && Nights(checkIn, checkOut) > 0
  }

  /** A $100 listing from 2024-01-01 (day 19723) to 2024-01-04: 3 nights,
      subtotal 300, service fee 30, total 330. */
  lemma ThreeNightExample()
    ensures Nights(Some(19723), Some(19726)) == 3
    ensures CalculateTotalPrice(Some(19723), Some(19726), 100) == 300
    ensures ServiceFee(300) == 30 && Total(300) == 330
  {
  }
}

/** The booking form of the `client` front end: price breakdown with a
    service fee, and a submit that requires a signed-in user. */
module ClientBookingForm {

  import opened Common
  import opened BookingPrice

  const LOGIN_PATH: string := "/auth/login"

  /** The body sent to `POST /bookings`. */
  datatype BookingRequest = BookingRequest(listingId: string, checkIn: Option<Day>, checkOut: Option<Day>)

  class BookingForm {
    const listingId: string
    const price: int
    var checkIn: Option<Day>
    var checkOut: Option<Day>
    var guests: string
    var isLoading: bool

    constructor (listingId: string, price: int)
      ensures this.listingId == listingId && this.price == price
      ensures checkIn == None && checkOut == None && guests == "1" && !isLoading
    {
      this.listingId := listingId;
      this.price := price;
      checkIn, checkOut, guests, isLoading := None, None, "1", false;
    }

    /** The breakdown the form renders, when it renders one: nights, subtotal,
        service fee and total. */
    function Breakdown(): (b: Option<(int, int, int, int)>)
      reads this
      ensures b.Some? <==> checkIn.Some? && checkOut.Some? && checkIn.value < checkOut.value
      ensures b.Some? ==>
                var (nights, subtotal, fee, total) := b.value;
                && nights == checkOut.value - checkIn.value > 0
                && subtotal == nights * price
                && 10 * fee - 5 <= subtotal < 10 * fee + 5
                && total == subtotal + fee
    {
      if ShowBreakdown(checkIn, checkOut) then
        var subtotal := CalculateTotalPrice(checkIn, checkOut, price);
        Some((Nights(checkIn, checkOut), subtotal, ServiceFee(subtotal), Total(subtotal)))
      else None
    }

    /** `handleSubmit`: without a user nothing is sent and the browser goes to
        the login page; otherwise the dates are sent, a successful booking
        resets the form, and loading ends either way. */
    method HandleSubmit(signedIn: bool, bookingSucceeds: bool)
      returns (request: Option<BookingRequest>, redirect: Option<string>)
      modifies this
      ensures !signedIn ==>
                && request == None && redirect == Some(LOGIN_PATH)
                && checkIn == old(checkIn) && checkOut == old(checkOut)
                && guests == old(guests) && isLoading == old(isLoading)
      ensures signedIn ==>
                && redirect == None && !isLoading
                && request == Some(BookingRequest(listingId, old(checkIn), old(checkOut)))
      ensures signedIn && bookingSucceeds ==> checkIn == None && checkOut == None && guests == "1"
      ensures signedIn && !bookingSucceeds ==>
                checkIn == old(checkIn) && checkOut == old(checkOut) && guests == old(guests)
    {
      if !signedIn {
        return None, Some(LOGIN_PATH);
      }
      isLoading := true;
      request := Some(BookingRequest(listingId, checkIn, checkOut));
      redirect := None;
      if bookingSucceeds {
        checkIn := None;
        checkOut := None;
        guests := "1";
      }
      isLoading := false;
    }
  }
}

/** The booking form of the `stayfinder` front end: a bare total, no service fee. */
module StayfinderBookingForm {

  import opened Common
  import opened BookingPrice

  const LOGIN_PATH: string := "/auth/login"

  /** The total the form renders, when it renders one: whenever both dates
      are set, nights times price with no fee, even when check-out is not
      after check-in (a zero or negative total). */
  function DisplayedTotal(checkIn: Option<Day>, checkOut: Option<Day>, price: int): (shown: Option<int>)
    ensures shown.Some? <==> checkIn.Some? && checkOut.Some?
    ensures shown.Some? ==> shown.value == (checkOut.value - checkIn.value) * price
  {
    if checkIn.Some? && checkOut.Some? then Some(CalculateTotalPrice(checkIn, checkOut, price)) else None
  }

  lemma ReversedDatesShowNegativeTotal()
    ensures DisplayedTotal(Some(19726), Some(19723), 100) == Some(-300)
  {
  }

  datatype BookingRequest = BookingRequest(listingId: string, checkIn: Option<Day>, checkOut: Option<Day>)

  class BookingForm {
    const listingId: string
    var checkIn: Option<Day>
    var checkOut: Option<Day>
    var isLoading: bool

    constructor (listingId: string)
      ensures this.listingId == listingId && checkIn == None && checkOut == None && !isLoading
    {
      this.listingId := listingId;
      checkIn, checkOut, isLoading := None, None, false;
    }

    /** `handleSubmit`: as in the other front end, but there is no guest count to reset. */
    method HandleSubmit(signedIn: bool, bookingSucceeds: bool)
      returns (request: Option<BookingRequest>, redirect: Option<string>)
      modifies this
      ensures !signedIn ==>
                && request == None && redirect == Some(LOGIN_PATH)
                && checkIn == old(checkIn) && checkOut == old(checkOut) && isLoading == old(isLoading)
      ensures signedIn ==>
                && redirect == None && !isLoading
                && request == Some(BookingRequest(listingId, old(checkIn), old(checkOut)))
      ensures signedIn && bookingSucceeds ==> checkIn == None && checkOut == None
      ensures signedIn && !bookingSucceeds ==> checkIn == old(checkIn) && checkOut == old(checkOut)
    {
      if !signedIn {
        return None, Some(LOGIN_PATH);
      }
      isLoading := true;
      request := Some(BookingRequest(listingId, checkIn, checkOut));
      redirect := None;
      if bookingSucceeds {
        checkIn := None;
        checkOut := None;
      }
      isLoading := false;
    }
  }
}
