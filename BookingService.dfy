/** The booking service: lookups and listings as functions of the booking
    table, and the two mutations (cancel, change room type) as a class whose
    methods update the table in place. The functions `Cancellation` and
    `RoomTypeChange` say what table each mutation leaves, or which exception
    it throws. */
module BookingService {
  import opened Wrappers
  import opened Domain
  import opened JavaText
  import opened BookingDetailsMapper
  import opened BookingRepository

  /** The exceptions the service lets escape. */
  datatype Error =
    | BookingNotFound                // IllegalArgumentException("Booking not found")
    | NoEnumConstant(name: string)   // IllegalArgumentException from RoomType.valueOf
    | IncorrectResultSize            // a single-result query matched several rows

  /** The exception a failed single-result lookup becomes. */
  function LookupError(found: Lookup): (e: Error)
    requires !found.Unique?
    ensures e == BookingNotFound <==> found.NoMatch?
    ensures e == IncorrectResultSize <==> found.Ambiguous?
  {
    if found.NoMatch? then BookingNotFound else IncorrectResultSize
  }

  /** `getBookings()`: one detail record per stored booking, in table order. */
  function GetBookings(table: seq<Booking>): (r: seq<HotelBookingDetail>)
    ensures |r| == |table|
    ensures forall i :: 0 <= i < |table| ==> r[i] == BookingToHotelBookingDetail(table[i])
    decreases |table|
  {
    if table == [] then []
    else GetBookings(table[..|table| - 1]) + [BookingToHotelBookingDetail(table[|table| - 1])]
  }

  /** The found booking mapped to its record, or the exception an empty or
      over-full result becomes (`map(mapper).orElseThrow(...)`). */
  function DetailOf(table: seq<Booking>, found: Lookup): (r: Result<HotelBookingDetail, Error>)
    requires found.Unique? ==> found.index < |table|
    ensures r.Success? <==> found.Unique?
    ensures r.Success? ==> r.value == BookingToHotelBookingDetail(table[found.index])
    ensures r.Failure? ==> r.error == LookupError(found)
  {
    match found
    case Unique(i) => Success(BookingToHotelBookingDetail(table[i]))
    case _ => Failure(LookupError(found))
  }

  /** `findBooking(bookingNumber)`: the record of the booking whose number is
      the trimmed argument; no owner check. */
  function FindBooking(table: seq<Booking>, bookingNumber: string): (r: Result<HotelBookingDetail, Error>)
    ensures r.Success? <==> FindByBookingNumber(table, Trim(bookingNumber)).Unique?
    ensures r.Success? ==> r.value.bookingNumber == Trim(bookingNumber) && r.value in GetBookings(table)
    ensures r == Failure(BookingNotFound) <==> forall i :: 0 <= i < |table| ==> table[i].bookingNumber != Trim(bookingNumber)
    ensures r == Failure(IncorrectResultSize) <==> FindByBookingNumber(table, Trim(bookingNumber)).Ambiguous?
  {
    var found := FindByBookingNumber(table, Trim(bookingNumber));
    assert found.Unique? ==> GetBookings(table)[found.index] == BookingToHotelBookingDetail(table[found.index]);
    DetailOf(table, found)
  }

  /** The record the lookup by number returns once the query found row `i`. */
  lemma FindBookingAt(table: seq<Booking>, bookingNumber: string, i: nat)
    requires FindByBookingNumber(table, Trim(bookingNumber)) == Unique(i)
    ensures FindBooking(table, bookingNumber) == Success(BookingToHotelBookingDetail(table[i]))
  {
  }

  /** The lookup by number depends on the number only through its trimmed
      form, so trimming before the call changes nothing. */
  lemma FindBookingTrimmed(table: seq<Booking>, bookingNumber: string)
    ensures FindBooking(table, Trim(bookingNumber)) == FindBooking(table, bookingNumber)
  {
    TrimIdempotent(bookingNumber);
  }

  /** `cancelBooking(bookingNumber, firstName, lastName)`: the table after the
      owner's booking is set to `CANCELLED`, or the exception. */
  function Cancellation(table: seq<Booking>, bookingNumber: string, firstName: string, lastName: string): (r: Result<seq<Booking>, Error>)
    ensures var found := FindBookingBy(table, bookingNumber, firstName, lastName);
      && (found.Unique? <==> r.Success?)
      && (found.NoMatch? <==> r == Failure(BookingNotFound))
      && (found.Ambiguous? <==> r == Failure(IncorrectResultSize))
      && (found.Unique? ==>
            && |r.value| == |table|
            && r.value[found.index] == table[found.index].(bookingStatus := CANCELLED)
            && forall j :: 0 <= j < |table| && j != found.index ==> r.value[j] == table[j])
  {
    match FindBookingBy(table, bookingNumber, firstName, lastName)
    case Unique(i) => Success(table[i := table[i].(bookingStatus := CANCELLED)])
    case NoMatch => Failure(BookingNotFound)
    case Ambiguous => Failure(IncorrectResultSize)
  }

  /** `changeBookingRoomType(bookingNumber, firstName, lastName, roomType)`:
      the room-type name is parsed first, so a name that is no constant fails
      whatever the table holds; then the owner's booking gets the new room
      type, whatever its status. */
  function RoomTypeChange(table: seq<Booking>, bookingNumber: string, firstName: string, lastName: string, roomType: string): (r: Result<seq<Booking>, Error>)
    ensures RoomTypeValueOf(roomType).None? ==> r == Failure(NoEnumConstant(roomType))
    ensures RoomTypeValueOf(roomType).Some? ==>
      var found := FindBookingBy(table, bookingNumber, firstName, lastName);
      && (found.Unique? <==> r.Success?)
      && (found.NoMatch? <==> r == Failure(BookingNotFound))
      && (found.Ambiguous? <==> r == Failure(IncorrectResultSize))
      && (found.Unique? ==>
            && |r.value| == |table|
            && r.value[found.index] == table[found.index].(roomType := RoomTypeValueOf(roomType).value)
            && forall j :: 0 <= j < |table| && j != found.index ==> r.value[j] == table[j])
  {
    match RoomTypeValueOf(roomType)
    case None => Failure(NoEnumConstant(roomType))
    case Some(updated) =>
      match FindBookingBy(table, bookingNumber, firstName, lastName)
      case Unique(i) => Success(table[i := table[i].(roomType := updated)])
      case NoMatch => Failure(BookingNotFound)
      case Ambiguous => Failure(IncorrectResultSize)
  }

  /** The booking table behind the service, updated in place by the two
      mutating operations (`setBookingStatus`/`setRoomType` on the found row,
      then `save`). */
  class HotelBookingService {
    var bookings: seq<Booking>

    constructor (table: seq<Booking>)
      ensures bookings == table
    {
      bookings := table;
    }

    method CancelBooking(bookingNumber: string, firstName: string, lastName: string) returns (r: Outcome<Error>)
      modifies this
      ensures match Cancellation(old(bookings), bookingNumber, firstName, lastName)
              case Success(table) => r == Pass && bookings == table
              case Failure(e) => r == Fail(e) && bookings == old(bookings)
    {
      var found := FindBookingBy(bookings, bookingNumber, firstName, lastName);
      if !found.Unique? {
        return Fail(LookupError(found));
      }
      var booking := bookings[found.index];
      booking := booking.(bookingStatus := CANCELLED);
      bookings := bookings[found.index := booking];
      r := Pass;
    }

    method ChangeBookingRoomType(bookingNumber: string, firstName: string, lastName: string, roomType: string) returns (r: Outcome<Error>)
      modifies this
      ensures match RoomTypeChange(old(bookings), bookingNumber, firstName, lastName, roomType)
              case Success(table) => r == Pass && bookings == table
              case Failure(e) => r == Fail(e) && bookings == old(bookings)
    {
      var updated := RoomTypeValueOf(roomType);
      if updated.None? {
        return Fail(NoEnumConstant(roomType));
      }
      var found := FindBookingBy(bookings, bookingNumber, firstName, lastName);
      if !found.Unique? {
        return Fail(LookupError(found));
      }
      var booking := bookings[found.index];
      booking := booking.(roomType := updated.value);
      bookings := bookings[found.index := booking];
      r := Pass;
    }
  }

  /** The table a cancellation leaves once the ownership lookup found row `i`. */
  lemma CancellationAt(table: seq<Booking>, bookingNumber: string, firstName: string, lastName: string, i: nat)
    requires FindBookingBy(table, bookingNumber, firstName, lastName) == Unique(i)
    ensures Cancellation(table, bookingNumber, firstName, lastName)
         == Success(table[i := table[i].(bookingStatus := CANCELLED)])
  {
  }

  /** The table a room-type change leaves once the name parsed to `t` and the
      ownership lookup found row `i`. */
  lemma RoomTypeChangeAt(table: seq<Booking>, bookingNumber: string, firstName: string, lastName: string, roomType: string, t: RoomType, i: nat)
    requires RoomTypeValueOf(roomType) == Some(t)
    requires FindBookingBy(table, bookingNumber, firstName, lastName) == Unique(i)
    ensures RoomTypeChange(table, bookingNumber, firstName, lastName, roomType)
         == Success(table[i := table[i].(roomType := t)])
  {
  }

  /** Cancelling again after a successful cancellation succeeds and changes
      nothing: the status write is a constant and the lookup ignores status. */
  lemma CancelIdempotent(table: seq<Booking>, bookingNumber: string, firstName: string, lastName: string)
    requires Cancellation(table, bookingNumber, firstName, lastName).Success?
    ensures var once := Cancellation(table, bookingNumber, firstName, lastName).value;
      Cancellation(once, bookingNumber, firstName, lastName) == Success(once)
  {
    var i := FindBookingBy(table, bookingNumber, firstName, lastName).index;
    var once := Cancellation(table, bookingNumber, firstName, lastName).value;
    assert once == table[i := table[i].(bookingStatus := CANCELLED)];
    LookupsIgnoreOtherFields(table, i, once[i], bookingNumber, firstName, lastName);
    assert FindBookingBy(once, bookingNumber, firstName, lastName) == Unique(i);
    assert once[i := once[i].(bookingStatus := CANCELLED)] == once;
  }

  /** Both mutations keep booking numbers unique. */
  lemma MutationsKeepNumbersUnique(table: seq<Booking>, bookingNumber: string, firstName: string, lastName: string, roomType: string)
    requires UniqueNumbers(table)
    ensures Cancellation(table, bookingNumber, firstName, lastName).Success? ==>
      UniqueNumbers(Cancellation(table, bookingNumber, firstName, lastName).value)
    ensures RoomTypeChange(table, bookingNumber, firstName, lastName, roomType).Success? ==>
      UniqueNumbers(RoomTypeChange(table, bookingNumber, firstName, lastName, roomType).value)
  {
  }

  /** After a successful cancellation, looking the booking up by its number
      (with any spelling that trims to it) reports the same record with status
      `CANCELLED`, provided no other booking carries that number. */
  lemma FindAfterCancel(table: seq<Booking>, bookingNumber: string, firstName: string, lastName: string, asked: string)
    requires !FindByBookingNumber(table, bookingNumber).Ambiguous?
    requires Cancellation(table, bookingNumber, firstName, lastName).Success?
    requires Trim(asked) == bookingNumber
    ensures FindBooking(table, asked).Success?
    ensures var after := Cancellation(table, bookingNumber, firstName, lastName).value;
      && FindBooking(after, asked).Success?
      && FindBooking(after, asked).value == FindBooking(table, asked).value.(bookingStatus := CANCELLED)
  {
    var i := FindBookingBy(table, bookingNumber, firstName, lastName).index;
    var b := table[i];
    var after := table[i := b.(bookingStatus := CANCELLED)];
    CancellationAt(table, bookingNumber, firstName, lastName, i);
    NumberLookupFindsOwnedRow(table, bookingNumber, firstName, lastName);
    LookupsIgnoreOtherFields(table, i, after[i], bookingNumber, firstName, lastName);
    FindBookingAt(table, asked, i);
    FindBookingAt(after, asked, i);
    MappingAfterStatusChange(b, CANCELLED);
  }

  /** After a successful room-type change, looking the booking up by its
      number reports the new room type and nothing else changed, provided no
      other booking carries that number. */
  lemma FindAfterRoomTypeChange(table: seq<Booking>, bookingNumber: string, firstName: string, lastName: string, roomType: string, asked: string)
    requires !FindByBookingNumber(table, bookingNumber).Ambiguous?
    requires RoomTypeChange(table, bookingNumber, firstName, lastName, roomType).Success?
    requires Trim(asked) == bookingNumber
    ensures FindBooking(table, asked).Success?
    ensures var after := RoomTypeChange(table, bookingNumber, firstName, lastName, roomType).value;
      && FindBooking(after, asked).Success?
      && FindBooking(after, asked).value
         == FindBooking(table, asked).value.(roomType := RoomTypeValueOf(roomType).value)
  {
    var i := FindBookingBy(table, bookingNumber, firstName, lastName).index;
    var t := RoomTypeValueOf(roomType).value;
    var b := table[i];
    var after := table[i := b.(roomType := t)];
    RoomTypeChangeAt(table, bookingNumber, firstName, lastName, roomType, t, i);
    NumberLookupFindsOwnedRow(table, bookingNumber, firstName, lastName);
    LookupsIgnoreOtherFields(table, i, after[i], bookingNumber, firstName, lastName);
    FindBookingAt(table, asked, i);
    FindBookingAt(after, asked, i);
    MappingAfterRoomTypeChange(b, t);
  }

  /** No status check guards a room-type change: a cancelled booking still
      gets the new room type and stays cancelled. */
  lemma CancelledBookingRoomTypeStillChanges(table: seq<Booking>, bookingNumber: string, firstName: string, lastName: string, roomType: string)
    requires Cancellation(table, bookingNumber, firstName, lastName).Success?
    requires RoomTypeValueOf(roomType).Some?
    ensures var cancelled := Cancellation(table, bookingNumber, firstName, lastName).value;
      var i := FindBookingBy(table, bookingNumber, firstName, lastName).index;
      && RoomTypeChange(cancelled, bookingNumber, firstName, lastName, roomType).Success?
      && RoomTypeChange(cancelled, bookingNumber, firstName, lastName, roomType).value[i].roomType == RoomTypeValueOf(roomType).value
      && RoomTypeChange(cancelled, bookingNumber, firstName, lastName, roomType).value[i].bookingStatus == CANCELLED
  {
    var i := FindBookingBy(table, bookingNumber, firstName, lastName).index;
    var cancelled := Cancellation(table, bookingNumber, firstName, lastName).value;
    LookupsIgnoreOtherFields(table, i, cancelled[i], bookingNumber, firstName, lastName);
    assert cancelled == table[i := cancelled[i]];
  }

  /** Cancelling and changing the room type of the same booking commute. */
  lemma CancelAndRoomTypeChangeCommute(table: seq<Booking>, bookingNumber: string, firstName: string, lastName: string, roomType: string)
    requires Cancellation(table, bookingNumber, firstName, lastName).Success?
    requires RoomTypeValueOf(roomType).Some?
    ensures var cancelled := Cancellation(table, bookingNumber, firstName, lastName).value;
      var changed := RoomTypeChange(table, bookingNumber, firstName, lastName, roomType).value;
      && RoomTypeChange(table, bookingNumber, firstName, lastName, roomType).Success?
      && RoomTypeChange(cancelled, bookingNumber, firstName, lastName, roomType)
         == Cancellation(changed, bookingNumber, firstName, lastName)
  {
    var i := FindBookingBy(table, bookingNumber, firstName, lastName).index;
    var t := RoomTypeValueOf(roomType).value;
    var b := table[i];
    var cancelled := table[i := b.(bookingStatus := CANCELLED)];
    var changed := table[i := b.(roomType := t)];
    CancellationAt(table, bookingNumber, firstName, lastName, i);
    RoomTypeChangeAt(table, bookingNumber, firstName, lastName, roomType, t, i);
    LookupsIgnoreOtherFields(table, i, cancelled[i], bookingNumber, firstName, lastName);
    LookupsIgnoreOtherFields(table, i, changed[i], bookingNumber, firstName, lastName);
    RoomTypeChangeAt(cancelled, bookingNumber, firstName, lastName, roomType, t, i);
    CancellationAt(changed, bookingNumber, firstName, lastName, i);
    assert cancelled[i := cancelled[i].(roomType := t)] == changed[i := changed[i].(bookingStatus := CANCELLED)];
  }

  /** The listing after a cancellation differs from the one before only in
      the cancelled booking's status. */
  lemma ListingAfterCancel(table: seq<Booking>, bookingNumber: string, firstName: string, lastName: string)
    requires Cancellation(table, bookingNumber, firstName, lastName).Success?
    ensures var i := FindBookingBy(table, bookingNumber, firstName, lastName).index;
      GetBookings(Cancellation(table, bookingNumber, firstName, lastName).value)
      == GetBookings(table)[i := GetBookings(table)[i].(bookingStatus := CANCELLED)]
  {
  }
}
