/** The booking entity, its customer, the two enums it uses and the detail
    record the UI and the assistant's tools receive. */
module Domain {
  import opened Wrappers

  /** `java.time.LocalDate`, kept as its three fields; the core never computes with dates. */
  datatype LocalDate = LocalDate(year: int, month: int, day: int)

  /** Booking status; the two constants the core and its views name. */
  datatype BookingStatus = CONFIRMED | CANCELLED

  /** Room type; the constant names are the ones `RoomType.valueOf` accepts. */
  datatype RoomType = SINGLE | DOUBLE | SUITE

  /** `Enum.name()` of a room type. */
  function RoomTypeName(t: RoomType): (name: string)
    ensures |name| > 0 && forall i :: 0 <= i < |name| ==> 'A' <= name[i] <= 'Z'
  {
    match t
    case SINGLE => "SINGLE"
    case DOUBLE => "DOUBLE"
    case SUITE => "SUITE"
  }

  /** `RoomType.valueOf(name)`: the constant whose name is exactly `name`
      (case and whitespace included), or nothing, where Java throws. */
  function RoomTypeValueOf(name: string): (r: Option<RoomType>)
    ensures r.Some? ==> RoomTypeName(r.value) == name
    ensures r.None? ==> forall t :: RoomTypeName(t) != name
  {
    if name == "SINGLE" then Some(SINGLE)
    else if name == "DOUBLE" then Some(DOUBLE)
    else if name == "SUITE" then Some(SUITE)
    else None
  }

  /** No two constants share a name. */
  lemma RoomTypeNamesDistinct(t: RoomType, u: RoomType)
    ensures RoomTypeName(t) == RoomTypeName(u) ==> t == u
  {
  }

  /** `valueOf` undoes `name()`. */
  lemma ValueOfName(t: RoomType)
    ensures RoomTypeValueOf(RoomTypeName(t)) == Some(t)
  {
  }

  /** `valueOf` matches names exactly: a constant's name with a leading blank
      is refused, and so is any spelling holding a lower-case letter. */
  lemma ValueOfIsCaseSensitive(t: RoomType, s: string, i: nat)
    ensures RoomTypeValueOf(" " + RoomTypeName(t)) == None
    ensures i < |s| && 'a' <= s[i] <= 'z' ==> RoomTypeValueOf(s) == None
  {
    var padded := " " + RoomTypeName(t);
    forall u: RoomType
      ensures RoomTypeName(u) != padded
    {
      assert padded[0] == ' ';
    }
    if i < |s| && 'a' <= s[i] <= 'z' {
      forall u: RoomType
        ensures RoomTypeName(u) != s
      {
        var name := RoomTypeName(u);
        assert |name| != |s| || name[i] != s[i];
      }
    }
  }

  /** The customer who owns a booking, by the two names the ownership check uses. */
  datatype Customer = Customer(firstName: string, lastName: string)

  /** A booking row. */
  datatype Booking = Booking(
    hotelName: string,
    bookingNumber: string,
    checkInDate: LocalDate,
    checkOutDate: LocalDate,
    customer: Customer,
    roomType: RoomType,
    numberOfGuests: int,
    bookingStatus: BookingStatus)

  /** The flat record handed to the UI grid and returned by the find tool. */
  datatype HotelBookingDetail = HotelBookingDetail(
    bookingNumber: string,
    firstName: string,
    lastName: string,
    checkInDate: LocalDate,
    checkOutDate: LocalDate,
    bookingStatus: BookingStatus,
    hotelName: string,
    roomType: RoomType,
    numberOfGuests: int)
}
