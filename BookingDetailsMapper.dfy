/** The entity-to-record projection: the customer's two names are lifted to
    the top level, every other field is copied under its own name. */
module BookingDetailsMapper {
  import opened Domain

  function BookingToHotelBookingDetail(b: Booking): (d: HotelBookingDetail)
    ensures d.firstName == b.customer.firstName && d.lastName == b.customer.lastName
    ensures d.bookingNumber == b.bookingNumber && d.hotelName == b.hotelName
    ensures d.checkInDate == b.checkInDate && d.checkOutDate == b.checkOutDate
    ensures d.roomType == b.roomType && d.numberOfGuests == b.numberOfGuests
    ensures d.bookingStatus == b.bookingStatus
  {
    HotelBookingDetail(
      bookingNumber := b.bookingNumber,
      firstName := b.customer.firstName,
      lastName := b.customer.lastName,
      checkInDate := b.checkInDate,
      checkOutDate := b.checkOutDate,
      bookingStatus := b.bookingStatus,
      hotelName := b.hotelName,
      roomType := b.roomType,
      numberOfGuests := b.numberOfGuests)
  }

  /** The booking a detail record was projected from (the inverse mapping). */
  function HotelBookingDetailToBooking(d: HotelBookingDetail): Booking {
    Booking(
      hotelName := d.hotelName,
      bookingNumber := d.bookingNumber,
      checkInDate := d.checkInDate,
      checkOutDate := d.checkOutDate,
      customer := Customer(d.firstName, d.lastName),
      roomType := d.roomType,
      numberOfGuests := d.numberOfGuests,
      bookingStatus := d.bookingStatus)
  }

  /** The projection loses nothing of the modelled booking ... */
  lemma DetailRoundTrip(b: Booking)
    ensures HotelBookingDetailToBooking(BookingToHotelBookingDetail(b)) == b
  {
  }

  /** ... and every detail record is the projection of some booking. */
  lemma BookingRoundTrip(d: HotelBookingDetail)
    ensures BookingToHotelBookingDetail(HotelBookingDetailToBooking(d)) == d
  {
  }

  /** So distinct bookings give distinct records. */
  lemma MappingInjective(a: Booking, b: Booking)
    ensures BookingToHotelBookingDetail(a) == BookingToHotelBookingDetail(b) ==> a == b
  {
    DetailRoundTrip(a);
    DetailRoundTrip(b);
  }

  /** Mapping commutes with a status change: the record of a cancelled booking
      is the old record with status `CANCELLED`. */
  lemma MappingAfterStatusChange(b: Booking, s: BookingStatus)
    ensures BookingToHotelBookingDetail(b.(bookingStatus := s))
         == BookingToHotelBookingDetail(b).(bookingStatus := s)
  {
  }

  /** Mapping commutes with a room-type change in the same way. */
  lemma MappingAfterRoomTypeChange(b: Booking, t: RoomType)
    ensures BookingToHotelBookingDetail(b.(roomType := t))
         == BookingToHotelBookingDetail(b).(roomType := t)
  {
  }
}
