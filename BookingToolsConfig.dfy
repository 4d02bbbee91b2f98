/** The assistant's tool table: three fixed tool names, each bound to one
    function that forwards its request to the booking service. Only the find
    tool trims its argument; none of them catches the service's exceptions,
    and the two mutating tools answer "" on success. */
module BookingToolsConfig {
  import opened Wrappers
  import opened Domain
  import opened JavaText
  import opened BookingRepository
  import opened BookingService

  const FIND_BOOKING_TOOL: string := "findBooking"
  const CANCEL_BOOKING_TOOL: string := "cancelBooking"
  const CHANGE_BOOKING_ROOM_TYPE_TOOL: string := "changeBookingRoomType"

  /** `aiToolsNames()`: the names the chat client is given, in this order. */
  function AiToolsNames(): (r: seq<string>)
    ensures |r| == 3
    ensures forall i, j :: 0 <= i < j < |r| ==> r[i] != r[j]
    ensures r[0] == FIND_BOOKING_TOOL && r[1] == CANCEL_BOOKING_TOOL && r[2] == CHANGE_BOOKING_ROOM_TYPE_TOOL
  {
    [FIND_BOOKING_TOOL, CANCEL_BOOKING_TOOL, CHANGE_BOOKING_ROOM_TYPE_TOOL]
  }

  /** The three tool functions declared as beans. */
  datatype Tool = Find | Cancel | ChangeRoomType

  /** The bean name each tool function is registered under. */
  function ToolName(t: Tool): (name: string)
    ensures name in AiToolsNames()
    ensures t == Find <==> name == FIND_BOOKING_TOOL
    ensures t == Cancel <==> name == CANCEL_BOOKING_TOOL
    ensures t == ChangeRoomType <==> name == CHANGE_BOOKING_ROOM_TYPE_TOOL
  {
    match t
    case Find => FIND_BOOKING_TOOL
    case Cancel => CANCEL_BOOKING_TOOL
    case ChangeRoomType => CHANGE_BOOKING_ROOM_TYPE_TOOL
  }

  /** Resolving a tool by name: the bean registered under that name, if any. */
  function ToolNamed(name: string): (r: Option<Tool>)
    ensures r.Some? ==> ToolName(r.value) == name
    ensures r.None? ==> forall t :: ToolName(t) != name
  {
    if name == FIND_BOOKING_TOOL then Some(Find)
    else if name == CANCEL_BOOKING_TOOL then Some(Cancel)
    else if name == CHANGE_BOOKING_ROOM_TYPE_TOOL then Some(ChangeRoomType)
    else None
  }

  /** Every listed name resolves to exactly one tool, every tool is listed
      exactly once, and resolving a tool's own name gives that tool back. */
  lemma ToolTableIsClosed(t: Tool)
    ensures ToolNamed(ToolName(t)) == Some(t)
    ensures ToolName(t) in AiToolsNames()
    ensures forall name :: name in AiToolsNames() ==> ToolNamed(name).Some?
    ensures forall u :: ToolName(u) == ToolName(t) ==> u == t
  {
  }

  datatype FindBookingRequest = FindBookingRequest(bookingNumber: string)
  datatype CancelBookingRequest = CancelBookingRequest(bookingNumber: string, firstName: string, lastName: string)
  datatype ChangeRoomTypeRequest = ChangeRoomTypeRequest(bookingNumber: string, firstName: string, lastName: string, roomType: string)

  /** The `findBooking` tool: trims the number and asks the service, which
      trims again; the result is that of one call to the service. */
  function FindBookingTool(service: HotelBookingService, request: FindBookingRequest): (r: Result<HotelBookingDetail, Error>)
    reads service
    ensures r == FindBooking(service.bookings, request.bookingNumber)
  {
    FindBookingTrimmed(service.bookings, request.bookingNumber);
    FindBooking(service.bookings, Trim(request.bookingNumber))
  }

  /** The `cancelBooking` tool: forwards the three fields as given. */
  method CancelBookingTool(service: HotelBookingService, request: CancelBookingRequest) returns (r: Result<string, Error>)
    modifies service
    ensures match Cancellation(old(service.bookings), request.bookingNumber, request.firstName, request.lastName)
            case Success(table) => r == Success("") && service.bookings == table
            case Failure(e) => r == Failure(e) && service.bookings == old(service.bookings)
  {
    var outcome := service.CancelBooking(request.bookingNumber, request.firstName, request.lastName);
    if outcome.Fail? {
      return Failure(outcome.error);
    }
    r := Success("");
  }

  /** The `changeBookingRoomType` tool: forwards the four fields as given. */
  method ChangeBookingRoomTypeTool(service: HotelBookingService, request: ChangeRoomTypeRequest) returns (r: Result<string, Error>)
    modifies service
    ensures match RoomTypeChange(old(service.bookings), request.bookingNumber, request.firstName, request.lastName, request.roomType)
            case Success(table) => r == Success("") && service.bookings == table
            case Failure(e) => r == Failure(e) && service.bookings == old(service.bookings)
  {
    var outcome := service.ChangeBookingRoomType(request.bookingNumber, request.firstName, request.lastName, request.roomType);
    if outcome.Fail? {
      return Failure(outcome.error);
    }
    r := Success("");
  }

  /** One booking, "101", owned by Jack Bauer. */
  function SampleTable(): seq<Booking> {
    [Booking("Great Hotel", "101", LocalDate(2025, 6, 1), LocalDate(2025, 6, 5),
             Customer("Jack", "Bauer"), DOUBLE, 2, CONFIRMED)]
  }

  /** On the sample table the find path trims the number, the ownership path
      does not. */
  lemma SampleOnlyFindTrims()
    ensures FindBooking(SampleTable(), " 101 ").Success?
    ensures Cancellation(SampleTable(), " 101 ", "Jack", "Bauer") == Failure(BookingNotFound)
  {
    var padded := " 101 ";
    assert padded[1..] == "101 ";
    assert KeptStart(padded) == 1;
    assert KeptEnd(padded, 1, 5) == 4;
    assert Trim(padded) == "101";
    assert FindByBookingNumber(SampleTable(), "101") == Unique(0);
    assert padded[0] != "101"[0];
    assert !OwnedBy(SampleTable()[0], padded, "Jack", "Bauer");
  }

  /** On the sample table names match whatever their case, other names do
      not, and a room-type name with a leading blank is refused before any
      lookup. */
  lemma SampleOwnershipAndRoomType()
    ensures Cancellation(SampleTable(), "101", "JACK", "bauer").Success?
    ensures Cancellation(SampleTable(), "101", "Jack", "Palmer") == Failure(BookingNotFound)
    ensures RoomTypeChange(SampleTable(), "101", "Jack", "Bauer", " " + RoomTypeName(SUITE)) == Failure(NoEnumConstant(" " + RoomTypeName(SUITE)))
  {
    var t := SampleTable();
    assert Upper("JACK") == "JACK" == Upper("Jack");
    assert Upper("bauer") == "BAUER" == Upper("Bauer");
    assert OwnedBy(t[0], "101", "JACK", "bauer");
    assert Upper("Palmer")[0] != Upper("Bauer")[0];
    assert !OwnedBy(t[0], "101", "Jack", "Palmer");
    ValueOfIsCaseSensitive(SUITE, "", 0);
  }

  /** The end-to-end path through the tools: cancel booking "101" as its
      owner, then find it: it is reported cancelled, its room type unchanged. */
  method CancelThenFindScenario() {
    var table := SampleTable();
    var service := new HotelBookingService(table);
    assert Upper("Jack") == "JACK" && Upper("Bauer") == "BAUER";
    assert FindBookingBy(table, "101", "Jack", "Bauer") == Unique(0);
    var cancelled := CancelBookingTool(service, CancelBookingRequest("101", "Jack", "Bauer"));
    assert cancelled == Success("");
    assert Trim("101") == "101" by { TrimFixedPoint("101"); }
    FindAfterCancel(table, "101", "Jack", "Bauer", "101");
    var found := FindBookingTool(service, FindBookingRequest("101"));
    assert found.value == FindBooking(table, "101").value.(bookingStatus := CANCELLED);
    assert found.value.bookingStatus == CANCELLED && found.value.roomType == DOUBLE;
  }
}
