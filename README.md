# Hotel booking store: a Dafny model

This project models the booking core of a hotel customer-support assistant. The core is a table
of bookings that a chat assistant reaches through three named tools. It has these parts:

- **Repository queries** (module `BookingRepository`). There are two single-result queries over
  the table. The ownership query matches the booking number exactly and compares the customer's
  first and last name through `upper()`. The number query uses the booking number alone.
- **Service** (module `BookingService`). It offers lookup by number (the number is trimmed), the
  listing of all bookings, and two mutations. Cancelling sets the status to `CANCELLED`. Changing
  the room type parses the name against the `RoomType` constants first, then sets the room type.
  Both mutations find the booking through the ownership query and throw "Booking not found" when
  nothing matches. The lookups and both mutations' effects are functions of the table. The class
  `HotelBookingService` holds the table and updates it in place. Its methods are proved to leave
  exactly the table that those functions describe, or to throw the same exception and leave the
  table unchanged.
- **Detail mapper** (module `BookingDetailsMapper`). It turns a booking into the flat record
  that the UI and the find tool return. The customer's two names move to the top level. The
  mapping is proved to be invertible on the modelled fields.
- **Tool table** (module `BookingToolsConfig`). It holds the three tool names in a fixed order,
  binds each name to one tool, and defines the tool functions. Only the find tool trims its
  argument. No tool catches the service's exceptions. The two mutating tools answer `""` on
  success.
- **Supporting modules.** `Domain` holds the entities and enums. `JavaText` models
  `String.trim()` and `upper()`. `Wrappers` holds Option, Result and Outcome, which stand for
  an empty `Optional`, a thrown exception and a `void` call.

A single-result query that matches several rows fails. The model gives this failure its own error,
`IncorrectResultSize`. The code never makes booking numbers unique. `UniqueNumbers` states that
property. Both mutations preserve it, and under it neither query can be ambiguous.

Behaviour of the code that the model keeps as written:
- A room-type change has no status check, so a cancelled booking still gets its new room type.
- The ownership path never trims. The find path trims, and the find tool trims once more.
- Room-type names are case-sensitive, because `RoomType.valueOf` accepts only the exact constant name.
- The room-type name is parsed before any lookup. An invalid name therefore fails even when no
  booking matches.
- No tool checks for empty arguments or rewrites an error. Every exception reaches the caller unchanged.

## Model

| member | source | states |
|---|---|---|
| JavaText.Trim | src/main/java/rs/siriusxi/hbca/service/HotelBookingService.java:64 | `trim()` never lengthens a string, and what it returns neither starts nor ends with a character at most U+0020 |
| JavaText.TrimKeepsInfix | src/main/java/rs/siriusxi/hbca/service/HotelBookingService.java:64 | `trim()` keeps an infix of its argument; every character it cuts off at either end is at most U+0020 |
| JavaText.TrimFixedPoint | src/main/java/rs/siriusxi/hbca/service/HotelBookingService.java:64 | `trim()` leaves a string unchanged if and only if it is empty or neither end character is at most U+0020 |
| JavaText.TrimIdempotent | src/main/java/rs/siriusxi/hbca/config/BookingToolsConfig.java:70-72 | trimming an already trimmed number changes nothing |
| JavaText.Upper | src/main/java/rs/siriusxi/hbca/repository/BookingRepository.java:30-31 | `upper()` keeps the length, turns each lower-case ASCII letter into its own capital and keeps every other character |
| JavaText.UpperIdempotent | src/main/java/rs/siriusxi/hbca/repository/BookingRepository.java:30-31 | upper-casing twice is upper-casing once |
| JavaText.UpperEqualIff | src/main/java/rs/siriusxi/hbca/repository/BookingRepository.java:30-31 | two strings are equal after `upper()` if and only if they have the same length and agree at each position up to the case of an ASCII letter |
| Domain.RoomTypeName | src/main/java/rs/siriusxi/hbca/service/HotelBookingService.java:88 | every room-type constant name (the assumed SINGLE, DOUBLE, SUITE) is a non-empty run of upper-case letters |
| Domain.RoomTypeNamesDistinct | src/main/java/rs/siriusxi/hbca/service/HotelBookingService.java:88 | no two room-type constants share a name |
| Domain.RoomTypeValueOf | src/main/java/rs/siriusxi/hbca/service/HotelBookingService.java:88 | `RoomType.valueOf` yields the constant whose name is exactly the argument, and fails when no constant has that name |
| Domain.ValueOfName | src/main/java/rs/siriusxi/hbca/service/HotelBookingService.java:88 | `valueOf` of a constant's name gives that constant back |
| Domain.ValueOfIsCaseSensitive | src/main/java/rs/siriusxi/hbca/service/HotelBookingService.java:88 | a constant's name with a leading blank is refused, and so is any spelling holding a lower-case letter (given the upper-case constants) |
| BookingDetailsMapper.BookingToHotelBookingDetail | src/main/java/rs/siriusxi/hbca/service/mapper/BookingDetailsMapper.java:34-36 | the record's first and last name are the customer's; every other field is the booking's same-named field |
| BookingDetailsMapper.DetailRoundTrip | src/main/java/rs/siriusxi/hbca/service/mapper/BookingDetailsMapper.java:34-36 | the booking can be rebuilt from its record, so the projection loses no modelled field |
| BookingDetailsMapper.BookingRoundTrip | src/main/java/rs/siriusxi/hbca/service/mapper/BookingDetailsMapper.java:34-36 | every record is the projection of the booking rebuilt from it |
| BookingDetailsMapper.MappingInjective | src/main/java/rs/siriusxi/hbca/service/mapper/BookingDetailsMapper.java:34-36 | distinct bookings give distinct records |
| BookingDetailsMapper.MappingAfterStatusChange | src/main/java/rs/siriusxi/hbca/service/mapper/BookingDetailsMapper.java:36 | the record of a booking with a new status is the old record with that status |
| BookingDetailsMapper.MappingAfterRoomTypeChange | src/main/java/rs/siriusxi/hbca/service/mapper/BookingDetailsMapper.java:36 | the record of a booking with a new room type is the old record with that room type |
| BookingRepository.MatchingIndices | src/main/java/rs/siriusxi/hbca/repository/BookingRepository.java:27-37 | a query's matching rows are exactly the listed positions, in ascending table order |
| BookingRepository.Select | src/main/java/rs/siriusxi/hbca/repository/BookingRepository.java:33-37 | a single-result query finds nothing exactly when no row matches, finds row i only when i is the one matching row, and is ambiguous only when two rows match |
| BookingRepository.OwnedBy | src/main/java/rs/siriusxi/hbca/repository/BookingRepository.java:29-31 | a row matches the ownership query if and only if its booking number equals the given one exactly and both customer names equal the given ones up to ASCII case |
| BookingRepository.FindBookingBy | src/main/java/rs/siriusxi/hbca/repository/BookingRepository.java:27-35 | the ownership query finds nothing exactly when no row has the number and both names equal after `upper()`; a found row meets all three conditions and no other row does |
| BookingRepository.FindByBookingNumber | src/main/java/rs/siriusxi/hbca/repository/BookingRepository.java:37 | the number query selects on the booking number alone, with the same no-match, unique and ambiguous cases |
| BookingRepository.OwnershipRefinesNumberLookup | src/main/java/rs/siriusxi/hbca/repository/BookingRepository.java:27-37 | with unique numbers neither query is ambiguous, and an ownership match is the row the number query finds |
| BookingRepository.NumberLookupFindsOwnedRow | src/main/java/rs/siriusxi/hbca/repository/BookingRepository.java:27-37 | when no other row carries the number, the number query finds the row the ownership query found |
| BookingRepository.SelectAgrees | src/main/java/rs/siriusxi/hbca/repository/BookingRepository.java:27-37 | two queries whose conditions agree row by row give the same answer |
| BookingRepository.LookupsIgnoreOtherFields | src/main/java/rs/siriusxi/hbca/repository/BookingRepository.java:27-37 | overwriting a row with one of the same number and customer changes neither query's answer |
| BookingRepository.OwnershipIgnoresNameCase | src/main/java/rs/siriusxi/hbca/repository/BookingRepository.java:30-31 | names that agree after `upper()` find the same booking |
| BookingService.LookupError | src/main/java/rs/siriusxi/hbca/service/HotelBookingService.java:50-54 | a failed lookup becomes "Booking not found" exactly when nothing matched, and the incorrect-result-size exception exactly when several rows matched |
| BookingService.GetBookings | src/main/java/rs/siriusxi/hbca/service/HotelBookingService.java:72-77 | one record per stored booking, in table order, each the mapped booking |
| BookingService.DetailOf | src/main/java/rs/siriusxi/hbca/service/HotelBookingService.java:63-66 | a found booking is returned as its record; otherwise the lookup's exception is thrown |
| BookingService.FindBooking | src/main/java/rs/siriusxi/hbca/service/HotelBookingService.java:59-70 | the lookup succeeds exactly when one booking has the trimmed number; its record carries that number and is one of the listed records; "Booking not found" exactly when no booking has it; the incorrect-result-size exception exactly when several do |
| BookingService.FindBookingTrimmed | src/main/java/rs/siriusxi/hbca/service/HotelBookingService.java:64 | calling the lookup with an already trimmed number gives the same answer |
| BookingService.Cancellation | src/main/java/rs/siriusxi/hbca/service/HotelBookingService.java:79-84 | cancel succeeds exactly when the ownership query finds one booking; that booking alone changes, only in its status, to CANCELLED; "Booking not found" exactly when nothing matches; the incorrect-result-size exception exactly when several match |
| BookingService.RoomTypeChange | src/main/java/rs/siriusxi/hbca/service/HotelBookingService.java:86-92 | a name that is no constant fails before any lookup; otherwise the found booking alone changes, only in its room type, whatever its status; "Booking not found" when nothing matches and the incorrect-result-size exception when several do |
| BookingService.HotelBookingService.constructor | src/main/java/rs/siriusxi/hbca/service/HotelBookingService.java:42-45 | the service starts with the given booking table |
| BookingService.HotelBookingService.CancelBooking | src/main/java/rs/siriusxi/hbca/service/HotelBookingService.java:79-84 | the new table is the one `Cancellation` gives; on an exception the table is unchanged |
| BookingService.HotelBookingService.ChangeBookingRoomType | src/main/java/rs/siriusxi/hbca/service/HotelBookingService.java:86-92 | the new table is the one `RoomTypeChange` gives; on an exception the table is unchanged |
| BookingService.CancelIdempotent | src/main/java/rs/siriusxi/hbca/service/HotelBookingService.java:82 | cancelling again after a successful cancellation succeeds and leaves the same table |
| BookingService.MutationsKeepNumbersUnique | src/main/java/rs/siriusxi/hbca/service/HotelBookingService.java:79-92 | neither mutation makes two bookings share a number |
| BookingService.FindAfterCancel | src/main/java/rs/siriusxi/hbca/service/HotelBookingService.java:79-84 | when no other booking carries the number, after a cancellation the lookup by number reports the old record with status CANCELLED |
| BookingService.FindAfterRoomTypeChange | src/main/java/rs/siriusxi/hbca/service/HotelBookingService.java:86-92 | when no other booking carries the number, after a room-type change the lookup by number reports the old record with the new room type |
| BookingService.CancelledBookingRoomTypeStillChanges | src/main/java/rs/siriusxi/hbca/service/HotelBookingService.java:86-92 | a cancelled booking's room type is still changed, and the booking stays cancelled |
| BookingService.CancelAndRoomTypeChangeCommute | src/main/java/rs/siriusxi/hbca/service/HotelBookingService.java:79-92 | cancelling then changing the room type gives the same table as changing then cancelling |
| BookingService.ListingAfterCancel | src/main/java/rs/siriusxi/hbca/service/HotelBookingService.java:72-84 | after a cancellation the listing differs only in the cancelled booking's status |
| BookingToolsConfig.AiToolsNames | src/main/java/rs/siriusxi/hbca/config/BookingToolsConfig.java:47-53 | the tool names are findBooking, cancelBooking and changeBookingRoomType, in that order and all distinct |
| BookingToolsConfig.ToolName | src/main/java/rs/siriusxi/hbca/config/BookingToolsConfig.java:67-85 | each tool function is registered under its own bean name: find under "findBooking", cancel under "cancelBooking", room-type change under "changeBookingRoomType", and no other tool under any of these |
| BookingToolsConfig.ToolNamed | src/main/java/rs/siriusxi/hbca/config/BookingToolsConfig.java:67-85 | a name resolves to the tool registered under it, or to none when no tool has that name |
| BookingToolsConfig.ToolTableIsClosed | src/main/java/rs/siriusxi/hbca/config/BookingToolsConfig.java:51-85 | every listed name resolves to a tool; every tool is listed and is the only one under its name |
| BookingToolsConfig.FindBookingTool | src/main/java/rs/siriusxi/hbca/config/BookingToolsConfig.java:67-73 | the find tool's answer is that of one service lookup with the untrimmed number |
| BookingToolsConfig.CancelBookingTool | src/main/java/rs/siriusxi/hbca/config/BookingToolsConfig.java:75-83 | forwards the untrimmed fields; answers "" with the cancelled table, or the service's exception with the table unchanged |
| BookingToolsConfig.ChangeBookingRoomTypeTool | src/main/java/rs/siriusxi/hbca/config/BookingToolsConfig.java:85-93 | forwards all four fields untrimmed; answers "" with the changed table, or the service's exception with the table unchanged |
| BookingToolsConfig.SampleOnlyFindTrims | src/main/java/rs/siriusxi/hbca/config/BookingToolsConfig.java:70-82 | for booking "101", lookup of " 101 " succeeds, but cancelling " 101 " fails with "Booking not found" |
| BookingToolsConfig.SampleOwnershipAndRoomType | src/main/java/rs/siriusxi/hbca/repository/BookingRepository.java:29-31 | for Jack Bauer's booking, "JACK"/"bauer" cancels, "Jack"/"Palmer" is not found, and the SUITE name with a leading blank is refused before any lookup |

## Left out

- Persistence. `Booking` as given carries no `@Entity` or `@Id` annotation (only `@Data @Builder @AllArgsConstructor`), although `BookingRepository` declares `JpaRepository<Booking, Long>` and `Customer` maps `@OneToMany(mappedBy = "customer")` onto it, so the persistence mapping as written could not start; the model treats `Booking` as the stored row regardless. JPA, `@Transactional` boundaries, durability and concurrent access are not modelled. `save` is the write-back of the changed booking into the table.
- Aliasing. The service changes the found booking object in place and then saves it. The model copies the booking value, changes one field and stores it back at the same position. Other holders of the same object are not modelled.
- Ordering. `findAll()` promises no order. The model lists bookings in table order.
- Logging. The `log.info` calls in the lookup are left out.
- Customer identity. The model keeps only the customer's first and last name. The surrogate `id` and the `bookings` back-reference are left out; no modelled operation reads them.
- Null. Every reference in the model is non-null. In Java a booking number or room-type name can be null, and `trim()` or `valueOf` then throw a NullPointerException. A booking's customer can also be null. The ownership query then skips that row, because the path to the customer's names is an inner join. The mapper then gives a record with null names. None of this is modelled.
- JavaText.Upper: models ASCII upper-casing only. A database `upper()` also folds non-ASCII letters.
- Domain.RoomTypeValueOf: the `RoomType` enum is not part of this model. Its constants are taken to be SINGLE, DOUBLE and SUITE, in upper case like the status constants. Under that assumption a mixed-case name such as "Suite" is refused.
- Domain.BookingStatus: the enum is not part of this model. Only the two constants the code names, CONFIRMED and CANCELLED, are modelled.
- Guest count width. `numberOfGuests` is a Java `int` and is only ever copied, so it is modelled as `int` with no width.
- Dates. `LocalDate` values are kept as year, month and day triples, and nothing checks that they are valid dates. The core only copies them.
- The tool framework. JSON binding of tool arguments, discovery of the tool beans, and what the chat client does with a thrown exception are not modelled. The resolution of a tool by its bean name is modelled as `ToolNamed`.
- Everything outside the booking core is left out: the chat client and its memory, retrieval and embeddings, streaming, tracing, security, the UI, a stale duplicate tool configuration that does not compile (it registers a second bean named `cancelBooking` and calls a service method that does not exist; the tool table modelled here is the one in `BookingToolsConfig` alone), the unused twin detail record, and the in-memory `HotelBookingRepository` lists.
