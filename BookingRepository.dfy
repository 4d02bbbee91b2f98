/** The repository's two single-result queries as functions over the booking
    table. A query declared to return an `Optional` yields nothing on no row,
    the row on exactly one, and fails with an incorrect-result-size error
    when several rows match. */
module BookingRepository {
  import opened Domain
  import opened JavaText

  /** What a single-result query over the table finds. */
  datatype Lookup = NoMatch | Unique(index: nat) | Ambiguous

  /** The positions of the rows satisfying `p`, in table order. */
  function MatchingIndices(table: seq<Booking>, p: Booking -> bool): (r: seq<nat>)
    ensures forall k :: 0 <= k < |r| ==> r[k] < |table| && p(table[r[k]])
    ensures forall i :: 0 <= i < |table| && p(table[i]) ==> i in r
    ensures forall k, m :: 0 <= k < m < |r| ==> r[k] < r[m]
    decreases |table|
  {
    if table == [] then []
    else
      var rest := MatchingIndices(table[..|table| - 1], p);
      if p(table[|table| - 1]) then rest + [|table| - 1] else rest
  }

  /** A single-result query selecting the rows that satisfy `p`. */
  function Select(table: seq<Booking>, p: Booking -> bool): (r: Lookup)
    ensures r.NoMatch? <==> forall i :: 0 <= i < |table| ==> !p(table[i])
    ensures r.Unique? ==>
      && r.index < |table| && p(table[r.index])
      && forall j :: 0 <= j < |table| && j != r.index ==> !p(table[j])
    ensures r.Ambiguous? ==>
      exists i, j :: 0 <= i < j < |table| && p(table[i]) && p(table[j])
  {
    var found := MatchingIndices(table, p);
    if |found| == 0 then NoMatch
    else if |found| == 1 then Unique(found[0])
    else
      assert found[0] < found[1];
      Ambiguous
  }

  /** The row condition of the ownership query: booking number equal as
      written, first and last name equal after `upper()`, which is equal up
      to the case of ASCII letters. */
  predicate OwnedBy(b: Booking, bookingNumber: string, firstName: string, lastName: string)
    ensures OwnedBy(b, bookingNumber, firstName, lastName) <==>
      && b.bookingNumber == bookingNumber
      && SameIgnoringAsciiCase(b.customer.firstName, firstName)
      && SameIgnoringAsciiCase(b.customer.lastName, lastName)
  {
    UpperEqualIff(b.customer.firstName, firstName);
    UpperEqualIff(b.customer.lastName, lastName);
    && b.bookingNumber == bookingNumber
    && Upper(b.customer.firstName) == Upper(firstName)
    && Upper(b.customer.lastName) == Upper(lastName)
  }

  /** `findBookingBy(bookingNumber, firstName, lastName)`. */
  function FindBookingBy(table: seq<Booking>, bookingNumber: string, firstName: string, lastName: string): (r: Lookup)
    ensures r.NoMatch? <==> forall i :: 0 <= i < |table| ==> !OwnedBy(table[i], bookingNumber, firstName, lastName)
    ensures r.Unique? ==>
      && r.index < |table|
      && table[r.index].bookingNumber == bookingNumber
      && Upper(table[r.index].customer.firstName) == Upper(firstName)
      && Upper(table[r.index].customer.lastName) == Upper(lastName)
      && forall j :: 0 <= j < |table| && j != r.index ==> !OwnedBy(table[j], bookingNumber, firstName, lastName)
    ensures r.Ambiguous? ==>
      exists i, j :: 0 <= i < j < |table| && OwnedBy(table[i], bookingNumber, firstName, lastName)
                                          && OwnedBy(table[j], bookingNumber, firstName, lastName)
  {
    Select(table, (b: Booking) => OwnedBy(b, bookingNumber, firstName, lastName))
  }

  /** `findByBookingNumber(bookingNumber)`: the number alone, no owner condition. */
  function FindByBookingNumber(table: seq<Booking>, bookingNumber: string): (r: Lookup)
    ensures r.NoMatch? <==> forall i :: 0 <= i < |table| ==> table[i].bookingNumber != bookingNumber
    ensures r.Unique? ==>
      && r.index < |table| && table[r.index].bookingNumber == bookingNumber
      && forall j :: 0 <= j < |table| && j != r.index ==> table[j].bookingNumber != bookingNumber
    ensures r.Ambiguous? ==>
      exists i, j :: 0 <= i < j < |table| && table[i].bookingNumber == bookingNumber
                                          && table[j].bookingNumber == bookingNumber
  {
    Select(table, (b: Booking) => b.bookingNumber == bookingNumber)
  }

  /** No two rows share a booking number. Nothing in the code enforces this;
      the mutations preserve it and it rules out the incorrect-size failure. */
  predicate UniqueNumbers(table: seq<Booking>) {
    forall i, j :: 0 <= i < j < |table| ==> table[i].bookingNumber != table[j].bookingNumber
  }

  /** Neither query can be ambiguous on a table with unique numbers, and an
      ownership match is the row the number alone selects. */
  lemma OwnershipRefinesNumberLookup(table: seq<Booking>, bookingNumber: string, firstName: string, lastName: string)
    requires UniqueNumbers(table)
    ensures !FindByBookingNumber(table, bookingNumber).Ambiguous?
    ensures !FindBookingBy(table, bookingNumber, firstName, lastName).Ambiguous?
    ensures FindBookingBy(table, bookingNumber, firstName, lastName).Unique? ==>
      FindByBookingNumber(table, bookingNumber) == FindBookingBy(table, bookingNumber, firstName, lastName)
  {
  }

  /** When no row other than the owner's carries the booking number, the
      number query finds the same row as the ownership query. */
  lemma NumberLookupFindsOwnedRow(table: seq<Booking>, bookingNumber: string, firstName: string, lastName: string)
    requires FindBookingBy(table, bookingNumber, firstName, lastName).Unique?
    requires !FindByBookingNumber(table, bookingNumber).Ambiguous?
    ensures FindByBookingNumber(table, bookingNumber) == FindBookingBy(table, bookingNumber, firstName, lastName)
  {
  }

  /** A single-result query is decided by which rows satisfy its condition:
      two queries over tables of the same length whose conditions agree row by
      row give the same answer. */
  lemma SelectAgrees(t: seq<Booking>, p: Booking -> bool, u: seq<Booking>, q: Booking -> bool)
    requires |t| == |u|
    requires forall i :: 0 <= i < |t| ==> p(t[i]) == q(u[i])
    ensures Select(t, p) == Select(u, q)
  {
    MatchingIndicesAgree(t, p, u, q);
  }

  lemma {:induction false} MatchingIndicesAgree(t: seq<Booking>, p: Booking -> bool, u: seq<Booking>, q: Booking -> bool)
    requires |t| == |u|
    requires forall i :: 0 <= i < |t| ==> p(t[i]) == q(u[i])
    ensures MatchingIndices(t, p) == MatchingIndices(u, q)
    decreases |t|
  {
    if t != [] {
      MatchingIndicesAgree(t[..|t| - 1], p, u[..|u| - 1], q);
    }
  }

  /** Both queries keep their answer when a row is overwritten by one with the
      same booking number and customer: neither looks at anything else. */
  lemma LookupsIgnoreOtherFields(table: seq<Booking>, i: nat, b: Booking, bookingNumber: string, firstName: string, lastName: string)
    requires i < |table|
    requires b.bookingNumber == table[i].bookingNumber && b.customer == table[i].customer
    ensures FindBookingBy(table[i := b], bookingNumber, firstName, lastName) == FindBookingBy(table, bookingNumber, firstName, lastName)
    ensures FindByBookingNumber(table[i := b], bookingNumber) == FindByBookingNumber(table, bookingNumber)
  {
    var owned := (b': Booking) => OwnedBy(b', bookingNumber, firstName, lastName);
    var numbered := (b': Booking) => b'.bookingNumber == bookingNumber;
    SelectAgrees(table[i := b], owned, table, owned);
    SelectAgrees(table[i := b], numbered, table, numbered);
  }

  /** The ownership query is case-insensitive in both names: two spellings of
      a name that agree after `upper()` find the same row. */
  lemma OwnershipIgnoresNameCase(table: seq<Booking>, bookingNumber: string, f1: string, l1: string, f2: string, l2: string)
    requires Upper(f1) == Upper(f2) && Upper(l1) == Upper(l2)
    ensures FindBookingBy(table, bookingNumber, f1, l1) == FindBookingBy(table, bookingNumber, f2, l2)
  {
    SelectAgrees(table, (b: Booking) => OwnedBy(b, bookingNumber, f1, l1),
                 table, (b: Booking) => OwnedBy(b, bookingNumber, f2, l2));
  }
}
