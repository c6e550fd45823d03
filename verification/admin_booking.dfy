/**
 * The admin bookings table: a list of table reservations whose "confirmed" switch can be
 * flipped per row, and a search box that filters either by name or by phone number.
 */
module AdminBooking {
  import opened Text
  import Seqs

  datatype Booking = Booking(id: string, name: string, phone: string, isConfirmed: bool)

  /** The search mode whose filter compares names; every other mode compares phone numbers. */
  const NameMode := "name"

  /** The booking with its confirmation flag inverted. */
  function Flipped(b: Booking): Booking {
    b.(isConfirmed := !b.isConfirmed)
  }

  /** Selects the rows whose id is `id`. */
  function HasId(id: string): Booking -> bool {
    (b: Booking) => b.id == id
  }

  /** The list after toggling the booking(s) with id `id`: each such row has its flag inverted,
      every field of every row is otherwise as it was, and rows keep their places. */
  function Toggled(bookings: seq<Booking>, id: string): (r: seq<Booking>)
    ensures |r| == |bookings|
    ensures forall i :: 0 <= i < |r| ==>
      && r[i].id == bookings[i].id
      && r[i].name == bookings[i].name
      && r[i].phone == bookings[i].phone
      && r[i].isConfirmed == (bookings[i].isConfirmed != (bookings[i].id == id))
  {
    Seqs.MapWhere(bookings, HasId(id), Flipped)
  }

  /** Toggling the same id twice gives back the original list. */
  lemma ToggleTwice(bookings: seq<Booking>, id: string)
    ensures Toggled(Toggled(bookings, id), id) == bookings
  {
    Seqs.MapWhereTwice(bookings, HasId(id), Flipped);
  }

  /** Toggling an id that no booking carries changes nothing. */
  lemma ToggleAbsent(bookings: seq<Booking>, id: string)
    requires forall i :: 0 <= i < |bookings| ==> bookings[i].id != id
    ensures Toggled(bookings, id) == bookings
  {
    Seqs.MapWhereMissesAll(bookings, HasId(id), Flipped);
  }

  /** Whether one booking passes the search: in name mode its lower-cased name contains the
      lower-cased term, in any other mode its phone contains the term as typed. */
  predicate Matches(b: Booking, term: string, searchType: string)
    ensures searchType == NameMode ==>
      (Matches(b, term, searchType) <==> exists i :: OccursAt(Lower(b.name), Lower(term), i))
    ensures searchType != NameMode ==>
      (Matches(b, term, searchType) <==> exists i :: OccursAt(b.phone, term, i))
  {
    if searchType == NameMode then
      IncludesIffOccurs(Lower(b.name), Lower(term));
      Includes(Lower(b.name), Lower(term))
    else
      IncludesIffOccurs(b.phone, term);
      Includes(b.phone, term)
  }

  /** With nothing typed, every booking passes the search, in either mode. */
  lemma EmptyTermMatchesAll(searchType: string)
    ensures forall b :: Matches(b, "", searchType)
  {
    forall b: Booking
      ensures Matches(b, "", searchType)
    {
    }
  }

  /** `filteredBookings`: the bookings that pass the search, in their original order and
      multiplicity; an empty term keeps them all. */
  function FilteredBookings(bookings: seq<Booking>, term: string, searchType: string): (r: seq<Booking>)
    ensures Seqs.IsSubsequence(r, bookings)
    ensures forall b :: b in r <==> b in bookings && Matches(b, term, searchType)
    ensures forall b :: multiset(r)[b] == if Matches(b, term, searchType) then multiset(bookings)[b] else 0
    ensures term == "" ==> r == bookings
  {
    EmptyTermMatchesAll(searchType);
    Seqs.Filter(bookings, b => Matches(b, term, searchType))
  }

  /** The state of the bookings page. */
  class AdminBookingsPage {
    var bookings: seq<Booking>
    var searchTerm: string
    var searchType: string

    constructor (initial: seq<Booking>)
      ensures bookings == initial && searchTerm == "" && searchType == NameMode
    {
      bookings := initial;
      searchTerm := "";
      searchType := NameMode;
    }

    /** The rows the table shows: the bookings that pass the current search, in order. */
    function Shown(): (r: seq<Booking>)
      reads this
      ensures Seqs.IsSubsequence(r, bookings)
      ensures forall b :: b in r <==> b in bookings && Matches(b, searchTerm, searchType)
    {
      FilteredBookings(bookings, searchTerm, searchType)
    }

    method SetSearchTerm(term: string)
      modifies this`searchTerm
      ensures searchTerm == term && bookings == old(bookings) && searchType == old(searchType)
    {
      searchTerm := term;
    }

    method SetSearchType(mode: string)
      modifies this`searchType
      ensures searchType == mode && bookings == old(bookings) && searchTerm == old(searchTerm)
    {
      searchType := mode;
    }

    /** `toggleStatus`: flips the confirmation of the row(s) with id `id`, and only that. */
    method ToggleStatus(id: string)
      modifies this`bookings
      ensures bookings == Toggled(old(bookings), id)
      ensures searchTerm == old(searchTerm) && searchType == old(searchType)
    {
      bookings := Toggled(bookings, id);
    }
  }
}
