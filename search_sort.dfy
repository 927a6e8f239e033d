/**
 * The ticket list's search filter, its direction-aware sort and the sort-button state machine.
 * The orders are abstract: `Date.getTime` and `localeCompare` are given as integer keys, so
 * that a comparison is the difference of two keys.
 */
module SearchSort {
  import opened Text
  import opened Seqs
  import opened Types

  datatype SortField = Date | Name | Company
  datatype SortDirection = Asc | Desc

  /** The time value of a `createdAt` string, and each string's place in the locale's collation. */
  datatype Orders = Orders(timeOf: string -> int, rank: string -> int)

  /** `${name} ${surname}` */
  function FullName(t: Ticket): string {
    t.name + " " + t.surname
  }

  /** The search hits a ticket when the query occurs in its name, surname, email or full name. */
  predicate Matches(t: Ticket, query: string) {
    || Includes(ToLower(t.name), query)
    || Includes(ToLower(t.surname), query)
    || Includes(ToLower(t.email), query)
    || Includes(ToLower(FullName(t)), query)
  }

  function Matcher(query: string): Ticket -> bool {
    (t: Ticket) => Matches(t, query)
  }

  /** The search filter: a blank query keeps everything; otherwise the matching tickets, in order. */
  function SearchFilter(tickets: seq<Ticket>, searchQuery: string): (r: seq<Ticket>)
    ensures Trim(searchQuery) == "" ==> r == tickets
    ensures Trim(searchQuery) != "" ==>
      forall t :: t in r <==> t in tickets && Matches(t, Trim(ToLower(searchQuery)))
    ensures multiset(r) <= multiset(tickets)
  {
    if Trim(searchQuery) == "" then tickets
    else Filter(tickets, Matcher(Trim(ToLower(searchQuery))))
  }

  /** The company is not searched: a query found only there hits nothing. */
  lemma CompanyIsNotSearched(t: Ticket, query: string)
    requires !Includes(ToLower(t.name), query) && !Includes(ToLower(t.surname), query)
    requires !Includes(ToLower(t.email), query) && !Includes(ToLower(FullName(t)), query)
    requires Includes(ToLower(t.company), query)
    ensures !Matches(t, query)
  {
  }

  /** The key a field compares by. */
  function FieldKey(t: Ticket, field: SortField, orders: Orders): int {
    match field
    case Date => orders.timeOf(t.createdAt)
    case Name => orders.rank(FullName(t))
    case Company => orders.rank(t.company)
  }

  /** The comparator's key: "desc" negates the comparison, so it compares negated keys. */
  function SortKey(t: Ticket, field: SortField, direction: SortDirection, orders: Orders): int {
    match direction
    case Asc => FieldKey(t, field, orders)
    case Desc => -FieldKey(t, field, orders)
  }

  /** Non-decreasing under the key. */
  ghost predicate SortedOn<T>(s: seq<T>, key: T -> int) {
    forall i, j :: 0 <= i < j < |s| ==> key(s[i]) <= key(s[j])
  }

  /** Insert after every element whose key is not greater, as a stable sort places a later element. */
  function Insert<T>(x: T, s: seq<T>, key: T -> int): (r: seq<T>)
    requires SortedOn(s, key)
    ensures SortedOn(r, key)
    ensures multiset(r) == multiset(s) + multiset{x}
    ensures forall y :: y in r ==> y == x || y in s
  {
    if s == [] then [x]
    else if key(x) < key(s[0]) then
      InsertFront(x, s, key);
      [x] + s
    else
      HeadIsLeast(s, key);
      var rest := Insert(x, s[1..], key);
      InsertBehind(x, s, rest, key);
      [s[0]] + rest
  }

  lemma InsertFront<T>(x: T, s: seq<T>, key: T -> int)
    requires SortedOn(s, key) && s != [] && key(x) < key(s[0])
    ensures SortedOn([x] + s, key)
  {
    HeadIsLeast(s, key);
    SortedCons(x, s, key);
  }

  /** The head stays in front of the rest with `x` inserted. */
  lemma InsertBehind<T>(x: T, s: seq<T>, rest: seq<T>, key: T -> int)
    requires SortedOn(s, key) && s != [] && key(s[0]) <= key(x)
    requires SortedOn(rest, key)
    requires multiset(rest) == multiset(s[1..]) + multiset{x}
    requires forall y :: y in rest ==> y == x || y in s[1..]
    ensures SortedOn([s[0]] + rest, key)
    ensures multiset([s[0]] + rest) == multiset(s) + multiset{x}
    ensures forall y :: y in [s[0]] + rest ==> y == x || y in s
  {
    HeadIsLeast(s, key);
    assert s == [s[0]] + s[1..];
    SortedCons(s[0], rest, key);
  }

  /** The head of a sorted sequence has the least key. */
  lemma HeadIsLeast<T>(s: seq<T>, key: T -> int)
    requires SortedOn(s, key) && s != []
    ensures forall y :: y in s ==> key(s[0]) <= key(y)
    ensures SortedOn(s[1..], key)
  {
    forall y | y in s
      ensures key(s[0]) <= key(y)
    {
      var k :| 0 <= k < |s| && s[k] == y;
    }
  }

  /** An element whose key is at most every key of a sorted sequence can go in front of it. */
  lemma SortedCons<T>(h: T, t: seq<T>, key: T -> int)
    requires SortedOn(t, key)
    requires forall y :: y in t ==> key(h) <= key(y)
    ensures SortedOn([h] + t, key)
  {
    var r := [h] + t;
    forall i, j | 0 <= i < j < |r|
      ensures key(r[i]) <= key(r[j])
    {
      assert r[j] == t[j - 1] && t[j - 1] in t;
      if i > 0 {
        assert r[i] == t[i - 1];
      }
    }
  }

  /** The comparator of a field and direction, as a key. */
  function KeyOf(field: SortField, direction: SortDirection, orders: Orders): Ticket -> int {
    (t: Ticket) => SortKey(t, field, direction, orders)
  }

  /** `[...filtered].sort(compare)`: a stable sort of a copy. */
  function SortTickets(s: seq<Ticket>, field: SortField, direction: SortDirection, orders: Orders): (r: seq<Ticket>)
    ensures SortedOn(r, KeyOf(field, direction, orders))
    ensures multiset(r) == multiset(s)
  {
    if s == [] then []
    else
      var n := |s| - 1;
      assert s == s[..n] + [s[n]];
      Insert(s[n], SortTickets(s[..n], field, direction, orders), KeyOf(field, direction, orders))
  }

  /** The sorted list in terms of the field itself: ascending keys, or descending ones. */
  lemma SortOrder(s: seq<Ticket>, field: SortField, direction: SortDirection, orders: Orders)
    ensures var r := SortTickets(s, field, direction, orders);
      forall i, j :: 0 <= i < j < |r| ==>
        if direction == Asc then FieldKey(r[i], field, orders) <= FieldKey(r[j], field, orders)
        else FieldKey(r[i], field, orders) >= FieldKey(r[j], field, orders)
  {
    var r := SortTickets(s, field, direction, orders);
    assert forall i, j :: 0 <= i < j < |r| ==>
      KeyOf(field, direction, orders)(r[i]) <= KeyOf(field, direction, orders)(r[j]);
  }

  /** `useTicketSearchSort`: filter, then sort a copy. */
  function SearchAndSort(tickets: seq<Ticket>, searchQuery: string, field: SortField, direction: SortDirection, orders: Orders): (r: seq<Ticket>)
    ensures SortedOn(r, KeyOf(field, direction, orders))
    ensures multiset(r) == multiset(SearchFilter(tickets, searchQuery))
    ensures Trim(searchQuery) == "" ==> multiset(r) == multiset(tickets)
    ensures forall t :: t in r ==> t in tickets
  {
    var filtered := SearchFilter(tickets, searchQuery);
    var r := SortTickets(filtered, field, direction, orders);
    assert forall t :: t in r ==> t in tickets by {
      forall t | t in r ensures t in tickets {
        assert t in multiset(r);
        assert t in multiset(filtered);
      }
    }
    r
  }

  /** `handleSort`: the same field flips the direction; a new field starts at its default. */
  function NextSort(field: SortField, direction: SortDirection, clicked: SortField): (r: (SortField, SortDirection))
    ensures r.0 == clicked
    ensures clicked == field ==> r.1 != direction
    ensures clicked != field ==> r.1 == (if clicked == Date then Desc else Asc)
  {
    if field == clicked then (field, if direction == Asc then Desc else Asc)
    else (clicked, if clicked == Date then Desc else Asc)
  }

  /** Clicking the same button twice comes back to where it started. */
  lemma NextSortTwiceIsIdentity(field: SortField, direction: SortDirection)
    ensures var once := NextSort(field, direction, field);
      NextSort(once.0, once.1, field) == (field, direction)
  {
  }

  /** `useSortHandlers`: the field and direction held by the caller, changed through its setters. */
  class SortHandlers {
    var sortField: SortField
    var sortDirection: SortDirection

    constructor(field: SortField, direction: SortDirection)
      ensures sortField == field && sortDirection == direction
    {
      sortField := field;
      sortDirection := direction;
    }

    method HandleSort(field: SortField)
      modifies this
      ensures (sortField, sortDirection) == NextSort(old(sortField), old(sortDirection), field)
    {
      if sortField == field {
        sortDirection := if sortDirection == Asc then Desc else Asc;
      } else {
        sortField := field;
        sortDirection := if field == Date then Desc else Asc;
      }
    }
  }
}
