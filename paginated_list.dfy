/**
 * The paginated ticket list: the page slice, the page count, the "showing a-b" range, the card
 * label, and the view state that the search box, the sort buttons and the pager change.
 */
module PaginatedList {
  import opened Wrappers
  import opened Types
  import opened SearchSort

  const ItemsPerPage: nat := 20

  /** `Array.prototype.slice`: a negative bound counts from the end, every bound is clamped to the length. */
  function ClampIndex(i: int, n: nat): (k: nat)
    ensures k <= n
  {
    if i < 0 then (if n + i < 0 then 0 else n + i) else if i < n then i else n
  }

  function JsSlice<T>(s: seq<T>, start: int, end: int): (r: seq<T>)
    ensures |r| <= |s|
    ensures 0 <= start <= end ==> r == s[ClampIndex(start, |s|)..ClampIndex(end, |s|)]
    ensures forall x :: x in r ==> x in s
  {
    var from := ClampIndex(start, |s|);
    var to := ClampIndex(end, |s|);
    if to <= from then [] else s[from..to]
  }

  /** `paginatedTickets`: the slice from `(page - 1) * 20`, twenty long. */
  function PageOf(s: seq<Ticket>, page: int): (r: seq<Ticket>)
    ensures |r| <= ItemsPerPage
    ensures forall t :: t in r ==> t in s
    ensures page >= 1 ==> r == s[ClampIndex((page - 1) * ItemsPerPage, |s|)..ClampIndex(page * ItemsPerPage, |s|)]
  {
    var startIndex := (page - 1) * ItemsPerPage;
    JsSlice(s, startIndex, startIndex + ItemsPerPage)
  }

  /** `Math.ceil(n / 20)` */
  function TotalPages(n: nat): (pages: nat)
    ensures (pages - 1) * ItemsPerPage < n <= pages * ItemsPerPage || (n == 0 && pages == 0)
  {
    (n + ItemsPerPage - 1) / ItemsPerPage
  }

  /** Pages one to `count`, one after the other. */
  function PagesUpTo(s: seq<Ticket>, count: nat): seq<Ticket> {
    if count == 0 then [] else PagesUpTo(s, count - 1) + PageOf(s, count)
  }

  lemma {:induction false} PagesUpToPrefix(s: seq<Ticket>, count: nat)
    ensures PagesUpTo(s, count) == s[..ClampIndex(count * ItemsPerPage, |s|)]
  {
    if count > 0 {
      PagesUpToPrefix(s, count - 1);
      var a := ClampIndex((count - 1) * ItemsPerPage, |s|);
      var b := ClampIndex(count * ItemsPerPage, |s|);
      assert s[..a] + s[a..b] == s[..b];
    }
  }

  /** Reading every page in order gives back the whole list. */
  lemma PagesCoverList(s: seq<Ticket>)
    ensures PagesUpTo(s, TotalPages(|s|)) == s
  {
    PagesUpToPrefix(s, TotalPages(|s|));
  }

  /** Pages past the last one are empty. */
  lemma PageBeyondLastIsEmpty(s: seq<Ticket>, page: int)
    requires page > TotalPages(|s|)
    ensures PageOf(s, page) == []
  {
  }

  /** `(showing a-b)`: only when the list has more than one page's worth of tickets. */
  function ShowingRange(page: int, n: nat): (r: Option<(int, int)>)
    ensures r.Some? <==> n > ItemsPerPage
    ensures r.Some? ==> r.value.0 == (page - 1) * ItemsPerPage + 1
    ensures r.Some? ==> r.value.1 <= n && r.value.1 <= page * ItemsPerPage
    ensures r.Some? ==> r.value.1 == n || r.value.1 == page * ItemsPerPage
  {
    if n > ItemsPerPage then
      Some(((page - 1) * ItemsPerPage + 1, if page * ItemsPerPage < n then page * ItemsPerPage else n))
    else None
  }

  /** On a page that exists, the range names exactly the tickets on the page, 1-based. */
  lemma ShowingRangeMatchesPage(s: seq<Ticket>, page: int)
    requires |s| > ItemsPerPage && 1 <= page <= TotalPages(|s|)
    ensures var r := ShowingRange(page, |s|).value;
      r.0 <= r.1 && r.1 - r.0 + 1 == |PageOf(s, page)|
  {
  }

  /** `totalPages > 1`: the pager appears exactly when the range does. */
  predicate ShowPagination(n: nat) {
    TotalPages(n) > 1
  }

  lemma PaginationIffRange(page: int, n: nat)
    ensures ShowPagination(n) <==> ShowingRange(page, n).Some?
  {
  }

  /** `tickets.indexOf(ticket)`, compared by value, -1 when absent. */
  function IndexOf(s: seq<Ticket>, t: Ticket): (i: int)
    ensures -1 <= i < |s|
    ensures i == -1 <==> t !in s
    ensures i >= 0 ==> s[i] == t && forall j :: 0 <= j < i ==> s[j] != t
  {
    if s == [] then -1
    else if s[0] == t then 0
    else
      var k := IndexOf(s[1..], t);
      if k == -1 then -1 else k + 1
  }

  /** A card's `#n` label: the ticket's place in the unfiltered list, not on the page. */
  function CardNumber(tickets: seq<Ticket>, t: Ticket): (n: int)
    ensures 0 <= n <= |tickets|
    ensures n == 0 <==> t !in tickets
    ensures n > 0 ==> tickets[n - 1] == t && t !in tickets[..n - 1]
  {
    IndexOf(tickets, t) + 1
  }

  /** The state of the list component. */
  class TicketListView {
    var searchQuery: string
    var sortField: SortField
    var sortDirection: SortDirection
    var page: int

    /** The newest tickets first, on page one, with no search. */
    constructor()
      ensures searchQuery == "" && sortField == Date && sortDirection == Desc && page == 1
    {
      searchQuery := "";
      sortField := Date;
      sortDirection := Desc;
      page := 1;
    }

    /** `filteredAndSortedTickets` */
    function Listed(tickets: seq<Ticket>, orders: Orders): (r: seq<Ticket>)
      reads this
      ensures SortedOn(r, KeyOf(sortField, sortDirection, orders))
      ensures multiset(r) == multiset(SearchFilter(tickets, searchQuery))
      ensures forall t :: t in r ==> t in tickets
    {
      SearchAndSort(tickets, searchQuery, sortField, sortDirection, orders)
    }

    /** `paginatedTickets` */
    function Shown(tickets: seq<Ticket>, orders: Orders): (r: seq<Ticket>)
      reads this
      ensures |r| <= ItemsPerPage
      ensures forall t :: t in r ==> t in tickets && 1 <= CardNumber(tickets, t) <= |tickets|
    {
      PageOf(Listed(tickets, orders), page)
    }

    /** `handleSort`: the sort buttons' state machine, then back to page one. */
    method HandleSort(field: SortField)
      modifies this
      ensures (sortField, sortDirection) == NextSort(old(sortField), old(sortDirection), field)
      ensures page == 1 && searchQuery == old(searchQuery)
    {
      if sortField == field {
        sortDirection := if sortDirection == Asc then Desc else Asc;
      } else {
        sortField := field;
        sortDirection := if field == Date then Desc else Asc;
      }
      page := 1;
    }

    /** `handlePageChange`: the chosen page, nothing else. */
    method HandlePageChange(value: int)
      modifies this
      ensures page == value
      ensures searchQuery == old(searchQuery) && sortField == old(sortField) && sortDirection == old(sortDirection)
    {
      page := value;
    }

    /** `handleSearchChange`: the new query, back to page one. */
    method HandleSearchChange(value: string)
      modifies this
      ensures searchQuery == value && page == 1
      ensures sortField == old(sortField) && sortDirection == old(sortDirection)
    {
      searchQuery := value;
      page := 1;
    }
  }
}
