/** The browser-local ticket list: loaded once from storage, then replaced by add, update and delete. */
module LocalTickets {
  import opened Wrappers
  import opened Seqs
  import opened Types

  /**
   * `loadTickets`: the stored text parsed as a ticket list; an absent or empty entry, and
   * text that does not parse, both give the empty list. `parse` stands for `JSON.parse`.
   */
  function LoadTickets(raw: Option<string>, parse: string -> Result<seq<Ticket>, string>): (r: seq<Ticket>)
    ensures raw.None? || raw == Some("") ==> r == []
    ensures raw.Some? && raw.value != "" && parse(raw.value).Failure? ==> r == []
    ensures raw.Some? && raw.value != "" && parse(raw.value).Success? ==> r == parse(raw.value).value
  {
    match raw
    case None => []
    case Some(text) =>
      if text == "" then []
      else
        match parse(text)
        case Failure(_) => []
        case Success(tickets) => tickets
  }

  /** The list after `addTicket`: the new ticket in front of the old ones. */
  function AddedTickets(tickets: seq<Ticket>, data: TicketData, id: string, createdAt: string): (r: seq<Ticket>)
    ensures |r| == |tickets| + 1
    ensures r[0].id == id && r[0].createdAt == createdAt && WithData(r[0], data) == r[0]
    ensures r[1..] == tickets
  {
    [FromData(data, id, createdAt)] + tickets
  }

  /** The list after `updateTicket`: every ticket with the id takes the new editable fields. */
  function UpdatedTickets(tickets: seq<Ticket>, id: string, data: TicketData): (r: seq<Ticket>)
    ensures |r| == |tickets|
    ensures forall k :: 0 <= k < |r| ==> r[k].id == tickets[k].id && r[k].createdAt == tickets[k].createdAt
    ensures forall k :: 0 <= k < |r| ==> r[k] == (if tickets[k].id == id then WithData(tickets[k], data) else tickets[k])
  {
    MapWhere(tickets, HasId(id), (t: Ticket) => WithData(t, data))
  }

  /** Updating an id that no ticket has changes nothing. */
  lemma UpdateAbsentIdIsNoop(tickets: seq<Ticket>, id: string, data: TicketData)
    requires forall t :: t in tickets ==> t.id != id
    ensures UpdatedTickets(tickets, id, data) == tickets
  {
    var r := UpdatedTickets(tickets, id, data);
    assert forall k :: 0 <= k < |r| ==> r[k] == tickets[k] by {
      forall k | 0 <= k < |r|
        ensures r[k] == tickets[k]
      {
        assert tickets[k] in tickets;
      }
    }
  }

  /** The list after `deleteTicket`: the tickets without the id, in their order. */
  function DeletedTickets(tickets: seq<Ticket>, id: string): (r: seq<Ticket>)
    ensures forall t :: t in r <==> t in tickets && t.id != id
    ensures |r| <= |tickets|
  {
    Filter(tickets, LacksId(id))
  }

  /** Deleting keeps the other tickets in their relative order, and drops one per match. */
  lemma DeleteKeepsOrder(a: seq<Ticket>, b: seq<Ticket>, id: string)
    ensures DeletedTickets(a + b, id) == DeletedTickets(a, id) + DeletedTickets(b, id)
  {
    FilterConcat(a, b, LacksId(id));
  }

  /** Deleting an id that no ticket has changes nothing. */
  lemma DeleteAbsentIdIsNoop(tickets: seq<Ticket>, id: string)
    requires forall t :: t in tickets ==> t.id != id
    ensures DeletedTickets(tickets, id) == tickets
  {
    FilterKeepsAll(tickets, LacksId(id));
  }

  /** A freshly added ticket is the one a delete of its id removes, when the id was new. */
  lemma DeleteUndoesAdd(tickets: seq<Ticket>, data: TicketData, id: string, createdAt: string)
    requires forall t :: t in tickets ==> t.id != id
    ensures DeletedTickets(AddedTickets(tickets, data, id, createdAt), id) == tickets
  {
    var added := AddedTickets(tickets, data, id, createdAt);
    assert added == [added[0]] + tickets;
    DeleteKeepsOrder([added[0]], tickets, id);
    assert Filter([added[0]], LacksId(id)) == [] by {
      assert [added[0]][1..] == [];
    }
    DeleteAbsentIdIsNoop(tickets, id);
  }

  /** `useTickets`: the ticket state cell. */
  class TicketStore {
    var tickets: seq<Ticket>

    /** The initial state is whatever `loadTickets` delivers. */
    constructor(raw: Option<string>, parse: string -> Result<seq<Ticket>, string>)
      ensures tickets == LoadTickets(raw, parse)
    {
      tickets := LoadTickets(raw, parse);
    }

    /** `addTicket`; `id` is the fresh UUID and `now` the current ISO time. */
    method AddTicket(data: TicketData, id: string, now: string)
      modifies this
      ensures tickets == AddedTickets(old(tickets), data, id, now)
    {
      tickets := [FromData(data, id, now)] + tickets;
    }

    /** `updateTicket` */
    method UpdateTicket(id: string, data: TicketData)
      modifies this
      ensures tickets == UpdatedTickets(old(tickets), id, data)
    {
      tickets := UpdatedTickets(tickets, id, data);
    }

    /** `deleteTicket` */
    method DeleteTicket(id: string)
      modifies this
      ensures tickets == DeletedTickets(old(tickets), id)
    {
      tickets := DeletedTickets(tickets, id);
    }
  }
}
