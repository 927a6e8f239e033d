/** The mock ticket backend: one module-level array that the API operations mutate in place. */
module MockApi {
  import opened Wrappers
  import opened Text
  import opened Types

  const NotFoundMessage: string := "Ticket not found"

  /** The position of the first ticket with the id, as `findIndex` finds it. */
  function FirstIndexOf(tickets: seq<Ticket>, id: string): (r: Option<nat>)
    ensures r.Some? ==> r.value < |tickets| && tickets[r.value].id == id
    ensures r.Some? ==> forall j :: 0 <= j < r.value ==> tickets[j].id != id
    ensures r.None? <==> forall t :: t in tickets ==> t.id != id
  {
    if tickets == [] then None
    else if tickets[0].id == id then Some(0)
    else
      match FirstIndexOf(tickets[1..], id)
      case None => None
      case Some(k) => Some(k + 1)
  }

  /** `ticket-<now>` */
  function ServerId(nowMs: nat): string {
    "ticket-" + NatToString(nowMs)
  }

  /** The record `createTicket` stores: the data, a server id, now, and priority forced to "medium". */
  function NewServerTicket(data: TicketData, nowMs: nat, nowIso: string): (t: Ticket)
    ensures t.id == ServerId(nowMs) && t.createdAt == nowIso && t.priority == "medium"
    ensures t.name == data.name && t.surname == data.surname && t.company == data.company
    ensures t.email == data.email && t.description == data.description
  {
    Ticket(ServerId(nowMs), data.name, data.surname, data.company, data.email, data.description, "medium", nowIso)
  }

  /** Tickets created at different instants get different ids. */
  lemma ServerIdsDistinct(a: nat, b: nat)
    requires a != b
    ensures ServerId(a) != ServerId(b)
  {
    var pre := "ticket-";
    if ServerId(a) == ServerId(b) {
      assert NatToString(a) == ServerId(a)[|pre|..];
      assert NatToString(b) == ServerId(b)[|pre|..];
      NatToStringInjective(a, b);
    }
  }

  /** The store after removing position `i`, as `splice(i, 1)` does. */
  function RemoveAt(tickets: seq<Ticket>, i: nat): (r: seq<Ticket>)
    requires i < |tickets|
    ensures |r| == |tickets| - 1
    ensures forall j :: 0 <= j < i ==> r[j] == tickets[j]
    ensures forall j :: i <= j < |r| ==> r[j] == tickets[j + 1]
  {
    tickets[..i] + tickets[i + 1..]
  }

  /** `{ ...ticket, priority: newPriority }` */
  function WithPriority(t: Ticket, priority: string): (r: Ticket)
    ensures r.priority == priority
    ensures r == t.(priority := priority)
  {
    Merge(t, TicketPatch(None, None, None, None, None, None, Some(priority), None))
  }

  /** `ticketApi`: the `mockTickets` array. */
  class MockTicketStore {
    var tickets: seq<Ticket>

    constructor(seed: seq<Ticket>)
      ensures tickets == seed
    {
      tickets := seed;
    }

    /** `getTickets`: the stored array itself. */
    method GetTickets() returns (r: seq<Ticket>)
      ensures r == tickets
    {
      r := tickets;
    }

    /** `findIndex(t => t.id === id)`, -1 when absent. */
    method FindIndex(id: string) returns (i: int)
      ensures FirstIndexOf(tickets, id).None? ==> i == -1
      ensures FirstIndexOf(tickets, id).Some? ==> i == FirstIndexOf(tickets, id).value
    {
      i := 0;
      while i < |tickets|
        invariant 0 <= i <= |tickets|
        invariant forall j :: 0 <= j < i ==> tickets[j].id != id
      {
        if tickets[i].id == id {
          return;
        }
        i := i + 1;
      }
      i := -1;
    }

    /** `createTicket`: push the new record at the end and return it. */
    method CreateTicket(data: TicketData, nowMs: nat, nowIso: string) returns (t: Ticket)
      modifies this
      ensures t == NewServerTicket(data, nowMs, nowIso)
      ensures tickets == old(tickets) + [t]
    {
      t := NewServerTicket(data, nowMs, nowIso);
      tickets := tickets + [t];
    }

    /** `updateTicket`: merge the patch into the first ticket with the id, or throw. */
    method UpdateTicket(id: string, updates: TicketPatch) returns (r: Result<Ticket, string>)
      modifies this
      ensures FirstIndexOf(old(tickets), id).None? ==> r == Failure(NotFoundMessage) && tickets == old(tickets)
      ensures FirstIndexOf(old(tickets), id).Some? ==>
        var k := FirstIndexOf(old(tickets), id).value;
        && r == Success(Merge(old(tickets)[k], updates))
        && tickets == old(tickets)[k := Merge(old(tickets)[k], updates)]
    {
      var i := FindIndex(id);
      if i == -1 {
        return Failure(NotFoundMessage);
      }
      tickets := tickets[i := Merge(tickets[i], updates)];
      r := Success(tickets[i]);
    }

    /** `updateTicketPriority`: set the priority of the first ticket with the id, unchecked, or throw. */
    method UpdateTicketPriority(id: string, newPriority: string) returns (r: Result<Ticket, string>)
      modifies this
      ensures FirstIndexOf(old(tickets), id).None? ==> r == Failure(NotFoundMessage) && tickets == old(tickets)
      ensures FirstIndexOf(old(tickets), id).Some? ==>
        var k := FirstIndexOf(old(tickets), id).value;
        && r == Success(old(tickets)[k].(priority := newPriority))
        && tickets == old(tickets)[k := old(tickets)[k].(priority := newPriority)]
    {
      var i := FindIndex(id);
      if i == -1 {
        return Failure(NotFoundMessage);
      }
      tickets := tickets[i := WithPriority(tickets[i], newPriority)];
      r := Success(tickets[i]);
    }

    /** `deleteTicket`: splice out the first ticket with the id, or throw. */
    method DeleteTicket(id: string) returns (r: Outcome<string>)
      modifies this
      ensures FirstIndexOf(old(tickets), id).None? ==> r == Fail(NotFoundMessage) && tickets == old(tickets)
      ensures FirstIndexOf(old(tickets), id).Some? ==>
        r == Pass && tickets == RemoveAt(old(tickets), FirstIndexOf(old(tickets), id).value)
    {
      var i := FindIndex(id);
      if i == -1 {
        return Fail(NotFoundMessage);
      }
      tickets := tickets[..i] + tickets[i + 1..];
      r := Pass;
    }
  }

  /** Only the first ticket with the id is touched: a later duplicate survives a delete. */
  lemma DeleteRemovesOnlyFirst(tickets: seq<Ticket>, id: string, later: nat)
    requires FirstIndexOf(tickets, id).Some? && FirstIndexOf(tickets, id).value < later < |tickets|
    requires tickets[later].id == id
    ensures tickets[later] in RemoveAt(tickets, FirstIndexOf(tickets, id).value)
  {
    var r := RemoveAt(tickets, FirstIndexOf(tickets, id).value);
    assert r[later - 1] == tickets[later];
  }
}
