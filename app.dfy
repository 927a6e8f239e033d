/** The application shell: which view is shown and which ticket is open, beside the ticket store. */
module App {
  import opened Wrappers
  import opened Types
  import opened LocalTickets

  /** `View` */
  datatype View = FormView | ListView | DetailView

  /** `prev?.id === id ? { ...prev, ...data } : prev` */
  function UpdatedSelection(selected: Option<Ticket>, id: string, data: TicketData): (r: Option<Ticket>)
    ensures r.Some? <==> selected.Some?
    ensures selected.Some? && selected.value.id == id ==> r == Some(WithData(selected.value, data))
    ensures selected.Some? && selected.value.id != id ==> r == selected
  {
    match selected
    case None => None
    case Some(t) => if t.id == id then Some(WithData(t, data)) else selected
  }

  /** An open ticket that is in the list stays equal to its copy in the list after an update. */
  lemma SelectionFollowsStore(tickets: seq<Ticket>, selected: Ticket, id: string, data: TicketData)
    requires selected in tickets
    ensures UpdatedSelection(Some(selected), id, data).value in UpdatedTickets(tickets, id, data)
  {
    var k :| 0 <= k < |tickets| && tickets[k] == selected;
    assert UpdatedTickets(tickets, id, data)[k] == UpdatedSelection(Some(selected), id, data).value;
  }

  class AppState {
    var view: View
    var selectedTicket: Option<Ticket>
    const store: TicketStore

    /** The form first, nothing open. */
    constructor(store: TicketStore)
      ensures view == FormView && selectedTicket == None && this.store == store
    {
      view := FormView;
      selectedTicket := None;
      this.store := store;
    }

    /** The detail view is rendered only while a ticket is open, and only when the detail view is chosen. */
    predicate DetailShown()
      reads this
      ensures DetailShown() ==> selectedTicket.Some? && view == DetailView
    {
      view == DetailView && selectedTicket.Some?
    }

    /** `handleAdd`: store the ticket, then show the list. */
    method HandleAdd(data: TicketData, id: string, now: string)
      modifies this, store
      ensures store.tickets == AddedTickets(old(store.tickets), data, id, now)
      ensures view == ListView && selectedTicket == old(selectedTicket)
      ensures !DetailShown()
    {
      store.AddTicket(data, id, now);
      view := ListView;
    }

    /** `handleTicketClick`: open the ticket in the detail view. */
    method HandleTicketClick(ticket: Ticket)
      modifies this
      ensures view == DetailView && selectedTicket == Some(ticket)
      ensures DetailShown()
    {
      selectedTicket := Some(ticket);
      view := DetailView;
    }

    /** `handleTicketUpdate`: update the store, and the open ticket when it is the one updated. */
    method HandleTicketUpdate(id: string, data: TicketData)
      modifies this, store
      ensures store.tickets == UpdatedTickets(old(store.tickets), id, data)
      ensures selectedTicket == UpdatedSelection(old(selectedTicket), id, data)
      ensures view == old(view)
      ensures DetailShown() == old(DetailShown())
    {
      store.UpdateTicket(id, data);
      selectedTicket := UpdatedSelection(selectedTicket, id, data);
    }

    /** `handleTicketDelete`: the store only; the view and the open ticket stay as they are. */
    method HandleTicketDelete(id: string)
      modifies store
      ensures store.tickets == DeletedTickets(old(store.tickets), id)
    {
      store.DeleteTicket(id);
    }

    /** `handleCloseDetail`: close the ticket, back to the list. */
    method HandleCloseDetail()
      modifies this
      ensures view == ListView && selectedTicket == None
      ensures !DetailShown()
    {
      selectedTicket := None;
      view := ListView;
    }

    /** The two menu buttons. */
    method SetView(v: View)
      modifies this
      ensures view == v && selectedTicket == old(selectedTicket)
      ensures DetailShown() <==> v == DetailView && old(selectedTicket).Some?
    {
      view := v;
    }
  }

  /** Deleting the open ticket leaves it open: the detail view goes on showing a ticket no longer stored. */
  lemma DeletedTicketStaysOpen(tickets: seq<Ticket>, selected: Ticket)
    requires selected in tickets
    ensures selected !in DeletedTickets(tickets, selected.id)
  {
  }
}
