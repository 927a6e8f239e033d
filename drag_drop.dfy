/** The drag-and-drop context: which ticket is being dragged and which column it hovers over. */
module DragDrop {
  import opened Wrappers
  import opened Types
  import opened PriorityColumns

  const OutsideProviderMessage: string := "useDragDrop must be used within a DragDropProvider"

  /** One call on the context. */
  datatype DragEvent = Start(ticket: Ticket) | Stop | Over(priority: Option<PriorityLevel>)

  /** The state's three cells as values. */
  datatype Snapshot = Snapshot(draggedTicket: Option<Ticket>, draggedOverPriority: Option<PriorityLevel>, isDragging: bool)

  const Initial: Snapshot := Snapshot(None, None, false)

  /** What each call does to the cells; the methods of `DragDropState` follow it. */
  function Step(s: Snapshot, e: DragEvent): Snapshot {
    match e
    case Start(ticket) => s.(draggedTicket := Some(ticket), isDragging := true)
    case Stop => Initial
    case Over(priority) => s.(draggedOverPriority := priority)
  }

  function Run(s: Snapshot, events: seq<DragEvent>): Snapshot
    decreases |events|
  {
    if events == [] then s else Run(Step(s, events[0]), events[1..])
  }

  /** Whatever calls follow a state where the flag matches the ticket, it still does. */
  lemma {:induction false} DraggingIffTicket(s: Snapshot, events: seq<DragEvent>)
    requires s.isDragging <==> s.draggedTicket.Some?
    ensures var f := Run(s, events); f.isDragging <==> f.draggedTicket.Some?
    decreases |events|
  {
    if events != [] {
      DraggingIffTicket(Step(s, events[0]), events[1..]);
    }
  }

  /** Whatever calls are made from the initial state, the flag is set iff a ticket is dragged. */
  lemma DraggingIffTicketFromStart(events: seq<DragEvent>)
    ensures var f := Run(Initial, events); f.isDragging <==> f.draggedTicket.Some?
  {
    DraggingIffTicket(Initial, events);
  }

  /** The provider's three state cells. */
  class DragDropState {
    var draggedTicket: Option<Ticket>
    var draggedOverPriority: Option<PriorityLevel>
    var isDragging: bool

    /** The flag is set exactly while a ticket is being dragged. */
    predicate Valid()
      reads this
    {
      isDragging <==> draggedTicket.Some?
    }

    function Snap(): Snapshot
      reads this
    {
      Snapshot(draggedTicket, draggedOverPriority, isDragging)
    }

    /** Nothing dragged, nothing hovered. */
    constructor()
      ensures Valid()
      ensures draggedTicket == None && draggedOverPriority == None && !isDragging
    {
      draggedTicket := None;
      draggedOverPriority := None;
      isDragging := false;
    }

    /** `startDragging`: the hovered column is left as it was. */
    method StartDragging(ticket: Ticket)
      requires Valid()
      modifies this
      ensures Valid()
      ensures draggedTicket == Some(ticket) && isDragging
      ensures draggedOverPriority == old(draggedOverPriority)
      ensures Snap() == Step(old(Snap()), Start(ticket))
    {
      draggedTicket := Some(ticket);
      isDragging := true;
    }

    /** `stopDragging`: back to the initial state. */
    method StopDragging()
      requires Valid()
      modifies this
      ensures Valid()
      ensures draggedTicket == None && draggedOverPriority == None && !isDragging
      ensures Snap() == Step(old(Snap()), Stop)
    {
      draggedTicket := None;
      draggedOverPriority := None;
      isDragging := false;
    }

    /** `setDraggedOver`: only the hovered column changes. */
    method SetDraggedOver(priority: Option<PriorityLevel>)
      requires Valid()
      modifies this
      ensures Valid()
      ensures draggedOverPriority == priority
      ensures draggedTicket == old(draggedTicket) && isDragging == old(isDragging)
      ensures Snap() == Step(old(Snap()), Over(priority))
    {
      draggedOverPriority := priority;
    }
  }

  /** `useDragDrop`: the context of the enclosing provider, or an error when there is none. */
  function UseDragDrop(context: Option<DragDropState>): (r: Result<DragDropState, string>)
    ensures r.Failure? <==> context.None?
    ensures r.Failure? ==> r.error == OutsideProviderMessage
    ensures r.Success? ==> r.value == context.value
  {
    match context
    case None => Failure(OutsideProviderMessage)
    case Some(state) => Success(state)
  }
}
