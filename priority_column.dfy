/** One column of the priority board: its drag handlers, its highlight and its card numbers. */
module PriorityColumnView {
  import opened Wrappers
  import opened Types
  import opened PriorityColumns
  import opened DragDrop

  /** `DropResult`: the arguments of `onTicketDrop`. */
  datatype DropRequest = DropRequest(ticketId: string, fromPriority: string, toPriority: PriorityLevel)

  /**
   * `isDraggedOver`: the source compares the priority strings; on levels that is the same as
   * comparing the levels, since no two levels share a name.
   */
  predicate IsDraggedOver(hovered: Option<PriorityLevel>, column: Column)
    ensures IsDraggedOver(hovered, column) <==> hovered.Some? && LevelName(hovered.value) == LevelName(column.priority)
  {
    LevelNamesDistinct();
    hovered == Some(column.priority)
  }

  lemma LevelNamesDistinct()
    ensures forall p: PriorityLevel, q: PriorityLevel :: LevelName(p) == LevelName(q) ==> p == q
  {
    LevelNamesArePriorityLevels();
  }

  /** On the board, no column is highlighted without a hover, and exactly the hovered one with it. */
  lemma HighlightsOneColumn(tickets: seq<Ticket>, hovered: Option<PriorityLevel>)
    ensures var r := PriorityColumnsOf(tickets);
      && (hovered.None? ==> forall k :: 0 <= k < 3 ==> !IsDraggedOver(hovered, r[k]))
      && (hovered.Some? ==> exists k :: 0 <= k < 3 && IsDraggedOver(hovered, r[k]))
      && (forall j, k :: 0 <= j < k < 3 && IsDraggedOver(hovered, r[j]) ==> !IsDraggedOver(hovered, r[k]))
  {
    var r := PriorityColumnsOf(tickets);
    if hovered.Some? {
      var k := if hovered.value == High then 0 else if hovered.value == Medium then 1 else 2;
      assert IsDraggedOver(hovered, r[k]);
    }
  }

  /** The drop guard: a dragged ticket whose priority is not already the column's. */
  function DropFor(dragged: Option<Ticket>, column: Column): (r: Option<DropRequest>)
    ensures r.Some? <==> dragged.Some? && dragged.value.priority != LevelName(column.priority)
    ensures r.Some? ==> r.value == DropRequest(dragged.value.id, dragged.value.priority, column.priority)
  {
    if dragged.Some? && dragged.value.priority != LevelName(column.priority) then
      Some(DropRequest(dragged.value.id, dragged.value.priority, column.priority))
    else None
  }

  /** A drop is never a move to the priority the ticket already has. */
  lemma DropChangesPriority(dragged: Option<Ticket>, column: Column)
    requires DropFor(dragged, column).Some?
    ensures DropFor(dragged, column).value.fromPriority != LevelName(DropFor(dragged, column).value.toPriority)
  {
  }

  /** Dropping a ticket on the column it came from requests nothing. */
  lemma DropOnOwnColumnIsIgnored(t: Ticket, column: Column)
    requires t.priority == LevelName(column.priority)
    ensures DropFor(Some(t), column) == None
  {
  }

  /** `handleDragOver`: this column becomes the hovered one. */
  method HandleDragOver(state: DragDropState, column: Column)
    requires state.Valid()
    modifies state
    ensures state.Valid()
    ensures IsDraggedOver(state.draggedOverPriority, column)
    ensures state.draggedTicket == old(state.draggedTicket) && state.isDragging == old(state.isDragging)
  {
    state.SetDraggedOver(Some(column.priority));
  }

  /** `handleDragLeave`: no column is hovered. */
  method HandleDragLeave(state: DragDropState)
    requires state.Valid()
    modifies state
    ensures state.Valid()
    ensures state.draggedOverPriority == None
    ensures state.draggedTicket == old(state.draggedTicket) && state.isDragging == old(state.isDragging)
  {
    state.SetDraggedOver(None);
  }

  /**
   * `handleDrop`: clear the hover, ask for the move when the guard allows it, and stop dragging
   * in every case. `drop` is the call made to `onTicketDrop`, if any.
   */
  method HandleDrop(state: DragDropState, column: Column) returns (drop: Option<DropRequest>)
    requires state.Valid()
    modifies state
    ensures state.Valid()
    ensures drop == DropFor(old(state.draggedTicket), column)
    ensures state.Snap() == Initial
  {
    state.SetDraggedOver(None);
    drop := DropFor(state.draggedTicket, column);
    state.StopDragging();
  }

  /** `ticketNumber={index + 1}`: cards are numbered by their place in the column. */
  function ColumnCardNumbers(column: Column): (r: seq<(Ticket, nat)>)
    ensures |r| == |column.tickets|
    ensures forall k :: 0 <= k < |r| ==> r[k].0 == column.tickets[k] && r[k].1 == k + 1
  {
    seq(|column.tickets|, k requires 0 <= k < |column.tickets| => (column.tickets[k], k + 1))
  }

  /** Within a column the numbers run 1, 2, ... without gaps, whatever the tickets are. */
  lemma ColumnNumbersAreOneToN(column: Column)
    ensures forall k :: 0 <= k < |ColumnCardNumbers(column)| ==> 1 <= ColumnCardNumbers(column)[k].1 <= |column.tickets|
    ensures forall j, k :: 0 <= j < k < |ColumnCardNumbers(column)| ==> ColumnCardNumbers(column)[j].1 < ColumnCardNumbers(column)[k].1
  {
  }
}
