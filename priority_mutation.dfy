/** The drag-and-drop priority mutation: an optimistic priority change with a conditional rollback. */
module PriorityMutation {
  import opened Wrappers
  import opened Seqs
  import opened Types
  import opened QueryCache

  /**
   * The optimistic list: every cached ticket with the id takes the new priority, whatever
   * its value; an absent list stays absent.
   */
  function OptimisticPriority(cached: Option<seq<Ticket>>, ticketId: string, newPriority: string): (r: Option<seq<Ticket>>)
    ensures r.None? <==> cached.None?
    ensures r.Some? ==> |r.value| == |cached.value|
    ensures r.Some? ==> forall k :: 0 <= k < |r.value| ==>
      r.value[k] == (if cached.value[k].id == ticketId then cached.value[k].(priority := newPriority) else cached.value[k])
  {
    match cached
    case None => None
    case Some(tickets) => Some(MapWhere(tickets, HasId(ticketId), (t: Ticket) => t.(priority := newPriority)))
  }

  /** Only the priority moves: every ticket keeps its id, text fields and creation time. */
  lemma OptimisticPriorityKeepsOtherFields(tickets: seq<Ticket>, ticketId: string, newPriority: string)
    ensures var r := OptimisticPriority(Some(tickets), ticketId, newPriority).value;
      forall k :: 0 <= k < |r| ==> r[k].(priority := tickets[k].priority) == tickets[k]
  {
  }

  /** Setting the priority a second time to the same level changes nothing more. */
  lemma OptimisticPriorityIdempotent(cached: Option<seq<Ticket>>, ticketId: string, newPriority: string)
    ensures var once := OptimisticPriority(cached, ticketId, newPriority);
      OptimisticPriority(once, ticketId, newPriority) == once
  {
    var once := OptimisticPriority(cached, ticketId, newPriority);
    if once.Some? {
      var twice := OptimisticPriority(once, ticketId, newPriority);
      assert forall k :: 0 <= k < |once.value| ==> twice.value[k] == once.value[k];
      assert twice.value == once.value;
    }
  }

  /** `onMutate`: snapshot whatever is cached (possibly nothing), then write the optimistic list. */
  method OnMutate(cache: TicketQueryCache, ticketId: string, newPriority: string) returns (context: MutationContext)
    modifies cache
    ensures context == MutationContext(old(cache.data))
    ensures cache.data == OptimisticPriority(old(cache.data), ticketId, newPriority)
    ensures cache.stale == old(cache.stale)
  {
    var previousTickets := cache.GetQueryData();
    cache.SetQueryData(OptimisticPriority(previousTickets, ticketId, newPriority));
    context := MutationContext(previousTickets);
  }

  /**
   * One priority change from start to settle. `succeeded` is the server's verdict. A failure
   * restores exactly what was cached: an absent list was never written, so it stays absent.
   */
  method RunPriorityMutation(cache: TicketQueryCache, ticketId: string, newPriority: string, succeeded: bool)
    modifies cache
    ensures succeeded ==> cache.data == OptimisticPriority(old(cache.data), ticketId, newPriority)
    ensures !succeeded ==> cache.data == old(cache.data)
    ensures cache.stale
  {
    var context := OnMutate(cache, ticketId, newPriority);
    if !succeeded {
      RollbackOnError(cache, context);
    }
    InvalidateAndRefetch(cache);
  }
}
