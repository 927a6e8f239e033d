/**
 * The `['tickets']` entry of the query cache that the mutation hooks share, and the
 * snapshot/rollback/invalidate helpers built on it.
 */
module QueryCache {
  import opened Wrappers
  import opened Types

  /** The cached ticket list (absent before the first fetch) and whether it has been invalidated. */
  class TicketQueryCache {
    var data: Option<seq<Ticket>>
    var stale: bool

    constructor(initial: Option<seq<Ticket>>)
      ensures data == initial && !stale
    {
      data := initial;
      stale := false;
    }

    /** `getQueryData` */
    method GetQueryData() returns (d: Option<seq<Ticket>>)
      ensures d == data
    {
      d := data;
    }

    /** `setQueryData` with a value */
    method SetQueryData(d: Option<seq<Ticket>>)
      modifies this
      ensures data == d && stale == old(stale)
    {
      data := d;
    }

    /** `invalidateQueries`: the data stays until the refetch replaces it. */
    method Invalidate()
      modifies this
      ensures stale && data == old(data)
    {
      stale := true;
    }
  }

  /** What `onMutate` hands to `onError`: the list as it was before the optimistic change. */
  datatype MutationContext = MutationContext(previousTickets: Option<seq<Ticket>>)

  /** `rollbackOnError`: restore the snapshot when there is one (an empty list counts). */
  method RollbackOnError(cache: TicketQueryCache, context: MutationContext)
    modifies cache
    ensures context.previousTickets.Some? ==> cache.data == context.previousTickets
    ensures context.previousTickets.None? ==> cache.data == old(cache.data)
    ensures cache.stale == old(cache.stale)
  {
    if context.previousTickets.Some? {
      cache.SetQueryData(context.previousTickets);
    }
  }

  /** `invalidateAndRefetch`, the `onSettled` of every ticket mutation. */
  method InvalidateAndRefetch(cache: TicketQueryCache)
    modifies cache
    ensures cache.stale && cache.data == old(cache.data)
  {
    cache.Invalidate();
  }
}
