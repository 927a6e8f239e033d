/** The bulk import and bulk update mutations over the query cache. */
module TicketImport {
  import opened Wrappers
  import opened Seqs
  import opened Types
  import opened QueryCache

  /** The list sent to the bulk import: every policy, for now, sends the input as it is. */
  function TicketsToImport(tickets: seq<TicketData>, options: ImportOptions): (r: seq<TicketData>)
    ensures r == tickets
  {
    match options.handleDuplicates
    case SkipDuplicates => tickets
    case OverwriteDuplicates => tickets
    case MergeDuplicates => tickets
  }

  /** `onMutate` of the bulk import: a snapshot and no optimistic change. */
  method ImportOnMutate(cache: TicketQueryCache) returns (context: MutationContext)
    ensures context == MutationContext(cache.data)
  {
    var previousTickets := cache.GetQueryData();
    context := MutationContext(previousTickets);
  }

  /** One bulk import from start to settle: whatever the outcome, the cached list is the one before. */
  method RunBulkImport(cache: TicketQueryCache, succeeded: bool)
    modifies cache
    ensures cache.data == old(cache.data) && cache.stale
  {
    var context := ImportOnMutate(cache);
    if !succeeded {
      RollbackOnError(cache, context);
    }
    InvalidateAndRefetch(cache);
  }

  /** One entry of a bulk update: the id and the patch for it. */
  datatype BulkUpdate = BulkUpdate(id: string, data: TicketPatch)

  /** `updates.find(u => u.id === id)` */
  function FindUpdate(updates: seq<BulkUpdate>, id: string): (r: Option<BulkUpdate>)
    ensures r.Some? ==> r.value in updates && r.value.id == id
    ensures r.None? <==> forall u :: u in updates ==> u.id != id
  {
    if updates == [] then None
    else if updates[0].id == id then Some(updates[0])
    else FindUpdate(updates[1..], id)
  }

  /** The patch applied to a ticket is the first one given for its id; later ones are ignored. */
  lemma {:induction false} FirstUpdateWins(updates: seq<BulkUpdate>, i: nat, id: string)
    requires i < |updates| && updates[i].id == id
    requires forall j :: 0 <= j < i ==> updates[j].id != id
    ensures FindUpdate(updates, id) == Some(updates[i])
  {
    if i > 0 {
      FirstUpdateWins(updates[1..], i - 1, id);
    }
  }

  /** The patched ticket, or the ticket itself when no update names it. */
  function ApplyUpdates(t: Ticket, updates: seq<BulkUpdate>): Ticket {
    match FindUpdate(updates, t.id)
    case None => t
    case Some(u) => Merge(t, u.data)
  }

  /** The optimistic list of a bulk update; an absent list stays absent. */
  function OptimisticBulkUpdate(cached: Option<seq<Ticket>>, updates: seq<BulkUpdate>): (r: Option<seq<Ticket>>)
    ensures r.None? <==> cached.None?
    ensures r.Some? ==> |r.value| == |cached.value|
    ensures r.Some? ==> forall k :: 0 <= k < |r.value| ==>
      (FindUpdate(updates, cached.value[k].id).None? ==> r.value[k] == cached.value[k])
  {
    match cached
    case None => None
    case Some(tickets) => Some(seq(|tickets|, k requires 0 <= k < |tickets| => ApplyUpdates(tickets[k], updates)))
  }

  /** A ticket named by an update takes the fields of the first patch for its id. */
  lemma BulkUpdateUsesFirstPatch(tickets: seq<Ticket>, updates: seq<BulkUpdate>, k: nat, i: nat)
    requires k < |tickets| && i < |updates| && updates[i].id == tickets[k].id
    requires forall j :: 0 <= j < i ==> updates[j].id != tickets[k].id
    ensures OptimisticBulkUpdate(Some(tickets), updates).value[k] == Merge(tickets[k], updates[i].data)
  {
    FirstUpdateWins(updates, i, tickets[k].id);
  }

  /** `onMutate` of the bulk update: snapshot, then write the optimistic list. */
  method UpdateOnMutate(cache: TicketQueryCache, updates: seq<BulkUpdate>) returns (context: MutationContext)
    modifies cache
    ensures context == MutationContext(old(cache.data))
    ensures cache.data == OptimisticBulkUpdate(old(cache.data), updates)
    ensures cache.stale == old(cache.stale)
  {
    var previousTickets := cache.GetQueryData();
    cache.SetQueryData(OptimisticBulkUpdate(previousTickets, updates));
    context := MutationContext(previousTickets);
  }

  /** One bulk update from start to settle; a failure restores exactly what was cached. */
  method RunBulkUpdate(cache: TicketQueryCache, updates: seq<BulkUpdate>, succeeded: bool)
    modifies cache
    ensures succeeded ==> cache.data == OptimisticBulkUpdate(old(cache.data), updates)
    ensures !succeeded ==> cache.data == old(cache.data)
    ensures cache.stale
  {
    var context := UpdateOnMutate(cache, updates);
    if !succeeded {
      RollbackOnError(cache, context);
    }
    InvalidateAndRefetch(cache);
  }
}
