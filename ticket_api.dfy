/**
 * The create, update and delete mutations over the query cache: the optimistic list each one
 * writes, the snapshot it keeps, and what failure and settling do to the cache.
 */
module TicketApi {
  import opened Wrappers
  import opened Text
  import opened Seqs
  import opened Types
  import opened QueryCache
  import MockApi

  /** `temp-<now>` */
  function TempId(nowMs: nat): string {
    "temp-" + NatToString(nowMs)
  }

  /** An optimistic id never looks like an id the server hands out. */
  lemma TempIdIsNotServerId(a: nat, b: nat)
    ensures TempId(a) != MockApi.ServerId(b)
  {
    assert TempId(a)[1] == 'e';
    assert MockApi.ServerId(b)[1] == 'i';
  }

  /** The optimistic list of a create: the new ticket in front of the cached ones (none when absent). */
  function OptimisticCreate(cached: Option<seq<Ticket>>, data: TicketData, nowMs: nat, nowIso: string): (r: seq<Ticket>)
    ensures |r| == |cached.GetOr([])| + 1
    ensures r[0] == FromData(data, TempId(nowMs), nowIso)
    ensures r[1..] == cached.GetOr([])
  {
    [FromData(data, TempId(nowMs), nowIso)] + cached.GetOr([])
  }

  /** The optimistic list of an update: the patch merged into every cached ticket with the id. */
  function OptimisticUpdate(cached: Option<seq<Ticket>>, id: string, updates: TicketPatch): (r: seq<Ticket>)
    ensures |r| == |cached.GetOr([])|
    ensures forall k :: 0 <= k < |r| ==>
      r[k] == (if cached.GetOr([])[k].id == id then Merge(cached.GetOr([])[k], updates) else cached.GetOr([])[k])
  {
    MapWhere(cached.GetOr([]), HasId(id), (t: Ticket) => Merge(t, updates))
  }

  /** An empty patch leaves the cached list as it was. */
  lemma EmptyPatchIsNoop(before: seq<Ticket>, id: string)
    ensures OptimisticUpdate(Some(before), id, TicketPatch(None, None, None, None, None, None, None, None)) == before
  {
    var r := OptimisticUpdate(Some(before), id, TicketPatch(None, None, None, None, None, None, None, None));
    assert forall k :: 0 <= k < |r| ==> r[k] == before[k];
  }

  /** The optimistic list of a delete: the cached tickets without the id, in order. */
  function OptimisticDelete(cached: Option<seq<Ticket>>, id: string): (r: seq<Ticket>)
    ensures forall t :: t in r <==> t in cached.GetOr([]) && t.id != id
    ensures |r| <= |cached.GetOr([])|
  {
    Filter(cached.GetOr([]), LacksId(id))
  }

  /** The optimistic delete keeps the survivors in their cached order: it distributes over concatenation. */
  lemma {:induction false} OptimisticDeleteKeepsOrder(a: seq<Ticket>, b: seq<Ticket>, id: string)
    ensures OptimisticDelete(Some(a + b), id) == OptimisticDelete(Some(a), id) + OptimisticDelete(Some(b), id)
  {
    FilterConcat(a, b, LacksId(id));
  }

  /** Deleting the id of an optimistic create takes the cache back to its earlier list. */
  lemma DeleteUndoesCreate(before: seq<Ticket>, data: TicketData, nowMs: nat, nowIso: string)
    requires forall t :: t in before ==> t.id != TempId(nowMs)
    ensures OptimisticDelete(Some(OptimisticCreate(Some(before), data, nowMs, nowIso)), TempId(nowMs)) == before
  {
    var created := OptimisticCreate(Some(before), data, nowMs, nowIso);
    assert created == [created[0]] + before;
    FilterConcat([created[0]], before, LacksId(TempId(nowMs)));
    assert [created[0]][1..] == [];
    FilterKeepsAll(before, LacksId(TempId(nowMs)));
  }

  /** The mutation being run: its variables. */
  datatype Mutation =
    | Create(data: TicketData)
    | Update(id: string, updates: TicketPatch)
    | Delete(id: string)

  /** The list each mutation writes optimistically. */
  function Optimistic(cached: Option<seq<Ticket>>, m: Mutation, nowMs: nat, nowIso: string): seq<Ticket> {
    match m
    case Create(data) => OptimisticCreate(cached, data, nowMs, nowIso)
    case Update(id, updates) => OptimisticUpdate(cached, id, updates)
    case Delete(id) => OptimisticDelete(cached, id)
  }

  /** `onMutate`: snapshot the list (absent counts as empty), then write the optimistic list. */
  method OnMutate(cache: TicketQueryCache, m: Mutation, nowMs: nat, nowIso: string) returns (context: MutationContext)
    modifies cache
    ensures context == MutationContext(Some(old(cache.data).GetOr([])))
    ensures cache.data == Some(Optimistic(old(cache.data), m, nowMs, nowIso))
    ensures cache.stale == old(cache.stale)
  {
    var previousTickets := cache.GetQueryData();
    cache.SetQueryData(Some(Optimistic(previousTickets, m, nowMs, nowIso)));
    context := MutationContext(Some(previousTickets.GetOr([])));
  }

  /**
   * One mutation from start to settle. `succeeded` is the server's verdict. A failure puts back
   * the list as it was, except that an absent list comes back as the empty one.
   */
  method RunMutation(cache: TicketQueryCache, m: Mutation, nowMs: nat, nowIso: string, succeeded: bool)
    modifies cache
    ensures succeeded ==> cache.data == Some(Optimistic(old(cache.data), m, nowMs, nowIso))
    ensures !succeeded ==> cache.data == Some(old(cache.data).GetOr([]))
    ensures cache.stale
  {
    var context := OnMutate(cache, m, nowMs, nowIso);
    if !succeeded {
      RollbackOnError(cache, context);
    }
    InvalidateAndRefetch(cache);
  }
}
