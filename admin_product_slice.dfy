/** The admin product store: fetch, create, update and delete, each with
    its pending and rejected phase.

    Every fulfilled case takes the server's reply as its payload. `Reduce`
    is the slice as written; `CorrectedReduce` stores the fetched array. */
module AdminProductSlice {
  import opened Wrappers
  import opened Collection

  datatype Op = Fetch | Create | Update | Delete

  datatype Action =
    | Pending(op: Op)
    | Rejected(op: Op, error: string)
    | Fetched(reply: Listing)
    | Created(product: Record)
    | Updated(product: Record)
    | Deleted(payload: Record)

  /** The list server reply, `{ success, products }`: an object, not an array. */
  function FetchReply(products: seq<Record>): Listing { Envelope(products) }

  /** The payload of a rejected action. The create, update and delete thunks
      pass their message to `rejectWithValue`; the fetch thunk has no
      `rejectWithValue`, so its rejection carries no payload. */
  function RejectedPayload(op: Op, e: string): Option<string> {
    if op == Fetch then None else Some(e)
  }

  /** One action, as the slice writes it: a fetch stores the payload as it
      is, and the delete drops products by the payload's `_id`. */
  function Reduce(s: ListState, a: Action): ListState {
    match a
    case Pending(_) => Started(s)
    case Rejected(op, e) => Failed(s, RejectedPayload(op, e))
    case Fetched(p) => Collection.Fetched(s, p)
    case Created(p) => Collection.Created(s, p)
    case Updated(p) => Collection.Updated(s, p)
    case Deleted(p) => DroppedLike(s, p)
  }

  /** The slice as evidently intended: a fetch stores the reply's array. */
  function CorrectedReduce(s: ListState, a: Action): ListState {
    match a
    case Fetched(p) => Collection.Fetched(s, Array(RecordsOf(p)))
    case _ => Reduce(s, a)
  }

  /** Every phase of every request: pending loads and clears the error, and
      rejection stops loading; neither touches the list. A rejected create,
      update or delete records its message, while a rejected fetch leaves
      the error empty. */
  lemma PhasesOfEveryOp(s: ListState, op: Op, e: string)
    ensures var p := Reduce(s, Pending(op)); p.loading && p.error.None? && p.items == s.items
    ensures var r := Reduce(s, Rejected(op, e)); !r.loading && r.items == s.items
    ensures op == Fetch ==> Reduce(s, Rejected(op, e)).error.None?
    ensures op != Fetch ==> Reduce(s, Rejected(op, e)).error == Some(e)
  {
  }

  /** As written, fetching the products stores the reply object, on which
      every later create, update and delete throws: the list never changes
      again until the next fetch. */
  lemma FetchStoresEnvelope(s: ListState, products: seq<Record>, p: Record)
    ensures var t := Reduce(s, Fetched(FetchReply(products)));
            t.items == Envelope(products) && !t.loading &&
            Reduce(t, Created(p)) == t && Reduce(t, Updated(p)) == t &&
            Reduce(t, Deleted(p)) == t
  {
  }

  /** Corrected, the fetched products are the list, in the server's order. */
  lemma CorrectedFetchLists(s: ListState, products: seq<Record>)
    ensures var t := CorrectedReduce(s, Fetched(FetchReply(products)));
            t.items == Array(products) && !t.loading && t.error == s.error
  {
  }

  /** Corrected, the list field always holds an array. */
  lemma CorrectedKeepsArray(s: ListState, a: Action)
    ensures s.items.Array? ==> CorrectedReduce(s, a).items.Array?
  {
  }

  /** Creating, then deleting by the new product's id, leaves the earlier
      products that have another id, in order. */
  lemma CreateThenDelete(s: ListState, p: Record)
    requires p.id.Some?
    ensures var t := Reduce(Reduce(s, Created(p)), Deleted(p));
            t.items == Collection.Dropped(s, p.id.value).items
  {
    Collection.DroppedRemovesAll(s, p.id.value, RecordsOf(s.items), [p]);
  }

  method Dispatch(store: ListStore, a: Action)
    modifies store
    ensures store.Current() == Reduce(old(store.Current()), a)
  {
    match a
    case Pending(_) => store.Start();
    case Rejected(op, e) => store.Fail(RejectedPayload(op, e));
    case Fetched(p) => store.Fetch(p);
    case Created(p) => store.Create(p);
    case Updated(p) => store.Update(p);
    case Deleted(p) => store.DeleteLike(p);
  }
}
