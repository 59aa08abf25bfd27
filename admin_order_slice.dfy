/** The admin order store: fetch, status update and delete, each with its
    pending and rejected phase. There is no create.

    Every fulfilled case takes the server's reply as its payload. `Reduce`
    is the slice as written; `CorrectedReduce` stores the fetched array
    and deletes the order the request named. */
module AdminOrderSlice {
  import opened Wrappers
  import opened Collection

  datatype Op = Fetch | UpdateStatus | Delete

  datatype Action =
    | Pending(op: Op)
    | Rejected(op: Op, error: string)
    | Fetched(reply: Listing)
    | StatusUpdated(payload: Record)
    | Deleted(id: string, payload: Record)

  /** The list server reply, `{ success, orders }`: an object, not an array. */
  function FetchReply(orders: seq<Record>): Listing { Envelope(orders) }

  /** The status server reply, `{ success, order: { id, status, updatedAt } }`:
      no `_id` at its top level. */
  const StatusReply := Record(None, map["success" := "true"])

  /** The delete server reply, `{ message: "Order removed" }`: no `_id`. */
  const DeleteReply := Record(None, map["message" := "Order removed"])

  /** One action, as the slice writes it: a fetch stores the payload as it
      is, and update and delete match on the payload's `_id`. */
  function Reduce(s: ListState, a: Action): ListState {
    match a
    case Pending(_) => Started(s)
    case Rejected(_, e) => Failed(s, Some(e))
    case Fetched(p) => Collection.Fetched(s, p)
    case StatusUpdated(o) => Updated(s, o)
    case Deleted(_, p) => DroppedLike(s, p)
  }

  /** The slice as evidently intended: a fetch stores the reply's array, and
      a delete drops the order the request named. */
  function CorrectedReduce(s: ListState, a: Action): ListState {
    match a
    case Fetched(p) => Collection.Fetched(s, Array(RecordsOf(p)))
    case Deleted(id, _) => Dropped(s, id)
    case _ => Reduce(s, a)
  }

  /** As written, fetching the list stores the reply object, on which every
      later status update and delete throws: the list never changes again
      until the next fetch. */
  lemma FetchStoresEnvelope(s: ListState, orders: seq<Record>, o: Record, id: string, p: Record)
    ensures var t := Reduce(s, Fetched(FetchReply(orders)));
            t.items == Envelope(orders) && !t.loading &&
            Reduce(t, StatusUpdated(o)) == t && Reduce(t, Deleted(id, p)) == t
  {
  }

  /** As written, the status reply has no `_id`, so on a list whose orders
      all have ids the update finds no order and changes none. */
  lemma StatusUpdateAsWrittenKeepsOrders(s: ListState)
    ensures s.items.Array? && (forall j :: 0 <= j < |s.items.records| ==> s.items.records[j].id.Some?) ==>
              Reduce(s, StatusUpdated(StatusReply)).items == s.items
  {
    UpdatedReplacesFirst(s, StatusReply);
  }

  /** Corrected, the fetched orders are the list, in the server's order. */
  lemma CorrectedFetchLists(s: ListState, orders: seq<Record>)
    ensures var t := CorrectedReduce(s, Fetched(FetchReply(orders)));
            t.items == Array(orders) && !t.loading && t.error == s.error
  {
  }

  /** As written, the delete reply removes no order that has an id, so the
      deleted order stays listed; only records without an id go. */
  lemma DeleteAsWrittenKeepsOrder(s: ListState, id: string)
    ensures s.items.Envelope? ==> Reduce(s, Deleted(id, DeleteReply)) == s
    ensures s.items.Array? ==>
              var t := Reduce(s, Deleted(id, DeleteReply)).items.records;
              (forall o :: o in t <==> o in s.items.records && o.id.Some?) &&
              ((exists j :: 0 <= j < |s.items.records| && s.items.records[j].id == Some(id)) ==>
                 exists j :: 0 <= j < |t| && t[j].id == Some(id))
  {
    DroppedLikeNeedsId(s, DeleteReply);
    if s.items.Array? && exists j :: 0 <= j < |s.items.records| && s.items.records[j].id == Some(id) {
      var j :| 0 <= j < |s.items.records| && s.items.records[j].id == Some(id);
      var t := Reduce(s, Deleted(id, DeleteReply)).items.records;
      assert s.items.records[j] in t;
      var k :| 0 <= k < |t| && t[k] == s.items.records[j];
    }
  }

  /** Corrected, after a delete no order with the requested id is left,
      whatever the reply says, and every other order stays. */
  lemma DeleteRemovesOrder(s: ListState, id: string, payload: Record)
    ensures s.items.Array? ==>
              var t := CorrectedReduce(s, Deleted(id, payload));
              t.items.Array? &&
              (forall o :: o in t.items.records ==> o.id != Some(id)) &&
              (forall o :: o in s.items.records && o.id != Some(id) ==> o in t.items.records)
  {
    DroppedRemovesAll(s, id, [], []);
  }

  /** Corrected, the list field always holds an array: the store starts
      with one and no action puts anything else there. */
  lemma CorrectedKeepsArray(s: ListState, a: Action)
    ensures s.items.Array? ==> CorrectedReduce(s, a).items.Array?
  {
  }

  /** Pending loads and clears the error; rejection stops loading and
      records the message, since every thunk of this slice passes it to
      `rejectWithValue`; neither touches the orders. */
  lemma PhasesOfEveryOp(s: ListState, op: Op, e: string)
    ensures var p := Reduce(s, Pending(op)); p.loading && p.error.None? && p.items == s.items
    ensures var r := Reduce(s, Rejected(op, e)); !r.loading && r.error == Some(e) && r.items == s.items
  {
  }

  method Dispatch(store: ListStore, a: Action)
    modifies store
    ensures store.Current() == Reduce(old(store.Current()), a)
  {
    match a
    case Pending(_) => store.Start();
    case Rejected(_, e) => store.Fail(Some(e));
    case Fetched(p) => store.Fetch(p);
    case StatusUpdated(o) => store.Update(o);
    case Deleted(_, p) => store.DeleteLike(p);
  }
}
