/** The admin user store: fetch, create, update and delete users, each
    with its pending and rejected phase. It also holds product and order
    lists that no reducer touches.

    Every fulfilled case takes the server's reply as its payload. `Reduce`
    is the slice as written; `CorrectedReduce` stores the fetched array
    and deletes the user the request named. */
module AdminSlice {
  import opened Wrappers
  import opened Collection
  import Lists

  datatype Op = Fetch | Create | Update | Delete

  datatype Action =
    | Pending(op: Op)
    | Rejected(op: Op, error: string)
    | Fetched(reply: Listing)
    | Created(user: Record)
    | Updated(user: Record)
    | Deleted(id: string, payload: Record)

  datatype State = State(users: ListState, products: seq<Record>, orders: seq<Record>)

  /** The list server reply, `{ success, users }`: an object, not an array. */
  function FetchReply(users: seq<Record>): Listing { Envelope(users) }

  /** The create server reply, `{ success, message, user: { id, ... } }`:
      no `_id` at its top level. */
  const CreateReply := Record(None, map["success" := "true", "message" := "User created successfully"])

  /** The delete server reply, `{ success, message }`: no `_id`. */
  const DeleteReply := Record(None, map["success" := "true", "message" := "User deleted successfully"])

  /** The payload of a rejected action. The create, update and delete thunks
      pass their message to `rejectWithValue`; the fetch thunk has no
      `rejectWithValue`, so its rejection carries no payload. */
  function RejectedPayload(op: Op, e: string): Option<string> {
    if op == Fetch then None else Some(e)
  }

  /** One action, as the slice writes it; only the user list, the flag and
      the error can change. */
  function Reduce(s: State, a: Action): (t: State)
    ensures t.products == s.products && t.orders == s.orders
  {
    match a
    case Pending(_) => s.(users := Started(s.users))
    case Rejected(op, e) => s.(users := Failed(s.users, RejectedPayload(op, e)))
    case Fetched(p) => s.(users := Collection.Fetched(s.users, p))
    case Created(u) => s.(users := Collection.Created(s.users, u))
    case Updated(u) => s.(users := Collection.Updated(s.users, u))
    case Deleted(_, p) => s.(users := DroppedLike(s.users, p))
  }

  /** The slice as evidently intended: a fetch stores the reply's array, and
      a delete drops the user the request named. */
  function CorrectedReduce(s: State, a: Action): (t: State)
    ensures t.products == s.products && t.orders == s.orders
  {
    match a
    case Fetched(p) => s.(users := Collection.Fetched(s.users, Array(RecordsOf(p))))
    case Deleted(id, _) => s.(users := Dropped(s.users, id))
    case _ => Reduce(s, a)
  }

  /** Pending loads and clears the error, and rejection stops loading; only
      the user list's flag and error change. A rejected create, update or
      delete records its message, while a rejected fetch leaves the error
      empty. */
  lemma PhasesOfEveryOp(s: State, op: Op, e: string)
    ensures var p := Reduce(s, Pending(op));
            p.users.loading && p.users.error.None? && p.users.items == s.users.items
    ensures var r := Reduce(s, Rejected(op, e)); !r.users.loading && r.users.items == s.users.items
    ensures op == Fetch ==> Reduce(s, Rejected(op, e)).users.error.None?
    ensures op != Fetch ==> Reduce(s, Rejected(op, e)).users.error == Some(e)
  {
  }

  /** As written, fetching the users stores the reply object, on which every
      later create, update and delete throws: the list never changes again
      until the next fetch. */
  lemma FetchStoresEnvelope(s: State, users: seq<Record>, u: Record, id: string, p: Record)
    ensures var t := Reduce(s, Fetched(FetchReply(users)));
            t.users.items == Envelope(users) && !t.users.loading &&
            Reduce(t, Created(u)) == t && Reduce(t, Updated(u)) == t &&
            Reduce(t, Deleted(id, p)) == t
  {
  }

  /** Corrected, the fetched users are the list, in the server's order. */
  lemma CorrectedFetchLists(s: State, users: seq<Record>)
    ensures var t := CorrectedReduce(s, Fetched(FetchReply(users)));
            t.users.items == Array(users) && !t.users.loading && t.users.error == s.users.error
  {
  }

  /** As written, the delete reply keeps every user that has an id, so the
      deleted user stays listed, and drops every record without one, such
      as the create replies the slice pushed. A list of users that all have
      ids is left as it is, apart from the loading flag. */
  lemma DeleteAsWrittenKeepsUser(s: State, id: string)
    ensures s.users.items.Envelope? ==> Reduce(s, Deleted(id, DeleteReply)) == s
    ensures s.users.items.Array? ==>
              var t := Reduce(s, Deleted(id, DeleteReply)).users.items.records;
              forall r :: r in t <==> r in s.users.items.records && r.id.Some?
    ensures s.users.items.Array? &&
            (forall j :: 0 <= j < |s.users.items.records| ==> s.users.items.records[j].id.Some?) ==>
              Reduce(s, Deleted(id, DeleteReply)) == s.(users := s.users.(loading := false))
  {
    DroppedLikeNeedsId(s.users, DeleteReply);
  }

  /** As written, a delete empties a user list whose records have no id,
      such as the create replies the slice pushes. */
  lemma DeleteAsWrittenEmptiesIdless(s: State, id: string)
    ensures s.users.items.Array? &&
            (forall j :: 0 <= j < |s.users.items.records| ==> s.users.items.records[j].id.None?) ==>
              Reduce(s, Deleted(id, DeleteReply)).users.items == Array([])
  {
    var rs := RecordsOf(s.users.items);
    if s.users.items.Array? && forall j :: 0 <= j < |rs| ==> rs[j].id.None? {
      Lists.RemoveKeyEvery(rs, IdOf, DeleteReply.id);
    }
  }

  /** From a fresh store, two users created and then any delete: the list
      held two create replies, and the delete leaves it empty. */
  lemma CreateTwiceThenDelete(id: string)
    ensures var s0 := State(Empty, [], []);
            var s2 := Reduce(Reduce(s0, Created(CreateReply)), Created(CreateReply));
            s2.users.items == Array([CreateReply, CreateReply]) &&
            Reduce(s2, Deleted(id, DeleteReply)).users.items == Array([])
  {
    var s0 := State(Empty, [], []);
    var s2 := Reduce(Reduce(s0, Created(CreateReply)), Created(CreateReply));
    DeleteAsWrittenEmptiesIdless(s2, id);
  }

  /** Corrected: a created user is the last one; a deleted one is gone and
      the others stay. */
  lemma UserListEffects(s: State, u: Record, id: string, payload: Record)
    ensures s.users.items.Array? ==>
              var c := CorrectedReduce(s, Created(u)).users.items.records;
              var n := |s.users.items.records|;
              |c| == n + 1 && c[n] == u && c[..n] == s.users.items.records
    ensures s.users.items.Array? ==>
              var d := CorrectedReduce(s, Deleted(id, payload)).users.items.records;
              forall r :: r in d <==> r in s.users.items.records && r.id != Some(id)
  {
    CreatedAppends(s.users, u);
    DroppedRemovesAll(s.users, id, [], []);
  }

  /** Corrected, the user list always holds an array. */
  lemma CorrectedKeepsArray(s: State, a: Action)
    ensures s.users.items.Array? ==> CorrectedReduce(s, a).users.items.Array?
  {
  }

  /** The admin store: the user list is a `ListStore`; the product and order
      lists sit beside it. */
  class AdminStore {
    const users: ListStore
    var products: seq<Record>
    var orders: seq<Record>

    function Current(): State
      reads this, users
    {
      State(users.Current(), products, orders)
    }

    constructor ()
      ensures Current() == State(Empty, [], [])
    {
      users := new ListStore();
      products, orders := [], [];
    }

    /** Only the user list is in the frame, so the other lists cannot move. */
    method Dispatch(a: Action)
      modifies users
      ensures Current() == Reduce(old(Current()), a)
    {
      match a
      case Pending(_) => users.Start();
      case Rejected(op, e) => users.Fail(RejectedPayload(op, e));
      case Fetched(p) => users.Fetch(p);
      case Created(u) => users.Create(u);
      case Updated(u) => users.Update(u);
      case Deleted(_, p) => users.DeleteLike(p);
    }
  }
}
