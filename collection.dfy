/** What the admin stores share: a list of records with a loading flag and
    an error, and the reducers that fetch, append, replace or drop records
    by `_id`.

    The list field holds whatever the last fetch stored. The reducers
    expect an array, but a fetch stores its payload as it is, and the admin
    list routes reply with an object that carries the array under a key.
    On such an object `push`, `findIndex` and `filter` are not
    functions: the reducer throws, and a reducer that throws leaves the
    store as it was. */
module Collection {
  import opened Wrappers
  import Lists

  /** A record as the stores see it: its `_id`, when it has one, and its
      other fields. */
  datatype Record = Record(id: Option<string>, fields: map<string, string>)

  function IdOf(r: Record): Option<string> { r.id }

  /** What the list field holds: an array of records, or a reply object
      `{ success, <name>: [...] }` that holds the array under a key. */
  datatype Listing = Array(records: seq<Record>) | Envelope(list: seq<Record>)

  /** The records a listing carries, wherever they sit in it. */
  function RecordsOf(l: Listing): seq<Record> {
    match l
    case Array(rs) => rs
    case Envelope(rs) => rs
  }

  datatype ListState = ListState(items: Listing, loading: bool, error: Option<string>)

  const Empty := ListState(Array([]), false, None)

  /** Every pending case: loading, and the error cleared. */
  function Started(s: ListState): (t: ListState)
    ensures t.loading && t.error.None? && t.items == s.items
  {
    s.(loading := true, error := None)
  }

  /** Every rejected case: no longer loading, and the error field set to
      the rejected action's payload. That is the message a thunk passes to
      `rejectWithValue`, or `None` (undefined) for a thunk that has no
      `rejectWithValue`, whose failure carries no payload. */
  function Failed(s: ListState, payload: Option<string>): (t: ListState)
    ensures !t.loading && t.error == payload && t.items == s.items
  {
    s.(loading := false, error := payload)
  }

  /** A fetch: the list field is replaced by the payload, whatever it is. */
  function Fetched(s: ListState, payload: Listing): (t: ListState)
    ensures !t.loading && t.items == payload && t.error == s.error
  {
    s.(loading := false, items := payload)
  }

  /** A create: the payload is pushed at the end. */
  function Created(s: ListState, r: Record): ListState {
    match s.items
    case Array(rs) => s.(loading := false, items := Array(rs + [r]))
    case Envelope(_) => s
  }

  /** An update: the first record with the payload's `_id` is replaced. */
  function Updated(s: ListState, r: Record): ListState {
    match s.items
    case Array(rs) => s.(loading := false, items := Array(Lists.ReplaceFirst(rs, IdOf, r.id, r)))
    case Envelope(_) => s
  }

  /** A delete as the reducers write it: every record whose `_id` equals the
      payload's `_id` is dropped. */
  function DroppedLike(s: ListState, payload: Record): ListState {
    match s.items
    case Array(rs) => s.(loading := false, items := Array(Lists.RemoveKey(rs, IdOf, payload.id)))
    case Envelope(_) => s
  }

  /** A delete of the record the request named. */
  function Dropped(s: ListState, id: string): ListState {
    match s.items
    case Array(rs) => s.(loading := false, items := Array(Lists.RemoveKey(rs, IdOf, Some(id))))
    case Envelope(_) => s
  }

  /** A create keeps every earlier record in place and adds one at the end;
      on a stored reply object it throws and nothing changes. */
  lemma CreatedAppends(s: ListState, r: Record)
    ensures s.items.Envelope? ==> Created(s, r) == s
    ensures s.items.Array? ==>
              var t := Created(s, r);
              var n := |s.items.records|;
              t.items.Array? && |t.items.records| == n + 1 && t.items.records[n] == r &&
              t.items.records[..n] == s.items.records && !t.loading && t.error == s.error
  {
  }

  /** An update changes at most the first record with the payload's id,
      into the payload, and never the length; on a stored reply object it
      throws and nothing changes. */
  lemma UpdatedReplacesFirst(s: ListState, r: Record)
    ensures s.items.Envelope? ==> Updated(s, r) == s
    ensures s.items.Array? ==>
              var t := Updated(s, r);
              var rs := s.items.records;
              var i := Lists.IndexOf(rs, IdOf, r.id);
              t.items.Array? && |t.items.records| == |rs| && !t.loading && t.error == s.error &&
              (i == -1 ==> t.items.records == rs) &&
              (i >= 0 ==> t.items.records[i] == r) &&
              (forall m :: 0 <= m < |rs| && m != i ==> t.items.records[m] == rs[m])
  {
  }

  /** A delete by id keeps exactly the records with another id, in their
      order: deleting from two lists joined is deleting from each. On a
      stored reply object it throws and nothing changes. */
  lemma DroppedRemovesAll(s: ListState, id: string, a: seq<Record>, b: seq<Record>)
    ensures s.items.Envelope? ==> Dropped(s, id) == s
    ensures s.items.Array? ==>
              var t := Dropped(s, id);
              t.items.Array? && !t.loading && t.error == s.error &&
              forall r :: r in t.items.records <==> r in s.items.records && r.id != Some(id)
    ensures Lists.RemoveKey(a + b, IdOf, Some(id)) ==
              Lists.RemoveKey(a, IdOf, Some(id)) + Lists.RemoveKey(b, IdOf, Some(id))
  {
    if s.items.Array? {
      Lists.RemoveKeyMembers(s.items.records, IdOf, Some(id));
    }
    Lists.RemoveKeyAppend(a, b, IdOf, Some(id));
  }

  /** The same for the delete as written, by the payload's `_id`. */
  lemma DroppedLikeRemovesAll(s: ListState, payload: Record)
    ensures s.items.Envelope? ==> DroppedLike(s, payload) == s
    ensures s.items.Array? ==>
              var t := DroppedLike(s, payload);
              t.items.Array? && !t.loading && t.error == s.error &&
              forall r :: r in t.items.records <==> r in s.items.records && r.id != payload.id
  {
    if s.items.Array? {
      Lists.RemoveKeyMembers(s.items.records, IdOf, payload.id);
    }
  }

  /** A delete reply without `_id` (a bare `{ message }`) drops exactly the
      records that have no id either, and keeps the others in their order:
      a list whose records all have ids is left as it is. */
  lemma DroppedLikeNeedsId(s: ListState, payload: Record)
    ensures payload.id.None? && s.items.Array? ==>
              var t := DroppedLike(s, payload).items.records;
              (forall r :: r in t <==> r in s.items.records && r.id.Some?) &&
              ((forall j :: 0 <= j < |s.items.records| ==> s.items.records[j].id.Some?) ==>
                 t == s.items.records)
  {
    if payload.id.None? && s.items.Array? {
      Lists.RemoveKeyMembers(s.items.records, IdOf, payload.id);
      if forall j :: 0 <= j < |s.items.records| ==> s.items.records[j].id.Some? {
        Lists.RemoveKeyAbsent(s.items.records, IdOf, payload.id);
      }
    }
  }

  /** The list a store holds, updated in place by its reducers. */
  class ListStore {
    var items: Listing
    var loading: bool
    var error: Option<string>

    function Current(): ListState
      reads this
    {
      ListState(items, loading, error)
    }

    constructor ()
      ensures Current() == Empty
    {
      items, loading, error := Array([]), false, None;
    }

    method Start()
      modifies this
      ensures Current() == Started(old(Current()))
    {
      loading := true;
      error := None;
    }

    method Fail(payload: Option<string>)
      modifies this
      ensures Current() == Failed(old(Current()), payload)
    {
      loading := false;
      error := payload;
    }

    method Fetch(payload: Listing)
      modifies this
      ensures Current() == Fetched(old(Current()), payload)
    {
      loading := false;
      items := payload;
    }

    /** `push`; on a stored reply object it throws, and the store stays. */
    method Create(r: Record)
      modifies this
      ensures Current() == Created(old(Current()), r)
    {
      if items.Array? {
        loading := false;
        items := Array(items.records + [r]);
      }
    }

    /** `findIndex`, then assignment at that index. */
    method Update(r: Record)
      modifies this
      ensures Current() == Updated(old(Current()), r)
    {
      if items.Array? {
        loading := false;
        var i := Lists.FindIndex(items.records, IdOf, r.id);
        if i != -1 {
          items := Array(items.records[i := r]);
        }
      }
    }

    /** `filter` by the payload's `_id`. */
    method DeleteLike(payload: Record)
      modifies this
      ensures Current() == DroppedLike(old(Current()), payload)
    {
      if items.Array? {
        loading := false;
        items := Array(Lists.RemoveKey(items.records, IdOf, payload.id));
      }
    }

    /** `filter` by the id the request named. */
    method Delete(id: string)
      modifies this
      ensures Current() == Dropped(old(Current()), id)
    {
      if items.Array? {
        loading := false;
        items := Array(Lists.RemoveKey(items.records, IdOf, Some(id)));
      }
    }
  }
}
