/** The client's catalogue store: the product list, the product on show,
    similar products, the shop filters, and the query string sent when the
    catalogue is fetched. */
module ProductSlice {
  import opened Wrappers
  import Lists

  // ---------------------------------------------------------------------
  // The fetch query

  /** A filter argument as the thunk receives it. */
  datatype Arg = Missing | Text(s: string) | Number(n: int)
  {
    /** JavaScript truthiness: "" and 0 are falsy. */
    predicate Truthy() {
      (Text? && s != "") || (Number? && n != 0)
    }
  }

  /** The arguments in the order the thunk appends them. */
  const QueryKeys: seq<string> := ["collection", "size", "color", "gender", "material", "brand",
                                   "minPrice", "maxPrice", "sortBy", "search", "category", "limit"]

  /** The query pairs: each key in `keys` whose argument is truthy. */
  function QueryFrom(args: map<string, Arg>, keys: seq<string>): (r: seq<(string, Arg)>)
    ensures forall p :: p in r <==> p.0 in keys && p.0 in args && args[p.0] == p.1 && p.1.Truthy()
    ensures |r| <= |keys|
    decreases |keys|
  {
    if |keys| == 0 then []
    else
      var k := keys[0];
      var rest := QueryFrom(args, keys[1..]);
      assert forall x :: x in keys <==> x == k || x in keys[1..];
      if k in args && args[k].Truthy() then [(k, args[k])] + rest else rest
  }

  /** The query string `fetchProductsByFilters` sends, as its pairs. */
  function Query(args: map<string, Arg>): seq<(string, Arg)> {
    QueryFrom(args, QueryKeys)
  }

  /** A parameter is sent exactly when its argument is truthy; so a minimum
      price of 0 (or "") is not sent at all, and a key that is not one of
      the twelve never is. */
  lemma QuerySendsTruthy(args: map<string, Arg>, k: string)
    ensures (exists v :: (k, v) in Query(args)) <==> k in QueryKeys && k in args && args[k].Truthy()
    ensures "minPrice" in args && args["minPrice"] in {Number(0), Text("")} ==>
              forall v :: ("minPrice", v) !in Query(args)
  {
    if k in QueryKeys && k in args && args[k].Truthy() {
      assert (k, args[k]) in Query(args);
    }
  }

  // ---------------------------------------------------------------------
  // Filters

  /** The eleven filter keys of the store. */
  const FilterKeys: set<string> := {"category", "size", "color", "gender", "material", "brand",
                                    "minPrice", "maxPrice", "sortBy", "search", "limit"}

  /** Every filter set to "". */
  function ClearedFilters(): (f: map<string, string>)
    ensures f.Keys == FilterKeys
    ensures forall k :: k in f ==> f[k] == ""
  {
    map k | k in FilterKeys :: ""
  }

  /** `setFilters`: the payload's keys win, every other filter is kept. */
  function SetFilters(filters: map<string, string>, payload: map<string, string>): (r: map<string, string>)
    ensures r.Keys == filters.Keys + payload.Keys
    ensures forall k :: k in payload ==> r[k] == payload[k]
    ensures forall k :: k in filters && k !in payload ==> r[k] == filters[k]
  {
    filters + payload
  }

  /** Setting the same filters twice is setting them once; an empty payload
      changes nothing; clearing forgets every earlier setting of a filter key. */
  lemma FilterLaws(filters: map<string, string>, payload: map<string, string>)
    ensures SetFilters(SetFilters(filters, payload), payload) == SetFilters(filters, payload)
    ensures SetFilters(filters, map[]) == filters
    ensures payload.Keys <= FilterKeys ==>
              SetFilters(ClearedFilters(), payload).Keys == FilterKeys
  {
  }

  // ---------------------------------------------------------------------
  // Products

  /** A product document: its `_id` (possibly absent) and its other fields. */
  datatype Doc = Doc(id: Option<string>, fields: map<string, string>)

  function IdOf(d: Doc): Option<string> { d.id }

  /** A thunk's payload: an array, a single object, or nothing. */
  datatype Body = Array(items: seq<Doc>) | Object(doc: Doc) | Undefined

  /** `Array.isArray(payload) ? payload : []`. */
  function ListOf(b: Body): (r: seq<Doc>)
    ensures b.Array? ==> r == b.items
    ensures !b.Array? ==> r == []
  {
    if b.Array? then b.items else []
  }

  /** `Object.assign(existing, product)`. */
  function Assign(existing: Doc, product: Doc): (r: Doc)
    ensures r.id == product.id
    ensures r.fields.Keys == existing.fields.Keys + product.fields.Keys
    ensures forall k :: k in product.fields ==> r.fields[k] == product.fields[k]
    ensures forall k :: k in existing.fields && k !in product.fields ==> r.fields[k] == existing.fields[k]
  {
    Doc(product.id, existing.fields + product.fields)
  }

  /** The detail upsert: merge into the first product with the same `_id`,
      or append. */
  function Upsert(products: seq<Doc>, product: Doc): seq<Doc> {
    var i := Lists.IndexOf(products, IdOf, product.id);
    if i >= 0 then products[i := Assign(products[i], product)] else products + [product]
  }

  /** After an upsert the first product with the payload's id carries every
      field of the payload; products before it and after it are untouched,
      and the list grows only when the id was new. */
  lemma UpsertEffect(products: seq<Doc>, product: Doc)
    ensures var r := Upsert(products, product);
            var i := Lists.IndexOf(products, IdOf, product.id);
            var j := Lists.IndexOf(r, IdOf, product.id);
            j >= 0 && r[j].id == product.id &&
            (forall k :: k in product.fields ==> k in r[j].fields && r[j].fields[k] == product.fields[k]) &&
            (i >= 0 ==> j == i && |r| == |products|) &&
            (i == -1 ==> j == |products| && r == products + [product]) &&
            (forall m :: 0 <= m < |products| && m != j ==> r[m] == products[m])
  {
    var r := Upsert(products, product);
    var i := Lists.IndexOf(products, IdOf, product.id);
    if i == -1 {
      assert IdOf(r[|products|]) == product.id;
      assert forall m :: 0 <= m < |products| ==> IdOf(r[m]) == IdOf(products[m]);
    } else {
      assert IdOf(r[i]) == product.id;
      assert forall m :: 0 <= m < i ==> IdOf(r[m]) == IdOf(products[m]);
    }
  }

  /** Receiving the same product details twice leaves the list as receiving
      them once. */
  lemma UpsertTwice(products: seq<Doc>, product: Doc)
    ensures Upsert(Upsert(products, product), product) == Upsert(products, product)
  {
    var once := Upsert(products, product);
    UpsertEffect(products, product);
    var j := Lists.IndexOf(once, IdOf, product.id);
    assert Assign(once[j], product) == once[j] by {
      assert once[j].fields + product.fields == once[j].fields;
    }
  }

  /** The update reducer: replace the first product with the payload's id,
      or nothing when there is none. */
  function Update(products: seq<Doc>, product: Doc): seq<Doc> {
    Lists.ReplaceFirst(products, IdOf, product.id, product)
  }

  /** An update never adds a product; it changes at most the first match. */
  lemma UpdateEffect(products: seq<Doc>, product: Doc)
    ensures var r := Update(products, product);
            var i := Lists.IndexOf(products, IdOf, product.id);
            |r| == |products| &&
            (i == -1 ==> r == products) &&
            (i >= 0 ==> r[i] == product) &&
            (forall m :: 0 <= m < |products| && m != i ==> r[m] == products[m])
  {
  }

  // ---------------------------------------------------------------------
  // The reducer

  datatype Thunk = FetchByFilters | FetchDetails | UpdateProduct | FetchSimilar

  datatype Action =
    | SetFiltersAction(payload: map<string, string>)
    | ClearFilters
    | Pending(thunk: Thunk)
    | Fulfilled(thunk: Thunk, body: Body)
    | Rejected(thunk: Thunk, message: string)

  datatype State = State(
    products: seq<Doc>, selectedProduct: Option<Doc>, similarProducts: seq<Doc>,
    loading: bool, status: string, error: Option<string>, filters: map<string, string>)

  const Initial := State([], None, [], false, "idle", None, ClearedFilters())

  /** One action. The details and update cases expect a product object.
      For any other payload they read `_id` of it: of an array that is
      undefined, of a missing payload it throws (only once the list has an
      entry to compare with), and a reducer that throws leaves the state as
      it was. Where the source would store a non-object payload in the
      list, the model keeps the state. */
  function Reduce(s: State, a: Action): State {
    match a
    case SetFiltersAction(p) => s.(filters := SetFilters(s.filters, p))
    case ClearFilters => s.(filters := ClearedFilters())
    case Pending(_) => s.(status := "loading")
    case Rejected(_, m) => s.(status := "failed", error := Some(m))
    case Fulfilled(t, b) =>
      match t
      case FetchByFilters => s.(products := ListOf(b), loading := false)
      case FetchSimilar => s.(similarProducts := ListOf(b), loading := false)
      case FetchDetails =>
        if b.Object? then
          s.(status := "succeeded", products := Upsert(s.products, b.doc), selectedProduct := Some(b.doc))
        else s
      case UpdateProduct =>
        match b
        case Object(d) => s.(status := "succeeded", products := Update(s.products, d))
        case Undefined => if s.products == [] then s.(status := "succeeded") else s
        case Array(_) =>
          if Lists.IndexOf(s.products, IdOf, None) == -1 then s.(status := "succeeded") else s
  }

  /** An update whose payload is not an object never changes the products:
      with no product to compare, or (for an array, whose `_id` is
      undefined) no product without an id, it only reports success; a
      missing payload against a non-empty list throws. A missing details
      payload against a non-empty list throws too. */
  lemma NonObjectPayloads(s: State, b: Body)
    ensures !b.Object? ==> Reduce(s, Fulfilled(UpdateProduct, b)).products == s.products
    ensures b.Undefined? && s.products == [] ==>
              Reduce(s, Fulfilled(UpdateProduct, b)) == s.(status := "succeeded")
    ensures b.Array? && (forall j :: 0 <= j < |s.products| ==> s.products[j].id.Some?) ==>
              Reduce(s, Fulfilled(UpdateProduct, b)) == s.(status := "succeeded")
    ensures b.Undefined? && s.products != [] ==>
              Reduce(s, Fulfilled(UpdateProduct, b)) == s && Reduce(s, Fulfilled(FetchDetails, b)) == s
  {
  }

  /** A catalogue fetch never reports success: pending sets the status to
      "loading" and fulfilment only stores the list, so the status stays
      "loading" while `loading` stays false. */
  lemma FetchLeavesStatusLoading(s: State, b: Body)
    ensures var t := Reduce(Reduce(s, Pending(FetchByFilters)), Fulfilled(FetchByFilters, b));
            t.status == "loading" && !t.loading && t.products == ListOf(b) &&
            t.filters == s.filters && t.selectedProduct == s.selectedProduct
  {
  }

  /** Showing a product selects the payload and keeps one entry for it. */
  lemma DetailsSelect(s: State, d: Doc)
    ensures var t := Reduce(s, Fulfilled(FetchDetails, Object(d)));
            t.selectedProduct == Some(d) && t.status == "succeeded" &&
            Lists.IndexOf(t.products, IdOf, d.id) >= 0 && t.filters == s.filters
  {
    UpsertEffect(s.products, d);
  }

  /** The store object; its reducers update the fields in place. */
  class ProductStore {
    var products: seq<Doc>
    var selectedProduct: Option<Doc>
    var similarProducts: seq<Doc>
    var loading: bool
    var status: string
    var error: Option<string>
    var filters: map<string, string>

    function Current(): State
      reads this
    {
      State(products, selectedProduct, similarProducts, loading, status, error, filters)
    }

    constructor ()
      ensures Current() == Initial
    {
      products, selectedProduct, similarProducts := [], None, [];
      loading, status, error := false, "idle", None;
      filters := ClearedFilters();
    }

    /** The detail upsert, in place: find the entry, then merge or push. */
    method UpsertDetails(product: Doc)
      modifies this
      ensures products == Upsert(old(products), product)
      ensures selectedProduct == Some(product) && status == "succeeded"
      ensures similarProducts == old(similarProducts) && loading == old(loading)
      ensures error == old(error) && filters == old(filters)
    {
      status := "succeeded";
      var i := Lists.FindIndex(products, IdOf, product.id);
      if i >= 0 {
        products := products[i := Assign(products[i], product)];
      } else {
        products := products + [product];
      }
      selectedProduct := Some(product);
    }

    /** The update reducer, in place. */
    method ReplaceUpdated(product: Doc)
      modifies this
      ensures products == Update(old(products), product) && status == "succeeded"
      ensures selectedProduct == old(selectedProduct) && similarProducts == old(similarProducts)
      ensures loading == old(loading) && error == old(error) && filters == old(filters)
    {
      status := "succeeded";
      var i := Lists.FindIndex(products, IdOf, product.id);
      if i != -1 {
        products := products[i := product];
      }
    }

    method Dispatch(a: Action)
      modifies this
      ensures Current() == Reduce(old(Current()), a)
    {
      match a
      case SetFiltersAction(p) =>
        filters := filters + p;
      case ClearFilters =>
        filters := ClearedFilters();
      case Pending(_) =>
        status := "loading";
      case Rejected(_, m) =>
        status := "failed";
        error := Some(m);
      case Fulfilled(t, b) =>
        match t
        case FetchByFilters =>
          products := if b.Array? then b.items else [];
          loading := false;
        case FetchSimilar =>
          similarProducts := if b.Array? then b.items else [];
          loading := false;
        case FetchDetails =>
          if b.Object? {
            UpsertDetails(b.doc);
          }
        case UpdateProduct =>
          match b
          case Object(d) =>
            ReplaceUpdated(d);
          case Undefined =>
            if products == [] {
              status := "succeeded";
            }
          case Array(_) =>
            var i := Lists.FindIndex(products, IdOf, None);
            if i == -1 {
              status := "succeeded";
            }
    }
  }
}
