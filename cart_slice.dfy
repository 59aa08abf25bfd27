/** The client's cart store: the cart last received from the API, the
    request status, and the selectors the pages read. */
module CartSlice {
  import opened Wrappers
  import opened Store
  import CartRoutes

  /** A response body as far as the store looks at it: `null`, a cart, or an
      envelope `{ success, cart }` around another body. `guestId` is the
      field `setGuestId` may have written onto an envelope. */
  datatype Data = Null | CartData(cart: Cart) | Envelope(inner: Data, guestId: Option<string>)
  {
    /** JavaScript truthiness: every object is truthy, `null` is not. */
    predicate Truthy() { !Null? }
  }

  /** `normalizeCartResponse`: the envelope's cart when it has one, else the
      body unchanged. */
  function Normalize(data: Data): (r: Data)
    ensures data.Envelope? && data.inner.Truthy() ==> r == data.inner
    ensures !(data.Envelope? && data.inner.Truthy()) ==> r == data
  {
    if data.Envelope? && data.inner.Truthy() then data.inner else data
  }

  /** A bare cart or `null` is already normal, and an envelope around one
      normalises to it. */
  lemma NormalizeCart(data: Data)
    requires data.Null? || data.CartData?
    ensures Normalize(data) == data
    ensures data.CartData? ==> Normalize(Envelope(data, None)) == data
  {
  }

  /** The thunks whose results the store records. */
  datatype Thunk = FetchCart | AddToCart | UpdateCartItem | RemoveFromCart | MergeCarts

  datatype Action =
    | ClearCart
    | SetGuestId(guestId: string)
    | Pending(thunk: Thunk)
    | Fulfilled(thunk: Thunk, payload: Data)
    | Rejected(thunk: Thunk, error: string)

  datatype State = State(cart: Data, status: string, loading: bool, error: Option<string>)

  /** The store before any action: whatever the browser kept, idle. */
  function Initial(stored: Data): (s: State)
    ensures s.cart == stored && s.status == "idle" && !s.loading && s.error.None?
  {
    State(stored, "idle", false, None)
  }

  /** Fetch and add record all three phases; update and remove record only
      success; merge records only its cart. */
  function Reduce(s: State, a: Action): State {
    match a
    case ClearCart => s.(cart := Null)
    case SetGuestId(g) =>
      (match s.cart
       case Null => s
       case CartData(c) => s.(cart := CartData(c.(guestId := Some(g))))
       case Envelope(inner, _) => s.(cart := Envelope(inner, Some(g))))
    case Pending(t) =>
      if t == FetchCart || t == AddToCart then s.(status := "loading", loading := true, error := None)
      else s
    case Fulfilled(t, payload) =>
      if t == MergeCarts then s.(cart := payload)
      else s.(status := "succeeded", loading := false, cart := payload)
    case Rejected(t, e) =>
      if t == FetchCart || t == AddToCart then s.(status := "failed", loading := false, error := Some(e))
      else s
  }

  // ---------------------------------------------------------------------
  // Selectors

  /** `cart?.products || []`. */
  function Items(s: State): (r: seq<LineItem>)
    ensures !s.cart.CartData? ==> r == []
    ensures s.cart.CartData? ==> r == s.cart.cart.products
  {
    if s.cart.CartData? then s.cart.cart.products else []
  }

  /** `cart?.totalPrice || 0`. */
  function Total(s: State): (r: Cents)
    ensures !s.cart.CartData? ==> r == 0
    ensures s.cart.CartData? ==> r == s.cart.cart.totalPrice
  {
    if s.cart.CartData? then s.cart.cart.totalPrice else 0
  }

  /** The item count: the quantities summed line by line, 0 without a cart. */
  function ItemCount(s: State): (r: int)
    ensures r == CartRoutes.Sum(Items(s), CartRoutes.Units)
  {
    if s.cart.CartData? then CartRoutes.Sum(s.cart.cart.products, CartRoutes.Units) else 0
  }

  function GuestId(s: State): Option<string> {
    match s.cart
    case CartData(c) => c.guestId
    case Envelope(_, g) => g
    case Null => None
  }

  // ---------------------------------------------------------------------
  // Properties of the reducer

  /** After `clearCart` there is no cart: no items, a total and count of 0. */
  lemma ClearCartEmpties(s: State)
    ensures var t := Reduce(s, ClearCart);
            t.cart == Null && Items(t) == [] && Total(t) == 0 && ItemCount(t) == 0 &&
            t.status == s.status && t.loading == s.loading && t.error == s.error
  {
  }

  /** `setGuestId` writes the guest id only when a cart is held, and
      changes nothing else. */
  lemma SetGuestIdEffect(s: State, g: string)
    ensures var t := Reduce(s, SetGuestId(g));
            (s.cart.Truthy() ==> GuestId(t) == Some(g) && Items(t) == Items(s) && Total(t) == Total(s)) &&
            (!s.cart.Truthy() ==> t == s) &&
            t.status == s.status && t.loading == s.loading && t.error == s.error
  {
  }

  /** Fetch and add: pending starts loading and clears the error; fulfilled
      stops loading and stores the payload; rejected stops loading and keeps
      the error. */
  lemma RequestCycle(s: State, t: Thunk, payload: Data, e: string)
    requires t == FetchCart || t == AddToCart
    ensures var p := Reduce(s, Pending(t));
            p.loading && p.error.None? && p.status == "loading" && p.cart == s.cart
    ensures var f := Reduce(s, Fulfilled(t, payload));
            !f.loading && f.cart == payload && f.status == "succeeded" && f.error == s.error
    ensures var r := Reduce(s, Rejected(t, e));
            !r.loading && r.error == Some(e) && r.status == "failed" && r.cart == s.cart
  {
  }

  /** A merged cart replaces only the cart; update and remove record no
      pending or failed phase. */
  lemma MergeTouchesOnlyCart(s: State, payload: Data, e: string)
    ensures Reduce(s, Fulfilled(MergeCarts, payload)) == s.(cart := payload)
    ensures forall t :: t == UpdateCartItem || t == RemoveFromCart || t == MergeCarts ==>
              Reduce(s, Pending(t)) == s && Reduce(s, Rejected(t, e)) == s
  {
  }

  /** After a successful fetch of a cart the server holds, the count shown
      is the number of units in that cart, whether the body came bare or in
      an envelope. */
  lemma FetchShowsServerCart(s: State, b: Backend, userId: Id, guestId: string, wrapped: bool)
    requires CartRoutes.FetchCart(b, userId, guestId).Ok?
    ensures var c := CartRoutes.FetchCart(b, userId, guestId).value;
            var body := if wrapped then Envelope(CartData(c), None) else CartData(c);
            var t := Reduce(s, Fulfilled(FetchCart, Normalize(body)));
            Items(t) == c.products && ItemCount(t) == CartRoutes.Sum(c.products, CartRoutes.Units) &&
            Total(t) == c.totalPrice
  {
  }

  /** The cart store the pages subscribe to; `Dispatch` runs one action. */
  class CartStore {
    var cart: Data
    var status: string
    var loading: bool
    var error: Option<string>

    function Current(): State
      reads this
    {
      State(cart, status, loading, error)
    }

    constructor (stored: Data)
      ensures Current() == Initial(stored)
    {
      cart, status, loading, error := stored, "idle", false, None;
    }

    method Dispatch(a: Action)
      modifies this
      ensures Current() == Reduce(old(Current()), a)
    {
      match a
      case ClearCart =>
        cart := Null;
      case SetGuestId(g) =>
        if cart.CartData? {
          cart := CartData(cart.cart.(guestId := Some(g)));
        } else if cart.Envelope? {
          cart := Envelope(cart.inner, Some(g));
        }
      case Pending(t) =>
        if t == FetchCart || t == AddToCart {
          status := "loading";
          loading := true;
          error := None;
        }
      case Fulfilled(t, payload) =>
        if t != MergeCarts {
          status := "succeeded";
          loading := false;
        }
        cart := payload;
      case Rejected(t, e) =>
        if t == FetchCart || t == AddToCart {
          status := "failed";
          loading := false;
          error := Some(e);
        }
    }
  }
}
