/** The cart drawer's line controls: each button builds the request the
    cart API receives for that line. */
module CartContent {
  import opened Wrappers
  import opened Store
  import CartRoutes
  import Lists

  /** The body of `PUT /api/cart`. */
  datatype UpdateRequest = UpdateRequest(
    productId: Id, size: string, color: string, quantity: int, userId: Id, guestId: string)

  /** The body of `DELETE /api/cart`. */
  datatype RemoveRequest = RemoveRequest(
    productId: Id, size: string, color: string, userId: Id, guestId: string)

  /** `cart?.products || []`. */
  function CartItems(cart: Option<Cart>): (r: seq<LineItem>)
    ensures cart.None? ==> r == []
    ensures cart.Some? ==> r == cart.value.products
  {
    if cart.Some? then cart.value.products else []
  }

  /** The drawer shows "Your cart is empty" exactly when there is no cart or
      the cart has no lines. */
  predicate ShowsEmpty(cart: Option<Cart>) {
    |CartItems(cart)| == 0
  }

  lemma ShowsEmptyCases(cart: Option<Cart>)
    ensures ShowsEmpty(cart) <==> cart.None? || cart.value.products == []
  {
  }

  /** The "+" button: the same line with one more unit. */
  function Increase(item: LineItem, userId: Id, guestId: string): (r: UpdateRequest)
    ensures r.quantity == item.quantity + 1
    ensures LineKey(r.productId, r.size, r.color) == item.Key()
    ensures r.userId == userId && r.guestId == guestId
  {
    UpdateRequest(item.productId, item.size, item.color, item.quantity + 1, userId, guestId)
  }

  /** The "-" button: one unit fewer, and no request at all at 1. */
  function Decrease(item: LineItem, userId: Id, guestId: string): (r: Option<UpdateRequest>)
    ensures r.Some? <==> item.quantity > 1
    ensures r.Some? ==> r.value.quantity == item.quantity - 1 && r.value.quantity >= 1
    ensures r.Some? ==> LineKey(r.value.productId, r.value.size, r.value.color) == item.Key()
    ensures r.Some? ==> r.value.userId == userId && r.value.guestId == guestId
  {
    if item.quantity > 1 then
      Some(UpdateRequest(item.productId, item.size, item.color, item.quantity - 1, userId, guestId))
    else None
  }

  /** The delete button: exactly this line's key. */
  function Remove(item: LineItem, userId: Id, guestId: string): (r: RemoveRequest)
    ensures LineKey(r.productId, r.size, r.color) == item.Key()
    ensures r.userId == userId && r.guestId == guestId
  {
    RemoveRequest(item.productId, item.size, item.color, userId, guestId)
  }

  /** What the server does with an update request. */
  function SendUpdate(s: Backend, req: UpdateRequest): Outcome<Cart> {
    CartRoutes.UpdateItem(s, req.productId, req.quantity, req.size, req.color, req.guestId, req.userId)
  }

  /** What the server does with a remove request. */
  function SendRemove(s: Backend, req: RemoveRequest): Outcome<Cart> {
    CartRoutes.RemoveItem(s, req.productId, req.size, req.color, req.guestId, req.userId)
  }

  /** The line at `j` of the cart the server resolves for this caller. */
  ghost predicate ShownLine(s: Backend, userId: Id, guestId: string, j: int) {
    var i := CartRoutes.GetCart(s.carts, userId, guestId);
    i >= 0 && 0 <= j < |s.carts[i].products| && CartRoutes.DistinctKeys(s.carts[i].products)
  }

  /** For a line of the caller's cart, "+" succeeds and leaves one more unit
      of that line and no other change in units. */
  lemma IncreaseAddsOne(s: Backend, userId: Id, guestId: string, j: int, k: LineKey)
    requires ShownLine(s, userId, guestId, j)
    ensures var i := CartRoutes.GetCart(s.carts, userId, guestId);
            var item := s.carts[i].products[j];
            var o := SendUpdate(s, Increase(item, userId, guestId));
            o.reply.Ok? &&
            CartRoutes.QuantityOf(o.reply.value.products, k) ==
              CartRoutes.QuantityOf(s.carts[i].products, k) + (if k == item.Key() then 1 else 0)
  {
    var i := CartRoutes.GetCart(s.carts, userId, guestId);
    var lines := s.carts[i].products;
    var item := lines[j];
    var req := Increase(item, userId, guestId);
    LineFound(lines, j);
    CartRoutes.QuantityOfDistinct(lines, item.Key());
    CartRoutes.UpdateItemUnits(s, req.productId, req.quantity, req.size, req.color, guestId, userId, k);
  }

  /** For a line of the caller's cart, "-" either sends nothing (at 1) or
      succeeds, takes one unit off that line and keeps the line in the cart:
      the drawer never removes a line by decreasing it. */
  lemma DecreaseNeverRemoves(s: Backend, userId: Id, guestId: string, j: int, k: LineKey)
    requires ShownLine(s, userId, guestId, j)
    ensures var i := CartRoutes.GetCart(s.carts, userId, guestId);
            var item := s.carts[i].products[j];
            var req := Decrease(item, userId, guestId);
            req.Some? ==>
              var o := SendUpdate(s, req.value);
              o.reply.Ok? &&
              |o.reply.value.products| == |s.carts[i].products| &&
              CartRoutes.QuantityOf(o.reply.value.products, k) ==
                CartRoutes.QuantityOf(s.carts[i].products, k) - (if k == item.Key() then 1 else 0)
  {
    var i := CartRoutes.GetCart(s.carts, userId, guestId);
    var lines := s.carts[i].products;
    var item := lines[j];
    var req := Decrease(item, userId, guestId);
    if req.Some? {
      LineFound(lines, j);
      CartRoutes.QuantityOfDistinct(lines, item.Key());
      CartRoutes.UpdateItemUnits(s, req.value.productId, req.value.quantity, req.value.size,
                                 req.value.color, guestId, userId, k);
    }
  }

  /** For a line of the caller's cart, the delete button succeeds and takes
      that line out entirely, and nothing else. */
  lemma RemoveTakesLineOut(s: Backend, userId: Id, guestId: string, j: int, k: LineKey)
    requires ShownLine(s, userId, guestId, j)
    ensures var i := CartRoutes.GetCart(s.carts, userId, guestId);
            var item := s.carts[i].products[j];
            var o := SendRemove(s, Remove(item, userId, guestId));
            o.reply.Ok? &&
            |o.reply.value.products| == |s.carts[i].products| - 1 &&
            CartRoutes.QuantityOf(o.reply.value.products, k) ==
              (if k == item.Key() then 0 else CartRoutes.QuantityOf(s.carts[i].products, k))
  {
    var i := CartRoutes.GetCart(s.carts, userId, guestId);
    var lines := s.carts[i].products;
    var item := lines[j];
    LineFound(lines, j);
    CartRoutes.RemoveItemUnits(s, item.productId, item.size, item.color, guestId, userId, k);
  }

  /** With distinct keys, the line's own key finds that very line. */
  lemma LineFound(lines: seq<LineItem>, j: int)
    requires 0 <= j < |lines| && CartRoutes.DistinctKeys(lines)
    ensures Lists.IndexOf(lines, LineKeyOf, lines[j].Key()) == j
  {
    var m := Lists.IndexOf(lines, LineKeyOf, lines[j].Key());
    assert LineKeyOf(lines[j]) == lines[j].Key();
  }
}
