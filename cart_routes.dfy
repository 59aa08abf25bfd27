/** The cart handlers: resolve the caller's cart, add, update or remove a
    line, read the cart, and merge a guest cart into a user cart. */
module CartRoutes {
  import opened Wrappers
  import opened Store
  import Lists

  // ---------------------------------------------------------------------
  // Line arithmetic

  /** What a line contributes to a sum over the cart. */
  datatype Measure = Units | UnitsOf(key: LineKey) | Amount

  function Weight(l: LineItem, m: Measure): int {
    match m
    case Units => l.quantity
    case UnitsOf(k) => if l.Key() == k then l.quantity else 0
    case Amount => l.price * l.quantity
  }

  /** A left fold over the lines, as `reduce((acc, item) => acc + ..., 0)`. */
  function Sum(lines: seq<LineItem>, m: Measure): int {
    if |lines| == 0 then 0 else Sum(lines[..|lines| - 1], m) + Weight(lines[|lines| - 1], m)
  }

  /** The cart total: the sum of price times quantity. */
  function LinesTotal(lines: seq<LineItem>): Cents {
    Sum(lines, Amount)
  }

  /** How many units of one (product, size, colour) the lines hold. */
  function QuantityOf(lines: seq<LineItem>, k: LineKey): int {
    Sum(lines, UnitsOf(k))
  }

  lemma {:induction false} SumAppend(a: seq<LineItem>, b: seq<LineItem>, m: Measure)
    ensures Sum(a + b, m) == Sum(a, m) + Sum(b, m)
    decreases |b|
  {
    if |b| == 0 {
      assert a + b == a;
    } else {
      assert (a + b)[..|a + b| - 1] == a + b[..|b| - 1];
      SumAppend(a, b[..|b| - 1], m);
    }
  }

  lemma SumSingle(l: LineItem, m: Measure)
    ensures Sum([l], m) == Weight(l, m)
  {
    assert [l][..0] == [];
  }

  /** Replacing one line changes the sum by the difference of the two lines. */
  lemma SumUpdate(lines: seq<LineItem>, i: nat, v: LineItem, m: Measure)
    requires i < |lines|
    ensures Sum(lines[i := v], m) == Sum(lines, m) - Weight(lines[i], m) + Weight(v, m)
  {
    var pre, post := lines[..i], lines[i + 1..];
    assert lines == pre + [lines[i]] + post;
    assert lines[i := v] == pre + [v] + post;
    SumAppend(pre + [lines[i]], post, m);
    SumAppend(pre, [lines[i]], m);
    SumAppend(pre + [v], post, m);
    SumAppend(pre, [v], m);
    SumSingle(lines[i], m);
    SumSingle(v, m);
  }

  /** Dropping one line takes its contribution out of the sum. */
  lemma SumRemoveAt(lines: seq<LineItem>, i: nat, m: Measure)
    requires i < |lines|
    ensures Sum(Lists.RemoveAt(lines, i), m) == Sum(lines, m) - Weight(lines[i], m)
  {
    var pre, post := lines[..i], lines[i + 1..];
    assert lines == pre + [lines[i]] + post;
    assert Lists.RemoveAt(lines, i) == pre + post;
    SumAppend(pre + [lines[i]], post, m);
    SumAppend(pre, [lines[i]], m);
    SumAppend(pre, post, m);
    SumSingle(lines[i], m);
  }

  /** No two lines share a (product, size, colour) key. */
  ghost predicate DistinctKeys(lines: seq<LineItem>) {
    forall i, j :: 0 <= i < j < |lines| ==> lines[i].Key() != lines[j].Key()
  }

  /** With distinct keys, the units of a key are those of its one line, and
      a key without a line has none. */
  lemma {:induction false} QuantityOfDistinct(lines: seq<LineItem>, k: LineKey)
    requires DistinctKeys(lines)
    ensures var i := Lists.IndexOf(lines, LineKeyOf, k);
            QuantityOf(lines, k) == if i == -1 then 0 else lines[i].quantity
    decreases |lines|
  {
    if |lines| > 0 {
      var init, last := lines[..|lines| - 1], lines[|lines| - 1];
      assert DistinctKeys(init);
      QuantityOfDistinct(init, k);
      var i := Lists.IndexOf(lines, LineKeyOf, k);
      var i' := Lists.IndexOf(init, LineKeyOf, k);
      assert forall j :: 0 <= j < |init| ==> init[j] == lines[j];
      if last.Key() == k {
        assert i' == -1;
        assert i == |lines| - 1;
      } else {
        assert i == i';
      }
    }
  }

  // ---------------------------------------------------------------------
  // Cart resolution

  /** `getCart(userId, guestId)`: the first cart owned by the user when a
      user id is given, else the first cart of the guest id, else none. */
  function GetCart(carts: seq<Cart>, userId: Id, guestId: string): (i: int)
    ensures -1 <= i < |carts|
    ensures userId == "" && guestId == "" ==> i == -1
    ensures userId != "" && i >= 0 ==> carts[i].user == Some(userId)
    ensures userId != "" && i == -1 ==> forall j :: 0 <= j < |carts| ==> carts[j].user != Some(userId)
    ensures userId == "" && i >= 0 ==> carts[i].guestId == Some(guestId)
    ensures userId == "" && guestId != "" && i == -1 ==>
      forall j :: 0 <= j < |carts| ==> carts[j].guestId != Some(guestId)
  {
    if userId != "" then Lists.IndexOf(carts, CartOwner, Some(userId))
    else if guestId != "" then Lists.IndexOf(carts, CartGuest, Some(guestId))
    else -1
  }

  /** The user id wins over the guest id whenever both are given. */
  lemma GetCartPrefersUser(carts: seq<Cart>, userId: Id, guestId: string)
    requires userId != ""
    ensures GetCart(carts, userId, guestId) == GetCart(carts, userId, "")
  {
  }

  // ---------------------------------------------------------------------
  // Line updates

  /** The line pushed for a product: its name, first image url or "",
      and its price, with the request's size, colour and quantity. */
  function NewLine(product: Product, productId: Id, size: string, color: string, quantity: int): LineItem {
    LineItem(productId, product.name,
             if |product.images| > 0 then product.images[0].url else "",
             product.price, size, color, quantity)
  }

  /** Add a line to a list: a line with the same key gets the quantity
      added, otherwise the line is appended. Both the add handler and the
      merge loop do exactly this. */
  function AddLine(lines: seq<LineItem>, line: LineItem): seq<LineItem> {
    var i := Lists.IndexOf(lines, LineKeyOf, line.Key());
    if i >= 0 then lines[i := lines[i].(quantity := lines[i].quantity + line.quantity)]
    else lines + [line]
  }

  /** What adding a line does: when a line has the same product, size and
      colour, the first such line gets the quantity added and every line
      keeps its place and its other fields; otherwise the line is pushed
      after the unchanged earlier lines. */
  lemma AddLineEffect(lines: seq<LineItem>, line: LineItem)
    ensures var r := AddLine(lines, line);
            var i := Lists.IndexOf(lines, LineKeyOf, line.Key());
            (i >= 0 ==>
               lines[i].Key() == line.Key() && |r| == |lines| &&
               r[i] == lines[i].(quantity := lines[i].quantity + line.quantity) &&
               forall j :: 0 <= j < |lines| && j != i ==> r[j] == lines[j]) &&
            (i == -1 ==>
               (forall j :: 0 <= j < |lines| ==> lines[j].Key() != line.Key()) &&
               |r| == |lines| + 1 && r[..|lines|] == lines && r[|lines|] == line)
  {
  }

  /** The `findIndex` on a line's product, size and colour, then either
      raising the quantity of the line found or pushing the new line. */
  method AddToLines(lines: seq<LineItem>, line: LineItem) returns (r: seq<LineItem>)
    ensures r == AddLine(lines, line)
  {
    var j := Lists.FindIndex(lines, LineKeyOf, line.Key());
    if j > -1 {
      r := lines[j := lines[j].(quantity := lines[j].quantity + line.quantity)];
    } else {
      r := lines + [line];
    }
  }

  /** Adding a line adds its units to its own key and to no other key. */
  lemma AddLineUnits(lines: seq<LineItem>, line: LineItem, k: LineKey)
    ensures QuantityOf(AddLine(lines, line), k) ==
            QuantityOf(lines, k) + (if line.Key() == k then line.quantity else 0)
  {
    var i := Lists.IndexOf(lines, LineKeyOf, line.Key());
    if i >= 0 {
      var raised := lines[i].(quantity := lines[i].quantity + line.quantity);
      assert AddLine(lines, line) == lines[i := raised];
      assert lines[i].Key() == raised.Key() == line.Key();
      assert Weight(raised, UnitsOf(k)) ==
             Weight(lines[i], UnitsOf(k)) + (if line.Key() == k then line.quantity else 0);
      SumUpdate(lines, i, raised, UnitsOf(k));
    } else {
      assert AddLine(lines, line) == lines + [line];
      SumAppend(lines, [line], UnitsOf(k));
      SumSingle(line, UnitsOf(k));
    }
  }

  /** Adding a line never gives two lines the same key. */
  lemma AddLineDistinct(lines: seq<LineItem>, line: LineItem)
    requires DistinctKeys(lines)
    ensures DistinctKeys(AddLine(lines, line))
  {
    var r := AddLine(lines, line);
    var i := Lists.IndexOf(lines, LineKeyOf, line.Key());
    if i == -1 {
      assert forall j :: 0 <= j < |lines| ==> r[j] == lines[j];
      assert forall j :: 0 <= j < |lines| ==> r[j].Key() != r[|lines|].Key();
    } else {
      assert forall j :: 0 <= j < |r| ==> r[j].Key() == lines[j].Key();
    }
  }

  /** Sets a matched line's quantity; a quantity of 0 removes the line. */
  function SetQuantity(lines: seq<LineItem>, i: nat, quantity: int): seq<LineItem>
    requires i < |lines|
  {
    if quantity == 0 then Lists.RemoveAt(lines, i)
    else lines[i := lines[i].(quantity := quantity)]
  }

  /** The merge: every guest line is added to the user's lines, in order. */
  function MergeLines(lines: seq<LineItem>, guest: seq<LineItem>): seq<LineItem>
    decreases |guest|
  {
    if |guest| == 0 then lines else MergeLines(AddLine(lines, guest[0]), guest[1..])
  }

  lemma {:induction false} QuantityOfCons(l: LineItem, rest: seq<LineItem>, k: LineKey)
    ensures QuantityOf([l] + rest, k) == Weight(l, UnitsOf(k)) + QuantityOf(rest, k)
  {
    SumAppend([l], rest, UnitsOf(k));
    SumSingle(l, UnitsOf(k));
  }

  /** After a merge every key holds the user's units plus the guest's units. */
  lemma {:induction false} MergeLinesUnits(lines: seq<LineItem>, guest: seq<LineItem>, k: LineKey)
    ensures QuantityOf(MergeLines(lines, guest), k) == QuantityOf(lines, k) + QuantityOf(guest, k)
    decreases |guest|
  {
    if |guest| == 0 {
      assert Sum(guest, UnitsOf(k)) == 0;
    } else {
      MergeLinesUnits(AddLine(lines, guest[0]), guest[1..], k);
      AddLineUnits(lines, guest[0], k);
      assert guest == [guest[0]] + guest[1..];
      QuantityOfCons(guest[0], guest[1..], k);
    }
  }

  /** A merge keeps the user's lines free of duplicate keys. */
  lemma {:induction false} MergeLinesDistinct(lines: seq<LineItem>, guest: seq<LineItem>)
    requires DistinctKeys(lines)
    ensures DistinctKeys(MergeLines(lines, guest))
    decreases |guest|
  {
    if |guest| > 0 {
      AddLineDistinct(lines, guest[0]);
      MergeLinesDistinct(AddLine(lines, guest[0]), guest[1..]);
    }
  }

  /** A merge keeps the user's lines where they were, with the same product,
      name, image, price, size and colour; only quantities change, and
      unmatched guest lines come after them. */
  lemma {:induction false} MergeLinesKeepsUserLines(lines: seq<LineItem>, guest: seq<LineItem>)
    ensures var r := MergeLines(lines, guest);
            |r| >= |lines| &&
            forall j :: 0 <= j < |lines| ==> r[j] == lines[j].(quantity := r[j].quantity)
    decreases |guest|
  {
    if |guest| > 0 {
      var next := AddLine(lines, guest[0]);
      MergeLinesKeepsUserLines(next, guest[1..]);
      assert forall j :: 0 <= j < |lines| ==> next[j] == lines[j].(quantity := next[j].quantity);
    }
  }

  // ---------------------------------------------------------------------
  // The handlers as functions of the database

  /** POST /api/cart. */
  function AddItem(s: Backend, userId: Id, productId: Id, quantity: int, size: string,
                   color: string, guestId: string, generatedGuestId: string): Outcome<Cart>
  {
    var p := Lists.IndexOf(s.products, ProductIdOf, productId);
    if p == -1 then Outcome(s, Fail(404, "Product not found"))
    else
      var line := NewLine(s.products[p], productId, size, color, quantity);
      var i := GetCart(s.carts, userId, guestId);
      if i >= 0 then
        var lines := AddLine(s.carts[i].products, line);
        var cart := s.carts[i].(products := lines, totalPrice := LinesTotal(lines));
        Outcome(s.(carts := s.carts[i := cart]), Ok(200, cart))
      else
        var cart := Cart(None, if userId != "" then Some(userId) else None,
                         if guestId != "" then None else Some(generatedGuestId),
                         [line], s.products[p].price * quantity);
        Outcome(s.(carts := s.carts + [cart]), Ok(201, cart))
  }

  /** What an add does. An unknown product answers 404 and changes nothing.
      Otherwise the line carries the product's name, its first image's url
      or "", and its price, with the request's size, colour and quantity.
      A found cart gets that line added and its total recomputed, keeping
      its place and owners; without one a new cart holding only that line,
      priced at price times quantity, is appended with status 201. Only the
      carts change. */
  lemma AddItemEffect(s: Backend, userId: Id, productId: Id, quantity: int, size: string,
                      color: string, guestId: string, generatedGuestId: string)
    ensures var o := AddItem(s, userId, productId, quantity, size, color, guestId, generatedGuestId);
            var p := Lists.IndexOf(s.products, ProductIdOf, productId);
            var i := GetCart(s.carts, userId, guestId);
            (p == -1 ==>
               (forall j :: 0 <= j < |s.products| ==> s.products[j].id != productId) &&
               o.state == s && o.reply == Fail(404, "Product not found")) &&
            (p >= 0 ==>
               var pr := s.products[p];
               var line := LineItem(productId, pr.name,
                                    if |pr.images| > 0 then pr.images[0].url else "",
                                    pr.price, size, color, quantity);
               pr.id == productId && o.state == s.(carts := o.state.carts) && o.reply.Ok? &&
               (i >= 0 ==>
                  var lines := AddLine(s.carts[i].products, line);
                  o.reply.code == 200 && |o.state.carts| == |s.carts| &&
                  o.state.carts[i] == o.reply.value &&
                  o.reply.value == s.carts[i].(products := lines, totalPrice := LinesTotal(lines)) &&
                  forall j :: 0 <= j < |s.carts| && j != i ==> o.state.carts[j] == s.carts[j]) &&
               (i == -1 ==>
                  o.reply.code == 201 && o.state.carts == s.carts + [o.reply.value] &&
                  o.reply.value.products == [line] && o.reply.value.totalPrice == pr.price * quantity))
  {
  }

  /** PUT /api/cart. */
  function UpdateItem(s: Backend, productId: Id, quantity: int, size: string, color: string,
                      guestId: string, userId: Id): Outcome<Cart>
  {
    var i := GetCart(s.carts, userId, guestId);
    if i == -1 then Outcome(s, Fail(404, "Cart not found"))
    else
      var j := Lists.IndexOf(s.carts[i].products, LineKeyOf, LineKey(productId, size, color));
      if j == -1 then Outcome(s, Fail(404, "Product not found in cart"))
      else
        var lines := SetQuantity(s.carts[i].products, j, quantity);
        var cart := s.carts[i].(products := lines, totalPrice := LinesTotal(lines));
        Outcome(s.(carts := s.carts[i := cart]), Ok(200, cart))
  }

  /** DELETE /api/cart. */
  function RemoveItem(s: Backend, productId: Id, size: string, color: string,
                      guestId: string, userId: Id): Outcome<Cart>
  {
    var i := GetCart(s.carts, userId, guestId);
    if i == -1 then Outcome(s, Fail(404, "Cart not found"))
    else
      var j := Lists.IndexOf(s.carts[i].products, LineKeyOf, LineKey(productId, size, color));
      if j == -1 then Outcome(s, Fail(404, "Product not found in cart"))
      else
        var lines := Lists.RemoveAt(s.carts[i].products, j);
        var cart := s.carts[i].(products := lines, totalPrice := LinesTotal(lines));
        Outcome(s.(carts := s.carts[i := cart]), Ok(200, cart))
  }

  /** GET /api/cart. */
  function FetchCart(s: Backend, userId: Id, guestId: string): Reply<Cart> {
    var i := GetCart(s.carts, userId, guestId);
    if i >= 0 then Ok(200, s.carts[i]) else Fail(404, "Cart not found")
  }

  /** `Cart.findOneAndDelete(filter)`: removes the first match, if any. */
  function DeleteFirstGuest(carts: seq<Cart>, guestId: string): seq<Cart> {
    var i := Lists.IndexOf(carts, CartGuest, Some(guestId));
    if i == -1 then carts else Lists.RemoveAt(carts, i)
  }

  /** POST /api/cart/merge, for the authenticated user `userId`. */
  function Merge(s: Backend, userId: Id, guestId: string): Outcome<Cart> {
    if guestId == "" then Outcome(s, Fail(400, "guestId is required"))
    else
      var g := Lists.IndexOf(s.carts, CartGuest, Some(guestId));
      var u := Lists.IndexOf(s.carts, CartOwner, Some(userId));
      if g == -1 then Outcome(s, Fail(404, "Guest cart not found"))
      else if |s.carts[g].products| == 0 then Outcome(s, Fail(400, "Guest cart is empty"))
      else if u == -1 then
        var cart := s.carts[g].(user := Some(userId), guestId := None);
        Outcome(s.(carts := s.carts[g := cart]), Ok(200, cart))
      else
        var lines := MergeLines(s.carts[u].products, s.carts[g].products);
        var cart := s.carts[u].(products := lines, totalPrice := LinesTotal(lines));
        Outcome(s.(carts := DeleteFirstGuest(s.carts[u := cart], guestId)), Ok(200, cart))
  }

  // ---------------------------------------------------------------------
  // The handlers as they run: in-place updates of the fetched cart

  method HandleAdd(db: Database, userId: Id, productId: Id, quantity: int, size: string,
                   color: string, guestId: string, generatedGuestId: string)
    returns (reply: Reply<Cart>)
    modifies db
    ensures var o := AddItem(old(db.State()), userId, productId, quantity, size, color, guestId, generatedGuestId);
            db.State() == o.state && reply == o.reply
  {
    ghost var s := db.State();
    var p := Lists.IndexOf(db.products, ProductIdOf, productId);
    if p == -1 {
      return Fail(404, "Product not found");
    }
    var product := db.products[p];
    var line := NewLine(product, productId, size, color, quantity);
    var i := GetCart(db.carts, userId, guestId);
    if i >= 0 {
      var cart := db.carts[i];
      var lines := AddToLines(cart.products, line);
      cart := cart.(products := lines, totalPrice := LinesTotal(lines));
      db.carts := db.carts[i := cart];
      reply := Ok(200, cart);
      assert db.State() == s.(carts := s.carts[i := cart]);
    } else {
      var cart := Cart(None, if userId != "" then Some(userId) else None,
                       if guestId != "" then None else Some(generatedGuestId),
                       [line], product.price * quantity);
      db.carts := db.carts + [cart];
      reply := Ok(201, cart);
      assert db.State() == s.(carts := s.carts + [cart]);
    }
  }

  method HandleUpdate(db: Database, productId: Id, quantity: int, size: string, color: string,
                      guestId: string, userId: Id)
    returns (reply: Reply<Cart>)
    modifies db
    ensures var o := UpdateItem(old(db.State()), productId, quantity, size, color, guestId, userId);
            db.State() == o.state && reply == o.reply
  {
    var i := GetCart(db.carts, userId, guestId);
    if i == -1 {
      return Fail(404, "Cart not found");
    }
    var cart := db.carts[i];
    var lines := cart.products;
    var j := Lists.FindIndex(lines, LineKeyOf, LineKey(productId, size, color));
    if j > -1 {
      if quantity == 0 {
        lines := lines[..j] + lines[j + 1..];
      } else {
        lines := lines[j := lines[j].(quantity := quantity)];
      }
    } else {
      return Fail(404, "Product not found in cart");
    }
    cart := cart.(products := lines, totalPrice := LinesTotal(lines));
    db.carts := db.carts[i := cart];
    reply := Ok(200, cart);
  }

  /** The found case of `RemoveItem`, spelled out for the handler. */
  lemma RemoveItemFound(s: Backend, productId: Id, size: string, color: string,
                        guestId: string, userId: Id, i: int, j: int)
    requires i == GetCart(s.carts, userId, guestId) && i >= 0
    requires j == Lists.IndexOf(s.carts[i].products, LineKeyOf, LineKey(productId, size, color)) && j >= 0
    ensures var lines := Lists.RemoveAt(s.carts[i].products, j);
            var cart := s.carts[i].(products := lines, totalPrice := LinesTotal(lines));
            RemoveItem(s, productId, size, color, guestId, userId) ==
              Outcome(s.(carts := s.carts[i := cart]), Ok(200, cart))
  {
  }

  method HandleRemove(db: Database, productId: Id, size: string, color: string,
                      guestId: string, userId: Id)
    returns (reply: Reply<Cart>)
    modifies db
    ensures var o := RemoveItem(old(db.State()), productId, size, color, guestId, userId);
            db.State() == o.state && reply == o.reply
  {
    ghost var s := db.State();
    var carts := db.carts;
    var i := GetCart(carts, userId, guestId);
    if i == -1 {
      return Fail(404, "Cart not found");
    }
    var j := Lists.FindIndex(carts[i].products, LineKeyOf, LineKey(productId, size, color));
    if j == -1 {
      return Fail(404, "Product not found in cart");
    }
    var lines := Lists.RemoveAt(carts[i].products, j);
    var cart := carts[i].(products := lines, totalPrice := LinesTotal(lines));
    RemoveItemFound(s, productId, size, color, guestId, userId, i, j);
    db.carts := carts[i := cart];
    reply := Ok(200, cart);
  }

  /** One iteration of the merge: the next guest line is added first. */
  lemma MergeLinesStep(lines: seq<LineItem>, guest: seq<LineItem>, k: nat)
    requires k < |guest|
    ensures MergeLines(lines, guest[k..]) == MergeLines(AddLine(lines, guest[k]), guest[k + 1..])
  {
    assert guest[k..][0] == guest[k] && guest[k..][1..] == guest[k + 1..];
  }

  /** The `forEach` over the guest lines: each one is added to the user's
      lines, raising the quantity of a matching line or appending it. */
  method MergeLoop(userLines: seq<LineItem>, guestLines: seq<LineItem>) returns (lines: seq<LineItem>)
    ensures lines == MergeLines(userLines, guestLines)
  {
    ghost var merged := MergeLines(userLines, guestLines);
    lines := userLines;
    var k := 0;
    assert guestLines[0..] == guestLines;
    while k < |guestLines|
      invariant 0 <= k <= |guestLines|
      invariant MergeLines(lines, guestLines[k..]) == merged
    {
      MergeLinesStep(lines, guestLines, k);
      lines := AddToLines(lines, guestLines[k]);
      k := k + 1;
    }
    assert guestLines[k..] == [];
  }

  method HandleMerge(db: Database, userId: Id, guestId: string) returns (reply: Reply<Cart>)
    modifies db
    ensures var o := Merge(old(db.State()), userId, guestId);
            db.State() == o.state && reply == o.reply
  {
    if guestId == "" {
      return Fail(400, "guestId is required");
    }
    var g := Lists.IndexOf(db.carts, CartGuest, Some(guestId));
    var u := Lists.IndexOf(db.carts, CartOwner, Some(userId));
    if g == -1 {
      return Fail(404, "Guest cart not found");
    }
    var guestCart := db.carts[g];
    if |guestCart.products| == 0 {
      return Fail(400, "Guest cart is empty");
    }
    if u == -1 {
      guestCart := guestCart.(user := Some(userId), guestId := None);
      db.carts := db.carts[g := guestCart];
      return Ok(200, guestCart);
    }
    var userCart := db.carts[u];
    var lines := MergeLoop(userCart.products, guestCart.products);
    userCart := userCart.(products := lines, totalPrice := LinesTotal(lines));
    db.carts := db.carts[u := userCart];
    db.carts := DeleteFirstGuest(db.carts, guestId);
    reply := Ok(200, userCart);
  }

  // ---------------------------------------------------------------------
  // Properties of the handlers

  /** Every cart's total is the sum of its lines and no cart lists one
      (product, size, colour) twice. */
  ghost predicate CartsValid(carts: seq<Cart>) {
    forall i :: 0 <= i < |carts| ==>
      carts[i].totalPrice == LinesTotal(carts[i].products) && DistinctKeys(carts[i].products)
  }

  lemma CartsValidUpdate(carts: seq<Cart>, i: nat, c: Cart)
    requires CartsValid(carts) && i < |carts|
    requires c.totalPrice == LinesTotal(c.products) && DistinctKeys(c.products)
    ensures CartsValid(carts[i := c])
  {
  }

  lemma CartsValidRemoveAt(carts: seq<Cart>, i: nat)
    requires CartsValid(carts) && i < |carts|
    ensures CartsValid(Lists.RemoveAt(carts, i))
  {
    var r := Lists.RemoveAt(carts, i);
    assert forall j :: 0 <= j < |r| ==> r[j] == carts[if j < i then j else j + 1];
  }

  lemma DistinctKeysRemoveAt(lines: seq<LineItem>, i: nat)
    requires DistinctKeys(lines) && i < |lines|
    ensures DistinctKeys(Lists.RemoveAt(lines, i))
  {
    var r := Lists.RemoveAt(lines, i);
    assert forall j :: 0 <= j < |r| ==> r[j] == lines[if j < i then j else j + 1];
  }

  /** Adding an item keeps every cart valid. */
  lemma AddItemKeepsCartsValid(s: Backend, userId: Id, productId: Id, quantity: int, size: string,
                               color: string, guestId: string, generatedGuestId: string)
    requires CartsValid(s.carts)
    ensures CartsValid(AddItem(s, userId, productId, quantity, size, color, guestId, generatedGuestId).state.carts)
  {
    var p := Lists.IndexOf(s.products, ProductIdOf, productId);
    if p >= 0 {
      var line := NewLine(s.products[p], productId, size, color, quantity);
      var i := GetCart(s.carts, userId, guestId);
      if i >= 0 {
        AddLineDistinct(s.carts[i].products, line);
      } else {
        SumSingle(line, Amount);
      }
    }
  }

  /** Updating an item keeps every cart valid. */
  lemma UpdateItemKeepsCartsValid(s: Backend, productId: Id, quantity: int, size: string, color: string,
                                  guestId: string, userId: Id)
    requires CartsValid(s.carts)
    ensures CartsValid(UpdateItem(s, productId, quantity, size, color, guestId, userId).state.carts)
  {
    var i := GetCart(s.carts, userId, guestId);
    if i >= 0 {
      var lines := s.carts[i].products;
      var j := Lists.IndexOf(lines, LineKeyOf, LineKey(productId, size, color));
      if j >= 0 {
        var updated := SetQuantity(lines, j, quantity);
        if quantity == 0 {
          DistinctKeysRemoveAt(lines, j);
        } else {
          DistinctKeysSetQuantity(lines, j, quantity);
        }
        CartsValidUpdate(s.carts, i, s.carts[i].(products := updated, totalPrice := LinesTotal(updated)));
      }
    }
  }

  /** Changing one line's quantity keeps the keys distinct. */
  lemma DistinctKeysSetQuantity(lines: seq<LineItem>, j: nat, quantity: int)
    requires DistinctKeys(lines) && j < |lines|
    ensures DistinctKeys(lines[j := lines[j].(quantity := quantity)])
  {
    var r := lines[j := lines[j].(quantity := quantity)];
    assert forall m :: 0 <= m < |lines| ==> r[m].Key() == lines[m].Key();
  }

  /** Removing an item keeps every cart valid. */
  lemma RemoveItemKeepsCartsValid(s: Backend, productId: Id, size: string, color: string,
                                  guestId: string, userId: Id)
    requires CartsValid(s.carts)
    ensures CartsValid(RemoveItem(s, productId, size, color, guestId, userId).state.carts)
  {
    var i := GetCart(s.carts, userId, guestId);
    if i >= 0 {
      var j := Lists.IndexOf(s.carts[i].products, LineKeyOf, LineKey(productId, size, color));
      if j >= 0 {
        DistinctKeysRemoveAt(s.carts[i].products, j);
      }
    }
  }

  /** Merging keeps every cart valid. */
  lemma MergeKeepsCartsValid(s: Backend, userId: Id, guestId: string)
    requires CartsValid(s.carts)
    ensures CartsValid(Merge(s, userId, guestId).state.carts)
  {
    if guestId != "" {
      var g := Lists.IndexOf(s.carts, CartGuest, Some(guestId));
      var u := Lists.IndexOf(s.carts, CartOwner, Some(userId));
      if g >= 0 && |s.carts[g].products| > 0 {
        if u == -1 {
          CartsValidUpdate(s.carts, g, s.carts[g].(user := Some(userId), guestId := None));
        } else {
          var lines := MergeLines(s.carts[u].products, s.carts[g].products);
          var carts := s.carts[u := s.carts[u].(products := lines, totalPrice := LinesTotal(lines))];
          assert Merge(s, userId, guestId).state.carts == DeleteFirstGuest(carts, guestId);
          MergedCartValid(s.carts, u, g);
          DeleteFirstGuestValid(carts, guestId);
        }
      }
    }
  }

  /** Writing the merged lines into the user's cart keeps every cart valid. */
  lemma MergedCartValid(carts: seq<Cart>, u: nat, g: nat)
    requires CartsValid(carts) && u < |carts| && g < |carts|
    ensures var lines := MergeLines(carts[u].products, carts[g].products);
            CartsValid(carts[u := carts[u].(products := lines, totalPrice := LinesTotal(lines))])
  {
    var lines := MergeLines(carts[u].products, carts[g].products);
    MergeLinesDistinct(carts[u].products, carts[g].products);
    CartsValidUpdate(carts, u, carts[u].(products := lines, totalPrice := LinesTotal(lines)));
  }

  /** Deleting the guest cart keeps every cart valid. */
  lemma DeleteFirstGuestValid(carts: seq<Cart>, guestId: string)
    requires CartsValid(carts)
    ensures CartsValid(DeleteFirstGuest(carts, guestId))
  {
    var d := Lists.IndexOf(carts, CartGuest, Some(guestId));
    if d >= 0 {
      CartsValidRemoveAt(carts, d);
    }
  }

  /** Adding to an existing cart raises the requested line by the requested
      quantity and leaves every other (product, size, colour) as it was. */
  lemma AddItemUnits(s: Backend, userId: Id, productId: Id, quantity: int, size: string,
                     color: string, guestId: string, generatedGuestId: string, k: LineKey)
    requires Lists.IndexOf(s.products, ProductIdOf, productId) >= 0
    requires GetCart(s.carts, userId, guestId) >= 0
    ensures var o := AddItem(s, userId, productId, quantity, size, color, guestId, generatedGuestId);
            o.reply.Ok? && o.reply.code == 200 &&
            QuantityOf(o.reply.value.products, k) ==
              QuantityOf(s.carts[GetCart(s.carts, userId, guestId)].products, k) +
              (if k == LineKey(productId, size, color) then quantity else 0)
  {
    var p := Lists.IndexOf(s.products, ProductIdOf, productId);
    var i := GetCart(s.carts, userId, guestId);
    AddLineUnits(s.carts[i].products, NewLine(s.products[p], productId, size, color, quantity), k);
  }

  /** A 200 from the add handler leaves the cart where a read finds it:
      reading the cart right after returns what the add returned. */
  lemma AddThenFetch(s: Backend, userId: Id, productId: Id, quantity: int, size: string,
                     color: string, guestId: string, generatedGuestId: string)
    ensures var o := AddItem(s, userId, productId, quantity, size, color, guestId, generatedGuestId);
            o.reply.Ok? && o.reply.code == 200 ==> FetchCart(o.state, userId, guestId) == o.reply
  {
    var o := AddItem(s, userId, productId, quantity, size, color, guestId, generatedGuestId);
    var i := GetCart(s.carts, userId, guestId);
    if o.reply.Ok? && o.reply.code == 200 {
      var carts := o.state.carts;
      assert carts == s.carts[i := carts[i]];
      Lists.IndexOfSameKeys(s.carts, carts, CartOwner, Some(userId));
      Lists.IndexOfSameKeys(s.carts, carts, CartGuest, Some(guestId));
    }
  }

  /** The cart created by the add handler is written with `userId` and,
      when the request carried a guest id, without one; the lookup reads
      `user` and `guestId`. So the request that created a cart never finds
      it again: the next add by the same caller creates yet another cart. */
  lemma NewCartIsNotFound(s: Backend, userId: Id, productId: Id, quantity: int, size: string,
                          color: string, guestId: string, generatedGuestId: string)
    ensures var o := AddItem(s, userId, productId, quantity, size, color, guestId, generatedGuestId);
            o.reply.Ok? && o.reply.code == 201 ==>
              GetCart(o.state.carts, userId, guestId) == -1 &&
              |o.state.carts| == |s.carts| + 1 &&
              o.reply.value.user == None &&
              (guestId != "" ==> o.reply.value.guestId == None)
  {
  }

  /** Repeating the same add from a caller without a findable cart grows
      the collection by one cart each time. */
  lemma RepeatedAddCreatesCarts(s: Backend, userId: Id, productId: Id, quantity: int, size: string,
                                color: string, guestId: string, g1: string, g2: string)
    requires Lists.IndexOf(s.products, ProductIdOf, productId) >= 0
    requires GetCart(s.carts, userId, guestId) == -1
    ensures var s1 := AddItem(s, userId, productId, quantity, size, color, guestId, g1).state;
            var o2 := AddItem(s1, userId, productId, quantity, size, color, guestId, g2);
            o2.reply.Ok? && o2.reply.code == 201 && |o2.state.carts| == |s.carts| + 2
  {
    NewCartIsNotFound(s, userId, productId, quantity, size, color, guestId, g1);
    var s1 := AddItem(s, userId, productId, quantity, size, color, guestId, g1).state;
    assert s1.products == s.products;
  }

  /** Updating sets the requested line to exactly the requested quantity
      (0 takes it out) and leaves every other key as it was. */
  lemma UpdateItemUnits(s: Backend, productId: Id, quantity: int, size: string, color: string,
                        guestId: string, userId: Id, k: LineKey)
    requires var i := GetCart(s.carts, userId, guestId); i >= 0 && DistinctKeys(s.carts[i].products)
    ensures var i := GetCart(s.carts, userId, guestId);
            var o := UpdateItem(s, productId, quantity, size, color, guestId, userId);
            o.reply.Ok? ==>
              QuantityOf(o.reply.value.products, k) ==
                if k == LineKey(productId, size, color) then quantity else QuantityOf(s.carts[i].products, k)
  {
    var i := GetCart(s.carts, userId, guestId);
    var lines := s.carts[i].products;
    var key := LineKey(productId, size, color);
    var j := Lists.IndexOf(lines, LineKeyOf, key);
    if j >= 0 {
      QuantityOfDistinct(lines, key);
      if quantity == 0 {
        SumRemoveAt(lines, j, UnitsOf(k));
      } else {
        SumUpdate(lines, j, lines[j].(quantity := quantity), UnitsOf(k));
      }
    }
  }

  /** Removing takes the requested line out entirely and leaves every other
      key as it was. */
  lemma RemoveItemUnits(s: Backend, productId: Id, size: string, color: string,
                        guestId: string, userId: Id, k: LineKey)
    requires var i := GetCart(s.carts, userId, guestId); i >= 0 && DistinctKeys(s.carts[i].products)
    ensures var i := GetCart(s.carts, userId, guestId);
            var o := RemoveItem(s, productId, size, color, guestId, userId);
            o.reply.Ok? ==>
              QuantityOf(o.reply.value.products, k) ==
                if k == LineKey(productId, size, color) then 0 else QuantityOf(s.carts[i].products, k)
  {
    var i := GetCart(s.carts, userId, guestId);
    var lines := s.carts[i].products;
    var key := LineKey(productId, size, color);
    var j := Lists.IndexOf(lines, LineKeyOf, key);
    if j >= 0 {
      QuantityOfDistinct(lines, key);
      SumRemoveAt(lines, j, UnitsOf(k));
    }
  }

  /** Update and remove answer 404 for a missing cart or line and then
      change nothing. */
  lemma UpdateRemoveNotFound(s: Backend, productId: Id, quantity: int, size: string, color: string,
                             guestId: string, userId: Id)
    ensures var i := GetCart(s.carts, userId, guestId);
            var u := UpdateItem(s, productId, quantity, size, color, guestId, userId);
            var r := RemoveItem(s, productId, size, color, guestId, userId);
            (u.reply.Fail? <==>
               (i == -1 || Lists.IndexOf(s.carts[i].products, LineKeyOf, LineKey(productId, size, color)) == -1)) &&
            (u.reply.Fail? ==> u.reply.code == 404 && u.state == s) &&
            (r.reply.Fail? <==> u.reply.Fail?) &&
            (r.reply.Fail? ==> r.reply.code == 404 && r.state == s)
  {
  }

  /** After a merge into an existing user cart, every key holds the user's
      units plus the guest's units. */
  lemma MergeUnits(s: Backend, userId: Id, guestId: string, k: LineKey)
    requires guestId != ""
    requires var g := Lists.IndexOf(s.carts, CartGuest, Some(guestId));
             g >= 0 && |s.carts[g].products| > 0
    requires Lists.IndexOf(s.carts, CartOwner, Some(userId)) >= 0
    ensures var g := Lists.IndexOf(s.carts, CartGuest, Some(guestId));
            var u := Lists.IndexOf(s.carts, CartOwner, Some(userId));
            var o := Merge(s, userId, guestId);
            o.reply.Ok? &&
            QuantityOf(o.reply.value.products, k) ==
              QuantityOf(s.carts[u].products, k) + QuantityOf(s.carts[g].products, k)
  {
    var g := Lists.IndexOf(s.carts, CartGuest, Some(guestId));
    var u := Lists.IndexOf(s.carts, CartOwner, Some(userId));
    MergeLinesUnits(s.carts[u].products, s.carts[g].products, k);
  }

  /** At most one cart carries a given guest id. */
  ghost predicate UniqueGuest(carts: seq<Cart>, guestId: string) {
    forall i, j :: 0 <= i < j < |carts| && carts[i].guestId == Some(guestId) ==> carts[j].guestId != Some(guestId)
  }

  /** Removing the one cart with a guest id leaves none. */
  lemma RemoveUniqueGuest(carts: seq<Cart>, guestId: string)
    requires UniqueGuest(carts, guestId)
    ensures Lists.IndexOf(DeleteFirstGuest(carts, guestId), CartGuest, Some(guestId)) == -1
  {
    var g := Lists.IndexOf(carts, CartGuest, Some(guestId));
    if g >= 0 {
      var r := Lists.RemoveAt(carts, g);
      assert forall j :: 0 <= j < |r| ==> r[j] == carts[if j < g then j else j + 1];
    }
  }

  /** A successful merge leaves no cart with the guest id, so repeating the
      merge answers 404: merging is not idempotent. */
  lemma MergeConsumesGuestCart(s: Backend, userId: Id, guestId: string)
    requires UniqueGuest(s.carts, guestId)
    ensures var o := Merge(s, userId, guestId);
            o.reply.Ok? ==>
              Lists.IndexOf(o.state.carts, CartGuest, Some(guestId)) == -1 &&
              Merge(o.state, userId, guestId).reply == Fail(404, "Guest cart not found")
  {
    var o := Merge(s, userId, guestId);
    if o.reply.Ok? {
      var g := Lists.IndexOf(s.carts, CartGuest, Some(guestId));
      var u := Lists.IndexOf(s.carts, CartOwner, Some(userId));
      if u == -1 {
        assert o.state.carts == s.carts[g := o.reply.value];
        HandOverClearsGuest(s.carts, g, o.reply.value, guestId);
      } else {
        var carts := s.carts[u := o.reply.value];
        assert o.state.carts == DeleteFirstGuest(carts, guestId);
        UniqueGuestUpdate(s.carts, u, o.reply.value, guestId);
        RemoveUniqueGuest(carts, guestId);
      }
      MergeWithoutGuestCart(o.state, userId, guestId);
    }
  }

  /** Handing the one guest cart over to the user, without its guest id,
      leaves no cart with that guest id. */
  lemma HandOverClearsGuest(carts: seq<Cart>, g: nat, c: Cart, guestId: string)
    requires UniqueGuest(carts, guestId) && g < |carts| && carts[g].guestId == Some(guestId)
    requires c.guestId == None
    ensures Lists.IndexOf(carts[g := c], CartGuest, Some(guestId)) == -1
  {
    assert forall j :: 0 <= j < |carts| && j != g ==> carts[j].guestId != Some(guestId);
  }

  /** Replacing a cart by one with the same guest id keeps guest ids unique. */
  lemma UniqueGuestUpdate(carts: seq<Cart>, u: nat, c: Cart, guestId: string)
    requires UniqueGuest(carts, guestId) && u < |carts| && c.guestId == carts[u].guestId
    ensures UniqueGuest(carts[u := c], guestId)
  {
    var r := carts[u := c];
    assert forall j :: 0 <= j < |carts| ==> r[j].guestId == carts[j].guestId;
  }

  /** Without a cart for the guest id, a merge answers 404. */
  lemma MergeWithoutGuestCart(s: Backend, userId: Id, guestId: string)
    requires guestId != "" && Lists.IndexOf(s.carts, CartGuest, Some(guestId)) == -1
    ensures Merge(s, userId, guestId).reply == Fail(404, "Guest cart not found")
  {
  }

  /** What a merge does, case by case. Without a guest id it answers 400,
      without a guest cart 404, and for an empty guest cart 400, changing
      nothing on any refusal. A user without a cart is handed the guest
      cart in its place: it takes the user's id, loses its guest id and
      keeps its lines and total, and every other cart stays. A user with a
      cart gets the merged lines and their total in that cart, the guest
      cart is deleted, and the other carts stay, in order. */
  lemma MergeEffect(s: Backend, userId: Id, guestId: string)
    ensures var o := Merge(s, userId, guestId);
            var g := Lists.IndexOf(s.carts, CartGuest, Some(guestId));
            (guestId == "" ==> o.reply == Fail(400, "guestId is required")) &&
            (guestId != "" && g == -1 ==> o.reply == Fail(404, "Guest cart not found")) &&
            (guestId != "" && g >= 0 && |s.carts[g].products| == 0 ==>
               o.reply == Fail(400, "Guest cart is empty")) &&
            (o.reply.Ok? <==> guestId != "" && g >= 0 && |s.carts[g].products| > 0) &&
            (o.reply.Fail? ==> o.state == s) &&
            (o.reply.Ok? ==> o.reply.code == 200 && o.state == s.(carts := o.state.carts))
    ensures var o := Merge(s, userId, guestId);
            var g := Lists.IndexOf(s.carts, CartGuest, Some(guestId));
            var u := Lists.IndexOf(s.carts, CartOwner, Some(userId));
            o.reply.Ok? && u == -1 ==>
              var c := o.reply.value;
              c.user == Some(userId) && c.guestId == None &&
              c.products == s.carts[g].products && c.totalPrice == s.carts[g].totalPrice &&
              |o.state.carts| == |s.carts| && o.state.carts[g] == c &&
              (forall j :: 0 <= j < |s.carts| && j != g ==> o.state.carts[j] == s.carts[j])
    ensures var o := Merge(s, userId, guestId);
            var g := Lists.IndexOf(s.carts, CartGuest, Some(guestId));
            var u := Lists.IndexOf(s.carts, CartOwner, Some(userId));
            o.reply.Ok? && u >= 0 ==>
              var c := o.reply.value;
              c == s.carts[u].(products := MergeLines(s.carts[u].products, s.carts[g].products),
                               totalPrice := LinesTotal(c.products)) &&
              o.state.carts == Lists.RemoveAt(s.carts[u := c], g)
  {
    var o := Merge(s, userId, guestId);
    var g := Lists.IndexOf(s.carts, CartGuest, Some(guestId));
    var u := Lists.IndexOf(s.carts, CartOwner, Some(userId));
    if o.reply.Ok? && u >= 0 {
      var carts := s.carts[u := o.reply.value];
      Lists.IndexOfSameKeys(carts, s.carts, CartGuest, Some(guestId));
    }
  }
}
