/** Runs across several handlers: what a shopper and an administrator see
    when the handlers are used one after another. */
module Scenarios {
  import opened Wrappers
  import opened Store
  import Lists
  import Js
  import CartRoutes
  import CheckoutRoutes
  import OrderAdminRoutes
  import AdminRoutes

  /** A signed-in shopper without a cart adds an item, checks out, pays and
      finalises. The order is placed, yet the cart the add created is still
      stored: it was written with `userId`, and the finalisation clears
      carts by `user`. The shopper's own cart lookup never finds it. */
  lemma CheckoutLeavesNewCart(s: Backend, u: Id, productId: Id, quantity: int, size: string,
                              color: string, generated: string, items: seq<LineItem>,
                              address: Address, method_: string, total: Cents,
                              checkoutId: Id, orderId: Id, details: string, t1: Time, t2: Time)
    requires u != "" && |items| > 0
    requires Lists.IndexOf(s.products, ProductIdOf, productId) >= 0
    requires CartRoutes.GetCart(s.carts, u, "") == -1
    requires checkoutId !in s.checkouts && orderId !in s.orders
    ensures var a := CartRoutes.AddItem(s, u, productId, quantity, size, color, "", generated);
            var c := CheckoutRoutes.CreateCheckout(a.state, u, Some(items), address, method_, total, checkoutId);
            var p := CheckoutRoutes.Pay(c.state, checkoutId, "paid", details, t1);
            var f := CheckoutRoutes.Finalize(p.state, checkoutId, orderId, t2);
            a.reply == Ok(201, a.reply.value) && c.reply.Ok? && p.reply.Ok? && f.reply.Ok? &&
            f.state.orders[orderId].orderItems == items &&
            a.reply.value in f.state.carts &&
            CartRoutes.FetchCart(f.state, u, "") == Fail(404, "Cart not found")
  {
    var a := CartRoutes.AddItem(s, u, productId, quantity, size, color, "", generated);
    var c := CheckoutRoutes.CreateCheckout(a.state, u, Some(items), address, method_, total, checkoutId);
    var p := CheckoutRoutes.Pay(c.state, checkoutId, "paid", details, t1);
    var f := CheckoutRoutes.Finalize(p.state, checkoutId, orderId, t2);
    var cart := a.reply.value;
    assert cart.user.None?;
    assert cart == a.state.carts[|s.carts|];
    assert p.state.carts == a.state.carts;
    Lists.RemoveKeyMembers(a.state.carts, CartOwner, Some(u));
    assert cart in f.state.carts;
    assert CartRoutes.GetCart(f.state.carts, u, "") == -1 by {
      forall j | 0 <= j < |f.state.carts|
        ensures f.state.carts[j].user != Some(u)
      {
        assert f.state.carts[j] in f.state.carts;
      }
    }
  }

  /** An account created as an administrator through the admin route gets
      the role "admin" but not the `isAdmin` flag, so reading another
      customer's order is refused with 401. */
  lemma CreatedAdminCannotReadOrders(s: Backend, name: string, email: string, password: string,
                                     adminId: Id, orderId: Id)
    requires adminId !in s.users
    requires name != "" && email != "" && password != ""
    requires !AdminRoutes.EmailTaken(s.users, Js.Normalize(email), adminId)
    requires orderId in s.orders && s.orders[orderId].user in s.users
    ensures var o := AdminRoutes.CreateUser(s, name, email, password, true, adminId);
            o.reply.Ok? && o.reply.value.role == "admin" &&
            OrderAdminRoutes.GetOrder(o.state, orderId, adminId) == Fail(401, "Not authorized")
  {
  }
}
