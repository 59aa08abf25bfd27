/** The order handlers: list all orders, change an order's fulfilment
    status, read one order with its customer's name, and delete an order. */
module OrderAdminRoutes {
  import opened Wrappers
  import opened Store
  import CheckoutRoutes

  /** The statuses an administrator may set. */
  const ValidStatuses: seq<string> := ["Processing", "Shipped", "Delivered", "Cancelled"]

  /** What the status update replies with. */
  datatype StatusView = StatusView(id: Id, status: string)

  /** What the single-order read replies with. */
  datatype OrderView = OrderView(
    id: Id, customer: string, amount: Cents, status: string,
    orderItems: seq<LineItem>, shippingAddress: Address, paymentMethod: string)

  /** GET /api/admin/orders. */
  function ListOrders(s: Backend): Reply<map<Id, Order>> {
    Ok(200, s.orders)
  }

  /** PUT /api/orders/:id. The status is checked before the order is looked up. */
  function UpdateStatus(s: Backend, id: Id, status: string): Outcome<StatusView> {
    if status !in ValidStatuses then Outcome(s, Fail(400, "Invalid status"))
    else if id !in s.orders then Outcome(s, Fail(404, "Order not found"))
    else Outcome(s.(orders := s.orders[id := s.orders[id].(status := status)]), Ok(200, StatusView(id, status)))
  }

  /** GET /api/orders/:id by the signed-in user `caller`. The order's user is
      looked up to show the customer's name; when that account is gone the
      handler fails on the missing user and answers 500. */
  function GetOrder(s: Backend, id: Id, caller: Id): Reply<OrderView>
    requires caller in s.users
  {
    if id !in s.orders then Fail(404, "Order not found")
    else
      var o := s.orders[id];
      if o.user !in s.users then Fail(500, "Error fetching order")
      else if o.user != caller && !s.users[caller].isAdmin then Fail(401, "Not authorized")
      else Ok(200, OrderView(id, s.users[o.user].name, o.totalPrice, o.status,
                             o.orderItems, o.shippingAddress, o.paymentMethod))
  }

  /** DELETE /api/orders/:id. */
  function DeleteOrder(s: Backend, id: Id): Outcome<()> {
    if id !in s.orders then Outcome(s, Fail(404, "Order not found"))
    else Outcome(s.(orders := s.orders - {id}), Ok(200, ()))
  }

  method HandleUpdateStatus(db: Database, id: Id, status: string) returns (reply: Reply<StatusView>)
    modifies db
    ensures var o := UpdateStatus(old(db.State()), id, status);
            db.State() == o.state && reply == o.reply
  {
    if status !in ValidStatuses {
      return Fail(400, "Invalid status");
    }
    if id !in db.orders {
      return Fail(404, "Order not found");
    }
    var order := db.orders[id];
    order := order.(status := status);
    db.orders := db.orders[id := order];
    reply := Ok(200, StatusView(id, order.status));
  }

  method HandleDeleteOrder(db: Database, id: Id) returns (reply: Reply<()>)
    modifies db
    ensures var o := DeleteOrder(old(db.State()), id);
            db.State() == o.state && reply == o.reply
  {
    if id !in db.orders {
      return Fail(404, "Order not found");
    }
    db.orders := db.orders - {id};
    reply := Ok(200, ());
  }

  // ---------------------------------------------------------------------
  // Properties

  /** Every stored order has one of the four statuses. */
  ghost predicate StatusesValid(s: Backend) {
    forall id :: id in s.orders ==> s.orders[id].status in ValidStatuses
  }

  /** A status update succeeds exactly for a valid status and a known order;
      then that order's status is the new one, nothing else about it or any
      other order changes, and the listing shows it. */
  lemma UpdateStatusEffect(s: Backend, id: Id, status: string)
    ensures var o := UpdateStatus(s, id, status);
            (o.reply.Ok? <==> status in ValidStatuses && id in s.orders) &&
            (status !in ValidStatuses ==> o.reply == Fail(400, "Invalid status")) &&
            (o.reply.Fail? ==> o.state == s) &&
            (o.reply.Ok? ==>
               o.state.orders.Keys == s.orders.Keys &&
               o.state.orders[id] == s.orders[id].(status := status) &&
               ListOrders(o.state).value[id].status == status &&
               (forall other :: other in s.orders && other != id ==> o.state.orders[other] == s.orders[other]))
  {
  }

  /** Status updates keep every status valid. */
  lemma UpdateStatusKeepsStatusesValid(s: Backend, id: Id, status: string)
    requires StatusesValid(s)
    ensures StatusesValid(UpdateStatus(s, id, status).state)
  {
  }

  /** Finalising a checkout adds an order whose status is valid. */
  lemma FinalizeKeepsStatusesValid(s: Backend, id: Id, orderId: Id, now: Time)
    requires orderId !in s.orders
    requires StatusesValid(s)
    ensures StatusesValid(CheckoutRoutes.Finalize(s, id, orderId, now).state)
  {
    assert CheckoutRoutes.InitialOrderStatus == ValidStatuses[0];
  }

  /** Who may read an order: its owner and administrators, and only while
      the owner's account exists. */
  lemma GetOrderAccess(s: Backend, id: Id, caller: Id)
    requires caller in s.users
    ensures var r := GetOrder(s, id, caller);
            (r.Ok? <==> id in s.orders && s.orders[id].user in s.users &&
                        (s.orders[id].user == caller || s.users[caller].isAdmin)) &&
            (r.Ok? ==> r.value.customer == s.users[s.orders[id].user].name &&
                       r.value.amount == s.orders[id].totalPrice &&
                       r.value.status == s.orders[id].status) &&
            (r.Fail? && id in s.orders && s.orders[id].user in s.users ==> r.code == 401)
  {
  }

  /** Deleting removes exactly the requested order, after which reading,
      updating or deleting it again answers 404. */
  lemma DeleteOrderEffect(s: Backend, id: Id, caller: Id, status: string)
    requires caller in s.users
    ensures var o := DeleteOrder(s, id);
            (o.reply.Ok? <==> id in s.orders) &&
            o.state.orders.Keys == s.orders.Keys - {id} &&
            (forall other :: other in o.state.orders ==> o.state.orders[other] == s.orders[other]) &&
            GetOrder(o.state, id, caller) == Fail(404, "Order not found") &&
            DeleteOrder(o.state, id).reply == Fail(404, "Order not found") &&
            (status in ValidStatuses ==> UpdateStatus(o.state, id, status).reply == Fail(404, "Order not found"))
  {
  }
}
