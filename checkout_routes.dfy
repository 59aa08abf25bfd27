/** The checkout handlers: open a checkout session, mark it paid, and
    finalise it into an order, clearing the user's carts. */
module CheckoutRoutes {
  import opened Wrappers
  import opened Store
  import Lists

  /** The status an order starts with. */
  const InitialOrderStatus := "Processing"

  /** POST /api/checkout by user `userId`. A missing or empty item list is
      refused; otherwise a new session is stored under the fresh `id`,
      unpaid and not finalised. */
  function CreateCheckout(s: Backend, userId: Id, checkoutItems: Option<seq<LineItem>>,
                          shippingAddress: Address, paymentMethod: string, totalPrice: Cents,
                          id: Id): Outcome<Checkout>
    requires id !in s.checkouts
  {
    if checkoutItems.None? || |checkoutItems.value| == 0 then
      Outcome(s, Fail(400, "No items in checkout"))
    else
      var c := Checkout(userId, checkoutItems.value, shippingAddress, paymentMethod, totalPrice,
                        false, "", "", None, false, None);
      Outcome(s.(checkouts := s.checkouts[id := c]), Ok(201, c))
  }

  /** PUT /api/checkout/:id/pay at time `now`. Only the status "paid" is
      accepted; the session's earlier state is not consulted. */
  function Pay(s: Backend, id: Id, paymentStatus: string, paymentDetails: string, now: Time): Outcome<Checkout> {
    if id !in s.checkouts then Outcome(s, Fail(404, "Checkout not found"))
    else if paymentStatus == "paid" then
      var c := s.checkouts[id].(isPaid := true, paymentStatus := paymentStatus,
                                paymentDetails := paymentDetails, paidAt := Some(now));
      Outcome(s.(checkouts := s.checkouts[id := c]), Ok(200, c))
    else Outcome(s, Fail(400, "Invalid Payment Status"))
  }

  /** The order a paid session turns into. */
  function OrderOf(c: Checkout, now: Time): Order {
    Order(c.user, c.checkoutItems, c.shippingAddress, c.paymentMethod, c.totalPrice, true,
          if c.paidAt.Some? then c.paidAt.value else now,
          c.paymentStatus, c.paymentDetails, InitialOrderStatus)
  }

  /** POST /api/checkout/:id/finalize at time `now`, storing the order under
      the fresh `orderId`. */
  function Finalize(s: Backend, id: Id, orderId: Id, now: Time): Outcome<Order>
    requires orderId !in s.orders
  {
    if id !in s.checkouts then Outcome(s, Fail(404, "Checkout not found"))
    else
      var c := s.checkouts[id];
      if c.isFinalized then Outcome(s, Fail(400, "Checkout session already finalized"))
      else if !c.isPaid then Outcome(s, Fail(400, "Checkout not paid"))
      else
        var order := OrderOf(c, now);
        var done := c.(isFinalized := true, finalizedAt := Some(now));
        Outcome(s.(orders := s.orders[orderId := order],
                   checkouts := s.checkouts[id := done],
                   carts := Lists.RemoveKey(s.carts, CartOwner, Some(c.user))),
                Ok(201, order))
  }

  // ---------------------------------------------------------------------
  // The handlers as they run

  method HandleCreateCheckout(db: Database, userId: Id, checkoutItems: Option<seq<LineItem>>,
                              shippingAddress: Address, paymentMethod: string, totalPrice: Cents,
                              id: Id) returns (reply: Reply<Checkout>)
    requires id !in db.checkouts
    modifies db
    ensures var o := CreateCheckout(old(db.State()), userId, checkoutItems, shippingAddress,
                                    paymentMethod, totalPrice, id);
            db.State() == o.state && reply == o.reply
  {
    if checkoutItems.None? || |checkoutItems.value| == 0 {
      return Fail(400, "No items in checkout");
    }
    var session := Checkout(userId, checkoutItems.value, shippingAddress, paymentMethod, totalPrice,
                            false, "", "", None, false, None);
    db.checkouts := db.checkouts[id := session];
    reply := Ok(201, session);
  }

  method HandlePay(db: Database, id: Id, paymentStatus: string, paymentDetails: string, now: Time)
    returns (reply: Reply<Checkout>)
    modifies db
    ensures var o := Pay(old(db.State()), id, paymentStatus, paymentDetails, now);
            db.State() == o.state && reply == o.reply
  {
    if id !in db.checkouts {
      return Fail(404, "Checkout not found");
    }
    var checkout := db.checkouts[id];
    if paymentStatus == "paid" {
      checkout := checkout.(isPaid := true);
      checkout := checkout.(paymentStatus := paymentStatus);
      checkout := checkout.(paymentDetails := paymentDetails);
      checkout := checkout.(paidAt := Some(now));
      db.checkouts := db.checkouts[id := checkout];
      reply := Ok(200, checkout);
    } else {
      reply := Fail(400, "Invalid Payment Status");
    }
  }

  method HandleFinalize(db: Database, id: Id, orderId: Id, now: Time) returns (reply: Reply<Order>)
    requires orderId !in db.orders
    modifies db
    ensures var o := Finalize(old(db.State()), id, orderId, now);
            db.State() == o.state && reply == o.reply
  {
    if id !in db.checkouts {
      return Fail(404, "Checkout not found");
    }
    var checkout := db.checkouts[id];
    if checkout.isFinalized {
      return Fail(400, "Checkout session already finalized");
    }
    if !checkout.isPaid {
      return Fail(400, "Checkout not paid");
    }
    var finalOrder := OrderOf(checkout, now);
    db.orders := db.orders[orderId := finalOrder];
    checkout := checkout.(isFinalized := true, finalizedAt := Some(now));
    db.checkouts := db.checkouts[id := checkout];
    db.carts := Lists.RemoveKey(db.carts, CartOwner, Some(checkout.user));
    reply := Ok(201, finalOrder);
  }

  // ---------------------------------------------------------------------
  // The life cycle of a session

  /** Where a session stands: 0 created, 1 paid, 2 finalised. */
  function Phase(c: Checkout): (p: nat)
    ensures p <= 2
    ensures p == 2 <==> c.isFinalized
    ensures p == 0 <==> !c.isPaid && !c.isFinalized
  {
    if c.isFinalized then 2 else if c.isPaid then 1 else 0
  }

  /** A session is paid exactly when it carries the status "paid" and a
      payment time, and it is finalised only once paid, with a finalisation
      time. */
  ghost predicate SessionSound(c: Checkout) {
    (c.isPaid <==> c.paymentStatus == "paid" && c.paidAt.Some?) &&
    (c.isFinalized ==> c.isPaid && c.finalizedAt.Some?)
  }

  ghost predicate SessionsSound(s: Backend) {
    forall id :: id in s.checkouts ==> SessionSound(s.checkouts[id])
  }

  /** No handler moves a session backwards. */
  ghost predicate PhasesGrow(before: Backend, after: Backend) {
    before.checkouts.Keys <= after.checkouts.Keys &&
    forall id :: id in before.checkouts ==> Phase(before.checkouts[id]) <= Phase(after.checkouts[id])
  }

  /** Only the session `id` is new or changed: the other sessions, the
      carts, orders, products, users and subscribers are as they were. */
  ghost predicate OnlySessionChanged(before: Backend, after: Backend, id: Id) {
    after.checkouts.Keys == before.checkouts.Keys + {id} &&
    (forall k :: k in before.checkouts && k != id ==> after.checkouts[k] == before.checkouts[k]) &&
    after.carts == before.carts && after.orders == before.orders &&
    after.products == before.products && after.users == before.users &&
    after.subscribers == before.subscribers
  }

  /** What the buyer asked for: owner, items, address, payment method and
      total agree. */
  ghost predicate SamePurchase(a: Checkout, b: Checkout) {
    a.user == b.user && a.checkoutItems == b.checkoutItems &&
    a.shippingAddress == b.shippingAddress && a.paymentMethod == b.paymentMethod &&
    a.totalPrice == b.totalPrice
  }

  /** Creating a session keeps every session sound, records the items,
      address, payment method and total as given for the user, leaves the
      others as they were, and refuses an empty or missing item list. */
  lemma CreateCheckoutLifecycle(s: Backend, userId: Id, checkoutItems: Option<seq<LineItem>>,
                                shippingAddress: Address, paymentMethod: string, totalPrice: Cents, id: Id)
    requires id !in s.checkouts
    requires SessionsSound(s)
    ensures var o := CreateCheckout(s, userId, checkoutItems, shippingAddress, paymentMethod, totalPrice, id);
            SessionsSound(o.state) && PhasesGrow(s, o.state) &&
            (o.reply.Ok? <==> checkoutItems.Some? && |checkoutItems.value| > 0) &&
            (o.reply.Ok? ==>
               var c := o.state.checkouts[id];
               Phase(c) == 0 && c.user == userId && c.checkoutItems == checkoutItems.value &&
               c.shippingAddress == shippingAddress && c.paymentMethod == paymentMethod &&
               c.totalPrice == totalPrice && o.reply == Ok(201, c) &&
               OnlySessionChanged(s, o.state, id)) &&
            (o.reply.Fail? ==> o.reply.code == 400 && o.state == s)
  {
  }

  /** Paying keeps every session sound and never lowers a phase. It records
      the status and the payment details and time on that session alone,
      keeping what was bought; any status other than "paid" is refused and
      changes nothing. */
  lemma PayLifecycle(s: Backend, id: Id, paymentStatus: string, paymentDetails: string, now: Time)
    requires SessionsSound(s)
    ensures var o := Pay(s, id, paymentStatus, paymentDetails, now);
            SessionsSound(o.state) && PhasesGrow(s, o.state) &&
            (o.reply.Ok? <==> id in s.checkouts && paymentStatus == "paid") &&
            (o.reply.Ok? ==>
               var c := o.state.checkouts[id];
               c.isPaid && c.paidAt == Some(now) && c.paymentStatus == paymentStatus &&
               c.paymentDetails == paymentDetails && SamePurchase(c, s.checkouts[id]) &&
               c.isFinalized == s.checkouts[id].isFinalized && o.reply == Ok(200, c) &&
               OnlySessionChanged(s, o.state, id)) &&
            (o.reply.Fail? ==> o.reply.code == (if id in s.checkouts then 400 else 404) && o.state == s)
  {
  }

  /** Finalising keeps every session sound and never lowers a phase. It
      succeeds exactly for a known, paid, not yet finalised session. Then
      it adds one order, the one it answers with, and marks that session
      finalised at `now`, keeping its purchase and payment; the other
      orders and sessions, the products, users and subscribers stay as
      they were. A refusal answers 404 for an unknown session, otherwise
      400, and changes nothing. */
  lemma FinalizeLifecycle(s: Backend, id: Id, orderId: Id, now: Time)
    requires orderId !in s.orders
    requires SessionsSound(s)
    ensures var o := Finalize(s, id, orderId, now);
            SessionsSound(o.state) && PhasesGrow(s, o.state) &&
            (o.reply.Ok? <==> id in s.checkouts && s.checkouts[id].isPaid && !s.checkouts[id].isFinalized) &&
            (o.reply.Fail? ==> o.reply.code == (if id in s.checkouts then 400 else 404) && o.state == s)
    ensures var o := Finalize(s, id, orderId, now);
            o.reply.Ok? ==>
              var before := s.checkouts[id];
              var c := o.state.checkouts[id];
              o.reply.code == 201 &&
              o.state.orders.Keys == s.orders.Keys + {orderId} &&
              o.state.orders[orderId] == o.reply.value &&
              (forall k :: k in s.orders ==> o.state.orders[k] == s.orders[k]) &&
              Phase(c) == 2 && c.finalizedAt == Some(now) && SamePurchase(c, before) &&
              c.isPaid && c.paymentStatus == before.paymentStatus &&
              c.paymentDetails == before.paymentDetails && c.paidAt == before.paidAt &&
              o.state.checkouts.Keys == s.checkouts.Keys &&
              (forall k :: k in s.checkouts && k != id ==> o.state.checkouts[k] == s.checkouts[k]) &&
              o.state.products == s.products && o.state.users == s.users &&
              o.state.subscribers == s.subscribers
  {
  }

  /** The order carries the session's items, address, payment method, total,
      status and details, is paid, and is dated with the session's payment
      time. */
  lemma FinalizeOrderCopiesSession(s: Backend, id: Id, orderId: Id, now: Time)
    requires orderId !in s.orders
    requires SessionsSound(s)
    ensures var o := Finalize(s, id, orderId, now);
            o.reply.Ok? ==>
              var c := s.checkouts[id];
              var ord := o.reply.value;
              o.state.orders[orderId] == ord &&
              ord.user == c.user && ord.orderItems == c.checkoutItems &&
              ord.shippingAddress == c.shippingAddress && ord.paymentMethod == c.paymentMethod &&
              ord.totalPrice == c.totalPrice && ord.isPaid &&
              Some(ord.paidAt) == c.paidAt && ord.paymentStatus == "paid" &&
              ord.paymentDetails == c.paymentDetails && ord.status == InitialOrderStatus
  {
  }

  /** A session turns into at most one order: finalising it again is refused. */
  lemma FinalizeTwice(s: Backend, id: Id, o1: Id, o2: Id, now1: Time, now2: Time)
    requires o1 !in s.orders && o2 !in s.orders && o1 != o2
    ensures var r1 := Finalize(s, id, o1, now1);
            r1.reply.Ok? ==>
              var r2 := Finalize(r1.state, id, o2, now2);
              r2.reply == Fail(400, "Checkout session already finalized") && r2.state == r1.state
  {
  }

  /** Finalising leaves no cart whose `user` is the session's user, and
      every other cart stays, in order: the carts are the old ones with the
      user's filtered out. */
  lemma FinalizeClearsUserCarts(s: Backend, id: Id, orderId: Id, now: Time)
    requires orderId !in s.orders
    ensures var o := Finalize(s, id, orderId, now);
            o.reply.Ok? ==>
              var u := s.checkouts[id].user;
              o.state.carts == Lists.RemoveKey(s.carts, CartOwner, Some(u)) &&
              (forall c :: c in o.state.carts <==> c in s.carts && c.user != Some(u))
  {
    var o := Finalize(s, id, orderId, now);
    if o.reply.Ok? {
      Lists.RemoveKeyMembers(s.carts, CartOwner, Some(s.checkouts[id].user));
    }
  }

  /** Payment is not guarded by the session's phase: a finalised session
      accepts another payment, which moves its payment time away from the
      one already copied into the order. */
  lemma PayAfterFinalize(s: Backend, id: Id, orderId: Id, t1: Time, t2: Time, details: string)
    requires orderId !in s.orders
    requires SessionsSound(s)
    requires id in s.checkouts && s.checkouts[id].isPaid && !s.checkouts[id].isFinalized
    requires s.checkouts[id].paidAt != Some(t2)
    ensures var f := Finalize(s, id, orderId, t1);
            var p := Pay(f.state, id, "paid", details, t2);
            p.reply.Ok? && p.state.checkouts[id].isFinalized &&
            Some(p.state.orders[orderId].paidAt) != p.state.checkouts[id].paidAt
  {
  }
}
