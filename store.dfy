/** The documents of the backend's database and the database itself.

    Carts and products are kept as sequences in insertion order, because the
    handlers ask for "the first document that matches" (`findOne`) and for
    "at most four" (`limit(4)`). Checkout sessions, orders and users are
    looked up by id only and are maps. Subscribers are a map from the
    stored (trimmed, lower-cased) e-mail to the subscription time. */
module Store {
  import opened Wrappers

  /** A document id or a user id, as the string the handlers compare. */
  type Id = string
  /** Money in integer cents. */
  type Cents = int
  /** A `Date.now()` reading, passed in by the caller. */
  type Time = int

  /** The identity of a cart line: the same product in another size or
      colour is another line. */
  datatype LineKey = LineKey(productId: Id, size: string, color: string)

  /** A cart, checkout or order line. Name, image and price are copied from
      the product when the line is created and never re-read. */
  datatype LineItem = LineItem(
    productId: Id, name: string, image: string, price: Cents,
    size: string, color: string, quantity: int)
  {
    function Key(): LineKey { LineKey(productId, size, color) }
  }

  /** A cart. `user` is the field the handlers query; `userId` is the field
      the add handler writes when it creates a cart. */
  datatype Cart = Cart(
    user: Option<Id>, userId: Option<Id>, guestId: Option<string>,
    products: seq<LineItem>, totalPrice: Cents)

  datatype Image = Image(url: string, altText: string)

  datatype Dimensions = Dimensions(length: int, width: int, height: int)

  /** A catalogue product, with the field names the update handler writes
      (`meterial`, `dimentions`). */
  datatype Product = Product(
    id: Id, name: string, description: string, price: Cents,
    discountPrice: Cents, countInStock: int, category: string, brand: string,
    sizes: seq<string>, colors: seq<string>, collections: string,
    meterial: string, gender: string, images: seq<Image>,
    isFeatured: bool, isPublished: bool, tags: seq<string>,
    dimentions: Option<Dimensions>, weight: int, sku: string)

  datatype Address = Address(address: string, city: string, postalCode: string, country: string)

  /** A checkout session: a snapshot of the items plus payment and
      finalisation flags. */
  datatype Checkout = Checkout(
    user: Id, checkoutItems: seq<LineItem>, shippingAddress: Address,
    paymentMethod: string, totalPrice: Cents,
    isPaid: bool, paymentStatus: string, paymentDetails: string, paidAt: Option<Time>,
    isFinalized: bool, finalizedAt: Option<Time>)

  /** An order; `status` is the fulfilment status set by administrators. */
  datatype Order = Order(
    user: Id, orderItems: seq<LineItem>, shippingAddress: Address,
    paymentMethod: string, totalPrice: Cents, isPaid: bool, paidAt: Time,
    paymentStatus: string, paymentDetails: string, status: string)

  /** A user account. The password is kept as given: hashing is not modelled. */
  datatype User = User(name: string, email: string, password: string, role: string, isAdmin: bool)

  /** The whole database as a value. */
  datatype Backend = Backend(
    carts: seq<Cart>, products: seq<Product>,
    checkouts: map<Id, Checkout>, orders: map<Id, Order>,
    users: map<Id, User>, subscribers: map<string, Time>)

  /** What a handler leaves behind: the new database and its reply. */
  datatype Outcome<T> = Outcome(state: Backend, reply: Reply<T>)

  /** The database the route handlers read and write in place. */
  class Database {
    var carts: seq<Cart>
    var products: seq<Product>
    var checkouts: map<Id, Checkout>
    var orders: map<Id, Order>
    var users: map<Id, User>
    var subscribers: map<string, Time>

    constructor (initial: Backend)
      ensures State() == initial
    {
      carts, products := initial.carts, initial.products;
      checkouts, orders := initial.checkouts, initial.orders;
      users, subscribers := initial.users, initial.subscribers;
    }

    function State(): Backend
      reads this
    {
      Backend(carts, products, checkouts, orders, users, subscribers)
    }
  }

  function CartOwner(c: Cart): Option<Id> { c.user }
  function CartGuest(c: Cart): Option<string> { c.guestId }
  function ProductIdOf(p: Product): Id { p.id }
  function LineKeyOf(l: LineItem): LineKey { l.Key() }
}
