/** The Order schema: an order of one customer at one store, with
    snapshot line items, a shipping address, totals and status flags.
    Prices are integer cents. */
module OrderModel {
  import opened Common

  datatype OrderStatus = Pending | Processing | Shipped | Delivered | Cancelled

  /** The status names the schema's `enum` accepts. */
  function StatusName(s: OrderStatus): string
  {
    match s
    case Pending => "Pending"
    case Processing => "Processing"
    case Shipped => "Shipped"
    case Delivered => "Delivered"
    case Cancelled => "Cancelled"
  }

  /** Enum validation of `orderStatus`: a name is accepted exactly when it is
      the name of one of the five statuses, and then it denotes that status. */
  function ParseStatus(name: string): (r: Option<OrderStatus>)
    ensures r.Some? ==> StatusName(r.value) == name
    ensures (exists s :: StatusName(s) == name) ==> r.Some?
  {
    if name == "Pending" then Some(Pending)
    else if name == "Processing" then Some(Processing)
    else if name == "Shipped" then Some(Shipped)
    else if name == "Delivered" then Some(Delivered)
    else if name == "Cancelled" then Some(Cancelled)
    else None
  }

  /** Status of an order created without one. */
  const DefaultStatus: OrderStatus := Pending

  datatype PaymentMethod = COD | Razorpay

  function MethodName(m: PaymentMethod): string
  {
    match m
    case COD => "COD"
    case Razorpay => "Razorpay"
  }

  /** Enum validation of `paymentMethod`. */
  function ParseMethod(name: string): (r: Option<PaymentMethod>)
    ensures r.Some? ==> MethodName(r.value) == name
    ensures (exists m :: MethodName(m) == name) ==> r.Some?
  {
    if name == "COD" then Some(COD)
    else if name == "Razorpay" then Some(Razorpay)
    else None
  }

  /** Payment method of an order created without one. */
  const DefaultMethod: PaymentMethod := COD

  /** A missing address field and an empty one are the same to the schema:
      Mongoose's `required` refuses both. */
  datatype ShippingAddress = ShippingAddress(address: string, city: string, postalCode: string, country: string)

  predicate AddressComplete(a: ShippingAddress)
  {
    a.address != [] && a.city != [] && a.postalCode != [] && a.country != []
  }

  /** One line of an order: the product reference and the product's name and
      unit price as they were when the order was placed. */
  datatype OrderItem = OrderItem(product: ProductId, name: string, price: int, quantity: int)

  predicate ItemValid(i: OrderItem)
  {
    i.name != [] && i.quantity >= 1
  }

  datatype Order = Order(
    user: UserId,
    store: StoreId,
    items: seq<OrderItem>,
    shippingAddress: ShippingAddress,
    paymentMethod: PaymentMethod,
    taxPrice: int,
    shippingPrice: int,
    totalPrice: int,
    orderStatus: OrderStatus,
    paidAt: Option<Millis>,
    deliveredAt: Option<Millis>,
    isPaid: bool,
    isDelivered: bool)

  /** What the schema's validators demand of a stored order (the user and
      store references, the payment method and the flags are present by
      construction of the datatype). */
  predicate OrderValid(o: Order)
  {
    (forall i :: 0 <= i < |o.items| ==> ItemValid(o.items[i]))
    && AddressComplete(o.shippingAddress)
  }

  /** The document `Order.create` builds from the required fields alone:
      every other field takes its schema default. */
  function NewOrder(user: UserId, store: StoreId, items: seq<OrderItem>, address: ShippingAddress): (o: Order)
    ensures o.items == items && o.user == user && o.store == store
    ensures OrderValid(o) <==> (forall i :: 0 <= i < |items| ==> ItemValid(items[i])) && AddressComplete(address)
    ensures !o.isPaid && !o.isDelivered && o.paidAt.None? && o.deliveredAt.None?
    ensures o.taxPrice == 0 && o.shippingPrice == 0 && o.totalPrice == 0
    ensures o.orderStatus == Pending && o.paymentMethod == COD
  {
    Order(user, store, items, address, DefaultMethod, 0, 0, 0, DefaultStatus, None, None, false, false)
  }
}
