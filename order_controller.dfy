/** The order engine: order totals, placing an order against the product
    catalogue, the merchant's status update, the single-order access rule
    and the arithmetic of the store-orders listing. Prices are integer
    cents; the clock is the parameter `now`. */
module OrderController {
  import opened Common
  import opened OrderModel
  import opened ProductModel
  import opened UserModel

  // ---------------------------------------------------------------------
  // Totals.
  // ---------------------------------------------------------------------

  /** Shipping is free strictly above $100 and $5 otherwise; tax is 18 %. */
  const FreeShippingAbove: int := 10000
  const FlatShipping: int := 500
  const TaxPercent: int := 18

  /** The sum of price × quantity over the lines. */
  function ItemsPrice(items: seq<OrderItem>): int
  {
    if items == [] then 0
    else ItemsPrice(items[..|items| - 1]) + items[|items| - 1].price * items[|items| - 1].quantity
  }

  /** `toFixed(2)` of an amount held in hundredths of a cent: the nearest
      whole number of cents, halves rounded away from zero. */
  function RoundToCents(hundredths: int): (c: int)
    ensures hundredths >= 0 ==> -50 < 100 * c - hundredths <= 50
    ensures hundredths < 0 ==> -50 <= 100 * c - hundredths < 50
  {
    if hundredths >= 0 then (hundredths + 50) / 100 else -((-hundredths + 50) / 100)
  }

  datatype Totals = Totals(itemsPrice: int, taxPrice: int, shippingPrice: int, totalPrice: int)

  /** The totals of an order: tax is within half a cent of 18 % of the items
      price, shipping is free exactly above the threshold, and the total is
      the sum of the three parts. */
  function OrderTotals(items: seq<OrderItem>): (t: Totals)
    ensures t.itemsPrice == ItemsPrice(items)
    ensures -50 <= 100 * t.taxPrice - TaxPercent * t.itemsPrice <= 50
    ensures t.shippingPrice == 0 <==> t.itemsPrice > FreeShippingAbove
    ensures t.shippingPrice != 0 ==> t.shippingPrice == FlatShipping
    ensures t.totalPrice == t.itemsPrice + t.taxPrice + t.shippingPrice
  {
    var itemsPrice := ItemsPrice(items);
    var tax := RoundToCents(TaxPercent * itemsPrice);
    var shipping := if itemsPrice > FreeShippingAbove then 0 else FlatShipping;
    Totals(itemsPrice, tax, shipping, itemsPrice + tax + shipping)
  }

  /** `calculateOrderTotals`: accumulates the items price line by line. */
  method CalculateOrderTotals(items: seq<OrderItem>) returns (t: Totals)
    ensures t == OrderTotals(items)
  {
    var itemsPrice := 0;
    for i := 0 to |items|
      invariant itemsPrice == ItemsPrice(items[..i])
    {
      assert items[..i + 1][..i] == items[..i];
      itemsPrice := itemsPrice + items[i].price * items[i].quantity;
    }
    assert items[..|items|] == items;
    var taxPrice := RoundToCents(TaxPercent * itemsPrice);
    var shippingPrice := if itemsPrice > FreeShippingAbove then 0 else FlatShipping;
    t := Totals(itemsPrice, taxPrice, shippingPrice, itemsPrice + taxPrice + shippingPrice);
  }

  /** The items price of two runs of lines is the sum of theirs. */
  lemma {:induction false} ItemsPriceAppend(a: seq<OrderItem>, b: seq<OrderItem>)
    ensures ItemsPrice(a + b) == ItemsPrice(a) + ItemsPrice(b)
    decreases |b|
  {
    if b == [] {
      assert a + b == a;
    } else {
      assert (a + b)[..|a + b| - 1] == a + b[..|b| - 1];
      ItemsPriceAppend(a, b[..|b| - 1]);
    }
  }

  /** Lines with non-negative prices never make a negative items price. */
  lemma {:induction false} ItemsPriceNonNegative(items: seq<OrderItem>)
    requires forall i :: 0 <= i < |items| ==> items[i].price >= 0 && items[i].quantity >= 1
    ensures ItemsPrice(items) >= 0
  {
    if items != [] {
      ItemsPriceNonNegative(items[..|items| - 1]);
    }
  }

  // ---------------------------------------------------------------------
  // Placing an order.
  // ---------------------------------------------------------------------

  /** One cart line as the client sends it; a missing field is `None`. */
  datatype LineRequest = LineRequest(productId: Option<ProductId>, quantity: Option<int>)

  /** The body of `POST /orders`. A missing `orderItems` is the empty list, a
      missing payment method the empty string. */
  datatype OrderRequest = OrderRequest(
    orderItems: seq<LineRequest>,
    shippingAddress: Option<ShippingAddress>,
    paymentMethod: string)

  /** The errors the order handlers raise; `HttpStatus` gives their codes. */
  datatype OrderError =
    | NoItems
    | IncompleteAddress
    | MissingPaymentMethod
    | InvalidPaymentMethod
    | InvalidLine
    | ProductNotFound(id: ProductId)
    | MixedStores
    | InsufficientStock(name: string, available: int, requested: int)
    | Forbidden
    | OrderNotFound
    | InvalidStatus
    | PageNotFound

  function HttpStatus(e: OrderError): int
  {
    match e
    case ProductNotFound(_) => 404
    case OrderNotFound => 404
    case PageNotFound => 404
    case Forbidden => 403
    case _ => 400
  }

  /** The checks made before any product is read: items present, all four
      address fields present, a payment method given and one of the two
      accepted. Every refusal is a 400. */
  function Precheck(req: OrderRequest): (r: Result<PaymentMethod, OrderError>)
    ensures r.Ok? <==>
      req.orderItems != [] && req.shippingAddress.Some? && AddressComplete(req.shippingAddress.value)
      && (req.paymentMethod == "COD" || req.paymentMethod == "Razorpay")
    ensures r.Ok? ==> MethodName(r.value) == req.paymentMethod
    ensures r.Err? ==> HttpStatus(r.error) == 400
    ensures req.orderItems == [] ==> r == Err(NoItems)
  {
    if req.orderItems == [] then Err(NoItems)
    else if req.shippingAddress.None? || !AddressComplete(req.shippingAddress.value) then Err(IncompleteAddress)
    else if req.paymentMethod == "" then Err(MissingPaymentMethod)
    else match ParseMethod(req.paymentMethod)
      case None => Err(InvalidPaymentMethod)
      case Some(m) => Ok(m)
  }

  /** A cart line names a product and a positive quantity. */
  predicate WellFormedLine(line: LineRequest)
  {
    line.productId.Some? && line.quantity.Some? && line.quantity.value > 0
  }

  /** The line's product belongs to the store fixed so far, if any. */
  predicate SameStore(products: map<ProductId, Product>, line: LineRequest, store: Option<StoreId>)
    requires WellFormedLine(line) && line.productId.value in products
  {
    store.Some? ==> products[line.productId.value].store == store.value
  }

  /** The checks on one cart line, given the store fixed by the earlier
      lines (if any): a product id and a positive quantity (400), a known
      product (404), the same store (400), enough stock (400). */
  function CheckLine(products: map<ProductId, Product>, line: LineRequest, store: Option<StoreId>): (r: Result<ProductId, OrderError>)
    ensures r.Ok? <==>
      && line.productId.Some? && line.quantity.Some? && line.quantity.value > 0
      && line.productId.value in products
      && (store.Some? ==> products[line.productId.value].store == store.value)
      && products[line.productId.value].stock >= line.quantity.value
    ensures r.Ok? ==> r.value == line.productId.value
    ensures r.Err? && r.error.ProductNotFound? ==> line.productId == Some(r.error.id) && r.error.id !in products
    ensures r.Err? && HttpStatus(r.error) == 404 ==> r.error.ProductNotFound?
    // which error each failing check raises, in the order the checks run
    ensures !WellFormedLine(line) ==> r == Err(InvalidLine)
    ensures WellFormedLine(line) && line.productId.value !in products ==>
      r == Err(ProductNotFound(line.productId.value))
    ensures WellFormedLine(line) && line.productId.value in products && !SameStore(products, line, store) ==>
      r == Err(MixedStores)
    ensures WellFormedLine(line) && line.productId.value in products && SameStore(products, line, store)
              && products[line.productId.value].stock < line.quantity.value ==>
      r == Err(InsufficientStock(products[line.productId.value].name,
                                 products[line.productId.value].stock, line.quantity.value))
  {
    if line.productId.None? || line.quantity.None? || line.quantity.value <= 0 then Err(InvalidLine)
    else
      var id, q := line.productId.value, line.quantity.value;
      if id !in products then Err(ProductNotFound(id))
      else if store.Some? && products[id].store != store.value then Err(MixedStores)
      else if products[id].stock < q then Err(InsufficientStock(products[id].name, products[id].stock, q))
      else Ok(id)
  }

  /** The state of the product table after some lines of the cart loop,
      the snapshot lines built so far, the store fixed by the first line,
      and the error that stopped the loop, if any. */
  datatype LinesOutcome = LinesOutcome(
    products: map<ProductId, Product>,
    snapshot: seq<OrderItem>,
    store: Option<StoreId>,
    failure: Option<OrderError>)

  /** One pass of the cart loop: once stopped the loop stays stopped; a line
      that passes its checks is snapshotted, fixes the store and has its
      stock decremented before the next line is looked at. */
  function Step(o: LinesOutcome, line: LineRequest): (r: LinesOutcome)
    ensures o.failure.Some? ==> r == o
    ensures r.products.Keys == o.products.Keys
    // a failing line records its error and changes no stock
    ensures o.failure.None? && CheckLine(o.products, line, o.store).Err? ==>
      r == o.(failure := Some(CheckLine(o.products, line, o.store).error))
    // a passing line adds exactly one snapshot line
    ensures o.failure.None? && CheckLine(o.products, line, o.store).Ok? ==>
      r.failure.None? && r.store.Some? && |r.snapshot| == |o.snapshot| + 1
  {
    if o.failure.Some? then o
    else match CheckLine(o.products, line, o.store)
      case Err(e) => o.(failure := Some(e))
      case Ok(id) =>
        var p, q := o.products[id], line.quantity.value;
        LinesOutcome(o.products[id := p.(stock := p.stock - q)], o.snapshot + [OrderItem(id, p.name, p.price, q)], Some(p.store), None)
  }

  /** The cart loop run over `lines` from the given table. A failing line
      stops the loop and keeps the decrements made so far. */
  function ProcessLines(products: map<ProductId, Product>, lines: seq<LineRequest>): (r: LinesOutcome)
    ensures r.products.Keys == products.Keys
    ensures lines != [] && r.failure.None? ==> r.store.Some?
    ensures r.failure.None? ==> |r.snapshot| == |lines|
  {
    if lines == [] then LinesOutcome(products, [], None, None)
    else Step(ProcessLines(products, lines[..|lines| - 1]), lines[|lines| - 1])
  }

  /** The order `Order.create` stores: the snapshot lines, the totals
      computed from them, status Processing and unpaid. */
  function CreatedOrder(user: UserId, store: StoreId, items: seq<OrderItem>, address: ShippingAddress, payment: PaymentMethod): (o: Order)
    ensures o.user == user && o.store == store && o.items == items
    ensures o.shippingAddress == address && o.paymentMethod == payment
    ensures o.orderStatus == Processing && !o.isPaid && o.paidAt.None? && !o.isDelivered && o.deliveredAt.None?
    ensures var t := OrderTotals(items);
      o.taxPrice == t.taxPrice && o.shippingPrice == t.shippingPrice && o.totalPrice == t.totalPrice
  {
    var t := OrderTotals(items);
    NewOrder(user, store, items, address).(
      paymentMethod := payment,
      taxPrice := t.taxPrice,
      shippingPrice := t.shippingPrice,
      totalPrice := t.totalPrice,
      orderStatus := Processing)
  }

  /** The product table after a request and the order it created, or the error. */
  datatype Placement = Placement(products: map<ProductId, Product>, result: Result<Order, OrderError>)

  /** `createOrder` as a whole. */
  function PlaceOrder(products: map<ProductId, Product>, user: UserId, req: OrderRequest): (pl: Placement)
    ensures Precheck(req).Err? ==> pl == Placement(products, Err(Precheck(req).error))
    ensures pl.products.Keys == products.Keys
    ensures pl.result.Ok? <==> Precheck(req).Ok? && ProcessLines(products, req.orderItems).failure.None?
    ensures pl.result.Ok? ==> pl.result.value.user == user && pl.result.value.items == ProcessLines(products, req.orderItems).snapshot
  {
    match Precheck(req)
    case Err(e) => Placement(products, Err(e))
    case Ok(payment) =>
      var out := ProcessLines(products, req.orderItems);
      if out.failure.Some? then Placement(out.products, Err(out.failure.value))
      else Placement(out.products, Ok(CreatedOrder(user, out.store.value, out.snapshot, req.shippingAddress.value, payment)))
  }

  /** The quantity the valid lines of a cart request ask of one product. */
  function QtyFor(lines: seq<LineRequest>, id: ProductId): int
  {
    if lines == [] then 0
    else
      var last := lines[|lines| - 1];
      QtyFor(lines[..|lines| - 1], id) + (if last.productId == Some(id) && last.quantity.Some? then last.quantity.value else 0)
  }

  /** The product table with the stock of every product lowered by what
      `lines` ask of it, everything else left alone. */
  predicate Decremented(before: map<ProductId, Product>, lines: seq<LineRequest>, after: map<ProductId, Product>)
  {
    && after.Keys == before.Keys
    && forall id :: id in before ==> after[id] == before[id].(stock := before[id].stock - QtyFor(lines, id))
  }

  predicate StockNonNegative(products: map<ProductId, Product>)
  {
    forall id :: id in products ==> products[id].stock >= 0
  }

  /** A snapshot line is built from the catalogue entry the cart line names:
      the product's id, name and price, the requested (positive) quantity,
      and the product belongs to the order's store. */
  predicate SnapshotOf(products: map<ProductId, Product>, line: LineRequest, item: OrderItem, store: StoreId)
  {
    && line.productId.Some? && line.quantity.Some? && line.quantity.value >= 1
    && line.productId.value in products
    && var p := products[line.productId.value];
       item == OrderItem(line.productId.value, p.name, p.price, line.quantity.value) && p.store == store
  }

  /** When the loop gets through every line, each product's stock has gone
      down by exactly the total quantity the cart requested of it. */
  lemma {:induction false} LinesDecrement(products: map<ProductId, Product>, lines: seq<LineRequest>)
    requires ProcessLines(products, lines).failure.None?
    ensures Decremented(products, lines, ProcessLines(products, lines).products)
  {
    if lines != [] {
      var init := lines[..|lines| - 1];
      var last := lines[|lines| - 1];
      var prev := ProcessLines(products, init);
      LinesDecrement(products, init);
      var after := ProcessLines(products, lines).products;
      forall k | k in products
        ensures after[k] == products[k].(stock := products[k].stock - QtyFor(lines, k))
      {
      }
    }
  }

  /** When the loop gets through every line, the snapshot has one line per
      cart line, each taken from the catalogue as it was before the loop,
      all of one store. */
  lemma {:induction false} LinesSnapshot(products: map<ProductId, Product>, lines: seq<LineRequest>)
    requires ProcessLines(products, lines).failure.None? && lines != []
    ensures var out := ProcessLines(products, lines);
      forall i :: 0 <= i < |lines| ==> SnapshotOf(products, lines[i], out.snapshot[i], out.store.value)
  {
    var init, last := lines[..|lines| - 1], lines[|lines| - 1];
    var prev := ProcessLines(products, init);
    var out := ProcessLines(products, lines);
    var id, q := last.productId.value, last.quantity.value;
    assert out == Step(prev, last);
    assert out.snapshot == prev.snapshot + [OrderItem(id, prev.products[id].name, prev.products[id].price, q)];
    assert out.store == Some(prev.products[id].store);
    LinesDecrement(products, init);
    assert prev.products[id] == products[id].(stock := products[id].stock - QtyFor(init, id));
    assert SnapshotOf(products, last, out.snapshot[|init|], out.store.value);
    if init != [] {
      LinesSnapshot(products, init);
      forall i | 0 <= i < |init|
        ensures SnapshotOf(products, lines[i], out.snapshot[i], out.store.value)
      {
        assert lines[i] == init[i];
        assert out.snapshot[i] == prev.snapshot[i];
      }
    }
  }

  /** When a line fails, the loop stops at it: the lines before it all
      passed, the table holds their decrements and nothing else, and the
      error is the one that line raises against that table. The loop is not
      all-or-nothing. */
  lemma {:induction false} LinesFailure(products: map<ProductId, Product>, lines: seq<LineRequest>)
    returns (k: nat)
    requires ProcessLines(products, lines).failure.Some?
    ensures k < |lines|
    ensures var out, done := ProcessLines(products, lines), ProcessLines(products, lines[..k]);
      && done.failure.None?
      && out.products == done.products
      && Decremented(products, lines[..k], out.products)
      && CheckLine(done.products, lines[k], done.store).Err?
      && out.failure == Some(CheckLine(done.products, lines[k], done.store).error)
  {
    var init := lines[..|lines| - 1];
    var prev := ProcessLines(products, init);
    if prev.failure.Some? {
      k := LinesFailure(products, init);
      assert init[..k] == lines[..k];
      assert init[k] == lines[k];
    } else {
      k := |lines| - 1;
      assert lines[..k] == init;
      LinesDecrement(products, init);
    }
  }

  /** The cart loop over one more line is one more `Step`. */
  lemma LinesPrefixStep(products: map<ProductId, Product>, lines: seq<LineRequest>, i: nat)
    requires i < |lines|
    ensures ProcessLines(products, lines[..i + 1]) == Step(ProcessLines(products, lines[..i]), lines[i])
  {
    assert lines[..i + 1][..i] == lines[..i];
  }

  /** A line that passes its checks is snapshotted, fixes the store and
      has its stock decremented. */
  lemma StepAccepted(o: LinesOutcome, line: LineRequest, id: ProductId,
                     table: map<ProductId, Product>, items: seq<OrderItem>, store: Option<StoreId>)
    requires o.failure.None? && CheckLine(o.products, line, o.store) == Ok(id)
    requires id in o.products && line.quantity.Some?
    requires var p, q := o.products[id], line.quantity.value;
      && table == o.products[id := p.(stock := p.stock - q)]
      && items == o.snapshot + [OrderItem(id, p.name, p.price, q)]
      && store == (if o.store.None? then Some(p.store) else o.store)
    ensures Step(o, line) == LinesOutcome(table, items, store, None)
  {
  }

  /** Once a line fails, the lines after it change nothing. */
  lemma {:induction false} FailureSticks(products: map<ProductId, Product>, lines: seq<LineRequest>, n: nat)
    requires n <= |lines| && ProcessLines(products, lines[..n]).failure.Some?
    ensures ProcessLines(products, lines) == ProcessLines(products, lines[..n])
    decreases |lines|
  {
    if n < |lines| {
      assert lines[..|lines| - 1][..n] == lines[..n];
      FailureSticks(products, lines[..|lines| - 1], n);
    } else {
      assert lines[..n] == lines;
    }
  }

  /** Stock is compared with the current value before it is decremented, so
      a table without negative stock never gets one. */
  lemma {:induction false} LinesKeepStockNonNegative(products: map<ProductId, Product>, lines: seq<LineRequest>)
    requires StockNonNegative(products)
    ensures StockNonNegative(ProcessLines(products, lines).products)
  {
    if lines != [] {
      LinesKeepStockNonNegative(products, lines[..|lines| - 1]);
    }
  }

  /** What `createOrder` promises. A request refused by the early checks
      touches no product. A placed order has one snapshot line per cart
      line, each with the catalogue's name and price, all from the store of
      the first line; it is Processing and unpaid; and each product's stock
      went down by exactly the quantity the cart asked of it. */
  lemma PlaceOrderSpec(products: map<ProductId, Product>, user: UserId, req: OrderRequest)
    ensures var placed := PlaceOrder(products, user, req);
      && (Precheck(req).Err? ==> placed.products == products && placed.result == Err(Precheck(req).error))
      && (placed.result.Ok? ==>
            var o, lines := placed.result.value, req.orderItems;
            && lines != [] && lines[0].productId.Some? && lines[0].productId.value in products
            && o.store == products[lines[0].productId.value].store
            && o.user == user && |o.items| == |lines|
            && (forall i :: 0 <= i < |lines| ==> SnapshotOf(products, lines[i], o.items[i], o.store))
            && o.orderStatus == Processing && !o.isPaid && o.paidAt.None?
            && MethodName(o.paymentMethod) == req.paymentMethod
            && o.totalPrice == ItemsPrice(o.items) + o.taxPrice + o.shippingPrice
            && Decremented(products, lines, placed.products))
  {
    if Precheck(req).Ok? {
      var out := ProcessLines(products, req.orderItems);
      if out.failure.None? {
        LinesSnapshot(products, req.orderItems);
        LinesDecrement(products, req.orderItems);
      }
    }
  }

  /** A request that passes the early checks but fails at a cart line
      creates no order, yet the lines before the failing one stay
      decremented. */
  lemma PlaceOrderFailure(products: map<ProductId, Product>, user: UserId, req: OrderRequest)
    returns (k: nat)
    requires Precheck(req).Ok? && PlaceOrder(products, user, req).result.Err?
    ensures k < |req.orderItems|
    ensures Decremented(products, req.orderItems[..k], PlaceOrder(products, user, req).products)
    ensures CheckLine(PlaceOrder(products, user, req).products, req.orderItems[k], ProcessLines(products, req.orderItems[..k]).store).Err?
    ensures PlaceOrder(products, user, req).result.error == CheckLine(PlaceOrder(products, user, req).products, req.orderItems[k], ProcessLines(products, req.orderItems[..k]).store).error
  {
    k := LinesFailure(products, req.orderItems);
  }

  /** Placing an order, whether it succeeds or not, never drives stock
      below zero; and over a valid catalogue a placed order is a valid
      order. */
  lemma PlaceOrderKeepsInvariants(products: map<ProductId, Product>, user: UserId, req: OrderRequest)
    requires StockNonNegative(products)
    ensures StockNonNegative(PlaceOrder(products, user, req).products)
    ensures CatalogValid(products) && PlaceOrder(products, user, req).result.Ok? ==>
      OrderValid(PlaceOrder(products, user, req).result.value)
  {
    LinesKeepStockNonNegative(products, req.orderItems);
    var placed := PlaceOrder(products, user, req);
    if CatalogValid(products) && placed.result.Ok? {
      PlaceOrderSpec(products, user, req);
      var o := placed.result.value;
      forall i | 0 <= i < |o.items| ensures ItemValid(o.items[i]) {
        assert SnapshotOf(products, req.orderItems[i], o.items[i], o.store);
        assert ProductValid(products[req.orderItems[i].productId.value]);
      }
    }
  }

  /** A cart asking for 3 of a product with 2 in stock is refused with a
      400 naming both numbers, and the stock stays at 2. */
  lemma InsufficientStockScenario()
    ensures var widget := Product("Widget", "A widget", 1500, None, 2, 7);
      var req := OrderRequest([LineRequest(Some(1), Some(3))], Some(ShippingAddress("1 Main St", "Pune", "411001", "IN")), "COD");
      var placed := PlaceOrder(map[1 := widget], 42, req);
      placed.result == Err(InsufficientStock("Widget", 2, 3))
      && HttpStatus(placed.result.error) == 400
      && placed.products[1].stock == 2
  {
    var widget := Product("Widget", "A widget", 1500, None, 2, 7);
    var line := LineRequest(Some(1), Some(3));
    assert [line][..0] == [];
  }

  /** A cart whose second line is from another store is refused, but the
      first line's decrement is kept. */
  lemma MixedStoresScenario()
    ensures var widget, gadget := Product("Widget", "A widget", 1500, None, 5, 7), Product("Gadget", "A gadget", 900, None, 5, 8);
      var req := OrderRequest([LineRequest(Some(1), Some(2)), LineRequest(Some(2), Some(1))],
                              Some(ShippingAddress("1 Main St", "Pune", "411001", "IN")), "COD");
      var placed := PlaceOrder(map[1 := widget, 2 := gadget], 42, req);
      placed.result == Err(MixedStores) && placed.products[1].stock == 3 && placed.products[2].stock == 5
  {
    var widget, gadget := Product("Widget", "A widget", 1500, None, 5, 7), Product("Gadget", "A gadget", 900, None, 5, 8);
    var catalogue := map[1 := widget, 2 := gadget];
    var l1, l2 := LineRequest(Some(1), Some(2)), LineRequest(Some(2), Some(1));
    assert [l1, l2][..1] == [l1];
    assert [l1][..0] == [];
    var start := ProcessLines(catalogue, []);
    assert CheckLine(catalogue, l1, None) == Ok(1);
    var first := ProcessLines(catalogue, [l1]);
    assert first == Step(start, l1);
    assert [] + [OrderItem(1, "Widget", 1500, 2)] == [OrderItem(1, "Widget", 1500, 2)];
    assert first == LinesOutcome(catalogue[1 := widget.(stock := 3)], [OrderItem(1, "Widget", 1500, 2)], Some(7), None);
    assert ProcessLines(catalogue, [l1, l2]) == first.(failure := Some(MixedStores));
  }

  // ---------------------------------------------------------------------
  // The merchant's status update and the single-order access rule.
  // ---------------------------------------------------------------------

  /** The `deliveredAt` field of the request body: absent, present but
      falsy (null, empty), or a date. */
  datatype DeliveredAtInput = Absent | Cleared | At(t: Millis)

  /** The body of `PATCH /orders/:id/status`. An absent status is the empty
      string; `isPaid` is `Some` only when the client sent a boolean. */
  datatype StatusUpdate = StatusUpdate(orderStatus: string, isPaid: Option<bool>, deliveredAt: DeliveredAtInput)

  /** The changes `updateOrderStatus` makes to an order found and checked:
      `status` is the parsed status, if one was given. */
  function ApplyStatusUpdate(o: Order, status: Option<OrderStatus>, upd: StatusUpdate, now: Millis): (r: Order)
    // any listed status may replace any other
    ensures r.orderStatus == (if status.Some? then status.value else o.orderStatus)
    // payment only goes from unpaid to paid, and is stamped at that moment
    ensures o.isPaid ==> r.isPaid && r.paidAt == o.paidAt
    ensures !o.isPaid ==> (r.isPaid <==> upd.isPaid == Some(true))
    ensures !o.isPaid && r.isPaid ==> r.paidAt == Some(now)
    ensures !r.isPaid ==> r.paidAt == o.paidAt
    // delivery is never undone; the first Delivered status stamps it
    ensures r.isDelivered <==> o.isDelivered || status == Some(Delivered)
    ensures !o.isDelivered && status == Some(Delivered) ==>
      r.deliveredAt == Some(if upd.deliveredAt.At? then upd.deliveredAt.t else now)
    // otherwise an explicit deliveredAt overwrites the stored one
    ensures (o.isDelivered || status != Some(Delivered)) && upd.deliveredAt.Absent? ==> r.deliveredAt == o.deliveredAt
    ensures (o.isDelivered || status != Some(Delivered)) && upd.deliveredAt.Cleared? ==> r.deliveredAt.None?
    ensures (o.isDelivered || status != Some(Delivered)) && upd.deliveredAt.At? ==> r.deliveredAt == Some(upd.deliveredAt.t)
    // nothing else changes, so a valid order stays valid
    ensures r.user == o.user && r.store == o.store && r.items == o.items && r.shippingAddress == o.shippingAddress
    ensures r.paymentMethod == o.paymentMethod && r.taxPrice == o.taxPrice
    ensures r.shippingPrice == o.shippingPrice && r.totalPrice == o.totalPrice
    ensures OrderValid(o) ==> OrderValid(r)
  {
    var withStatus := if status.Some? then o.(orderStatus := status.value) else o;
    var withPaid :=
      if upd.isPaid == Some(true) && !withStatus.isPaid then withStatus.(isPaid := true, paidAt := Some(now))
      else withStatus;
    if status == Some(Delivered) && !withPaid.isDelivered then
      withPaid.(isDelivered := true, deliveredAt := Some(if upd.deliveredAt.At? then upd.deliveredAt.t else now))
    else match upd.deliveredAt
      case Absent => withPaid
      case Cleared => withPaid.(deliveredAt := None)
      case At(t) => withPaid.(deliveredAt := Some(t))
  }

  /** Only a store owner with a store may update orders. */
  predicate IsMerchant(p: Principal)
  {
    p.role == StoreOwner && p.storeId.Some?
  }

  /** Who may see an order: the customer who placed it, or a store owner
      whose store it was placed with. */
  predicate CanView(p: Principal, o: Order)
  {
    o.user == p.id || (p.role == StoreOwner && p.storeId == Some(o.store))
  }

  /** `getSingleOrder`: 404 for an unknown order, then 403 unless the
      requester may see it. */
  function GetSingleOrder(orders: seq<Order>, p: Principal, id: OrderId): (r: Result<Order, OrderError>)
    ensures id >= |orders| ==> r == Err(OrderNotFound)
    ensures r.Ok? ==>
      && id < |orders| && r.value == orders[id]
      && (r.value.user == p.id || (p.role == StoreOwner && p.storeId == Some(r.value.store)))
    ensures id < |orders| && r.Err? ==>
      && r == Err(Forbidden)
      && orders[id].user != p.id && !(p.role == StoreOwner && p.storeId == Some(orders[id].store))
  {
    if id >= |orders| then Err(OrderNotFound)
    else if CanView(p, orders[id]) then Ok(orders[id])
    else Err(Forbidden)
  }

  /** A placed order can be seen by the customer who placed it and by the
      owner of its store, and by no other customer. */
  lemma PlacedOrderVisibility(products: map<ProductId, Product>, user: UserId, req: OrderRequest, p: Principal)
    requires PlaceOrder(products, user, req).result.Ok?
    ensures var o := PlaceOrder(products, user, req).result.value;
      && (p.id == user ==> GetSingleOrder([o], p, 0) == Ok(o))
      && (p.role == StoreOwner && p.storeId == Some(o.store) ==> GetSingleOrder([o], p, 0) == Ok(o))
      && (p.id != user && p.role == Regular ==> GetSingleOrder([o], p, 0) == Err(Forbidden))
  {
    PlaceOrderSpec(products, user, req);
  }

  // ---------------------------------------------------------------------
  // The store-orders listing: filter, operator rewrite and pagination.
  // ---------------------------------------------------------------------

  /** The query parameters that steer the listing rather than filter it. */
  const ExcludedFields: set<string> := {"page", "sort", "limit", "fields"}

  /** A filter value: query text, or the reference to the owner's store. */
  datatype FilterValue = Text(s: string) | StoreRef(store: StoreId)

  /** The query with the steering parameters removed and `store` forced to
      the owner's store, whatever the query said. */
  function BuildFilter(query: map<string, string>, store: StoreId): (f: map<string, FilterValue>)
    ensures f.Keys == (query.Keys - ExcludedFields) + {"store"}
    ensures f["store"] == StoreRef(store)
    ensures forall k :: k in f && k != "store" ==> f[k] == Text(query[k])
  {
    var kept := map k | k in query && k !in ExcludedFields :: Text(query[k]);
    kept["store" := StoreRef(store)]
  }

  /** The characters of `\w` and of `\b` word boundaries. */
  predicate IsWordChar(c: char)
  {
    ('a' <= c <= 'z') || ('A' <= c <= 'Z') || ('0' <= c <= '9') || c == '_'
  }

  /** The length of the run of word characters at the start of `s`. */
  function WordRun(s: string): (n: nat)
    ensures n <= |s|
    ensures forall i :: 0 <= i < n ==> IsWordChar(s[i])
    ensures n < |s| ==> !IsWordChar(s[n])
  {
    if s != [] && IsWordChar(s[0]) then 1 + WordRun(s[1..]) else 0
  }

  /** The comparison operators the listing lets a client use. */
  predicate IsOperator(w: string)
  {
    w == "gte" || w == "gt" || w == "lte" || w == "lt"
  }

  /** `replace(/\b(gte|gt|lte|lt)\b/g, m => '$' + m)`: every whole word that
      is an operator gets a `$` in front. */
  function Rewrite(s: string): string
    decreases |s|
  {
    if s == [] then []
    else if IsWordChar(s[0]) then
      var n := WordRun(s);
      (if IsOperator(s[..n]) then "$" + s[..n] else s[..n]) + Rewrite(s[n..])
    else [s[0]] + Rewrite(s[1..])
  }

  /** Drops the `$` in front of every whole operator word. */
  function Unrewrite(r: string): string
    decreases |r|
  {
    if r == [] then []
    else if IsWordChar(r[0]) then
      var n := WordRun(r);
      r[..n] + Unrewrite(r[n..])
    else if r[0] == '$' && |r| > 1 && IsWordChar(r[1]) && IsOperator(r[1..][..WordRun(r[1..])]) then
      Unrewrite(r[1..])
    else [r[0]] + Unrewrite(r[1..])
  }

  /** A run of word characters followed by a non-word character (or the
      end) is a whole word. */
  lemma {:induction false} WordRunOfWord(w: string, t: string)
    requires forall i :: 0 <= i < |w| ==> IsWordChar(w[i])
    requires t == [] || !IsWordChar(t[0])
    ensures WordRun(w + t) == |w| && (w + t)[..|w|] == w && (w + t)[|w|..] == t
  {
    if w == [] {
      assert w + t == t;
    } else {
      assert (w + t)[1..] == w[1..] + t;
      WordRunOfWord(w[1..], t);
    }
  }

  /** The rewrite never changes what a string starts with, except to put a
      `$` before an operator; in particular no output starts with a bare
      operator word. */
  lemma {:induction false} RewriteStart(s: string)
    requires s != []
    ensures Rewrite(s) != []
    ensures !IsWordChar(s[0]) ==> Rewrite(s)[0] == s[0]
    ensures IsWordChar(s[0]) && IsOperator(s[..WordRun(s)]) ==> Rewrite(s)[0] == '$'
    ensures IsWordChar(s[0]) && !IsOperator(s[..WordRun(s)]) ==>
      WordRun(Rewrite(s)) == WordRun(s) && Rewrite(s)[..WordRun(s)] == s[..WordRun(s)]
  {
    if IsWordChar(s[0]) {
      var n := WordRun(s);
      var w, rest := s[..n], s[n..];
      if !IsOperator(w) {
        if rest != [] {
          RewriteStart(rest);
        }
        WordRunOfWord(w, Rewrite(rest));
      }
    }
  }

  /** The rewrite loses nothing: dropping the inserted `$` signs gives the
      original text back. So two different texts never rewrite to the same. */
  lemma {:induction false} RewriteRoundTrip(s: string)
    ensures Unrewrite(Rewrite(s)) == s
    decreases |s|
  {
    if s != [] {
      if IsWordChar(s[0]) {
        RewriteRoundTrip(s[WordRun(s)..]);
        RoundTripWordStep(s);
      } else {
        RewriteRoundTrip(s[1..]);
        RoundTripOtherStep(s);
      }
    }
  }

  /** The round trip over a leading word, given it over what follows. */
  lemma RoundTripWordStep(s: string)
    requires s != [] && IsWordChar(s[0])
    requires Unrewrite(Rewrite(s[WordRun(s)..])) == s[WordRun(s)..]
    ensures Unrewrite(Rewrite(s)) == s
  {
    var n := WordRun(s);
    var w, rest := s[..n], s[n..];
    var tail := Rewrite(rest);
    LeadingWord(s);
    UnrewriteWord(w, tail);
    if IsOperator(w) {
      UnrewriteMarked(w, tail);
    }
  }

  /** How the rewrite treats a leading word: it is a whole word, marked
      when it is an operator, and what is rewritten after it does not start
      with a word character. */
  lemma LeadingWord(s: string)
    requires s != [] && IsWordChar(s[0])
    ensures var n := WordRun(s);
      var w, rest := s[..n], s[n..];
      && w != [] && (forall i :: 0 <= i < |w| ==> IsWordChar(w[i]))
      && s == w + rest
      && (Rewrite(rest) == [] || !IsWordChar(Rewrite(rest)[0]))
      && Rewrite(s) == (if IsOperator(w) then "$" + w else w) + Rewrite(rest)
  {
    var n := WordRun(s);
    var w, rest := s[..n], s[n..];
    assert s == w + rest;
    if rest != [] {
      RewriteStart(rest);
    }
  }

  /** Undoing the rewrite leaves a leading word that is not marked alone. */
  lemma UnrewriteWord(w: string, t: string)
    requires w != [] && forall i :: 0 <= i < |w| ==> IsWordChar(w[i])
    requires t == [] || !IsWordChar(t[0])
    ensures Unrewrite(w + t) == w + Unrewrite(t)
  {
    WordRunOfWord(w, t);
  }

  /** Undoing the rewrite drops the `$` in front of a whole operator word. */
  lemma UnrewriteMarked(w: string, t: string)
    requires IsOperator(w)
    requires t == [] || !IsWordChar(t[0])
    ensures Unrewrite("$" + w + t) == Unrewrite(w + t)
  {
    OperatorIsWord(w);
    var u := w + t;
    var r := "$" + u;
    assert r[1..] == u;
    assert WordRun(u) == |w| && u[..|w|] == w by {
      WordRunOfWord(w, t);
    }
    UnrewriteDollar(r);
    assert "$" + w + t == r;
  }

  /** One step of `Unrewrite` over a marked operator word. */
  lemma UnrewriteDollar(r: string)
    requires |r| > 1 && r[0] == '$' && IsWordChar(r[1])
    requires IsOperator(r[1..][..WordRun(r[1..])])
    ensures Unrewrite(r) == Unrewrite(r[1..])
  {
  }

  /** Each operator is a non-empty word. */
  lemma OperatorIsWord(w: string)
    requires IsOperator(w)
    ensures w != [] && forall i :: 0 <= i < |w| ==> IsWordChar(w[i])
  {
  }

  /** The round trip over a leading non-word character, given it over what
      follows. */
  lemma RoundTripOtherStep(s: string)
    requires s != [] && !IsWordChar(s[0])
    requires Unrewrite(Rewrite(s[1..])) == s[1..]
    ensures Unrewrite(Rewrite(s)) == s
  {
    var rest := s[1..];
    var r := Rewrite(s);
    assert r == [s[0]] + Rewrite(rest);
    assert r[1..] == Rewrite(rest);
    if s[0] == '$' && |r| > 1 && IsWordChar(r[1]) {
      RewriteStart(rest);
    }
    assert s == [s[0]] + rest;
  }

  /** The rewrite is one-to-one. */
  lemma RewriteInjective()
    ensures forall a, b :: Rewrite(a) == Rewrite(b) ==> a == b
  {
    forall a, b | Rewrite(a) == Rewrite(b) ensures a == b {
      RewriteRoundTrip(a);
      RewriteRoundTrip(b);
    }
  }

  /** Whole words only: an operator inside a longer word is left alone. */
  lemma RewriteExamples()
    ensures Rewrite("gte") == "$gte"
    ensures Rewrite("gtex") == "gtex"
  {
    assert WordRun("gte") == 3;
    assert "gte"[..3] == "gte";
    assert WordRun("gtex") == 4;
    assert "gtex"[..4] == "gtex";
  }

  function RewriteValue(v: FilterValue): FilterValue
  {
    match v
    case Text(s) => Text(Rewrite(s))
    case StoreRef(id) => StoreRef(id)
  }

  /** The filter as the query runs it: the JSON text of the filter goes
      through the rewrite, which acts on every key and every text value.
      Every key of the result comes from exactly one key of the filter. */
  function RewriteFilter(f: map<string, FilterValue>): (g: map<string, FilterValue>)
    ensures forall k :: k in f ==> Rewrite(k) in g && g[Rewrite(k)] == RewriteValue(f[k])
    ensures forall k :: k in g ==> Unrewrite(k) in f && k == Rewrite(Unrewrite(k))
  {
    RewriteInjective();
    var g := map k | k in f :: Rewrite(k) := RewriteValue(f[k]);
    assert forall k :: k in g ==> Unrewrite(k) in f && k == Rewrite(Unrewrite(k)) by {
      forall k | k in g ensures Unrewrite(k) in f && k == Rewrite(Unrewrite(k)) {
        var k0 :| k0 in f && k == Rewrite(k0);
        RewriteRoundTrip(k0);
      }
    }
    g
  }

  predicate IsDigit(c: char)
  {
    '0' <= c <= '9'
  }

  /** The length of the run of decimal digits at the start of `s`. */
  function DigitRun(s: string): (n: nat)
    ensures n <= |s|
    ensures forall i :: 0 <= i < n ==> IsDigit(s[i])
    ensures n < |s| ==> !IsDigit(s[n])
  {
    if s != [] && IsDigit(s[0]) then 1 + DigitRun(s[1..]) else 0
  }

  /** The value of a string of decimal digits. */
  function DigitsValue(ds: string): nat
  {
    if ds == [] then 0
    else 10 * DigitsValue(ds[..|ds| - 1]) + (ds[|ds| - 1] as int - '0' as int) % 10
  }

  /** The longest run of digits at the start of `s`, read as a number;
      `None` when `s` does not start with a digit. */
  function ParseDigits(s: string): (r: Option<nat>)
    ensures r.None? <==> s == [] || !IsDigit(s[0])
  {
    var n := DigitRun(s);
    if n == 0 then None else Some(DigitsValue(s[..n]))
  }

  /** `parseInt(s, 10)`: leading white space is skipped, a sign is read, then
      the longest run of digits; `None` (NaN) when there are no digits.
      Anything after the digits is ignored. */
  function ParseIntDec(s: string): Option<int>
  {
    var t := TrimStart(s);
    if t != [] && t[0] == '-' then
      match ParseDigits(t[1..])
      case None => None
      case Some(v) => Some(-(v as int))
    else if t != [] && t[0] == '+' then
      match ParseDigits(t[1..])
      case None => None
      case Some(v) => Some(v)
    else
      match ParseDigits(t)
      case None => None
      case Some(v) => Some(v)
  }

  function DigitChar(d: nat): char
    requires d < 10
  {
    ('0' as int + d) as char
  }

  /** The decimal digits of a natural number, without leading zeros. */
  function Digits(n: nat): (ds: string)
    ensures ds != [] && forall i :: 0 <= i < |ds| ==> IsDigit(ds[i])
  {
    if n < 10 then [DigitChar(n)] else Digits(n / 10) + [DigitChar(n % 10)]
  }

  /** How an integer is written in a query string. */
  function DecimalString(n: int): string
  {
    if n < 0 then "-" + Digits(-n) else Digits(n)
  }

  lemma {:induction false} DigitsValueOfDigits(n: nat)
    ensures DigitsValue(Digits(n)) == n
  {
    if n >= 10 {
      DigitsValueOfDigits(n / 10);
      var ds := Digits(n);
      assert ds[..|ds| - 1] == Digits(n / 10);
    }
  }

  /** A digit run followed by something that is not a digit is read whole. */
  lemma {:induction false} DigitRunOfDigits(ds: string, t: string)
    requires forall i :: 0 <= i < |ds| ==> IsDigit(ds[i])
    requires t == [] || !IsDigit(t[0])
    ensures DigitRun(ds + t) == |ds| && (ds + t)[..|ds|] == ds
  {
    if ds == [] {
      assert ds + t == t;
    } else {
      assert (ds + t)[1..] == ds[1..] + t;
      DigitRunOfDigits(ds[1..], t);
    }
  }

  /** `parseInt` reads back any integer written in decimal, whatever
      non-digit text follows it. */
  lemma ParseIntDecimal(n: int, t: string)
    requires t == [] || !IsDigit(t[0])
    ensures ParseIntDec(DecimalString(n) + t) == Some(n)
  {
    if n < 0 {
      var m: nat := -n;
      ParseNegative(m, t);
      assert DecimalString(n) == "-" + Digits(m);
    } else {
      ParseNonNegative(n, t);
      assert DecimalString(n) == Digits(n);
    }
  }

  lemma ParseNonNegative(m: nat, t: string)
    requires t == [] || !IsDigit(t[0])
    ensures ParseIntDec(Digits(m) + t) == Some(m)
  {
    var ds := Digits(m);
    var u := ds + t;
    assert u[0] == ds[0];
    ParseDigitsOfDigits(m, t);
    ParseUnsigned(u);
  }

  lemma ParseNegative(m: nat, t: string)
    requires m > 0 && (t == [] || !IsDigit(t[0]))
    ensures ParseIntDec("-" + Digits(m) + t) == Some(-(m as int))
  {
    var u := Digits(m) + t;
    assert "-" + Digits(m) + t == "-" + u;
    ParseDigitsOfDigits(m, t);
    ParseMinus(u);
  }

  /** Text that starts with a digit reads as its leading digits. */
  lemma ParseUnsigned(u: string)
    requires u != [] && IsDigit(u[0])
    ensures ParseIntDec(u) == ParseDigits(u)
  {
    TrimStartKeeps(u);
  }

  /** A minus sign in front of the text negates what the digits after it read as. */
  lemma ParseMinus(u: string)
    ensures ParseIntDec("-" + u) == match ParseDigits(u) case None => None case Some(v) => Some(-(v as int))
  {
    var s := "-" + u;
    assert s[0] == '-';
    TrimStartKeeps(s);
    assert s[1..] == u;
  }

  /** The digits of a number, followed by anything but a digit, read back
      as that number. */
  lemma ParseDigitsOfDigits(m: nat, t: string)
    requires t == [] || !IsDigit(t[0])
    ensures ParseDigits(Digits(m) + t) == Some(m)
  {
    var ds := Digits(m);
    DigitRunOfDigits(ds, t);
    DigitsValueOfDigits(m);
  }

  /** `parseInt(raw, 10) || fallback`: NaN and 0 fall back. A missing
      parameter is NaN. */
  function IntOr(raw: Option<string>, fallback: int): (v: int)
    ensures v != 0 || fallback == 0
    ensures raw.None? ==> v == fallback
  {
    if raw.None? then fallback
    else match ParseIntDec(raw.value)
      case None => fallback
      case Some(x) => if x == 0 then fallback else x
  }

  /** The page, page size and number of orders skipped. */
  datatype Paging = Paging(page: int, limit: int, skip: int)

  function PagingOf(query: map<string, string>): (pg: Paging)
    ensures pg.page != 0 && pg.limit != 0
    ensures pg.skip == (pg.page - 1) * pg.limit
    ensures "page" !in query ==> pg.page == 1 && pg.skip == 0
    ensures "limit" !in query ==> pg.limit == 10
  {
    var page := IntOr(if "page" in query then Some(query["page"]) else None, 1);
    var limit := IntOr(if "limit" in query then Some(query["limit"]) else None, 10);
    Paging(page, limit, (page - 1) * limit)
  }

  /** What the listing hands the database: the rewritten filter and the
      page window. */
  datatype Listing = Listing(filter: map<string, FilterValue>, paging: Paging)

  /** `getAllStoreOrders`, given `total`, the number of orders the filter
      matches: 403 without a store (the role is not checked), 404 when a
      page was asked for that starts past the last order. */
  function GetAllStoreOrders(p: Principal, query: map<string, string>, total: nat): (r: Result<Listing, OrderError>)
    ensures p.storeId.None? ==> r == Err(Forbidden)
    ensures r.Ok? ==>
      && r.value.filter == RewriteFilter(BuildFilter(query, p.storeId.value))
      && r.value.paging == PagingOf(query)
    ensures r == Err(PageNotFound) <==>
      && p.storeId.Some? && "page" in query && query["page"] != []
      && PagingOf(query).skip >= total > 0
  {
    if p.storeId.None? then Err(Forbidden)
    else
      var pg := PagingOf(query);
      if "page" in query && query["page"] != [] && pg.skip >= total && total > 0 then Err(PageNotFound)
      else Ok(Listing(RewriteFilter(BuildFilter(query, p.storeId.value)), pg))
  }

  /** The listing always filters on the owner's store, and only on it: the
      client cannot widen it to another store. */
  lemma ListingStaysInStore(p: Principal, query: map<string, string>, total: nat)
    requires GetAllStoreOrders(p, query, total).Ok?
    ensures var f := GetAllStoreOrders(p, query, total).value.filter;
      "store" in f && f["store"] == StoreRef(p.storeId.value)
  {
    var b := BuildFilter(query, p.storeId.value);
    RewriteStoreKey();
    var g := RewriteFilter(b);
    assert "store" in g && g["store"] == RewriteValue(b["store"]);
  }

  /** The store key is not an operator word, so the rewrite keeps it. */
  lemma RewriteStoreKey()
    ensures Rewrite("store") == "store"
  {
    assert WordRun("store") == 5;
    assert "store"[..5] == "store";
  }

  /** For page `n` ≥ 1 and a page size of `size` ≥ 1 written in the query,
      the listing refuses the page exactly when its first order lies past
      the last of `total` (> 0) orders; the first page is never refused. */
  lemma PageBounds(p: Principal, query: map<string, string>, n: int, size: int, total: nat)
    requires p.storeId.Some? && n >= 1 && size >= 1 && total > 0
    requires "page" in query && query["page"] == DecimalString(n)
    requires "limit" in query && query["limit"] == DecimalString(size)
    ensures GetAllStoreOrders(p, query, total) == Err(PageNotFound) <==> (n - 1) * size >= total
    ensures n == 1 ==> GetAllStoreOrders(p, query, total).Ok?
  {
    assert ParseIntDec(query["page"]) == Some(n) by {
      ParseIntDecimal(n, []);
      assert DecimalString(n) + [] == DecimalString(n);
    }
    assert ParseIntDec(query["limit"]) == Some(size) by {
      ParseIntDecimal(size, []);
      assert DecimalString(size) + [] == DecimalString(size);
    }
    var pg := PagingOf(query);
    assert pg.page == n && pg.limit == size;
    assert pg.skip == (n - 1) * size;
    assert query["page"] != [];
  }

  // ---------------------------------------------------------------------
  // The order store.
  // ---------------------------------------------------------------------

  /** Orders are numbered by their position in `orders`. */
  type OrderId = nat

  /** The cart loop of `createOrder`: each line is checked against the
      current stock, snapshotted, and has its product's stock decremented
      before the next line is looked at; the first failing line stops the
      loop, keeping the decrements already made. */
  method ProcessCart(products: map<ProductId, Product>, lines: seq<LineRequest>) returns (out: LinesOutcome)
    ensures out == ProcessLines(products, lines)
  {
    var table := products;
    var items: seq<OrderItem> := [];
    var common: Option<StoreId> := None;
    for i := 0 to |lines|
      invariant ProcessLines(products, lines[..i]) == LinesOutcome(table, items, common, None)
    {
      ghost var before := LinesOutcome(table, items, common, None);
      LinesPrefixStep(products, lines, i);
      var check := CheckLine(table, lines[i], common);
      if check.Err? {
        FailureSticks(products, lines, i + 1);
        return LinesOutcome(table, items, common, Some(check.error));
      }
      var id, q := check.value, lines[i].quantity.value;
      var product := table[id];
      if common.None? {
        common := Some(product.store);
      }
      items := items + [OrderItem(id, product.name, product.price, q)];
      table := table[id := product.(stock := product.stock - q)];
      StepAccepted(before, lines[i], id, table, items, common);
    }
    assert lines[..|lines|] == lines;
    out := LinesOutcome(table, items, common, None);
  }

  /** The product and order collections the order handlers work on. */
  class Shop {
    var products: map<ProductId, Product>
    var orders: seq<Order>

    constructor (products: map<ProductId, Product>)
      ensures this.products == products && orders == []
    {
      this.products := products;
      orders := [];
    }

    /** `createOrder`: validates the request, then walks the cart saving each
        product's decremented stock as it goes, and finally stores the order. */
    method CreateOrder(user: UserId, req: OrderRequest) returns (r: Result<OrderId, OrderError>)
      modifies this
      ensures var placed := PlaceOrder(old(products), user, req);
        && products == placed.products
        && (placed.result.Ok? ==> r == Ok(|old(orders)|) && orders == old(orders) + [placed.result.value])
        && (placed.result.Err? ==> r == Err(placed.result.error) && orders == old(orders))
    {
      var payment := Precheck(req);
      if payment.Err? {
        return Err(payment.error);
      }
      var out := ProcessCart(products, req.orderItems);
      products := out.products;
      if out.failure.Some? {
        return Err(out.failure.value);
      }
      var items := out.snapshot;
      var totals := CalculateOrderTotals(items);
      var order := NewOrder(user, out.store.value, items, req.shippingAddress.value).(
        paymentMethod := payment.value,
        taxPrice := totals.taxPrice,
        shippingPrice := totals.shippingPrice,
        totalPrice := totals.totalPrice,
        orderStatus := Processing);
      orders := orders + [order];
      r := Ok(|orders| - 1);
    }

    /** `updateOrderStatus`: 403 unless a store owner with a store, 404 for
        an order that is unknown or belongs to another store, 400 for a
        status outside the list; otherwise the order is changed as
        `ApplyStatusUpdate` says and saved. A refused request changes nothing. */
    method UpdateOrderStatus(p: Principal, id: OrderId, upd: StatusUpdate, now: Millis)
      returns (r: Result<Order, OrderError>)
      modifies this`orders
      ensures !IsMerchant(p) ==> r == Err(Forbidden)
      ensures IsMerchant(p) && (id >= |old(orders)| || old(orders)[id].store != p.storeId.value) ==>
        r == Err(OrderNotFound)
      ensures IsMerchant(p) && id < |old(orders)| && old(orders)[id].store == p.storeId.value ==>
        if upd.orderStatus != [] && ParseStatus(upd.orderStatus).None? then r == Err(InvalidStatus)
        else r == Ok(ApplyStatusUpdate(old(orders)[id], ParseStatus(upd.orderStatus), upd, now))
      ensures r.Err? ==> orders == old(orders)
      ensures r.Ok? ==> id < |old(orders)| && orders == old(orders)[id := r.value]
    {
      if !IsMerchant(p) {
        return Err(Forbidden);
      }
      if id >= |orders| || orders[id].store != p.storeId.value {
        return Err(OrderNotFound);
      }
      var order := orders[id];
      var status := ParseStatus(upd.orderStatus);
      if status.Some? {
        order := order.(orderStatus := status.value);
      } else if upd.orderStatus != [] {
        return Err(InvalidStatus);
      }
      if upd.isPaid == Some(true) && !order.isPaid {
        order := order.(isPaid := true, paidAt := Some(now));
      }
      if status == Some(Delivered) && !order.isDelivered {
        order := order.(isDelivered := true);
        order := order.(deliveredAt := Some(if upd.deliveredAt.At? then upd.deliveredAt.t else now));
      } else if !upd.deliveredAt.Absent? {
        order := order.(deliveredAt := if upd.deliveredAt.At? then Some(upd.deliveredAt.t) else None);
      }
      orders := orders[id := order];
      r := Ok(order);
    }
  }
}
