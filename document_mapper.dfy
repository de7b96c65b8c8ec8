/** The persisted form of an order and the field-by-field translation
    between it and the aggregate. */
module DocumentMapping {
  import opened Results
  import opened Values
  import opened Text
  import opened Items
  import opened Pricing
  import opened Orders

  datatype ProductSnapshotDocument = ProductSnapshotDocument(productId: string, productDescription: string)

  datatype CustomerSnapshotDocument = CustomerSnapshotDocument(customerId: string, customerName: string)

  datatype RestaurantSnapshotDocument = RestaurantSnapshotDocument(restaurantId: string, restaurantName: string)

  datatype CouponDocument = CouponDocument(code: string, discountValue: real)

  datatype OrderItemDocument = OrderItemDocument(
    product: ProductSnapshotDocument,
    quantity: int,
    unitPrice: real,
    addonsValue: real,
    notes: Option<string>,
    totalItemValue: real)

  /** The stored order. `discountValue` and `totalValue` are written but
      never read back. */
  datatype OrderDocument = OrderDocument(
    id: OrderId,
    orderCode: string,
    orderedAt: Instant,
    customer: CustomerSnapshotDocument,
    restaurant: RestaurantSnapshotDocument,
    items: seq<OrderItemDocument>,
    deliveryFee: real,
    coupon: Option<CouponDocument>,
    discountValue: real,
    totalValue: real,
    status: OrderStatus,
    orderType: OrderType,
    version: int32)

  function ItemToDocument(line: ItemLine): OrderItemDocument
  {
    OrderItemDocument(
      ProductSnapshotDocument(line.product.productId, line.product.productDescription),
      line.quantity, line.unitPrice, line.addonsValue, line.notes, line.totalItemValue)
  }

  /** The lines of an order as stored lines: one to one and in order. */
  function ItemsToDocuments(items: seq<ItemLine>): (r: seq<OrderItemDocument>)
    ensures |r| == |items|
    ensures forall i :: 0 <= i < |items| ==> r[i] == ItemToDocument(items[i])
  {
    if items == [] then [] else [ItemToDocument(items[0])] + ItemsToDocuments(items[1..])
  }

  function CouponToDocument(coupon: Option<Coupon>): (r: Option<CouponDocument>)
    ensures r.None? <==> coupon.None?
  {
    match coupon
    case None => None
    case Some(c) => Some(CouponDocument(c.code, c.discountValue))
  }

  /** `FromDomain`: the document written for an order, including its
      current discount and total. */
  function FromDomain(o: Order): (r: OrderDocument)
    reads o
    ensures r.id == o.id && r.version == o.version && |r.items| == |o.items|
    ensures o.Valid() ==>
      && 0.0 <= r.discountValue
      && r.totalValue == OrderTotal(o.items, r.deliveryFee, CouponFromDocument(r.coupon))
  {
    OrderDocument(
      o.id, o.code, o.createdAt,
      CustomerSnapshotDocument(o.customer.customerId, o.customer.customerName),
      RestaurantSnapshotDocument(o.restaurant.restaurantId, o.restaurant.restaurantName),
      ItemsToDocuments(o.items),
      o.deliveryFee,
      CouponToDocument(o.coupon),
      o.Discount(),
      o.orderTotal,
      o.status,
      o.orderType,
      o.version)
  }

  /** A stored line goes back through the `OrderItem` constructor, so its
      checks run again and its total is recomputed. */
  function ItemFromDocument(d: OrderItemDocument): Result<ItemLine>
  {
    NewLine(Some(ProductSnapshot(d.product.productId, d.product.productDescription)),
            d.quantity, d.unitPrice, d.addonsValue, d.notes)
  }

  /** All stored lines, or the error of the first one the constructor rejects. */
  function ItemsFromDocuments(ds: seq<OrderItemDocument>): (r: Result<seq<ItemLine>>)
    ensures r.Success? <==> forall i :: 0 <= i < |ds| ==> ItemFromDocument(ds[i]).Success?
    ensures r.Success? ==>
      && |r.value| == |ds|
      && AllValid(r.value)
      && forall i :: 0 <= i < |ds| ==> ItemFromDocument(ds[i]) == Success(r.value[i])
  {
    if ds == [] then Success([])
    else match ItemFromDocument(ds[0])
      case Failure(e) => Failure(e)
      case Success(line) =>
        match ItemsFromDocuments(ds[1..])
        case Failure(e) => Failure(e)
        case Success(rest) => Success([line] + rest)
  }

  /** Every line as a present (non-null) entry. */
  function Present(lines: seq<ItemLine>): (r: seq<Option<ItemLine>>)
    ensures |r| == |lines| && NoNulls(r)
    ensures forall i :: 0 <= i < |lines| ==> r[i] == Some(lines[i])
  {
    seq(|lines|, i requires 0 <= i < |lines| => Some(lines[i]))
  }

  function CouponFromDocument(d: Option<CouponDocument>): (r: Option<Coupon>)
    ensures r.None? <==> d.None?
  {
    match d
    case None => None
    case Some(c) => Some(Coupon(c.code, c.discountValue))
  }

  /** The state of the order `ToDomain` builds: the lines are rebuilt first,
      then everything goes through `Rehydrate`. */
  function ToDomainState(d: OrderDocument): (r: Result<OrderState>)
    ensures d.version < 0 ==> r.Failure?
    ensures r.Success? ==>
      && WellFormed(r.value)
      && r.value.id == d.id && r.value.status == d.status && r.value.version == d.version
  {
    match ItemsFromDocuments(d.items)
    case Failure(e) => Failure(e)
    case Success(lines) =>
      RehydrateState(
        d.id, d.orderCode, d.orderedAt,
        Some(CustomerSnapshot(d.customer.customerId, d.customer.customerName)),
        Some(RestaurantSnapshot(d.restaurant.restaurantId, d.restaurant.restaurantName)),
        d.orderType, d.deliveryFee, Present(lines), d.status, d.version,
        CouponFromDocument(d.coupon))
  }

  /** `ToDomain`: a fresh order rebuilt from a document, with no pending
      event, keeping the document's id, status and version. */
  method ToDomain(d: OrderDocument) returns (r: Result<Order>)
    ensures r.Failure? <==> ToDomainState(d).Failure?
    ensures r.Failure? ==> r.error == ToDomainState(d).error
    ensures r.Success? ==>
      && fresh(r.value) && r.value.Valid() && r.value.events == []
      && r.value.State() == ToDomainState(d).value
      && r.value.id == d.id && r.value.status == d.status && r.value.version == d.version
  {
    var lines := ItemsFromDocuments(d.items);
    if lines.Failure? {
      return Failure(lines.error);
    }
    r := Order.Rehydrate(
      d.id, d.orderCode, d.orderedAt,
      Some(CustomerSnapshot(d.customer.customerId, d.customer.customerName)),
      Some(RestaurantSnapshot(d.restaurant.restaurantId, d.restaurant.restaurantName)),
      d.orderType, d.deliveryFee, Present(lines.value), d.status, d.version,
      CouponFromDocument(d.coupon));
  }

  /** Reading a document keeps its id, status and version, and yields a
      well-formed order. */
  lemma ToDomainKeepsIdentity(d: OrderDocument)
    requires ToDomainState(d).Success?
    ensures var s := ToDomainState(d).value;
      && WellFormed(s)
      && s.id == d.id && s.status == d.status && s.version == d.version
      && s.code == Trim(d.orderCode) && s.deliveryFee == d.deliveryFee
      && (s.coupon.None? <==> d.coupon.None?)
  {
    var lines := ItemsFromDocuments(d.items).value;
    assert NoNulls(Present(lines));
  }

  /** The stored discount and total are not read back: documents that differ
      only there give the same order. */
  lemma ToDomainIgnoresStoredTotals(d: OrderDocument, discount: real, total: real)
    ensures ToDomainState(d.(discountValue := discount, totalValue := total)) == ToDomainState(d)
  {
  }

  /** The stored discount and total are those the pricing rule gives for the
      stored lines, fee and coupon. */
  lemma StoredTotalsAgree(o: Order)
    requires o.Valid()
    ensures var d := FromDomain(o);
      && ItemsFromDocuments(d.items).Success?
      && d.discountValue == DiscountValue(ItemsFromDocuments(d.items).value, d.deliveryFee, CouponFromDocument(d.coupon))
      && d.totalValue == OrderTotal(ItemsFromDocuments(d.items).value, d.deliveryFee, CouponFromDocument(d.coupon))
  {
    ItemsRoundTrip(o.items);
    CouponRoundTrip(o.coupon);
  }

  /** Valid lines written and read back are the same lines. */
  lemma {:induction false} ItemsRoundTrip(items: seq<ItemLine>)
    requires AllValid(items)
    ensures ItemsFromDocuments(ItemsToDocuments(items)) == Success(items)
  {
    if items != [] {
      var ds := ItemsToDocuments(items);
      assert items[0].Valid();
      assert ItemFromDocument(ds[0]) == Success(items[0]);
      assert ds[1..] == ItemsToDocuments(items[1..]);
      assert AllValid(items[1..]) by {
        forall i | 0 <= i < |items[1..]| ensures items[1..][i].Valid() {
          assert items[1..][i] == items[i + 1];
        }
      }
      ItemsRoundTrip(items[1..]);
      assert [items[0]] + items[1..] == items;
    }
  }

  lemma CouponRoundTrip(coupon: Option<Coupon>)
    ensures CouponFromDocument(CouponToDocument(coupon)) == coupon
  {
  }

  /** Reading back what was written for an order, at any non-negative
      version, gives that order's state at that version. */
  lemma RoundTripAtVersion(o: Order, v: int32)
    requires o.Valid() && v >= 0
    ensures ToDomainState(FromDomain(o).(version := v)) == Success(o.State().(version := v))
  {
    ItemsRoundTrip(o.items);
    CouponRoundTrip(o.coupon);
    assert Unwrap(Present(o.items)) == o.items;
    TrimStartOfTrimmed(o.code);
    TrimEndOfTrimmed(o.code);
  }

  /** The round trip `ToDomain(FromDomain(o))` gives back the order's id,
      code, lines, fee, coupon, status and version, and so its total. */
  lemma RoundTrip(o: Order)
    requires o.Valid()
    ensures ToDomainState(FromDomain(o)) == Success(o.State())
    ensures var s := ToDomainState(FromDomain(o)).value;
      OrderTotal(s.items, s.deliveryFee, s.coupon) == o.orderTotal == FromDomain(o).totalValue
  {
    RoundTripAtVersion(o, o.version);
    assert FromDomain(o).(version := o.version) == FromDomain(o);
    assert o.State().(version := o.version) == o.State();
  }
}
