/** The order aggregate: its identity, lines, delivery fee, coupon, status,
    version, derived total and the list of pending domain events. */
module Orders {
  import opened Results
  import opened Values
  import opened Text
  import opened Items
  import opened StatusMachine
  import opened Pricing

  /** Domain events, as tags; timestamps and snapshots are not kept. */
  datatype Event =
    | OrderCreated
    | OrderUpdated
    | StatusChanged(previous: OrderStatus, current: OrderStatus)
    | OrderConfirmed
    | OrderCancelled
    | ItemRemoved(product: ProductSnapshot)

  /** The state of an order that is persisted and read back: everything but
      the derived totals and the pending events. */
  datatype OrderState = OrderState(
    id: OrderId,
    code: string,
    createdAt: Instant,
    customer: CustomerSnapshot,
    restaurant: RestaurantSnapshot,
    orderType: OrderType,
    deliveryFee: real,
    items: seq<ItemLine>,
    coupon: Option<Coupon>,
    status: OrderStatus,
    version: int32)

  /** What every order satisfies once `Create` or `Rehydrate` has accepted it. */
  ghost predicate WellFormed(s: OrderState)
  {
    && s.id != EmptyId
    && !IsBlank(s.code) && IsTrimmed(s.code)
    && s.deliveryFee >= 0.0
    && (s.coupon.Some? ==> !IsBlank(s.coupon.value.code))
    && AllValid(s.items)
    && s.version >= 0
  }

  /** Lines given by the caller; `None` stands for a null reference. Every
      line that is present is a valid `OrderItem`. */
  ghost predicate LinesAreItems(items: seq<Option<ItemLine>>)
  {
    forall i :: 0 <= i < |items| && items[i].Some? ==> items[i].value.Valid()
  }

  predicate NoNulls(items: seq<Option<ItemLine>>)
  {
    forall i :: 0 <= i < |items| ==> items[i].Some?
  }

  /** The lines of a list without null entries, in order. */
  function Unwrap(items: seq<Option<ItemLine>>): (r: seq<ItemLine>)
    requires NoNulls(items)
    ensures |r| == |items|
    ensures forall i :: 0 <= i < |items| ==> r[i] == items[i].value
  {
    if items == [] then [] else [items[0].value] + Unwrap(items[1..])
  }

  /** The checks `Create` and `Rehydrate` share on the code, the snapshots,
      the fee and the coupon, in the order the source performs them. */
  function CheckHeader(code: string, customer: Option<CustomerSnapshot>,
                       restaurant: Option<RestaurantSnapshot>, deliveryFee: real): Outcome
  {
    if IsBlank(code) then Fail(Validation("Order code is required."))
    else if customer.None? then Fail(Validation("Customer snapshot is required."))
    else if restaurant.None? then Fail(Validation("Restaurant snapshot is required."))
    else if deliveryFee < 0.0 then Fail(Validation("Delivery fee must be non-negative."))
    else Pass
  }

  function CheckCoupon(coupon: Option<Coupon>): Outcome
  {
    if coupon.Some? && IsBlank(coupon.value.code) then Fail(Validation("Coupon code is required."))
    else Pass
  }

  /** `Order.Create` (without the allocation): the validation errors, or a
      pending order at version 0 with the trimmed code. `id` stands for the
      fresh `Guid.NewGuid()`. */
  function CreateState(id: OrderId, code: string, createdAt: Instant,
                       customer: Option<CustomerSnapshot>, restaurant: Option<RestaurantSnapshot>,
                       orderType: OrderType, deliveryFee: real, items: seq<Option<ItemLine>>,
                       coupon: Option<Coupon>): (r: Result<OrderState>)
    requires id != EmptyId && LinesAreItems(items)
    ensures r.Success? <==>
      && !IsBlank(code) && customer.Some? && restaurant.Some? && deliveryFee >= 0.0
      && (coupon.Some? ==> !IsBlank(coupon.value.code))
      && |items| > 0 && NoNulls(items)
    ensures r.Failure? ==> r.error.Validation?
    ensures |items| == 0 && CheckHeader(code, customer, restaurant, deliveryFee) == Pass && CheckCoupon(coupon) == Pass
      ==> r == Failure(Validation("Order must contain at least one item."))
    ensures r.Success? ==>
      && WellFormed(r.value)
      && r.value == OrderState(id, Trim(code), createdAt, customer.value, restaurant.value, orderType,
                               deliveryFee, Unwrap(items), coupon, Pending, 0)
      && |r.value.items| > 0
  {
    var header := CheckHeader(code, customer, restaurant, deliveryFee);
    var couponCheck := CheckCoupon(coupon);
    if header.Fail? then Failure(header.error)
    else if couponCheck.Fail? then Failure(couponCheck.error)
    else if |items| == 0 then Failure(Validation("Order must contain at least one item."))
    else if !NoNulls(items) then Failure(Validation("Order items cannot be null."))
    else
      TrimNonBlank(code);
      Success(OrderState(id, Trim(code), createdAt, customer.value, restaurant.value, orderType,
                         deliveryFee, Unwrap(items), coupon, Pending, 0))
  }

  /** `Order.Rehydrate` (without the allocation): the checks of `Create`
      except that an empty list of lines is accepted, plus a non-empty id and
      a non-negative version; the given status and version are kept. */
  function RehydrateState(id: OrderId, code: string, createdAt: Instant,
                          customer: Option<CustomerSnapshot>, restaurant: Option<RestaurantSnapshot>,
                          orderType: OrderType, deliveryFee: real, items: seq<Option<ItemLine>>,
                          status: OrderStatus, version: int32, coupon: Option<Coupon>): (r: Result<OrderState>)
    requires LinesAreItems(items)
    ensures r.Success? <==>
      && id != EmptyId && !IsBlank(code) && customer.Some? && restaurant.Some? && deliveryFee >= 0.0
      && version >= 0 && (coupon.Some? ==> !IsBlank(coupon.value.code)) && NoNulls(items)
    ensures r.Failure? ==> r.error.Validation?
    ensures id == EmptyId ==> r == Failure(Validation("Order id is required."))
    ensures r.Success? ==>
      && WellFormed(r.value)
      && r.value == OrderState(id, Trim(code), createdAt, customer.value, restaurant.value, orderType,
                               deliveryFee, Unwrap(items), coupon, status, version)
  {
    var header := CheckHeader(code, customer, restaurant, deliveryFee);
    var couponCheck := CheckCoupon(coupon);
    if id == EmptyId then Failure(Validation("Order id is required."))
    else if header.Fail? then Failure(header.error)
    else if version < 0 then Failure(Validation("Version must be non-negative."))
    else if couponCheck.Fail? then Failure(couponCheck.error)
    else if !NoNulls(items) then Failure(Validation("Order items cannot be null."))
    else
      TrimNonBlank(code);
      Success(OrderState(id, Trim(code), createdAt, customer.value, restaurant.value, orderType,
                         deliveryFee, Unwrap(items), coupon, status, version))
  }

  /** `EnsureOrderIsModifiable`: an order accepts changes to its lines,
      coupon and fee exactly while its status still has a successor. */
  function EnsureModifiable(status: OrderStatus): (r: Outcome)
    ensures r.Pass? <==> !IsTerminal(status)
    ensures r.Fail? ==> r.error.BusinessRule?
  {
    if status == Delivered then Fail(BusinessRule("Delivered orders cannot be modified."))
    else if status == Cancelled then Fail(BusinessRule("Cancelled orders cannot be modified."))
    else Pass
  }

  /** `_items.FirstOrDefault(i => i.Product.ProductId == productId)`, as the
      index of the first line for the product. */
  function IndexOfProduct(items: seq<ItemLine>, productId: string): (r: Option<nat>)
    ensures r.None? <==> forall i :: 0 <= i < |items| ==> items[i].product.productId != productId
    ensures r.Some? ==>
      && r.value < |items|
      && items[r.value].product.productId == productId
      && forall i :: 0 <= i < r.value ==> items[i].product.productId != productId
  {
    if items == [] then None
    else if items[0].product.productId == productId then Some(0)
    else match IndexOfProduct(items[1..], productId)
      case None => None
      case Some(k) => Some(k + 1)
  }

  /** The order aggregate. Identity, creation time, snapshots and type are
      fixed; lines, fee, coupon, status and version change through the
      operations below, which keep the total in step and queue events. */
  class Order {
    const id: OrderId
    const code: string
    const createdAt: Instant
    const customer: CustomerSnapshot
    const restaurant: RestaurantSnapshot
    const orderType: OrderType
    var items: seq<ItemLine>
    var deliveryFee: real
    var coupon: Option<Coupon>
    var orderTotal: real
    var status: OrderStatus
    var version: int32
    var events: seq<Event>

    function State(): OrderState
      reads this
    {
      OrderState(id, code, createdAt, customer, restaurant, orderType, deliveryFee, items,
                 coupon, status, version)
    }

    /** The stored total always agrees with the pricing rule. */
    ghost predicate Valid()
      reads this
    {
      WellFormed(State()) && orderTotal == OrderTotal(items, deliveryFee, coupon)
    }

    /** `DiscountValue`, recomputed on every read: for a valid order, between
        zero and a tenth of subtotal plus fee, give or take half a cent. */
    function Discount(): (r: real)
      reads this
      ensures Valid() ==> 0.0 <= r <= (Subtotal(items) + deliveryFee) * 0.10 + 0.005
    {
      DiscountValue(items, deliveryFee, coupon)
    }

    /** The private constructor: copies the state and computes the totals. */
    constructor (s: OrderState)
      requires WellFormed(s)
      ensures Valid() && State() == s && events == []
    {
      id := s.id;
      code := s.code;
      createdAt := s.createdAt;
      customer := s.customer;
      restaurant := s.restaurant;
      orderType := s.orderType;
      deliveryFee := s.deliveryFee;
      coupon := s.coupon;
      status := s.status;
      version := s.version;
      items := s.items;
      events := [];
      new;
      RecalculateTotals();
    }

    /** `Order.Create`: on success a fresh pending order at version 0 whose
        only pending event is `OrderCreated`. */
    static method Create(id: OrderId, code: string, createdAt: Instant,
                         customer: Option<CustomerSnapshot>, restaurant: Option<RestaurantSnapshot>,
                         orderType: OrderType, deliveryFee: real, items: seq<Option<ItemLine>>,
                         coupon: Option<Coupon>) returns (r: Result<Order>)
      requires id != EmptyId && LinesAreItems(items)
      ensures var spec := CreateState(id, code, createdAt, customer, restaurant, orderType,
                                      deliveryFee, items, coupon);
        && (r.Failure? <==> spec.Failure?)
        && (r.Failure? ==> r.error == spec.error)
        && (r.Success? ==> fresh(r.value) && r.value.Valid() && r.value.State() == spec.value
                           && r.value.events == [OrderCreated])
    {
      var s := CreateState(id, code, createdAt, customer, restaurant, orderType, deliveryFee, items, coupon);
      if s.Failure? {
        return Failure(s.error);
      }
      var order := new Order(s.value);
      order.events := order.events + [OrderCreated];
      return Success(order);
    }

    /** `Order.Rehydrate`: on success a fresh order with the given state and
        no pending event. */
    static method Rehydrate(id: OrderId, code: string, createdAt: Instant,
                            customer: Option<CustomerSnapshot>, restaurant: Option<RestaurantSnapshot>,
                            orderType: OrderType, deliveryFee: real, items: seq<Option<ItemLine>>,
                            status: OrderStatus, version: int32, coupon: Option<Coupon>)
      returns (r: Result<Order>)
      requires LinesAreItems(items)
      ensures var spec := RehydrateState(id, code, createdAt, customer, restaurant, orderType,
                                         deliveryFee, items, status, version, coupon);
        && (r.Failure? <==> spec.Failure?)
        && (r.Failure? ==> r.error == spec.error)
        && (r.Success? ==> fresh(r.value) && r.value.Valid() && r.value.State() == spec.value
                           && r.value.events == [])
    {
      var s := RehydrateState(id, code, createdAt, customer, restaurant, orderType, deliveryFee,
                              items, status, version, coupon);
      if s.Failure? {
        return Failure(s.error);
      }
      var order := new Order(s.value);
      return Success(order);
    }

    /** `AddItem`: a null line is rejected before the modifiability guard;
        otherwise the line goes to the end, the version goes up by one and
        `OrderUpdated` is queued. */
    method AddItem(item: Option<ItemLine>) returns (r: Outcome)
      requires Valid() && version < Int32Max
      requires item.Some? ==> item.value.Valid()
      modifies this
      ensures Valid()
      ensures item.None? ==> r == Fail(Validation("Item is required."))
      ensures item.Some? ==> r == EnsureModifiable(old(status))
      ensures r.Fail? ==> unchanged(this)
      ensures r.Pass? ==>
        && State() == old(State()).(items := old(items) + [item.value], version := old(version) + 1)
        && events == old(events) + [OrderUpdated]
    {
      if item.None? {
        return Fail(Validation("Item is required."));
      }
      r := EnsureModifiable(status);
      if r.Fail? {
        return;
      }
      items := items + [item.value];
      RecalculateTotals();
      IncrementVersion();
      MarkUpdated();
    }

    /** `RemoveItemByProductId`: removes the first line for the product,
        never the last line of the order. */
    method RemoveItemByProductId(productId: string) returns (r: Outcome)
      requires Valid() && version < Int32Max
      modifies this
      ensures Valid()
      ensures IsBlank(productId) ==> r == Fail(Validation("Product id is required."))
      ensures !IsBlank(productId) && IsTerminal(old(status)) ==> r == EnsureModifiable(old(status))
      ensures !IsBlank(productId) && !IsTerminal(old(status)) ==>
        && (|old(items)| == 1 && old(items)[0].product.productId == productId ==>
              r == Fail(BusinessRule("Order cannot have zero items.")))
        && (IndexOfProduct(old(items), productId).None? ==>
              r == Fail(BusinessRule("Item not found for the product.")))
      ensures r.Pass? <==>
        && !IsBlank(productId) && !IsTerminal(old(status))
        && IndexOfProduct(old(items), productId).Some? && |old(items)| >= 2
      ensures r.Fail? ==> unchanged(this)
      ensures |old(items)| > 0 ==> |items| > 0
      ensures r.Pass? ==>
        var k := IndexOfProduct(old(items), productId).value;
        && State() == old(State()).(items := old(items)[..k] + old(items)[k + 1..],
                                    version := old(version) + 1)
        && events == old(events) + [ItemRemoved(old(items)[k].product), OrderUpdated]
    {
      if IsBlank(productId) {
        return Fail(Validation("Product id is required."));
      }
      r := EnsureModifiable(status);
      if r.Fail? {
        return;
      }
      if |items| == 1 && items[0].product.productId == productId {
        return Fail(BusinessRule("Order cannot have zero items."));
      }
      var found := IndexOfProduct(items, productId);
      if found.None? {
        return Fail(BusinessRule("Item not found for the product."));
      }
      var k := found.value;
      var removed := items[k];
      items := items[..k] + items[k + 1..];
      events := events + [ItemRemoved(removed.product)];
      RecalculateTotals();
      IncrementVersion();
      MarkUpdated();
    }

    /** `ApplyCoupon`: a null coupon or a blank code is rejected before the
        modifiability guard; otherwise the coupon is replaced, the version
        goes up by one and `OrderUpdated` is queued. */
    method ApplyCoupon(coupon: Option<Coupon>) returns (r: Outcome)
      requires Valid() && version < Int32Max
      modifies this
      ensures Valid()
      ensures coupon.None? ==> r == Fail(Validation("Coupon is required."))
      ensures coupon.Some? && IsBlank(coupon.value.code) ==> r == Fail(Validation("Coupon code is required."))
      ensures coupon.Some? && !IsBlank(coupon.value.code) ==> r == EnsureModifiable(old(status))
      ensures r.Fail? ==> unchanged(this)
      ensures r.Pass? ==>
        && State() == old(State()).(coupon := coupon, version := old(version) + 1)
        && events == old(events) + [OrderUpdated]
    {
      if coupon.None? {
        return Fail(Validation("Coupon is required."));
      }
      if IsBlank(coupon.value.code) {
        return Fail(Validation("Coupon code is required."));
      }
      r := EnsureModifiable(status);
      if r.Fail? {
        return;
      }
      this.coupon := coupon;
      RecalculateTotals();
      IncrementVersion();
      MarkUpdated();
    }

    /** `ChangeStatus`: a change to the current status does nothing; a target
        outside the transition table is rejected; otherwise the status is
        set, the version goes up by one and StatusChanged, OrderConfirmed
        (only for Confirmed) and OrderUpdated are queued in that order. */
    method ChangeStatus(newStatus: OrderStatus) returns (r: Outcome)
      requires Valid() && version < Int32Max
      modifies this
      ensures Valid()
      ensures r.Pass? <==> newStatus == old(status) || CanTransition(old(status), newStatus)
      ensures r.Fail? ==> r.error == BusinessRule(InvalidTransitionMessage(old(status), newStatus))
      ensures r.Fail? || newStatus == old(status) ==> unchanged(this)
      ensures r.Pass? && newStatus != old(status) ==>
        && State() == old(State()).(status := newStatus, version := old(version) + 1)
        && orderTotal == old(orderTotal)
        && events == old(events) + [StatusChanged(old(status), newStatus)]
                     + (if newStatus == Confirmed then [OrderConfirmed] else []) + [OrderUpdated]
    {
      if newStatus == status {
        return Pass;
      }
      if !CanTransition(status, newStatus) {
        return Fail(BusinessRule(InvalidTransitionMessage(status, newStatus)));
      }
      var previous := status;
      status := newStatus;
      IncrementVersion();
      events := events + [StatusChanged(previous, newStatus)];
      if newStatus == Confirmed {
        events := events + [OrderConfirmed];
      }
      MarkUpdated();
      r := Pass;
    }

    /** `Cancel`: rejected on a delivered order; on a cancelled order the
        version stays put but `OrderCancelled` is queued again; on any other
        order it is `ChangeStatus(Cancelled)` followed by `OrderCancelled`. */
    method Cancel() returns (r: Outcome)
      requires Valid() && version < Int32Max
      modifies this
      ensures Valid()
      ensures old(status) == Delivered ==>
        r == Fail(BusinessRule("Delivered orders cannot be cancelled.")) && unchanged(this)
      ensures old(status) == Cancelled ==>
        r == Pass && State() == old(State()) && orderTotal == old(orderTotal)
        && events == old(events) + [OrderCancelled]
      ensures !IsTerminal(old(status)) ==>
        && r == Pass
        && State() == old(State()).(status := Cancelled, version := old(version) + 1)
        && orderTotal == old(orderTotal)
        && events == old(events) + [StatusChanged(old(status), Cancelled), OrderUpdated, OrderCancelled]
    {
      if status == Delivered {
        return Fail(BusinessRule("Delivered orders cannot be cancelled."));
      }
      r := ChangeStatus(Cancelled);
      if r.Fail? {
        return;
      }
      events := events + [OrderCancelled];
    }

    /** `UpdateDeliveryFee`: a negative fee is rejected before the
        modifiability guard; the current fee is a no-op; otherwise the fee is
        replaced, the version goes up by one and `OrderUpdated` is queued. */
    method UpdateDeliveryFee(fee: real) returns (r: Outcome)
      requires Valid() && version < Int32Max
      modifies this
      ensures Valid()
      ensures fee < 0.0 ==> r == Fail(Validation("Delivery fee must be non-negative."))
      ensures fee >= 0.0 ==> r == EnsureModifiable(old(status))
      ensures r.Fail? || fee == old(deliveryFee) ==> unchanged(this)
      ensures r.Pass? && fee != old(deliveryFee) ==>
        && State() == old(State()).(deliveryFee := fee, version := old(version) + 1)
        && events == old(events) + [OrderUpdated]
    {
      if fee < 0.0 {
        return Fail(Validation("Delivery fee must be non-negative."));
      }
      r := EnsureModifiable(status);
      if r.Fail? || fee == deliveryFee {
        return;
      }
      deliveryFee := fee;
      RecalculateTotals();
      IncrementVersion();
      MarkUpdated();
    }

    /** `MarkUpdated`: queues `OrderUpdated` and changes nothing else. */
    method MarkUpdated()
      modifies this
      ensures State() == old(State()) && orderTotal == old(orderTotal)
      ensures events == old(events) + [OrderUpdated]
    {
      events := events + [OrderUpdated];
    }

    /** `DequeueDomainEvents`: hands out the pending events in the order
        they were queued and leaves none behind. */
    method DequeueDomainEvents() returns (pending: seq<Event>)
      modifies this
      ensures pending == old(events) && events == []
      ensures State() == old(State()) && orderTotal == old(orderTotal)
    {
      pending := events;
      events := [];
    }

    /** `RecalculateTotals`: brings the stored total in line with the lines,
        fee and coupon. */
    method RecalculateTotals()
      modifies this
      ensures orderTotal == OrderTotal(items, deliveryFee, coupon)
      ensures State() == old(State()) && events == old(events)
    {
      var itemsTotal := Subtotal(items);
      var baseTotal := itemsTotal + deliveryFee;
      var total := baseTotal - Discount();
      orderTotal := if total < 0.0 then 0.0 else total;
    }

    /** `IncrementVersion`, within the 32-bit range. */
    method IncrementVersion()
      requires version < Int32Max
      modifies this
      ensures version == old(version) + 1
      ensures State() == old(State()).(version := version)
      ensures orderTotal == old(orderTotal) && events == old(events)
    {
      version := version + 1;
    }
  }
}
