/** Value objects of the order domain: immutable snapshots captured when an
    order is placed, the coupon, the order type and the order status. */
module Values {

  /** C#'s `int`: the width of the order version. */
  newtype int32 = x: int | -0x8000_0000 <= x <= 0x7FFF_FFFF

  const Int32Max: int32 := 0x7FFF_FFFF

  /** An order identifier (a GUID); 0 plays the role of `Guid.Empty`. */
  type OrderId = nat

  const EmptyId: OrderId := 0

  /** A point in time (`DateTime`), as a tick count. */
  type Instant = int

  datatype ProductSnapshot = ProductSnapshot(productId: string, productDescription: string)

  datatype CustomerSnapshot = CustomerSnapshot(customerId: string, customerName: string)

  datatype RestaurantSnapshot = RestaurantSnapshot(restaurantId: string, restaurantName: string)

  /** A coupon: its code and the discount amount it carries. The pricing rule
      only looks at whether a coupon with a non-blank code is present. */
  datatype Coupon = Coupon(code: string, discountValue: real)

  datatype OrderType = Delivery | Pickup

  datatype OrderStatus = Pending | Confirmed | InPreparation | Ready | Delivered | Cancelled

  /** The name C# prints for a status (used in error messages). */
  function StatusName(s: OrderStatus): string
  {
    match s
    case Pending => "Pending"
    case Confirmed => "Confirmed"
    case InPreparation => "InPreparation"
    case Ready => "Ready"
    case Delivered => "Delivered"
    case Cancelled => "Cancelled"
  }
}
