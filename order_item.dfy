/** One line of an order: a product snapshot, a quantity, a unit price, the
    value of the add-ons and a note, together with the derived line total. */
module Items {
  import opened Results
  import opened Values

  /** `CalculateTotal`: quantity × unit price + add-ons. For amounts the
      constructor accepts, the total is at least one unit plus the add-ons. */
  function LineTotal(quantity: int, unitPrice: real, addonsValue: real): (r: real)
    ensures quantity >= 0 && unitPrice >= 0.0 ==> r >= addonsValue
    ensures quantity >= 1 && unitPrice >= 0.0 ==> r >= unitPrice + addonsValue
  {
    quantity as real * unitPrice + addonsValue
  }

  /** The numeric checks the constructor and `Update` share, in the order the
      source performs them. */
  function CheckAmounts(quantity: int, unitPrice: real, addonsValue: real): (r: Outcome)
    ensures r == Pass <==> quantity > 0 && unitPrice >= 0.0 && addonsValue >= 0.0
    ensures r.Fail? ==> r.error.Validation?
    ensures quantity <= 0 ==> r == Fail(Validation("Quantity must be greater than zero."))
  {
    if quantity <= 0 then Fail(Validation("Quantity must be greater than zero."))
    else if unitPrice < 0.0 then Fail(Validation("Unit price must be non-negative."))
    else if addonsValue < 0.0 then Fail(Validation("Addons value must be non-negative."))
    else Pass
  }

  /** An order line as an immutable value: what an order holds. */
  datatype ItemLine = ItemLine(
    product: ProductSnapshot,
    quantity: int,
    unitPrice: real,
    addonsValue: real,
    notes: Option<string>,
    totalItemValue: real)
  {
    /** The invariant every `OrderItem` keeps. */
    ghost predicate Valid()
    {
      && CheckAmounts(quantity, unitPrice, addonsValue) == Pass
      && totalItemValue == LineTotal(quantity, unitPrice, addonsValue)
    }
  }

  /** What the `OrderItem` constructor yields for the given arguments: the
      validation errors, or the line with its total computed. */
  function NewLine(product: Option<ProductSnapshot>, quantity: int, unitPrice: real,
                   addonsValue: real, notes: Option<string>): (r: Result<ItemLine>)
    ensures product.None? ==> r == Failure(Validation("Product snapshot is required."))
    ensures r.Success? <==> product.Some? && quantity > 0 && unitPrice >= 0.0 && addonsValue >= 0.0
    ensures r.Failure? ==> r.error.Validation?
    ensures r.Success? ==> (r.value.Valid() && r.value.product == product.value
      && r.value.quantity == quantity && r.value.unitPrice == unitPrice
      && r.value.addonsValue == addonsValue && r.value.notes == notes)
  {
    if product.None? then Failure(Validation("Product snapshot is required."))
    else match CheckAmounts(quantity, unitPrice, addonsValue)
      case Fail(e) => Failure(e)
      case Pass => Success(ItemLine(product.value, quantity, unitPrice, addonsValue, notes,
                                    LineTotal(quantity, unitPrice, addonsValue)))
  }

  /** Given the validated inputs, a line total is never negative and is at
      least the add-ons value. */
  lemma LineTotalBounds(line: ItemLine)
    requires line.Valid()
    ensures line.totalItemValue >= line.addonsValue >= 0.0
    ensures line.totalItemValue >= line.unitPrice
  {
    var q, p := line.quantity as real, line.unitPrice;
    assert q >= 1.0 && p >= 0.0;
    assert q * p == (q - 1.0) * p + p;
    assert (q - 1.0) * p >= 0.0;
  }

  /** The worked example of the line-total test: 2 × 10 + 3 = 23. */
  lemma LineTotalExample()
    ensures NewLine(Some(ProductSnapshot("prod-1", "Burger")), 2, 10.0, 3.0, Some("No onions")).value.totalItemValue == 23.0
  {
  }

  /** The mutable order line. `product` never changes after construction. */
  class OrderItem {
    const product: ProductSnapshot
    var quantity: int
    var unitPrice: real
    var addonsValue: real
    var notes: Option<string>
    var totalItemValue: real

    /** The line total is kept in step with its inputs, which are valid. */
    ghost predicate Valid()
      reads this
    {
      Line().Valid()
    }

    /** The current state as an immutable line. */
    function Line(): ItemLine
      reads this
    {
      ItemLine(product, quantity, unitPrice, addonsValue, notes, totalItemValue)
    }

    /** Assigns the validated fields; `New` performs the checks. */
    constructor (product: ProductSnapshot, quantity: int, unitPrice: real,
                 addonsValue: real, notes: Option<string>)
      requires CheckAmounts(quantity, unitPrice, addonsValue) == Pass
      ensures Valid()
      ensures Line() == NewLine(Some(product), quantity, unitPrice, addonsValue, notes).value
    {
      this.product := product;
      this.quantity := quantity;
      this.unitPrice := unitPrice;
      this.addonsValue := addonsValue;
      this.notes := notes;
      this.totalItemValue := LineTotal(quantity, unitPrice, addonsValue);
    }

    /** `new OrderItem(...)`: rejects a missing product, a quantity that is
        not positive and a negative price or add-ons value; on success the
        line total is computed. */
    static method New(product: Option<ProductSnapshot>, quantity: int, unitPrice: real,
                      addonsValue: real, notes: Option<string>) returns (r: Result<OrderItem>)
      ensures r.Success? <==> NewLine(product, quantity, unitPrice, addonsValue, notes).Success?
      ensures r.Failure? ==> r.error == NewLine(product, quantity, unitPrice, addonsValue, notes).error
      ensures r.Success? ==> (fresh(r.value) && r.value.Valid()
        && r.value.Line() == NewLine(product, quantity, unitPrice, addonsValue, notes).value)
    {
      if product.None? {
        return Failure(Validation("Product snapshot is required."));
      }
      var check := CheckAmounts(quantity, unitPrice, addonsValue);
      if check.Fail? {
        return Failure(check.error);
      }
      var item := new OrderItem(product.value, quantity, unitPrice, addonsValue, notes);
      return Success(item);
    }

    /** `Update`: the same checks as the constructor; on failure nothing
        changes, on success the four inputs are replaced and the total is
        recomputed, so the line-total invariant survives every call. */
    method Update(quantity: int, unitPrice: real, addonsValue: real, notes: Option<string>)
      returns (r: Outcome)
      requires Valid()
      modifies this
      ensures Valid()
      ensures r == CheckAmounts(quantity, unitPrice, addonsValue)
      ensures r.Fail? ==> unchanged(this)
      ensures r.Pass? ==> Line() == NewLine(Some(product), quantity, unitPrice, addonsValue, notes).value
    {
      r := CheckAmounts(quantity, unitPrice, addonsValue);
      if r.Fail? {
        return;
      }
      this.quantity := quantity;
      this.unitPrice := unitPrice;
      this.addonsValue := addonsValue;
      this.notes := notes;
      this.totalItemValue := LineTotal(quantity, unitPrice, addonsValue);
    }
  }
}
