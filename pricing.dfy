/** The pricing rule of an order: subtotal of the line totals, a fixed 10 %
    discount of (subtotal + delivery fee) when a coupon is present, rounded
    to cents half away from zero, and a total clamped at zero. */
module Pricing {
  import opened Results
  import opened Values
  import opened Text
  import opened Items

  /** `r` is a whole number of cents. */
  predicate IsCents(r: real)
  {
    (r * 100.0).Floor as real == r * 100.0
  }

  /** Rounds an amount to cents, a half cent going up. */
  function RoundCentsUp(x: real): real
  {
    (x * 100.0 + 0.5).Floor as real / 100.0
  }

  lemma RoundCentsUpSpec(x: real)
    ensures IsCents(RoundCentsUp(x))
    ensures x - 0.005 < RoundCentsUp(x) <= x + 0.005
  {
    var f := (x * 100.0 + 0.5).Floor;
    var r := f as real / 100.0;
    assert f as real <= x * 100.0 + 0.5 < f as real + 1.0;
    assert r * 100.0 == f as real;
    assert (f as real).Floor == f;
  }

  /** `Math.Round(x, 2, MidpointRounding.AwayFromZero)`: the nearest whole
      number of cents, a tie going away from zero. */
  function Round2(x: real): (r: real)
    ensures x >= 0.0 ==> 0.0 <= r <= x + 0.005
    ensures x <= 0.0 ==> x - 0.005 <= r <= 0.0
  {
    RoundCentsUpSpec(if x >= 0.0 then x else -x);
    if x >= 0.0 then RoundCentsUp(x) else -RoundCentsUp(-x)
  }

  /** `Round2` yields a whole number of cents within half a cent of its
      argument, a tie going away from zero, and keeps the sign. */
  lemma Round2Spec(x: real)
    ensures IsCents(Round2(x))
    ensures x >= 0.0 ==> x - 0.005 < Round2(x) <= x + 0.005
    ensures x < 0.0 ==> x - 0.005 <= Round2(x) < x + 0.005
    ensures (x >= 0.0 ==> Round2(x) >= 0.0) && (x <= 0.0 ==> Round2(x) <= 0.0)
  {
    if x >= 0.0 {
      RoundCentsUpSpec(x);
    } else {
      RoundCentsUpSpec(-x);
      var f := (-x * 100.0 + 0.5).Floor;
      assert Round2(x) * 100.0 == -(f as real);
      assert (-(f as real)).Floor == -f;
    }
  }

  /** Sum of the line totals (`_items.Sum(item => item.TotalItemValue)`). */
  function Subtotal(items: seq<ItemLine>): (r: real)
    ensures AllValid(items) ==> r >= 0.0
  {
    if items == [] then 0.0 else items[0].totalItemValue + Subtotal(items[1..])
  }

  /** A coupon gives a discount when it is present and its code is not blank. */
  predicate HasDiscount(coupon: Option<Coupon>)
  {
    coupon.Some? && !IsBlank(coupon.value.code)
  }

  /** `CalculateDiscountValue`: 10 % of subtotal plus fee, rounded to cents;
      the amount carried by the coupon itself is not read. */
  function DiscountValue(items: seq<ItemLine>, deliveryFee: real, coupon: Option<Coupon>): (r: real)
    ensures !HasDiscount(coupon) ==> r == 0.0
    ensures Subtotal(items) + deliveryFee >= 0.0 ==>
      0.0 <= r <= (Subtotal(items) + deliveryFee) * 0.10 + 0.005
  {
    if !HasDiscount(coupon) then 0.0
    else Round2((Subtotal(items) + deliveryFee) * 0.10)
  }

  /** `RecalculateTotals`: subtotal plus fee minus discount, never below zero. */
  function OrderTotal(items: seq<ItemLine>, deliveryFee: real, coupon: Option<Coupon>): (r: real)
    ensures r >= 0.0
    ensures r >= Subtotal(items) + deliveryFee - DiscountValue(items, deliveryFee, coupon)
    ensures Subtotal(items) + deliveryFee >= 0.0 ==> r <= Subtotal(items) + deliveryFee
  {
    var total := Subtotal(items) + deliveryFee - DiscountValue(items, deliveryFee, coupon);
    if total < 0.0 then 0.0 else total
  }

  ghost predicate AllValid(items: seq<ItemLine>)
  {
    forall i :: 0 <= i < |items| ==> items[i].Valid()
  }

  lemma {:induction false} SubtotalAppend(a: seq<ItemLine>, b: seq<ItemLine>)
    ensures Subtotal(a + b) == Subtotal(a) + Subtotal(b)
  {
    if a != [] {
      assert (a + b)[0] == a[0];
      assert (a + b)[1..] == a[1..] + b;
      SubtotalAppend(a[1..], b);
    } else {
      assert a + b == b;
    }
  }

  /** Removing the line at index k takes its total off the subtotal. */
  lemma SubtotalRemove(items: seq<ItemLine>, k: nat)
    requires k < |items|
    ensures Subtotal(items[..k] + items[k + 1..]) == Subtotal(items) - items[k].totalItemValue
  {
    var before, line, after := items[..k], items[k], items[k + 1..];
    assert items == before + ([line] + after);
    SubtotalAppend(before, [line] + after);
    SubtotalAppend(before, after);
    assert Subtotal([line] + after) == line.totalItemValue + Subtotal(after) by {
      assert ([line] + after)[1..] == after;
    }
  }

  /** Valid lines have a non-negative subtotal. */
  lemma {:induction false} SubtotalNonNegative(items: seq<ItemLine>)
    requires AllValid(items)
    ensures Subtotal(items) >= 0.0
  {
    if items != [] {
      LineTotalBounds(items[0]);
      SubtotalNonNegative(items[1..]);
    }
  }

  /** Ten per cent of a non-negative base, rounded, never exceeds the base. */
  lemma DiscountWithinBase(base: real)
    requires base >= 0.0
    ensures 0.0 <= Round2(base * 0.10) <= base
  {
    var d := base * 0.10;
    Round2Spec(d);
    if base < 0.05 {
      assert d * 100.0 + 0.5 < 1.0;
      assert (d * 100.0 + 0.5).Floor == 0;
    }
  }

  /** The pricing rule for valid lines and a non-negative fee: without a
      discounting coupon the total is subtotal plus fee; with one, the
      rounded 10 % is taken off and the clamp at zero never applies, so the
      total lies within half a cent of 90 % of subtotal plus fee. In every
      case the total is not negative. */
  lemma TotalFormula(items: seq<ItemLine>, deliveryFee: real, coupon: Option<Coupon>)
    requires AllValid(items) && deliveryFee >= 0.0
    ensures var base := Subtotal(items) + deliveryFee;
      && base >= 0.0
      && 0.0 <= DiscountValue(items, deliveryFee, coupon) <= base
      && OrderTotal(items, deliveryFee, coupon) == base - DiscountValue(items, deliveryFee, coupon)
      && (!HasDiscount(coupon) ==> OrderTotal(items, deliveryFee, coupon) == base)
      && (HasDiscount(coupon) ==>
            base * 0.90 - 0.005 <= OrderTotal(items, deliveryFee, coupon) < base * 0.90 + 0.005)
  {
    SubtotalNonNegative(items);
    DiscountWithinBase(Subtotal(items) + deliveryFee);
  }

  /** The total is never negative, whatever the inputs. */
  lemma TotalNeverNegative(items: seq<ItemLine>, deliveryFee: real, coupon: Option<Coupon>)
    ensures OrderTotal(items, deliveryFee, coupon) >= 0.0
  {
  }

  /** A line of the worked examples, with its total computed. */
  function ExampleLine(id: string, quantity: int, unitPrice: real, addonsValue: real): ItemLine
  {
    ItemLine(ProductSnapshot(id, id), quantity, unitPrice, addonsValue, None,
             LineTotal(quantity, unitPrice, addonsValue))
  }

  /** Lines 2 × 10 + 1 and 1 × 5, fee 4, coupon "OFF10": subtotal 26, base
      30, discount 3.00, total 27. */
  lemma ExampleTotal27()
    ensures var items := [ExampleLine("prod-1", 2, 10.0, 1.0), ExampleLine("prod-2", 1, 5.0, 0.0)];
      && Subtotal(items) == 26.0
      && DiscountValue(items, 4.0, Some(Coupon("OFF10", 0.0))) == 3.0
      && OrderTotal(items, 4.0, Some(Coupon("OFF10", 0.0))) == 27.0
  {
    var items := [ExampleLine("prod-1", 2, 10.0, 1.0), ExampleLine("prod-2", 1, 5.0, 0.0)];
    assert Subtotal(items) == 26.0 by {
      assert items[1..][1..] == [];
    }
    assert (300.0 + 0.5).Floor == 300;
    assert !IsBlank("OFF10") by { assert !IsWhiteSpace("OFF10"[0]); }
  }

  /** One line 1 × 10, fee 5, coupon: discount 1.50, total 13.50; the same
      order without a coupon: discount 0, total 15. */
  lemma ExampleTenPercent()
    ensures var items := [ExampleLine("prod-1", 1, 10.0, 0.0)];
      && DiscountValue(items, 5.0, Some(Coupon("OFF10", 0.0))) == 1.5
      && OrderTotal(items, 5.0, Some(Coupon("OFF10", 0.0))) == 13.5
      && DiscountValue(items, 5.0, None) == 0.0
      && OrderTotal(items, 5.0, None) == 15.0
  {
    var items := [ExampleLine("prod-1", 1, 10.0, 0.0)];
    assert Subtotal(items) == 10.0 by {
      assert items[1..] == [];
    }
    assert (150.0 + 0.5).Floor == 150;
    assert !IsBlank("OFF10") by { assert !IsWhiteSpace("OFF10"[0]); }
  }

  /** The coupon's own discount amount plays no part: a coupon meant to take
      20 off a base of 5 still takes 10 %, so the total is 4.50, not 0. */
  lemma ExampleCouponAmountIgnored()
    ensures var items := [ExampleLine("prod-1", 1, 5.0, 0.0)];
      && DiscountValue(items, 0.0, Some(Coupon("BIG20", 20.0))) == 0.5
      && OrderTotal(items, 0.0, Some(Coupon("BIG20", 20.0))) == 4.5
  {
    var items := [ExampleLine("prod-1", 1, 5.0, 0.0)];
    assert Subtotal(items) == 5.0 by {
      assert items[1..] == [];
    }
    assert (50.0 + 0.5).Floor == 50;
    assert !IsBlank("BIG20") by { assert !IsWhiteSpace("BIG20"[0]); }
  }
}
