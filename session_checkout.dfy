/**
 * The checkout page of the earlier revision: the same reductions, a tax line computed from the
 * taxed total, and a `handlePlaceOrder` with no sign-in or empty-cart guard that saves a snapshot
 * under the session key "lastOrder" and then clears the cart.
 */
module SessionCheckout {
  import opened Wrappers
  import opened CartModel
  import opened CartTotals
  import StoredCartSlice

  /** The snapshot saved under "lastOrder". `date` stands for the clock-derived ISO string. */
  datatype OrderSnapshot = OrderSnapshot(
    orderNumber: string,
    items: seq<LineItem<int>>,
    total: real,
    date: string,
    taxRate: real)

  /** The "lastOrder" entry of session storage. */
  class LastOrderSlot {
    var lastOrder: Option<OrderSnapshot>

    constructor ()
      ensures lastOrder == None
    {
      lastOrder := None;
    }
  }

  function Snapshot(items: seq<LineItem<int>>, taxRate: real, orderNumber: string, date: string)
    : (r: OrderSnapshot)
    ensures r.items == items && r.taxRate == taxRate && r.orderNumber == orderNumber && r.date == date
    ensures r.total == Subtotal(items) * (1.0 + taxRate)
  {
    TotalIsTaxedSubtotal(items, taxRate);
    OrderSnapshot(orderNumber, items, Total(items, taxRate), date, taxRate)
  }

  /** The tax line of this revision: the taxed total, not the pre-tax price, times the rate. */
  function DisplayedTax(items: seq<LineItem<int>>, taxRate: real): (tax: real)
    ensures tax == Subtotal(items) * (1.0 + taxRate) * taxRate
    ensures tax == Tax(items, taxRate) * (1.0 + taxRate)
  {
    TotalIsTaxedSubtotal(items, taxRate);
    Total(items, taxRate) * taxRate
  }

  /** The displayed price and tax add up to the displayed total only when the price times the
      square of the rate is zero: an empty or free cart, or a zero rate. */
  lemma DisplayedTaxAddsUpOnlyWithoutTax(items: seq<LineItem<int>>, taxRate: real)
    ensures Subtotal(items) + DisplayedTax(items, taxRate) == Total(items, taxRate)
        <==> Subtotal(items) * taxRate * taxRate == 0.0
  {
    TotalIsTaxedSubtotal(items, taxRate);
    var s := Subtotal(items);
    assert s + s * (1.0 + taxRate) * taxRate == s * (1.0 + taxRate) + s * taxRate * taxRate;
  }

  /** At the default 8% rate the displayed tax overshoots for any cart with a positive price. */
  lemma DisplayedTaxOvershoots(items: seq<LineItem<int>>)
    requires Subtotal(items) > 0.0
    ensures Subtotal(items) + DisplayedTax(items, InitialTaxRate) > Total(items, InitialTaxRate)
  {
    TotalIsTaxedSubtotal(items, InitialTaxRate);
  }

  /** One unit at 100.00 and the 8% rate: the page shows 8.64 of tax, while the total exceeds
      the price by 8.00, which is what `Tax` gives. */
  lemma DisplayedTaxExample()
    ensures var items := [LineItem(1, "item", 100.0, "", 1)];
            DisplayedTax(items, InitialTaxRate) == 8.64 &&
            Total(items, InitialTaxRate) - Subtotal(items) == 8.0 &&
            Tax(items, InitialTaxRate) == 8.0
  {
    var items := [LineItem(1, "item", 100.0, "", 1)];
    assert items[..0] == [];
  }

  /** `handlePlaceOrder`: save the snapshot, then clear the cart (which also deletes the stored
      cart copy), then navigate. `orderNumber` and `date` stand for the clock-derived strings. */
  method HandlePlaceOrder(cart: StoredCartSlice.CartStore, slot: LastOrderSlot,
                          orderNumber: string, date: string)
    returns (saved: OrderSnapshot)
    requires cart.Valid()
    modifies cart, slot
    ensures cart.Valid()
    ensures saved == Snapshot(old(cart.items), old(cart.taxRate), orderNumber, date)
    ensures slot.lastOrder == Some(saved)
    ensures cart.items == [] && cart.stored == None && cart.taxRate == old(cart.taxRate)
  {
    saved := Snapshot(cart.items, cart.taxRate, orderNumber, date);
    slot.lastOrder := Some(saved);
    cart.ClearCart();
  }
}
