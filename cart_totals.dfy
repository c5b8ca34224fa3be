/**
 * The values the cart and checkout views derive from the cart with `Array.prototype.reduce`,
 * written as left folds over the line items: the number of units, the pre-tax price and the
 * taxed total. Prices and rates are exact reals.
 */
module CartTotals {
  import opened Wrappers
  import opened CartModel

  /** A line's price: unit price times quantity. */
  function LineTotal<K>(l: LineItem<K>): real {
    l.price * l.quantity as real
  }

  /** `cartItemCount`: the sum of the quantities. */
  function ItemCount<K>(items: seq<LineItem<K>>): (n: int)
    ensures (forall i | 0 <= i < |items| :: items[i].quantity >= 0) ==> n >= 0
  {
    if items == [] then 0 else ItemCount(items[..|items| - 1]) + items[|items| - 1].quantity
  }

  /** `itemPrice`: the sum of price times quantity, before tax. */
  function Subtotal<K>(items: seq<LineItem<K>>): (r: real)
    ensures (forall i | 0 <= i < |items| :: items[i].price >= 0.0 && items[i].quantity >= 0) ==> r >= 0.0
  {
    if items == [] then 0.0 else Subtotal(items[..|items| - 1]) + LineTotal(items[|items| - 1])
  }

  /** `Total`: the sum of price times quantity times (1 + taxRate), taxed line by line. */
  function Total<K>(items: seq<LineItem<K>>, taxRate: real): (r: real)
    ensures taxRate >= 0.0 && (forall i | 0 <= i < |items| :: items[i].price >= 0.0 && items[i].quantity >= 0)
            ==> r >= 0.0
  {
    if items == [] then 0.0
    else Total(items[..|items| - 1], taxRate) + LineTotal(items[|items| - 1]) * (1.0 + taxRate)
  }

  /** Taxing each line and summing equals taxing the subtotal once. */
  lemma {:induction false} TotalIsTaxedSubtotal<K>(items: seq<LineItem<K>>, taxRate: real)
    ensures Total(items, taxRate) == Subtotal(items) * (1.0 + taxRate)
  {
    if items != [] {
      var init := items[..|items| - 1];
      TotalIsTaxedSubtotal(init, taxRate);
      var a, b := Subtotal(init), LineTotal(items[|items| - 1]);
      assert a * (1.0 + taxRate) + b * (1.0 + taxRate) == (a + b) * (1.0 + taxRate);
    }
  }

  /** The tax on a cart: the pre-tax price times the rate, so that price plus tax is the total. */
  function Tax<K>(items: seq<LineItem<K>>, taxRate: real): (tax: real)
    ensures Subtotal(items) + tax == Total(items, taxRate)
  {
    TotalIsTaxedSubtotal(items, taxRate);
    Subtotal(items) * taxRate
  }

  /** An empty cart has no units, no price and no total. */
  lemma EmptyCartTotals<K>(items: seq<LineItem<K>>, taxRate: real)
    requires items == []
    ensures ItemCount(items) == 0 && Subtotal(items) == 0.0 && Total(items, taxRate) == 0.0
  {
  }

  /** In a well-formed cart every line holds at least one unit, so the count bounds the length. */
  lemma {:induction false} ItemCountAtLeastLength<K>(items: seq<LineItem<K>>)
    requires forall i | 0 <= i < |items| :: items[i].quantity >= 1
    ensures ItemCount(items) >= |items|
  {
    if items != [] {
      ItemCountAtLeastLength(items[..|items| - 1]);
    }
  }

  /** For a well-formed cart, "no units" and "no lines" are the same test. */
  lemma NoUnitsIffNoLines<K>(items: seq<LineItem<K>>)
    ensures WellFormed(items) ==> (ItemCount(items) == 0 <==> items == [])
  {
    if WellFormed(items) {
      ItemCountAtLeastLength(items);
    }
  }

  /** Replacing one line changes the count by the difference of the two quantities. */
  lemma {:induction false} ItemCountReplace<K>(items: seq<LineItem<K>>, i: nat, l: LineItem<K>)
    requires i < |items|
    ensures ItemCount(items[i := l]) == ItemCount(items) - items[i].quantity + l.quantity
  {
    var n := |items|;
    var r := items[i := l];
    if i < n - 1 {
      assert r[..n - 1] == items[..n - 1][i := l];
      ItemCountReplace(items[..n - 1], i, l);
    } else {
      assert r[..n - 1] == items[..n - 1];
    }
  }

  /** Replacing one line changes the subtotal by the difference of the two line prices. */
  lemma {:induction false} SubtotalReplace<K>(items: seq<LineItem<K>>, i: nat, l: LineItem<K>)
    requires i < |items|
    ensures Subtotal(items[i := l]) == Subtotal(items) - LineTotal(items[i]) + LineTotal(l)
  {
    var n := |items|;
    var r := items[i := l];
    if i < n - 1 {
      assert r[..n - 1] == items[..n - 1][i := l];
      SubtotalReplace(items[..n - 1], i, l);
    } else {
      assert r[..n - 1] == items[..n - 1];
    }
  }

  /** Every `addToCart` adds exactly one unit. */
  lemma AddCountsOneUnit<K>(items: seq<LineItem<K>>, p: LineItem<K>)
    ensures ItemCount(Add(items, p)) == ItemCount(items) + 1
  {
    match Find(items, p.id)
    case Some(i) => ItemCountReplace(items, i, items[i].(quantity := items[i].quantity + 1));
    case None => assert (items + [p.(quantity := 1)])[..|items|] == items;
  }

  /** `addToCart` raises the subtotal by one unit price: the price already in the cart for an
      existing id (the payload's price is then ignored), the payload's price for a new one. */
  lemma AddPricesOneUnit<K>(items: seq<LineItem<K>>, p: LineItem<K>)
    ensures Subtotal(Add(items, p)) == Subtotal(items) +
      (match Find(items, p.id) case Some(i) => items[i].price case None => p.price)
  {
    match Find(items, p.id)
    case Some(i) => SubtotalBump(items, i);
    case None => SubtotalAppend(items, p.(quantity := 1));
  }

  /** One more unit on line `i` raises the subtotal by that line's unit price. */
  lemma SubtotalBump<K>(items: seq<LineItem<K>>, i: nat)
    requires i < |items|
    ensures Subtotal(items[i := items[i].(quantity := items[i].quantity + 1)])
            == Subtotal(items) + items[i].price
  {
    SubtotalReplace(items, i, items[i].(quantity := items[i].quantity + 1));
    LineTotalOneMore(items[i]);
  }

  /** A line appended at the end adds its own line price. */
  lemma SubtotalAppend<K>(items: seq<LineItem<K>>, l: LineItem<K>)
    ensures Subtotal(items + [l]) == Subtotal(items) + LineTotal(l)
  {
    assert (items + [l])[..|items|] == items;
  }

  /** Adds of two different products raise `itemPrice` by the same amount in either order. */
  lemma AddsCommuteOnSubtotal<K>(items: seq<LineItem<K>>, p: LineItem<K>, q: LineItem<K>)
    requires p.id != q.id
    ensures Subtotal(Add(Add(items, p), q)) == Subtotal(Add(Add(items, q), p))
    ensures ItemCount(Add(Add(items, p), q)) == ItemCount(Add(Add(items, q), p))
  {
    AddPricesOneUnit(items, p);
    AddPricesOneUnit(items, q);
    AddPricesOneUnit(Add(items, p), q);
    AddPricesOneUnit(Add(items, q), p);
    FindAfterAdd(items, p, q.id);
    FindAfterAdd(items, q, p.id);
    AddKeepsLines(items, p);
    AddKeepsLines(items, q);
    AddCountsOneUnit(items, p);
    AddCountsOneUnit(items, q);
    AddCountsOneUnit(Add(items, p), q);
    AddCountsOneUnit(Add(items, q), p);
  }

  lemma LineTotalOneMore<K>(l: LineItem<K>)
    ensures LineTotal(l.(quantity := l.quantity + 1)) == LineTotal(l) + l.price
  {
  }

  /** An example: 2 x 10.00 and 1 x 5.00 at 8% give 25.00 before tax and 27.00 after. */
  lemma WorkedExample()
    ensures var items := [LineItem("a", "A", 10.0, "", 2), LineItem("b", "B", 5.0, "", 1)];
            Subtotal(items) == 25.0 && Total(items, InitialTaxRate) == 27.0
  {
    var items := [LineItem("a", "A", 10.0, "", 2), LineItem("b", "B", 5.0, "", 1)];
    assert items[..1] == [items[0]];
    assert items[..1][..0] == [];
  }
}
