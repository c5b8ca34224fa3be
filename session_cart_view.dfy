/**
 * The cart page of the earlier revision: the unit count, the empty/checkout branch, the line
 * prices, and the minus button, which is not clamped. Its plus and remove buttons dispatch the
 * same payloads as `CartView.PlusAction` and `CartView.RemoveAction`.
 */
module SessionCartView {
  import opened CartModel
  import opened CartTotals
  import CartView

  /** What the page shows above the list: the empty message, or a checkout link with the count. */
  datatype Banner = EmptyMessage | CheckoutLink(units: int)

  function BannerFor(items: seq<LineItem<int>>): (b: Banner)
    ensures b.EmptyMessage? <==> ItemCount(items) == 0
    ensures b.CheckoutLink? ==> b.units == ItemCount(items) && b.units != 0
    ensures WellFormed(items) ==> (b.EmptyMessage? <==> items == [])
  {
    NoUnitsIffNoLines(items);
    var n := ItemCount(items);
    if n == 0 then EmptyMessage else CheckoutLink(n)
  }

  /** On a well-formed cart the checkout link never shows fewer units than there are lines. */
  lemma BannerCountsLines(items: seq<LineItem<int>>)
    requires WellFormed(items)
    ensures BannerFor(items).CheckoutLink? ==> BannerFor(items).units >= |items|
  {
    ItemCountAtLeastLength(items);
  }

  /** The minus button asks for one fewer unit, with no lower bound. */
  function MinusAction(l: LineItem<int>): CartAction<int> {
    UpdateQuantity(l.id, l.quantity - 1)
  }

  /** Each row's price: the unit price times the quantity, which is that line's share of the
      "Item Price" line. */
  function RowPrice(l: LineItem<int>): (p: real)
    ensures p == Subtotal([l])
    ensures l.price >= 0.0 && l.quantity >= 1 ==> p >= l.price
  {
    assert [l][..0] == [];
    LineTotal(l)
  }

  /** The row prices in the order the list renders them, added up from the first row. */
  function RowPricesSum(items: seq<LineItem<int>>): real {
    if items == [] then 0.0 else RowPrice(items[0]) + RowPricesSum(items[1..])
  }

  /** The rows' prices add up to the "Item Price" line of the checkout page. */
  lemma {:induction false} RowPricesAddUpToItemPrice(items: seq<LineItem<int>>)
    ensures RowPricesSum(items) == Subtotal(items)
    decreases |items|
  {
    if items != [] {
      RowPricesAddUpToItemPrice(items[1..]);
      SubtotalCons(items[0], items[1..]);
      assert [items[0]] + items[1..] == items;
    }
  }

  /** The left fold `Subtotal` can also be taken from the front. */
  lemma {:induction false} SubtotalCons(l: LineItem<int>, rest: seq<LineItem<int>>)
    ensures Subtotal([l] + rest) == LineTotal(l) + Subtotal(rest)
    decreases |rest|
  {
    if rest != [] {
      var n := |rest|;
      assert ([l] + rest)[..n] == [l] + rest[..n - 1];
      SubtotalCons(l, rest[..n - 1]);
    } else {
      assert [l] + rest == [l];
      assert [l][..0] == [];
    }
  }

  /** Minus on a line holding one unit removes that line, just like the remove button. */
  lemma MinusAtOneRemoves(st: CartState<int>, i: nat)
    requires WellFormed(st.items) && i < |st.items| && st.items[i].quantity == 1
    ensures Reduce(st, MinusAction(st.items[i])) == Reduce(st, CartView.RemoveAction(st.items[i]))
    ensures |Reduce(st, MinusAction(st.items[i])).items| == |st.items| - 1
  {
    UpdateNonPositiveIsRemove(st.items, st.items[i].id, 0);
    RemovePresentLength(st.items, i);
  }

  /** Above one unit, minus takes away exactly one unit and keeps the line, so the item price
      drops by exactly that row's unit price. */
  lemma MinusAboveOneDecrements(st: CartState<int>, i: nat)
    requires WellFormed(st.items) && i < |st.items| && st.items[i].quantity > 1
    ensures |Reduce(st, MinusAction(st.items[i])).items| == |st.items|
    ensures Reduce(st, MinusAction(st.items[i])).items[i] ==
            st.items[i].(quantity := st.items[i].quantity - 1)
    ensures Subtotal(Reduce(st, MinusAction(st.items[i])).items) ==
            Subtotal(st.items) - st.items[i].price
  {
    var l := st.items[i];
    var l' := l.(quantity := l.quantity - 1);
    UpdatePositive(st.items, i, l.quantity - 1);
    assert Reduce(st, MinusAction(l)).items == st.items[i := l'];
    SubtotalReplace(st.items, i, l');
    LineTotalOneMore(l');
  }
}
