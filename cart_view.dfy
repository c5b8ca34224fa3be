/**
 * The cart page of the Firestore revision: the unit count and pre-tax price it shows, the
 * empty-cart branch, and the actions its minus, plus and remove buttons dispatch. The plus and
 * remove payloads are the same in the earlier revision, so they and their lemmas are generic in
 * the id type.
 */
module CartView {
  import opened CartModel
  import opened CartTotals

  /** The page shows the empty-cart view when the unit count is zero; for a well-formed cart that
      is exactly when there are no lines. */
  function ShowsEmptyCart(items: seq<LineItem<string>>): (empty: bool)
    ensures WellFormed(items) ==> (empty <==> items == [])
  {
    NoUnitsIffNoLines(items);
    ItemCount(items) == 0
  }

  /** The minus button asks for one fewer unit, but never fewer than one. */
  function MinusAction(l: LineItem<string>): (a: CartAction<string>)
    ensures a.UpdateQuantity? && a.id == l.id
    ensures a.quantity >= 1
    ensures l.quantity >= 2 ==> a.quantity == l.quantity - 1
    ensures l.quantity <= 2 ==> a.quantity == 1
  {
    UpdateQuantity(l.id, if l.quantity - 1 > 1 then l.quantity - 1 else 1)
  }

  /** The minus button is disabled at one unit or fewer: for a line holding at least one unit,
      exactly when pressing it would not change the quantity. */
  function MinusDisabled(l: LineItem<string>): (disabled: bool)
    ensures l.quantity >= 1 ==> (disabled <==> MinusAction(l).quantity == l.quantity)
  {
    l.quantity <= 1
  }

  /** The plus button asks for one more unit. */
  function PlusAction<K>(l: LineItem<K>): CartAction<K> {
    UpdateQuantity(l.id, l.quantity + 1)
  }

  /** The remove button removes the line's own id. */
  function RemoveAction<K>(l: LineItem<K>): CartAction<K> {
    RemoveFromCart(l.id)
  }

  /** Pressing minus never removes a line: the cart keeps its length and the line keeps at least
      one unit, one fewer when the button is enabled; when it is disabled nothing changes. */
  lemma MinusKeepsLine(st: CartState<string>, i: nat)
    requires WellFormed(st.items) && i < |st.items|
    ensures |Reduce(st, MinusAction(st.items[i])).items| == |st.items|
    ensures Reduce(st, MinusAction(st.items[i])).items[i].quantity >= 1
    ensures !MinusDisabled(st.items[i]) ==>
      Reduce(st, MinusAction(st.items[i])).items[i].quantity == st.items[i].quantity - 1
    ensures MinusDisabled(st.items[i]) ==> Reduce(st, MinusAction(st.items[i])) == st
  {
    var l := st.items[i];
    UpdatePositive(st.items, i, MinusAction(l).quantity);
    if MinusDisabled(l) {
      assert st.items[i := l.(quantity := MinusAction(l).quantity)] == st.items;
    }
  }

  /** Pressing plus adds exactly one unit to that line, which adds its unit price to the item
      price; every other line is unchanged. */
  lemma {:induction false} PlusAddsOneUnit<K>(st: CartState<K>, i: nat)
    requires WellFormed(st.items) && i < |st.items|
    ensures |Reduce(st, PlusAction(st.items[i])).items| == |st.items|
    ensures Reduce(st, PlusAction(st.items[i])).items[i] ==
            st.items[i].(quantity := st.items[i].quantity + 1)
    ensures forall j | 0 <= j < |st.items| && j != i ::
              Reduce(st, PlusAction(st.items[i])).items[j] == st.items[j]
    ensures ItemCount(Reduce(st, PlusAction(st.items[i])).items) == ItemCount(st.items) + 1
    ensures Subtotal(Reduce(st, PlusAction(st.items[i])).items) ==
            Subtotal(st.items) + st.items[i].price
  {
    var l := st.items[i];
    var l' := l.(quantity := l.quantity + 1);
    UpdatePositive(st.items, i, l.quantity + 1);
    assert Reduce(st, PlusAction(l)).items == st.items[i := l'];
    ItemCountReplace(st.items, i, l');
    SubtotalReplace(st.items, i, l');
    LineTotalOneMore(l);
  }

  /** Plus followed by minus on the same line restores the cart. */
  lemma PlusThenMinusRestores(st: CartState<string>, i: nat)
    requires WellFormed(st.items) && i < |st.items|
    ensures Reduce(Reduce(st, PlusAction(st.items[i])), MinusAction(Reduce(st, PlusAction(st.items[i])).items[i])) == st
  {
    var l := st.items[i];
    var st1 := Reduce(st, PlusAction(l));
    UpdatePositive(st.items, i, l.quantity + 1);
    UpdateKeepsWellFormed(st.items, l.id, l.quantity + 1);
    assert st1.items[i].id == l.id;
    UpdatePositive(st1.items, i, l.quantity);
    assert st1.items[i := st1.items[i].(quantity := l.quantity)] == st.items;
  }

  /** Pressing remove drops exactly that line and keeps the others in order. */
  lemma RemoveDropsLine<K>(st: CartState<K>, i: nat)
    requires WellFormed(st.items) && i < |st.items|
    ensures |Reduce(st, RemoveAction(st.items[i])).items| == |st.items| - 1
    ensures !HasId(Reduce(st, RemoveAction(st.items[i])).items, st.items[i].id)
    ensures forall j | 0 <= j < |st.items| && j != i ::
              st.items[j] in Reduce(st, RemoveAction(st.items[i])).items
    ensures Seqs.IsSubsequence(Reduce(st, RemoveAction(st.items[i])).items, st.items)
    ensures Reduce(st, RemoveAction(st.items[i])).taxRate == st.taxRate
  {
    RemovePresentLength(st.items, i);
    RemoveSpec(st.items, st.items[i].id);
  }
}
