/**
 * The cart slice of the earlier revision: numeric ids, and a copy of the items mirrored into
 * session storage under the key "productItem" after every change to the items. The stored copy is
 * kept here as a value (`stored`, `None` when the key is absent), not as JSON text.
 */
module StoredCartSlice {
  import opened Wrappers
  import opened CartModel

  class CartStore {
    var items: seq<LineItem<int>>
    var taxRate: real
    /** The "productItem" entry of session storage. */
    var stored: Option<seq<LineItem<int>>>

    /** The stored copy mirrors the items, except that it is absent when the cart is empty. */
    ghost predicate Valid()
      reads this
    {
      stored == Some(items) || (stored.None? && items == [])
    }

    function State(): CartState<int>
      reads this
    {
      CartState(items, taxRate)
    }

    /** `initialState`: the stored copy if there is one, otherwise no items; an 8% tax rate. */
    constructor (storedCopy: Option<seq<LineItem<int>>>)
      ensures Valid()
      ensures items == (match storedCopy case Some(s) => s case None => [])
      ensures taxRate == InitialTaxRate && stored == storedCopy
    {
      items := match storedCopy case Some(s) => s case None => [];
      taxRate := InitialTaxRate;
      stored := storedCopy;
    }

    method AddToCart(p: LineItem<int>)
      requires Valid()
      modifies this
      ensures Valid()
      ensures State() == Reduce(old(State()), CartAction.AddToCart(p))
      ensures stored == Some(items)
      ensures WellFormed(old(items)) ==> WellFormed(items)
    {
      var existing := Find(items, p.id);
      if existing.Some? {
        var i := existing.value;
        items := items[i := items[i].(quantity := items[i].quantity + 1)];
      } else {
        items := items + [p.(quantity := 1)];
      }
      stored := Some(items);
      if WellFormed(old(items)) {
        AddKeepsWellFormed(old(items), p);
      }
    }

    method RemoveFromCart(id: int)
      requires Valid()
      modifies this
      ensures Valid()
      ensures State() == Reduce(old(State()), CartAction.RemoveFromCart(id))
      ensures stored == Some(items)
      ensures WellFormed(old(items)) ==> WellFormed(items)
    {
      if WellFormed(items) {
        RemoveKeepsWellFormed(items, id);
      }
      items := Remove(items, id);
      stored := Some(items);
    }

    /** An unknown id returns before the session write, so neither the items nor the stored copy
        change; otherwise the stored copy is rewritten. */
    method UpdateQuantity(id: int, quantity: int)
      requires Valid()
      modifies this
      ensures Valid()
      ensures State() == Reduce(old(State()), CartAction.UpdateQuantity(id, quantity))
      ensures stored == if HasId(old(items), id) then Some(items) else old(stored)
      ensures WellFormed(old(items)) ==> WellFormed(items)
    {
      if WellFormed(items) {
        UpdateKeepsWellFormed(items, id, quantity);
      }
      var item := Find(items, id);
      if item.None? {
        return;
      }
      if quantity <= 0 {
        items := Remove(items, id);
      } else {
        var i := item.value;
        items := items[i := items[i].(quantity := quantity)];
      }
      stored := Some(items);
    }

    /** Changes the tax rate only; session storage is not written. */
    method SetTaxRate(rate: real)
      requires Valid()
      modifies this
      ensures Valid()
      ensures State() == Reduce(old(State()), CartAction.SetTaxRate(rate))
      ensures stored == old(stored)
    {
      taxRate := rate;
    }

    /** Empties the items and deletes the stored copy; the tax rate is kept. */
    method ClearCart()
      requires Valid()
      modifies this
      ensures Valid()
      ensures State() == Reduce(old(State()), CartAction.ClearCart)
      ensures stored == None
    {
      items := [];
      stored := None;
    }
  }
}
