/**
 * The cart slice of the Firestore revision (string ids, no session mirror). The store holds the
 * state that Redux Toolkit's draft reducers update in place; each method is one reducer and is
 * specified by `CartModel.Reduce` on the abstract state.
 */
module CartSlice {
  import opened Wrappers
  import opened CartModel

  class CartStore {
    var items: seq<LineItem<string>>
    var taxRate: real

    /** The cart invariant holds of every reachable state. */
    ghost predicate Valid()
      reads this
    {
      WellFormed(items)
    }

    function State(): CartState<string>
      reads this
    {
      CartState(items, taxRate)
    }

    /** `initialState`: no items and an 8% tax rate. */
    constructor ()
      ensures Valid()
      ensures items == [] && taxRate == InitialTaxRate
    {
      items := [];
      taxRate := InitialTaxRate;
    }

    method AddToCart(p: LineItem<string>)
      requires Valid()
      modifies this
      ensures Valid()
      ensures State() == Reduce(old(State()), CartAction.AddToCart(p))
    {
      var existing := Find(items, p.id);
      if existing.Some? {
        var i := existing.value;
        items := items[i := items[i].(quantity := items[i].quantity + 1)];
      } else {
        items := items + [p.(quantity := 1)];
      }
      AddKeepsWellFormed(old(items), p);
    }

    method RemoveFromCart(id: string)
      requires Valid()
      modifies this
      ensures Valid()
      ensures State() == Reduce(old(State()), CartAction.RemoveFromCart(id))
    {
      RemoveKeepsWellFormed(items, id);
      items := Remove(items, id);
    }

    method UpdateQuantity(id: string, quantity: int)
      requires Valid()
      modifies this
      ensures Valid()
      ensures State() == Reduce(old(State()), CartAction.UpdateQuantity(id, quantity))
    {
      UpdateKeepsWellFormed(items, id, quantity);
      var item := Find(items, id);
      if item.None? {
        return;
      }
      if quantity <= 0 {
        items := Remove(items, id);
      } else {
        var i := item.value;
        items := items[i := items[i].(quantity := quantity)];
      }
    }

    method SetTaxRate(rate: real)
      requires Valid()
      modifies this
      ensures Valid()
      ensures State() == Reduce(old(State()), CartAction.SetTaxRate(rate))
    {
      taxRate := rate;
    }

    method ClearCart()
      requires Valid()
      modifies this
      ensures Valid()
      ensures State() == Reduce(old(State()), CartAction.ClearCart)
    {
      items := [];
    }
  }
}
