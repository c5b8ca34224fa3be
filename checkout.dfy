/**
 * The checkout page of the Firestore revision: the order summary it shows and `handlePlaceOrder`,
 * which checks for a signed-in user, builds the order record from the current cart, writes it to
 * the "orders" collection, and only after that write returns clears the cart.
 */
module Checkout {
  import opened Wrappers
  import opened CartModel
  import opened CartTotals
  import CartSlice

  /** The signed-in user as the checkout reads it. */
  datatype User = User(uid: string, email: string)

  /** The document written to "orders". The server timestamp is assigned by the database and is
      not part of this model. */
  datatype OrderRecord = OrderRecord(
    orderNumber: string,
    items: seq<LineItem<string>>,
    total: real,
    itemPrice: real,
    taxRate: real,
    userId: string,
    userEmail: string)

  /** How a click on "Place Order" ends. `Placed` means the success flag was set and the page
      navigated to the confirmation view. */
  datatype PlaceOrderOutcome = NotSignedIn | WriteFailed | Placed(record: OrderRecord)

  /** The order built from a cart snapshot: the items as they are before the cart is cleared, and
      the two reductions the page displays. */
  function BuildOrder(items: seq<LineItem<string>>, taxRate: real, user: User, orderNumber: string)
    : (r: OrderRecord)
    ensures r.items == items && r.taxRate == taxRate
    ensures r.userId == user.uid && r.userEmail == user.email && r.orderNumber == orderNumber
    ensures r.itemPrice == Subtotal(items)
    ensures r.total == r.itemPrice * (1.0 + r.taxRate)
  {
    TotalIsTaxedSubtotal(items, taxRate);
    OrderRecord(orderNumber, items, Total(items, taxRate), Subtotal(items), taxRate,
                user.uid, user.email)
  }

  /** "Place Order" is disabled exactly when the cart has no lines; for a well-formed cart this
      is the same as the cart view's "no units" test. */
  function PlaceOrderDisabled(items: seq<LineItem<string>>): (disabled: bool)
    ensures WellFormed(items) ==> (disabled <==> ItemCount(items) == 0)
  {
    NoUnitsIffNoLines(items);
    |items| == 0
  }

  /** The "orders" collection, reduced to the sequence of documents written to it. */
  class OrderStore {
    var docs: seq<OrderRecord>

    constructor ()
      ensures docs == []
    {
      docs := [];
    }

    /** `addDoc`: the remote write either adds the record or fails (`fails`) and adds nothing. */
    method AddDoc(rec: OrderRecord, fails: bool) returns (ok: bool)
      modifies this
      ensures ok == !fails
      ensures docs == if ok then old(docs) + [rec] else old(docs)
    {
      if fails {
        ok := false;
      } else {
        docs := docs + [rec];
        ok := true;
      }
    }
  }

  /** `handlePlaceOrder`. `orderNumber` stands for the clock-derived "#ORD-<time>" string and
      `writeFails` for the outcome of the remote write. */
  method HandlePlaceOrder(cart: CartSlice.CartStore, orders: OrderStore, user: Option<User>,
                          orderNumber: string, writeFails: bool)
    returns (outcome: PlaceOrderOutcome)
    requires cart.Valid()
    modifies cart, orders
    ensures cart.Valid()
    ensures user.None? ==> outcome == NotSignedIn
    ensures user.Some? && writeFails ==> outcome == WriteFailed
    ensures user.Some? && !writeFails ==>
      outcome == Placed(BuildOrder(old(cart.items), old(cart.taxRate), user.value, orderNumber))
    ensures outcome.Placed? ==>
      orders.docs == old(orders.docs) + [outcome.record] &&
      cart.items == [] && cart.taxRate == old(cart.taxRate)
    ensures !outcome.Placed? ==>
      orders.docs == old(orders.docs) && cart.State() == old(cart.State())
  {
    if user.None? {
      return NotSignedIn;
    }
    var orderData := BuildOrder(cart.items, cart.taxRate, user.value, orderNumber);
    var ok := orders.AddDoc(orderData, writeFails);
    if !ok {
      return WriteFailed;
    }
    cart.ClearCart();
    outcome := Placed(orderData);
  }
}
