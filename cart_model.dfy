/**
 * The cart reducers of the Redux slice, as pure functions on the cart state. Both revisions of the
 * slice share this logic; they differ only in the id type (`K`): Firestore string ids in the newer
 * revision, numeric ids in the older one. The classes in CartSlice and StoredCartSlice implement
 * these reducers by updating their fields and are specified by `Reduce`.
 */
module CartModel {
  import opened Wrappers
  import opened Seqs

  /** One cart line: `CartItem` with `id`, `title`, `price`, `image` and `quantity`. */
  datatype LineItem<K> = LineItem(id: K, title: string, price: real, image: string, quantity: int)

  /** `CartState`: the ordered line items and the tax rate. */
  datatype CartState<K> = CartState(items: seq<LineItem<K>>, taxRate: real)

  /** The five actions the slice exports, with their payloads. */
  datatype CartAction<K> =
    | AddToCart(item: LineItem<K>)
    | RemoveFromCart(id: K)
    | UpdateQuantity(id: K, quantity: int)
    | SetTaxRate(rate: real)
    | ClearCart

  /** The tax rate both revisions start with. */
  const InitialTaxRate: real := 0.08

  /** The cart invariant: no two lines share an id, and every quantity is at least 1. */
  ghost predicate WellFormed<K>(items: seq<LineItem<K>>) {
    (forall i, j | 0 <= i < j < |items| :: items[i].id != items[j].id) &&
    (forall i | 0 <= i < |items| :: items[i].quantity >= 1)
  }

  ghost predicate HasId<K>(items: seq<LineItem<K>>, id: K) {
    exists i | 0 <= i < |items| :: items[i].id == id
  }

  /** `items.find(i => i.id === id)`, as the position of the first line with that id. */
  function Find<K(==)>(items: seq<LineItem<K>>, id: K): (r: Option<nat>)
    ensures r.None? <==> !HasId(items, id)
    ensures r.Some? ==> r.value < |items| && items[r.value].id == id &&
                        forall j | 0 <= j < r.value :: items[j].id != id
  {
    if items == [] then None
    else if items[0].id == id then Some(0)
    else match Find(items[1..], id)
      case None => None
      case Some(k) => Some(k + 1)
  }

  /** `removeFromCart`: keep the lines whose id differs. */
  function Remove<K(==)>(items: seq<LineItem<K>>, id: K): (r: seq<LineItem<K>>)
    ensures |r| <= |items|
    ensures forall j | 0 <= j < |r| :: r[j].id != id && r[j] in items
  {
    Filter(items, (l: LineItem<K>) => l.id != id)
  }

  /** `addToCart`: bump an existing line by one, or append the payload with quantity 1. */
  function Add<K(==)>(items: seq<LineItem<K>>, p: LineItem<K>): (r: seq<LineItem<K>>)
    ensures |r| == if HasId(items, p.id) then |items| else |items| + 1
    ensures HasId(r, p.id)
  {
    match Find(items, p.id)
    case Some(i) =>
      var r := items[i := items[i].(quantity := items[i].quantity + 1)];
      assert r[i].id == p.id;
      r
    case None =>
      var r := items + [p.(quantity := 1)];
      assert r[|items|].id == p.id;
      r
  }

  /** `updateQuantity`: unknown id is a no-op, q <= 0 removes the line, otherwise sets q. */
  function Update<K(==)>(items: seq<LineItem<K>>, id: K, q: int): (r: seq<LineItem<K>>)
    ensures |r| <= |items|
    ensures q > 0 ==> |r| == |items|
    ensures q <= 0 ==> !HasId(r, id)
  {
    match Find(items, id)
    case None => items
    case Some(i) => if q <= 0 then Remove(items, id) else items[i := items[i].(quantity := q)]
  }

  /** The slice's reducer: the state after one dispatched action. */
  function Reduce<K(==)>(st: CartState<K>, a: CartAction<K>): (r: CartState<K>)
    ensures r.taxRate == if a.SetTaxRate? then a.rate else st.taxRate
    ensures a.SetTaxRate? ==> r.items == st.items
  {
    match a
    case AddToCart(p) => st.(items := Add(st.items, p))
    case RemoveFromCart(id) => st.(items := Remove(st.items, id))
    case UpdateQuantity(id, q) => st.(items := Update(st.items, id, q))
    case SetTaxRate(rate) => st.(taxRate := rate)
    case ClearCart => st.(items := [])
  }

  /** The state after dispatching `actions` in order. */
  function Run<K(==)>(st: CartState<K>, actions: seq<CartAction<K>>): CartState<K>
    decreases |actions|
  {
    if actions == [] then st else Run(Reduce(st, actions[0]), actions[1..])
  }

  // ---------------------------------------------------------------------------------------------
  // addToCart

  /** Adding an id already in the cart bumps that line by exactly one, whatever the payload's
      quantity and other fields; the length and every other line are unchanged. */
  lemma AddExisting<K>(items: seq<LineItem<K>>, p: LineItem<K>, i: nat)
    requires WellFormed(items)
    requires i < |items| && items[i].id == p.id
    ensures |Add(items, p)| == |items|
    ensures Add(items, p)[i] == items[i].(quantity := items[i].quantity + 1)
    ensures forall j | 0 <= j < |items| && j != i :: Add(items, p)[j] == items[j]
  {
    var k := Find(items, p.id);
    assert k.Some? && k.value == i;
  }

  /** Adding a new id appends exactly one line at the end: the payload with quantity 1. */
  lemma AddNew<K>(items: seq<LineItem<K>>, p: LineItem<K>)
    requires forall j | 0 <= j < |items| :: items[j].id != p.id
    ensures Add(items, p) == items + [LineItem(p.id, p.title, p.price, p.image, 1)]
  {
  }

  lemma {:induction false} AddKeepsWellFormed<K>(items: seq<LineItem<K>>, p: LineItem<K>)
    requires WellFormed(items)
    ensures WellFormed(Add(items, p))
    ensures HasId(Add(items, p), p.id)
  {
    match Find(items, p.id)
    case Some(i) =>
      assert Add(items, p)[i].id == p.id;
    case None =>
      var r := Add(items, p);
      assert r[|items|].id == p.id;
  }

  /** An add keeps the id and price of every line already in the cart; any line past them
      carries the payload's id. */
  lemma AddKeepsLines<K>(items: seq<LineItem<K>>, p: LineItem<K>)
    ensures forall j | 0 <= j < |items| :: Add(items, p)[j].id == items[j].id
    ensures forall j | 0 <= j < |items| :: Add(items, p)[j].price == items[j].price
    ensures forall j | |items| <= j < |Add(items, p)| :: Add(items, p)[j].id == p.id
  {
    match Find(items, p.id)
    case Some(i) =>
    case None =>
  }

  /** An add for one id does not move where any other id is found. */
  lemma FindAfterAdd<K>(items: seq<LineItem<K>>, p: LineItem<K>, id: K)
    requires id != p.id
    ensures Find(Add(items, p), id) == Find(items, id)
  {
    AddKeepsLines(items, p);
    var r := Add(items, p);
    var a, b := Find(r, id), Find(items, id);
    if b.Some? {
      assert r[b.value].id == id;
    }
  }

  // ---------------------------------------------------------------------------------------------
  // removeFromCart

  /** Removing drops every line with that id and keeps every other line, in the original order;
      with an absent id it is a no-op. */
  lemma {:induction false} RemoveSpec<K>(items: seq<LineItem<K>>, id: K)
    ensures !HasId(Remove(items, id), id)
    ensures forall j | 0 <= j < |items| && items[j].id != id :: items[j] in Remove(items, id)
    ensures IsSubsequence(Remove(items, id), items)
    ensures !HasId(items, id) ==> Remove(items, id) == items
    ensures forall l :: multiset(Remove(items, id))[l] == if l.id != id then multiset(items)[l] else 0
  {
    forall l {
      FilterCount(items, (l: LineItem<K>) => l.id != id, l);
    }
    FilterIsSubsequence(items, (l: LineItem<K>) => l.id != id);
    if !HasId(items, id) {
      FilterAll(items, (l: LineItem<K>) => l.id != id);
    }
  }

  /** With distinct ids, removing a present id shortens the cart by exactly one line. */
  lemma {:induction false} RemovePresentLength<K>(items: seq<LineItem<K>>, i: nat)
    requires WellFormed(items) && i < |items|
    ensures |Remove(items, items[i].id)| == |items| - 1
  {
    var id := items[i].id;
    FilterDropsOne(items, (l: LineItem<K>) => l.id != id, i);
  }

  lemma {:induction false} FilterKeepsWellFormed<K>(items: seq<LineItem<K>>, keep: LineItem<K> -> bool)
    requires WellFormed(items)
    ensures WellFormed(Filter(items, keep))
  {
    if items != [] {
      var tail := items[1..];
      assert WellFormed(tail);
      FilterKeepsWellFormed(tail, keep);
      var ft := Filter(tail, keep);
      assert forall k | 0 <= k < |tail| :: tail[k].id != items[0].id;
      assert forall j | 0 <= j < |ft| :: ft[j].id != items[0].id;
      if keep(items[0]) {
        ConsKeepsWellFormed(items[0], ft);
      } else {
        assert Filter(items, keep) == ft;
      }
    }
  }

  lemma ConsKeepsWellFormed<K>(h: LineItem<K>, t: seq<LineItem<K>>)
    requires WellFormed(t) && h.quantity >= 1
    requires forall j | 0 <= j < |t| :: t[j].id != h.id
    ensures WellFormed([h] + t)
  {
    var r := [h] + t;
    forall i, j | 0 <= i < j < |r| ensures r[i].id != r[j].id {
      assert r[j] == t[j - 1];
      if i > 0 { assert r[i] == t[i - 1]; }
    }
  }

  lemma RemoveKeepsWellFormed<K>(items: seq<LineItem<K>>, id: K)
    requires WellFormed(items)
    ensures WellFormed(Remove(items, id))
  {
    FilterKeepsWellFormed(items, (l: LineItem<K>) => l.id != id);
  }

  // ---------------------------------------------------------------------------------------------
  // updateQuantity

  /** An id that is not in the cart leaves it unchanged. */
  lemma UpdateUnknown<K>(items: seq<LineItem<K>>, id: K, q: int)
    requires forall j | 0 <= j < |items| :: items[j].id != id
    ensures Update(items, id, q) == items
  {
  }

  /** A quantity of zero or less is exactly `removeFromCart` of the same id. */
  lemma {:induction false} UpdateNonPositiveIsRemove<K>(items: seq<LineItem<K>>, id: K, q: int)
    requires q <= 0
    ensures Update(items, id, q) == Remove(items, id)
  {
    RemoveSpec(items, id);
  }

  /** A positive quantity sets the line's quantity to exactly q; nothing else changes. */
  lemma UpdatePositive<K>(items: seq<LineItem<K>>, i: nat, q: int)
    requires WellFormed(items) && i < |items| && q > 0
    ensures |Update(items, items[i].id, q)| == |items|
    ensures Update(items, items[i].id, q)[i] == items[i].(quantity := q)
    ensures forall j | 0 <= j < |items| && j != i :: Update(items, items[i].id, q)[j] == items[j]
  {
    var k := Find(items, items[i].id);
    assert k.Some? && k.value == i;
  }

  lemma UpdateKeepsWellFormed<K>(items: seq<LineItem<K>>, id: K, q: int)
    requires WellFormed(items)
    ensures WellFormed(Update(items, id, q))
  {
    if q <= 0 {
      UpdateNonPositiveIsRemove(items, id, q);
      RemoveKeepsWellFormed(items, id);
    }
  }

  // ---------------------------------------------------------------------------------------------
  // The whole reducer

  /** Each action touches only its own field: the tax rate is changed by `setTaxRate` alone
      (with no range check), and `setTaxRate` leaves the items alone. */
  lemma ReduceFrame<K>(st: CartState<K>, a: CartAction<K>)
    ensures a.SetTaxRate? ==> Reduce(st, a) == CartState(st.items, a.rate)
    ensures !a.SetTaxRate? ==> Reduce(st, a).taxRate == st.taxRate
    ensures a.ClearCart? ==> Reduce(st, a).items == []
  {
  }

  /** Every reducer keeps the cart invariant. */
  lemma {:induction false} ReduceKeepsWellFormed<K>(st: CartState<K>, a: CartAction<K>)
    requires WellFormed(st.items)
    ensures WellFormed(Reduce(st, a).items)
  {
    match a
    case AddToCart(p) => AddKeepsWellFormed(st.items, p);
    case RemoveFromCart(id) => RemoveKeepsWellFormed(st.items, id);
    case UpdateQuantity(id, q) => UpdateKeepsWellFormed(st.items, id, q);
    case SetTaxRate(_) =>
    case ClearCart =>
  }

  /** Every state reached from a well-formed state, by any sequence of actions, is well formed;
      in particular every state reached from `initialState`. */
  lemma {:induction false} RunKeepsWellFormed<K>(st: CartState<K>, actions: seq<CartAction<K>>)
    requires WellFormed(st.items)
    ensures WellFormed(Run(st, actions).items)
    decreases |actions|
  {
    if actions != [] {
      ReduceKeepsWellFormed(st, actions[0]);
      RunKeepsWellFormed(Reduce(st, actions[0]), actions[1..]);
    }
  }

  /** n `addToCart` actions for the same product give exactly one line for it, with quantity n. */
  lemma {:induction false} RepeatedAdd<K>(p: LineItem<K>, n: nat)
    requires n >= 1
    ensures Run(CartState([], InitialTaxRate), seq(n, _ => AddToCart(p))).items
            == [p.(quantity := n)]
  {
    var st := CartState([], InitialTaxRate);
    var acts := seq(n, _ => AddToCart(p));
    if n == 1 {
      assert acts[1..] == [];
    } else {
      var prev := seq(n - 1, _ => AddToCart(p));
      RepeatedAdd(p, n - 1);
      RunSnoc(st, prev, AddToCart(p));
      assert prev + [AddToCart(p)] == acts;
      assert Find([p.(quantity := n - 1)], p.id) == Some(0);
    }
  }

  lemma {:induction false} RunSnoc<K>(st: CartState<K>, actions: seq<CartAction<K>>, a: CartAction<K>)
    ensures Run(st, actions + [a]) == Reduce(Run(st, actions), a)
    decreases |actions|
  {
    if actions == [] {
      assert ([] + [a])[1..] == [];
    } else {
      assert (actions + [a])[1..] == actions[1..] + [a];
      RunSnoc(Reduce(st, actions[0]), actions[1..], a);
    }
  }

  /** The `addToCart` actions for the payloads `ps`, in order. */
  function AddActions<K>(ps: seq<LineItem<K>>): (acts: seq<CartAction<K>>)
    ensures |acts| == |ps|
  {
    if ps == [] then [] else AddActions(ps[..|ps| - 1]) + [AddToCart(ps[|ps| - 1])]
  }

  /** Any n >= 1 adds with one id not yet in the cart append exactly one line, with quantity n.
      The line carries the first payload's title, price and image; later payloads only bump it,
      whatever else they carry. The other lines and the rate are unchanged. */
  lemma {:induction false} RepeatedAddSameId<K>(st: CartState<K>, ps: seq<LineItem<K>>)
    requires |ps| >= 1
    requires forall k | 0 <= k < |ps| :: ps[k].id == ps[0].id
    requires forall j | 0 <= j < |st.items| :: st.items[j].id != ps[0].id
    ensures Run(st, AddActions(ps)) == st.(items := st.items + [ps[0].(quantity := |ps|)])
  {
    var n := |ps|;
    var init := ps[..n - 1];
    var last := ps[n - 1];
    RunSnoc(st, AddActions(init), AddToCart(last));
    if n == 1 {
      assert AddActions(init) == [];
    } else {
      RepeatedAddSameId(st, init);
      var before := st.items + [ps[0].(quantity := n - 1)];
      var k := |st.items|;
      assert before[k].id == last.id;
      var f := Find(before, last.id);
      assert f.Some? && f.value == k;
      assert before[k := before[k].(quantity := n)] == st.items + [ps[0].(quantity := n)];
    }
  }
}
