/**
 * The product catalog of the Firestore revision: the category selection applied to the fetched
 * products, and the cart payload built when "Add to Cart" is pressed.
 */
module ProductCatalog {
  import opened Seqs
  import opened CartModel
  import opened CartTotals

  datatype Rating = Rating(rate: real, count: int)

  /** A product document, with its Firestore document id. */
  datatype Product = Product(
    id: string,
    title: string,
    description: string,
    price: real,
    category: string,
    image: string,
    rating: Rating)

  /** The category "all" shows every product; any other shows that category's products. */
  function SelectCategory(products: seq<Product>, selected: string): (shown: seq<Product>)
    ensures |shown| <= |products|
    ensures forall i | 0 <= i < |shown| :: shown[i] in products
    ensures selected != "all" ==> forall i | 0 <= i < |shown| :: shown[i].category == selected
  {
    if selected == "all" then products
    else Filter(products, (p: Product) => p.category == selected)
  }

  /** `handleAddToCart`'s payload: id, title, price and image of the product, quantity 1. */
  function CartPayload(p: Product): LineItem<string> {
    LineItem(p.id, p.title, p.price, p.image, 1)
  }

  /** "all" leaves the fetched list as it is. */
  lemma AllIsIdentity(products: seq<Product>)
    ensures SelectCategory(products, "all") == products
  {
  }

  /** Any other category keeps exactly the products of that category, in their original order. */
  lemma {:induction false} CategoryFilterSpec(products: seq<Product>, selected: string)
    requires selected != "all"
    ensures forall i | 0 <= i < |SelectCategory(products, selected)| ::
              SelectCategory(products, selected)[i].category == selected
    ensures forall i | 0 <= i < |products| && products[i].category == selected ::
              products[i] in SelectCategory(products, selected)
    ensures IsSubsequence(SelectCategory(products, selected), products)
  {
    FilterIsSubsequence(products, (p: Product) => p.category == selected);
  }

  /** Selecting a category twice is selecting it once. */
  lemma {:induction false} SelectIdempotent(products: seq<Product>, selected: string)
    ensures SelectCategory(SelectCategory(products, selected), selected)
            == SelectCategory(products, selected)
  {
    if selected != "all" {
      FilterIdempotent(products, (p: Product) => p.category == selected);
    }
  }

  /** Dispatching the payload adds exactly one unit; a product not yet in the cart becomes a new
      last line carrying its id, title, price and image with quantity 1. */
  lemma AddFromCatalog(items: seq<LineItem<string>>, p: Product)
    ensures ItemCount(Add(items, CartPayload(p))) == ItemCount(items) + 1
    ensures !HasId(items, p.id) ==>
      Add(items, CartPayload(p)) == items + [LineItem(p.id, p.title, p.price, p.image, 1)]
  {
    AddCountsOneUnit(items, CartPayload(p));
  }

  /** One "Add to Cart" on an empty cart gives exactly one line, carrying the product's title. */
  lemma AddToEmptyCart(p: Product, taxRate: real)
    ensures |Reduce(CartState([], taxRate), AddToCart(CartPayload(p))).items| == 1
    ensures Reduce(CartState([], taxRate), AddToCart(CartPayload(p))).items[0].title == p.title
  {
  }
}
