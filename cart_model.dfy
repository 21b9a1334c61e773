/**
 * The cart of src/hooks/cart.tsx as values: its line items and the new
 * product lists that `addToCart`, `increment` and `decrement` compute.
 */
module CartModel {
  import opened Wrappers

  /** A JS `number` price: carried along and never computed on. */
  type Price = real

  /** One line item of the cart (the `Product` interface; `imageUrl` is its `image_url`). */
  datatype Product = Product(id: string, title: string, imageUrl: string, price: Price, quantity: int)

  /** The argument of `addToCart`: a product without its quantity. */
  datatype ProductDetails = ProductDetails(id: string, title: string, imageUrl: string, price: Price)

  /** Everything of a line item except its quantity. */
  function Details(p: Product): ProductDetails
  {
    ProductDetails(p.id, p.title, p.imageUrl, p.price)
  }

  /** The line item `{ ...product, quantity: 1 }`. */
  function NewLine(d: ProductDetails): Product
  {
    Product(d.id, d.title, d.imageUrl, d.price, 1)
  }

  /** A line item whose quantity is moved by `delta`, nothing else changed. */
  function Shifted(p: Product, delta: int): Product
  {
    p.(quantity := p.quantity + delta)
  }

  /** Some line item of `s` has identifier `id`. */
  predicate HasId(s: seq<Product>, id: string)
  {
    exists i :: 0 <= i < |s| && s[i].id == id
  }

  /** `k` is the first position of `s` whose line item has identifier `id`. */
  predicate IsFirst(s: seq<Product>, id: string, k: int)
  {
    0 <= k < |s| && s[k].id == id && forall j :: 0 <= j < k ==> s[j].id != id
  }

  /** No two line items of `s` share an identifier. */
  predicate UniqueIds(s: seq<Product>)
  {
    forall i, j :: 0 <= i < j < |s| ==> s[i].id != s[j].id
  }

  /** Every line item of `s` has a positive quantity. */
  predicate PositiveQuantities(s: seq<Product>)
  {
    forall i :: 0 <= i < |s| ==> s[i].quantity > 0
  }

  /** `products.find(_product => _product.id === id)`, as the position found. */
  function FindFirst(s: seq<Product>, id: string): (r: Option<nat>)
    ensures r.None? <==> !HasId(s, id)
    ensures r.Some? ==> IsFirst(s, id, r.value)
  {
    if s == [] then None
    else if s[0].id == id then Some(0)
    else match FindFirst(s[1..], id)
      case None =>
        assert forall i :: 0 < i < |s| ==> s[i] == s[1..][i - 1];
        None
      case Some(k) => Some(k + 1)
  }

  /**
   * `products.map(product => { if (product.id === id) product.quantity += delta; return product; })`,
   * the list built by `increment` (delta 1) and `decrement` (delta -1).
   */
  function MapQuantity(s: seq<Product>, id: string, delta: int): (r: seq<Product>)
    ensures |r| == |s|
    ensures forall i :: 0 <= i < |s| && s[i].id != id ==> r[i] == s[i]
    ensures forall i :: 0 <= i < |s| && s[i].id == id ==>
      Details(r[i]) == Details(s[i]) && r[i].quantity == s[i].quantity + delta
  {
    if s == [] then []
    else [if s[0].id == id then Shifted(s[0], delta) else s[0]] + MapQuantity(s[1..], id, delta)
  }

  /**
   * The cart after `addToCart(d)`: the first line item with `d.id` gets one
   * more unit, and when there is none a new line item with quantity 1 is
   * appended.
   */
  function AddedToCart(s: seq<Product>, d: ProductDetails): (r: seq<Product>)
    ensures !HasId(s, d.id) ==>
      |r| == |s| + 1 && (forall j :: 0 <= j < |s| ==> r[j] == s[j]) &&
      Details(r[|s|]) == d && r[|s|].quantity == 1
    ensures HasId(s, d.id) ==> |r| == |s|
    ensures forall k :: IsFirst(s, d.id, k) ==>
      |r| == |s| && Details(r[k]) == Details(s[k]) && r[k].quantity == s[k].quantity + 1 &&
      forall j :: 0 <= j < |s| && j != k ==> r[j] == s[j]
  {
    match FindFirst(s, d.id)
    case Some(k) => s[k := Shifted(s[k], 1)]
    case None => s + [NewLine(d)]
  }

  /** `addToCart(d)` called `n` times in a row. */
  function AddedRepeatedly(s: seq<Product>, d: ProductDetails, n: nat): seq<Product>
  {
    if n == 0 then s else AddedToCart(AddedRepeatedly(s, d, n - 1), d)
  }
}
