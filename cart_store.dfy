/**
 * The cart state held by `CartProvider` in src/hooks/cart.tsx: the product
 * list and the three operations that change it.
 */
module CartStore {
  import opened Wrappers
  import opened CartModel
  import CartLemmas

  class Cart {
    /** The `products` state, in the order the line items were first added. */
    var products: seq<Product>

    /** The provider starts with an empty list (`useState<Product[]>([])`). */
    constructor ()
      ensures products == []
    {
      products := [];
    }

    /**
     * `addToCart(item)`: an item already in the cart has its first line item's
     * quantity raised by one in place; a new item is appended with quantity 1.
     * The list itself is `AddedToCart`; the lemmas give its consequences.
     */
    method AddToCart(item: ProductDetails)
      modifies this
      ensures products == AddedToCart(old(products), item)
      ensures !HasId(old(products), item.id) ==> products == old(products) + [NewLine(item)]
      ensures HasId(old(products), item.id) ==> |products| == |old(products)|
      ensures UniqueIds(old(products)) ==> UniqueIds(products)
      ensures UniqueIds(old(products)) && HasId(old(products), item.id) ==>
        products == MapQuantity(old(products), item.id, 1)
    {
      ghost var before := products;
      products := AddedToCart(products, item);
      if !HasId(before, item.id) {
        CartLemmas.AddToFresh(before, item);
      }
      if UniqueIds(before) {
        CartLemmas.AddKeepsUnique(before, item);
        if HasId(before, item.id) {
          CartLemmas.AddExistingIsIncrement(before, item);
        }
      }
    }

    /** `increment(id)`: every line item with identifier `id` gets one more unit. */
    method Increment(id: string)
      modifies this
      ensures products == MapQuantity(old(products), id, 1)
      ensures !HasId(old(products), id) ==> products == old(products)
      ensures UniqueIds(old(products)) ==> UniqueIds(products)
      ensures PositiveQuantities(old(products)) ==> PositiveQuantities(products)
    {
      ghost var before := products;
      products := MapQuantity(products, id, 1);
      if !HasId(before, id) {
        CartLemmas.UnknownIdIsNoOp(before, id, 1);
      }
      if UniqueIds(before) {
        CartLemmas.MapQuantityKeepsUnique(before, id, 1);
      }
    }

    /**
     * `decrement(id)`: every line item with identifier `id` gets one unit less;
     * no line item is removed, whatever its quantity becomes.
     */
    method Decrement(id: string)
      modifies this
      ensures products == MapQuantity(old(products), id, -1)
      ensures !HasId(old(products), id) ==> products == old(products)
      ensures UniqueIds(old(products)) ==> UniqueIds(products)
    {
      ghost var before := products;
      products := MapQuantity(products, id, -1);
      if !HasId(before, id) {
        CartLemmas.UnknownIdIsNoOp(before, id, -1);
      }
      if UniqueIds(before) {
        CartLemmas.MapQuantityKeepsUnique(before, id, -1);
      }
    }
  }

  /**
   * A short session: adding a shoe twice merges it into one line item, and
   * decrementing it from 3 three times leaves it in the cart with quantity 0.
   */
  method Session(shoe: ProductDetails)
  {
    var cart := new Cart();
    cart.AddToCart(shoe);
    cart.AddToCart(shoe);
    cart.Increment(shoe.id);
    assert cart.products == [Product(shoe.id, shoe.title, shoe.imageUrl, shoe.price, 3)];
    cart.Decrement(shoe.id);
    cart.Decrement(shoe.id);
    cart.Decrement(shoe.id);
    assert cart.products == [Product(shoe.id, shoe.title, shoe.imageUrl, shoe.price, 0)];
  }
}
