/** Properties of the cart operations that relate several calls or whole carts. */
module CartLemmas {
  import opened CartModel

  /** A line item is determined by its details and its quantity. */
  lemma SameDetailsAndQuantity(p: Product, q: Product)
    requires Details(p) == Details(q) && p.quantity == q.quantity
    ensures p == q
  {
  }

  /** `increment` or `decrement` of an identifier not in the cart leaves it identical. */
  lemma UnknownIdIsNoOp(s: seq<Product>, id: string, delta: int)
    requires !HasId(s, id)
    ensures MapQuantity(s, id, delta) == s
  {
  }

  /** Two quantity maps over the same identifier add up. */
  lemma MapQuantityComposes(s: seq<Product>, id: string, a: int, b: int)
    ensures MapQuantity(MapQuantity(s, id, a), id, b) == MapQuantity(s, id, a + b)
  {
    var t := MapQuantity(s, id, a);
    var lhs, rhs := MapQuantity(t, id, b), MapQuantity(s, id, a + b);
    forall i | 0 <= i < |s| ensures lhs[i] == rhs[i] {
      if s[i].id == id {
        SameDetailsAndQuantity(lhs[i], rhs[i]);
      }
    }
  }

  /** `increment` then `decrement` of the same identifier restores the cart. */
  lemma IncrementThenDecrement(s: seq<Product>, id: string)
    ensures MapQuantity(MapQuantity(s, id, 1), id, -1) == s
  {
  }

  /** `decrement` then `increment` of the same identifier restores the cart. */
  lemma DecrementThenIncrement(s: seq<Product>, id: string)
    ensures MapQuantity(MapQuantity(s, id, -1), id, 1) == s
  {
  }

  /** `increment` and `decrement` keep every identifier in place. */
  lemma MapQuantityKeepsIds(s: seq<Product>, id: string, delta: int)
    ensures forall i :: 0 <= i < |s| ==> MapQuantity(s, id, delta)[i].id == s[i].id
  {
  }

  /** `increment` and `decrement` keep the identifiers distinct. */
  lemma MapQuantityKeepsUnique(s: seq<Product>, id: string, delta: int)
    requires UniqueIds(s)
    ensures UniqueIds(MapQuantity(s, id, delta))
  {
  }

  /** `addToCart` keeps the identifiers distinct. */
  lemma AddKeepsUnique(s: seq<Product>, d: ProductDetails)
    requires UniqueIds(s)
    ensures UniqueIds(AddedToCart(s, d))
  {
  }

  /** None of the three operations writes anything but a quantity. */
  lemma OnlyQuantityIsWritten(s: seq<Product>, d: ProductDetails, id: string, delta: int)
    ensures forall i :: 0 <= i < |s| ==> Details(AddedToCart(s, d)[i]) == Details(s[i])
    ensures forall i :: 0 <= i < |s| ==> Details(MapQuantity(s, id, delta)[i]) == Details(s[i])
  {
  }

  /**
   * In a cart without duplicates, `addToCart` of an identifier already present
   * is the same as `increment` of that identifier.
   */
  lemma AddExistingIsIncrement(s: seq<Product>, d: ProductDetails)
    requires UniqueIds(s) && HasId(s, d.id)
    ensures AddedToCart(s, d) == MapQuantity(s, d.id, 1)
  {
  }

  /** `addToCart` of an identifier not in the cart appends its new line item. */
  lemma AddToFresh(s: seq<Product>, d: ProductDetails)
    requires !HasId(s, d.id)
    ensures AddedToCart(s, d) == s + [NewLine(d)]
  {
    var r, e := AddedToCart(s, d), s + [NewLine(d)];
    forall i | 0 <= i < |r| ensures r[i] == e[i] {
      if i == |s| {
        SameDetailsAndQuantity(r[i], e[i]);
      }
    }
  }

  /** `addToCart` on a cart whose only line item with that identifier is the last one. */
  lemma AddToFreshTail(s: seq<Product>, p: Product, d: ProductDetails)
    requires !HasId(s, d.id) && p.id == d.id
    ensures AddedToCart(s + [p], d) == s + [Shifted(p, 1)]
  {
    var t := s + [p];
    assert IsFirst(t, d.id, |s|) by {
      forall j | 0 <= j < |s| ensures t[j].id != d.id {
        assert t[j] == s[j];
      }
    }
    var r, e := AddedToCart(t, d), s + [Shifted(p, 1)];
    forall i | 0 <= i < |t| ensures r[i] == e[i] {
      if i == |s| {
        SameDetailsAndQuantity(r[i], e[i]);
      }
    }
  }

  /** A single `addToCart` of a fresh identifier appends it with quantity 1. */
  lemma AddRepeatedlyOnce(s: seq<Product>, d: ProductDetails)
    requires !HasId(s, d.id)
    ensures AddedRepeatedly(s, d, 1) == s + [Product(d.id, d.title, d.imageUrl, d.price, 1)]
  {
    assert AddedRepeatedly(s, d, 0) == s;
    AddToFresh(s, d);
  }

  /** One more `addToCart` of a fresh identifier raises the appended quantity. */
  lemma AddRepeatedlyStep(s: seq<Product>, d: ProductDetails, q: int, t: seq<Product>)
    requires !HasId(s, d.id) && t == s + [Product(d.id, d.title, d.imageUrl, d.price, q)]
    ensures AddedToCart(t, d) == s + [Product(d.id, d.title, d.imageUrl, d.price, q + 1)]
  {
    AddToFreshTail(s, Product(d.id, d.title, d.imageUrl, d.price, q), d);
  }

  /**
   * `addToCart` called `n >= 1` times with an identifier not yet in the cart
   * appends one line item with the given details and quantity `n`, and leaves
   * the rest of the cart as it was.
   */
  lemma {:induction false} AddRepeatedlyFresh(s: seq<Product>, d: ProductDetails, n: nat)
    requires !HasId(s, d.id) && n >= 1
    ensures AddedRepeatedly(s, d, n) == s + [Product(d.id, d.title, d.imageUrl, d.price, n)]
  {
    if n == 1 {
      AddRepeatedlyOnce(s, d);
    } else {
      var t := AddedRepeatedly(s, d, n - 1);
      AddRepeatedlyFresh(s, d, n - 1);
      AddRepeatedlyStep(s, d, n - 1, t);
    }
  }

  /**
   * After `n >= 1` calls of `addToCart` with an identifier not yet in the cart,
   * exactly one line item has that identifier, and its quantity is `n`.
   */
  lemma AddRepeatedlyExactlyOne(s: seq<Product>, d: ProductDetails, n: nat)
    requires !HasId(s, d.id) && n >= 1
    ensures var r := AddedRepeatedly(s, d, n);
      IsFirst(r, d.id, |s|) && r[|s|].quantity == n &&
      forall j :: 0 <= j < |r| && j != |s| ==> r[j].id != d.id
  {
  }

  /** `addToCart` and `increment` keep every quantity positive. */
  lemma AddAndIncrementKeepPositive(s: seq<Product>, d: ProductDetails, id: string)
    requires PositiveQuantities(s)
    ensures PositiveQuantities(AddedToCart(s, d))
    ensures PositiveQuantities(MapQuantity(s, id, 1))
  {
  }

  /**
   * `decrement` of a line item with quantity 1, at any position of any cart,
   * keeps it in place with quantity 0: nothing is ever removed, and positive
   * quantities are not preserved.
   */
  lemma DecrementKeepsEmptyLine(s: seq<Product>, k: int)
    requires 0 <= k < |s| && s[k].quantity == 1
    ensures var r := MapQuantity(s, s[k].id, -1);
      |r| == |s| && r[k] == s[k].(quantity := 0) && !PositiveQuantities(r)
  {
  }
}
