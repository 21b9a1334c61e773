# Shopping cart state, modelled in Dafny

This project models the cart state of a mobile storefront (`src/hooks/cart.tsx`).
The cart is an ordered list of `Product` line items. Each line item has an `id`,
`title`, `image_url`, `price` and `quantity`. Three operations change the list:

- `addToCart` looks the item up by `id` with `find`. If the item is found, the
  quantity of that first match goes up by one, in place. Otherwise the item is
  appended at the end with quantity 1.
- `increment(id)` maps over the list and adds one to the quantity of every line
  item whose `id` matches.
- `decrement(id)` does the same with minus one. It never removes a line item,
  so a quantity can reach 0 or go negative.

Files:

- `wrappers.dfy`: an `Option` datatype for the result of `find`.
- `cart_model.dfy` (module `CartModel`): the `Product` datatype, and the lists
  the three operations build, as pure functions.
- `cart_lemmas.dfy` (module `CartLemmas`): properties that relate several
  calls, or that hold for whole carts.
- `cart_store.dfy` (module `CartStore`): the class `Cart`. Its `products`
  field is the provider's `products` state. Its methods `AddToCart`,
  `Increment` and `Decrement` reassign that field. The client method
  `Session` runs one short scenario.

`price` is carried as a `real` and nothing computes on it. `quantity` is an
unbounded `int`. A product in the cart is a value, so the model describes the
new list each operation produces, not the sharing of product objects between
the old list and the new one.

Two behaviours of the code are easy to miss, and the model keeps both:

- `decrement` (src/hooks/cart.tsx:89-97) never removes a line item. A
  quantity can reach 0 or go negative, so positive quantities are not an
  invariant of the cart. See `CartLemmas.DecrementKeepsEmptyLine` and the
  `Session` scenario, which ends with quantity 0.
- The existing-item branch of `addToCart` (src/hooks/cart.tsx:51-54) raises
  the quantity of the first match only, in place. It then returns without
  `setProducts` and without a write to storage.
  `CartLemmas.AddExistingIsIncrement` shows that the resulting list equals
  the one `increment` builds when the ids are distinct.

The source field `image_url` is called `imageUrl` in the Dafny datatypes.

## Model

| member | source | states |
|---|---|---|
| CartModel.FindFirst | src/hooks/cart.tsx:47-49 | `find` by `id` returns nothing exactly when no line item has that id; otherwise it returns the first position holding that id |
| CartModel.MapQuantity | src/hooks/cart.tsx:69-75 | the mapped list has the same length and order; line items with the id get quantity + delta and keep all other fields; all other line items are unchanged (delta 1 for `increment`, -1 for `decrement` at lines 89-95) |
| CartModel.AddedToCart | src/hooks/cart.tsx:45-57 | with an unknown id: the old list plus one line item at the end, with the given details and quantity 1; with a known id: same length, the first matching line item gets quantity + 1 and keeps its other fields, and every other line item is unchanged |
| CartLemmas.AddToFresh | src/hooks/cart.tsx:57 | `addToCart` with an id not in the cart yields exactly `[...products, { ...product, quantity: 1 }]` |
| CartLemmas.AddKeepsUnique | src/hooks/cart.tsx:47-57 | if all ids were distinct before `addToCart`, they are distinct after it |
| CartLemmas.AddExistingIsIncrement | src/hooks/cart.tsx:47-54 | in a cart with distinct ids, `addToCart` of a present id produces the same list as `increment` of that id |
| CartLemmas.UnknownIdIsNoOp | src/hooks/cart.tsx:69-77 | `increment` or `decrement` of an id that is not in the cart leaves the list identical |
| CartLemmas.MapQuantityComposes | src/hooks/cart.tsx:69-95 | two quantity maps on the same id add up their deltas |
| CartLemmas.IncrementThenDecrement | src/hooks/cart.tsx:69-95 | `increment(id)` followed by `decrement(id)` restores the original list |
| CartLemmas.DecrementThenIncrement | src/hooks/cart.tsx:69-95 | `decrement(id)` followed by `increment(id)` restores the original list |
| CartLemmas.MapQuantityKeepsIds | src/hooks/cart.tsx:69-95 | `increment` and `decrement` keep the id at every position |
| CartLemmas.MapQuantityKeepsUnique | src/hooks/cart.tsx:69-95 | `increment` and `decrement` keep distinct ids distinct |
| CartLemmas.OnlyQuantityIsWritten | src/hooks/cart.tsx:47-97 | none of the three operations changes the `id`, `title`, `image_url` (`imageUrl`) or `price` of a line item already in the cart |
| CartLemmas.AddRepeatedlyFresh | src/hooks/cart.tsx:45-65 | calling `addToCart` n >= 1 times with an id not yet in the cart leaves the old list followed by one line item with the given details and quantity n |
| CartLemmas.AddRepeatedlyExactlyOne | src/hooks/cart.tsx:47-57 | after those n calls, exactly one line item has that id, and its quantity is n |
| CartLemmas.AddAndIncrementKeepPositive | src/hooks/cart.tsx:47-75 | `addToCart` and `increment` keep every quantity positive |
| CartLemmas.DecrementKeepsEmptyLine | src/hooks/cart.tsx:89-97 | in any cart, `decrement` of a line item with quantity 1 keeps it at the same position with quantity 0 and keeps the length, so positive quantities are not preserved |
| CartStore.Cart.constructor | src/hooks/cart.tsx:29 | the cart starts empty |
| CartStore.Cart.AddToCart | src/hooks/cart.tsx:45-65 | the new `products` is `AddedToCart` of the old one: append with quantity 1 for an unknown id, same length for a known one; keeps ids distinct, and equals `increment` on a cart with distinct ids |
| CartStore.Cart.Increment | src/hooks/cart.tsx:67-85 | the new `products` is the old one with every matching quantity raised by 1; identical for an unknown id; keeps ids distinct and quantities positive |
| CartStore.Cart.Decrement | src/hooks/cart.tsx:87-105 | the new `products` is the old one with every matching quantity lowered by 1, with no line item removed; identical for an unknown id; keeps ids distinct |

## Left out

- Persistence through AsyncStorage under the key `@GoMarketplace:products` (src/hooks/cart.tsx:33-35, 59-62, 79-82, 99-102). It is asynchronous foreign I/O. The model has no stored copy of the cart. So it does not show that the existing-item branch of `addToCart` skips the write, or that `increment` and `decrement` write the old array, which holds the same mutated objects.
- Loading the stored cart on start-up (src/hooks/cart.tsx:31-43). It depends on AsyncStorage and `JSON.parse`. The model's cart starts empty and is never hydrated.
- `JSON.parse` and `JSON.stringify` (src/hooks/cart.tsx:38, 61, 81, 101). These are library calls, so the model has no serialised form and no round trip.
- React plumbing: `createContext`, `useState`, `useEffect`, `useCallback`, `useMemo`, the provider element and the null-context error in `useCart` (src/hooks/cart.tsx:26-31, 107-123). This is UI framework glue.
- Object aliasing. Product objects are shared between the old and new lists and mutated in place. The model treats line items as values and describes only the resulting list, not which other references see the change.
- The existing-item branch of `addToCart` does not call `setProducts`, so React is not told to re-render. The model changes `products` in that branch too, because the stored object itself changes.
- Async ordering, and stale closures between overlapping calls. Both are about concurrency, so they are left out.
- JS `number` precision for `quantity` and `price`. Quantity is an unbounded integer; price is never computed on.
