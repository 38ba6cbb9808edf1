# Shopping-cart state of the GoMarketplace app

This project models the cart held by `CartProvider` in `src/hooks/cart.tsx`.
The cart is an ordered list of `Product` line items (id, title, image URL,
price, quantity). Items are looked up by id. The model covers the three
mutators the provider exposes:

- `addToCart` appends a product with quantity 1 when its id is not in the cart.
- `increment` raises the quantity of the item with a given id by one.
- `decrement` lowers that quantity by one, but never below 1.

Each mutator also hands a list to device storage. The model keeps the log of
those lists, not the storage itself.

Two modules:

- `CartItems` (`cart_items.dfy`): the `Product` datatype and the `findIndex`
  lookup (`IndexOf`). It also holds the list each mutator produces, as pure
  functions (`Added`, `Incremented`, `Decremented`), with their frame and
  invariant properties. Lemmas cover repeated and combined calls.
- `CartProvider` (`cart_provider.dfy`): the class `Cart`, with the mutable
  `products` state and the `persisted` log of storage writes. It has the
  linear-search methods `FindIndex` and `Find`, and the three mutators as
  methods proved against the functions above. `Valid` (ids distinct, every
  quantity at least 1) is kept by every mutator. `Synced` (the last list
  written equals the list in memory) is kept by `Increment`, `Decrement` and
  `AddToCartSavingUpdated`, and is broken by `AddToCart` whenever it appends.

The model follows the code. `increment` and `decrement` write their updated
list (cart.tsx:68-71, 89-92), but `addToCart` writes `products`, which is the
list before the append (cart.tsx:51). See "## Findings".

## Model

| member | source | states |
|---|---|---|
| `CartItems.IndexOf` | src/hooks/cart.tsx:61 | the result is -1 exactly when no item has the id; otherwise the item at the result has the id and no earlier item does |
| `CartProvider.FindIndex` | src/hooks/cart.tsx:61 | the left-to-right scan returns the first index holding the id, or -1 exactly when the id is absent |
| `CartProvider.Find` | src/hooks/cart.tsx:45 | returns nothing exactly when the id is absent; otherwise returns the first item with that id |
| `CartItems.Added` | src/hooks/cart.tsx:45-47 | the id is present afterwards. If it was already present, the list is unchanged. Otherwise exactly one entry is appended: the argument with quantity 1, earlier entries untouched. Distinct ids and quantities of at least 1 are preserved |
| `CartItems.Incremented` | src/hooks/cart.tsx:60-66 | length, order and ids are unchanged. Only the first entry with the id changes, and only by quantity + 1. An absent id leaves the list unchanged. Both invariants are preserved |
| `CartItems.Decremented` | src/hooks/cart.tsx:79-87 | length, order and ids are unchanged, so no entry is removed. Only the first entry with the id changes: quantity - 1 when it was above 1, otherwise kept. An absent id leaves the list unchanged. Both invariants are preserved |
| `CartItems.QuantityUpdatesKeepLookups` | src/hooks/cart.tsx:58-96 | after increment or decrement of any id, a lookup of every id finds the same index as before: a quantity update never moves an item |
| `CartItems.AddAgainIsNoOp` | src/hooks/cart.tsx:45-46 | adding a product whose id is already in the cart changes nothing, so a second add leaves the quantity at 1 |
| `CartItems.IncrementThenDecrement` | src/hooks/cart.tsx:58-96 | on a cart whose quantities are all at least 1, decrement undoes increment of the same id |
| `CartItems.DecrementFloorsAtOne` | src/hooks/cart.tsx:83-85 | any number of decrements of an item at quantity 1 leaves the cart unchanged |
| `CartItems.AddedAllDistinct` | src/hooks/cart.tsx:45-47 | adding products with distinct ids that are not yet in the cart appends one entry per product, in call order, each with quantity 1 |
| `CartItems.Walkthrough` | src/hooks/cart.tsx:43-96 | from an empty cart: add gives quantity 1, increment gives 2, decrement gives 1, another decrement keeps 1, adding again changes nothing |
| `CartProvider.Cart.constructor` | src/hooks/cart.tsx:29 | the provider starts with an empty list, nothing written, both invariants holding |
| `CartProvider.Cart.AddToCart` | src/hooks/cart.tsx:43-56 | the new list is `Added` of the old one. When the id was absent, the list written is the old pre-append list, which breaks `Synced`. When it was present, nothing is written. `Valid` is preserved |
| `CartProvider.Cart.AddToCartSavingUpdated` | src/hooks/cart.tsx:47-52 | the same list update, but writes the appended list, so `Synced` and `Valid` are preserved |
| `CartProvider.Cart.Increment` | src/hooks/cart.tsx:58-75 | the new list is `Incremented` of the old one. When the id is found, the updated list is written; otherwise nothing is written. `Valid` and `Synced` are preserved |
| `CartProvider.Cart.Decrement` | src/hooks/cart.tsx:77-96 | the new list is `Decremented` of the old one. When the id is found, the list is written even if the quantity stayed at 1; otherwise nothing is written. `Valid` and `Synced` are preserved |
| `CartProvider.FirstAddThenReload` | src/hooks/cart.tsx:47-51 | after the first add to a fresh cart, the cart shows the product but the list written is empty |
| `CartProvider.FirstAddSavingUpdatedThenReload` | src/hooks/cart.tsx:47-52 | with the corrected write, the list written after the first add is the list shown |

## Left out

- `loadProducts` (cart.tsx:31-41) is not modelled. It is an asynchronous read from device storage that replaces the list without validation.
- `AsyncStorage` and `JSON.stringify`/`JSON.parse` are not modelled. The model records the list value handed to `setItem`, not the serialized string. Storage failures and awaiting are not modelled.
- The React glue is not modelled: `createContext`, `useState`, `useCallback`, `useMemo` and the context provider element (cart.tsx:26-29, 98-103). These are UI framework plumbing.
- The `useCart` error raised outside a provider (cart.tsx:106-114) is not modelled. It is a check of framework scope, not of cart state.
- Stale closures and overlapping asynchronous calls are not modelled. Each operation runs to completion on the current state.
- Line items are modelled as values. `increment` and `decrement` mutate the shared item object in place. Only a closure still holding an older list could observe that aliasing, and stale closures are out of scope.
- `addToCart` is typed `Partial<Product>` in the context interface. The model takes a complete `Product`, as the implementation's parameter type does. Missing fields are not modelled.
- `price` is a floating-point number that is never computed with. It is carried as an uninterpreted `real`.
- `quantity` is an unbounded integer. Loss of precision above 2^53 is not modelled.

## Findings

| source | as written | input that shows it | evidently intended | confidence | as-written member | corrected member |
|---|---|---|---|---|---|---|
| src/hooks/cart.tsx:51 | `addToCart` writes `products`, the list before the append | on an empty cart, `addToCart(p)` shows `[p]` with quantity 1 but writes `[]`, so `p` is lost after a restart | write the appended list, as `increment` and `decrement` write their updated list | high, not executed | `CartProvider.FirstAddThenReload` | `CartProvider.Cart.AddToCartSavingUpdated` |
