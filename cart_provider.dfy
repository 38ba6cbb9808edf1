/**
 The cart state held by `CartProvider` (src/hooks/cart.tsx) and its three
 mutators. The state is the current product list plus the log of every list
 handed to storage, so that what each call persists can be
 stated without modelling the storage itself.
 */
module CartProvider {
  import opened CartItems

  /** `products.findIndex(item => item.id === id)`: a left-to-right scan that
      stops at the first entry with the id. */
  method FindIndex(products: seq<Product>, id: string) returns (index: int)
    ensures index == IndexOf(products, id)
    ensures index == -1 <==> !Contains(products, id)
    ensures 0 <= index ==> index < |products| && products[index].id == id
  {
    index := 0;
    while index < |products|
      invariant 0 <= index <= |products|
      invariant forall j :: 0 <= j < index ==> products[j].id != id
    {
      if products[index].id == id {
        return;
      }
      index := index + 1;
    }
    index := -1;
  }

  /** `products.find(item => item.id === id)`: the first entry with the id,
      or nothing. */
  method Find(products: seq<Product>, id: string) returns (found: Option<Product>)
    ensures found.None? <==> !Contains(products, id)
    ensures found.Some? ==> found.value == products[IndexOf(products, id)]
    ensures found.Some? ==> found.value.id == id
  {
    var index := FindIndex(products, id);
    if index >= 0 {
      found := Some(products[index]);
    } else {
      found := None;
    }
  }

  class Cart {
    /** The `products` state of the provider. */
    var products: seq<Product>
    /** Every list handed to `AsyncStorage.setItem` under the key
        "@GoMarketplace:cart", oldest first. */
    var persisted: seq<seq<Product>>

    /** Ids are distinct and every quantity is at least 1. */
    predicate Valid()
      reads this
    {
      ValidCart(products)
    }

    /** What storage holds matches the list in memory: the last list written
        is the current one, and before the first write the cart is still the
        empty list it started as. */
    predicate Synced()
      reads this
    {
      if persisted == [] then products == [] else persisted[|persisted| - 1] == products
    }

    /** The provider mounts with an empty list and has written nothing. */
    constructor ()
      ensures products == [] && persisted == []
      ensures Valid() && Synced()
    {
      products := [];
      persisted := [];
    }

    /** addToCart as written: appends the product with quantity 1 when its id
        is absent, and then writes the list as it was BEFORE the append. */
    method AddToCart(product: Product)
      modifies this
      ensures products == Added(old(products), product)
      ensures persisted ==
                if Contains(old(products), product.id) then old(persisted)
                else old(persisted) + [old(products)]
      ensures old(Valid()) ==> Valid()
      ensures !Contains(old(products), product.id) ==> !Synced()
    {
      var existProduct := Find(products, product.id);
      if existProduct.None? {
        var before := products;
        products := products + [product.(quantity := 1)];
        persisted := persisted + [before];
        assert |persisted[|persisted| - 1]| < |products|;
      }
    }

    /** addToCart as evidently intended: the same update, then the UPDATED
        list is written, so storage stays in step with memory. */
    method AddToCartSavingUpdated(product: Product)
      modifies this
      ensures products == Added(old(products), product)
      ensures persisted ==
                if Contains(old(products), product.id) then old(persisted)
                else old(persisted) + [products]
      ensures old(Valid()) ==> Valid()
      ensures old(Synced()) ==> Synced()
    {
      var existProduct := Find(products, product.id);
      if existProduct.None? {
        products := products + [product.(quantity := 1)];
        persisted := persisted + [products];
      }
    }

    /** increment: raises the quantity of the first entry with the id by one
        and writes the updated list; an unknown id does nothing. */
    method Increment(id: string)
      modifies this
      ensures products == Incremented(old(products), id)
      ensures persisted ==
                if Contains(old(products), id) then old(persisted) + [products]
                else old(persisted)
      ensures old(Valid()) ==> Valid()
      ensures old(Synced()) ==> Synced()
    {
      var updateProducts := products;
      var index := FindIndex(products, id);
      if index >= 0 {
        updateProducts := updateProducts[index := updateProducts[index].(quantity := updateProducts[index].quantity + 1)];
        products := updateProducts;
        persisted := persisted + [updateProducts];
      }
    }

    /** decrement: lowers the quantity of the first entry with the id by one
        when it is above 1, and writes the list whenever the id was found,
        changed or not; an unknown id does nothing. */
    method Decrement(id: string)
      modifies this
      ensures products == Decremented(old(products), id)
      ensures persisted ==
                if Contains(old(products), id) then old(persisted) + [products]
                else old(persisted)
      ensures old(Valid()) ==> Valid()
      ensures old(Synced()) ==> Synced()
    {
      var updateProducts := products;
      var index := FindIndex(products, id);
      if index >= 0 {
        if updateProducts[index].quantity > 1 {
          updateProducts := updateProducts[index := updateProducts[index].(quantity := updateProducts[index].quantity - 1)];
        }
        products := updateProducts;
        persisted := persisted + [updateProducts];
      }
    }
  }

  /** The first add to a fresh cart, followed by a restart: storage holds
      the empty list although the cart shows the product, so the product
      is lost when the cart is loaded again. */
  method FirstAddThenReload(product: Product) returns (shown: seq<Product>, reloaded: seq<Product>)
    ensures shown == [product.(quantity := 1)]
    ensures reloaded == []
  {
    var cart := new Cart();
    cart.AddToCart(product);
    shown := cart.products;
    reloaded := cart.persisted[|cart.persisted| - 1];
  }

  /** The same first add with the corrected write: what is reloaded is what
      was shown. */
  method FirstAddSavingUpdatedThenReload(product: Product) returns (shown: seq<Product>, reloaded: seq<Product>)
    ensures shown == [product.(quantity := 1)]
    ensures reloaded == shown
  {
    var cart := new Cart();
    cart.AddToCartSavingUpdated(product);
    shown := cart.products;
    reloaded := cart.persisted[|cart.persisted| - 1];
  }
}
