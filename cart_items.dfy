/**
 The cart's line items and the list updates that addToCart, increment and
 decrement perform on them (src/hooks/cart.tsx). The cart is an ordered list
 of products looked up by id; these functions describe the list each
 operation produces from the list it starts with, and the lemmas state what
 that means for the cart's invariants and for sequences of operations.
 */
module CartItems {

  /** One cart line item: the `Product` record of the cart context. The
      price is carried along and never computed with. */
  datatype Product = Product(
    id: string,
    title: string,
    imageUrl: string,
    price: real,
    quantity: int)

  datatype Option<T> = None | Some(value: T)

  /** Some entry of `s` has id `id`. */
  predicate Contains(s: seq<Product>, id: string)
  {
    exists j :: 0 <= j < |s| && s[j].id == id
  }

  /** No two entries share an id. */
  predicate UniqueIds(s: seq<Product>)
  {
    forall i, j :: 0 <= i < j < |s| ==> s[i].id != s[j].id
  }

  /** Every entry has quantity at least 1. */
  predicate AllPositive(s: seq<Product>)
  {
    forall i :: 0 <= i < |s| ==> s[i].quantity >= 1
  }

  /** The invariant the cart operations keep. */
  predicate ValidCart(s: seq<Product>)
  {
    UniqueIds(s) && AllPositive(s)
  }

  /** `Array.prototype.findIndex` with the test `item.id === id`: the index
      of the first entry with that id, or -1 when there is none. */
  function IndexOf(s: seq<Product>, id: string): (r: int)
    ensures -1 <= r < |s|
    ensures r == -1 <==> !Contains(s, id)
    ensures 0 <= r ==> s[r].id == id
    ensures 0 <= r ==> forall j :: 0 <= j < r ==> s[j].id != id
  {
    if |s| == 0 then -1
    else if s[0].id == id then 0
    else
      var k := IndexOf(s[1..], id);
      if k == -1 then -1 else k + 1
  }

  /** The list addToCart hands to `setProducts`: the argument with quantity 1
      appended when its id is absent, the list itself otherwise. */
  function Added(s: seq<Product>, product: Product): (r: seq<Product>)
    ensures Contains(r, product.id)
    ensures Contains(s, product.id) ==> r == s
    ensures !Contains(s, product.id) ==>
              |r| == |s| + 1 && r[..|s|] == s && r[|s|] == product.(quantity := 1)
    ensures UniqueIds(s) ==> UniqueIds(r)
    ensures AllPositive(s) ==> AllPositive(r)
  {
    if Contains(s, product.id) then s
    else
      var r := s + [product.(quantity := 1)];
      assert r[|s|].id == product.id;
      r
  }

  /** The list increment hands to `setProducts`: the first entry with the id
      has its quantity raised by one; an unknown id changes nothing. */
  function Incremented(s: seq<Product>, id: string): (r: seq<Product>)
    ensures |r| == |s|
    ensures forall j :: 0 <= j < |s| ==> r[j].id == s[j].id
    ensures forall j :: 0 <= j < |s| && j != IndexOf(s, id) ==> r[j] == s[j]
    ensures Contains(s, id) ==>
              var i := IndexOf(s, id);
              r[i] == s[i].(quantity := s[i].quantity + 1)
    ensures !Contains(s, id) ==> r == s
    ensures UniqueIds(s) ==> UniqueIds(r)
    ensures AllPositive(s) ==> AllPositive(r)
  {
    var i := IndexOf(s, id);
    if i < 0 then s else s[i := s[i].(quantity := s[i].quantity + 1)]
  }

  /** The list decrement hands to `setProducts`: the first entry with the id
      has its quantity lowered by one when it is above 1 and kept otherwise;
      no entry is ever removed, and an unknown id changes nothing. */
  function Decremented(s: seq<Product>, id: string): (r: seq<Product>)
    ensures |r| == |s|
    ensures forall j :: 0 <= j < |s| ==> r[j].id == s[j].id
    ensures forall j :: 0 <= j < |s| && j != IndexOf(s, id) ==> r[j] == s[j]
    ensures Contains(s, id) ==>
              var i := IndexOf(s, id);
              r[i] == s[i].(quantity := if s[i].quantity > 1 then s[i].quantity - 1 else s[i].quantity)
    ensures !Contains(s, id) ==> r == s
    ensures UniqueIds(s) ==> UniqueIds(r)
    ensures AllPositive(s) ==> AllPositive(r)
  {
    var i := IndexOf(s, id);
    if i < 0 || s[i].quantity <= 1 then s
    else s[i := s[i].(quantity := s[i].quantity - 1)]
  }

  /** Changing a quantity never moves an item: after increment or decrement
      of any id, every lookup by id finds the same index as before. */
  lemma QuantityUpdatesKeepLookups(s: seq<Product>, id: string, k: string)
    ensures IndexOf(Incremented(s, id), k) == IndexOf(s, k)
    ensures IndexOf(Decremented(s, id), k) == IndexOf(s, k)
  {
  }

  /** Adding a product whose id is already there, however its other fields
      differ, leaves the cart as it is: a second add never changes the
      quantity. */
  lemma AddAgainIsNoOp(s: seq<Product>, p: Product, q: Product)
    requires q.id == p.id
    ensures Added(Added(s, p), q) == Added(s, p)
  {
  }

  /** Decrementing right after incrementing the same id restores the cart,
      as long as the entry's quantity was at least 1. */
  lemma IncrementThenDecrement(s: seq<Product>, id: string)
    requires AllPositive(s)
    ensures Decremented(Incremented(s, id), id) == s
  {
  }

  /** Decrementing an entry at quantity 1 keeps it at 1, however often. */
  lemma {:induction false} DecrementFloorsAtOne(s: seq<Product>, id: string, n: nat)
    requires Contains(s, id) && s[IndexOf(s, id)].quantity == 1
    ensures DecrementedTimes(s, id, n) == s
  {
    if n > 0 {
      DecrementFloorsAtOne(s, id, n - 1);
    }
  }

  /** `n` decrements of the same id in a row. */
  function DecrementedTimes(s: seq<Product>, id: string, n: nat): seq<Product>
  {
    if n == 0 then s else Decremented(DecrementedTimes(s, id, n - 1), id)
  }

  /** The cart after calling addToCart with each product of `ps` in turn. */
  function AddedAll(s: seq<Product>, ps: seq<Product>): seq<Product>
    decreases |ps|
  {
    if ps == [] then s else AddedAll(Added(s, ps[0]), ps[1..])
  }

  /** Adding products with distinct ids that are not yet in the cart appends
      one entry per product, in order, each with quantity 1. */
  lemma {:induction false} AddedAllDistinct(s: seq<Product>, ps: seq<Product>)
    requires UniqueIds(ps)
    requires forall i :: 0 <= i < |ps| ==> !Contains(s, ps[i].id)
    ensures |AddedAll(s, ps)| == |s| + |ps|
    ensures AddedAll(s, ps)[..|s|] == s
    ensures forall i :: 0 <= i < |ps| ==> AddedAll(s, ps)[|s| + i] == ps[i].(quantity := 1)
    decreases |ps|
  {
    if ps != [] {
      var s' := Added(s, ps[0]);
      assert s' == s + [ps[0].(quantity := 1)];
      forall i | 0 <= i < |ps[1..]|
        ensures !Contains(s', ps[1..][i].id)
      {
        assert ps[1..][i] == ps[i + 1];
        assert ps[0].id != ps[i + 1].id;
        assert !Contains(s, ps[i + 1].id);
        assert forall j :: 0 <= j < |s| ==> s'[j] == s[j];
      }
      AddedAllDistinct(s', ps[1..]);
      var r := AddedAll(s, ps);
      assert r == AddedAll(s', ps[1..]);
      assert r[..|s|] == r[..|s'|][..|s|];
      forall i | 0 <= i < |ps|
        ensures r[|s| + i] == ps[i].(quantity := 1)
      {
        if i == 0 {
          assert r[|s|] == r[..|s'|][|s|] == s'[|s|];
        } else {
          assert r[|s'| + (i - 1)] == ps[1..][i - 1].(quantity := 1);
        }
      }
    }
  }

  /** The walk through one product from an empty cart: add it, raise it to
      2, lower it back to 1, lower it again (it stays at 1), add it again
      (nothing changes). */
  lemma Walkthrough(a: Product)
    ensures var s1 := Added([], a);
            var s2 := Incremented(s1, a.id);
            var s3 := Decremented(s2, a.id);
            var s4 := Decremented(s3, a.id);
            var s5 := Added(s4, a);
            && s1 == [a.(quantity := 1)]
            && s2 == [a.(quantity := 2)]
            && s3 == s1 && s4 == s1 && s5 == s1
  {
  }
}
