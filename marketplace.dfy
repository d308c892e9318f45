/** The marketplace: producers publish units of products, consumers move
    them into carts and check the carts out. Every operation is one atomic
    step on the object's fields (the locks and the logging of the
    original are not modelled).
 */
module Market {
  import opened Batches
  import opened Tables

  /** What `remove_from_cart` does. `EmptyEntry` stands for the IndexError
      raised when the product is a key of the cart whose pair list has
      become empty: nothing is changed. */
  datatype Removal = Removed | NotInCart | EmptyEntry

  class Marketplace<P(==)> {
    /** The most units one producer may have in circulation. */
    const queueSizePerProducer: nat
    var numCarts: nat
    var numProducers: nat
    /** Per producer id: its units in circulation (in the inventory or in an open cart). */
    var productsPerProducer: seq<int>
    /** Open carts by id. */
    var carts: map<nat, Table<P>>
    /** The inventory: what is on offer, per product and producer. */
    var products: Table<P>

    /** The object invariant: well-formed tables over registered producers,
        fresh cart ids above every open cart, the capacity bound, and the
        conservation of each producer's units in circulation. */
    ghost predicate Valid()
      reads this
    {
      |productsPerProducer| == numProducers &&
      IsInventory(products, numProducers) &&
      (forall c :: c in carts ==> c < numCarts && WellFormedTable(carts[c], numProducers)) &&
      (forall p :: 0 <= p < numProducers ==> productsPerProducer[p] <= queueSizePerProducer) &&
      (forall p :: 0 <= p < numProducers ==>
         productsPerProducer[p] == TableUnits(products, p) + CartsUnits(carts, numCarts, p))
    }

    constructor (queueSizePerProducer: nat)
      ensures Valid()
      ensures this.queueSizePerProducer == queueSizePerProducer
      ensures numCarts == 0 && numProducers == 0
      ensures productsPerProducer == [] && carts == map[] && products == []
    {
      this.queueSizePerProducer := queueSizePerProducer;
      numCarts := 0;
      numProducers := 0;
      productsPerProducer := [];
      carts := map[];
      products := [];
    }

    /** Hands out the next producer id, with nothing yet in circulation. */
    method RegisterProducer() returns (producerId: nat)
      requires Valid()
      modifies this
      ensures Valid()
      ensures producerId == old(numProducers) && numProducers == old(numProducers) + 1
      ensures productsPerProducer == old(productsPerProducer) + [0]
      ensures numCarts == old(numCarts) && carts == old(carts) && products == old(products)
    {
      producerId := numProducers;
      numProducers := numProducers + 1;
      productsPerProducer := productsPerProducer + [0];
      WellFormedTableWiden(products, producerId, numProducers);
      forall c | c in carts
        ensures WellFormedTable(carts[c], numProducers)
      {
        WellFormedTableWiden(carts[c], producerId, numProducers);
      }
      TableUnitsUnregistered(products, producerId, producerId);
      CartsUnitsUnregistered(carts, numCarts, producerId, producerId);
    }

    /** Puts one unit of `product` from `producerId` into the inventory:
        the producer's count is incremented, or created at 1. */
    method AddProduct(producerId: nat, product: P)
      requires producerId < numProducers && IsInventory(products, numProducers)
      modifies this`products
      ensures products == Stock(old(products), product, producerId)
      ensures IsInventory(products, numProducers)
    {
      StockWellFormed(products, product, producerId, numProducers);
      products := Stock(products, product, producerId);
    }

    /** Accepts a unit only while the producer is below its capacity. */
    method Publish(producerId: nat, product: P) returns (ok: bool)
      requires Valid() && producerId < numProducers
      modifies this
      ensures Valid()
      ensures ok == (old(productsPerProducer[producerId]) < queueSizePerProducer)
      ensures ok ==> productsPerProducer == old(productsPerProducer)[producerId := old(productsPerProducer[producerId]) + 1]
      ensures ok ==> products == Stock(old(products), product, producerId)
      ensures !ok ==> productsPerProducer == old(productsPerProducer) && products == old(products)
      ensures numProducers == old(numProducers) && numCarts == old(numCarts) && carts == old(carts)
    {
      if productsPerProducer[producerId] < queueSizePerProducer {
        productsPerProducer := productsPerProducer[producerId := productsPerProducer[producerId] + 1];
        ghost var before := products;
        AddProduct(producerId, product);
        forall p | 0 <= p < numProducers
          ensures productsPerProducer[p] == TableUnits(products, p) + CartsUnits(carts, numCarts, p)
        {
          StockUnits(before, product, producerId, p);
        }
        ok := true;
      } else {
        ok := false;
      }
    }

    /** Opens an empty cart under the next cart id. */
    method NewCart() returns (cartId: nat)
      requires Valid()
      modifies this
      ensures Valid()
      ensures cartId == old(numCarts) && cartId !in old(carts) && numCarts == old(numCarts) + 1
      ensures carts == old(carts)[cartId := []]
      ensures numProducers == old(numProducers) && productsPerProducer == old(productsPerProducer)
      ensures products == old(products)
    {
      cartId := numCarts;
      forall p | 0 <= p < numProducers
        ensures CartsUnits(carts[cartId := []], cartId + 1, p) == CartsUnits(carts, cartId, p)
      {
        CartsUnitsOpen(carts, cartId, p);
      }
      carts := carts[cartId := []];
      numCarts := numCarts + 1;
    }

    /** Moves one unit of `product` from its first producer in the
        inventory into the cart; fails, changing nothing, when the
        product is not on offer. */
    method AddToCart(cartId: nat, product: P) returns (ok: bool)
      requires Valid() && cartId in carts
      modifies this
      ensures Valid()
      ensures ok == Contains(old(products), product)
      ensures ok ==> products == Take(old(products), product)
      ensures ok ==> carts == old(carts)[cartId := Stock(old(carts)[cartId], product, FirstProducer(old(products), product))]
      ensures ok ==> forall q, r :: Count(products, q, r) + Count(carts[cartId], q, r)
                                 == Count(old(products), q, r) + Count(old(carts)[cartId], q, r)
      ensures !ok ==> products == old(products) && carts == old(carts)
      ensures productsPerProducer == old(productsPerProducer)
      ensures numProducers == old(numProducers) && numCarts == old(numCarts)
    {
      if !Contains(products, product) {
        return false;
      }
      var producerId := FirstProducer(products, product);
      ghost var inventory := products;
      products := Take(products, product);
      TakeInventory(inventory, product, numProducers);

      var cart := carts[cartId];
      var k := FindLine(cart, product);
      var cart' := cart;
      if k == |cart| {
        cart' := cart + [Line(product, [Batch(producerId, 1)])];
      } else {
        var coalesced := Coalesce(cart[k].batches, producerId);
        cart' := cart[k := Line(product, coalesced)];
      }
      assert cart' == Stock(cart, product, producerId);
      StockWellFormed(cart, product, producerId, numProducers);
      forall p | 0 <= p < numProducers
        ensures productsPerProducer[p] == TableUnits(products, p) + CartsUnits(carts[cartId := cart'], numCarts, p)
      {
        TakeUnits(inventory, product, p);
        StockUnits(cart, product, producerId, p);
        CartsUnitsUpdate(carts, numCarts, cartId, cart', p);
      }
      carts := carts[cartId := cart'];
      forall q, r
        ensures Count(products, q, r) + Count(carts[cartId], q, r) == Count(inventory, q, r) + Count(cart, q, r)
      {
        TakeCount(inventory, product, q, r);
        StockCount(cart, product, producerId, q, r);
      }
      ok := true;
    }

    /** Moves one unit of `product` from the cart's first pair for it back
        into the inventory under that pair's producer; capacity is not
        released. */
    method RemoveFromCart(cartId: nat, product: P) returns (outcome: Removal)
      requires Valid() && cartId in carts
      modifies this
      ensures Valid()
      ensures outcome == (if !Contains(old(carts)[cartId], product) then NotInCart
                          else if Entry(old(carts)[cartId], product) == [] then EmptyEntry
                          else Removed)
      ensures outcome == Removed ==>
                carts == old(carts)[cartId := Withdraw(old(carts)[cartId], product)] &&
                products == Stock(old(products), product, FirstProducer(old(carts)[cartId], product))
      ensures outcome == Removed ==> forall q, r :: Count(products, q, r) + Count(carts[cartId], q, r)
                                                 == Count(old(products), q, r) + Count(old(carts)[cartId], q, r)
      ensures outcome != Removed ==> carts == old(carts) && products == old(products)
      ensures productsPerProducer == old(productsPerProducer)
      ensures numProducers == old(numProducers) && numCarts == old(numCarts)
    {
      var cart := carts[cartId];
      if !Contains(cart, product) {
        return NotInCart;
      }
      if Entry(cart, product) == [] {
        return EmptyEntry;
      }
      var k := FindLine(cart, product);
      assert WellFormed(cart[k].batches, numProducers);
      var producerId := FirstProducer(cart, product);
      var cart' := Withdraw(cart, product);
      WithdrawWellFormed(cart, product, numProducers);
      ghost var inventory := products;
      carts := carts[cartId := cart'];
      AddProduct(producerId, product);
      forall p | 0 <= p < numProducers
        ensures productsPerProducer[p] == TableUnits(products, p) + CartsUnits(carts, numCarts, p)
      {
        WithdrawUnits(cart, product, p);
        StockUnits(inventory, product, producerId, p);
        CartsUnitsUpdate(old(carts), numCarts, cartId, cart', p);
      }
      forall q, r
        ensures Count(products, q, r) + Count(cart', q, r) == Count(inventory, q, r) + Count(cart, q, r)
      {
        WithdrawCount(cart, product, q, r);
        StockCount(inventory, product, producerId, q, r);
      }
      outcome := Removed;
    }

    /** Checks the cart out: returns its products, one entry per unit, in
        the cart's order; releases the capacity of each producer by its
        units in the cart; deletes the cart. */
    method PlaceOrder(cartId: nat) returns (cartList: seq<P>)
      requires Valid() && cartId in carts
      modifies this
      ensures Valid()
      ensures cartList == Flatten(old(carts)[cartId])
      ensures |cartList| == TableTotal(old(carts)[cartId])
      ensures |productsPerProducer| == |old(productsPerProducer)|
      ensures forall p :: 0 <= p < |productsPerProducer| ==>
                productsPerProducer[p] == old(productsPerProducer)[p] - TableUnits(old(carts)[cartId], p)
      ensures carts == old(carts) - {cartId}
      ensures products == old(products)
      ensures numProducers == old(numProducers) && numCarts == old(numCarts)
    {
      var cart := carts[cartId];
      var counts;
      counts, cartList := EmitTable(cart, productsPerProducer, []);
      FlattenLength(cart);
      forall p | 0 <= p < numProducers
        ensures counts[p] == TableUnits(products, p) + CartsUnits(carts - {cartId}, numCarts, p)
      {
        CartsUnitsRemove(carts, numCarts, cartId, p);
      }
      productsPerProducer := counts;
      carts := carts - {cartId};
    }
  }

  /** The outer loop of `place_order`: every product line of the cart, in
      the cart's order. */
  method EmitTable<P>(t: Table<P>, counts: seq<int>, list: seq<P>) returns (counts': seq<int>, list': seq<P>)
    requires forall i, j :: 0 <= i < |t| && 0 <= j < |t[i].batches| ==> t[i].batches[j].producer < |counts|
    ensures list' == list + Flatten(t)
    ensures |counts'| == |counts|
    ensures forall p :: 0 <= p < |counts| ==> counts'[p] == counts[p] - TableUnits(t, p)
  {
    counts', list' := counts, list;
    var i := 0;
    while i < |t|
      invariant 0 <= i <= |t|
      invariant list' == list + Flatten(t[..i])
      invariant |counts'| == |counts|
      invariant forall p :: 0 <= p < |counts| ==> counts'[p] == counts[p] - TableUnits(t[..i], p)
    {
      counts', list' := EmitLine(t[i].product, t[i].batches, counts', list');
      FlattenPrefix(t, i);
      forall p | 0 <= p < |counts|
        ensures TableUnits(t[..i + 1], p) == TableUnits(t[..i], p) + Units(t[i].batches, p)
      {
        TableUnitsPrefix(t, i, p);
      }
      i := i + 1;
    }
    assert t[..i] == t;
  }

  /** The middle loop of `place_order`: every pair of one product's list,
      in list order. */
  method EmitLine<P>(x: P, bs: seq<Batch>, counts: seq<int>, list: seq<P>) returns (counts': seq<int>, list': seq<P>)
    requires forall i :: 0 <= i < |bs| ==> bs[i].producer < |counts|
    ensures list' == list + Emit(x, bs)
    ensures |counts'| == |counts|
    ensures forall p :: 0 <= p < |counts| ==> counts'[p] == counts[p] - Units(bs, p)
  {
    counts', list' := counts, list;
    var j := 0;
    while j < |bs|
      invariant 0 <= j <= |bs|
      invariant list' == list + Emit(x, bs[..j])
      invariant |counts'| == |counts|
      invariant forall p :: 0 <= p < |counts| ==> counts'[p] == counts[p] - Units(bs[..j], p)
    {
      counts', list' := EmitBatch(x, bs[j], counts', list');
      assert bs[..j + 1] == bs[..j] + [bs[j]];
      EmitAppend(x, bs[..j], [bs[j]]);
      assert Emit(x, [bs[j]]) == Repeat(x, bs[j].count) + Emit(x, [bs[j]][1..]);
      forall p | 0 <= p < |counts|
        ensures Units(bs[..j + 1], p) == Units(bs[..j], p) + UnitsOf(bs[j], p)
      {
        UnitsAppend(bs[..j], [bs[j]], p);
        assert Units([bs[j]], p) == UnitsOf(bs[j], p) + Units([bs[j]][1..], p);
      }
      j := j + 1;
    }
    assert bs[..j] == bs;
  }

  /** The inner loop of `place_order`: the product is emitted once per unit
      of the pair and the pair's producer is debited one unit per entry. */
  method EmitBatch<P>(x: P, b: Batch, counts: seq<int>, list: seq<P>) returns (counts': seq<int>, list': seq<P>)
    requires b.producer < |counts|
    ensures list' == list + Repeat(x, b.count)
    ensures |counts'| == |counts|
    ensures forall p :: 0 <= p < |counts| ==> counts'[p] == counts[p] - UnitsOf(b, p)
  {
    counts', list' := counts, list;
    var u := 0;
    while u < b.count
      invariant 0 <= u <= b.count
      invariant list' == list + Repeat(x, u)
      invariant |counts'| == |counts|
      invariant forall p :: 0 <= p < |counts| ==> counts'[p] == counts[p] - (if p == b.producer then u else 0)
    {
      counts' := counts'[b.producer := counts'[b.producer] - 1];
      list' := list' + [x];
      u := u + 1;
    }
  }
}
