/** Client code: three short traces through the marketplace whose outcomes
    the verifier derives from the operation contracts alone. */
module Scenarios {
  import opened Batches
  import opened Tables
  import opened Market

  /** A producer of capacity 5 gets five units accepted and the sixth refused. */
  method CapacityIsEnforced() {
    var m := new Marketplace<string>(5);
    var p := m.RegisterProducer();
    var ok := m.Publish(p, "Cocoa");
    assert ok;
    ok := m.Publish(p, "Cocoa");
    assert ok;
    ok := m.Publish(p, "Cocoa");
    assert ok;
    ok := m.Publish(p, "Cocoa");
    assert ok;
    ok := m.Publish(p, "Cocoa");
    assert ok;
    ok := m.Publish(p, "Cocoa");
    assert !ok;
    assert m.productsPerProducer[p] == 5;
  }

  /** One producer publishes two units of Cocoa and one of Vanilla. */
  method CocoaAndVanilla() returns (m: Marketplace<string>, p: nat)
    ensures fresh(m) && m.Valid() && m.numProducers == 1 && p == 0
    ensures m.products == [Line("Cocoa", [Batch(p, 2)]), Line("Vanilla", [Batch(p, 1)])]
    ensures m.carts == map[] && m.numCarts == 0 && m.productsPerProducer == [3]
  {
    m := new Marketplace<string>(5);
    p := m.RegisterProducer();
    var ok := m.Publish(p, "Cocoa");
    assert m.products == [Line("Cocoa", [Batch(p, 1)])];
    ok := m.Publish(p, "Cocoa");
    assert Bump([Batch(p, 1)], p) == [Batch(p, 2)];
    ok := m.Publish(p, "Vanilla");
    assert "Cocoa" != "Vanilla" by { assert "Cocoa"[0] != "Vanilla"[0]; }
  }

  /** Two claims of Cocoa move both of its units into a new cart. */
  method CocoaInACart() returns (m: Marketplace<string>, p: nat, c: nat)
    ensures fresh(m) && m.Valid() && m.numProducers == 1 && p == 0
    ensures c in m.carts && m.carts[c] == [Line("Cocoa", [Batch(p, 2)])]
    ensures m.products == [Line("Vanilla", [Batch(p, 1)])] && m.productsPerProducer == [3]
  {
    m, p := CocoaAndVanilla();
    c := m.NewCart();
    var ok := m.AddToCart(c, "Cocoa");
    assert ok;
    assert DropOne([Batch(p, 2)]) == [Batch(p, 1)];
    assert m.products == [Line("Cocoa", [Batch(p, 1)]), Line("Vanilla", [Batch(p, 1)])];
    assert m.carts[c] == [Line("Cocoa", [Batch(p, 1)])];
    ok := m.AddToCart(c, "Cocoa");
    assert ok;
    assert Bump([Batch(p, 1)], p) == [Batch(p, 2)];
  }

  /** A third claim of Cocoa fails; the claim of Vanilla empties the inventory. */
  method CocoaAndVanillaInACart() returns (m: Marketplace<string>, p: nat, c: nat)
    ensures fresh(m) && m.Valid() && m.numProducers == 1 && p == 0
    ensures c in m.carts && m.carts[c] == [Line("Cocoa", [Batch(p, 2)]), Line("Vanilla", [Batch(p, 1)])]
    ensures m.products == [] && m.productsPerProducer == [3]
  {
    m, p, c := CocoaInACart();
    assert "Cocoa" != "Vanilla" by { assert "Cocoa"[0] != "Vanilla"[0]; }
    var ok := m.AddToCart(c, "Cocoa");
    assert !ok;
    ok := m.AddToCart(c, "Vanilla");
    assert ok;
  }

  /** Checkout returns the claimed units in the cart's order and releases
      the producer's capacity. */
  method CheckoutFlattensTheCart() {
    var m, p, c := CocoaAndVanillaInACart();
    var bought := m.PlaceOrder(c);
    var cart := [Line("Cocoa", [Batch(p, 2)]), Line("Vanilla", [Batch(p, 1)])];
    assert Emit("Cocoa", [Batch(p, 2)]) == ["Cocoa", "Cocoa"] by {
      assert [Batch(p, 2)][1..] == [];
    }
    assert Emit("Vanilla", [Batch(p, 1)]) == ["Vanilla"] by {
      assert [Batch(p, 1)][1..] == [];
    }
    assert Flatten(cart) == ["Cocoa", "Cocoa"] + Flatten(cart[1..]);
    assert Flatten(cart[1..]) == ["Vanilla"] + Flatten(cart[2..]);
    assert bought == ["Cocoa", "Cocoa", "Vanilla"];
    assert m.products == [];
    assert m.productsPerProducer == [0] by {
      assert TableUnits(cart, p) == 3 by {
        assert Units([Batch(p, 2)], p) == 2 by { assert [Batch(p, 2)][1..] == []; }
        assert Units([Batch(p, 1)], p) == 1 by { assert [Batch(p, 1)][1..] == []; }
        assert cart[1..][1..] == [];
      }
    }
  }

  /** Two producers publish one unit of Cocoa each. */
  method TwoCocoas() returns (m: Marketplace<string>, p0: nat, p1: nat)
    ensures fresh(m) && m.Valid() && m.numProducers == 2 && p0 == 0 && p1 == 1
    ensures m.carts == map[] && m.numCarts == 0
    ensures m.products == [Line("Cocoa", [Batch(p0, 1), Batch(p1, 1)])] && m.productsPerProducer == [1, 1]
  {
    m := new Marketplace<string>(5);
    p0 := m.RegisterProducer();
    p1 := m.RegisterProducer();
    var ok := m.Publish(p0, "Cocoa");
    assert m.products == [Line("Cocoa", [Batch(p0, 1)])];
    ok := m.Publish(p1, "Cocoa");
    assert Find([Batch(p0, 1)], p1) == 1 by { assert [Batch(p0, 1)][1..] == []; }
    assert Bump([Batch(p0, 1)], p1) == [Batch(p0, 1), Batch(p1, 1)];
  }

  /** A first claim takes the unit of the first producer. */
  method OneCocoaInACart() returns (m: Marketplace<string>, p0: nat, p1: nat, c: nat)
    ensures fresh(m) && m.Valid() && m.numProducers == 2 && p0 == 0 && p1 == 1
    ensures c in m.carts && m.carts[c] == [Line("Cocoa", [Batch(p0, 1)])]
    ensures m.products == [Line("Cocoa", [Batch(p1, 1)])] && m.productsPerProducer == [1, 1]
  {
    m, p0, p1 := TwoCocoas();
    c := m.NewCart();
    var ok := m.AddToCart(c, "Cocoa");
    assert DropOne([Batch(p0, 1), Batch(p1, 1)]) == [Batch(p1, 1)];
  }

  /** A second claim takes the other producer's unit and appends its pair. */
  method TwoCocoasInACart() returns (m: Marketplace<string>, p0: nat, p1: nat, c: nat)
    ensures fresh(m) && m.Valid() && m.numProducers == 2 && p0 == 0 && p1 == 1
    ensures c in m.carts && m.carts[c] == [Line("Cocoa", [Batch(p0, 1), Batch(p1, 1)])]
    ensures m.products == [] && m.productsPerProducer == [1, 1]
  {
    m, p0, p1, c := OneCocoaInACart();
    var ok := m.AddToCart(c, "Cocoa");
    assert Find([Batch(p0, 1)], p1) == 1 by { assert [Batch(p0, 1)][1..] == []; }
    assert Bump([Batch(p0, 1)], p1) == [Batch(p0, 1), Batch(p1, 1)];
  }

  /** Returning a unit from a cart puts it back under its own producer and
      leaves both producers' units in circulation unchanged. */
  method RemovalKeepsCapacity() {
    var m, p0, p1, c := TwoCocoasInACart();
    var outcome := m.RemoveFromCart(c, "Cocoa");
    assert outcome == Removed;
    assert m.products == [Line("Cocoa", [Batch(p0, 1)])];
    assert m.carts[c] == [Line("Cocoa", [Batch(p1, 1)])];
    assert m.productsPerProducer == [1, 1];
  }
}
