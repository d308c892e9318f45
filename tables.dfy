/** Product tables.

    Both the inventory table (`products`: product -> producer -> count) and
    every cart (product -> list of [producer_id, count] pairs) map a product
    to a per-producer unit list, in the order the products were first
    inserted. A table is modelled as a sequence of lines, one per product.
 */
module Tables {
  import opened Batches

  /** The entry of one product: its per-producer unit list. */
  datatype Line<P> = Line(product: P, batches: seq<Batch>)

  type Table<P> = seq<Line<P>>

  /** No product has two lines (a dictionary has each key once). */
  predicate DistinctProducts<P(==)>(t: Table<P>) {
    forall i, j :: 0 <= i < j < |t| ==> t[i].product != t[j].product
  }

  /** The shape every cart keeps: one line per product and well-formed
      unit lists from the first `n` producers. A line may be empty. */
  predicate WellFormedTable<P(==)>(t: Table<P>, n: nat) {
    DistinctProducts(t) && forall i :: 0 <= i < |t| ==> WellFormed(t[i].batches, n)
  }

  /** The shape the inventory keeps besides: a product with no producer left has no line. */
  predicate IsInventory<P(==)>(t: Table<P>, n: nat) {
    WellFormedTable(t, n) && forall i :: 0 <= i < |t| ==> t[i].batches != []
  }

  /** Position of the line of `product`, or `|t|` when the product is not a key. */
  function FindLine<P(==)>(t: Table<P>, product: P): (k: nat)
    ensures k <= |t|
    ensures k < |t| ==> t[k].product == product
    ensures forall j :: 0 <= j < k ==> t[j].product != product
  {
    if t == [] then 0
    else if t[0].product == product then 0
    else 1 + FindLine(t[1..], product)
  }

  /** `product` is a key of the table (the dictionary's `get` is not None). */
  predicate Contains<P(==)>(t: Table<P>, product: P) {
    FindLine(t, product) < |t|
  }

  /** The unit list stored under `product`. */
  function Entry<P(==)>(t: Table<P>, product: P): seq<Batch>
    requires Contains(t, product)
  {
    t[FindLine(t, product)].batches
  }

  /** One unit of `product` from `pid` is added: to the product's line when
      it has one, otherwise in a new line at the end. This is `add_product`
      on the inventory and the cart half of `add_to_cart`. */
  function Stock<P(==)>(t: Table<P>, product: P, pid: nat): Table<P> {
    var k := FindLine(t, product);
    if k < |t| then t[k := Line(product, Bump(t[k].batches, pid))]
    else t + [Line(product, [Batch(pid, 1)])]
  }

  /** `product` has a first unit to hand out. */
  predicate CanDraw<P(==)>(t: Table<P>, product: P) {
    Contains(t, product) && Entry(t, product) != [] && 1 <= Entry(t, product)[0].count
  }

  /** The producer whose unit is handed out next: the first key of the line. */
  function FirstProducer<P(==)>(t: Table<P>, product: P): nat
    requires CanDraw(t, product)
  {
    Entry(t, product)[0].producer
  }

  /** The inventory half of `add_to_cart`: one unit of the first producer
      is taken; its entry goes once empty, and the product's line goes
      once it has no producer left. */
  function Take<P(==)>(t: Table<P>, product: P): Table<P>
    requires CanDraw(t, product)
  {
    var k := FindLine(t, product);
    var rest := DropOne(t[k].batches);
    if rest == [] then t[..k] + t[k + 1..] else t[k := Line(product, rest)]
  }

  /** The cart half of `remove_from_cart`: one unit of the first pair is
      taken and the pair goes once empty; the product's line stays, even
      when it becomes empty. */
  function Withdraw<P(==)>(t: Table<P>, product: P): Table<P>
    requires CanDraw(t, product)
  {
    var k := FindLine(t, product);
    t[k := Line(product, DropOne(t[k].batches))]
  }

  /** The units of (`q`, `r`) in the table: producer `r`'s units of product `q`. */
  function Count<P(==)>(t: Table<P>, q: P, r: nat): nat {
    if t == [] then 0
    else (if t[0].product == q then Units(t[0].batches, r) else 0) + Count(t[1..], q, r)
  }

  /** Producer `r`'s units over all products of the table. */
  function TableUnits<P>(t: Table<P>, r: nat): nat {
    if t == [] then 0 else Units(t[0].batches, r) + TableUnits(t[1..], r)
  }

  /** All units of the table. */
  function TableTotal<P>(t: Table<P>): nat {
    if t == [] then 0 else Total(t[0].batches) + TableTotal(t[1..])
  }

  /** All units of product `x` in the table, whoever produced them. */
  function Quantity<P(==)>(t: Table<P>, x: P): nat {
    if t == [] then 0
    else (if t[0].product == x then Total(t[0].batches) else 0) + Quantity(t[1..], x)
  }

  /** `n` copies of `x`. */
  function Repeat<P>(x: P, n: nat): seq<P> {
    if n == 0 then [] else Repeat(x, n - 1) + [x]
  }

  /** `x` once per unit of each batch, batch by batch. */
  function Emit<P>(x: P, bs: seq<Batch>): seq<P> {
    if bs == [] then [] else Repeat(x, bs[0].count) + Emit(x, bs[1..])
  }

  /** The checkout list of a cart: line by line, in the cart's product
      order, each product emitted once per unit of each of its pairs. */
  function Flatten<P>(t: Table<P>): seq<P> {
    if t == [] then [] else Emit(t[0].product, t[0].batches) + Flatten(t[1..])
  }

  /** Producer `p`'s units over the open carts whose ids are below `n`. */
  function CartsUnits<P>(carts: map<nat, Table<P>>, n: nat, p: nat): nat {
    if n == 0 then 0
    else CartsUnits(carts, n - 1, p) + (if n - 1 in carts then TableUnits(carts[n - 1], p) else 0)
  }

  // ----- sums over concatenations and single-line changes -----

  lemma {:induction false} CountAppend<P>(a: Table<P>, b: Table<P>, q: P, r: nat)
    ensures Count(a + b, q, r) == Count(a, q, r) + Count(b, q, r)
  {
    if a == [] {
      assert a + b == b;
    } else {
      assert (a + b)[1..] == a[1..] + b;
      CountAppend(a[1..], b, q, r);
    }
  }

  lemma {:induction false} TableUnitsAppend<P>(a: Table<P>, b: Table<P>, r: nat)
    ensures TableUnits(a + b, r) == TableUnits(a, r) + TableUnits(b, r)
  {
    if a == [] {
      assert a + b == b;
    } else {
      assert (a + b)[1..] == a[1..] + b;
      TableUnitsAppend(a[1..], b, r);
    }
  }

  lemma {:induction false} FlattenAppend<P>(a: Table<P>, b: Table<P>)
    ensures Flatten(a + b) == Flatten(a) + Flatten(b)
  {
    if a == [] {
      assert a + b == b;
    } else {
      assert (a + b)[1..] == a[1..] + b;
      FlattenAppend(a[1..], b);
    }
  }

  /** Extending a prefix of a table by its next line appends that line's emission. */
  lemma FlattenPrefix<P>(t: Table<P>, i: nat)
    requires i < |t|
    ensures Flatten(t[..i + 1]) == Flatten(t[..i]) + Emit(t[i].product, t[i].batches)
  {
    assert t[..i + 1] == t[..i] + [t[i]];
    FlattenAppend(t[..i], [t[i]]);
    assert [t[i]][1..] == [];
  }

  /** Extending a prefix of a table by its next line adds that line's units. */
  lemma TableUnitsPrefix<P>(t: Table<P>, i: nat, r: nat)
    requires i < |t|
    ensures TableUnits(t[..i + 1], r) == TableUnits(t[..i], r) + Units(t[i].batches, r)
  {
    assert t[..i + 1] == t[..i] + [t[i]];
    TableUnitsAppend(t[..i], [t[i]], r);
    assert TableUnits([t[i]], r) == Units(t[i].batches, r) + TableUnits([t[i]][1..], r);
  }

  lemma {:induction false} EmitAppend<P>(x: P, a: seq<Batch>, b: seq<Batch>)
    ensures Emit(x, a + b) == Emit(x, a) + Emit(x, b)
  {
    if a == [] {
      assert a + b == b;
    } else {
      assert (a + b)[1..] == a[1..] + b;
      EmitAppend(x, a[1..], b);
    }
  }

  /** Count of a table split around line `k`. */
  lemma CountSplit<P>(t: Table<P>, k: nat, q: P, r: nat)
    requires k < |t|
    ensures Count(t, q, r)
         == Count(t[..k], q, r) + (if t[k].product == q then Units(t[k].batches, r) else 0) + Count(t[k + 1..], q, r)
  {
    assert t == t[..k] + [t[k]] + t[k + 1..];
    CountAppend(t[..k] + [t[k]], t[k + 1..], q, r);
    CountAppend(t[..k], [t[k]], q, r);
  }

  lemma TableUnitsSplit<P>(t: Table<P>, k: nat, r: nat)
    requires k < |t|
    ensures TableUnits(t, r) == TableUnits(t[..k], r) + Units(t[k].batches, r) + TableUnits(t[k + 1..], r)
  {
    assert t == t[..k] + [t[k]] + t[k + 1..];
    TableUnitsAppend(t[..k] + [t[k]], t[k + 1..], r);
    TableUnitsAppend(t[..k], [t[k]], r);
  }

  /** Replacing line `k` by a line of the same product. */
  lemma CountUpdate<P>(t: Table<P>, k: nat, bs: seq<Batch>, q: P, r: nat)
    requires k < |t|
    ensures Count(t[k := Line(t[k].product, bs)], q, r)
         == Count(t, q, r) - (if t[k].product == q then Units(t[k].batches, r) else 0)
            + (if t[k].product == q then Units(bs, r) else 0)
  {
    var t' := t[k := Line(t[k].product, bs)];
    assert t'[..k] == t[..k] && t'[k + 1..] == t[k + 1..];
    CountSplit(t, k, q, r);
    CountSplit(t', k, q, r);
  }

  lemma TableUnitsUpdate<P>(t: Table<P>, k: nat, l: Line<P>, r: nat)
    requires k < |t|
    ensures TableUnits(t[k := l], r) == TableUnits(t, r) - Units(t[k].batches, r) + Units(l.batches, r)
  {
    var t' := t[k := l];
    assert t'[..k] == t[..k] && t'[k + 1..] == t[k + 1..];
    TableUnitsSplit(t, k, r);
    TableUnitsSplit(t', k, r);
  }

  /** Deleting line `k`. */
  lemma CountDelete<P>(t: Table<P>, k: nat, q: P, r: nat)
    requires k < |t|
    ensures Count(t[..k] + t[k + 1..], q, r)
         == Count(t, q, r) - (if t[k].product == q then Units(t[k].batches, r) else 0)
  {
    CountSplit(t, k, q, r);
    CountAppend(t[..k], t[k + 1..], q, r);
  }

  lemma TableUnitsDelete<P>(t: Table<P>, k: nat, r: nat)
    requires k < |t|
    ensures TableUnits(t[..k] + t[k + 1..], r) == TableUnits(t, r) - Units(t[k].batches, r)
  {
    TableUnitsSplit(t, k, r);
    TableUnitsAppend(t[..k], t[k + 1..], r);
  }

  // ----- add_product / the cart half of add_to_cart -----

  /** Exactly one unit is added to (`product`, `pid`); every other
      (product, producer) count is unchanged. */
  lemma StockCount<P>(t: Table<P>, product: P, pid: nat, q: P, r: nat)
    ensures Count(Stock(t, product, pid), q, r) == Count(t, q, r) + (if q == product && r == pid then 1 else 0)
  {
    var k := FindLine(t, product);
    if k < |t| {
      CountUpdate(t, k, Bump(t[k].batches, pid), q, r);
      BumpUnits(t[k].batches, pid, r);
    } else {
      var l := Line(product, [Batch(pid, 1)]);
      CountAppend(t, [l], q, r);
      assert Count([l], q, r) == (if q == product && r == pid then 1 else 0) by {
        assert [l][1..] == [];
        assert [Batch(pid, 1)][1..] == [];
        assert Units(l.batches, r) == UnitsOf(Batch(pid, 1), r) + Units([], r);
      }
    }
  }

  /** Producer `pid` gains exactly one unit over the table; nobody else changes. */
  lemma StockUnits<P>(t: Table<P>, product: P, pid: nat, r: nat)
    ensures TableUnits(Stock(t, product, pid), r) == TableUnits(t, r) + (if r == pid then 1 else 0)
  {
    var k := FindLine(t, product);
    if k < |t| {
      TableUnitsUpdate(t, k, Line(product, Bump(t[k].batches, pid)), r);
      BumpUnits(t[k].batches, pid, r);
    } else {
      var l := Line(product, [Batch(pid, 1)]);
      TableUnitsAppend(t, [l], r);
      assert TableUnits([l], r) == (if r == pid then 1 else 0) by {
        assert [l][1..] == [];
        assert [Batch(pid, 1)][1..] == [];
        assert Units(l.batches, r) == UnitsOf(Batch(pid, 1), r) + Units([], r);
      }
    }
  }

  /** Adding a unit keeps one line per product and at most one pair per
      producer with positive counts; the product is a key afterwards;
      an inventory stays an inventory. */
  lemma StockWellFormed<P>(t: Table<P>, product: P, pid: nat, n: nat)
    requires WellFormedTable(t, n) && pid < n
    ensures WellFormedTable(Stock(t, product, pid), n)
    ensures Contains(Stock(t, product, pid), product)
    ensures IsInventory(t, n) ==> IsInventory(Stock(t, product, pid), n)
  {
    var k := FindLine(t, product);
    var t' := Stock(t, product, pid);
    if k < |t| {
      BumpWellFormed(t[k].batches, pid, n);
      assert forall i :: 0 <= i < |t| ==> t'[i].product == t[i].product;
      assert FindLine(t', product) == k;
    } else {
      assert forall i :: 0 <= i < |t| ==> t'[i] == t[i];
      assert WellFormed(t'[|t|].batches, n);
      assert FindLine(t', product) == |t| by {
        assert forall j :: 0 <= j < |t| ==> t'[j].product != product;
      }
    }
  }

  // ----- the inventory half of add_to_cart -----

  /** Exactly one unit of (`product`, first producer) is taken; every
      other (product, producer) count is unchanged. */
  lemma TakeCount<P>(t: Table<P>, product: P, q: P, r: nat)
    requires CanDraw(t, product)
    ensures Count(Take(t, product), q, r)
         == Count(t, q, r) - (if q == product && r == FirstProducer(t, product) then 1 else 0)
  {
    var k := FindLine(t, product);
    var rest := DropOne(t[k].batches);
    DropOneUnits(t[k].batches, r);
    if rest == [] {
      CountDelete(t, k, q, r);
    } else {
      CountUpdate(t, k, rest, q, r);
    }
  }

  /** The first producer loses exactly one unit over the table; nobody else changes. */
  lemma TakeUnits<P>(t: Table<P>, product: P, r: nat)
    requires CanDraw(t, product)
    ensures TableUnits(Take(t, product), r) == TableUnits(t, r) - (if r == FirstProducer(t, product) then 1 else 0)
  {
    var k := FindLine(t, product);
    var rest := DropOne(t[k].batches);
    DropOneUnits(t[k].batches, r);
    if rest == [] {
      TableUnitsDelete(t, k, r);
    } else {
      TableUnitsUpdate(t, k, Line(product, rest), r);
    }
  }

  /** Taking a unit keeps an inventory an inventory: every count stays
      positive and no product key is left without producers. */
  lemma TakeInventory<P>(t: Table<P>, product: P, n: nat)
    requires IsInventory(t, n) && Contains(t, product)
    ensures IsInventory(Take(t, product), n)
  {
    var k := FindLine(t, product);
    var rest := DropOne(t[k].batches);
    var t' := Take(t, product);
    DropOneWellFormed(t[k].batches, n);
    if rest == [] {
      assert forall i :: 0 <= i < |t'| ==> t'[i] == if i < k then t[i] else t[i + 1];
    } else {
      assert forall i :: 0 <= i < |t'| ==> t'[i].product == t[i].product;
    }
  }

  /** The product stays a key of the inventory exactly when more than one
      of its units was on offer. */
  lemma TakeKeepsKey<P>(t: Table<P>, product: P, n: nat)
    requires IsInventory(t, n) && Contains(t, product)
    ensures Contains(Take(t, product), product) <==> 1 < Total(Entry(t, product))
  {
    var k := FindLine(t, product);
    var bs := t[k].batches;
    var rest := DropOne(bs);
    var t' := Take(t, product);
    DropOneUnits(bs, 0);
    if rest == [] {
      assert Total(rest) == 0;
      assert forall j :: 0 <= j < |t'| ==> t'[j].product != product by {
        forall j | 0 <= j < |t'| ensures t'[j].product != product {
          if j < k {
            assert t'[j] == t[j];
          } else {
            assert t'[j] == t[j + 1];
          }
        }
      }
    } else {
      assert rest[0].count >= 1;
      assert Total(rest) >= 1 by {
        assert Total(rest) == rest[0].count + Total(rest[1..]);
      }
      assert forall i :: 0 <= i < |t'| ==> t'[i].product == t[i].product;
      assert FindLine(t', product) == k;
    }
  }

  // ----- the cart half of remove_from_cart -----

  /** Exactly one unit of (`product`, first pair's producer) leaves the cart. */
  lemma WithdrawCount<P>(t: Table<P>, product: P, q: P, r: nat)
    requires CanDraw(t, product)
    ensures Count(Withdraw(t, product), q, r)
         == Count(t, q, r) - (if q == product && r == FirstProducer(t, product) then 1 else 0)
  {
    var k := FindLine(t, product);
    DropOneUnits(t[k].batches, r);
    CountUpdate(t, k, DropOne(t[k].batches), q, r);
  }

  lemma WithdrawUnits<P>(t: Table<P>, product: P, r: nat)
    requires CanDraw(t, product)
    ensures TableUnits(Withdraw(t, product), r) == TableUnits(t, r) - (if r == FirstProducer(t, product) then 1 else 0)
  {
    var k := FindLine(t, product);
    DropOneUnits(t[k].batches, r);
    TableUnitsUpdate(t, k, Line(product, DropOne(t[k].batches)), r);
  }

  /** Withdrawing keeps a cart well formed, and the product stays a key. */
  lemma WithdrawWellFormed<P>(t: Table<P>, product: P, n: nat)
    requires WellFormedTable(t, n) && Contains(t, product) && Entry(t, product) != []
    ensures WellFormedTable(Withdraw(t, product), n)
    ensures Contains(Withdraw(t, product), product)
  {
    var k := FindLine(t, product);
    var t' := Withdraw(t, product);
    DropOneWellFormed(t[k].batches, n);
    assert forall i :: 0 <= i < |t'| ==> t'[i].product == t[i].product;
    assert FindLine(t', product) == k;
  }

  // ----- place_order -----

  lemma {:induction false} EmitLength<P>(x: P, bs: seq<Batch>)
    ensures |Emit(x, bs)| == Total(bs)
  {
    if bs != [] {
      RepeatLength(x, bs[0].count);
      EmitLength(x, bs[1..]);
    }
  }

  lemma {:induction false} RepeatLength<P>(x: P, n: nat)
    ensures |Repeat(x, n)| == n
    ensures multiset(Repeat(x, n))[x] == n
    ensures forall y :: y != x ==> multiset(Repeat(x, n))[y] == 0
  {
    if n > 0 {
      RepeatLength(x, n - 1);
    }
  }

  /** The checkout list holds one entry per unit of the cart. */
  lemma {:induction false} FlattenLength<P>(t: Table<P>)
    ensures |Flatten(t)| == TableTotal(t)
  {
    if t != [] {
      EmitLength(t[0].product, t[0].batches);
      FlattenLength(t[1..]);
    }
  }

  lemma {:induction false} EmitMultiplicity<P>(x: P, bs: seq<Batch>, y: P)
    ensures multiset(Emit(x, bs))[y] == if y == x then Total(bs) else 0
  {
    if bs != [] {
      RepeatLength(x, bs[0].count);
      EmitMultiplicity(x, bs[1..], y);
    }
  }

  /** Each product appears in the checkout list as often as the cart holds units of it. */
  lemma {:induction false} FlattenMultiplicity<P>(t: Table<P>, x: P)
    ensures multiset(Flatten(t))[x] == Quantity(t, x)
  {
    if t != [] {
      EmitMultiplicity(t[0].product, t[0].batches, x);
      FlattenMultiplicity(t[1..], x);
    }
  }

  // ----- the open carts -----

  /** Only the carts below `n` matter. */
  lemma {:induction false} CartsUnitsAgree<P>(a: map<nat, Table<P>>, b: map<nat, Table<P>>, n: nat, p: nat)
    requires forall c :: c < n ==> (c in a <==> c in b)
    requires forall c :: c < n && c in a ==> a[c] == b[c]
    ensures CartsUnits(a, n, p) == CartsUnits(b, n, p)
  {
    if n > 0 {
      CartsUnitsAgree(a, b, n - 1, p);
    }
  }

  /** A new, empty cart under id `n` holds nothing. */
  lemma CartsUnitsOpen<P>(carts: map<nat, Table<P>>, n: nat, p: nat)
    requires forall c :: c in carts ==> c < n
    ensures CartsUnits(carts[n := []], n + 1, p) == CartsUnits(carts, n, p)
  {
    CartsUnitsAgree(carts[n := []], carts, n, p);
  }

  /** Changing cart `c` changes the sum by the difference of its two versions. */
  lemma {:induction false} CartsUnitsUpdate<P>(carts: map<nat, Table<P>>, n: nat, c: nat, t: Table<P>, p: nat)
    requires c in carts && c < n
    ensures CartsUnits(carts[c := t], n, p) == CartsUnits(carts, n, p) - TableUnits(carts[c], p) + TableUnits(t, p)
  {
    if c == n - 1 {
      CartsUnitsAgree(carts[c := t], carts, n - 1, p);
    } else {
      CartsUnitsUpdate(carts, n - 1, c, t, p);
    }
  }

  /** Deleting cart `c` removes exactly its units from the sum. */
  lemma {:induction false} CartsUnitsRemove<P>(carts: map<nat, Table<P>>, n: nat, c: nat, p: nat)
    requires c in carts && c < n
    ensures CartsUnits(carts - {c}, n, p) == CartsUnits(carts, n, p) - TableUnits(carts[c], p)
  {
    if c == n - 1 {
      CartsUnitsAgree(carts - {c}, carts, n - 1, p);
    } else {
      CartsUnitsRemove(carts, n - 1, c, p);
    }
  }

  // ----- producers that are not registered yet -----

  lemma {:induction false} TableUnitsUnregistered<P>(t: Table<P>, m: nat, p: nat)
    requires WellFormedTable(t, m) && m <= p
    ensures TableUnits(t, p) == 0
  {
    if t != [] {
      UnitsUnregistered(t[0].batches, m, p);
      TableUnitsUnregistered(t[1..], m, p);
    }
  }

  lemma {:induction false} CartsUnitsUnregistered<P>(carts: map<nat, Table<P>>, n: nat, m: nat, p: nat)
    requires forall c :: c in carts ==> WellFormedTable(carts[c], m)
    requires m <= p
    ensures CartsUnits(carts, n, p) == 0
  {
    if n > 0 {
      CartsUnitsUnregistered(carts, n - 1, m, p);
      if n - 1 in carts {
        TableUnitsUnregistered(carts[n - 1], m, p);
      }
    }
  }

  /** Admitting more producers keeps a table well formed. */
  lemma WellFormedTableWiden<P>(t: Table<P>, n: nat, m: nat)
    requires WellFormedTable(t, n) && n <= m
    ensures WellFormedTable(t, m)
    ensures IsInventory(t, n) ==> IsInventory(t, m)
  {
    forall i | 0 <= i < |t| {
      WellFormedWiden(t[i].batches, n, m);
    }
  }
}
