# Marketplace: a verified Dafny model

The marketplace is an in-memory exchange between producers and consumers.
Producers register, then publish units of products, each producer up to a
fixed number of units "in circulation" (`queue_size_per_producer`).
Consumers open carts, move units from the inventory into their cart and
back, and finally place the order, which returns the cart's products as a
flat list and frees the producers' capacity.

The model is a Dafny class `Market.Marketplace<P>` whose fields are the
attributes of the original class:

- `numProducers`, `numCarts`: the two id counters;
- `productsPerProducer`: per producer id, its units in circulation;
- `products`: the inventory, product -> (producer id -> positive count);
- `carts`: cart id -> (product -> list of (producer id, count) pairs);
- `queueSizePerProducer`: the capacity, fixed at construction.

Each method of the original is a method with `modifies this` that is
atomic and states its whole new state. Python dictionaries keep insertion
order, and the original depends on it: `add_to_cart` takes the first
producer key, and `place_order` walks the cart in insertion order. So the
inventory and each cart are sequences of `Line(product, batches)`, and the
per-product producer dictionary and the cart's pair list are both
sequences of `Batch(producer, count)` (module `Batches`). Deleting a key
removes its element; adding a key appends it at the end; incrementing a
key leaves it where it is. The carts dictionary itself is never iterated,
so it is a Dafny `map` from cart id to cart.

The object invariant `Valid()` says:

- every stored count is at least 1;
- a product key of the inventory always has a producer left;
- no product occurs twice in a table, and no producer twice in a list;
- every producer id stored anywhere is registered;
- every open cart id is below `numCarts`, so ids are never reused;
- every producer's units in circulation are within capacity;
- conservation: each producer's counter equals its units in the inventory
  plus its units in all open carts.

Every operation except the helper `AddProduct` keeps `Valid()`.
`AddProduct` adds an inventory unit without charging any counter, as
`add_product` does; it is called only from `Publish` and `RemoveFromCart`,
which keep `Valid()` around it. Publishing charges the counter. Adding to and
removing from a cart move a unit between the inventory and a cart without
touching the counter. Placing the order releases exactly the cart's units.

The methods are proved against pure functions in module `Tables`. These
are `Stock` (`add_product`, and the cart half of `add_to_cart`), `Take`
(the inventory half of `add_to_cart`), `Withdraw` (the cart half of
`remove_from_cart`) and `Flatten` (the list `place_order` returns). Lemmas
about those functions state the bookkeeping: exactly one unit of exactly
one (product, producer) changes, every other count stays the same, and
the shape of the tables is kept.

Module `Scenarios` holds client methods for three example traces:

- the capacity limit of a producer;
- a checkout that returns `["Cocoa", "Cocoa", "Vanilla"]`;
- a removal that returns a unit to the right producer without changing
  the counters.

The verifier derives their asserted outcomes from the method contracts.

The type of products is a type parameter with equality. The scenarios use `string`.

`remove_from_cart` never deletes the product's key from the cart when its
pair list empties (skel/tema/marketplace.py:165-171). A later removal of
that product indexes an empty list at line 168 and raises IndexError. The
model returns the outcome `EmptyEntry` there and changes nothing.

## Model

| member | source | states |
|---|---|---|
| `Batches.Find` | skel/tema/marketplace.py:143-146 | the position found is the first pair of the producer, or the end of the list when no pair has that producer |
| `Batches.Coalesce` | skel/tema/marketplace.py:143-148 | the for/else loop increments the producer's pair in place, or appends a one-unit pair when none matched; the result is `Bump` |
| `Batches.BumpUnits` | skel/tema/marketplace.py:65-68 | adding a unit credits exactly the given producer with exactly one unit; every other producer's units are unchanged |
| `Batches.BumpWellFormed` | skel/tema/marketplace.py:140-148 | after adding a unit the list still has at most one pair per producer, every count is at least 1, and the list is non-empty |
| `Batches.BumpInPlace` | skel/tema/marketplace.py:143-146 | when the producer already has a pair, that pair is incremented at its own position (distinct producers assumed) |
| `Batches.BumpAppends` | skel/tema/marketplace.py:147-148 | when the producer has no pair, a new pair (producer, 1) is appended at the end |
| `Batches.DropOneUnits` | skel/tema/marketplace.py:131-133 | taking from the first entry debits exactly that entry's producer by one unit, and the list's total drops by one |
| `Batches.DropOneWellFormed` | skel/tema/marketplace.py:131-133 | taking from the first entry keeps every count positive (the emptied entry is deleted) and producers distinct |
| `Tables.FindLine` | skel/tema/marketplace.py:62-63 | the position found is the line of the product, or the end of the table when the product is not a key |
| `Tables.StockCount` | skel/tema/marketplace.py:62-68 | `add_product` adds exactly one unit to (product, producer_id); every other (product, producer) count is unchanged |
| `Tables.StockUnits` | skel/tema/marketplace.py:62-68 | over the whole table, only the given producer gains units, and it gains exactly one |
| `Tables.StockWellFormed` | skel/tema/marketplace.py:62-68 | after `add_product` the product is a key, every count is still at least 1, keys stay unique, and an inventory stays an inventory |
| `Tables.TakeCount` | skel/tema/marketplace.py:129-136 | `add_to_cart` removes exactly one unit of (product, first producer) from the inventory; every other count is unchanged |
| `Tables.TakeUnits` | skel/tema/marketplace.py:129-136 | over the inventory, only the first producer loses units, and it loses exactly one |
| `Tables.TakeInventory` | skel/tema/marketplace.py:129-136 | after a claim every count is still at least 1 and no product key is left without producers |
| `Tables.TakeKeepsKey` | skel/tema/marketplace.py:132-136 | the product stays a key of the inventory exactly when more than one of its units was on offer |
| `Tables.WithdrawCount` | skel/tema/marketplace.py:168-171 | `remove_from_cart` takes exactly one unit of (product, first pair's producer) out of the cart; every other count is unchanged |
| `Tables.WithdrawUnits` | skel/tema/marketplace.py:168-171 | over the cart, only the first pair's producer loses units, and it loses exactly one |
| `Tables.WithdrawWellFormed` | skel/tema/marketplace.py:165-171 | after a removal the cart keeps positive counts and distinct producers, and the product stays a key of the cart |
| `Tables.EmitLength` | skel/tema/marketplace.py:189-192 | one product's pairs emit the product once per unit they hold |
| `Tables.FlattenLength` | skel/tema/marketplace.py:186-192 | the list `place_order` returns has one entry per unit in the cart |
| `Tables.FlattenMultiplicity` | skel/tema/marketplace.py:188-192 | each product appears in the returned list exactly as many times as the cart holds units of it |
| `Tables.CartsUnitsOpen` | skel/tema/marketplace.py:102-104 | opening an empty cart under the next id leaves every producer's units in carts unchanged |
| `Tables.CartsUnitsUpdate` | skel/tema/marketplace.py:140-148 | changing one cart changes a producer's units in carts by exactly the difference between its old and new version |
| `Tables.CartsUnitsRemove` | skel/tema/marketplace.py:194 | deleting a cart removes exactly its units from every producer's units in carts |
| `Tables.TableUnitsUnregistered` | skel/tema/marketplace.py:52-54 | a table over producers below n holds no unit of the producer about to be registered |
| `Tables.CartsUnitsUnregistered` | skel/tema/marketplace.py:52-54 | the open carts hold no unit of the producer about to be registered |
| `Market.Marketplace.constructor` | skel/tema/marketplace.py:39-44 | a new marketplace has both counters at 0 and empty tables, holds the given capacity, and satisfies the invariant |
| `Market.Marketplace.RegisterProducer` | skel/tema/marketplace.py:52-57 | returns the old producer counter, increments it, appends a 0 counter; the invariant, including conservation for the new id, is kept |
| `Market.Marketplace.AddProduct` | skel/tema/marketplace.py:59-68 | the inventory becomes `Stock` of the old one (key created at count 1, or incremented) and stays well formed |
| `Market.Marketplace.Publish` | skel/tema/marketplace.py:84-94 | returns true iff the producer's counter is below capacity; then the counter goes up by one and the inventory gains one unit; otherwise nothing changes; the invariant (capacity bound and conservation) is kept |
| `Market.Marketplace.NewCart` | skel/tema/marketplace.py:102-107 | returns the old cart counter, which no open cart uses, creates an empty cart under it and increments the counter; other carts are untouched |
| `Market.Marketplace.AddToCart` | skel/tema/marketplace.py:123-151 | returns false and changes nothing when the product is not in the inventory; otherwise one unit of the first producer moves from the inventory into the cart under that producer, the units of every (product, producer) across inventory and cart are conserved, and the counters are unchanged |
| `Market.Marketplace.RemoveFromCart` | skel/tema/marketplace.py:165-175 | nothing changes when the product is not a key of the cart, nor when its list is empty (the IndexError); otherwise one unit of the first pair goes back to the inventory under its producer, units are conserved, and the counters are unchanged |
| `Market.Marketplace.PlaceOrder` | skel/tema/marketplace.py:186-197 | returns the cart flattened in product order, then pair order, with one entry per unit; each producer's counter drops by exactly its units in the cart; the cart is deleted; inventory and other carts are untouched |
| `Market.EmitTable` | skel/tema/marketplace.py:188-192 | the outer loop appends every line's units in the cart's order, giving the flattened cart, and debits each producer by its units in the cart |
| `Market.EmitLine` | skel/tema/marketplace.py:189-192 | the middle loop appends the product once per unit of each pair and debits each producer by its units in the list |
| `Market.EmitBatch` | skel/tema/marketplace.py:190-192 | the inner loop appends the product `count` times and debits only the pair's producer, by `count` |
| `Scenarios.CocoaAndVanilla` | skel/tema/marketplace.py:84-91 | after two publishes of Cocoa and one of Vanilla by one producer, the inventory is Cocoa: 2 then Vanilla: 1, and the counter is 3 |
| `Scenarios.CocoaInACart` | skel/tema/marketplace.py:123-148 | two claims of Cocoa leave one coalesced pair (producer, 2) in the cart and delete Cocoa from the inventory |
| `Scenarios.CocoaAndVanillaInACart` | skel/tema/marketplace.py:123-151 | a third claim of Cocoa fails and changes nothing; the claim of Vanilla empties the inventory |
| `Scenarios.TwoCocoas` | skel/tema/marketplace.py:62-68 | one Cocoa from each of two producers gives the producer entries in publishing order |
| `Scenarios.OneCocoaInACart` | skel/tema/marketplace.py:129-141 | the first claim takes the first producer's unit, leaving the second producer's unit on offer |
| `Scenarios.TwoCocoasInACart` | skel/tema/marketplace.py:140-148 | the second claim takes the second producer's unit and appends its pair after the first producer's pair |

## Left out

- Logging: the rotating log file and every log call write to a file and change no state.
- Locks and concurrency: the two locks and their acquire/release calls are not modelled. Each operation is one atomic, sequential step. The source's unlocked existence check before a claim is therefore not modelled either.
- skel/tema/consumer.py and skel/tema/producer.py: threads with retry loops, `time.sleep` and printing. They are glue around the marketplace and are not part of this model.
- Invalid ids are preconditions, not modelled exceptions: a producer id at or above `numProducers`, and a cart id that was never opened or is already ordered. In most such calls the source raises IndexError or KeyError. For an unknown cart id, `add_to_cart` raises only at line 140, after the unit has already left the inventory. That loss of a unit is not modelled.
- Market.Marketplace.AddProduct: requires a registered producer id, although `add_product` (lines 62-68) never indexes the counters and accepts any id.
- Market.Marketplace.AddToCart: requires an open cart id, although on an unknown cart id with the product absent the source returns False at lines 123-125 without raising.
- Negative producer ids: ids are `nat`, so the source's wrap-around of Python list indexing with a negative id at lines 84, 85 and 191 (which lets such a call through `publish` and `place_order`) is not modelled.
- Market.Marketplace.constructor: the capacity is a `nat`. The source takes any integer, and with a negative capacity a newly registered producer would already be above it.
- Market.Marketplace.RemoveFromCart: the IndexError of lines 168-169 is the returned outcome `EmptyEntry` with no state change, not an exception.
- The unused `from math import prod` import.
