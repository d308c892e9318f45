/** Per-producer unit lists.

    The marketplace keeps, for one product, how many units each producer
    contributed: in the inventory table this is a dictionary from producer
    id to a positive count, in a cart it is a list of [producer_id, count]
    pairs. Both are insertion-ordered and both are modelled here as one
    sequence of batches, so that "the first producer" is determined.
 */
module Batches {

  /** `count` units of one product coming from producer `producer`. */
  datatype Batch = Batch(producer: nat, count: nat)

  /** No two batches of the list come from the same producer. */
  predicate DistinctProducers(bs: seq<Batch>) {
    forall i, j :: 0 <= i < j < |bs| ==> bs[i].producer != bs[j].producer
  }

  /** The shape every stored list keeps: one batch per producer, each
      holding at least one unit, each from one of the first `n` producers. */
  predicate WellFormed(bs: seq<Batch>, n: nat) {
    DistinctProducers(bs) &&
    forall i :: 0 <= i < |bs| ==> 1 <= bs[i].count && bs[i].producer < n
  }

  /** Position of the first batch from producer `pid`, or `|bs|` when there is none. */
  function Find(bs: seq<Batch>, pid: nat): (k: nat)
    ensures k <= |bs|
    ensures k < |bs| ==> bs[k].producer == pid
    ensures forall j :: 0 <= j < k ==> bs[j].producer != pid
  {
    if bs == [] then 0
    else if bs[0].producer == pid then 0
    else 1 + Find(bs[1..], pid)
  }

  /** Adds one unit from `pid`: an existing batch is incremented where it
      stands, otherwise a batch of one unit goes at the end. */
  function Bump(bs: seq<Batch>, pid: nat): seq<Batch> {
    var k := Find(bs, pid);
    if k < |bs| then bs[k := Batch(pid, bs[k].count + 1)] else bs + [Batch(pid, 1)]
  }

  /** Takes one unit from the first batch and deletes that batch once it is empty. */
  function DropOne(bs: seq<Batch>): seq<Batch>
    requires bs != [] && 1 <= bs[0].count
  {
    if bs[0].count == 1 then bs[1..] else bs[0 := Batch(bs[0].producer, bs[0].count - 1)]
  }

  /** The units producer `p` has in one batch. */
  function UnitsOf(b: Batch, p: nat): nat {
    if b.producer == p then b.count else 0
  }

  /** The units producer `p` has in the whole list. */
  function Units(bs: seq<Batch>, p: nat): nat {
    if bs == [] then 0 else UnitsOf(bs[0], p) + Units(bs[1..], p)
  }

  /** All units of the list, whoever produced them. */
  function Total(bs: seq<Batch>): nat {
    if bs == [] then 0 else bs[0].count + Total(bs[1..])
  }

  /** The for/else search of the cart's pair list: increments the pair of
      producer `pid` in place, or appends a new pair when the loop
      finishes without finding one. */
  method Coalesce(bs: seq<Batch>, pid: nat) returns (r: seq<Batch>)
    ensures r == Bump(bs, pid)
  {
    var i := 0;
    while i < |bs|
      invariant 0 <= i <= |bs|
      invariant forall j :: 0 <= j < i ==> bs[j].producer != pid
    {
      if bs[i].producer == pid {
        r := bs[i := Batch(pid, bs[i].count + 1)];
        return;
      }
      i := i + 1;
    }
    r := bs + [Batch(pid, 1)];
  }

  lemma {:induction false} UnitsAppend(a: seq<Batch>, b: seq<Batch>, p: nat)
    ensures Units(a + b, p) == Units(a, p) + Units(b, p)
  {
    if a == [] {
      assert a + b == b;
    } else {
      assert (a + b)[1..] == a[1..] + b;
      UnitsAppend(a[1..], b, p);
    }
  }

  /** Units of a list split around position `k`. */
  lemma UnitsSplit(bs: seq<Batch>, k: nat, p: nat)
    requires k < |bs|
    ensures Units(bs, p) == Units(bs[..k], p) + UnitsOf(bs[k], p) + Units(bs[k + 1..], p)
  {
    assert bs == bs[..k] + [bs[k]] + bs[k + 1..];
    UnitsAppend(bs[..k] + [bs[k]], bs[k + 1..], p);
    UnitsAppend(bs[..k], [bs[k]], p);
  }

  /** Replacing one batch changes a producer's units by the difference of the two batches. */
  lemma UnitsUpdate(bs: seq<Batch>, k: nat, b: Batch, p: nat)
    requires k < |bs|
    ensures Units(bs[k := b], p) == Units(bs, p) - UnitsOf(bs[k], p) + UnitsOf(b, p)
  {
    var bs' := bs[k := b];
    assert bs'[..k] == bs[..k] && bs'[k + 1..] == bs[k + 1..];
    UnitsSplit(bs, k, p);
    UnitsSplit(bs', k, p);
  }

  /** Adding one unit from `pid` credits exactly `pid` with exactly one unit. */
  lemma BumpUnits(bs: seq<Batch>, pid: nat, p: nat)
    ensures Units(Bump(bs, pid), p) == Units(bs, p) + (if p == pid then 1 else 0)
  {
    var k := Find(bs, pid);
    if k < |bs| {
      UnitsUpdate(bs, k, Batch(pid, bs[k].count + 1), p);
    } else {
      UnitsAppend(bs, [Batch(pid, 1)], p);
    }
  }

  /** Adding a unit keeps the list well formed (at most one pair per
      producer, every count positive) and leaves it non-empty. */
  lemma BumpWellFormed(bs: seq<Batch>, pid: nat, n: nat)
    requires WellFormed(bs, n) && pid < n
    ensures WellFormed(Bump(bs, pid), n) && Bump(bs, pid) != []
  {
    var k := Find(bs, pid);
    var r := Bump(bs, pid);
    if k == |bs| {
      assert forall i :: 0 <= i < |bs| ==> r[i] == bs[i] && bs[i].producer != pid;
      assert r[|bs|] == Batch(pid, 1);
    } else {
      assert forall i :: 0 <= i < |r| ==> r[i].producer == bs[i].producer;
    }
  }

  /** When `pid` already has a pair, that pair (the only one, by
      distinctness) is incremented where it stands. */
  lemma BumpInPlace(bs: seq<Batch>, pid: nat, i: nat)
    requires DistinctProducers(bs) && i < |bs| && bs[i].producer == pid
    ensures Bump(bs, pid) == bs[i := Batch(pid, bs[i].count + 1)]
  {
  }

  /** When `pid` has no pair yet, a new pair of one unit goes at the end. */
  lemma BumpAppends(bs: seq<Batch>, pid: nat)
    requires forall i :: 0 <= i < |bs| ==> bs[i].producer != pid
    ensures Bump(bs, pid) == bs + [Batch(pid, 1)]
  {
  }

  /** Taking a unit debits exactly the first batch's producer with exactly one unit. */
  lemma DropOneUnits(bs: seq<Batch>, p: nat)
    requires bs != [] && 1 <= bs[0].count
    ensures Units(DropOne(bs), p) == Units(bs, p) - (if p == bs[0].producer then 1 else 0)
    ensures Total(DropOne(bs)) + 1 == Total(bs)
  {
    if bs[0].count != 1 {
      var b := Batch(bs[0].producer, bs[0].count - 1);
      assert bs[0 := b] == [b] + bs[1..];
      assert bs == [bs[0]] + bs[1..];
    }
  }

  /** Taking a unit keeps the list well formed. */
  lemma DropOneWellFormed(bs: seq<Batch>, n: nat)
    requires bs != [] && WellFormed(bs, n)
    ensures WellFormed(DropOne(bs), n)
  {
    var r := DropOne(bs);
    if bs[0].count == 1 {
      assert forall i :: 0 <= i < |r| ==> r[i] == bs[i + 1];
    } else {
      assert forall i :: 0 <= i < |r| ==> r[i].producer == bs[i].producer;
    }
  }

  /** A list whose producers are all below `m` holds nothing of producer `p >= m`. */
  lemma {:induction false} UnitsUnregistered(bs: seq<Batch>, m: nat, p: nat)
    requires forall i :: 0 <= i < |bs| ==> bs[i].producer < m
    requires m <= p
    ensures Units(bs, p) == 0
  {
    if bs != [] {
      UnitsUnregistered(bs[1..], m, p);
    }
  }

  /** Admitting more producers keeps a list well formed. */
  lemma WellFormedWiden(bs: seq<Batch>, n: nat, m: nat)
    requires WellFormed(bs, n) && n <= m
    ensures WellFormed(bs, m)
  {
  }
}
