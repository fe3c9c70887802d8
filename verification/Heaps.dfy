/** The order that the heaps of the order book keep, on the prices alone.  A price may for a moment not be
    a number, when an order that is used up is still in its queue; then its place is a hole in the order. */
module Heaps {
  import opened Amounts

  /** The quotient of two amounts. */
  datatype Price = Finite(value: real) | Infinite | NotANumber

  function Quotient(num: u64, den: u64): Price {
    if den > 0 then Finite(num as real / den as real) else if num > 0 then Infinite else NotANumber
  }

  predicate Below(a: Price, b: Price) {
    a.Finite? && (b.Infinite? || (b.Finite? && a.value < b.value))
  }

  /** Asks are ordered from low to high, bids from high to low. */
  datatype OrderSide = BASE | QUOTE

  predicate Better(side: OrderSide, a: Price, b: Price) {
    if side == BASE then Below(a, b) else Below(b, a)
  }

  function Parent(k: nat): nat
    requires k > 0
  {
    (k - 1) / 2
  }

  ghost predicate Numbers(p: seq<Price>) {
    forall k :: 0 <= k < |p| ==> !p[k].NotANumber?
  }

  /** No price is better than that of its parent. */
  ghost predicate Heap(side: OrderSide, p: seq<Price>) {
    Numbers(p) && forall k :: 0 < k < |p| ==> !Better(side, p[k], p[Parent(k)])
  }

  /** The price at i may be anything; all others are in order, also across it. */
  ghost predicate Hole(side: OrderSide, p: seq<Price>, i: nat) {
    && i < |p|
    && (forall k :: 0 <= k < |p| && k != i ==> !p[k].NotANumber?)
    && (forall k :: 0 < k < |p| && k != i && Parent(k) != i ==> !Better(side, p[k], p[Parent(k)]))
    && (forall k :: 0 < k < |p| && Parent(k) == i && i > 0 ==> !Better(side, p[k], p[Parent(i)]))
  }

  /** ... and all that is below i is in order with it. */
  ghost predicate Rising(side: OrderSide, p: seq<Price>, i: nat) {
    Hole(side, p, i) && Numbers(p) && forall k :: 0 < k < |p| && Parent(k) == i ==> !Better(side, p[k], p[i])
  }

  function Swapped(p: seq<Price>, i: nat, j: nat): seq<Price>
    requires i < |p| && j < |p|
  {
    p[i := p[j]][j := p[i]]
  }

  lemma NotBetterTransitive(side: OrderSide, a: Price, b: Price, c: Price)
    requires !a.NotANumber? && !b.NotANumber? && !c.NotANumber?
    requires !Better(side, a, b) && !Better(side, b, c)
    ensures !Better(side, a, c)
  {}

  /** Any price of a heap can be replaced. */
  lemma HeapWithHole(side: OrderSide, p: seq<Price>, i: nat, x: Price)
    requires Heap(side, p) && i < |p|
    ensures Hole(side, p[i := x], i)
  {
    var q := p[i := x];
    forall k | 0 < k < |q| && Parent(k) == i && i > 0 ensures !Better(side, q[k], q[Parent(i)]) {
      NotBetterTransitive(side, p[k], p[i], p[Parent(i)]);
    }
  }

  /** The first price of a heap is a best one. */
  lemma {:induction false} TopIsBest(side: OrderSide, p: seq<Price>, k: nat)
    requires Heap(side, p) && k < |p|
    ensures !Better(side, p[k], p[0])
    decreases k
  {
    if k > 0 {
      TopIsBest(side, p, Parent(k));
      NotBetterTransitive(side, p[k], p[Parent(k)], p[0]);
    }
  }

  lemma SinkStep(side: OrderSide, p: seq<Price>, i: nat, j: nat)
    requires Hole(side, p, i) && 0 < j < |p| && Parent(j) == i && Better(side, p[j], p[i])
    requires forall k :: 0 < k < |p| && Parent(k) == i ==> !Better(side, p[k], p[j])
    ensures Hole(side, Swapped(p, i, j), j)
    ensures !Better(side, Swapped(p, i, j)[j], Swapped(p, i, j)[i])
  {}

  /** The hole is filled when nothing below it is better, and nothing above it is worse. */
  lemma SinkEnds(side: OrderSide, p: seq<Price>, i: nat)
    requires Hole(side, p, i) && !p[i].NotANumber?
    requires forall k :: 0 < k < |p| && Parent(k) == i ==> !Better(side, p[k], p[i])
    ensures Rising(side, p, i)
    ensures i == 0 || !Better(side, p[i], p[Parent(i)]) ==> Heap(side, p)
  {}

  lemma RiseStep(side: OrderSide, p: seq<Price>, j: nat)
    requires Rising(side, p, j) && j > 0 && Better(side, p[j], p[Parent(j)])
    ensures Rising(side, Swapped(p, Parent(j), j), Parent(j))
  {
    var i := Parent(j);
    var q := Swapped(p, i, j);
    forall k | 0 < k < |q| && Parent(k) == i ensures !Better(side, q[k], q[i]) {
      if k != j {
        NotBetterTransitive(side, p[k], p[i], p[j]);
      }
    }
    forall k | 0 < k < |q| && Parent(k) == i && i > 0 ensures !Better(side, q[k], q[Parent(i)]) {
      if k != j {
        NotBetterTransitive(side, p[k], p[i], p[Parent(i)]);
      }
    }
  }

  lemma RiseEnds(side: OrderSide, p: seq<Price>, j: nat)
    requires Rising(side, p, j) && (j == 0 || !Better(side, p[j], p[Parent(j)]))
    ensures Heap(side, p)
  {}

  /** Leaving out the last price. */
  lemma HeapWithoutLast(side: OrderSide, p: seq<Price>, n: nat)
    requires Hole(side, p, n) && n == |p| - 1
    ensures Heap(side, p[..n])
  {}

  /** Moving the last price into the hole and leaving out the last place. */
  lemma HoleWithLast(side: OrderSide, p: seq<Price>, i: nat, n: nat)
    requires Hole(side, p, i) && n == |p| - 1 && i < n
    ensures Hole(side, Swapped(p, i, n)[..n], i) && !Swapped(p, i, n)[..n][i].NotANumber?
  {}

  /** A price put at the end. */
  lemma HeapWithMore(side: OrderSide, p: seq<Price>, x: Price)
    requires Heap(side, p)
    ensures Hole(side, p + [x], |p|)
    ensures !x.NotANumber? ==> Rising(side, p + [x], |p|)
  {}
}
