/** The queue of the open orders on one side of an order book: a heap of items, each of which knows its
    place, with an index by order identifier.  An item keeps the price of its order as it was when it
    was last computed. */
module OrderQueues {
  import opened Amounts
  import opened Transactions
  import opened Heaps

  /** An order of the matcher; books and matches share it by reference. */
  class OrderRef {
    const id: u64
    const buySymbol: string
    const seller: Address
    var amountToSell: u64
    var amountToBuy: u64

    constructor (order: Order)
      ensures View() == order && id == order.id && buySymbol == order.buySymbol
    {
      id, buySymbol, seller := order.id, order.buySymbol, order.seller;
      amountToSell, amountToBuy := order.amountToSell, order.amountToBuy;
    }

    function View(): Order
      reads this
    {
      Order(id, buySymbol, amountToSell, amountToBuy, seller)
    }
  }

  function PriceOf(side: OrderSide, order: Order): Price {
    if side == QUOTE then Quotient(order.amountToSell, order.amountToBuy)
    else Quotient(order.amountToBuy, order.amountToSell)
  }

  class OrderQueueItem {
    var price: Price
    const order: OrderRef
    var index: int

    constructor (order: OrderRef)
      ensures this.order == order
    {
      this.order := order;
      price, index := NotANumber, 0;
    }
  }

  function PricesOf(items: seq<OrderQueueItem>): (p: seq<Price>)
    reads items`price
    ensures |p| == |items|
    ensures forall k :: 0 <= k < |items| ==> p[k] == items[k].price
  {
    if items == [] then [] else PricesOf(items[..|items| - 1]) + [items[|items| - 1].price]
  }

  function SwappedItems(items: seq<OrderQueueItem>, i: nat, j: nat): seq<OrderQueueItem>
    requires i < |items| && j < |items|
  {
    items[i := items[j]][j := items[i]]
  }

  lemma SwappedRest(items: seq<OrderQueueItem>, i: nat, j: nat, n: nat)
    requires i < n && j < n <= |items|
    ensures SwappedItems(items, i, j)[n..] == items[n..]
    ensures |SwappedItems(items, i, j)| == |items| && SwappedItems(items, i, j)[j] == items[i] && SwappedItems(items, i, j)[i] == items[j]
  {}

  class OrderQueue {
    var Items: seq<OrderQueueItem>
    const side: OrderSide
    var IdToItem: map<u64, OrderQueueItem>

    constructor (side: OrderSide)
      ensures this.side == side && Items == [] && IdToItem == map[] && Sound()
    {
      Items := [];
      this.side := side;
      IdToItem := map[];
    }

    /** Every item knows its place, and the index finds exactly the items, by the identifiers of their orders. */
    ghost predicate Valid()
      reads this, Items
    {
      && (forall k :: 0 <= k < |Items| ==> Items[k].index == k)
      && (forall k :: 0 <= k < |Items| ==> Items[k].order.id in IdToItem && IdToItem[Items[k].order.id] == Items[k])
      && (forall id :: id in IdToItem ==> IdToItem[id] in Items && IdToItem[id].order.id == id)
    }

    ghost function Prices(): (p: seq<Price>)
      reads this, Items
      ensures |p| == |Items| && forall k :: 0 <= k < |Items| ==> p[k] == Items[k].price
    {
      PricesOf(Items)
    }

    /** The items are in heap order. */
    ghost predicate Sound()
      reads this, Items
    {
      Valid() && Heap(side, Prices())
    }

    /** The items are in heap order but for one, whose price may not even be a number. */
    ghost predicate SoundBut(id: u64)
      reads this, Items
    {
      Valid() && id in IdToItem && 0 <= IdToItem[id].index < |Items| && Hole(side, Prices(), IdToItem[id].index)
    }

    predicate Less(i: nat, j: nat)
      requires i < |Items| && j < |Items|
      reads this, Items
    {
      if side == BASE then Below(Items[i].price, Items[j].price) else Below(Items[j].price, Items[i].price)
    }

    method Swap(i: nat, j: nat)
      requires Valid() && i < |Items| && j < |Items|
      modifies this`Items, IdToItem.Values`index
      ensures Valid() && |Items| == old(|Items|)
      ensures Items == SwappedItems(old(Items), i, j)
      ensures Prices() == Swapped(old(Prices()), i, j)
    {
      hide Valid, PricesOf;
      Distinct(i, j);
      Items := SwappedItems(Items, i, j);
      Items[i].index := i;
      Items[j].index := j;
      SwapKeepsIndex(i, j);
    }

    lemma Distinct(i: nat, j: nat)
      requires Valid() && i < |Items| && j < |Items|
      ensures Items[i] in IdToItem.Values && Items[j] in IdToItem.Values
      ensures i != j ==> Items[i] != Items[j]
      ensures forall k :: 0 <= k < |Items| && k != i && k != j ==> Items[k] != Items[i] && Items[k] != Items[j]
    {
      assert IdToItem[Items[i].order.id] == Items[i] && IdToItem[Items[j].order.id] == Items[j];
    }

    twostate lemma SwapKeepsIndex(i: nat, new j: nat)
      requires old(Valid()) && i < |Items| && j < |Items| && IdToItem == old(IdToItem)
      requires |Items| == old(|Items|) && Items == SwappedItems(old(Items), i, j)
      requires Items[i].index == i && Items[j].index == j
      requires forall k :: 0 <= k < |Items| && k != i && k != j ==> Items[k].index == old(Items[k].index)
      ensures Valid()
    {
      forall k | 0 <= k < |Items| ensures Items[k].index == k && old(Items[k]) in Items {
        assert old(Items[k]) == Items[if k == i then j else if k == j then i else k];
      }
    }

    /** Move an item up while it is better than its parent; one without a price stays where it is. */
    method up(j0: nat, ghost n: nat)
      requires Valid() && j0 < n <= |Items|
      requires !Items[j0].price.NotANumber? ==> Rising(side, Prices()[..n], j0)
      modifies this`Items, IdToItem.Values`index
      ensures Valid() && |Items| == old(|Items|) && Items[n..] == old(Items[n..])
      ensures old(Items[j0].price).NotANumber? ==> Items == old(Items)
      ensures !old(Items[j0].price).NotANumber? ==> Heap(side, Prices()[..n])
    {
      hide Valid, Heap, Rising, SwappedItems;
      var j: nat := j0;
      ghost var item := Items[j0];
      while j > 0 && Less(j, (j - 1) / 2)
        invariant Valid() && |Items| == old(|Items|) && Items[n..] == old(Items[n..])
        invariant j < n && Items[j] == item
        invariant item.price.NotANumber? ==> Items == old(Items)
        invariant !item.price.NotANumber? ==> Rising(side, Prices()[..n], j)
        decreases j
      {
        var i := (j - 1) / 2;
        RiseStep(side, Prices()[..n], j);
        SwappedPrefix(Prices(), i, j, n);
        SwappedRest(Items, i, j, n);
        Swap(i, j);
        j := i;
      }
      if !item.price.NotANumber? {
        RiseEnds(side, Prices()[..n], j);
      }
    }

    /** Move an item one place down, if one of its children is better; or leave it where it is. */
    method sink(i: nat, n: nat) returns (j: nat)
      requires Valid() && 2 * i + 1 < n <= |Items| && Hole(side, Prices()[..n], i)
      modifies this`Items, IdToItem.Values`index
      ensures Valid() && |Items| == old(|Items|) && Items[n..] == old(Items[n..])
      ensures j == i || (i < j < n && Parent(j) == i)
      ensures j < n && Items[j] == old(Items[i])
      ensures j == i ==> Items == old(Items) && Settled(side, Prices()[..n], i)
      ensures j != i ==>
        Hole(side, Prices()[..n], j) && !Items[j].price.NotANumber? && !Better(side, Items[j].price, Items[i].price)
    {
      hide Valid, Heap, Hole, Rising, SwappedItems, Settled;
      j := betterChild(i, n);
      if !Less(j, i) {
        StopsHere(side, Prices()[..n], i, j);
        return i;
      }
      SinkStep(side, Prices()[..n], i, j);
      SwappedPrefix(Prices(), i, j, n);
      SwappedRest(Items, i, j, n);
      Swap(i, j);
    }

    /** Move an item down while one of its children is better. */
    method down(i0: nat, n: nat) returns (moved: bool)
      requires Valid() && i0 < n <= |Items| && Hole(side, Prices()[..n], i0)
      modifies this`Items, IdToItem.Values`index
      ensures Valid() && |Items| == old(|Items|) && Items[n..] == old(Items[n..])
      ensures old(Items[i0].price).NotANumber? ==> !moved
      ensures !moved ==> Items == old(Items)
      ensures !moved && !old(Items[i0].price).NotANumber? ==> Rising(side, Prices()[..n], i0)
      ensures moved ==> Heap(side, Prices()[..n])
    {
      hide Valid, Heap, Hole, Rising, Better, PricesOf;
      var i: nat := i0;
      ghost var item := Items[i0];
      var going := true;
      while going && 2 * i + 1 < n
        invariant Valid() && |Items| == old(|Items|) && Items[n..] == old(Items[n..])
        invariant i0 <= i < n && Hole(side, Prices()[..n], i) && Items[i] == item
        invariant i == i0 ==> Items == old(Items)
        invariant i > i0 ==> !Better(side, Items[i].price, Items[Parent(i)].price) && !item.price.NotANumber?
        invariant !going ==> Settled(side, Prices()[..n], i)
        decreases n - i, going
      {
        var j := sink(i, n);
        going := j != i;
        i := j;
      }
      if going {
        NoChildren(side, Prices()[..n], i);
      }
      moved := i > i0;
    }

    method betterChild(i: nat, n: nat) returns (j: nat)
      requires 2 * i + 1 < n <= |Items|
      ensures i < j < n && Parent(j) == i
      ensures forall k :: 0 < k < n && Parent(k) == i ==> !Better(side, Prices()[..n][k], Prices()[..n][j])
    {
      j := 2 * i + 1;
      var j2 := j + 1;
      if j2 < n && Less(j2, j) {
        j := j2;
      }
      BestChild(i, j, n);
    }

    lemma BestChild(i: nat, j: nat, n: nat)
      requires n <= |Items| && (j == 2 * i + 1 || j == 2 * i + 2) && j < n
      requires j == 2 * i + 1 ==> 2 * i + 2 >= n || !Less(2 * i + 2, 2 * i + 1)
      requires j == 2 * i + 2 ==> Less(2 * i + 2, 2 * i + 1)
      ensures Parent(j) == i
      ensures forall k :: 0 < k < n && Parent(k) == i ==> !Better(side, Prices()[..n][k], Prices()[..n][j])
    {
      forall k | 0 < k < n && Parent(k) == i ensures !Better(side, Prices()[..n][k], Prices()[..n][j]) {
        assert k == 2 * i + 1 || k == 2 * i + 2;
      }
    }

    /** Append an item, unless its order is in the queue already. */
    method Push(item: OrderQueueItem)
      requires Valid() && item !in Items
      modifies this`Items, this`IdToItem, item`index
      ensures Valid()
      ensures item.order.id in old(IdToItem) ==> Items == old(Items) && IdToItem == old(IdToItem)
      ensures item.order.id !in old(IdToItem) ==>
        Items == old(Items) + [item] && IdToItem == old(IdToItem)[item.order.id := item]
    {
      if item.order.id in IdToItem {
        return;
      }
      item.index := |Items|;
      Items := Items + [item];
      IdToItem := IdToItem[item.order.id := item];
    }

    /** Take the last item away. */
    method Pop() returns (item: OrderQueueItem)
      requires Valid() && Items != []
      modifies this`Items, this`IdToItem, IdToItem.Values`index
      ensures Valid() && item == old(Items[|Items| - 1])
      ensures Items == old(Items)[..old(|Items|) - 1] && IdToItem == old(IdToItem) - {item.order.id}
    {
      var n := |Items| - 1;
      Distinct(n, n);
      item := Items[n];
      item.index := -1;
      Items := Items[..n];
      IdToItem := IdToItem - {item.order.id};
      assert forall k :: 0 <= k < n ==> Items[k] == old(Items[k]) && Items[k].order.id != item.order.id;
    }

    /** Restore the order of the first n items after the one at i has changed. */
    method settle(i: nat, n: nat)
      requires Valid() && i < n <= |Items| && Hole(side, Prices()[..n], i)
      modifies this`Items, IdToItem.Values`index
      ensures Valid() && |Items| == old(|Items|) && Items[n..] == old(Items[n..])
      ensures old(Items[i].price).NotANumber? ==> Items == old(Items)
      ensures !old(Items[i].price).NotANumber? ==> Heap(side, Prices()[..n])
    {
      hide Valid, Heap, Hole, Rising, PricesOf;
      var moved := down(i, n);
      if !moved {
        up(i, n);
      }
    }

    /** Take the item at i out. */
    method removeAt(i: nat) returns (item: OrderQueueItem)
      requires Valid() && i < |Items| && Hole(side, Prices(), i)
      modifies this`Items, this`IdToItem, IdToItem.Values`index
      ensures Sound() && item == old(Items[i]) && IdToItem == old(IdToItem) - {item.order.id}
    {
      hide Valid, Heap, Hole, SwappedItems, PricesOf;
      var n := |Items| - 1;
      if n != i {
        HoleWithLast(side, Prices(), i, n);
        SwappedRest(Items, i, n, n + 1);
        Swap(i, n);
        settle(i, n);
      } else {
        HeapWithoutLast(side, Prices(), n);
      }
      assert Items[n] == Items[n..][0];
      ghost var p := Prices();
      item := Pop();
      assert Prices() == p[..n];
    }

    method setItemPrice(item: OrderQueueItem)
      modifies item`price
      ensures item.price == PriceOf(side, item.order.View())
    {
      if side == QUOTE {
        item.price := Quotient(item.order.amountToSell, item.order.amountToBuy);
      } else {
        item.price := Quotient(item.order.amountToBuy, item.order.amountToSell);
      }
    }

    /** Add an order; if one with its identifier is there already, nothing changes.  An order that wants
        nothing and has nothing to sell has no price, and its item stays where it was put. */
    method Enq(order: OrderRef)
      requires Sound()
      modifies this`Items, this`IdToItem, IdToItem.Values`index
      ensures order.id in IdToItem && Valid()
      ensures order.id in old(IdToItem) ==> Sound() && IdToItem == old(IdToItem)
      ensures order.id !in old(IdToItem) ==>
        var item := IdToItem[order.id];
        && IdToItem == old(IdToItem)[order.id := item] && fresh(item)
        && item.order == order && item.price == PriceOf(side, order.View())
        && (if item.price.NotANumber? then SoundBut(order.id) else Sound())
    {
      hide Heap, Hole, Rising, PricesOf;
      var item := new OrderQueueItem(order);
      setItemPrice(item);
      pushUp(item);
    }

    /** Push an item and let it rise. */
    method pushUp(item: OrderQueueItem)
      requires Sound() && item !in Items
      modifies this`Items, this`IdToItem, IdToItem.Values`index, item`index
      ensures Valid() && item.order.id in IdToItem
      ensures item.order.id in old(IdToItem) ==> Sound() && IdToItem == old(IdToItem)
      ensures item.order.id !in old(IdToItem) ==>
        && IdToItem == old(IdToItem)[item.order.id := item]
        && (if item.price.NotANumber? then SoundBut(item.order.id) else Sound())
    {
      hide Valid, Heap, Hole, Rising, PricesOf;
      ghost var p := Prices();
      if item.order.id in IdToItem {
        Members();
        LastOfHeap(side, p);
      }
      HeapWithMore(side, p, item.price);
      ghost var before := IdToItem;
      Push(item);
      assert item.order.id !in before ==> Prices() == p + [item.price];
      assert Prices()[..|Items|] == Prices();
      FrameOfPush(before, item);
      up(|Items| - 1, |Items|);
      assert Prices()[..|Items|] == Prices();
      if item.price.NotANumber? && item.order.id !in before {
        Place(item.order.id);
      }
    }

    lemma FrameOfPush(before: map<u64, OrderQueueItem>, item: OrderQueueItem)
      requires IdToItem == before || IdToItem == before[item.order.id := item]
      ensures forall i :: i in IdToItem.Values ==> i in before.Values || i == item
    {}

    /** Take a best-priced order out. */
    method Deq() returns (found: bool, item: OrderQueueItem?)
      requires Sound()
      modifies this`Items, this`IdToItem, IdToItem.Values`index
      ensures Sound() && (found <==> old(IdToItem) != map[])
      ensures !found ==> IdToItem == old(IdToItem)
      ensures found ==>
        && item != null && item.order.id in old(IdToItem) && item == old(IdToItem)[item.order.id]
        && IdToItem == old(IdToItem) - {item.order.id}
        && forall id :: id in old(IdToItem) ==> !Better(side, old(IdToItem[id].price), item.price)
    {
      hide Heap, Hole, Rising, PricesOf;
      Members();
      if |Items| == 0 {
        return false, null;
      }
      BestFirst();
      HeapHole(side, Prices(), 0);
      found := true;
      item := removeAt(0);
    }

    /** A best-priced order, with the price that the queue keeps for it. */
    method Peek() returns (found: bool, order: OrderRef?, price: Price)
      requires Sound()
      ensures found <==> IdToItem != map[]
      ensures found ==>
        && order != null && order.id in IdToItem && IdToItem[order.id].order == order && IdToItem[order.id].price == price
        && !price.NotANumber?
        && forall id :: id in IdToItem ==> !Better(side, IdToItem[id].price, price)
    {
      Members();
      if |Items| == 0 {
        return false, null, NotANumber;
      }
      BestFirst();
      return true, Items[0].order, Items[0].price;
    }

    lemma Members()
      requires Valid()
      ensures |Items| == 0 <==> IdToItem == map[]
      ensures |Items| > 0 ==> Items[0].order.id in IdToItem && IdToItem[Items[0].order.id] == Items[0]
    {
      if IdToItem != map[] {
        var id :| id in IdToItem;
        assert IdToItem[id] in Items;
      }
      if |Items| > 0 {
        assert Items[0].order.id in IdToItem;
      }
    }

    lemma BestFirst()
      requires Sound() && |Items| > 0
      ensures !Items[0].price.NotANumber?
      ensures forall id :: id in IdToItem ==> !Better(side, IdToItem[id].price, Items[0].price)
    {
      forall id | id in IdToItem ensures !Better(side, IdToItem[id].price, Items[0].price) {
        var k :| 0 <= k < |Items| && Items[k] == IdToItem[id];
        TopIsBest(side, Prices(), k);
      }
    }

    /** Take the order with an identifier out, if it is there. */
    method Remove(id: u64) returns (ok: bool)
      requires if id in IdToItem then SoundBut(id) else Sound()
      modifies this`Items, this`IdToItem, IdToItem.Values`index
      ensures Sound() && IdToItem == old(IdToItem) - {id}
      ensures ok <==> id in old(IdToItem)
    {
      hide Heap, Hole, Rising, PricesOf;
      if id !in IdToItem {
        return false;
      }
      Place(id);
      var _ := removeAt(IdToItem[id].index);
      return true;
    }

    method GetOrder(id: u64) returns (exists_: bool, order: OrderRef?)
      ensures exists_ <==> id in IdToItem
      ensures exists_ ==> order == IdToItem[id].order
    {
      if id !in IdToItem {
        return false, null;
      }
      return true, IdToItem[id].order;
    }

    /** Compute the price of an order anew and move its item to where it belongs. */
    method FixPrice(id: u64)
      requires id in IdToItem && SoundBut(id)
      modifies this`Items, IdToItem.Values`index, IdToItem.Values`price
      ensures Valid() && IdToItem[id].price == PriceOf(side, IdToItem[id].order.View())
      ensures if IdToItem[id].price.NotANumber? then SoundBut(id) else Sound()
      ensures forall i :: i in IdToItem && i != id ==> IdToItem[i].price == old(IdToItem[i].price)
    {
      hide *;
      var item := IdToItem[id];
      ghost var p := Prices();
      AtPlace(id);
      setItemPrice(item);
      ValidStill();
      NewPrices(p, item);
      NewPriceInHole(side, p, item.index, item.price);
      ghost var q, i := Prices(), item.index;
      settle(item.index, |Items|);
      assert Prices()[..|Items|] == Prices();
      if item.price.NotANumber? {
        assert Prices() == q;
        IndexIs(i);
      }
      SoundNow(id);
    }

    lemma IndexIs(i: nat)
      requires Valid() && i < |Items|
      ensures Items[i].index == i
    {}

    lemma AtPlace(id: u64)
      requires id in IdToItem && SoundBut(id)
      ensures Valid() && 0 <= IdToItem[id].index < |Items| && Items[IdToItem[id].index] == IdToItem[id]
      ensures Hole(side, Prices(), IdToItem[id].index)
      ensures forall k :: 0 <= k < |Items| && k != IdToItem[id].index ==> Items[k] != IdToItem[id]
    {
      hide Hole;
      Place(id);
    }

    /** Prices have changed, and nothing else. */
    twostate lemma ValidStill()
      requires old(Valid()) && unchanged(this) && forall k :: 0 <= k < |Items| ==> Items[k].index == old(Items[k].index)
      ensures Valid()
    {}

    /** One price has changed. */
    lemma NewPrices(p: seq<Price>, item: OrderQueueItem)
      requires Valid() && 0 <= item.index < |Items| == |p| && Items[item.index] == item
      requires forall k :: 0 <= k < |Items| && k != item.index ==> Items[k].price == p[k]
      ensures Prices() == p[item.index := item.price] && Prices()[..|Items|] == Prices()
    {}

    lemma SoundNow(id: u64)
      requires Valid() && id in IdToItem
      ensures Heap(side, Prices()) ==> Sound()
      ensures Hole(side, Prices(), IdToItem[id].index) ==> SoundBut(id)
    {
      hide Heap, Hole;
      Place(id);
    }

    lemma Place(id: u64)
      requires Valid() && id in IdToItem
      ensures 0 <= IdToItem[id].index < |Items| && Items[IdToItem[id].index] == IdToItem[id]
    {
      assert IdToItem[id] in Items;
    }

    /** A heap is in order but for any one of its items, too. */
    lemma SoundAnyway(id: u64)
      requires Sound() && id in IdToItem
      ensures SoundBut(id)
    {
      hide Heap, Hole;
      Place(id);
      HeapHole(side, Prices(), IdToItem[id].index);
    }
  }

  lemma HeapHole(side: OrderSide, p: seq<Price>, i: nat)
    requires Heap(side, p) && i < |p|
    ensures Hole(side, p, i)
  {
    HeapWithHole(side, p, i, p[i]);
    assert p[i := p[i]] == p;
  }

  lemma NewPriceInHole(side: OrderSide, p: seq<Price>, i: nat, x: Price)
    requires Hole(side, p, i)
    ensures Hole(side, p[i := x], i)
  {}

  lemma LastOfHeap(side: OrderSide, p: seq<Price>)
    requires Heap(side, p) && p != []
    ensures Rising(side, p, |p| - 1) && !p[|p| - 1].NotANumber?
  {
    HeapHole(side, p, |p| - 1);
  }


  /** What the end of a descent means: an item that has a price is in order with all below it. */
  ghost predicate Settled(side: OrderSide, p: seq<Price>, i: nat) {
    i < |p| && (!p[i].NotANumber? ==>
      && Rising(side, p, i)
      && (i > 0 && !Better(side, p[i], p[Parent(i)]) ==> Heap(side, p)))
  }

  lemma StopsHere(side: OrderSide, p: seq<Price>, i: nat, j: nat)
    requires Hole(side, p, i) && j < |p| && !Better(side, p[j], p[i])
    requires forall k :: 0 < k < |p| && Parent(k) == i ==> !Better(side, p[k], p[j])
    requires j > 0 && Parent(j) == i
    ensures Settled(side, p, i)
  {
    if !p[i].NotANumber? {
      forall k | 0 < k < |p| && Parent(k) == i ensures !Better(side, p[k], p[i]) {
        NotBetterTransitive(side, p[k], p[j], p[i]);
      }
      SinkEnds(side, p, i);
    }
  }

  lemma NoChildren(side: OrderSide, p: seq<Price>, i: nat)
    requires Hole(side, p, i) && |p| <= 2 * i + 1
    ensures Settled(side, p, i)
  {
    if !p[i].NotANumber? {
      SinkEnds(side, p, i);
    }
  }

  lemma SwappedPrefix(p: seq<Price>, i: nat, j: nat, n: nat)
    requires i < n && j < n <= |p|
    ensures Swapped(p, i, j)[..n] == Swapped(p[..n], i, j)
  {}
}
