/** The order book of two symbols: the bids, which sell the base symbol, and the asks, which sell the quote
    symbol.  All matches are found by filling the best orders for real, and then taking the fills back. */
module Orderbooks {
  import opened Amounts
  import opened Transactions
  import opened Fills
  import opened Ledgers
  import opened Heaps
  import opened OrderQueues

  /** Some of these orders are in the queue: exactly those that still want something.  All are registered
      under their identifiers and buy the given symbol, and the queue knows their current prices. */
  ghost predicate Holds(q: OrderQueue, all: map<u64, OrderRef>, symbol: string)
    reads q, q.Items, q.IdToItem.Values, all.Values
  {
    && q.Sound()
    && (forall id :: id in all ==>
        && all[id].id == id && all[id].buySymbol == symbol
        && (id in q.IdToItem <==> all[id].amountToBuy > 0)
        && (all[id].amountToBuy > 0 ==> all[id].amountToSell > 0))
    && (forall id :: id in q.IdToItem ==>
        && id in all && q.IdToItem[id].order == all[id]
        && q.IdToItem[id].price == PriceOf(q.side, all[id].View()))
  }

  /** What the orders are. */
  ghost function Views(all: map<u64, OrderRef>): map<u64, Order>
    reads all.Values
  {
    map id | id in all :: all[id].View()
  }

  /** The orders of a queue. */
  ghost function Refs(q: OrderQueue): map<u64, OrderRef>
    reads q, q.IdToItem.Values
  {
    map id | id in q.IdToItem :: q.IdToItem[id].order
  }

  /** None of these objects has changed. */
  twostate predicate Untouched(new objects: set<object>)
    reads *
  {
    forall o :: o in objects && old(allocated(o)) ==> unchanged(o)
  }

  /** The items of a queue and their orders. */
  ghost function PartsOf(q: OrderQueue): set<object>
    reads q, q.IdToItem.Values
  {
    q.IdToItem.Values + Refs(q).Values + set k | 0 <= k < |q.Items| :: q.Items[k]
  }

  lemma PartsWithin(q: OrderQueue, all: map<u64, OrderRef>, symbol: string)
    requires Holds(q, all, symbol)
    ensures PartsOf(q) <= q.IdToItem.Values + all.Values
  {
    hide Heap, PriceOf;
  }

  lemma JoinedValues(all: map<u64, OrderRef>, order: OrderRef)
    ensures Joined(all, order).Values <= all.Values + {order}
  {}

  twostate lemma PartsBefore(q: OrderQueue)
    ensures old(q.IdToItem.Values) <= old(PartsOf(q)) && old(Refs(q)).Values <= old(PartsOf(q))
  {}

  /** Nothing of a queue, its items and their orders has changed. */
  twostate predicate Same(q: OrderQueue)
    reads *
  {
    && unchanged(q)
    && (forall id :: id in q.IdToItem ==> unchanged(q.IdToItem[id]) && unchanged(q.IdToItem[id].order))
    && (forall k :: 0 <= k < |q.Items| ==> unchanged(q.Items[k]))
  }

  twostate lemma SameHolds(q: OrderQueue, new symbol: string)
    requires old(Holds(q, Refs(q), symbol)) && Same(q)
    ensures Holds(q, Refs(q), symbol) && Refs(q) == old(Refs(q)) && PartsOf(q) == old(PartsOf(q))
    ensures Views(Refs(q)) == old(Views(Refs(q)))
  {
    hide Holds;
    var all := old(Refs(q));
    assert forall id :: id in all ==> all[id] == q.IdToItem[id].order;
    StillHolds(q, all, symbol);
  }

  twostate lemma SameWhenUnchanged(q: OrderQueue)
    requires unchanged(q) && Untouched(old(PartsOf(q)))
    ensures Same(q)
  {
    forall id | id in q.IdToItem ensures unchanged(q.IdToItem[id]) && unchanged(q.IdToItem[id].order) {
      assert q.IdToItem[id] in old(PartsOf(q));
      assert old(Refs(q))[id] in old(Refs(q)).Values;
      assert old(Refs(q))[id] in old(PartsOf(q));
    }
    forall k | 0 <= k < |q.Items| ensures unchanged(q.Items[k]) {
      assert q.Items[k] in old(PartsOf(q));
    }
  }

  /** One order has changed, and the queue knows. */
  twostate lemma HoldsAgain(q: OrderQueue, new all: map<u64, OrderRef>, new symbol: string, new order: OrderRef)
    requires old(allocated(all)) && old(Holds(q, all, symbol)) && order.id in all && all[order.id] == order
    requires q.Sound() && (forall id :: id in q.IdToItem <==> id in old(q.IdToItem) && (id == order.id ==> order.amountToBuy > 0))
    requires order.id in old(q.IdToItem)
    requires forall id :: id in q.IdToItem ==> q.IdToItem[id] == old(q.IdToItem[id])
    requires forall id :: id in q.IdToItem && id != order.id ==> q.IdToItem[id].price == old(q.IdToItem[id].price)
    requires order.id in q.IdToItem ==> q.IdToItem[order.id].price == PriceOf(q.side, order.View())
    requires order.amountToBuy > 0 ==> order.amountToSell > 0
    requires forall id :: id in all && id != order.id ==> unchanged(all[id])
    ensures Holds(q, all, symbol)
  {
    hide OrderQueue.Sound, PriceOf;
  }

  /** Fill an order: reduce its amounts, and take it out of the queue when it wants nothing more. */
  method fillOrder(q: OrderQueue, order: OrderRef, sold: u64, bought: u64, ghost all: map<u64, OrderRef>, ghost symbol: string)
    requires Holds(q, all, symbol) && order.id in q.IdToItem && order.id in all && all[order.id] == order
    requires sold <= order.amountToSell && bought <= order.amountToBuy
    requires bought < order.amountToBuy ==> sold < order.amountToSell
    modifies q`Items, q`IdToItem, q.IdToItem.Values, order
    ensures Holds(q, all, symbol) && order.View() == Residual(old(order.View()), sold, bought)
    ensures q.IdToItem.Values <= old(q.IdToItem.Values)
  {
    hide Holds, OrderQueue.Sound, OrderQueue.SoundBut, OrderQueue.Valid;
    Registered(q, all, symbol, order);
    order.amountToBuy := order.amountToBuy - bought;
    order.amountToSell := order.amountToSell - sold;
    q.SoundAnyway(order.id);
    q.FixPrice(order.id);
    if order.amountToBuy == 0 {
      if !q.IdToItem[order.id].price.NotANumber? {
        q.SoundAnyway(order.id);
      }
      var _ := q.Remove(order.id);
    }
    HoldsAgain(q, all, symbol, order);
  }

  lemma Registered(q: OrderQueue, all: map<u64, OrderRef>, symbol: string, order: OrderRef)
    requires Holds(q, all, symbol) && order.id in all && all[order.id] == order
    ensures q.Sound() && forall id :: id in all && id != order.id ==> all[id] != order
    ensures order.id in q.IdToItem ==> q.IdToItem[order.id].order == order
  {
    hide OrderQueue.Sound;
  }

  /** The order to be restored: the one in the queue, or else the one handed along. */
  function Meant(q: OrderQueue, backup: OrderRef): OrderRef
    reads q, q.IdToItem.Values
  {
    if backup.id in q.IdToItem then q.IdToItem[backup.id].order else backup
  }

  /** The orders once this one is in the queue. */
  function Joined(all: map<u64, OrderRef>, order: OrderRef): map<u64, OrderRef> {
    all[order.id := order]
  }

  twostate lemma HoldsMore(q: OrderQueue, new all: map<u64, OrderRef>, new symbol: string, new order: OrderRef)
    requires old(allocated(all)) && old(allocated(order)) && old(Holds(q, all, symbol)) && order.buySymbol == symbol
    requires q.Sound() && order.id in q.IdToItem && q.IdToItem[order.id].order == order
    requires q.IdToItem.Keys == old(q.IdToItem.Keys) + {order.id}
    requires forall id :: id in old(q.IdToItem) ==> q.IdToItem[id] == old(q.IdToItem[id])
    requires forall id :: id in old(q.IdToItem) && id != order.id ==> q.IdToItem[id].price == old(q.IdToItem[id].price)
    requires q.IdToItem[order.id].price == PriceOf(q.side, order.View())
    requires order.amountToBuy > 0 && order.amountToSell > 0
    requires forall id :: id in all && id != order.id ==> unchanged(all[id])
    ensures Holds(q, Joined(all, order), symbol)
  {
    hide OrderQueue.Sound, PriceOf;
  }

  /** Make sure that an order is in the queue. */
  method returnOrder(q: OrderQueue, backup: OrderRef) returns (order: OrderRef)
    requires q.Sound() && Meant(q, backup).id == backup.id
    modifies q`Items, q`IdToItem, q.IdToItem.Values`index
    ensures order == old(Meant(q, backup)) && order.id in q.IdToItem && q.SoundBut(order.id)
    ensures q.IdToItem.Keys == old(q.IdToItem.Keys) + {backup.id} && q.IdToItem[order.id].order == order
    ensures forall id :: id in old(q.IdToItem) ==> q.IdToItem[id] == old(q.IdToItem[id])
    ensures fresh(q.IdToItem.Values - old(q.IdToItem.Values))
  {
    hide OrderQueue.Sound, OrderQueue.SoundBut, OrderQueue.Valid, PriceOf;
    var found, o := q.GetOrder(backup.id);
    order := if found then o else backup;
    if found {
      q.SoundAnyway(order.id);
    } else {
      q.Enq(order);
      if !q.IdToItem[order.id].price.NotANumber? {
        q.SoundAnyway(order.id);
      }
    }
  }

  /** Take a fill back: the order returns to the queue if it is not there, and its amounts are restored. */
  method unfillOrder(q: OrderQueue, backup: OrderRef, sold: u64, bought: u64,
                     ghost order: OrderRef, ghost all: map<u64, OrderRef>, ghost symbol: string)
    requires Holds(q, all, symbol) && order == Meant(q, backup) && backup.buySymbol == symbol
    requires 0 < order.amountToSell + sold < WORD && 0 < order.amountToBuy + bought < WORD
    modifies q`Items, q`IdToItem, q.IdToItem.Values, order
    ensures Holds(q, Joined(all, order), symbol) && order.View() == Restored(old(order.View()), sold, bought)
    ensures q.IdToItem.Keys == old(q.IdToItem.Keys) + {backup.id}
    ensures fresh(q.IdToItem.Values - old(q.IdToItem.Values))
  {
    hide Holds, OrderQueue.Sound, OrderQueue.SoundBut, OrderQueue.Valid, Joined;
    MeantId(q, all, symbol, backup);
    var o := returnOrder(q, backup);
    o.amountToBuy := o.amountToBuy + bought;
    o.amountToSell := o.amountToSell + sold;
    q.FixPrice(o.id);
    HoldsMore(q, all, symbol, o);
  }

  lemma MeantId(q: OrderQueue, all: map<u64, OrderRef>, symbol: string, backup: OrderRef)
    requires Holds(q, all, symbol) && backup.buySymbol == symbol
    ensures q.Sound() && Meant(q, backup).id == backup.id && Meant(q, backup).buySymbol == symbol
    ensures forall id :: id in all && id != backup.id ==> all[id] != Meant(q, backup)
  {}

  // ---------------------------------------------------------------- prices

  lemma RatioBelow(a: nat, b: nat, c: nat, d: nat)
    requires b > 0 && d > 0
    ensures a as real / b as real < c as real / d as real <==> a * d < c * b
  {
    var x, y := a as real / b as real, c as real / d as real;
    var B, D := b as real, d as real;
    assert x * B == a as real && y * D == c as real;
    assert (a * d) as real == x * (B * D);
    assert (c * b) as real == y * (B * D);
    assert B * D > 0.0;
    if x < y {
      assert x * (B * D) < y * (B * D);
    } else {
      assert x * (B * D) >= y * (B * D);
    }
  }

  /** The prices tell whether a bid and an ask cross. */
  lemma CrossesByPrice(buy: Order, sell: Order)
    requires Positive(buy) && Positive(sell)
    ensures Below(PriceOf(QUOTE, buy), PriceOf(BASE, sell)) <==> !Crosses(buy, sell)
  {
    RatioBelow(buy.amountToSell, buy.amountToBuy, sell.amountToBuy, sell.amountToSell);
  }

  /** When the best prices do not cross, no prices do. */
  lemma NoneCrosses(bid: Price, ask: Price, otherBid: Price, otherAsk: Price)
    requires !bid.NotANumber? && !ask.NotANumber? && !otherBid.NotANumber? && !otherAsk.NotANumber?
    requires Below(bid, ask) && !Better(QUOTE, otherBid, bid) && !Better(BASE, otherAsk, ask)
    ensures Below(otherBid, otherAsk)
  {}

  // ---------------------------------------------------------------- a book and its matches

  /** The orders of a book, those that are used up included. */
  datatype Book = Book(bids: map<u64, Order>, asks: map<u64, Order>)

  predicate Live(orders: map<u64, Order>, id: u64) {
    id in orders && orders[id].amountToBuy > 0
  }

  /** Orders that want something have something to give. */
  ghost predicate Sane(orders: map<u64, Order>) {
    forall id :: id in orders && orders[id].amountToBuy > 0 ==> orders[id].amountToSell > 0
  }

  /** The match fills two live orders of the book, in the way their amounts determine. */
  predicate Fitting(b: Book, m: Match, base: string, quote: string) {
    && Live(b.bids, m.buyOrderId) && Live(b.asks, m.sellOrderId)
    && m.buySymbol == base && m.sellSymbol == quote
    && var f := FillOf(b.bids[m.buyOrderId], b.asks[m.sellOrderId]);
    && m.transferAmt == f.transfer && m.sellerGain == f.gain && m.buyerLoss == f.loss && f.gain <= f.loss
  }

  function Filled(b: Book, m: Match): Book {
    if m.buyOrderId !in b.bids || m.sellOrderId !in b.asks then b
    else
      Book(b.bids[m.buyOrderId := Residual(b.bids[m.buyOrderId], m.buyerLoss, m.transferAmt)],
           b.asks[m.sellOrderId := Residual(b.asks[m.sellOrderId], m.transferAmt, m.sellerGain)])
  }

  function After(b: Book, ms: seq<Match>): Book {
    if ms == [] then b else Filled(After(b, ms[..|ms| - 1]), ms[|ms| - 1])
  }

  /** Each match fits the book that the ones before it leave. */
  ghost predicate AllFitting(b: Book, ms: seq<Match>, base: string, quote: string) {
    forall i :: 0 <= i < |ms| ==> Fitting(After(b, ms[..i]), ms[i], base, quote)
  }

  /** No live bid crosses a live ask. */
  ghost predicate Uncrossed(b: Book) {
    forall i, j :: Live(b.bids, i) && Live(b.asks, j) ==> !Crosses(b.bids[i], b.asks[j])
  }

  /** A bid offers no less for a unit than another. */
  predicate OffersMore(bid: Order, other: Order) {
    other.amountToSell * bid.amountToBuy <= bid.amountToSell * other.amountToBuy
  }

  /** An ask wants no more for a unit than another. */
  predicate WantsLess(ask: Order, other: Order) {
    ask.amountToBuy * other.amountToSell <= other.amountToBuy * ask.amountToSell
  }

  /** Price priority: no live bid offers more than that of the match, and no live ask wants less. */
  ghost predicate PriceFirst(b: Book, m: Match) {
    && m.buyOrderId in b.bids && m.sellOrderId in b.asks
    && (forall i :: Live(b.bids, i) ==> OffersMore(b.bids[m.buyOrderId], b.bids[i]))
    && (forall j :: Live(b.asks, j) ==> WantsLess(b.asks[m.sellOrderId], b.asks[j]))
  }

  /** Each match has price priority in the book that the ones before it leave. */
  ghost predicate AllPriceFirst(b: Book, ms: seq<Match>) {
    forall i :: 0 <= i < |ms| ==> PriceFirst(After(b, ms[..i]), ms[i])
  }

  lemma PriceFirstMore(b: Book, ms: seq<Match>, m: Match)
    requires AllPriceFirst(b, ms) && PriceFirst(After(b, ms), m)
    ensures AllPriceFirst(b, ms + [m])
  {
    hide PriceFirst;
    assert (ms + [m])[..|ms|] == ms;
    forall i | 0 <= i < |ms| ensures (ms + [m])[..i] == ms[..i] {}
  }

  lemma NoneBetter(a: Order, b: Order)
    requires Positive(a) && Positive(b)
    ensures !Better(QUOTE, PriceOf(QUOTE, b), PriceOf(QUOTE, a)) ==> OffersMore(a, b)
    ensures !Better(BASE, PriceOf(BASE, b), PriceOf(BASE, a)) ==> WantsLess(a, b)
  {
    RatioBelow(a.amountToSell, a.amountToBuy, b.amountToSell, b.amountToBuy);
    RatioBelow(b.amountToBuy, b.amountToSell, a.amountToBuy, a.amountToSell);
  }

  /** A match fits a book exactly if it is the exact fill of a live bid and a live ask, and the seller is
      offered no more than the buyer gives up. */
  lemma FittingIff(b: Book, m: Match, base: string, quote: string)
    requires Sane(b.bids) && Sane(b.asks)
    ensures Fitting(b, m, base, quote) <==>
      && Live(b.bids, m.buyOrderId) && Live(b.asks, m.sellOrderId) && m.buySymbol == base && m.sellSymbol == quote
      && Exact(b.bids[m.buyOrderId], b.asks[m.sellOrderId], m.transferAmt, m.buyerLoss, m.sellerGain)
      && m.sellerGain <= m.buyerLoss
  {
    hide FillOf, Exact;
    if Live(b.bids, m.buyOrderId) && Live(b.asks, m.sellOrderId) {
      FillExact(b.bids[m.buyOrderId], b.asks[m.sellOrderId], m.transferAmt, m.buyerLoss, m.sellerGain);
    }
  }

  lemma AfterMore(b: Book, ms: seq<Match>, m: Match, base: string, quote: string)
    requires AllFitting(b, ms, base, quote)
    ensures After(b, ms + [m]) == Filled(After(b, ms), m)
    ensures Fitting(After(b, ms), m, base, quote) ==> AllFitting(b, ms + [m], base, quote)
  {
    assert (ms + [m])[..|ms|] == ms;
    forall i | 0 <= i < |ms| ensures (ms + [m])[..i] == ms[..i] {}
  }

  /** A fitting match takes no more than there is, leaves the book sane, and uses up at least one order. */
  lemma FittingFill(b: Book, m: Match, base: string, quote: string)
    requires Fitting(b, m, base, quote) && Sane(b.bids) && Sane(b.asks)
    ensures var bid, ask := b.bids[m.buyOrderId], b.asks[m.sellOrderId];
      && m.buyerLoss <= bid.amountToSell && m.transferAmt <= bid.amountToBuy
      && m.transferAmt <= ask.amountToSell && m.sellerGain <= ask.amountToBuy
      && (m.transferAmt < bid.amountToBuy ==> m.buyerLoss < bid.amountToSell)
      && (m.sellerGain < ask.amountToBuy ==> m.transferAmt < ask.amountToSell)
      && (m.transferAmt == bid.amountToBuy || m.sellerGain == ask.amountToBuy)
    ensures Sane(Filled(b, m).bids) && Sane(Filled(b, m).asks)
  {
    var bid, ask := b.bids[m.buyOrderId], b.asks[m.sellOrderId];
    FillFits(bid, ask);
    FillProgress(bid, ask);
  }

  /** Taking a fitting match back gives the book that it was filled from. */
  lemma UnfilledBook(b: Book, m: Match, base: string, quote: string)
    requires Fitting(b, m, base, quote) && Sane(b.bids) && Sane(b.asks)
    ensures m.buyOrderId in Filled(b, m).bids && m.sellOrderId in Filled(b, m).asks
    ensures var bid, ask := Filled(b, m).bids[m.buyOrderId], Filled(b, m).asks[m.sellOrderId];
      && 0 < bid.amountToSell + m.buyerLoss < WORD && 0 < bid.amountToBuy + m.transferAmt < WORD
      && 0 < ask.amountToSell + m.transferAmt < WORD && 0 < ask.amountToBuy + m.sellerGain < WORD
      && Filled(b, m).bids[m.buyOrderId := Restored(bid, m.buyerLoss, m.transferAmt)] == b.bids
      && Filled(b, m).asks[m.sellOrderId := Restored(ask, m.transferAmt, m.sellerGain)] == b.asks
  {
    hide FillOf, Crosses;
    FittingFill(b, m, base, quote);
    RestoreUndoes(b.bids[m.buyOrderId], m.buyerLoss, m.transferAmt);
    RestoreUndoes(b.asks[m.sellOrderId], m.transferAmt, m.sellerGain);
  }

  lemma {:induction false} SaneAfter(b: Book, ms: seq<Match>, base: string, quote: string)
    requires Sane(b.bids) && Sane(b.asks) && AllFitting(b, ms, base, quote)
    ensures Sane(After(b, ms).bids) && Sane(After(b, ms).asks)
    decreases |ms|
  {
    hide Fitting, Sane, Filled;
    if ms != [] {
      var n := |ms| - 1;
      FittingPrefix(b, ms, n, base, quote);
      SaneAfter(b, ms[..n], base, quote);
      FittingFill(After(b, ms[..n]), ms[n], base, quote);
    }
  }

  lemma FittingPrefix(b: Book, ms: seq<Match>, n: nat, base: string, quote: string)
    requires AllFitting(b, ms, base, quote) && n <= |ms|
    ensures AllFitting(b, ms[..n], base, quote)
    ensures n < |ms| ==> After(b, ms[..n + 1]) == Filled(After(b, ms[..n]), ms[n]) && Fitting(After(b, ms[..n]), ms[n], base, quote)
  {
    hide Fitting, Filled;
    forall i | 0 <= i < n ensures ms[..n][..i] == ms[..i] {}
    if n < |ms| {
      assert ms[..n + 1][..n] == ms[..n];
    }
  }

  function LiveOrders(orders: map<u64, Order>): map<u64, Order> {
    map id | id in orders && orders[id].amountToBuy > 0 :: orders[id]
  }

  /** The book without the orders that are used up. */
  function LiveBook(b: Book): Book {
    Book(LiveOrders(b.bids), LiveOrders(b.asks))
  }

  /** What a bid and an ask give and receive in a match is there to be given and received. */
  predicate Payable(m: Match, bid: Order, ask: Order) {
    && m.buyerLoss <= bid.amountToSell && m.transferAmt <= bid.amountToBuy
    && m.transferAmt <= ask.amountToSell && m.sellerGain <= ask.amountToBuy
    && (m.transferAmt < bid.amountToBuy ==> m.buyerLoss < bid.amountToSell)
    && (m.sellerGain < ask.amountToBuy ==> m.transferAmt < ask.amountToSell)
  }

  // ---------------------------------------------------------------- how many matches there can be

  function LiveIds(orders: map<u64, Order>): set<u64> {
    set id | id in orders && orders[id].amountToBuy > 0
  }

  function LiveCount(b: Book): nat {
    |LiveIds(b.bids)| + |LiveIds(b.asks)|
  }

  lemma FewerLive(orders: map<u64, Order>, id: u64, o: Order)
    requires Live(orders, id)
    ensures |LiveIds(orders[id := o])| == |LiveIds(orders)| - (if o.amountToBuy == 0 then 1 else 0)
    ensures |LiveIds(orders)| > 0
  {
    if o.amountToBuy == 0 {
      assert LiveIds(orders[id := o]) == LiveIds(orders) - {id};
    } else {
      assert LiveIds(orders[id := o]) == LiveIds(orders);
    }
    assert id in LiveIds(orders);
  }

  /** Every match uses up an order of a book that has at least two. */
  lemma FewerAfterFill(b: Book, m: Match, base: string, quote: string)
    requires Fitting(b, m, base, quote) && Sane(b.bids) && Sane(b.asks)
    ensures LiveCount(Filled(b, m)) < LiveCount(b) && LiveCount(b) >= 2
  {
    hide FillOf, LiveIds;
    FittingFill(b, m, base, quote);
    FewerLive(b.bids, m.buyOrderId, Residual(b.bids[m.buyOrderId], m.buyerLoss, m.transferAmt));
    FewerLive(b.asks, m.sellOrderId, Residual(b.asks[m.sellOrderId], m.transferAmt, m.sellerGain));
  }

  // ---------------------------------------------------------------- which symbol is the base

  /** The order of strings. */
  predicate Precedes(a: string, b: string) {
    if b == [] then false
    else if a == [] then true
    else if a[0] != b[0] then a[0] < b[0]
    else Precedes(a[1..], b[1..])
  }

  /** The base symbol is the greater one. */
  function GetBaseQuote(symbol1: string, symbol2: string): (string, string) {
    if Precedes(symbol2, symbol1) then (symbol1, symbol2) else (symbol2, symbol1)
  }

  lemma {:induction false} OneWayOnly(a: string, b: string)
    ensures !(Precedes(a, b) && Precedes(b, a))
    ensures a != b ==> Precedes(a, b) || Precedes(b, a)
  {
    if a != [] && b != [] && a[0] == b[0] {
      OneWayOnly(a[1..], b[1..]);
      assert a == [a[0]] + a[1..] && b == [b[0]] + b[1..];
    }
  }

  /** Whichever symbol is named first, the book is the same one. */
  lemma SameBook(a: string, b: string)
    ensures GetBaseQuote(a, b) == GetBaseQuote(b, a)
  {
    OneWayOnly(a, b);
  }

  const NO_MATCH: Match := Match(0, "", 0, 0, "", 0, 0, 0)

  datatype MatchDiscovery = MatchDiscovery(m: Match, quoteOrder: OrderRef, baseOrder: OrderRef)

  class Orderbook {
    const BaseQueue: OrderQueue
    const BaseSymbol: string
    const QuoteQueue: OrderQueue
    const QuoteSymbol: string
    var Dirty: bool

    constructor (symbol1: string, symbol2: string)
      requires symbol1 != symbol2
      ensures (BaseSymbol, QuoteSymbol) == GetBaseQuote(symbol1, symbol2)
      ensures Open() && Blank() && !Dirty && fresh(Repr())
    {
      hide OrderQueue.Sound;
      var names := GetBaseQuote(symbol1, symbol2);
      BaseSymbol, QuoteSymbol := names.0, names.1;
      BaseQueue := new OrderQueue(BASE);
      QuoteQueue := new OrderQueue(QUOTE);
      Dirty := false;
    }

    /** These are the orders of the book: the live ones are in the queues. */
    ghost predicate Valid(bids: map<u64, OrderRef>, asks: map<u64, OrderRef>)
      reads QuoteQueue, QuoteQueue.Items, QuoteQueue.IdToItem.Values, bids.Values,
            BaseQueue, BaseQueue.Items, BaseQueue.IdToItem.Values, asks.Values
    {
      && BaseQueue != QuoteQueue && BaseSymbol != QuoteSymbol && QuoteQueue.side == QUOTE && BaseQueue.side == BASE
      && Holds(QuoteQueue, bids, QuoteSymbol) && Holds(BaseQueue, asks, BaseSymbol)
    }

    ghost function View(bids: map<u64, OrderRef>, asks: map<u64, OrderRef>): Book
      reads bids.Values, asks.Values
    {
      Book(Views(bids), Views(asks))
    }

    /** The best bid and the best ask, if they cross. */
    method findMatchUnlocked(ghost bids: map<u64, OrderRef>, ghost asks: map<u64, OrderRef>)
      returns (found: bool, m: Match, quoteOrder: OrderRef?, baseOrder: OrderRef?)
      requires Valid(bids, asks)
      ensures found ==> Fitting(View(bids, asks), m, BaseSymbol, QuoteSymbol) && PriceFirst(View(bids, asks), m)
      ensures found ==>
        var bid, ask := View(bids, asks).bids[m.buyOrderId], View(bids, asks).asks[m.sellOrderId];
        Exact(bid, ask, m.transferAmt, m.buyerLoss, m.sellerGain) && m.sellerGain <= m.buyerLoss
      ensures found ==>
        && m.buyOrderId in QuoteQueue.IdToItem && m.buyOrderId in bids && quoteOrder == bids[m.buyOrderId]
        && m.sellOrderId in BaseQueue.IdToItem && m.sellOrderId in asks && baseOrder == asks[m.sellOrderId]
      ensures !found ==> Uncrossed(View(bids, asks))
    {
      hide OrderQueue.Sound, Crosses, FillOf, PriceOf, Exact, PriceFirst;
      found, m, quoteOrder, baseOrder := false, NO_MATCH, null, null;
      var haveBuy, buyOrder, buyPrice := QuoteQueue.Peek();
      var haveSell, sellOrder, sellPrice := BaseQueue.Peek();
      if !haveBuy || !haveSell {
        return;
      }
      CrossesByPrice(buyOrder.View(), sellOrder.View());
      if Below(buyPrice, sellPrice) {
        BestDoNotCross(bids, asks, buyPrice, sellPrice);
        return;
      }
      FillPriced(buyOrder.View(), sellOrder.View());
      FillProgress(buyOrder.View(), sellOrder.View());
      var f := FillOf(buyOrder.View(), sellOrder.View());
      if f.gain > f.loss {
        return;
      }
      var id: u64 := *;
      found := true;
      m := Match(id, QuoteSymbol, sellOrder.id, f.gain, BaseSymbol, buyOrder.id, f.loss, f.transfer);
      quoteOrder, baseOrder := buyOrder, sellOrder;
      FillExact(buyOrder.View(), sellOrder.View(), f.transfer, f.loss, f.gain);
      BestComeFirst(bids, asks, m, buyPrice, sellPrice);
    }

    lemma BestComeFirst(bids: map<u64, OrderRef>, asks: map<u64, OrderRef>, m: Match, bid: Price, ask: Price)
      requires Valid(bids, asks) && m.buyOrderId in QuoteQueue.IdToItem && m.sellOrderId in BaseQueue.IdToItem
      requires m.buyOrderId in bids && m.sellOrderId in asks
      requires QuoteQueue.IdToItem[m.buyOrderId].price == bid && BaseQueue.IdToItem[m.sellOrderId].price == ask
      requires forall id :: id in QuoteQueue.IdToItem ==> !Better(QUOTE, QuoteQueue.IdToItem[id].price, bid)
      requires forall id :: id in BaseQueue.IdToItem ==> !Better(BASE, BaseQueue.IdToItem[id].price, ask)
      ensures PriceFirst(View(bids, asks), m)
    {
      hide OrderQueue.Sound, PriceOf, OffersMore, WantsLess;
      var b := View(bids, asks);
      forall i | Live(b.bids, i) ensures OffersMore(b.bids[m.buyOrderId], b.bids[i]) {
        NoneBetter(b.bids[m.buyOrderId], b.bids[i]);
      }
      forall j | Live(b.asks, j) ensures WantsLess(b.asks[m.sellOrderId], b.asks[j]) {
        NoneBetter(b.asks[m.sellOrderId], b.asks[j]);
      }
    }

    lemma BestDoNotCross(bids: map<u64, OrderRef>, asks: map<u64, OrderRef>, bid: Price, ask: Price)
      requires Valid(bids, asks) && Below(bid, ask) && !bid.NotANumber? && !ask.NotANumber?
      requires forall id :: id in QuoteQueue.IdToItem ==> !Better(QUOTE, QuoteQueue.IdToItem[id].price, bid)
      requires forall id :: id in BaseQueue.IdToItem ==> !Better(BASE, BaseQueue.IdToItem[id].price, ask)
      ensures Uncrossed(View(bids, asks))
    {
      hide OrderQueue.Sound, Crosses;
      var b := View(bids, asks);
      forall i, j | Live(b.bids, i) && Live(b.asks, j) ensures !Crosses(b.bids[i], b.asks[j]) {
        NoneCrosses(bid, ask, QuoteQueue.IdToItem[i].price, BaseQueue.IdToItem[j].price);
        CrossesByPrice(b.bids[i], b.asks[j]);
      }
    }

    /** The two sides share no items and no orders. */
    lemma Apart(bids: map<u64, OrderRef>, asks: map<u64, OrderRef>)
      requires Valid(bids, asks)
      ensures forall i, j :: i in QuoteQueue.IdToItem && j in BaseQueue.IdToItem ==> QuoteQueue.IdToItem[i] != BaseQueue.IdToItem[j]
      ensures forall i, j :: i in bids && j in asks ==> bids[i] != asks[j]
      ensures forall k :: 0 <= k < |QuoteQueue.Items| ==> QuoteQueue.Items[k] in QuoteQueue.IdToItem.Values
      ensures forall k :: 0 <= k < |BaseQueue.Items| ==> BaseQueue.Items[k] in BaseQueue.IdToItem.Values
    {
      hide Heap, PricesOf;
      forall k | 0 <= k < |QuoteQueue.Items| ensures QuoteQueue.Items[k] in QuoteQueue.IdToItem.Values {
        assert QuoteQueue.IdToItem[QuoteQueue.Items[k].order.id] == QuoteQueue.Items[k];
      }
      forall k | 0 <= k < |BaseQueue.Items| ensures BaseQueue.Items[k] in BaseQueue.IdToItem.Values {
        assert BaseQueue.IdToItem[BaseQueue.Items[k].order.id] == BaseQueue.Items[k];
      }
    }

    /** Fill the bid of a match. */
    method fillBid(order: OrderRef, m: Match, ghost bids: map<u64, OrderRef>, ghost asks: map<u64, OrderRef>)
      requires Valid(bids, asks) && m.buyOrderId in QuoteQueue.IdToItem && order == QuoteQueue.IdToItem[m.buyOrderId].order
      requires m.buyerLoss <= order.amountToSell && m.transferAmt <= order.amountToBuy
      requires m.transferAmt < order.amountToBuy ==> m.buyerLoss < order.amountToSell
      modifies QuoteQueue, QuoteQueue.IdToItem.Values, order
      ensures Valid(bids, asks) && m.buyOrderId in bids
      ensures Views(bids) == old(Views(bids))[m.buyOrderId := Residual(old(order.View()), m.buyerLoss, m.transferAmt)]
      ensures Views(asks) == old(Views(asks)) && QuoteQueue.IdToItem.Values <= old(QuoteQueue.IdToItem.Values)
    {
      hide Holds, Residual;
      Apart(bids, asks);
      InQueue(QuoteQueue, bids, QuoteSymbol, m.buyOrderId);
      fillOrder(QuoteQueue, order, m.buyerLoss, m.transferAmt, bids, QuoteSymbol);
      StillHolds(BaseQueue, asks, BaseSymbol);
    }

    /** Fill the ask of a match. */
    method fillAsk(order: OrderRef, m: Match, ghost bids: map<u64, OrderRef>, ghost asks: map<u64, OrderRef>)
      requires Valid(bids, asks) && m.sellOrderId in BaseQueue.IdToItem && order == BaseQueue.IdToItem[m.sellOrderId].order
      requires m.transferAmt <= order.amountToSell && m.sellerGain <= order.amountToBuy
      requires m.sellerGain < order.amountToBuy ==> m.transferAmt < order.amountToSell
      modifies BaseQueue, BaseQueue.IdToItem.Values, order
      ensures Valid(bids, asks) && m.sellOrderId in asks
      ensures Views(asks) == old(Views(asks))[m.sellOrderId := Residual(old(order.View()), m.transferAmt, m.sellerGain)]
      ensures Views(bids) == old(Views(bids)) && BaseQueue.IdToItem.Values <= old(BaseQueue.IdToItem.Values)
    {
      hide Holds, Residual;
      Apart(bids, asks);
      InQueue(BaseQueue, asks, BaseSymbol, m.sellOrderId);
      fillOrder(BaseQueue, order, m.transferAmt, m.sellerGain, asks, BaseSymbol);
      StillHolds(QuoteQueue, bids, QuoteSymbol);
    }

    /** Fill both orders of a match; the program panics when one is missing. */
    method applyMatchUnlocked(m: Match, ghost bids: map<u64, OrderRef>, ghost asks: map<u64, OrderRef>) returns (panicked: bool)
      requires Valid(bids, asks)
      requires m.buyOrderId in QuoteQueue.IdToItem && m.sellOrderId in BaseQueue.IdToItem ==>
        Payable(m, QuoteQueue.IdToItem[m.buyOrderId].order.View(), BaseQueue.IdToItem[m.sellOrderId].order.View())
      modifies QuoteQueue, QuoteQueue.IdToItem.Values, bids.Values, BaseQueue, BaseQueue.IdToItem.Values, asks.Values
      ensures panicked <==> old(m.buyOrderId !in QuoteQueue.IdToItem || m.sellOrderId !in BaseQueue.IdToItem)
      ensures Valid(bids, asks) && View(bids, asks) == if panicked then old(View(bids, asks)) else Filled(old(View(bids, asks)), m)
      ensures QuoteQueue.IdToItem.Values <= old(QuoteQueue.IdToItem.Values)
      ensures BaseQueue.IdToItem.Values <= old(BaseQueue.IdToItem.Values)
    {
      hide Holds, Residual, Valid;
      var haveBuy, buyOrder := QuoteQueue.GetOrder(m.buyOrderId);
      if !haveBuy {
        return true;
      }
      var haveSell, sellOrder := BaseQueue.GetOrder(m.sellOrderId);
      if !haveSell {
        return true;
      }
      Separate(m, bids, asks);
      fillBid(buyOrder, m, bids, asks);
      fillAsk(sellOrder, m, bids, asks);
      panicked := false;
    }

    /** The two orders of a match are two objects, and filling one leaves the other in its queue. */
    lemma Separate(m: Match, bids: map<u64, OrderRef>, asks: map<u64, OrderRef>)
      requires Valid(bids, asks) && m.buyOrderId in QuoteQueue.IdToItem && m.sellOrderId in BaseQueue.IdToItem
      ensures var buy, sell := QuoteQueue.IdToItem[m.buyOrderId].order, BaseQueue.IdToItem[m.sellOrderId].order;
        && m.buyOrderId in bids && buy == bids[m.buyOrderId] && m.sellOrderId in asks && sell == asks[m.sellOrderId]
        && buy != sell
      ensures QuoteQueue != BaseQueue
      ensures forall j :: j in BaseQueue.IdToItem ==> BaseQueue.IdToItem[j] !in QuoteQueue.IdToItem.Values
    {
      hide OrderQueue.Sound;
    }

    /** Take the fill of a bid back. */
    method unfillBid(backup: OrderRef, m: Match, ghost order: OrderRef, ghost bids: map<u64, OrderRef>, ghost asks: map<u64, OrderRef>)
      requires Valid(bids, asks) && backup.id == m.buyOrderId && backup.buySymbol == QuoteSymbol
      requires order == Meant(QuoteQueue, backup)
      requires 0 < order.amountToSell + m.buyerLoss < WORD && 0 < order.amountToBuy + m.transferAmt < WORD
      modifies QuoteQueue, QuoteQueue.IdToItem.Values, order
      ensures Valid(Joined(bids, order), asks) && Views(asks) == old(Views(asks))
      ensures Views(Joined(bids, order)) ==
              old(Views(bids))[m.buyOrderId := Restored(old(order.View()), m.buyerLoss, m.transferAmt)]
      ensures fresh(QuoteQueue.IdToItem.Values - old(QuoteQueue.IdToItem.Values))
    {
      hide *;
      Apart(bids, asks);
      ValidParts(bids, asks);
      MeantId(QuoteQueue, bids, QuoteSymbol, backup);
      ApartFrom(asks, BaseSymbol, order);
      unfillOrder(QuoteQueue, backup, m.buyerLoss, m.transferAmt, order, bids, QuoteSymbol);
      StillHolds(BaseQueue, asks, BaseSymbol);
      ViewsWith(bids, order, Restored(old(order.View()), m.buyerLoss, m.transferAmt));
      SameViews(asks);
      ValidWhole(Joined(bids, order), asks);
    }

    /** Take the fill of an ask back. */
    method unfillAsk(backup: OrderRef, m: Match, ghost order: OrderRef, ghost bids: map<u64, OrderRef>, ghost asks: map<u64, OrderRef>)
      requires Valid(bids, asks) && backup.id == m.sellOrderId && backup.buySymbol == BaseSymbol
      requires order == Meant(BaseQueue, backup)
      requires 0 < order.amountToSell + m.transferAmt < WORD && 0 < order.amountToBuy + m.sellerGain < WORD
      modifies BaseQueue, BaseQueue.IdToItem.Values, order
      ensures Valid(bids, Joined(asks, order)) && Views(bids) == old(Views(bids))
      ensures Views(Joined(asks, order)) ==
              old(Views(asks))[m.sellOrderId := Restored(old(order.View()), m.transferAmt, m.sellerGain)]
      ensures fresh(BaseQueue.IdToItem.Values - old(BaseQueue.IdToItem.Values))
    {
      hide *;
      Apart(bids, asks);
      ValidParts(bids, asks);
      MeantId(BaseQueue, asks, BaseSymbol, backup);
      ApartFrom(bids, QuoteSymbol, order);
      unfillOrder(BaseQueue, backup, m.transferAmt, m.sellerGain, order, asks, BaseSymbol);
      StillHolds(QuoteQueue, bids, QuoteSymbol);
      ViewsWith(asks, order, Restored(old(order.View()), m.transferAmt, m.sellerGain));
      SameViews(bids);
      ValidWhole(bids, Joined(asks, order));
    }

    lemma ValidParts(bids: map<u64, OrderRef>, asks: map<u64, OrderRef>)
      requires Valid(bids, asks)
      ensures BaseQueue != QuoteQueue && BaseSymbol != QuoteSymbol && QuoteQueue.side == QUOTE && BaseQueue.side == BASE
      ensures Holds(QuoteQueue, bids, QuoteSymbol) && Holds(BaseQueue, asks, BaseSymbol)
    {
      hide Holds;
    }

    lemma ValidWhole(bids: map<u64, OrderRef>, asks: map<u64, OrderRef>)
      requires BaseQueue != QuoteQueue && BaseSymbol != QuoteSymbol && QuoteQueue.side == QUOTE && BaseQueue.side == BASE
      requires Holds(QuoteQueue, bids, QuoteSymbol) && Holds(BaseQueue, asks, BaseSymbol)
      ensures Valid(bids, asks)
    {}

    lemma ApartFrom(all: map<u64, OrderRef>, symbol: string, order: OrderRef)
      requires (Holds(BaseQueue, all, symbol) || Holds(QuoteQueue, all, symbol)) && order.buySymbol != symbol
      ensures forall id :: id in all ==> all[id] != order
    {}

    /** Take a match back: both orders return to their queues, with what they had before. */
    method unapplyMatchUnlocked(m: Match, order1: OrderRef, order2: OrderRef,
                                ghost buy: OrderRef, ghost sell: OrderRef, ghost bids: map<u64, OrderRef>, ghost asks: map<u64, OrderRef>)
      requires Valid(bids, asks)
      requires var (backupBuy, backupSell) := if order1.buySymbol == QuoteSymbol then (order1, order2) else (order2, order1);
        && backupBuy.id == m.buyOrderId && backupBuy.buySymbol == QuoteSymbol && buy == Meant(QuoteQueue, backupBuy)
        && backupSell.id == m.sellOrderId && backupSell.buySymbol == BaseSymbol && sell == Meant(BaseQueue, backupSell)
      requires 0 < buy.amountToSell + m.buyerLoss < WORD && 0 < buy.amountToBuy + m.transferAmt < WORD
      requires 0 < sell.amountToSell + m.transferAmt < WORD && 0 < sell.amountToBuy + m.sellerGain < WORD
      modifies QuoteQueue, QuoteQueue.IdToItem.Values, buy, BaseQueue, BaseQueue.IdToItem.Values, sell
      ensures Valid(Joined(bids, buy), Joined(asks, sell))
      ensures Views(Joined(bids, buy)) == old(Views(bids))[m.buyOrderId := Restored(old(buy.View()), m.buyerLoss, m.transferAmt)]
      ensures Views(Joined(asks, sell)) == old(Views(asks))[m.sellOrderId := Restored(old(sell.View()), m.transferAmt, m.sellerGain)]
      ensures fresh(QuoteQueue.IdToItem.Values - old(QuoteQueue.IdToItem.Values))
      ensures fresh(BaseQueue.IdToItem.Values - old(BaseQueue.IdToItem.Values))
    {
      hide Holds, Restored;
      var backupBuy, backupSell := order1, order2;
      if order1.buySymbol != QuoteSymbol {
        backupBuy, backupSell := order2, order1;
      }
      MeantId(QuoteQueue, bids, QuoteSymbol, backupBuy);
      MeantId(BaseQueue, asks, BaseSymbol, backupSell);
      ApartItems(bids, asks);
      unfillBid(backupBuy, m, buy, bids, asks);
      unfillAsk(backupSell, m, sell, Joined(bids, buy), asks);
    }

    lemma ApartItems(bids: map<u64, OrderRef>, asks: map<u64, OrderRef>)
      requires Valid(bids, asks)
      ensures forall j :: j in BaseQueue.IdToItem ==> BaseQueue.IdToItem[j] !in QuoteQueue.IdToItem.Values
    {
      hide OrderQueue.Sound;
    }

    /** What was discovered: the matches and the orders that they fill. */
    ghost predicate Recorded(discoveries: seq<MatchDiscovery>, ms: seq<Match>, bids: map<u64, OrderRef>, asks: map<u64, OrderRef>) {
      |discoveries| == |ms| && forall i :: 0 <= i < |ms| ==>
        && discoveries[i].m == ms[i]
        && ms[i].buyOrderId in bids && discoveries[i].quoteOrder == bids[ms[i].buyOrderId]
        && ms[i].sellOrderId in asks && discoveries[i].baseOrder == asks[ms[i].sellOrderId]
    }

    lemma BookFacts(bids: map<u64, OrderRef>, asks: map<u64, OrderRef>)
      requires Valid(bids, asks)
      ensures Sane(View(bids, asks).bids) && Sane(View(bids, asks).asks)
      ensures LiveIds(View(bids, asks).bids) == QuoteQueue.IdToItem.Keys
      ensures LiveIds(View(bids, asks).asks) == BaseQueue.IdToItem.Keys
      ensures forall id :: id in QuoteQueue.IdToItem ==> id in bids && QuoteQueue.IdToItem[id].order == bids[id]
      ensures forall id :: id in BaseQueue.IdToItem ==> id in asks && BaseQueue.IdToItem[id].order == asks[id]
    {
      hide OrderQueue.Sound;
    }

    /** Find a match and fill it. */
    method matchOnce(matches: seq<Match>, discoveries: seq<MatchDiscovery>,
                     ghost b: Book, ghost bids: map<u64, OrderRef>, ghost asks: map<u64, OrderRef>)
      returns (found: bool, matches': seq<Match>, discoveries': seq<MatchDiscovery>)
      requires Valid(bids, asks) && AllFitting(b, matches, BaseSymbol, QuoteSymbol) && AllPriceFirst(b, matches)
      requires View(bids, asks) == After(b, matches) && Recorded(discoveries, matches, bids, asks)
      modifies QuoteQueue, QuoteQueue.IdToItem.Values, bids.Values, BaseQueue, BaseQueue.IdToItem.Values, asks.Values
      ensures Valid(bids, asks) && AllFitting(b, matches', BaseSymbol, QuoteSymbol) && AllPriceFirst(b, matches')
      ensures View(bids, asks) == After(b, matches') && Recorded(discoveries', matches', bids, asks)
      ensures !found ==> matches' == matches && Uncrossed(View(bids, asks))
      ensures found ==>
        && |matches'| == |matches| + 1 && old(LiveCount(View(bids, asks))) >= 2
        && LiveCount(View(bids, asks)) < old(LiveCount(View(bids, asks)))
      ensures QuoteQueue.IdToItem.Values <= old(QuoteQueue.IdToItem.Values)
      ensures BaseQueue.IdToItem.Values <= old(BaseQueue.IdToItem.Values)
    {
      hide *;
      matches', discoveries' := matches, discoveries;
      var m, quoteOrder, baseOrder;
      found, m, quoteOrder, baseOrder := findMatchUnlocked(bids, asks);
      if found {
        PriceFirstMore(b, matches, m);
        FoundMore(b, matches, m, discoveries, MatchDiscovery(m, quoteOrder, baseOrder), bids, asks);
        matches', discoveries' := matches + [m], discoveries + [MatchDiscovery(m, quoteOrder, baseOrder)];
        var _ := applyMatchUnlocked(m, bids, asks);
      }
    }

    /** Find matches and fill them until the best prices do not cross any more. */
    method matchAll(ghost bids: map<u64, OrderRef>, ghost asks: map<u64, OrderRef>)
      returns (matches: seq<Match>, discoveries: seq<MatchDiscovery>)
      requires Valid(bids, asks)
      modifies QuoteQueue, QuoteQueue.IdToItem.Values, bids.Values, BaseQueue, BaseQueue.IdToItem.Values, asks.Values
      ensures Valid(bids, asks) && AllFitting(old(View(bids, asks)), matches, BaseSymbol, QuoteSymbol)
      ensures View(bids, asks) == After(old(View(bids, asks)), matches) && Uncrossed(View(bids, asks))
      ensures AllPriceFirst(old(View(bids, asks)), matches)
      ensures Recorded(discoveries, matches, bids, asks)
      ensures matches == [] || |matches| < LiveCount(old(View(bids, asks)))
      ensures QuoteQueue.IdToItem.Values <= old(QuoteQueue.IdToItem.Values)
      ensures BaseQueue.IdToItem.Values <= old(BaseQueue.IdToItem.Values)
    {
      hide *;
      ghost var b := View(bids, asks);
      matches, discoveries := [], [];
      NothingFound(b, bids, asks);
      var found := true;
      while found
        invariant Valid(bids, asks) && AllFitting(b, matches, BaseSymbol, QuoteSymbol) && AllPriceFirst(b, matches)
        invariant View(bids, asks) == After(b, matches) && Recorded(discoveries, matches, bids, asks)
        invariant matches == [] || |matches| < LiveCount(b)
        invariant |matches| + LiveCount(View(bids, asks)) <= LiveCount(b)
        invariant QuoteQueue.IdToItem.Values <= old(QuoteQueue.IdToItem.Values)
        invariant BaseQueue.IdToItem.Values <= old(BaseQueue.IdToItem.Values)
        invariant !found ==> Uncrossed(View(bids, asks))
        decreases LiveCount(View(bids, asks)), if found then 1 else 0
      {
        found, matches, discoveries := matchOnce(matches, discoveries, b, bids, asks);
      }
    }

    /** Take all matches back, last one first. */
    method unmatchAll(discoveries: seq<MatchDiscovery>, ghost b: Book, ghost ms: seq<Match>,
                      ghost bids: map<u64, OrderRef>, ghost asks: map<u64, OrderRef>)
      requires Valid(bids, asks) && Recorded(discoveries, ms, bids, asks) && View(bids, asks) == After(b, ms)
      requires AllFitting(b, ms, BaseSymbol, QuoteSymbol) && Sane(b.bids) && Sane(b.asks)
      modifies QuoteQueue, QuoteQueue.IdToItem.Values, bids.Values, BaseQueue, BaseQueue.IdToItem.Values, asks.Values
      ensures Valid(bids, asks) && View(bids, asks) == b
      ensures fresh(QuoteQueue.IdToItem.Values - old(QuoteQueue.IdToItem.Values))
      ensures fresh(BaseQueue.IdToItem.Values - old(BaseQueue.IdToItem.Values))
    {
      hide *;
      var i := |discoveries|;
      CountRecorded(discoveries, ms, bids, asks);
      assert ms[..i] == ms;
      while i > 0
        invariant 0 <= i <= |discoveries| == |ms|
        invariant Valid(bids, asks) && View(bids, asks) == After(b, ms[..i])
        invariant fresh(QuoteQueue.IdToItem.Values - old(QuoteQueue.IdToItem.Values))
        invariant fresh(BaseQueue.IdToItem.Values - old(BaseQueue.IdToItem.Values))
      {
        i := i - 1;
        unmatchOne(discoveries, i, b, ms, bids, asks);
      }
      assert ms[..0] == [];
      NothingFound(b, bids, asks);
    }

    method unmatchOne(discoveries: seq<MatchDiscovery>, i: nat, ghost b: Book, ghost ms: seq<Match>,
                      ghost bids: map<u64, OrderRef>, ghost asks: map<u64, OrderRef>)
      requires Valid(bids, asks) && Recorded(discoveries, ms, bids, asks) && i < |discoveries| == |ms|
      requires AllFitting(b, ms, BaseSymbol, QuoteSymbol) && Sane(b.bids) && Sane(b.asks)
      requires View(bids, asks) == After(b, ms[..i + 1])
      modifies QuoteQueue, QuoteQueue.IdToItem.Values, bids.Values, BaseQueue, BaseQueue.IdToItem.Values, asks.Values
      ensures Valid(bids, asks) && View(bids, asks) == After(b, ms[..i])
      ensures fresh(QuoteQueue.IdToItem.Values - old(QuoteQueue.IdToItem.Values))
      ensures fresh(BaseQueue.IdToItem.Values - old(BaseQueue.IdToItem.Values))
    {
      hide *;
      ghost var m := ms[i];
      ReadyToUnfill(discoveries, i, b, ms, bids, asks);
      unapplyMatchUnlocked(discoveries[i].m, discoveries[i].quoteOrder, discoveries[i].baseOrder,
                           bids[m.buyOrderId], asks[m.sellOrderId], bids, asks);
      ViewIs(bids, asks, After(b, ms[..i]));
    }

    lemma ViewIs(bids: map<u64, OrderRef>, asks: map<u64, OrderRef>, b: Book)
      requires Views(bids) == b.bids && Views(asks) == b.asks
      ensures View(bids, asks) == b
    {}

    lemma CountRecorded(ds: seq<MatchDiscovery>, ms: seq<Match>, bids: map<u64, OrderRef>, asks: map<u64, OrderRef>)
      requires Recorded(ds, ms, bids, asks)
      ensures |ds| == |ms|
    {}

    lemma ReadyToUnfill(ds: seq<MatchDiscovery>, i: nat, b: Book, ms: seq<Match>, bids: map<u64, OrderRef>, asks: map<u64, OrderRef>)
      requires Valid(bids, asks) && Recorded(ds, ms, bids, asks) && i < |ds| == |ms|
      requires AllFitting(b, ms, BaseSymbol, QuoteSymbol) && Sane(b.bids) && Sane(b.asks)
      requires View(bids, asks) == After(b, ms[..i + 1])
      ensures ms[i].buyOrderId in bids && ms[i].sellOrderId in asks
      ensures var buy, sell, m := bids[ms[i].buyOrderId], asks[ms[i].sellOrderId], ms[i];
        && ds[i] == MatchDiscovery(m, buy, sell) && Joined(bids, buy) == bids && Joined(asks, sell) == asks
        && buy.id == m.buyOrderId && buy.buySymbol == QuoteSymbol && buy == Meant(QuoteQueue, buy)
        && sell.id == m.sellOrderId && sell.buySymbol == BaseSymbol && sell == Meant(BaseQueue, sell)
        && 0 < buy.amountToSell + m.buyerLoss < WORD && 0 < buy.amountToBuy + m.transferAmt < WORD
        && 0 < sell.amountToSell + m.transferAmt < WORD && 0 < sell.amountToBuy + m.sellerGain < WORD
      ensures var m, was := ms[i], After(b, ms[..i]);
        && Views(bids)[m.buyOrderId := Restored(bids[m.buyOrderId].View(), m.buyerLoss, m.transferAmt)] == was.bids
        && Views(asks)[m.sellOrderId := Restored(asks[m.sellOrderId].View(), m.transferAmt, m.sellerGain)] == was.asks
    {
      hide Fitting, Filled, Sane, OrderQueue.Sound, Residual, Restored;
      FittingPrefix(b, ms, i, BaseSymbol, QuoteSymbol);
      SaneAfter(b, ms[..i], BaseSymbol, QuoteSymbol);
      UnfilledBook(After(b, ms[..i]), ms[i], BaseSymbol, QuoteSymbol);
    }

    lemma NothingFound(b: Book, bids: map<u64, OrderRef>, asks: map<u64, OrderRef>)
      ensures AllFitting(b, [], BaseSymbol, QuoteSymbol) && AllPriceFirst(b, []) && After(b, []) == b && Recorded([], [], bids, asks)
    {}

    lemma FoundMore(b: Book, ms: seq<Match>, m: Match, ds: seq<MatchDiscovery>, d: MatchDiscovery,
                    bids: map<u64, OrderRef>, asks: map<u64, OrderRef>)
      requires Valid(bids, asks) && View(bids, asks) == After(b, ms) && AllFitting(b, ms, BaseSymbol, QuoteSymbol)
      requires Fitting(View(bids, asks), m, BaseSymbol, QuoteSymbol) && Recorded(ds, ms, bids, asks)
      requires m.buyOrderId in bids && m.sellOrderId in asks && d == MatchDiscovery(m, bids[m.buyOrderId], asks[m.sellOrderId])
      requires m.buyOrderId in QuoteQueue.IdToItem && m.sellOrderId in BaseQueue.IdToItem
      ensures Payable(m, QuoteQueue.IdToItem[m.buyOrderId].order.View(), BaseQueue.IdToItem[m.sellOrderId].order.View())
      ensures AllFitting(b, ms + [m], BaseSymbol, QuoteSymbol) && After(b, ms + [m]) == Filled(View(bids, asks), m)
      ensures Recorded(ds + [d], ms + [m], bids, asks)
      ensures LiveCount(Filled(View(bids, asks), m)) < LiveCount(View(bids, asks)) && LiveCount(View(bids, asks)) >= 2
    {
      hide Fitting, LiveCount, FillOf, Holds, Sane;
      BookFacts(bids, asks);
      AfterMore(b, ms, m, BaseSymbol, QuoteSymbol);
      FittingFill(View(bids, asks), m, BaseSymbol, QuoteSymbol);
      FewerAfterFill(View(bids, asks), m, BaseSymbol, QuoteSymbol);
    }

    /** The book, its queues, their items, and the orders in them. */
    ghost function Repr(): set<object>
      reads QuoteQueue, QuoteQueue.IdToItem.Values, BaseQueue, BaseQueue.IdToItem.Values
    {
      {this, QuoteQueue, BaseQueue} + PartsOf(QuoteQueue) + PartsOf(BaseQueue)
    }

    lemma InRepr()
      ensures this in Repr() && QuoteQueue in Repr() && BaseQueue in Repr()
      ensures forall i :: i in QuoteQueue.IdToItem.Values || i in BaseQueue.IdToItem.Values ==> i in Repr()
      ensures forall r :: r in Refs(QuoteQueue).Values || r in Refs(BaseQueue).Values ==> r in Repr()
    {}

    /** Nothing of the book has changed. */
    twostate predicate Still()
      reads *
    {
      unchanged(this) && Same(QuoteQueue) && Same(BaseQueue)
    }

    twostate lemma StillMeans()
      requires old(Open()) && Still()
      ensures Open() && Orders() == old(Orders()) && Repr() == old(Repr()) && Dirty == old(Dirty)
    {
      hide Holds, PartsOf, Same, Refs, Views;
      SameHolds(QuoteQueue, QuoteSymbol);
      SameHolds(BaseQueue, BaseSymbol);
    }

    twostate lemma ReprAllocated()
      ensures forall o :: o in old(Repr()) ==> old(allocated(o))
    {}

    twostate lemma StillWhenUnchanged()
      requires Untouched(old(Repr()))
      ensures Still()
    {
      hide PartsOf;
      assert this in old(Repr()) && QuoteQueue in old(Repr()) && BaseQueue in old(Repr());
      assert old(PartsOf(QuoteQueue)) <= old(Repr()) && old(PartsOf(BaseQueue)) <= old(Repr());
      SameWhenUnchanged(QuoteQueue);
      SameWhenUnchanged(BaseQueue);
    }

    /** Nothing of the book has changed but, possibly, its mark. */
    twostate lemma OnlyMarked()
      requires old(Open()) && Untouched(old(Repr()) - {this})
      ensures Open() && Orders() == old(Orders()) && Repr() == old(Repr())
    {
      hide Holds, Views;
      NotAPart();
      assert old(PartsOf(QuoteQueue)) <= old(Repr()) - {this} && old(PartsOf(BaseQueue)) <= old(Repr()) - {this};
      assert QuoteQueue in old(Repr()) - {this} && BaseQueue in old(Repr()) - {this};
      hide PartsOf, Refs;
      SameWhenUnchanged(QuoteQueue);
      SameWhenUnchanged(BaseQueue);
      SameHolds(QuoteQueue, QuoteSymbol);
      SameHolds(BaseQueue, BaseSymbol);
    }

    twostate lemma NotAPart()
      ensures this !in old(PartsOf(QuoteQueue)) && this !in old(PartsOf(BaseQueue))
    {}

    /** The book has no orders. */
    ghost predicate Blank()
      reads QuoteQueue, BaseQueue
    {
      && BaseQueue != QuoteQueue && BaseSymbol != QuoteSymbol && QuoteQueue.side == QUOTE && BaseQueue.side == BASE
      && QuoteQueue.Items == [] && QuoteQueue.IdToItem == map[] && BaseQueue.Items == [] && BaseQueue.IdToItem == map[]
    }

    lemma BlankIsOpen()
      requires Blank()
      ensures Open() && Orders() == Book(map[], map[])
    {}

    /** The book holds no orders but those in its queues. */
    ghost predicate Open()
      reads QuoteQueue, QuoteQueue.Items, QuoteQueue.IdToItem.Values, Refs(QuoteQueue).Values,
            BaseQueue, BaseQueue.Items, BaseQueue.IdToItem.Values, Refs(BaseQueue).Values
    {
      Valid(Refs(QuoteQueue), Refs(BaseQueue))
    }

    ghost function Orders(): Book
      reads QuoteQueue, QuoteQueue.IdToItem.Values, Refs(QuoteQueue).Values,
            BaseQueue, BaseQueue.IdToItem.Values, Refs(BaseQueue).Values
    {
      View(Refs(QuoteQueue), Refs(BaseQueue))
    }

    /** All matches of the book: each fits what the ones before it leave, and after them no bid crosses any
        ask.  There are fewer of them than orders.  The book itself is in the end as it was: the same orders
        with the same amounts, in order. */
    method FindAllMatches() returns (matches: seq<Match>)
      requires Open()
      modifies QuoteQueue, QuoteQueue.IdToItem.Values, Refs(QuoteQueue).Values,
               BaseQueue, BaseQueue.IdToItem.Values, Refs(BaseQueue).Values
      ensures Open() && Orders() == old(Orders())
      ensures Refs(QuoteQueue) == old(Refs(QuoteQueue)) && Refs(BaseQueue) == old(Refs(BaseQueue))
      ensures forall o :: o in Repr() ==> o in old(Repr()) || fresh(o)
      ensures AllFitting(Orders(), matches, BaseSymbol, QuoteSymbol) && Uncrossed(After(Orders(), matches))
      ensures AllPriceFirst(Orders(), matches)
      ensures matches == [] || |matches| < |QuoteQueue.IdToItem| + |BaseQueue.IdToItem|
    {
      hide *;
      ghost var bids, asks := Refs(QuoteQueue), Refs(BaseQueue);
      ghost var b := View(bids, asks);
      AllLive(bids, asks);
      var discoveries;
      matches, discoveries := matchAll(bids, asks);
      unmatchAll(discoveries, b, matches, bids, asks);
      OpenAgain(bids, asks, b);
      GrownBy({}, bids, asks);
    }

    /** The objects of the book are those it had, new ones, and the given ones. */
    twostate lemma GrownBy(new extra: set<object>, new bids: map<u64, OrderRef>, new asks: map<u64, OrderRef>)
      requires Valid(bids, asks)
      requires fresh(QuoteQueue.IdToItem.Values - old(QuoteQueue.IdToItem.Values))
      requires fresh(BaseQueue.IdToItem.Values - old(BaseQueue.IdToItem.Values))
      requires bids.Values <= old(Refs(QuoteQueue)).Values + extra && asks.Values <= old(Refs(BaseQueue)).Values + extra
      ensures fresh(Repr() - old(Repr()) - extra)
    {
      hide PartsOf, Holds, Refs;
      PartsWithin(QuoteQueue, bids, QuoteSymbol);
      PartsWithin(BaseQueue, asks, BaseSymbol);
      PartsBefore(QuoteQueue);
      PartsBefore(BaseQueue);
    }

    twostate lemma GrownByBackups(new backupBuy: OrderRef, new backupSell: OrderRef)
      requires old(allocated(backupBuy)) && old(allocated(backupSell))
      requires Valid(Joined(old(Refs(QuoteQueue)), old(Meant(QuoteQueue, backupBuy))),
                     Joined(old(Refs(BaseQueue)), old(Meant(BaseQueue, backupSell))))
      requires fresh(QuoteQueue.IdToItem.Values - old(QuoteQueue.IdToItem.Values))
      requires fresh(BaseQueue.IdToItem.Values - old(BaseQueue.IdToItem.Values))
      ensures fresh(Repr() - old(Repr()) - {backupBuy, backupSell})
    {
      hide PartsOf, Holds;
      var bids, asks := old(Refs(QuoteQueue)), old(Refs(BaseQueue));
      var buy, sell := old(Meant(QuoteQueue, backupBuy)), old(Meant(BaseQueue, backupSell));
      JoinedValues(bids, buy);
      JoinedValues(asks, sell);
      assert buy == backupBuy || (backupBuy.id in bids && bids[backupBuy.id] == buy);
      assert sell == backupSell || (backupSell.id in asks && asks[backupSell.id] == sell);
      hide Refs, Meant, Joined;
      GrownBy({backupBuy, backupSell}, Joined(bids, buy), Joined(asks, sell));
    }

    lemma AllLive(bids: map<u64, OrderRef>, asks: map<u64, OrderRef>)
      requires Open() && bids == Refs(QuoteQueue) && asks == Refs(BaseQueue)
      ensures Valid(bids, asks) && Orders() == View(bids, asks)
      ensures Sane(View(bids, asks).bids) && Sane(View(bids, asks).asks)
      ensures LiveIds(View(bids, asks).bids) == bids.Keys && LiveIds(View(bids, asks).asks) == asks.Keys
    {
      hide Holds, OrderQueue.Sound, LiveIds;
      BookFacts(bids, asks);
    }

    lemma OpenAgain(bids: map<u64, OrderRef>, asks: map<u64, OrderRef>, b: Book)
      requires Valid(bids, asks) && View(bids, asks) == b
      requires LiveIds(b.bids) == bids.Keys && LiveIds(b.asks) == asks.Keys
      ensures Refs(QuoteQueue) == bids && Refs(BaseQueue) == asks && Open() && Orders() == b
      ensures LiveCount(b) == |QuoteQueue.IdToItem| + |BaseQueue.IdToItem|
    {
      hide Holds, OrderQueue.Sound, LiveIds;
      BookFacts(bids, asks);
      assert Refs(QuoteQueue) == bids && Refs(BaseQueue) == asks;
      SameSize(QuoteQueue.IdToItem);
      SameSize(BaseQueue.IdToItem);
    }

    // -------------------------------------------------------------- mined orders and matches

    /** Nothing but the live orders counts. */
    lemma OpenWithLive(bids: map<u64, OrderRef>, asks: map<u64, OrderRef>)
      requires Valid(bids, asks)
      ensures Open() && Orders() == LiveBook(View(bids, asks))
    {
      hide OrderQueue.Sound, PriceOf;
      OnlyLive(QuoteQueue, bids, QuoteSymbol);
      OnlyLive(BaseQueue, asks, BaseSymbol);
    }

    lemma Opened()
      requires Open()
      ensures Valid(Refs(QuoteQueue), Refs(BaseQueue)) && Orders() == View(Refs(QuoteQueue), Refs(BaseQueue))
    {
      hide Holds;
    }

    lemma Parts()
      requires Open()
      ensures BaseQueue != QuoteQueue && BaseSymbol != QuoteSymbol && QuoteQueue.side == QUOTE && BaseQueue.side == BASE
      ensures Holds(QuoteQueue, Refs(QuoteQueue), QuoteSymbol) && Holds(BaseQueue, Refs(BaseQueue), BaseSymbol)
      ensures Orders() == Book(Views(Refs(QuoteQueue)), Views(Refs(BaseQueue)))
      ensures forall i, j :: i in QuoteQueue.IdToItem && j in BaseQueue.IdToItem ==> QuoteQueue.IdToItem[i] != BaseQueue.IdToItem[j]
      ensures forall k :: 0 <= k < |QuoteQueue.Items| ==> QuoteQueue.Items[k] in QuoteQueue.IdToItem.Values
      ensures forall k :: 0 <= k < |BaseQueue.Items| ==> BaseQueue.Items[k] in BaseQueue.IdToItem.Values
    {
      hide Holds;
      Apart(Refs(QuoteQueue), Refs(BaseQueue));
    }

    lemma Whole()
      requires BaseQueue != QuoteQueue && BaseSymbol != QuoteSymbol && QuoteQueue.side == QUOTE && BaseQueue.side == BASE
      requires Holds(QuoteQueue, Refs(QuoteQueue), QuoteSymbol) && Holds(BaseQueue, Refs(BaseQueue), BaseSymbol)
      ensures Open() && Orders() == Book(Views(Refs(QuoteQueue)), Views(Refs(BaseQueue)))
    {
      hide Holds;
    }

    lemma InOrders(m: Match)
      requires Open()
      ensures Valid(Refs(QuoteQueue), Refs(BaseQueue)) && Orders() == View(Refs(QuoteQueue), Refs(BaseQueue))
      ensures m.buyOrderId in QuoteQueue.IdToItem <==> m.buyOrderId in Orders().bids
      ensures m.sellOrderId in BaseQueue.IdToItem <==> m.sellOrderId in Orders().asks
      ensures m.buyOrderId in Orders().bids ==> Orders().bids[m.buyOrderId] == QuoteQueue.IdToItem[m.buyOrderId].order.View()
      ensures m.sellOrderId in Orders().asks ==> Orders().asks[m.sellOrderId] == BaseQueue.IdToItem[m.sellOrderId].order.View()
    {
      hide Holds;
    }

    lemma AllAreLive()
      requires Open()
      ensures LiveBook(Orders()) == Orders()
    {
      hide OrderQueue.Sound, PriceOf;
    }

    lemma Views2(bids: map<u64, OrderRef>, asks: map<u64, OrderRef>)
      ensures View(bids, asks) == Book(Views(bids), Views(asks))
    {}

    /** One side has changed, the other has not. */
    twostate lemma BidsChanged()
      requires old(Open()) && Holds(QuoteQueue, Refs(QuoteQueue), QuoteSymbol) && unchanged(BaseQueue)
      requires forall k :: 0 <= k < |BaseQueue.Items| ==> unchanged(BaseQueue.Items[k])
      requires forall id :: id in BaseQueue.IdToItem ==> unchanged(BaseQueue.IdToItem[id]) && unchanged(BaseQueue.IdToItem[id].order)
      ensures Open() && Orders() == old(Orders()).(bids := Views(Refs(QuoteQueue)))
      ensures Refs(BaseQueue) == old(Refs(BaseQueue)) && BaseQueue.IdToItem == old(BaseQueue.IdToItem)
    {
      hide Holds;
      StillHolds(BaseQueue, old(Refs(BaseQueue)), BaseSymbol);
    }

    twostate lemma AsksChanged()
      requires old(Open()) && Holds(BaseQueue, Refs(BaseQueue), BaseSymbol) && unchanged(QuoteQueue)
      requires forall k :: 0 <= k < |QuoteQueue.Items| ==> unchanged(QuoteQueue.Items[k])
      requires forall id :: id in QuoteQueue.IdToItem ==> unchanged(QuoteQueue.IdToItem[id]) && unchanged(QuoteQueue.IdToItem[id].order)
      ensures Open() && Orders() == old(Orders()).(asks := Views(Refs(BaseQueue)))
      ensures Refs(QuoteQueue) == old(Refs(QuoteQueue)) && QuoteQueue.IdToItem == old(QuoteQueue.IdToItem)
    {
      hide Holds;
      StillHolds(QuoteQueue, old(Refs(QuoteQueue)), QuoteSymbol);
    }

    /** An order that was mined joins its side of the book, unless one with its identifier is there. */
    method Add(order: OrderRef, sellSymbol: string)
      requires Open() && Positive(order.View())
      requires (sellSymbol == BaseSymbol && order.buySymbol == QuoteSymbol) || (sellSymbol == QuoteSymbol && order.buySymbol == BaseSymbol)
      modifies this, QuoteQueue, QuoteQueue.IdToItem.Values, BaseQueue, BaseQueue.IdToItem.Values
      ensures Open() && Dirty && Orders() == WithOrder(old(Orders()), order.View(), sellSymbol == BaseSymbol)
      ensures fresh(Repr() - old(Repr()) - {order})
    {
      hide *;
      Parts();
      SidesOf(Orders(), order.View(), order.id);
      if sellSymbol == BaseSymbol {
        joinQueue(QuoteQueue, order, QuoteSymbol);
        BidsChanged();
      } else if sellSymbol == QuoteSymbol {
        joinQueue(BaseQueue, order, BaseSymbol);
        AsksChanged();
      }
      Dirty := true;  // first in the program; all of this is under the lock of the book
      Opened();
      GrownBy({order}, Refs(QuoteQueue), Refs(BaseQueue));
    }

    /** An order whose block was rolled back leaves its side of the book. */
    method Cancel(order: OrderRef, sellSymbol: string)
      requires Open() && (sellSymbol == BaseSymbol || sellSymbol == QuoteSymbol)
      modifies QuoteQueue, QuoteQueue.IdToItem.Values, BaseQueue, BaseQueue.IdToItem.Values
      ensures Open() && Orders() == WithoutOrder(old(Orders()), order.id, sellSymbol == BaseSymbol)
      ensures fresh(Repr() - old(Repr())) && Dirty == old(Dirty)
    {
      hide *;
      Parts();
      SidesOf(Orders(), order.View(), order.id);
      if sellSymbol == BaseSymbol {
        leaveQueue(QuoteQueue, order.id, QuoteSymbol);
        BidsChanged();
      } else if sellSymbol == QuoteSymbol {
        leaveQueue(BaseQueue, order.id, BaseSymbol);
        AsksChanged();
      }
      Opened();
      GrownBy({}, Refs(QuoteQueue), Refs(BaseQueue));
    }

    /** Both orders of a match that was mined are filled; the program panics when one is missing. */
    method ApplyMatch(m: Match) returns (panicked: bool)
      requires Open()
      requires m.buyOrderId in Orders().bids && m.sellOrderId in Orders().asks ==>
        Payable(m, Orders().bids[m.buyOrderId], Orders().asks[m.sellOrderId])
      modifies this, QuoteQueue, QuoteQueue.IdToItem.Values, Refs(QuoteQueue).Values,
               BaseQueue, BaseQueue.IdToItem.Values, Refs(BaseQueue).Values
      ensures panicked <==> m.buyOrderId !in old(Orders()).bids || m.sellOrderId !in old(Orders()).asks
      ensures Open() && Dirty
      ensures Orders() == if panicked then old(Orders()) else LiveBook(Filled(old(Orders()), m))
      ensures fresh(Repr() - old(Repr()))
    {
      hide *;
      Dirty := true;
      ghost var bids, asks := Refs(QuoteQueue), Refs(BaseQueue);
      InOrders(m);
      AllAreLive();
      panicked := applyMatchUnlocked(m, bids, asks);
      OpenWithLive(bids, asks);
      GrownBy({}, bids, asks);
    }

    /** The orders handed along are those of the match, the right way round or not, and what is to be
        restored fits. */
    ghost predicate Backups(m: Match, order1: OrderRef, order2: OrderRef, buy: OrderRef, sell: OrderRef)
      reads QuoteQueue, QuoteQueue.IdToItem.Values, BaseQueue, BaseQueue.IdToItem.Values, buy, sell
    {
      && (var (backupBuy, backupSell) := if order1.buySymbol == QuoteSymbol then (order1, order2) else (order2, order1);
          && backupBuy.id == m.buyOrderId && backupBuy.buySymbol == QuoteSymbol && buy == Meant(QuoteQueue, backupBuy)
          && backupSell.id == m.sellOrderId && backupSell.buySymbol == BaseSymbol && sell == Meant(BaseQueue, backupSell))
      && 0 < buy.amountToSell + m.buyerLoss < WORD && 0 < buy.amountToBuy + m.transferAmt < WORD
      && 0 < sell.amountToSell + m.transferAmt < WORD && 0 < sell.amountToBuy + m.sellerGain < WORD
    }

    /** Copies of the orders as they stand can be handed along. */
    lemma CopiesAreBackups(m: Match, buyCopy: OrderRef, sellCopy: OrderRef)
      requires Open() && buyCopy.id == m.buyOrderId && buyCopy.buySymbol == QuoteSymbol
      requires sellCopy.id == m.sellOrderId && sellCopy.buySymbol == BaseSymbol && Returnable(m, buyCopy.View(), sellCopy.View())
      requires m.buyOrderId in Orders().bids ==> Orders().bids[m.buyOrderId] == buyCopy.View()
      requires m.sellOrderId in Orders().asks ==> Orders().asks[m.sellOrderId] == sellCopy.View()
      ensures var buy, sell := Meant(QuoteQueue, buyCopy), Meant(BaseQueue, sellCopy);
        && Backups(m, buyCopy, sellCopy, buy, sell) && buy.View() == buyCopy.View() && sell.View() == sellCopy.View()
        && (buy == buyCopy || buy in Refs(QuoteQueue).Values) && (sell == sellCopy || sell in Refs(BaseQueue).Values)
    {
      hide OrderQueue.Sound, PriceOf;
      InOrders(m);
      if m.buyOrderId in QuoteQueue.IdToItem {
        assert Refs(QuoteQueue)[m.buyOrderId] in Refs(QuoteQueue).Values;
      }
      if m.sellOrderId in BaseQueue.IdToItem {
        assert Refs(BaseQueue)[m.sellOrderId] in Refs(BaseQueue).Values;
      }
    }

    lemma BackupFacts(m: Match, order1: OrderRef, order2: OrderRef, buy: OrderRef, sell: OrderRef)
      requires Backups(m, order1, order2, buy, sell)
      ensures var (backupBuy, backupSell) := if order1.buySymbol == QuoteSymbol then (order1, order2) else (order2, order1);
        && backupBuy.id == m.buyOrderId && backupBuy.buySymbol == QuoteSymbol && buy == Meant(QuoteQueue, backupBuy)
        && backupSell.id == m.sellOrderId && backupSell.buySymbol == BaseSymbol && sell == Meant(BaseQueue, backupSell)
      ensures 0 < buy.amountToSell + m.buyerLoss < WORD && 0 < buy.amountToBuy + m.transferAmt < WORD
      ensures 0 < sell.amountToSell + m.transferAmt < WORD && 0 < sell.amountToBuy + m.sellerGain < WORD
      ensures buy.View().amountToBuy == buy.amountToBuy && sell.View().amountToBuy == sell.amountToBuy
    {}

    /** The program takes a match back that was rolled back: orders that the match had used up return. */
    method UnapplyMatch(m: Match, order1: OrderRef, order2: OrderRef, ghost buy: OrderRef, ghost sell: OrderRef)
      requires Open() && Backups(m, order1, order2, buy, sell)
      modifies this, QuoteQueue, QuoteQueue.IdToItem.Values, buy, BaseQueue, BaseQueue.IdToItem.Values, sell
      ensures Open() && Dirty
      ensures Orders() == Unfilled(old(Orders()), m, old(buy.View()), old(sell.View()))
      ensures fresh(Repr() - old(Repr()) - {order1, order2})
    {
      hide *;
      ghost var bids, asks := Refs(QuoteQueue), Refs(BaseQueue);
      Opened();
      AllAreLive();
      ghost var b, bid, ask := Orders(), buy.View(), sell.View();
      BackupFacts(m, order1, order2, buy, sell);
      LiveUnfilled(b, m, bid, ask);
      Views2(bids, asks);
      unapplyMatchUnlocked(m, order1, order2, buy, sell, bids, asks);
      Dirty := true;  // first in the program; all of this is under the lock of the book
      ViewIs(Joined(bids, buy), Joined(asks, sell), Unfilled(b, m, bid, ask));
      OpenWithLive(Joined(bids, buy), Joined(asks, sell));
      if order1.buySymbol == QuoteSymbol {
        GrownByBackups(order1, order2);
      } else {
        GrownByBackups(order2, order1);
      }
    }
  }

  /** What the orders of a match get back fits, and is something. */
  predicate Returnable(m: Match, bid: Order, ask: Order) {
    && 0 < bid.amountToSell + m.buyerLoss < WORD && 0 < bid.amountToBuy + m.transferAmt < WORD
    && 0 < ask.amountToSell + m.transferAmt < WORD && 0 < ask.amountToBuy + m.sellerGain < WORD
  }

  /** The book with the orders of a match put back to what they were before it. */
  function Unfilled(b: Book, m: Match, bid: Order, ask: Order): Book {
    Book(b.bids[m.buyOrderId := Restored(bid, m.buyerLoss, m.transferAmt)],
         b.asks[m.sellOrderId := Restored(ask, m.transferAmt, m.sellerGain)])
  }

  function Plus(orders: map<u64, Order>, o: Order): map<u64, Order> {
    if o.id in orders then orders else orders[o.id := o]
  }

  /** The book with one order more. */
  function WithOrder(b: Book, o: Order, bid: bool): Book {
    if bid then b.(bids := Plus(b.bids, o)) else b.(asks := Plus(b.asks, o))
  }

  lemma SidesOf(b: Book, o: Order, id: u64)
    ensures WithOrder(b, o, true) == Book(Plus(b.bids, o), b.asks) && WithOrder(b, o, false) == Book(b.bids, Plus(b.asks, o))
    ensures WithoutOrder(b, id, true) == Book(b.bids - {id}, b.asks) && WithoutOrder(b, id, false) == Book(b.bids, b.asks - {id})
  {}

  /** A restored order wants something. */
  lemma LiveUnfilled(b: Book, m: Match, bid: Order, ask: Order)
    requires LiveBook(b) == b
    requires 0 < bid.amountToBuy + m.transferAmt < WORD && 0 < ask.amountToBuy + m.sellerGain < WORD
    ensures LiveBook(Unfilled(b, m, bid, ask)) == Unfilled(b, m, bid, ask)
    ensures Unfilled(b, m, bid, ask) ==
      Book(b.bids[m.buyOrderId := Restored(bid, m.buyerLoss, m.transferAmt)],
           b.asks[m.sellOrderId := Restored(ask, m.transferAmt, m.sellerGain)])
  {
    forall id | id in b.bids ensures b.bids[id].amountToBuy > 0 { assert id in LiveBook(b).bids; }
    forall id | id in b.asks ensures b.asks[id].amountToBuy > 0 { assert id in LiveBook(b).asks; }
  }

  /** Fewer items, unchanged but for their places. */
  twostate lemma HoldsFewer(q: OrderQueue, new symbol: string)
    requires old(Holds(q, Refs(q), symbol)) && q.Sound()
    requires forall id :: id in q.IdToItem ==> id in old(q.IdToItem) && q.IdToItem[id] == old(q.IdToItem[id])
    requires forall id :: id in q.IdToItem ==> q.IdToItem[id].price == old(q.IdToItem[id].price)
    requires forall id :: id in q.IdToItem ==> unchanged(q.IdToItem[id].order)
    ensures Holds(q, Refs(q), symbol)
    ensures forall id :: id in q.IdToItem ==> Views(Refs(q))[id] == old(Views(Refs(q)))[id]
  {
    hide OrderQueue.Sound, PriceOf;
  }

  twostate lemma ValuesFewer(q: OrderQueue)
    requires forall id :: id in q.IdToItem ==> id in old(q.IdToItem) && q.IdToItem[id] == old(q.IdToItem[id])
    requires forall id :: id in q.IdToItem ==> q.IdToItem[id].order == old(q.IdToItem[id].order)
    ensures q.IdToItem.Values <= old(q.IdToItem.Values) && Refs(q).Values <= old(Refs(q)).Values
  {
    assert forall id :: id in q.IdToItem ==> Refs(q)[id] == old(Refs(q))[id] && old(Refs(q))[id] in old(Refs(q)).Values;
  }

  twostate lemma ViewsFewer(q: OrderQueue, new id: u64)
    requires q.IdToItem == old(q.IdToItem) - {id}
    requires forall i :: i in q.IdToItem ==> i in old(q.IdToItem) && q.IdToItem[i].order == old(q.IdToItem[i].order)
    requires forall i :: i in q.IdToItem ==> q.IdToItem[i].order.View() == old(q.IdToItem[i].order.View())
    ensures Views(Refs(q)) == old(Views(Refs(q))) - {id}
  {
    hide OrderRef.View;
  }

  twostate lemma ValuesMore(q: OrderQueue, new id: u64, new item: OrderQueueItem)
    requires q.IdToItem == old(q.IdToItem)[id := item] && id !in old(q.IdToItem) && fresh(item)
    requires forall i :: i in old(q.IdToItem) ==> q.IdToItem[i].order == old(q.IdToItem[i].order)
    ensures fresh(q.IdToItem.Values - old(q.IdToItem.Values)) && Refs(q).Values <= old(Refs(q)).Values + {item.order}
  {
    assert forall i :: i in old(q.IdToItem) ==> Refs(q)[i] == old(Refs(q))[i] && old(Refs(q))[i] in old(Refs(q)).Values;
  }

  /** An order joins a queue, unless one with its identifier is there. */
  method joinQueue(q: OrderQueue, order: OrderRef, ghost symbol: string)
    requires Holds(q, Refs(q), symbol) && order.buySymbol == symbol && Positive(order.View())
    modifies q`Items, q`IdToItem, q.IdToItem.Values`index
    ensures Holds(q, Refs(q), symbol) && Views(Refs(q)) == Plus(old(Views(Refs(q))), order.View())
    ensures fresh(q.IdToItem.Values - old(q.IdToItem.Values)) && Refs(q).Values <= old(Refs(q)).Values + {order}
  {
    hide Holds, OrderQueue.Sound, OrderQueue.SoundBut, OrderQueue.Valid, PriceOf, Plus, Joined;
    SoundQueue(q, Refs(q), symbol);
    PositivePrice(q.side, order.View());
    q.Enq(order);
    if order.id in old(q.IdToItem) {
      HoldsFewer(q, symbol);
      ValuesFewer(q);
      SameOrders(q, old(Refs(q)), old(Views(Refs(q))), order.View());
    } else {
      Joins(q, symbol, order, q.IdToItem[order.id]);
      ValuesMore(q, order.id, q.IdToItem[order.id]);
    }
  }

  lemma SameOrders(q: OrderQueue, refs: map<u64, OrderRef>, views: map<u64, Order>, o: Order)
    requires Refs(q) == refs && refs.Keys == views.Keys && o.id in refs
    requires forall id :: id in q.IdToItem ==> Views(Refs(q))[id] == views[id]
    ensures Views(Refs(q)) == Plus(views, o)
  {}

  twostate lemma Joins(q: OrderQueue, new symbol: string, new order: OrderRef, new item: OrderQueueItem)
    requires old(allocated(order)) && old(Holds(q, Refs(q), symbol)) && order.buySymbol == symbol && Positive(order.View())
    requires q.Sound() && order.id in q.IdToItem && q.IdToItem[order.id] == item && item.order == order && unchanged(order)
    requires q.IdToItem == old(q.IdToItem)[order.id := item] && order.id !in old(q.IdToItem)
    requires forall id :: id in old(q.IdToItem) ==> q.IdToItem[id].price == old(q.IdToItem[id].price)
    requires forall id :: id in old(q.IdToItem) ==> unchanged(old(q.IdToItem[id].order))
    requires item.price == PriceOf(q.side, order.View())
    ensures Holds(q, Refs(q), symbol) && Views(Refs(q)) == Plus(old(Views(Refs(q))), order.View())
  {
    hide Holds, OrderQueue.Sound, PriceOf;
    var refs := old(Refs(q));
    HoldsMore(q, refs, symbol, order);
    assert Refs(q) == Joined(refs, order);
  }

  lemma SoundQueue(q: OrderQueue, all: map<u64, OrderRef>, symbol: string)
    requires Holds(q, all, symbol)
    ensures q.Sound()
  {}

  lemma PositivePrice(side: OrderSide, o: Order)
    requires Positive(o)
    ensures !PriceOf(side, o).NotANumber?
  {}

  /** An order leaves a queue. */
  method leaveQueue(q: OrderQueue, id: u64, ghost symbol: string)
    requires Holds(q, Refs(q), symbol)
    modifies q`Items, q`IdToItem, q.IdToItem.Values`index
    ensures Holds(q, Refs(q), symbol) && Views(Refs(q)) == old(Views(Refs(q))) - {id}
    ensures q.IdToItem.Values <= old(q.IdToItem.Values) && Refs(q).Values <= old(Refs(q)).Values
  {
    hide Holds, OrderQueue.Sound, OrderQueue.SoundBut, OrderQueue.Valid, PriceOf, Refs, Views;
    SoundQueue(q, Refs(q), symbol);
    if id in q.IdToItem {
      q.SoundAnyway(id);
    }
    var _ := q.Remove(id);
    HoldsFewer(q, symbol);
    ValuesFewer(q);
    ViewsFewer(q, id);
  }

  function WithoutOrder(b: Book, id: u64, bid: bool): Book {
    if bid then b.(bids := b.bids - {id}) else b.(asks := b.asks - {id})
  }

  /** A queue holds its own orders; they are the live ones. */
  lemma OnlyLive(q: OrderQueue, all: map<u64, OrderRef>, symbol: string)
    requires Holds(q, all, symbol)
    ensures Holds(q, Refs(q), symbol) && Views(Refs(q)) == LiveOrders(Views(all))
  {
    hide OrderQueue.Sound, PriceOf;
  }

  twostate lemma ViewsWith(all: map<u64, OrderRef>, new order: OrderRef, new o: Order)
    requires order.View() == o && forall id :: id in all && id != order.id ==> unchanged(all[id])
    ensures Views(Joined(all, order)) == old(Views(all))[order.id := o]
  {}

  twostate lemma SameViews(all: map<u64, OrderRef>)
    requires forall id :: id in all ==> unchanged(all[id])
    ensures Views(all) == old(Views(all))
  {}

  lemma SameSize(m: map<u64, OrderQueueItem>)
    ensures |m| == |m.Keys|
  {}

  /** A queue whose items and orders have not changed holds what it held. */
  twostate lemma StillHolds(q: OrderQueue, new all: map<u64, OrderRef>, new symbol: string)
    requires old(allocated(all)) && old(Holds(q, all, symbol)) && unchanged(q)
    requires forall k :: 0 <= k < |q.Items| ==> unchanged(q.Items[k])
    requires forall id :: id in q.IdToItem ==> unchanged(q.IdToItem[id])
    requires forall id :: id in all ==> unchanged(all[id])
    ensures Holds(q, all, symbol)
  {}

  lemma InQueue(q: OrderQueue, all: map<u64, OrderRef>, symbol: string, id: u64)
    requires Holds(q, all, symbol) && id in q.IdToItem
    ensures id in all && q.IdToItem[id].order == all[id] && all[id].id == id
    ensures forall i :: i in all && i != id ==> all[i] != all[id]
  {
    hide OrderQueue.Sound;
  }
}
