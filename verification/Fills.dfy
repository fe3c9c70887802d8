/** The arithmetic of one fill.  The order book and the ledger compute it independently from the two
    orders; both use the price of one order times the amount transferred, rounded in favour of the
    order whose price it is.  Prices are exact ratios here, not floating point. */
module Fills {
  import opened Amounts
  import opened Transactions

  /** What one match moves: `transfer` units of the token for sale, for which the buyer gives up
      `loss` and the seller receives `gain` units of the other token. */
  datatype Fill = Fill(transfer: u64, loss: nat, gain: nat)

  /** floor(n / d), and 0 for the undefined price of an order that wants nothing. */
  function FloorDiv(n: nat, d: nat): nat {
    if d == 0 then 0 else n / d
  }

  function CeilDiv(n: nat, d: nat): nat {
    if d == 0 then 0 else (n + d - 1) / d
  }

  /** The fill of a buy order by a sell order.  The buy order sells the token that the sell order wants. */
  function FillOf(buy: Order, sell: Order): Fill {
    if buy.amountToBuy > sell.amountToSell then
      var t := sell.amountToSell;
      Fill(t, FloorDiv(buy.amountToSell * t, buy.amountToBuy), sell.amountToBuy)
    else
      var t := buy.amountToBuy;
      Fill(t, buy.amountToSell, CeilDiv(sell.amountToBuy * t, sell.amountToSell))
  }

  ghost predicate Positive(o: Order) {
    o.amountToSell > 0 && o.amountToBuy > 0
  }

  /** The bid is at least the ask. */
  ghost predicate Crosses(buy: Order, sell: Order) {
    buy.amountToSell * sell.amountToSell >= sell.amountToBuy * buy.amountToBuy
  }

  function Residual(o: Order, sold: u64, bought: u64): Order {
    o.(amountToSell := Sub64(o.amountToSell, sold), amountToBuy := Sub64(o.amountToBuy, bought))
  }

  function Restored(o: Order, sold: u64, bought: u64): Order {
    o.(amountToSell := Add64(o.amountToSell, sold), amountToBuy := Add64(o.amountToBuy, bought))
  }

  // ---------------------------------------------------------------- rounding

  lemma FloorBounds(n: nat, d: nat, q: nat)
    requires d > 0
    ensures FloorDiv(n, d) * d <= n < (FloorDiv(n, d) + 1) * d
    ensures q <= FloorDiv(n, d) <==> q * d <= n
  {
    var f := n / d;
    assert n == f * d + n % d;
    if q <= f {
      assert q * d <= f * d;
    } else {
      assert q * d >= (f + 1) * d;
    }
  }

  lemma CeilBounds(n: nat, d: nat, q: nat)
    requires d > 0
    ensures n <= CeilDiv(n, d) * d < n + d
    ensures CeilDiv(n, d) <= q <==> n <= q * d
  {
    var c := (n + d - 1) / d;
    assert n + d - 1 == c * d + (n + d - 1) % d;
    if c <= q {
      assert c * d <= q * d;
    } else {
      assert (q + 1) * d <= c * d;
    }
  }

  lemma Product(a: nat, b: nat, c: nat)
    requires a <= b
    ensures a * c <= b * c
  {}

  lemma StrictProduct(a: nat, b: nat, c: nat)
    requires a < b && c > 0
    ensures c * a < c * b
  {}

  // ---------------------------------------------------------------- one fill

  /** No subtraction of a fill underflows, and all of its amounts are 64-bit values. */
  lemma FillFits(buy: Order, sell: Order)
    ensures var f := FillOf(buy, sell);
      && f.transfer <= buy.amountToBuy && f.transfer <= sell.amountToSell
      && f.loss <= buy.amountToSell && f.gain <= sell.amountToBuy
  {
    var f := FillOf(buy, sell);
    if buy.amountToBuy > sell.amountToSell {
      var n := buy.amountToSell * f.transfer;
      FloorBounds(n, buy.amountToBuy, f.loss);
      if f.loss > buy.amountToSell {
        Product(buy.amountToSell + 1, f.loss, buy.amountToBuy);
        Product(f.transfer, buy.amountToBuy, buy.amountToSell);
      }
    } else if sell.amountToSell > 0 {
      Product(f.transfer, sell.amountToSell, sell.amountToBuy);
      CeilBounds(sell.amountToBuy * f.transfer, sell.amountToSell, sell.amountToBuy);
    }
  }

  /** The seller is offered no more than the buyer pays exactly when the bid reaches the ask. */
  lemma FillPriced(buy: Order, sell: Order)
    requires Positive(buy) && Positive(sell)
    ensures FillOf(buy, sell).gain <= FillOf(buy, sell).loss <==> Crosses(buy, sell)
  {
    if buy.amountToBuy > sell.amountToSell {
      FloorBounds(buy.amountToSell * sell.amountToSell, buy.amountToBuy, sell.amountToBuy);
    } else {
      CeilBounds(sell.amountToBuy * buy.amountToBuy, sell.amountToSell, buy.amountToSell);
    }
  }

  /** A fill depletes at least one of its orders: one that wants nothing more.  A depleted buy order has
      nothing left over; an order that stays open keeps both amounts positive. */
  lemma FillProgress(buy: Order, sell: Order)
    requires Positive(buy) && Positive(sell)
    ensures var f := FillOf(buy, sell);
      && f.loss < WORD && f.gain < WORD && f.transfer > 0
      && var buy', sell' := Residual(buy, f.loss, f.transfer), Residual(sell, f.transfer, f.gain);
      && (buy'.amountToBuy == 0 || sell'.amountToBuy == 0)
      && (buy'.amountToBuy == 0 ==> buy'.amountToSell == 0)
      && (buy'.amountToBuy != 0 ==> Positive(buy'))
      && (sell'.amountToBuy != 0 ==> Positive(sell'))
  {
    FillFits(buy, sell);
    var f := FillOf(buy, sell);
    if buy.amountToBuy > sell.amountToSell {
      StrictProduct(sell.amountToSell, buy.amountToBuy, buy.amountToSell);
      FloorBounds(buy.amountToSell * f.transfer, buy.amountToBuy, buy.amountToSell);
    } else if buy.amountToBuy == sell.amountToSell {
      CeilBounds(sell.amountToBuy * f.transfer, sell.amountToSell, sell.amountToBuy);
      if f.gain < sell.amountToBuy {
        CeilBounds(sell.amountToBuy * f.transfer, sell.amountToSell, f.gain);
        Product(f.gain + 1, sell.amountToBuy, sell.amountToSell);
      }
    }
  }

  // ---------------------------------------------------------------- what a fill is, whatever computes it

  /** The buyer can be charged q for t units at its price, rounded down. */
  predicate Affords(buy: Order, t: nat, q: nat) {
    q * buy.amountToBuy <= buy.amountToSell * t
  }

  /** The seller is content with q for t units at its price, rounded up. */
  predicate Contents(sell: Order, t: nat, q: nat) {
    sell.amountToBuy * t <= q * sell.amountToSell
  }

  /** The smaller order is filled; the buyer gives up the most that its price allows for what is moved, and
      the seller receives the least that its price asks for. */
  ghost predicate Exact(buy: Order, sell: Order, transfer: nat, loss: nat, gain: nat) {
    && transfer == (if buy.amountToBuy <= sell.amountToSell then buy.amountToBuy else sell.amountToSell)
    && (forall q: nat :: Affords(buy, transfer, q) <==> q <= loss)
    && (forall q: nat :: Contents(sell, transfer, q) <==> gain <= q)
  }

  lemma FillBounds(buy: Order, sell: Order, q: nat)
    requires Positive(buy) && Positive(sell)
    ensures var f := FillOf(buy, sell);
      && (Affords(buy, f.transfer, q) <==> q <= f.loss)
      && (Contents(sell, f.transfer, q) <==> f.gain <= q)
  {
    var f := FillOf(buy, sell);
    if buy.amountToBuy > sell.amountToSell {
      FloorBounds(buy.amountToSell * f.transfer, buy.amountToBuy, q);
      SameFactor(f.gain, q, sell.amountToSell);
    } else {
      CeilBounds(sell.amountToBuy * f.transfer, sell.amountToSell, q);
      SameFactor(q, f.loss, buy.amountToBuy);
    }
  }

  lemma SameFactor(a: nat, b: nat, c: nat)
    requires c > 0
    ensures a * c <= b * c <==> a <= b
  {
    if a <= b {
      Product(a, b, c);
    } else {
      StrictProduct(b, a, c);
    }
  }

  /** The fill is exact, and no other amounts are. */
  lemma FillExact(buy: Order, sell: Order, transfer: nat, loss: nat, gain: nat)
    requires Positive(buy) && Positive(sell)
    ensures var f := FillOf(buy, sell);
      Exact(buy, sell, transfer, loss, gain) <==> transfer == f.transfer && loss == f.loss && gain == f.gain
  {
    hide Affords, Contents;
    var f := FillOf(buy, sell);
    forall q: nat { FillBounds(buy, sell, q); }
    if Exact(buy, sell, transfer, loss, gain) {
      assert Affords(buy, transfer, loss) && Affords(buy, transfer, f.loss);
      assert Contents(sell, transfer, gain) && Contents(sell, transfer, f.gain);
    }
  }

  lemma RestoreUndoes(o: Order, sold: u64, bought: u64)
    ensures Restored(Residual(o, sold, bought), sold, bought) == o
  {}
}
