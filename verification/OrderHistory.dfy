/** The life of an order over a whole run: how often it was filled, what it gave and received, and why
    no sequence of fills, each rounded on its own, ever breaks its limit price. */
module OrderHistory {
  import opened Amounts
  import opened Transactions
  import opened Fills
  import opened TokenLedger
  import opened Ledgers
  import opened Commutation

  /** What the transactions say about one order: as placed, how many matches named it, and the totals
      that it gave and received in them. */
  datatype Life = Life(placed: Option<Order>, fills: nat, given: nat, received: nat)

  const UNKNOWN: Life := Life(None, 0, 0, 0)

  function NextLife(h: Life, op: Op, s: string, id: u64): Life {
    match op
    case TokenOp(r, Place(order)) => if r == s && order.id == id then Life(Some(order), 0, 0, 0) else h
    case MatchOp(m) =>
      if m.buySymbol == s && m.buyOrderId == id then
        h.(fills := h.fills + 1, given := h.given + m.buyerLoss, received := h.received + m.transferAmt)
      else if m.sellSymbol == s && m.sellOrderId == id then
        h.(fills := h.fills + 1, given := h.given + m.transferAmt, received := h.received + m.sellerGain)
      else h
    case _ => h
  }

  function LifeOf(ops: seq<Op>, s: string, id: u64): Life
    decreases |ops|
  {
    if ops == [] then UNKNOWN
    else NextLife(LifeOf(ops[..|ops| - 1], s, id), ops[|ops| - 1], s, id)
  }

  /** The ledger agrees with the life of the order: its count is the number of fills, its amounts are
      those it was placed with less what it gave and received, it is closed only after a fill, and its
      residual price is no worse for its owner than the price it was placed at. */
  ghost predicate Agrees(t: Token, id: u64, h: Life) {
    match Named(t, id)
    case None => h == UNKNOWN
    case Some(o) =>
      && h.placed.Some?
      && Count(t, id) == h.fills
      && (id in t.deleted ==> h.fills > 0)
      && (h.fills == 0 ==> h.given == h.received == 0)
      && h.given <= h.placed.value.amountToSell && h.received <= h.placed.value.amountToBuy
      && o == h.placed.value.(amountToSell := h.placed.value.amountToSell - h.given,
                              amountToBuy := h.placed.value.amountToBuy - h.received)
      && o.amountToSell * h.placed.value.amountToBuy >= h.placed.value.amountToSell * o.amountToBuy
  }

  ghost predicate AgreesIn(w: World, s: string, id: u64, h: Life) {
    if s in w.ledger.tokens then Agrees(w.ledger.tokens[s], id, h) else h == UNKNOWN
  }

  // ---------------------------------------------------------------- one fill and the limit price

  /** What an order gives in one fill, for what it gets, is at most its residual price. */
  lemma FillAtPrice(buy: Order, sell: Order)
    ensures var f := FillOf(buy, sell);
      && f.loss * buy.amountToBuy <= buy.amountToSell * f.transfer
      && f.transfer * sell.amountToBuy <= sell.amountToSell * f.gain
  {
    var f := FillOf(buy, sell);
    if buy.amountToBuy > sell.amountToSell {
      FloorBounds(buy.amountToSell * f.transfer, buy.amountToBuy, f.loss);
    } else if sell.amountToSell > 0 {
      CeilBounds(sell.amountToBuy * f.transfer, sell.amountToSell, f.gain);
    }
  }

  /** A fill at the residual price or better leaves a residual price that is at least as good. */
  lemma PriceKept(S: nat, B: nat, s: nat, b: nat, g: nat, r: nat)
    requires s * B >= S * b && g * b <= s * r && g <= s && r <= b
    ensures (s - g) * B >= S * (b - r)
  {
    if b > 0 {
      calc {
        ((s - g) * B) * b;
        ((s - g) * b) * B;
      >= { assert (s - g) * b == s * b - g * b; assert s * (b - r) == s * b - s * r;
           Product(s * (b - r), (s - g) * b, B); }
        (s * (b - r)) * B;
        (s * B) * (b - r);
      >= { Product(S * b, s * B, b - r); }
        (S * b) * (b - r);
        (S * (b - r)) * b;
      }
      Cancel((s - g) * B, S * (b - r), b);
    }
  }

  lemma Cancel(x: int, y: int, b: nat)
    requires b > 0 && x * b >= y * b
    ensures x >= y
  {}

  lemma PriceMeansLimit(S: nat, B: nat, given: nat, received: nat)
    requires given <= S && received <= B && (S - given) * B >= S * (B - received)
    ensures given * B <= S * received
  {
    assert (S - given) * B == S * B - given * B;
    assert S * (B - received) == S * B - S * received;
  }

  // ---------------------------------------------------------------- one step

  lemma TxAgrees(t: Token, x: TokenTx, id: u64, h: Life)
    requires Filed(t) && Apply(t, x).Some? && Agrees(t, id, h)
    ensures Agrees(Apply(t, x).value, id, if x.Place? && x.order.id == id then Life(Some(x.order), 0, 0, 0) else h)
  {
    hide Credit, Debit, Merge, FrozenAt;
    if Named(t, id).Some? {
      TxKeepsNamed(t, x, id);
    }
  }

  lemma SideAgrees(t: Token, s: Side, id: u64, h: Life, g: u64, r: u64)
    requires Filed(t) && s.residual.id in t.open && Agrees(t, id, h)
    requires var o := t.open[s.residual.id];
      && s.residual == Residual(o, g, r) && g <= o.amountToSell && r <= o.amountToBuy
      && g * o.amountToBuy <= o.amountToSell * r
    ensures Agrees(ApplySide(t, s), id,
                   if s.residual.id == id then h.(fills := h.fills + 1, given := h.given + g, received := h.received + r) else h)
  {
    hide Credit;
    if s.residual.id == id {
      var o, p := t.open[id], h.placed.value;
      PriceKept(p.amountToSell, p.amountToBuy, o.amountToSell, o.amountToBuy, g, r);
    } else if Named(t, id).Some? {
      SideCountsUp(t, s, id);
    }
  }

  lemma MatchAgrees(w: World, m: Match, s: string, id: u64, h: Life)
    requires Inv(w) && ValidMatch(w.ledger, m) && m.buySymbol != m.sellSymbol && AgreesIn(w, s, id, h)
    ensures AgreesIn(Step(w, MatchOp(m)).value, s, id, NextLife(h, MatchOp(m), s, id))
  {
    hide Agrees, ApplySide, Accepts, Worth, Inv, FillOf;
    ValidMatchFacts(w, m);
    var l := w.ledger;
    var buy, sell := BuyOrder(l, m).value, SellOrder(l, m).value;
    MatchTokens(l, m);
    AcceptedSides(buy, sell, m);
    AcceptedPrices(buy, sell, m);
    var w' := Step(w, MatchOp(m)).value;
    if s == m.buySymbol {
      SideAgrees(l.tokens[s], BuySide(m, buy, sell), id, h, m.buyerLoss, m.transferAmt);
      assert w'.ledger.tokens[s] == ApplySide(l.tokens[s], BuySide(m, buy, sell));
    } else if s == m.sellSymbol {
      SideAgrees(l.tokens[s], SellSide(m, buy, sell), id, h, m.transferAmt, m.sellerGain);
      assert w'.ledger.tokens[s] == ApplySide(l.tokens[s], SellSide(m, buy, sell));
    } else {
      assert s in l.tokens ==> w'.ledger.tokens[s] == l.tokens[s];
    }
  }

  lemma AcceptedPrices(buy: Order, sell: Order, m: Match)
    requires Accepts(buy, sell, m)
    ensures m.buyerLoss * buy.amountToBuy <= buy.amountToSell * m.transferAmt
    ensures m.transferAmt * sell.amountToBuy <= sell.amountToSell * m.sellerGain
  {
    FillAtPrice(buy, sell);
  }

  lemma StepAgrees(w: World, op: Op, s: string, id: u64, h: Life)
    requires Inv(w) && WellFormed(op) && Step(w, op).Some? && AgreesIn(w, s, id, h)
    ensures AgreesIn(Step(w, op).value, s, id, NextLife(h, op, s, id))
  {
    hide Inv, Agrees, ValidMatch, Apply;
    match op
    case TokenOp(r, x) =>
      TokenStepAgrees(w, r, x, s, id, h);
    case MatchOp(m) =>
      MatchAgrees(w, m, s, id, h);
    case CreateOp(c) =>
      CreateAgrees(w, c, s, id, h);
    case CancelOp(_) =>
  }

  lemma TokenStepAgrees(w: World, r: string, x: TokenTx, s: string, id: u64, h: Life)
    requires Inv(w) && Step(w, TokenOp(r, x)).Some? && AgreesIn(w, s, id, h)
    ensures AgreesIn(Step(w, TokenOp(r, x)).value, s, id, NextLife(h, TokenOp(r, x), s, id))
  {
    hide Agrees, Apply, Worth;
    if r == s {
      TxAgrees(w.ledger.tokens[s], x, id, h);
    }
  }

  lemma CreateAgrees(w: World, c: CreateToken, s: string, id: u64, h: Life)
    requires Inv(w) && c.info.symbol != MATCH_CHAIN && c.info.symbol !in w.ledger.created && AgreesIn(w, s, id, h)
    ensures AgreesIn(Step(w, CreateOp(c)).value, s, id, h)
  {
    hide Worth, Put, Filed;
  }

  // ---------------------------------------------------------------- whole runs

  lemma RunSnoc(w: World, ops: seq<Op>)
    requires ops != [] && Run(w, ops).Some?
    ensures var n := |ops| - 1;
      && Run(w, ops[..n]).Some?
      && Step(Run(w, ops[..n]).value, ops[n]) == Run(w, ops)
  {
    hide Step;
    var n := |ops| - 1;
    assert ops == ops[..n] + [ops[n]];
    RunConcat(w, ops[..n], [ops[n]]);
  }

  lemma GenesisAgrees(s: string, id: u64)
    ensures AgreesIn(GENESIS, s, id, UNKNOWN)
  {}

  /** In every world that a run leads to, the ledger agrees with the life of every order. */
  lemma {:induction false} LedgerAgrees(ops: seq<Op>, w: World, s: string, id: u64)
    requires AllWellFormed(ops) && Run(GENESIS, ops) == Some(w)
    ensures AgreesIn(w, s, id, LifeOf(ops, s, id))
    decreases |ops|
  {
    hide Inv, WellFormed, Step, AgreesIn;
    if ops == [] {
      GenesisAgrees(s, id);
    } else {
      var n := |ops| - 1;
      RunSnoc(GENESIS, ops);
      LedgerAgrees(ops[..n], Run(GENESIS, ops[..n]).value, s, id);
      GenesisInv();
      RunInv(GENESIS, ops[..n]);
      StepAgrees(Run(GENESIS, ops[..n]).value, ops[n], s, id, LifeOf(ops[..n], s, id));
    }
  }

  /** Limit price: whatever fills an order went through, it never gave more than its price allows for
      what it received. */
  lemma LimitPriceHolds(ops: seq<Op>, w: World, s: string, id: u64)
    requires AllWellFormed(ops) && Run(GENESIS, ops) == Some(w)
    requires s in w.ledger.tokens && Named(w.ledger.tokens[s], id).Some?
    ensures var h := LifeOf(ops, s, id);
      && h.placed.Some?
      && h.given * h.placed.value.amountToBuy <= h.placed.value.amountToSell * h.received
  {
    hide Named, Count, Run;
    LedgerAgrees(ops, w, s, id);
    var h := LifeOf(ops, s, id);
    PriceMeansLimit(h.placed.value.amountToSell, h.placed.value.amountToBuy, h.given, h.received);
  }

  /** An order that no match has named is open as it was placed, so that rolling it back refunds what
      it took. */
  lemma UntouchedOrder(ops: seq<Op>, w: World, s: string, id: u64)
    requires AllWellFormed(ops) && Run(GENESIS, ops) == Some(w)
    requires s in w.ledger.tokens && id in w.ledger.tokens[s].updates && w.ledger.tokens[s].updates[id] == 0
    ensures OpenOrder(w.ledger, s, id) == LifeOf(ops, s, id).placed
    ensures LifeOf(ops, s, id).placed.Some? && LifeOf(ops, s, id).fills == 0
  {
    hide Run, Worth;
    LedgerAgrees(ops, w, s, id);
    GenesisInv();
    RunInv(GENESIS, ops);
  }
}
