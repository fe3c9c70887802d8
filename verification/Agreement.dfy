/** The order books and the ledger.  The book of two symbols agrees with the ledger when its bids and asks
    are the open orders of the two tokens that name each other.  Then every match that the book finds is
    one that the ledger accepts, and whatever the ledger does has its counterpart in the book. */
module Agreement {
  import opened Amounts
  import opened Transactions
  import opened Fills
  import opened TokenLedger
  import opened Ledgers
  import opened Commutation
  import opened Timelines
  import opened Orderbooks

  function Wanting(open: map<u64, Order>, wanted: string): map<u64, Order> {
    map id | id in open && open[id].buySymbol == wanted :: open[id]
  }

  /** The open orders of one token that want another. */
  function OpenFor(l: Ledger, s: string, wanted: string): map<u64, Order> {
    if s !in l.tokens then map[] else Wanting(l.tokens[s].open, wanted)
  }

  /** An order more, or one with other amounts. */
  lemma WantingPut(open: map<u64, Order>, id: u64, o: Order, wanted: string)
    requires id in open ==> open[id].buySymbol == o.buySymbol
    ensures Wanting(open[id := o], wanted) ==
      if o.buySymbol == wanted then Wanting(open, wanted)[id := o] else Wanting(open, wanted)
  {}

  lemma WantingDrop(open: map<u64, Order>, id: u64, wanted: string)
    ensures Wanting(open - {id}, wanted) ==
      if id in open && open[id].buySymbol == wanted then Wanting(open, wanted) - {id} else Wanting(open, wanted)
  {}

  /** The book that the ledger implies: bids sell the base symbol, asks sell the quote symbol. */
  function BookOf(l: Ledger, base: string, quote: string): Book {
    Book(OpenFor(l, base, quote), OpenFor(l, quote, base))
  }

  /** Orders are submitted with positive amounts. */
  ghost predicate AllPositive(l: Ledger) {
    forall s, id :: s in l.tokens && id in l.tokens[s].open ==> Positive(l.tokens[s].open[id])
  }

  // ---------------------------------------------------------------- the finder refines the validator

  lemma SideOpen(t: Token, s: Side)
    ensures ApplySide(t, s).open ==
      if s.residual.amountToBuy == 0 then t.open - {s.residual.id} else t.open[s.residual.id := s.residual]
  {
    hide Credit;
  }

  /** What a match between two orders of the book does to the book that the ledger implies. */
  lemma MatchOnBook(w: World, m: Match)
    requires Inv(w) && ValidMatch(w.ledger, m) && m.buySymbol != m.sellSymbol
    requires BuyOrder(w.ledger, m).value.buySymbol == m.sellSymbol && SellOrder(w.ledger, m).value.buySymbol == m.buySymbol
    requires AllPositive(w.ledger)
    ensures BookOf(AddMatch(w.ledger, m).value, m.buySymbol, m.sellSymbol)
         == LiveBook(Filled(BookOf(w.ledger, m.buySymbol, m.sellSymbol), m))
  {
    hide Inv, Accepts, ApplySide;
    ValidMatchFacts(w, m);
    var l := w.ledger;
    var buy, sell := BuyOrder(l, m).value, SellOrder(l, m).value;
    MatchTokens(l, m);
    SideOpen(l.tokens[m.buySymbol], BuySide(m, buy, sell));
    SideOpen(l.tokens[m.sellSymbol], SellSide(m, buy, sell));
    SideOfBook(l, m.buySymbol, m.sellSymbol, buy, Residual(buy, m.buyerLoss, m.transferAmt));
    SideOfBook(l, m.sellSymbol, m.buySymbol, sell, Residual(sell, m.transferAmt, m.sellerGain));
  }

  /** One side of the book after an order was filled. */
  lemma SideOfBook(l: Ledger, s: string, wanted: string, o: Order, r: Order)
    requires AllPositive(l) && s in l.tokens && o.id in l.tokens[s].open && l.tokens[s].open[o.id] == o
    requires o.buySymbol == wanted == r.buySymbol && r.id == o.id
    ensures var open := if r.amountToBuy == 0 then l.tokens[s].open - {r.id} else l.tokens[s].open[r.id := r];
      LiveOrders(OpenFor(l, s, wanted)[o.id := r]) == Wanting(open, wanted)
  {}

  /** A match that fits the book that the ledger implies is accepted. */
  lemma FittingIsValid(w: World, m: Match, base: string, quote: string)
    requires Inv(w) && AllPositive(w.ledger) && base != quote && m.matchId !in w.ledger.usedMatches
    requires Fitting(BookOf(w.ledger, base, quote), m, base, quote)
    ensures ValidMatch(w.ledger, m)
    ensures BuyOrder(w.ledger, m).value.buySymbol == quote && SellOrder(w.ledger, m).value.buySymbol == base
  {
    hide Inv, FillOf, Overflows;
    var buy, sell := BuyOrder(w.ledger, m).value, SellOrder(w.ledger, m).value;
    FillFits(buy, sell);
    NeverOverflows(buy, sell);
  }

  lemma PositiveAfterMatch(w: World, m: Match)
    requires Inv(w) && ValidMatch(w.ledger, m) && m.buySymbol != m.sellSymbol && AllPositive(w.ledger)
    ensures AllPositive(AddMatch(w.ledger, m).value)
  {
    hide Inv, FillOf, ApplySide;
    ValidMatchFacts(w, m);
    var l := w.ledger;
    var buy, sell := BuyOrder(l, m).value, SellOrder(l, m).value;
    MatchTokens(l, m);
    FillProgress(buy, sell);
    SideOpen(l.tokens[m.buySymbol], BuySide(m, buy, sell));
    SideOpen(l.tokens[m.sellSymbol], SellSide(m, buy, sell));
  }

  /** Used-up orders do not matter to what fits. */
  lemma OnlyLiveMatters(b: Book, m: Match, base: string, quote: string)
    ensures Fitting(LiveBook(b), m, base, quote) <==> Fitting(b, m, base, quote)
    ensures Fitting(b, m, base, quote) ==> LiveBook(Filled(LiveBook(b), m)) == LiveBook(Filled(b, m))
  {
    hide FillOf;
  }

  ghost predicate FreshIds(l: Ledger, ms: seq<Match>) {
    && (forall i :: 0 <= i < |ms| ==> ms[i].matchId !in l.usedMatches)
    && (forall i, j :: 0 <= i < j < |ms| ==> ms[i].matchId != ms[j].matchId)
  }

  function IdsOf(ms: seq<Match>): set<u64> {
    set i | 0 <= i < |ms| :: ms[i].matchId
  }

  /** The ledger after matches, taken one by one. */
  lemma {:induction false} FinderRefinesValidator(w: World, b: Book, ms: seq<Match>, base: string, quote: string)
    requires Inv(w) && AllPositive(w.ledger) && base != quote && b == BookOf(w.ledger, base, quote)
    requires AllFitting(b, ms, base, quote) && FreshIds(w.ledger, ms)
    ensures Run(w, MatchOps(ms)).Some?
    ensures var w' := Run(w, MatchOps(ms)).value;
      && Inv(w') && AllPositive(w'.ledger) && w'.ledger.usedMatches == w.ledger.usedMatches + IdsOf(ms)
      && BookOf(w'.ledger, base, quote) == LiveBook(After(b, ms))
    decreases |ms|
  {
    hide *;
    if ms == [] {
      NoMatches(w, b, base, quote);
    } else {
      var n := |ms| - 1;
      var init, m := ms[..n], ms[n];
      FittingPrefix(b, ms, n, base, quote);
      assert ms[..n + 1] == ms;
      FreshPrefix(w.ledger, ms, n);
      FinderRefinesValidator(w, b, init, base, quote);
      var v := Run(w, MatchOps(init)).value;
      OneMoreMatch(v, After(b, init), m, base, quote);
      RunMatches(w, v, ms, n);
    }
  }

  /** One match that fits, and what it does to ledger and book alike. */
  lemma OneMoreMatch(v: World, a: Book, m: Match, base: string, quote: string)
    requires Inv(v) && AllPositive(v.ledger) && base != quote && BookOf(v.ledger, base, quote) == LiveBook(a)
    requires Fitting(a, m, base, quote) && m.matchId !in v.ledger.usedMatches
    ensures Step(v, MatchOp(m)).Some?
    ensures var v' := Step(v, MatchOp(m)).value;
      && Inv(v') && AllPositive(v'.ledger) && v'.ledger.usedMatches == v.ledger.usedMatches + {m.matchId}
      && BookOf(v'.ledger, base, quote) == LiveBook(Filled(a, m))
  {
    hide Inv, AllPositive, Fitting, Filled, ValidMatch, BookOf, LiveBook;
    OnlyLiveMatters(a, m, base, quote);
    FittingNames(a, m, base, quote);
    FittingIsValid(v, m, base, quote);
    MatchOnBook(v, m);
    PositiveAfterMatch(v, m);
    MatchStepInv(v, m);
    UsedAfterMatch(v.ledger, m);
  }

  lemma FreshPrefix(l: Ledger, ms: seq<Match>, n: nat)
    requires FreshIds(l, ms) && n < |ms|
    ensures FreshIds(l, ms[..n]) && ms[n].matchId !in l.usedMatches + IdsOf(ms[..n])
    ensures IdsOf(ms[..n + 1]) == IdsOf(ms[..n]) + {ms[n].matchId}
  {}

  lemma RunMatches(w: World, v: World, ms: seq<Match>, n: nat)
    requires n == |ms| - 1 && Run(w, MatchOps(ms[..n])) == Some(v)
    ensures Run(w, MatchOps(ms)) == Step(v, MatchOp(ms[n]))
  {
    hide Step;
    assert MatchOps(ms) == MatchOps(ms[..n]) + [MatchOp(ms[n])];
    RunConcat(w, MatchOps(ms[..n]), [MatchOp(ms[n])]);
    RunOne(v, MatchOp(ms[n]), []);
    assert [MatchOp(ms[n])] + [] == [MatchOp(ms[n])];
  }

  lemma FittingNames(b: Book, m: Match, base: string, quote: string)
    requires Fitting(b, m, base, quote)
    ensures m.buySymbol == base && m.sellSymbol == quote
  {}

  lemma UsedAfterMatch(l: Ledger, m: Match)
    requires ValidMatch(l, m)
    ensures AddMatch(l, m).value.usedMatches == l.usedMatches + {m.matchId}
  {}

  lemma NoMatches(w: World, b: Book, base: string, quote: string)
    requires AllPositive(w.ledger) && b == BookOf(w.ledger, base, quote)
    ensures Run(w, MatchOps([])) == Some(w) && IdsOf([]) == {} && LiveBook(After(b, [])) == b
  {
    hide Step;
  }

  // ---------------------------------------------------------------- agreement is kept

  /** What the program relies on: orders have positive amounts, and a match names its symbols in the order
      of the book and fills orders that name each other's token. */
  ghost predicate Proper(l: Ledger, op: Op) {
    match op
    case TokenOp(_, Place(o)) => Positive(o)
    case MatchOp(m) =>
      && GetBaseQuote(m.buySymbol, m.sellSymbol) == (m.buySymbol, m.sellSymbol)
      && (BuyOrder(l, m).Some? ==> BuyOrder(l, m).value.buySymbol == m.sellSymbol)
      && (SellOrder(l, m).Some? ==> SellOrder(l, m).value.buySymbol == m.buySymbol)
    case _ => true
  }

  /** What a transaction does to one book. */
  function OnBook(b: Book, op: Op, base: string, quote: string): Book {
    match op
    case TokenOp(s, Place(o)) =>
      if s == base && o.buySymbol == quote then WithOrder(b, o, true)
      else if s == quote && o.buySymbol == base then WithOrder(b, o, false)
      else b
    case MatchOp(m) => if m.buySymbol == base && m.sellSymbol == quote then LiveBook(Filled(b, m)) else b
    case _ => b
  }

  lemma TokenTxOnBook(w: World, s: string, x: TokenTx, base: string, quote: string)
    requires Inv(w) && Step(w, TokenOp(s, x)).Some? && base != quote
    ensures BookOf(Step(w, TokenOp(s, x)).value.ledger, base, quote)
         == OnBook(BookOf(w.ledger, base, quote), TokenOp(s, x), base, quote)
  {
    hide Apply, Inv, Wanting;
    var t := w.ledger.tokens[s];
    OpenAfterTx(t, x);
    if x.Place? {
      WantingPut(t.open, x.order.id, x.order, base);
      WantingPut(t.open, x.order.id, x.order, quote);
      NotWanting(t.open, x.order.id, base);
      NotWanting(t.open, x.order.id, quote);
    }
  }

  lemma NotWanting(open: map<u64, Order>, id: u64, wanted: string)
    requires id !in open
    ensures id !in Wanting(open, wanted)
  {}

  lemma OpenAfterTx(t: Token, x: TokenTx)
    requires Apply(t, x).Some?
    ensures Apply(t, x).value.open == if x.Place? then t.open[x.order.id := x.order] else t.open
    ensures x.Place? ==> x.order.id !in t.open
  {
    hide Credit, Debit, Merge, FrozenAt;
  }

  /** A match leaves the books of other symbols alone. */
  lemma OtherBooks(w: World, m: Match, base: string, quote: string)
    requires Inv(w) && ValidMatch(w.ledger, m) && m.buySymbol != m.sellSymbol && base != quote
    requires Proper(w.ledger, MatchOp(m)) && !(m.buySymbol == base && m.sellSymbol == quote)
    requires GetBaseQuote(base, quote) == (base, quote)
    ensures BookOf(AddMatch(w.ledger, m).value, base, quote) == BookOf(w.ledger, base, quote)
  {
    hide Inv, Accepts, ApplySide, Precedes, Wanting;
    ValidMatchFacts(w, m);
    var l := w.ledger;
    var buy, sell := BuyOrder(l, m).value, SellOrder(l, m).value;
    MatchTokens(l, m);
    SideOpen(l.tokens[m.buySymbol], BuySide(m, buy, sell));
    SideOpen(l.tokens[m.sellSymbol], SellSide(m, buy, sell));
    SameBook(m.buySymbol, m.sellSymbol);
    OtherSide(l.tokens[m.buySymbol], BuySide(m, buy, sell), base);
    OtherSide(l.tokens[m.buySymbol], BuySide(m, buy, sell), quote);
    OtherSide(l.tokens[m.sellSymbol], SellSide(m, buy, sell), base);
    OtherSide(l.tokens[m.sellSymbol], SellSide(m, buy, sell), quote);
  }

  /** Filling an order does not concern those who want something else. */
  lemma OtherSide(t: Token, s: Side, wanted: string)
    requires s.residual.id in t.open && t.open[s.residual.id].buySymbol == s.residual.buySymbol
    ensures s.residual.buySymbol != wanted ==> Wanting(ApplySide(t, s).open, wanted) == Wanting(t.open, wanted)
  {
    SideOpen(t, s);
    hide ApplySide;
    WantingPut(t.open, s.residual.id, s.residual, wanted);
    WantingDrop(t.open, s.residual.id, wanted);
  }

  lemma CreateOnBook(w: World, c: CreateToken, base: string, quote: string)
    requires Inv(w) && c.info.symbol != MATCH_CHAIN && Step(w, CreateOp(c)).Some?
    ensures BookOf(Step(w, CreateOp(c)).value.ledger, base, quote) == BookOf(w.ledger, base, quote)
  {
    hide TokenInv, Put;
    var l, l' := w.ledger, Step(w, CreateOp(c)).value.ledger;
    forall s, d ensures OpenFor(l', s, d) == OpenFor(l, s, d) {}
  }

  /** Whatever the ledger accepts, the book that it implies follows. */
  lemma AgreementKept(w: World, op: Op, base: string, quote: string)
    requires Inv(w) && WellFormed(op) && Step(w, op).Some? && Proper(w.ledger, op) && AllPositive(w.ledger)
    requires base != quote && GetBaseQuote(base, quote) == (base, quote)
    ensures BookOf(Step(w, op).value.ledger, base, quote) == OnBook(BookOf(w.ledger, base, quote), op, base, quote)
    ensures AllPositive(Step(w, op).value.ledger)
  {
    hide Inv, BookOf, LiveBook, Filled, WithOrder, ValidMatch, Apply, GetBaseQuote, AllPositive;
    match op
    case TokenOp(s, x) =>
      TokenTxOnBook(w, s, x, base, quote);
      PositiveAfterTx(w, s, x);
    case MatchOp(m) =>
      MatchSteps(w, m);
      PositiveAfterMatch(w, m);
      if m.buySymbol == base && m.sellSymbol == quote {
        OrdersOfMatch(w, m);
        MatchOnBook(w, m);
      } else {
        OtherBooks(w, m, base, quote);
      }
    case CreateOp(c) =>
      CreateOnBook(w, c, base, quote);
      PositiveAfterCreate(w, c);
    case CancelOp(_) =>
  }

  lemma OrdersOfMatch(w: World, m: Match)
    requires ValidMatch(w.ledger, m)
    ensures BuyOrder(w.ledger, m).Some? && SellOrder(w.ledger, m).Some?
  {}

  lemma PositiveAfterTx(w: World, s: string, x: TokenTx)
    requires Step(w, TokenOp(s, x)).Some? && AllPositive(w.ledger) && Proper(w.ledger, TokenOp(s, x))
    ensures AllPositive(Step(w, TokenOp(s, x)).value.ledger)
  {
    hide Apply;
    OpenAfterTx(w.ledger.tokens[s], x);
  }

  lemma PositiveAfterCreate(w: World, c: CreateToken)
    requires Step(w, CreateOp(c)).Some? && AllPositive(w.ledger)
    ensures AllPositive(Step(w, CreateOp(c)).value.ledger)
  {
    hide Put;
  }

  // ---------------------------------------------------------------- ... and so is it by rollbacks

  /** What the rollback of a transaction does to one book, given the ledger just before. */
  function OffBook(b: Book, l: Ledger, op: Op, base: string, quote: string): Book
    requires op.MatchOp? ==> OrdersKnown(l, op.m)
  {
    match op
    case TokenOp(s, Place(o)) =>
      if s == base && o.buySymbol == quote then WithoutOrder(b, o.id, true)
      else if s == quote && o.buySymbol == base then WithoutOrder(b, o.id, false)
      else b
    case MatchOp(m) =>
      if m.buySymbol == base && m.sellSymbol == quote then
        Unfilled(b, m, NamedBuy(l, m), NamedSell(l, m))
      else b
    case _ => b
  }

  /** The rollback of an order takes it out of its book. */
  lemma OrderOffBook(l: Ledger, s: string, o: Order, base: string, quote: string)
    requires s in l.tokens && base != quote && OpenOrder(l, s, o.id) == Some(o)
    ensures BookOf(RollbackTokenTx(l, s, Place(o)), base, quote)
         == OffBook(BookOf(l, base, quote), l, TokenOp(s, Place(o)), base, quote)
  {
    hide Credit;
    WantingDrop(l.tokens[s].open, o.id, base);
    WantingDrop(l.tokens[s].open, o.id, quote);
  }

  /** The rollback of a match puts both orders back into its book, with what they had. */
  lemma MatchOffBook(l: Ledger, m: Match, base: string, quote: string)
    requires OrdersKnown(l, m) && m.buySymbol != m.sellSymbol && base != quote
    requires Filed(l.tokens[m.buySymbol]) && Filed(l.tokens[m.sellSymbol])
    requires NamedBuy(l, m).buySymbol == m.sellSymbol && NamedSell(l, m).buySymbol == m.buySymbol
    requires GetBaseQuote(m.buySymbol, m.sellSymbol) == (m.buySymbol, m.sellSymbol) && GetBaseQuote(base, quote) == (base, quote)
    ensures BookOf(RollbackMatch(l, m), base, quote) == OffBook(BookOf(l, base, quote), l, MatchOp(m), base, quote)
  {
    hide Debit, Precedes, Restored;
    SameBook(m.buySymbol, m.sellSymbol);
    NamedOpen(l.tokens[m.buySymbol], m.buyOrderId);
    NamedOpen(l.tokens[m.sellSymbol], m.sellOrderId);
    var l' := RollbackMatch(l, m);
    var buy, sell := Restored(NamedBuy(l, m), m.buyerLoss, m.transferAmt), Restored(NamedSell(l, m), m.transferAmt, m.sellerGain);
    RestoredIds(NamedBuy(l, m), m.buyerLoss, m.transferAmt);
    RestoredIds(NamedSell(l, m), m.transferAmt, m.sellerGain);
    assert l'.tokens[m.buySymbol].open == l.tokens[m.buySymbol].open[m.buyOrderId := buy];
    assert l'.tokens[m.sellSymbol].open == l.tokens[m.sellSymbol].open[m.sellOrderId := sell];
    hide RollbackMatch, Named;
    WantingPut(l.tokens[m.buySymbol].open, m.buyOrderId, buy, base);
    WantingPut(l.tokens[m.buySymbol].open, m.buyOrderId, buy, quote);
    WantingPut(l.tokens[m.sellSymbol].open, m.sellOrderId, sell, base);
    WantingPut(l.tokens[m.sellSymbol].open, m.sellOrderId, sell, quote);
  }

  lemma NamedOpen(t: Token, id: u64)
    requires Filed(t) && Named(t, id).Some?
    ensures id in t.open ==> t.open[id] == Named(t, id).value
    ensures Named(t, id).value.id == id
  {}

  lemma RestoredIds(o: Order, sold: u64, bought: u64)
    ensures Restored(o, sold, bought).id == o.id && Restored(o, sold, bought).buySymbol == o.buySymbol
  {}
}
