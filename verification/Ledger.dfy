/** The ledger of all tokens, the steps that blocks make it take, and their undos. */
module Ledgers {
  import opened Amounts
  import opened Transactions
  import opened Fills
  import opened TokenLedger
  import opened TokenLaws

  /** The value of a ConsensusState. */
  datatype Ledger = Ledger(
    tokens: map<string, Token>, created: map<string, TokenInfo>, usedMatches: set<u64>)

  /** A ledger together with the heights of the token chains. */
  datatype World = World(ledger: Ledger, heights: map<string, nat>)

  const GENESIS: World := World(Ledger(map[MATCH_CHAIN := EMPTY_TOKEN], map[], {}), map[])

  /** One transaction, with the chain of a token transaction; all others are on the MATCH chain. */
  datatype Op =
    | TokenOp(symbol: string, tx: TokenTx)
    | MatchOp(m: Match)
    | CreateOp(create: CreateToken)
    | CancelOp(cancel: CancelOrder)

  function ChainOf(op: Op): string {
    if op.TokenOp? then op.symbol else MATCH_CHAIN
  }

  /** What the program relies on and does not check: token transactions are on token chains, no token
      takes the name of the MATCH chain, and a match trades two different tokens. */
  predicate WellFormed(op: Op) {
    match op
    case TokenOp(symbol, _) => symbol != MATCH_CHAIN
    case MatchOp(m) => m.buySymbol != m.sellSymbol
    case CreateOp(c) => c.info.symbol != MATCH_CHAIN
    case CancelOp(_) => true
  }

  // ---------------------------------------------------------------- matches

  /** The price times the transferred amount does not fit in 64 bits. */
  predicate Overflows(buy: Order, sell: Order) {
    if buy.amountToBuy > sell.amountToSell then buy.amountToSell * sell.amountToSell > WORD * buy.amountToBuy
    else sell.amountToBuy * buy.amountToBuy > WORD * sell.amountToSell
  }

  /** Both orders are open and the match is the fill of one by the other. */
  predicate Accepts(buy: Order, sell: Order, m: Match) {
    var f := FillOf(buy, sell);
    && m.transferAmt <= sell.amountToSell
    && !Overflows(buy, sell)
    && m.transferAmt == f.transfer && m.sellerGain == f.gain && m.buyerLoss == f.loss
    && f.gain <= f.loss <= buy.amountToSell
  }

  function OpenOrder(l: Ledger, symbol: string, id: u64): Option<Order> {
    if symbol in l.tokens && id in l.tokens[symbol].open then Some(l.tokens[symbol].open[id]) else None
  }

  function BuyOrder(l: Ledger, m: Match): Option<Order> {
    OpenOrder(l, m.buySymbol, m.buyOrderId)
  }

  function SellOrder(l: Ledger, m: Match): Option<Order> {
    OpenOrder(l, m.sellSymbol, m.sellOrderId)
  }

  predicate ValidMatch(l: Ledger, m: Match) {
    && m.matchId !in l.usedMatches
    && BuyOrder(l, m).Some? && SellOrder(l, m).Some?
    && Accepts(BuyOrder(l, m).value, SellOrder(l, m).value, m)
  }

  function BuySide(m: Match, buy: Order, sell: Order): Side {
    Side(Residual(buy, m.buyerLoss, m.transferAmt), sell.seller, m.sellerGain)
  }

  function SellSide(m: Match, buy: Order, sell: Order): Side {
    Side(Residual(sell, m.transferAmt, m.sellerGain), buy.seller, m.transferAmt)
  }

  function AddMatch(l: Ledger, m: Match): Option<Ledger> {
    if !ValidMatch(l, m) then None
    else
      var buy, sell := BuyOrder(l, m).value, SellOrder(l, m).value;
      var sold := l.tokens[m.sellSymbol := ApplySide(l.tokens[m.sellSymbol], SellSide(m, buy, sell))];
      Some(l.(tokens := sold[m.buySymbol := ApplySide(sold[m.buySymbol], BuySide(m, buy, sell))],
              usedMatches := l.usedMatches + {m.matchId}))
  }

  /** The orders of a match can be found, so that undoing it does not panic at once. */
  predicate OrdersKnown(l: Ledger, m: Match) {
    && m.buySymbol in l.tokens && m.sellSymbol in l.tokens
    && Named(l.tokens[m.buySymbol], m.buyOrderId).Some?
    && Named(l.tokens[m.sellSymbol], m.sellOrderId).Some?
  }

  function NamedBuy(l: Ledger, m: Match): Order
    requires OrdersKnown(l, m)
  {
    Named(l.tokens[m.buySymbol], m.buyOrderId).value
  }

  function NamedSell(l: Ledger, m: Match): Order
    requires OrdersKnown(l, m)
  {
    Named(l.tokens[m.sellSymbol], m.sellOrderId).value
  }

  /** What both parties were paid is still there to be taken back. */
  predicate PaymentsUnclaimed(l: Ledger, m: Match)
    requires OrdersKnown(l, m)
  {
    && m.sellerGain <= Get(l.tokens[m.buySymbol].unclaimed, NamedSell(l, m).seller)
    && m.transferAmt <= Get(l.tokens[m.sellSymbol].unclaimed, NamedBuy(l, m).seller)
  }

  /** The two sides of a match as they stand after it. */
  function BuySideAfter(l: Ledger, m: Match): Side
    requires OrdersKnown(l, m)
  {
    Side(NamedBuy(l, m), NamedSell(l, m).seller, m.sellerGain)
  }

  function SellSideAfter(l: Ledger, m: Match): Side
    requires OrdersKnown(l, m)
  {
    Side(NamedSell(l, m), NamedBuy(l, m).seller, m.transferAmt)
  }

  function RollbackMatch(l: Ledger, m: Match): Ledger
    requires OrdersKnown(l, m) && m.buySymbol != m.sellSymbol
  {
    var buy, sell := NamedBuy(l, m), NamedSell(l, m);
    l.(tokens := l.tokens
         [m.buySymbol := UndoSide(l.tokens[m.buySymbol], BuySideAfter(l, m), Restored(buy, m.buyerLoss, m.transferAmt))]
         [m.sellSymbol := UndoSide(l.tokens[m.sellSymbol], SellSideAfter(l, m), Restored(sell, m.transferAmt, m.sellerGain))],
       usedMatches := l.usedMatches - {m.matchId})
  }

  // ---------------------------------------------------------------- other transactions

  function AddTokenTx(l: Ledger, symbol: string, tx: TokenTx): Option<Ledger> {
    if symbol !in l.tokens then None
    else match Apply(l.tokens[symbol], tx)
      case None => None
      case Some(t) => Some(l.(tokens := l.tokens[symbol := t]))
  }

  function RollbackTokenTx(l: Ledger, symbol: string, tx: TokenTx): Ledger
    requires symbol in l.tokens
  {
    l.(tokens := l.tokens[symbol := Undo(l.tokens[symbol], tx)])
  }

  /** The whole supply of a new token is for its creator to claim. */
  function NewToken(c: CreateToken): Token {
    EMPTY_TOKEN.(unclaimed := Put(map[], c.creator, c.info.totalSupply))
  }

  function AddCreateToken(l: Ledger, c: CreateToken): Option<Ledger> {
    if c.info.symbol in l.created then None
    else Some(l.(tokens := l.tokens[c.info.symbol := NewToken(c)], created := l.created[c.info.symbol := c.info]))
  }

  function RollbackCreateToken(l: Ledger, c: CreateToken): Ledger {
    l.(tokens := l.tokens - {c.info.symbol}, created := l.created - {c.info.symbol})
  }

  /** Cancelling pays the escrow out and closes the order, without filing it as closed. */
  function Cancelled(t: Token, id: u64): Token
    requires id in t.open
  {
    var o := t.open[id];
    t.(unclaimed := Credit(t.unclaimed, o.seller, o.amountToSell),
       open := t.open - {id},
       updates := t.updates[id := Count(t, id) + 1])
  }

  function AddCancelOrder(l: Ledger, c: CancelOrder): Option<Ledger> {
    if OpenOrder(l, c.orderSymbol, c.orderId).None? then None
    else Some(l.(tokens := l.tokens[c.orderSymbol := Cancelled(l.tokens[c.orderSymbol], c.orderId)]))
  }

  // ---------------------------------------------------------------- steps

  function HeightOf(w: World, symbol: string): nat {
    if symbol in w.heights then w.heights[symbol] else 0
  }

  /** One transaction of a block, if it is accepted; a cancellation never is.
      The release of frozen funds comes with the block that makes the chain reach the next height. */
  function Step(w: World, op: Op): Option<World> {
    match op
    case TokenOp(symbol, tx) =>
      if tx.Release? && tx.height != HeightOf(w, symbol) + 1 then None
      else (match AddTokenTx(w.ledger, symbol, tx)
            case None => None
            case Some(l) => Some(World(l, if tx.Release? then w.heights[symbol := tx.height] else w.heights)))
    case MatchOp(m) =>
      (match AddMatch(w.ledger, m)
       case None => None
       case Some(l) => Some(w.(ledger := l)))
    case CreateOp(c) =>
      (match AddCreateToken(w.ledger, c)
       case None => None
       case Some(l) => Some(World(l, w.heights[c.info.symbol := 0])))
    case CancelOp(_) => None
  }

  /** The rollback of one transaction. */
  function UndoOp(w: World, op: Op): World
    requires op.TokenOp? ==> op.symbol in w.ledger.tokens && (op.tx.Release? ==> op.tx.height > 0)
    requires op.MatchOp? ==> OrdersKnown(w.ledger, op.m) && op.m.buySymbol != op.m.sellSymbol
  {
    match op
    case TokenOp(symbol, tx) =>
      World(RollbackTokenTx(w.ledger, symbol, tx),
            if tx.Release? then w.heights[symbol := tx.height - 1] else w.heights)
    case MatchOp(m) => w.(ledger := RollbackMatch(w.ledger, m))
    case CreateOp(c) => World(RollbackCreateToken(w.ledger, c), w.heights - {c.info.symbol})
    case CancelOp(_) => w
  }

  function SupplyOf(w: World, symbol: string): u64 {
    if symbol in w.ledger.created then w.ledger.created[symbol].totalSupply else 0
  }

  ghost predicate Inv(w: World) {
    && MATCH_CHAIN !in w.ledger.created
    && w.ledger.tokens.Keys == w.ledger.created.Keys + {MATCH_CHAIN}
    && w.heights.Keys == w.ledger.created.Keys
    && (forall s :: s in w.ledger.tokens ==> TokenInv(w.ledger.tokens[s], HeightOf(w, s), SupplyOf(w, s)))
  }

  // ---------------------------------------------------------------- every step keeps the invariant

  /** For orders with positive amounts: a match is accepted exactly if it is the exact fill of its two orders
      and the seller is offered no more than the buyer gives up. */
  lemma AcceptsIff(buy: Order, sell: Order, m: Match)
    requires Positive(buy) && Positive(sell)
    ensures Accepts(buy, sell, m) <==> Exact(buy, sell, m.transferAmt, m.buyerLoss, m.sellerGain) && m.sellerGain <= m.buyerLoss
  {
    hide FillOf, Overflows, Exact;
    FillExact(buy, sell, m.transferAmt, m.buyerLoss, m.sellerGain);
    FillFits(buy, sell);
    NeverOverflows(buy, sell);
  }

  /** A match that fills positive orders is valid exactly if its id is new, both orders are open, its amounts
      are exact and the seller is offered no more than the buyer gives up. */
  lemma ValidMatchIff(l: Ledger, m: Match)
    requires BuyOrder(l, m).Some? ==> Positive(BuyOrder(l, m).value)
    requires SellOrder(l, m).Some? ==> Positive(SellOrder(l, m).value)
    ensures ValidMatch(l, m) <==>
      && m.matchId !in l.usedMatches && BuyOrder(l, m).Some? && SellOrder(l, m).Some?
      && Exact(BuyOrder(l, m).value, SellOrder(l, m).value, m.transferAmt, m.buyerLoss, m.sellerGain)
      && m.sellerGain <= m.buyerLoss
  {
    hide Accepts, Exact;
    if BuyOrder(l, m).Some? && SellOrder(l, m).Some? {
      AcceptsIff(BuyOrder(l, m).value, SellOrder(l, m).value, m);
    }
  }

  lemma AcceptedSides(buy: Order, sell: Order, m: Match)
    requires Accepts(buy, sell, m)
    ensures m.buyerLoss <= buy.amountToSell && m.transferAmt <= buy.amountToBuy
    ensures m.transferAmt <= sell.amountToSell && m.sellerGain <= sell.amountToBuy
    ensures m.sellerGain <= m.buyerLoss
  {
    FillFits(buy, sell);
  }

  /** The overflow test never fires: both fills are at most an amount of one of the orders. */
  lemma NeverOverflows(buy: Order, sell: Order)
    ensures !Overflows(buy, sell)
  {
    if buy.amountToBuy > sell.amountToSell {
      Product(sell.amountToSell, buy.amountToBuy, buy.amountToSell);
      Product(buy.amountToSell, WORD, buy.amountToBuy);
    } else {
      Product(buy.amountToBuy, sell.amountToSell, sell.amountToBuy);
      Product(sell.amountToBuy, WORD, sell.amountToSell);
    }
  }

  /** Both sides of a valid match fit their tokens. */
  lemma MatchSidesFit(l: Ledger, m: Match)
    requires ValidMatch(l, m)
    requires Filed(l.tokens[m.buySymbol]) && Filed(l.tokens[m.sellSymbol])
    ensures var buy, sell := BuyOrder(l, m).value, SellOrder(l, m).value;
      && buy.id == m.buyOrderId && sell.id == m.sellOrderId
      && SideFits(l.tokens[m.buySymbol], BuySide(m, buy, sell))
      && SideFits(l.tokens[m.sellSymbol], SellSide(m, buy, sell))
  {
    AcceptedSides(BuyOrder(l, m).value, SellOrder(l, m).value, m);
  }

  /** What a match leaves of its two orders, seen from each token. */
  lemma MatchTokens(l: Ledger, m: Match)
    requires ValidMatch(l, m) && m.buySymbol != m.sellSymbol
    ensures var buy, sell := BuyOrder(l, m).value, SellOrder(l, m).value;
      AddMatch(l, m).value.tokens == l.tokens
        [m.buySymbol := ApplySide(l.tokens[m.buySymbol], BuySide(m, buy, sell))]
        [m.sellSymbol := ApplySide(l.tokens[m.sellSymbol], SellSide(m, buy, sell))]
  {}

  lemma TokenStepInv(w: World, symbol: string, tx: TokenTx)
    requires Inv(w) && symbol != MATCH_CHAIN && Step(w, TokenOp(symbol, tx)).Some?
    ensures Inv(Step(w, TokenOp(symbol, tx)).value)
  {
    hide Worth, Apply, Filed;
    var t := w.ledger.tokens[symbol];
    WorthOfTx(t, tx, HeightOf(w, symbol));
    FiledTx(t, tx);
  }

  lemma MatchStepInv(w: World, m: Match)
    requires Inv(w) && m.buySymbol != m.sellSymbol && ValidMatch(w.ledger, m)
    ensures Inv(Step(w, MatchOp(m)).value)
  {
    hide Worth, Accepts, Filed, ApplySide;
    var buyToken, sellToken := w.ledger.tokens[m.buySymbol], w.ledger.tokens[m.sellSymbol];
    var buy, sell := BuyOrder(w.ledger, m).value, SellOrder(w.ledger, m).value;
    MatchTokens(w.ledger, m);
    MatchSidesFit(w.ledger, m);
    WorthOfSide(buyToken, BuySide(m, buy, sell), HeightOf(w, m.buySymbol));
    FiledSide(buyToken, BuySide(m, buy, sell));
    WorthOfSide(sellToken, SellSide(m, buy, sell), HeightOf(w, m.sellSymbol));
    FiledSide(sellToken, SellSide(m, buy, sell));
  }

  lemma NewTokenInv(c: CreateToken)
    ensures Filed(NewToken(c)) && Worth(NewToken(c), 0) == c.info.totalSupply
  {
    hide Sum;
    var t := NewToken(c);
    SumNothing<Address>();
    SumNothing<u64>();
    SumNothing<Hold>();
    TotalPut(map[], c.creator, c.info.totalSupply);
    assert Escrows(t.open) == map[];
    assert Due(t.frozen, 0) == map[];
  }

  lemma CreateStepInv(w: World, c: CreateToken)
    requires Inv(w) && c.info.symbol != MATCH_CHAIN && c.info.symbol !in w.ledger.created
    ensures Inv(Step(w, CreateOp(c)).value)
  {
    hide Worth, Filed, NewToken;
    NewTokenInv(c);
  }

  lemma StepInv(w: World, op: Op)
    requires Inv(w) && WellFormed(op) && Step(w, op).Some?
    ensures Inv(Step(w, op).value)
  {
    hide Inv, ValidMatch, Apply;
    match op
    case TokenOp(symbol, tx) => TokenStepInv(w, symbol, tx);
    case MatchOp(m) => MatchStepInv(w, m);
    case CreateOp(c) => CreateStepInv(w, c);
    case CancelOp(_) =>
  }

  lemma GenesisInv()
    ensures Inv(GENESIS) && Worth(EMPTY_TOKEN, 0) == 0
  {
    hide Sum;
    SumNothing<Address>();
    SumNothing<u64>();
    SumNothing<Hold>();
    assert Escrows(EMPTY_TOKEN.open) == map[];
    assert Due(EMPTY_TOKEN.frozen, 0) == map[];
  }

  // ---------------------------------------------------------------- every step can be undone

  lemma UndoTokenStep(w: World, symbol: string, tx: TokenTx)
    requires Inv(w) && symbol != MATCH_CHAIN && Step(w, TokenOp(symbol, tx)).Some?
    ensures UndoOp(Step(w, TokenOp(symbol, tx)).value, TokenOp(symbol, tx)) == w
  {
    hide Worth, Apply, Undo, Filed;
    UndoTx(w.ledger.tokens[symbol], tx);
  }

  /** A match that was just made can be undone without a panic. */
  lemma MatchJustMade(w: World, m: Match)
    requires Inv(w) && m.buySymbol != m.sellSymbol && ValidMatch(w.ledger, m)
    ensures var l, l' := w.ledger, AddMatch(w.ledger, m).value;
      var buy, sell := BuyOrder(l, m).value, SellOrder(l, m).value;
      && OrdersKnown(l', m)
      && BuySideAfter(l', m) == BuySide(m, buy, sell)
      && SellSideAfter(l', m) == SellSide(m, buy, sell)
      && PaymentsUnclaimed(l', m)
  {
    hide Worth, Accepts, ApplySide, Filed, Named;
    var buyToken, sellToken := w.ledger.tokens[m.buySymbol], w.ledger.tokens[m.sellSymbol];
    var buy, sell := BuyOrder(w.ledger, m).value, SellOrder(w.ledger, m).value;
    MatchTokens(w.ledger, m);
    MatchSidesFit(w.ledger, m);
    SidePaid(buyToken, BuySide(m, buy, sell), HeightOf(w, m.buySymbol));
    SidePaid(sellToken, SellSide(m, buy, sell), HeightOf(w, m.sellSymbol));
    SideNamed(buyToken, BuySide(m, buy, sell));
    SideNamed(sellToken, SellSide(m, buy, sell));
  }

  lemma SidePaid(t: Token, s: Side, h: nat)
    requires SideFits(t, s) && Worth(t, h) < WORD
    ensures s.pay <= Get(ApplySide(t, s).unclaimed, s.payee)
  {
    hide Worth;
    SideUnclaimed(t, s);
    NoWrap(t, s, h, s.payee);
    PaidInFull(t.unclaimed, s, s.payee);
  }

  lemma SideNamed(t: Token, s: Side)
    requires Filed(t) && s.residual.id in t.open
    ensures Named(ApplySide(t, s), s.residual.id) == Some(s.residual)
  {}

  lemma RestoreTwo<T>(tokens: map<string, T>, a: string, x: T, b: string, y: T)
    requires a in tokens && b in tokens && a != b
    ensures tokens[a := x][b := y][a := tokens[a]][b := tokens[b]] == tokens
  {}

  /** What an accepted match was: two open orders of filed tokens, filled by the match. */
  lemma ValidMatchFacts(w: World, m: Match)
    requires Inv(w) && ValidMatch(w.ledger, m)
    ensures var l := w.ledger;
      && m.buySymbol in l.tokens && m.sellSymbol in l.tokens && m.matchId !in l.usedMatches
      && m.buyOrderId in l.tokens[m.buySymbol].open && m.sellOrderId in l.tokens[m.sellSymbol].open
      && Filed(l.tokens[m.buySymbol]) && Filed(l.tokens[m.sellSymbol])
      && var buy, sell := BuyOrder(l, m).value, SellOrder(l, m).value;
      && Accepts(buy, sell, m)
      && buy.id == m.buyOrderId && sell.id == m.sellOrderId
  {}

  lemma UndoMatchStep(w: World, m: Match)
    requires Inv(w) && m.buySymbol != m.sellSymbol && ValidMatch(w.ledger, m)
    ensures OrdersKnown(AddMatch(w.ledger, m).value, m)
    ensures RollbackMatch(AddMatch(w.ledger, m).value, m) == w.ledger
  {
    hide Inv, ValidMatch, ApplySide, UndoSide, PaymentsUnclaimed;
    ValidMatchFacts(w, m);
    var l, l' := w.ledger, AddMatch(w.ledger, m).value;
    var buyToken, sellToken := l.tokens[m.buySymbol], l.tokens[m.sellSymbol];
    var buy, sell := BuyOrder(w.ledger, m).value, SellOrder(w.ledger, m).value;
    MatchTokens(l, m);
    MatchJustMade(w, m);
    AcceptedSides(buy, sell, m);
    UndoOfSide(buyToken, BuySide(m, buy, sell));
    UndoOfSide(sellToken, SellSide(m, buy, sell));
    RestoreUndoes(buy, m.buyerLoss, m.transferAmt);
    RestoreUndoes(sell, m.transferAmt, m.sellerGain);
    assert l.usedMatches + {m.matchId} - {m.matchId} == l.usedMatches;
    RestoreTwo(l.tokens, m.buySymbol, l'.tokens[m.buySymbol], m.sellSymbol, l'.tokens[m.sellSymbol]);
  }

  lemma UndoCreateStep(w: World, c: CreateToken)
    requires Inv(w) && c.info.symbol != MATCH_CHAIN && c.info.symbol !in w.ledger.created
    ensures UndoOp(Step(w, CreateOp(c)).value, CreateOp(c)) == w
  {
    hide TokenInv, NewToken;
    var s := c.info.symbol;
    assert w.ledger.tokens[s := NewToken(c)] - {s} == w.ledger.tokens;
    assert w.ledger.created[s := c.info] - {s} == w.ledger.created;
    assert w.heights[s := 0] - {s} == w.heights;
  }

  /** The rollback of a transaction, right after it, restores the ledger. */
  lemma UndoStep(w: World, op: Op)
    requires Inv(w) && WellFormed(op) && Step(w, op).Some?
    ensures var w' := Step(w, op).value;
      && (op.MatchOp? ==> OrdersKnown(w'.ledger, op.m) && PaymentsUnclaimed(w'.ledger, op.m))
      && UndoOp(w', op) == w
  {
    hide Inv, ValidMatch, Apply, Undo, RollbackMatch;
    match op
    case TokenOp(symbol, tx) =>
      UndoTokenStep(w, symbol, tx);
    case MatchOp(m) =>
      MatchJustMade(w, m);
      UndoMatchStep(w, m);
    case CreateOp(c) =>
      UndoCreateStep(w, c);
    case CancelOp(_) =>
  }
}
