/** The transactions of mined blocks, in the ledger and in the matcher.  The books of the matcher agree with
    the open orders of the ledger, whatever is mined and whatever of it is rolled back. */
module MinedTransactions {
  import opened Amounts
  import opened Transactions
  import opened Fills
  import opened TokenLedger
  import opened Ledgers
  import opened Commutation
  import opened Timelines
  import opened TokenGenesis
  import opened Admission
  import opened ConsensusStates
  import opened GenericTransactions
  import opened Orderbooks
  import opened Agreement
  import opened Findings
  import opened Matchers

  /** Every book holds the open orders of its two tokens that want each other. */
  ghost predicate AgreesWith(mr: Matcher, l: Ledger)
    reads *
  {
    mr.Sound() && forall p :: Canonical(p) ==> mr.OrdersAt(p) == ImpliedBook(l, p)
  }

  /** The ledger and the matcher share no objects. */
  ghost predicate Apart(state: ConsensusState, mr: Matcher)
    reads *
  {
    && (forall o: object :: o in state.tokenStates.Values ==> o != mr && o !in mr.Objects())
    && state !in mr.Objects()
  }

  /** What the program relies on and does not check, of an order or a match: orders have positive amounts and
      want another token, and a match names its symbols in the order of the book. */
  ghost predicate Sensible(l: Ledger, op: Op) {
    && (op.TokenOp? ==> !op.tx.Release?) && (op.TokenOp? || op.MatchOp?)
    && WellFormed(op) && Proper(l, op) && (op.TokenOp? && op.tx.Place? ==> op.tx.order.buySymbol != op.symbol)
  }

  // ---------------------------------------------------------------- what the books become

  lemma PairIs(a: string, b: string, p: Pair)
    requires a != b && Canonical(p)
    ensures p == PairOf(a, b) <==> {p.base, p.quote} == {a, b}
    ensures Canonical(PairOf(a, b)) && {PairOf(a, b).base, PairOf(a, b).quote} == {a, b}
  {
    BaseIsGreater(a, b);
    BaseIsGreater(p.base, p.quote);
    var q := PairOf(a, b);
    PairNames(q.base, q.quote);
    OneWayOnly(a, b);
    hide Precedes, GetBaseQuote;
    assert p.base in {p.base, p.quote} && p.quote in {p.base, p.quote};
  }

  /** An order more, in the book of its pair and in no other. */
  lemma OrderOnBooks(b: Book, o: Order, s: string, p: Pair)
    requires Canonical(p) && o.buySymbol != s
    ensures OnBook(b, TokenOp(s, Place(o)), p.base, p.quote) ==
      if p == PairOf(o.buySymbol, s) then WithOrder(b, o, s == p.base) else b
  {
    hide Precedes, GetBaseQuote, WithOrder, PairOf;
    PairIs(o.buySymbol, s, p);
    assert s in {o.buySymbol, s} && o.buySymbol in {o.buySymbol, s};
  }

  lemma OrderOffBooks(b: Book, l: Ledger, o: Order, s: string, p: Pair)
    requires Canonical(p) && o.buySymbol != s
    ensures OffBook(b, l, TokenOp(s, Place(o)), p.base, p.quote) ==
      if p == PairOf(o.buySymbol, s) then WithoutOrder(b, o.id, s == p.base) else b
  {
    hide Precedes, GetBaseQuote, WithoutOrder, PairOf;
    PairIs(o.buySymbol, s, p);
    assert s in {o.buySymbol, s} && o.buySymbol in {o.buySymbol, s};
  }

  lemma MatchPair(l: Ledger, m: Match)
    requires Sensible(l, MatchOp(m))
    ensures PairOf(m.buySymbol, m.sellSymbol) == Pair(m.buySymbol, m.sellSymbol) && m.buySymbol != m.sellSymbol
    ensures Canonical(Pair(m.buySymbol, m.sellSymbol))
  {
    hide Precedes;
  }

  /** The ledger accepts a match only if the book has its orders and they can pay for it. */
  lemma BookCanFill(v: World, m: Match)
    requires Inv(v) && AllPositive(v.ledger) && Sensible(v.ledger, MatchOp(m)) && ValidMatch(v.ledger, m)
    ensures var b := ImpliedBook(v.ledger, Pair(m.buySymbol, m.sellSymbol));
      && m.buyOrderId in b.bids && m.sellOrderId in b.asks
      && Payable(m, b.bids[m.buyOrderId], b.asks[m.sellOrderId])
  {
    hide Precedes, Inv, FillOf;
    ValidMatchFacts(v, m);
    var buy, sell := BuyOrder(v.ledger, m).value, SellOrder(v.ledger, m).value;
    AcceptedSides(buy, sell, m);
    FillProgress(buy, sell);
  }

  /** After the match both orders are known to the ledger, they are what the book has if it has them, and
      what they are to get back fits. */
  lemma BookCanReturn(v: World, m: Match)
    requires Inv(v) && AllPositive(v.ledger) && Sensible(v.ledger, MatchOp(m)) && ValidMatch(v.ledger, m)
    ensures var l := AddMatch(v.ledger, m).value;
      && OrdersKnown(l, m)
      && var buy, sell := NamedBuy(l, m), NamedSell(l, m);
      && buy.id == m.buyOrderId && sell.id == m.sellOrderId
      && buy.buySymbol == m.sellSymbol && sell.buySymbol == m.buySymbol
      && Current(ImpliedBook(l, Pair(m.buySymbol, m.sellSymbol)), buy, sell) && Returnable(m, buy, sell)
  {
    hide Precedes, Inv, FillOf, Named, Accepts, ApplySide, AddMatch, Wanting, OrdersKnown;
    ValidMatchFacts(v, m);
    MatchSteps(v, m);
    var l := AddMatch(v.ledger, m).value;
    var buy, sell := BuyOrder(v.ledger, m).value, SellOrder(v.ledger, m).value;
    AcceptedSides(buy, sell, m);
    MatchJustMade(v, m);
    ResidualReturns(buy, m.buyerLoss, m.transferAmt);
    ResidualReturns(sell, m.transferAmt, m.sellerGain);
    NamedAfter(v, m);
  }

  lemma ResidualReturns(o: Order, sold: u64, bought: u64)
    requires Positive(o) && sold <= o.amountToSell && bought <= o.amountToBuy
    ensures var r := Residual(o, sold, bought);
      && 0 < r.amountToSell + sold < WORD && 0 < r.amountToBuy + bought < WORD && r.id == o.id && r.buySymbol == o.buySymbol
  {}

  lemma NamedAfter(v: World, m: Match)
    requires Inv(v) && Sensible(v.ledger, MatchOp(m)) && ValidMatch(v.ledger, m) && OrdersKnown(AddMatch(v.ledger, m).value, m)
    ensures var l := AddMatch(v.ledger, m).value;
      Current(ImpliedBook(l, Pair(m.buySymbol, m.sellSymbol)), NamedBuy(l, m), NamedSell(l, m))
  {
    hide Precedes, Accepts, AddMatch, Worth, ValidMatch, Named, TokenInv;
    MatchStepInv(v, m);
    MatchSteps(v, m);
    var l := AddMatch(v.ledger, m).value;
    InvOf(Step(v, MatchOp(m)).value, m.buySymbol);
    InvOf(Step(v, MatchOp(m)).value, m.sellSymbol);
    NamedOpen(l.tokens[m.buySymbol], m.buyOrderId);
    NamedOpen(l.tokens[m.sellSymbol], m.sellOrderId);
  }

  // ---------------------------------------------------------------- mining and taking back

  lemma Means(l: Ledger, op: Op)
    requires Sensible(l, op)
    ensures WellFormed(op) && Proper(l, op) && (op.TokenOp? || op.MatchOp?)
    ensures op.TokenOp? ==> !op.tx.Release? && (op.tx.Place? ==> op.tx.order.buySymbol != op.symbol && Positive(op.tx.order))
  {}

  /** What the ledger makes of the books. */
  lemma BooksFollow(v: World, op: Op, p: Pair)
    requires Inv(v) && AllPositive(v.ledger) && Sensible(v.ledger, op) && Step(v, op).Some? && Canonical(p)
    ensures ImpliedBook(Step(v, op).value.ledger, p) == OnBook(ImpliedBook(v.ledger, p), op, p.base, p.quote)
  {
    hide Inv, AllPositive, BookOf, OnBook, Step, GetBaseQuote;
    Means(v.ledger, op);
    AgreementKept(v, op, p.base, p.quote);
  }

  lemma OtherOnBook(b: Book, op: Op, p: Pair)
    requires op.TokenOp? && !op.tx.Place?
    ensures OnBook(b, op, p.base, p.quote) == b
  {}

  lemma MatchOnBooks(b: Book, m: Match, p: Pair)
    ensures OnBook(b, MatchOp(m), p.base, p.quote) == if p == Pair(m.buySymbol, m.sellSymbol) then LiveBook(Filled(b, m)) else b
  {
    hide LiveBook, Filled;
  }

  /** The pair whose book a transaction concerns. */
  function PairFor(op: Op): Pair
    requires (op.TokenOp? && op.tx.Place?) || op.MatchOp?
  {
    if op.TokenOp? then PairOf(op.tx.order.buySymbol, op.symbol) else PairOf(op.m.buySymbol, op.m.sellSymbol)
  }

  /** Whether a transaction concerns a book at all. */
  predicate OnBooks(op: Op) {
    (op.TokenOp? && op.tx.Place?) || op.MatchOp?
  }

  /** The matcher will search the book of a transaction that was mined, and what was found in the books that it
      will not search is still complete. */
  twostate predicate Marked(mr: Matcher, new op: Op, new found: Proposals)
    reads *
  {
    && (OnBooks(op) ==> PairFor(op) in mr.Books() && mr.Books()[PairFor(op)].Dirty)
    && mr.DirtyPairs() == old(mr.DirtyPairs()) + (if OnBooks(op) then {PairFor(op)} else {})
    && (old(mr.Answered(found)) ==> mr.Answered(found))
  }

  /** Tell the matcher of a mined transaction that the ledger has accepted. */
  method tellMatcher(mr: Matcher, op: Op, ghost v: World, ghost found: Proposals)
    requires Inv(v) && AllPositive(v.ledger) && Sensible(v.ledger, op) && Step(v, op).Some?
    requires AgreesWith(mr, v.ledger)
    modifies mr, mr.Objects()
    ensures AgreesWith(mr, Step(v, op).value.ledger) && Marked(mr, op, found)
    ensures forall o :: o in mr.Objects() ==> o in old(mr.Objects()) || fresh(o)
  {
    hide Inv, AllPositive, Sensible, Matcher.Sound, Matcher.OrdersAt, Matcher.Objects, WithOrder, LiveBook, Filled, OnBook,
         PairOf, Canonical, ImpliedBook, Step, ValidMatch, Payable, Positive, Matcher.Answered, Matcher.DirtyPairs, Matcher.Books;
    Means(v.ledger, op);
    ghost var answered := mr.Answered(found);
    forall p | Canonical(p) { BooksFollow(v, op, p); }
    match op {
      case TokenOp(s, tx) =>
        if tx.Place? {
          forall p | Canonical(p) { OrderOnBooks(ImpliedBook(v.ledger, p), tx.order, s, p); }
          mr.AddOrder(tx.order, s);
          if answered {
            mr.StillAnswered(PairOf(tx.order.buySymbol, s), found);
          }
        } else {
          forall p | Canonical(p) { OtherOnBook(ImpliedBook(v.ledger, p), op, p); }
        }
      case MatchOp(m) =>
        MatchSteps(v, m);
        MatchPair(v.ledger, m);
        BookCanFill(v, m);
        forall p | Canonical(p) { MatchOnBooks(ImpliedBook(v.ledger, p), m, p); }
        var _ := mr.AddMatch(m);
        if answered {
          mr.StillAnswered(PairOf(m.buySymbol, m.sellSymbol), found);
        }
    }
  }

  /** What taking the transaction back makes of the books. */
  lemma BooksReturn(v: World, op: Op, p: Pair)
    requires Inv(v) && AllPositive(v.ledger) && Sensible(v.ledger, op) && Step(v, op).Some? && Canonical(p)
    ensures op.MatchOp? ==> OrdersKnown(Step(v, op).value.ledger, op.m)
    ensures var l := Step(v, op).value.ledger;
      ImpliedBook(v.ledger, p) == OffBook(ImpliedBook(l, p), l, op, p.base, p.quote)
  {
    hide Inv, AllPositive, BookOf, OffBook, Step, GetBaseQuote, Apply, UndoOp, RollbackTokenTx, Ledgers.RollbackMatch,
         OrdersKnown, NamedBuy, NamedSell, ValidMatch, Filed;
    var w := Step(v, op).value;
    Means(v.ledger, op);
    UndoStep(v, op);
    match op {
      case TokenOp(s, tx) => TokenBooksReturn(v, s, tx, p);
      case MatchOp(m) => MatchBooksReturn(v, m, p);
    }
  }

  lemma TokenBooksReturn(v: World, s: string, x: TokenTx, p: Pair)
    requires Inv(v) && AllPositive(v.ledger) && Sensible(v.ledger, TokenOp(s, x)) && Step(v, TokenOp(s, x)).Some? && Canonical(p)
    ensures var l := Step(v, TokenOp(s, x)).value.ledger;
      ImpliedBook(v.ledger, p) == OffBook(ImpliedBook(l, p), l, TokenOp(s, x), p.base, p.quote)
  {
    hide Inv, AllPositive, BookOf, OffBook, GetBaseQuote, Undo, Apply, WithoutOrder;
    var l := Step(v, TokenOp(s, x)).value.ledger;
    UndoStep(v, TokenOp(s, x));
    if x.Place? {
      PlacedIsOpen(v.ledger.tokens[s], x.order);
      OrderOffBook(l, s, x.order, p.base, p.quote);
    } else {
      BooksFollow(v, TokenOp(s, x), p);
      OtherOnBook(ImpliedBook(v.ledger, p), TokenOp(s, x), p);
      OtherOffBook(ImpliedBook(l, p), l, TokenOp(s, x), p);
    }
  }

  lemma PlacedIsOpen(t: Token, o: Order)
    requires Apply(t, Place(o)).Some?
    ensures var t' := Apply(t, Place(o)).value; o.id in t'.open && t'.open[o.id] == o
  {}

  lemma OtherOffBook(b: Book, l: Ledger, op: Op, p: Pair)
    requires op.TokenOp? && !op.tx.Place?
    ensures OffBook(b, l, op, p.base, p.quote) == b
  {}

  lemma MatchBooksReturn(v: World, m: Match, p: Pair)
    requires Inv(v) && AllPositive(v.ledger) && Sensible(v.ledger, MatchOp(m)) && Step(v, MatchOp(m)).Some? && Canonical(p)
    ensures var l := Step(v, MatchOp(m)).value.ledger;
      && OrdersKnown(l, m)
      && ImpliedBook(v.ledger, p) == OffBook(ImpliedBook(l, p), l, MatchOp(m), p.base, p.quote)
  {
    hide BookOf, OffBook, GetBaseQuote, AddMatch, ValidMatch, Ledgers.RollbackMatch, NamedBuy, NamedSell, OrdersKnown,
         TokenInv, AllPositive, Current, Returnable;
    MatchSteps(v, m);
    MatchPair(v.ledger, m);
    BookCanReturn(v, m);
    UndoMatchStep(v, m);
    MatchStepInv(v, m);
    var w := Step(v, MatchOp(m)).value;
    KnownTokens(w.ledger, m);
    InvOf(w, m.buySymbol);
    InvOf(w, m.sellSymbol);
    MatchOffBook(w.ledger, m, p.base, p.quote);
  }

  lemma KnownTokens(l: Ledger, m: Match)
    requires OrdersKnown(l, m)
    ensures m.buySymbol in l.tokens && m.sellSymbol in l.tokens
  {}

  lemma MatchOffBooks(b: Book, l: Ledger, m: Match, p: Pair)
    requires OrdersKnown(l, m)
    ensures OffBook(b, l, MatchOp(m), p.base, p.quote) ==
      if p == Pair(m.buySymbol, m.sellSymbol) then Unfilled(b, m, NamedBuy(l, m), NamedSell(l, m)) else b
  {
    hide Unfilled, NamedBuy, NamedSell;
  }

  /** None of the matches that were found names the order that a transaction placed. */
  ghost predicate NotProposed(op: Op, found: Proposals) {
    op.TokenOp? && op.tx.Place? ==>
      Unnamed(Proposed(found, PairFor(op)), op.tx.order.id, op.symbol == PairFor(op).base)
  }

  /** The matcher will search the book of a match that was taken back.  When an order is taken back its book is
      not marked; what was found before then still answers for the books exactly if the book is dirty already or
      none of it names the order. */
  twostate predicate Unmarked(mr: Matcher, new op: Op, new found: Proposals)
    reads *
  {
    && (op.MatchOp? ==> PairFor(op) in mr.Books() && mr.Books()[PairFor(op)].Dirty)
    && mr.DirtyPairs() == old(mr.DirtyPairs()) + (if op.MatchOp? then {PairFor(op)} else {})
    && (old(mr.Answered(found)) ==> (mr.Answered(found) <==> NotProposed(op, found) || PairFor(op) in mr.DirtyPairs()))
  }

  /** Tell the matcher of a transaction that was taken back.  The orders of a match are those that the ledger
      had before it was taken back. */
  method untellMatcher(mr: Matcher, op: Op, buyOrder: Order, sellOrder: Order, ghost v: World, ghost found: Proposals)
    requires Inv(v) && AllPositive(v.ledger) && Sensible(v.ledger, op) && Step(v, op).Some?
    requires op.MatchOp? ==> var l := Step(v, op).value.ledger;
      OrdersKnown(l, op.m) && buyOrder == NamedBuy(l, op.m) && sellOrder == NamedSell(l, op.m)
    requires AgreesWith(mr, Step(v, op).value.ledger)
    modifies mr, mr.Objects()
    ensures AgreesWith(mr, v.ledger) && Unmarked(mr, op, found)
  {
    hide Inv, AllPositive, Sensible, Matcher.Sound, Matcher.OrdersAt, Matcher.Objects, WithoutOrder, Unfilled, OffBook,
         PairOf, Canonical, ImpliedBook, Step, ValidMatch, Current, Returnable, Positive, OrdersKnown, NamedBuy, NamedSell,
         Matcher.Answered, Matcher.DirtyPairs, Matcher.Books, Unnamed, Proposed;
    ghost var answered := mr.Answered(found);
    ghost var l := Step(v, op).value.ledger;
    Means(v.ledger, op);
    forall p | Canonical(p) { BooksReturn(v, op, p); }
    match op {
      case TokenOp(s, tx) =>
        if tx.Place? {
          forall p | Canonical(p) { OrderOffBooks(ImpliedBook(l, p), l, tx.order, s, p); }
          mr.RemoveOrder(tx.order, s);
          ghost var p := PairOf(tx.order.buySymbol, s);
          if answered {
            mr.AnsweredWithout(p, found, tx.order.id, s == p.base);
          }
        } else {
          forall p | Canonical(p) { OtherOffBook(ImpliedBook(l, p), l, op, p); }
        }
      case MatchOp(m) =>
        MatchSteps(v, m);
        MatchPair(v.ledger, m);
        BookCanReturn(v, m);
        forall p | Canonical(p) { MatchOffBooks(ImpliedBook(l, p), l, m, p); }
        mr.RemoveMatch(m, buyOrder, sellOrder);
        if answered {
          mr.StillAnswered(PairOf(m.buySymbol, m.sellSymbol), found);
        }
    }
  }

  /** The matcher has not been touched. */
  twostate lemma MatcherStill(mr: Matcher, new l: Ledger)
    requires old(AgreesWith(mr, l)) && unchanged(mr) && Untouched(old(mr.Objects()))
    ensures AgreesWith(mr, l) && mr.Objects() == old(mr.Objects()) && mr.DirtyPairs() == old(mr.DirtyPairs())
    ensures forall found :: old(mr.Answered(found)) ==> mr.Answered(found)
  {
    hide Matcher.Sound, Matcher.OrdersAt, Matcher.Objects, Canonical, ImpliedBook, Complete, Matcher.DirtyPairs;
    mr.StillSound();
  }

  lemma MakesStep(v: World, op: Op)
    requires Sensible(v.ledger, op)
    ensures Make(v.ledger, op).Some? <==> Step(v, op).Some?
    ensures Step(v, op).Some? ==> Make(v.ledger, op) == Some(Step(v, op).value.ledger)
    ensures AfterRefusal(v.ledger, op) == v.ledger
  {
    hide Make, Step, Proper, Run;
    MadeIsTaken(v, op);
  }

  /** A transaction of a mined block: made in the ledger, and the matcher hears of it. */
  method addMinedTransaction(state: ConsensusState, mr: Matcher, op: Op, ghost v: World, ghost found: Proposals)
    returns (ok: bool)
    requires state.Valid() && state.View() == v.ledger && Inv(v) && AllPositive(v.ledger)
    requires Sensible(v.ledger, op) && AgreesWith(mr, v.ledger) && Apart(state, mr)
    modifies state`usedMatchIDs, state.tokenStates.Values, mr, mr.Objects()
    ensures state.Valid() && (ok <==> Step(v, op).Some?)
    ensures state.View() == if ok then Step(v, op).value.ledger else v.ledger
    ensures AgreesWith(mr, state.View())
    ensures if ok then Marked(mr, op, found)
            else mr.DirtyPairs() == old(mr.DirtyPairs()) && (old(mr.Answered(found)) ==> mr.Answered(found))
    ensures Apart(state, mr) && (forall o :: o in mr.Objects() ==> o in old(mr.Objects()) || fresh(o))
  {
    hide ConsensusState.Valid, ConsensusState.View, Inv, AllPositive, Sensible, AgreesWith, Matcher.Objects, Matcher.Sound,
         Matcher.OrdersAt, Make, Step, AfterRefusal, Matcher.Answered, Matcher.DirtyPairs, Matcher.Books, PairFor, OnBooks;
    Means(v.ledger, op);
    MakesStep(v, op);
    ok := MakeTransaction(state, op);
    MatcherStill(mr, v.ledger);
    if ok {
      tellMatcher(mr, op, v, found);
    }
  }

  lemma UndoesStep(v: World, op: Op)
    requires Inv(v) && Sensible(v.ledger, op) && Step(v, op).Some?
    ensures CanUndo(Step(v, op).value.ledger, op) && Undone(Step(v, op).value.ledger, op) == v.ledger
    ensures op.MatchOp? ==> OrdersKnown(Step(v, op).value.ledger, op.m)
  {
    hide Inv, Step, Proper, Run, OrdersKnown, PaymentsUnclaimed, Undone;
    UndoTaken(v, op);
  }

  /** A transaction that was made last is taken back: that leaves the ledger and the books of the matcher as
      they were before it.  The orders of a match are looked up first. */
  method rollbackLastTransaction(state: ConsensusState, mr: Matcher, op: Op, ghost v: World, ghost found: Proposals)
    requires Inv(v) && AllPositive(v.ledger) && Sensible(v.ledger, op) && Step(v, op).Some?
    requires state.Valid() && state.View() == Step(v, op).value.ledger
    requires AgreesWith(mr, Step(v, op).value.ledger) && Apart(state, mr)
    modifies state`usedMatchIDs, state.tokenStates.Values, mr, mr.Objects()
    ensures state.Valid() && state.View() == v.ledger
    ensures AgreesWith(mr, v.ledger) && Unmarked(mr, op, found)
  {
    hide ConsensusState.Valid, ConsensusState.View, Inv, AllPositive, Sensible, AgreesWith, Matcher.Objects, Matcher.Sound,
         Matcher.OrdersAt, Step, OrdersKnown, NamedBuy, NamedSell, CanUndo, Undone, Matcher.Answered, Matcher.DirtyPairs,
         Matcher.Books, PairFor, NotProposed;
    Means(v.ledger, op);
    UndoesStep(v, op);
    var buyOrder, sellOrder := NO_ORDER, NO_ORDER;
    if op.MatchOp? {
      KnownTokens(state.View(), op.m);
      state.ViewTokens();
      var found;
      found, buyOrder, sellOrder := state.GetBuySellOrdersForMatch(op.m);
    }
    var _ := TakeBack(state, op);
    MatcherStill(mr, Step(v, op).value.ledger);
    untellMatcher(mr, op, buyOrder, sellOrder, v, found);
  }

  /** Orders are placed with positive amounts. */
  ghost predicate PositiveOrders(ops: seq<Op>) {
    forall i :: 0 <= i < |ops| && ops[i].TokenOp? && ops[i].tx.Place? ==> Positive(ops[i].tx.order)
  }

  lemma PositiveStep(w: World, op: Op)
    requires Inv(w) && AllPositive(w.ledger) && WellFormed(op) && Step(w, op).Some?
    requires op.TokenOp? && op.tx.Place? ==> Positive(op.tx.order)
    ensures AllPositive(Step(w, op).value.ledger)
  {
    hide Inv, AllPositive, Apply, ValidMatch, AddMatch;
    match op
    case TokenOp(s, x) => PositiveAfterTx(w, s, x);
    case MatchOp(m) =>
      MatchSteps(w, m);
      PositiveAfterMatch(w, m);
    case CreateOp(c) => PositiveAfterCreate(w, c);
    case CancelOp(_) =>
  }

  lemma {:induction false} PositiveRun(w: World, ops: seq<Op>)
    requires Inv(w) && AllPositive(w.ledger) && AllWellFormed(ops) && PositiveOrders(ops) && Run(w, ops).Some?
    ensures AllPositive(Run(w, ops).value.ledger)
    decreases |ops|
  {
    hide Inv, AllPositive, Step, WellFormed, Positive;
    if ops != [] {
      StepInv(w, ops[0]);
      PositiveStep(w, ops[0]);
      PositiveRun(Step(w, ops[0]).value, ops[1..]);
    }
  }

  /** Transactions of token chains leave the orders of a valid match as they are. */
  lemma {:induction false} MatchStaysProper(w: World, ops: seq<Op>, m: Match)
    requires Inv(w) && AllWellFormed(ops) && Avoids(ops, MATCH_CHAIN) && Run(w, ops).Some? && ValidMatch(w.ledger, m)
    ensures var l := Run(w, ops).value.ledger;
      ValidMatch(l, m) && BuyOrder(l, m) == BuyOrder(w.ledger, m) && SellOrder(l, m) == SellOrder(w.ledger, m)
    decreases |ops|
  {
    hide Inv, Accepts, Apply;
    if ops != [] {
      assert ChainOf(ops[0]) != MATCH_CHAIN;
      TxKeepsMatch(w.ledger, ops[0].symbol, ops[0].tx, Step(w, ops[0]).value.ledger, m);
      StepInv(w, ops[0]);
      MatchStaysProper(Step(w, ops[0]).value, ops[1..], m);
    }
  }

  /** What was sensible then is so after the other transactions. */
  lemma StillSensible(u: World, op: Op, post: seq<Op>)
    requires Inv(u) && Sensible(u.ledger, op) && Step(u, op).Some?
    requires AllWellFormed(post) && Avoids(post, ChainOf(op)) && Run(u, post).Some?
    ensures Sensible(Run(u, post).value.ledger, op)
  {
    hide Inv, Run, GetBaseQuote, Positive, WellFormed;
    if op.MatchOp? {
      hide Apply;
      MatchSteps(u, op.m);
      MatchStaysProper(u, post, op.m);
    }
  }

  lemma SensibleMeans(l: Ledger, op: Op)
    requires Sensible(l, op)
    ensures WellFormed(op) && !op.CreateOp?
  {}

  /** A transaction of a mined block is taken back, however far back it lies among the transactions of the
      other chains, once nothing depends on it: ledger and books are then as if those transactions alone had
      been made. */
  method rollbackMinedTransaction(state: ConsensusState, mr: Matcher, op: Op, ghost u: World, ghost post: seq<Op>,
                                  ghost found: Proposals)
    requires Inv(u) && AllPositive(u.ledger) && Sensible(u.ledger, op) && Step(u, op).Some?
    requires AllWellFormed(post) && Avoids(post, ChainOf(op)) && PositiveOrders(post) && Run(Step(u, op).value, post).Some?
    requires Removable(Run(Step(u, op).value, post).value, op)
    requires state.Valid() && state.View() == Run(Step(u, op).value, post).value.ledger
    requires AgreesWith(mr, state.View()) && Apart(state, mr)
    modifies state`usedMatchIDs, state.tokenStates.Values, mr, mr.Objects()
    ensures Run(u, post).Some?
    ensures state.Valid() && state.View() == Run(u, post).value.ledger
    ensures AgreesWith(mr, state.View()) && Unmarked(mr, op, found)
  {
    hide *;
    SensibleMeans(u.ledger, op);
    MoveToEnd(u, op, post);
    ghost var v := Run(u, post).value;
    RunInv(u, post);
    PositiveRun(u, post);
    StillSensible(u, op, post);
    rollbackLastTransaction(state, mr, op, v, found);
  }

  // ---------------------------------------------------------------- a block is mined

  ghost predicate AllSensible(v: World, ops: seq<Op>)
    decreases |ops|
  {
    ops == [] || (Sensible(v.ledger, ops[0]) && (Step(v, ops[0]).Some? ==> AllSensible(Step(v, ops[0]).value, ops[1..])))
  }

  /** The books that the first transactions concern will be searched. */
  ghost predicate WillSearch(mr: Matcher, ops: seq<Op>)
    reads *
  {
    forall i :: 0 <= i < |ops| && OnBooks(ops[i]) ==> PairFor(ops[i]) in mr.DirtyPairs()
  }

  twostate lemma WillSearchMore(mr: Matcher, new done: seq<Op>, new op: Op, new found: Proposals)
    requires old(WillSearch(mr, done)) && Marked(mr, op, found)
    ensures WillSearch(mr, done + [op])
    ensures old(mr.Answered(found)) ==> mr.Answered(found)
  {
    hide PairFor, Matcher.DirtyPairs, Matcher.Answered, Matcher.Books;
    forall i | 0 <= i < |done + [op]| && OnBooks((done + [op])[i]) ensures PairFor((done + [op])[i]) in mr.DirtyPairs() {
      if i < |done| {
        assert (done + [op])[i] == done[i];
      }
    }
  }

  lemma SensibleNext(v: World, ops: seq<Op>)
    requires Inv(v) && AllPositive(v.ledger) && AllSensible(v, ops) && ops != []
    ensures Sensible(v.ledger, ops[0])
    ensures Step(v, ops[0]).Some? ==>
      var w := Step(v, ops[0]).value; Inv(w) && AllPositive(w.ledger) && AllSensible(w, ops[1..])
  {
    hide Inv, AllPositive, Step, Sensible;
    if Step(v, ops[0]).Some? {
      SensibleWell(v.ledger, ops[0]);
      StepInv(v, ops[0]);
      PositiveStep(v, ops[0]);
    }
  }

  lemma SensibleWell(l: Ledger, op: Op)
    requires Sensible(l, op)
    ensures WellFormed(op) && (op.TokenOp? && op.tx.Place? ==> Positive(op.tx.order))
  {
    hide Positive;
  }

  /** The transactions of a mined block, until one is refused. */
  method addMinedTransactions(state: ConsensusState, mr: Matcher, ops: seq<Op>, ghost v: World, ghost found: Proposals)
    returns (n: nat, ghost w: World)
    requires state.Valid() && state.View() == v.ledger && Inv(v) && AllPositive(v.ledger)
    requires AllSensible(v, ops) && AgreesWith(mr, v.ledger) && Apart(state, mr) && mr.Answered(found)
    modifies state`usedMatchIDs, state.tokenStates.Values, mr, mr.Objects()
    ensures n <= |ops| && Run(v, ops[..n]) == Some(w) && (n < |ops| ==> Step(w, ops[n]).None?)
    ensures Inv(w) && AllPositive(w.ledger) && state.Valid() && state.View() == w.ledger
    ensures AgreesWith(mr, w.ledger) && Apart(state, mr) && mr.Answered(found) && WillSearch(mr, ops[..n])
    ensures forall o :: o in mr.Objects() ==> o in old(mr.Objects()) || fresh(o)
  {
    hide *;
    n, w := 0, v;
    NothingMined(mr, v, ops);
    ApartMeans(state, mr);
    var ok := true;
    while n < |ops| && ok
      invariant n <= |ops| && Run(v, ops[..n]) == Some(w) && (!ok ==> n < |ops| && Step(w, ops[n]).None?)
      invariant Inv(w) && AllPositive(w.ledger) && AllSensible(w, ops[n..]) && state.Valid() && state.View() == w.ledger
      invariant AgreesWith(mr, w.ledger) && Apart(state, mr) && mr.Answered(found) && WillSearch(mr, ops[..n])
      invariant forall o :: o in mr.Objects() ==> o in old(mr.Objects()) || fresh(o)
      decreases |ops| - n, if ok then 1 else 0
    {
      ApartMeans(state, mr);
      SensibleNext(w, ops[n..]);
      assert ops[n..][0] == ops[n] && ops[n..][1..] == ops[n + 1..] && ops[..n + 1] == ops[..n] + [ops[n]];
      label before:
      ok := addMinedTransaction(state, mr, ops[n], w, found);
      if ok {
        WillSearchMore@before(mr, ops[..n], ops[n], found);
        RunMore(v, ops[..n], ops[n], w);
        w := Step(w, ops[n]).value;
        n := n + 1;
      } else {
        StillSearch@before(mr, ops[..n]);
      }
    }
  }

  lemma ApartMeans(state: ConsensusState, mr: Matcher)
    requires Apart(state, mr)
    ensures forall o: object :: o == state || o in state.tokenStates.Values ==> o != mr && o !in mr.Objects()
  {
    hide Matcher.Objects;
  }

  lemma NothingMined(mr: Matcher, v: World, ops: seq<Op>)
    ensures ops[..0] == [] && ops[0..] == ops && Run(v, ops[..0]) == Some(v) && WillSearch(mr, [])
  {}

  lemma RunMore(v: World, done: seq<Op>, op: Op, w: World)
    requires Run(v, done) == Some(w)
    ensures Run(v, done + [op]) == Step(w, op)
  {
    hide Run, Step;
    RunConcat(v, done, [op]);
    RunJust(w, op);
  }

  twostate lemma StillSearch(mr: Matcher, new done: seq<Op>)
    requires old(WillSearch(mr, done)) && mr.DirtyPairs() == old(mr.DirtyPairs())
    ensures WillSearch(mr, done)
  {
    hide PairFor, Matcher.DirtyPairs;
  }

  /** A mined block, and the search after it.  Every book that the block concerns is searched, and in every book
      at all, what was found now or before leaves nothing that crosses. */
  method mineAndSearch(state: ConsensusState, mr: Matcher, ops: seq<Op>, ghost v: World, ghost found: Proposals)
    returns (n: nat, matches: seq<Match>, ghost fs: seq<Finding>, ghost w: World)
    requires state.Valid() && state.View() == v.ledger && Inv(v) && AllPositive(v.ledger)
    requires AllSensible(v, ops) && AgreesWith(mr, v.ledger) && Apart(state, mr) && mr.Answered(found)
    modifies state`usedMatchIDs, state.tokenStates.Values, mr, mr.Objects()
    ensures n <= |ops| && Run(v, ops[..n]) == Some(w) && (n < |ops| ==> Step(w, ops[n]).None?)
    ensures Inv(w) && AllPositive(w.ledger) && state.Valid() && state.View() == w.ledger && AgreesWith(mr, w.ledger)
    ensures matches == MatchesOf(fs) && OneEach(fs)
    ensures forall i :: 0 <= i < n && OnBooks(ops[i]) ==> PairFor(ops[i]) in PairsFound(fs)
    ensures mr.DirtyPairs() == {} && mr.Answered(Merged(found, fs))
  {
    hide *;
    n, w := addMinedTransactions(state, mr, ops, v, found);
    Searching(mr, w.ledger, ops, n);
    ApartMeans(state, mr);
    label before:
    matches, fs := mr.FindAllMatches();
    StateStill@before(state);
    AgreesStill@before(mr, w.ledger);
    mr.AnsweredAgain@before(found, fs);
  }

  lemma Searching(mr: Matcher, l: Ledger, ops: seq<Op>, n: nat)
    requires AgreesWith(mr, l) && n <= |ops| && WillSearch(mr, ops[..n])
    ensures mr.Sound() && forall i :: 0 <= i < n && OnBooks(ops[i]) ==> PairFor(ops[i]) in mr.DirtyPairs()
  {
    hide Matcher.Sound, Matcher.DirtyPairs, PairFor, ImpliedBook, Canonical, Matcher.OrdersAt;
    forall i | 0 <= i < n && OnBooks(ops[i]) ensures PairFor(ops[i]) in mr.DirtyPairs() {
      assert ops[..n][i] == ops[i];
    }
  }

  twostate lemma StateStill(state: ConsensusState)
    requires old(state.Valid()) && unchanged(state) && forall s :: s in state.tokenStates ==> unchanged(state.tokenStates[s])
    ensures state.Valid() && state.View() == old(state.View())
  {}

  twostate lemma AgreesStill(mr: Matcher, new l: Ledger)
    requires old(AgreesWith(mr, l)) && mr.Sound() && forall p :: mr.OrdersAt(p) == old(mr.OrdersAt(p))
    ensures AgreesWith(mr, l)
  {
    hide Matcher.Sound, Matcher.OrdersAt, Canonical, ImpliedBook;
  }

  // ---------------------------------------------------------------- the matches that are found

  /** What the search of a matcher that agrees with the ledger returns is accepted by the ledger, match by
      match, whatever fresh identifiers the matches have; and no bid crosses an ask then in any book that was
      searched. */
  lemma FoundMatchesAccepted(mr: Matcher, w: World, matches: seq<Match>, fs: seq<Finding>)
    requires Inv(w) && AllPositive(w.ledger) && AgreesWith(mr, w.ledger) && FreshIds(w.ledger, matches)
    requires matches == MatchesOf(fs) && OneEach(fs)
    requires forall i :: 0 <= i < |fs| ==> fs[i].pair in mr.Books() && Complete(mr.OrdersAt(fs[i].pair), fs[i])
    ensures Run(w, MatchOps(matches)).Some?
    ensures var w' := Run(w, MatchOps(matches)).value;
      && Inv(w') && AllPositive(w'.ledger)
      && forall i :: 0 <= i < |fs| ==> Uncrossed(ImpliedBook(w'.ledger, fs[i].pair))
  {
    hide Inv, AllPositive, Run, MatchOps, ImpliedBook, FreshIds, Matcher.Books, Matcher.Sound, Matcher.OrdersAt, AllFitting,
         Uncrossed, Orderbooks.After, Canonical, MatchesOf, LiveBook;
    forall i | 0 <= i < |fs| ensures FoundIn(w.ledger, fs[i]) {
      CanonicalBooks(mr, fs[i].pair);
    }
    AllFindingsAccepted(w, fs);
    var w' := Run(w, MatchOps(matches)).value;
    forall i | 0 <= i < |fs| ensures Uncrossed(ImpliedBook(w'.ledger, fs[i].pair)) {
      CanonicalBooks(mr, fs[i].pair);
      OwnFinding(w.ledger, fs, i);
      LiveUncrossed(Orderbooks.After(ImpliedBook(w.ledger, fs[i].pair), fs[i].matches));
    }
  }

  lemma CanonicalBooks(mr: Matcher, p: Pair)
    requires mr.Sound() && p in mr.Books()
    ensures Canonical(p)
  {
    hide Matcher.Books, InOrder, Footprint, Precedes;
    PairNames(p.base, p.quote);
    OneWayOnly(p.base, p.quote);
  }

  /** What becomes of a book is what its one finding makes of it. */
  lemma {:induction false} OwnFinding(l: Ledger, fs: seq<Finding>, i: nat)
    requires OneEach(fs) && i < |fs|
    ensures BookAfter(l, fs, fs[i].pair) == LiveBook(Orderbooks.After(ImpliedBook(l, fs[i].pair), fs[i].matches))
    decreases |fs|
  {
    hide LiveBook, Orderbooks.After, ImpliedBook;
    var n := |fs| - 1;
    if i < n {
      assert fs[i].pair != fs[n].pair;
      OwnFinding(l, fs[..n], i);
    }
  }

  lemma LiveUncrossed(b: Book)
    requires Uncrossed(b)
    ensures Uncrossed(LiveBook(b))
  {}

  /** After the matches that a search returned, no bid crosses an ask in any book at all, exactly when none did
      in the books that the search passed over. */
  lemma NoneCrossesIff(mr: Matcher, w: World, fs: seq<Finding>)
    requires Inv(w) && AllPositive(w.ledger) && AgreesWith(mr, w.ledger) && FreshIds(w.ledger, MatchesOf(fs)) && OneEach(fs)
    requires forall i :: 0 <= i < |fs| ==> fs[i].pair in mr.Books() && Complete(mr.OrdersAt(fs[i].pair), fs[i])
    ensures Run(w, MatchOps(MatchesOf(fs))).Some?
    ensures var w' := Run(w, MatchOps(MatchesOf(fs))).value;
      (forall p :: Canonical(p) ==> Uncrossed(ImpliedBook(w'.ledger, p))) <==>
      (forall p :: Canonical(p) && p !in PairsFound(fs) ==> Uncrossed(ImpliedBook(w.ledger, p)))
  {
    hide Inv, AllPositive, Run, MatchOps, ImpliedBook, FreshIds, Matcher.Books, Matcher.Sound, Matcher.OrdersAt, AllFitting,
         Uncrossed, Orderbooks.After, Canonical, MatchesOf, LiveBook;
    forall i | 0 <= i < |fs| ensures FoundIn(w.ledger, fs[i]) {
      CanonicalBooks(mr, fs[i].pair);
    }
    AllFindingsAccepted(w, fs);
    FoundMatchesAccepted(mr, w, MatchesOf(fs), fs);
    forall p | p !in PairsFound(fs) ensures BookAfter(w.ledger, fs, p) == ImpliedBook(w.ledger, p) {
      NotFound(fs, p);
      NotYetFound(w.ledger, fs, p);
    }
  }

  lemma NotFound(fs: seq<Finding>, p: Pair)
    requires p !in PairsFound(fs)
    ensures forall i :: 0 <= i < |fs| ==> fs[i].pair != p
  {}

  /** These findings are all the matches that were proposed, book by book in any order. */
  ghost predicate Lists(fs: seq<Finding>, found: Proposals) {
    && OneEach(fs) && PairsFound(fs) == found.Keys
    && forall i :: 0 <= i < |fs| ==> fs[i].pair in found && fs[i].matches == found[fs[i].pair]
  }

  /** When no book is dirty, the ledger accepts all that was found in all books, however long ago, and then no
      bid crosses an ask in any book at all. */
  lemma NoneCrosses(mr: Matcher, w: World, found: Proposals, fs: seq<Finding>)
    requires Inv(w) && AllPositive(w.ledger) && AgreesWith(mr, w.ledger) && mr.Answered(found) && mr.DirtyPairs() == {}
    requires Lists(fs, found) && FreshIds(w.ledger, MatchesOf(fs))
    ensures Run(w, MatchOps(MatchesOf(fs))).Some?
    ensures forall p :: Canonical(p) ==> Uncrossed(ImpliedBook(Run(w, MatchOps(MatchesOf(fs))).value.ledger, p))
  {
    hide Inv, AllPositive, Run, MatchOps, ImpliedBook, FreshIds, Matcher.Books, Matcher.Sound, Complete, MatchesOf, Uncrossed,
         Canonical, Matcher.DirtyPairs, Matcher.OrdersAt, OneEach;
    forall i | 0 <= i < |fs| ensures Complete(mr.OrdersAt(fs[i].pair), fs[i]) {
      assert fs[i] == Finding(fs[i].pair, Proposed(found, fs[i].pair));
    }
    NoneCrossesIff(mr, w, fs);
    forall p | Canonical(p) && p !in PairsFound(fs) ensures Uncrossed(ImpliedBook(w.ledger, p)) {
      if p in mr.Books() {
        NothingProposed(mr.OrdersAt(p), p);
      } else {
        NoBook(mr, p);
      }
    }
  }

  lemma NothingProposed(b: Book, p: Pair)
    requires Complete(b, Finding(p, []))
    ensures Uncrossed(b)
  {}

  lemma NoBook(mr: Matcher, p: Pair)
    requires p !in mr.Books()
    ensures Uncrossed(mr.OrdersAt(p))
  {
    hide Matcher.Books;
  }

  /** The matches that were proposed can be listed. */
  lemma {:induction false} Listed(found: Proposals) returns (fs: seq<Finding>)
    ensures Lists(fs, found)
    decreases |found.Keys|
  {
    hide Lists, OneEach;
    fs := [];
    if found.Keys != {} {
      var p :| p in found.Keys;
      var others := map q | q in found && q != p :: found[q];
      assert others.Keys < found.Keys by {
        assert p !in others;
      }
      FewerKeys(others, found);
      fs := Listed(others);
      OneMoreListed(fs, others, found, p);
      fs := fs + [Finding(p, found[p])];
    } else {
      NoneListed(found);
    }
  }

  lemma FewerKeys(a: Proposals, b: Proposals)
    requires a.Keys < b.Keys
    ensures |a.Keys| < |b.Keys|
  {
    var k :| k in b.Keys && k !in a.Keys;
    SubsetSize(a.Keys, b.Keys - {k});
  }

  lemma {:induction false} SubsetSize(a: set<Pair>, b: set<Pair>)
    requires a <= b
    ensures |a| <= |b|
  {
    if a != {} {
      var k :| k in a;
      SubsetSize(a - {k}, b - {k});
    }
  }

  lemma NoneListed(found: Proposals)
    requires found.Keys == {}
    ensures Lists([], found)
  {}

  lemma OneMoreListed(fs: seq<Finding>, others: Proposals, found: Proposals, p: Pair)
    requires Lists(fs, others) && p in found && others == map q | q in found && q != p :: found[q]
    ensures Lists(fs + [Finding(p, found[p])], found)
  {
    hide OneEach;
    FoundMore(fs, Finding(p, found[p]));
    assert found.Keys == others.Keys + {p};
  }

  // ---------------------------------------------------------------- a crossing that is missed

  const ASK := Order(1, "B", 1, 1, Address(""))
  const HIGH_BID := Order(2, "A", 2, 1, Address(""))
  const LOW_BID := Order(3, "A", 1, 1, Address(""))

  const BOTH_BIDS := Book(map[2 := HIGH_BID, 3 := LOW_BID], map[1 := ASK])

  lemma PairAB()
    ensures PairOf("B", "A") == Pair("B", "A") && PairOf("A", "B") == Pair("B", "A") && "A" != "B"
    ensures Positive(ASK) && Positive(HIGH_BID) && Positive(LOW_BID) && HIGH_BID.id == 2
    ensures ASK.buySymbol == "B" && HIGH_BID.buySymbol == "A" && LOW_BID.buySymbol == "A"
  {
    assert Precedes("A", "B");
    OneWayOnly("A", "B");
  }

  lemma ThreeOrders()
    ensures WithOrder(WithOrder(WithOrder(NO_ORDERS, ASK, false), HIGH_BID, true), LOW_BID, true) == BOTH_BIDS
    ensures WithoutOrder(BOTH_BIDS, 2, true) == LOW_ONLY
  {
    assert map[2 := HIGH_BID, 3 := LOW_BID] - {2} == map[3 := LOW_BID];
  }

  lemma HigherFirst(m: Match, base: string, quote: string)
    requires Fitting(BOTH_BIDS, m, base, quote) && PriceFirst(BOTH_BIDS, m)
    ensures m.buyOrderId == HIGH_BID.id && m.sellOrderId == ASK.id
    ensures forall j :: !Live(Filled(BOTH_BIDS, m).asks, j)
  {
    assert Live(BOTH_BIDS.bids, 2) && OffersMore(BOTH_BIDS.bids[m.buyOrderId], HIGH_BID);
  }

  /** The only complete finding is the match of the ask with the higher bid. */
  lemma HigherBid(f: Finding)
    requires Complete(BOTH_BIDS, f)
    ensures |f.matches| == 1 && f.matches[0].buyOrderId == HIGH_BID.id && f.matches[0].sellOrderId == ASK.id
  {
    hide BOTH_BIDS, PriceFirst, Uncrossed, Filled;
    var b, ms := BOTH_BIDS, f.matches;
    assert ms[..0] == [] && Orderbooks.After(b, []) == b;
    if ms == [] {
      BothCross();
    } else {
      HigherFirst(ms[0], f.pair.base, f.pair.quote);
      assert ms[..1] == [ms[0]] && Orderbooks.After(b, [ms[0]]) == Filled(b, ms[0]);
    }
  }

  lemma BothCross()
    ensures !Uncrossed(BOTH_BIDS)
  {
    assert Live(BOTH_BIDS.bids, 2) && Live(BOTH_BIDS.asks, 1);
  }

  const LOW_ONLY := Book(map[3 := LOW_BID], map[1 := ASK])

  lemma StillCrosses()
    ensures !Uncrossed(LOW_ONLY)
  {
    assert Live(LOW_ONLY.bids, 3) && Live(LOW_ONLY.asks, 1);
  }

  lemma OneFound(fs: seq<Finding>, p: Pair)
    requires OneEach(fs) && PairsFound(fs) == {p}
    ensures |fs| == 1 && fs[0].pair == p && MatchesOf(fs) == fs[0].matches
  {
    hide OneEach, MatchesOf;
    assert p in PairsFound(fs);
    forall i | 0 <= i < |fs| ensures fs[i].pair == p {
      assert fs[i].pair in PairsFound(fs);
    }
    if |fs| > 1 {
      FirstTwo(fs);
    }
    assert fs == [fs[0]];
    MatchesOfOne(fs[0]);
  }

  lemma FirstTwo(fs: seq<Finding>)
    requires OneEach(fs) && |fs| > 1
    ensures fs[0].pair != fs[1].pair
  {}

  lemma MatchesOfOne(f: Finding)
    ensures MatchesOf([f]) == f.matches
  {
    assert [f][..0] == [];
  }

  lemma NoneFound(fs: seq<Finding>)
    requires PairsFound(fs) == {}
    ensures fs == [] && MatchesOf(fs) == []
  {
    SomeFound(fs);
  }

  lemma SomeFound(fs: seq<Finding>)
    ensures fs != [] ==> PairsFound(fs) != {}
  {
    if fs != [] {
      assert fs[0].pair in PairsFound(fs);
    }
  }

  lemma NoOrdersYet(mr: Matcher, p: Pair)
    requires mr.Books() == map[]
    ensures mr.OrdersAt(p) == NO_ORDERS && mr.Objects() == {}
  {}

  /** The one ask has been matched with the higher of two bids.  The rollback of that bid leaves the mark of the
      book, so that the next search passes over it, although the other bid crosses the ask. */
  method MissCrossing() returns (mr: Matcher, first: seq<Match>, second: seq<Match>)
    ensures second == [] && |first| == 1 && first[0].buyOrderId == HIGH_BID.id && first[0].sellOrderId == ASK.id
    ensures fresh(mr) && mr.Sound() && mr.OrdersAt(Pair("B", "A")) == LOW_ONLY && !Uncrossed(LOW_ONLY)
  {
    hide *;
    PairAB();
    ThreeOrders();
    ghost var p := Pair("B", "A");
    mr := new Matcher();
    NoOrdersYet(mr, p);
    mr.AddOrder(ASK, "A");
    mr.AddOrder(HIGH_BID, "B");
    mr.AddOrder(LOW_BID, "B");
    ghost var fs;
    first, fs := mr.FindAllMatches();
    OneFound(fs, p);
    HigherBid(fs[0]);
    mr.RemoveOrder(HIGH_BID, "B");
    second, fs := mr.FindAllMatches();
    NoneFound(fs);
    StillCrosses();
  }
}
