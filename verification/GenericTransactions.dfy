/** Making and taking back the transactions of blocks, whatever their type, one at a time. */
module GenericTransactions {
  import opened Amounts
  import opened Transactions
  import opened TokenLedger
  import opened Ledgers
  import opened Admission
  import opened ConsensusStates

  /** The transactions of a block that have been made so far, so that they can be taken back. */
  class UncommittedTransactions {
    var transactions: seq<Op>

    constructor ()
      ensures transactions == []
    {
      transactions := [];
    }

    method addTransaction(transaction: Op)
      modifies this
      ensures transactions == old(transactions) + [transaction]
    {
      transactions := transactions + [transaction];
    }
  }

  method AddTokenTransaction(state: ConsensusState, symbol: string, tx: TokenTx) returns (ok: bool)
    requires state.Valid() && !tx.Release?
    modifies state.tokenStates.Values
    ensures state.Valid()
    ensures ok <==> AddTokenTx(old(state.View()), symbol, tx).Some?
    ensures state.View() == if ok then AddTokenTx(old(state.View()), symbol, tx).value else old(state.View())
  {
    hide AddTokenTx, ConsensusState.View, ConsensusState.Valid;
    match tx
    case Claim(c) => ok := state.AddClaimFunds(symbol, c);
    case Pay(x) => ok := state.AddTransfer(symbol, x);
    case Lock(z) => ok := state.AddFreeze(symbol, z);
    case Place(o) => ok := state.AddOrder(symbol, o);
  }

  /** A transaction that creates no token. */
  method MakeTransaction(state: ConsensusState, op: Op) returns (ok: bool)
    requires state.Valid() && !op.CreateOp? && (op.TokenOp? ==> !op.tx.Release?)
    modifies state`usedMatchIDs, state.tokenStates.Values
    ensures state.Valid()
    ensures ok <==> Make(old(state.View()), op).Some?
    ensures ok ==> state.View() == Make(old(state.View()), op).value
    ensures !ok ==> state.View() == AfterRefusal(old(state.View()), op)
  {
    hide ConsensusState.Valid, ConsensusState.View, AddTokenTx, Ledgers.AddMatch, Ledgers.AddCancelOrder;
    match op
    case TokenOp(symbol, tx) =>
      ok := AddTokenTransaction(state, symbol, tx);
    case MatchOp(m) =>
      ok := state.AddMatch(m);
    case CancelOp(c) =>
      var _ := state.AddCancelOrder(c);
      ok := false;
  }

  method RevertTokenTx(state: ConsensusState, s: string, tx: TokenTx)
    requires state.Valid() && s in state.tokenStates
    modifies state.tokenStates.Values
    ensures state.Valid()
    ensures state.View() == RollbackTokenTx(old(state.View()), s, tx)
  {
    hide RollbackTokenTx, ConsensusState.View, ConsensusState.Valid;
    match tx
    case Claim(c) => state.RollbackClaimFunds(s, c);
    case Pay(x) => state.RollbackTransfer(s, x);
    case Lock(z) => state.RollbackFreeze(s, z);
    case Place(o) => state.RollbackOrder(s, o);
    case Release(h) => state.RollbackUnfreezesForBlock(s, h);
  }

  lemma MatchUndo(l: Ledger, m: Match)
    requires m.buySymbol != m.sellSymbol
    ensures CanUndo(l, MatchOp(m)) <==> OrdersKnown(l, m) && PaymentsUnclaimed(l, m)
    ensures OrdersKnown(l, m) ==> m.buySymbol in l.tokens && m.sellSymbol in l.tokens
    ensures OrdersKnown(l, m) ==>
      (PaymentsUnclaimed(l, m) <==>
        && Get(l.tokens[m.buySymbol].unclaimed, NamedSell(l, m).seller) >= m.sellerGain
        && Get(l.tokens[m.sellSymbol].unclaimed, NamedBuy(l, m).seller) >= m.transferAmt)
    ensures OrdersKnown(l, m) ==> Undone(l, MatchOp(m)) == Ledgers.RollbackMatch(l, m)
  {}

  /** Take a match back; nothing that it paid may have been spent. */
  method TakeMatchBack(state: ConsensusState, m: Match) returns (panicked: bool)
    requires state.Valid() && m.buySymbol != m.sellSymbol
    modifies state`usedMatchIDs, state.tokenStates.Values
    ensures state.Valid()
    ensures panicked <==> !CanUndo(old(state.View()), MatchOp(m))
    ensures var l := old(state.View());
      panicked <==>
        || !OrdersKnown(l, m)
        || Get(l.tokens[m.buySymbol].unclaimed, NamedSell(l, m).seller) < m.sellerGain
        || Get(l.tokens[m.sellSymbol].unclaimed, NamedBuy(l, m).seller) < m.transferAmt
    ensures !panicked ==> state.View() == Undone(old(state.View()), MatchOp(m))
  {
    hide *;
    state.ViewTokens();
    ghost var l := state.View();
    MatchUndo(l, m);
    if m.buySymbol !in state.tokenStates || m.sellSymbol !in state.tokenStates {
      return true;
    }
    if OrdersKnown(state.View(), m) {
      state.KnownIds(m);
    }
    var ok := state.RollbackUntilRollbackMatchSucceeds(m);
    panicked := !ok;
    if ok {
      RollbackInSteps(l, m);
      state.RollbackMatch(m);
    }
  }

  /** Take one transaction back that created no token. */
  method TakeBack(state: ConsensusState, op: Op) returns (panicked: bool)
    requires state.Valid() && WellFormed(op) && (op.TokenOp? || op.MatchOp?)
    requires op.TokenOp? ==> CanUndo(state.View(), op)
    modifies state`usedMatchIDs, state.tokenStates.Values
    ensures state.Valid()
    ensures panicked <==> !CanUndo(old(state.View()), op)
    ensures !panicked ==> state.View() == Undone(old(state.View()), op)
  {
    hide ConsensusState.Valid, ConsensusState.View, RollbackTokenTx, Ledgers.RollbackMatch, OrdersKnown,
         PaymentsUnclaimed, Count;
    panicked := false;
    match op
    case TokenOp(symbol, tx) =>
      state.ViewTokens();
      RevertTokenTx(state, symbol, tx);
    case MatchOp(m) =>
      panicked := TakeMatchBack(state, m);
  }
}
