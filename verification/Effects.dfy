/** What every transaction does, address by address and without wrapping around.  The functions of the ledger
    are written in terms of 64-bit arithmetic on maps; here is what they come to in a ledger that keeps its
    invariant, and that no identifier is ever accepted twice. */
module Effects {
  import opened Amounts
  import opened Transactions
  import opened Fills
  import opened TokenLedger
  import opened TokenLaws
  import opened Ledgers
  import opened Commutation
  import opened Schedules
  import opened Timelines
  import opened OrderHistory
  import opened TokenGenesis
  import opened Admission
  import opened Freezes

  // ---------------------------------------------------------------- transactions of a token chain

  lemma HeldInTotal(t: Token, h: nat, a: Address, b: Address)
    ensures Get(t.balances, a) + Get(t.unclaimed, b) <= Worth(t, h)
    ensures a != b ==> Get(t.balances, a) + Get(t.balances, b) <= Worth(t, h)
  {
    TotalPut(t.balances, a, 0);
    TotalPut(Put(t.balances, a, 0), b, 0);
    TotalPut(t.unclaimed, b, 0);
  }

  /** A transfer is accepted exactly if its id is new and the sender has the amount.  It takes the amount from
      one address and gives it to the other; from an address to itself it moves nothing. */
  lemma TransferMoves(t: Token, x: Transfer, h: nat)
    requires Worth(t, h) < WORD
    ensures AddTransfer(t, x).Some? <==> x.id !in t.usedTransfers && x.amount <= Get(t.balances, x.fromAddress)
    ensures AddTransfer(t, x).Some? ==> var t' := AddTransfer(t, x).value;
      && t' == t.(balances := t'.balances, usedTransfers := t.usedTransfers + {x.id})
      && (x.fromAddress == x.toAddress ==> t'.balances == t.balances)
      && (x.fromAddress != x.toAddress ==>
          && Get(t'.balances, x.fromAddress) == Get(t.balances, x.fromAddress) - x.amount
          && Get(t'.balances, x.toAddress) == Get(t.balances, x.toAddress) + x.amount)
      && (forall a :: a != x.fromAddress && a != x.toAddress ==> Get(t'.balances, a) == Get(t.balances, a))
  {
    hide Worth;
    HeldInTotal(t, h, x.fromAddress, x.toAddress);
    if x.fromAddress == x.toAddress {
      CreditThenDebit(t.balances, x.fromAddress, x.amount);
    }
  }

  /** A claim moves the amount from what its address can claim to what it has. */
  lemma ClaimMoves(t: Token, c: ClaimFunds, h: nat)
    requires Worth(t, h) < WORD
    ensures AddClaim(t, c).Some? <==> c.amount <= Get(t.unclaimed, c.address)
    ensures AddClaim(t, c).Some? ==> var t' := AddClaim(t, c).value;
      && t' == t.(balances := t'.balances, unclaimed := t'.unclaimed)
      && Get(t'.unclaimed, c.address) == Get(t.unclaimed, c.address) - c.amount
      && Get(t'.balances, c.address) == Get(t.balances, c.address) + c.amount
      && (forall a :: a != c.address ==> Get(t'.balances, a) == Get(t.balances, a) && Get(t'.unclaimed, a) == Get(t.unclaimed, a))
  {
    hide Worth;
    HeldInTotal(t, h, c.address, c.address);
  }

  /** An order is filed as it is, and what it sells is taken from the balance of its owner. */
  lemma OrderTakes(t: Token, o: Order)
    ensures AddOrder(t, o).Some? <==> o.id !in t.open && o.id !in t.deleted && o.amountToSell <= Get(t.balances, o.seller)
    ensures AddOrder(t, o).Some? ==> var t' := AddOrder(t, o).value;
      && t' == t.(balances := t'.balances, open := t.open[o.id := o], updates := t'.updates)
      && Count(t', o.id) == 0
      && Get(t'.balances, o.seller) == Get(t.balances, o.seller) - o.amountToSell
      && (forall a :: a != o.seller ==> Get(t'.balances, a) == Get(t.balances, a))
      && (forall id :: id != o.id ==> Count(t', id) == Count(t, id))
  {}

  /** A freeze until a height ahead takes the amount from the balance, and the block that reaches the height
      gives to everybody what was frozen until then. */
  lemma FreezeTakes(t: Token, z: Freeze, h: nat)
    requires Worth(t, h) < WORD
    ensures AddFreeze(t, z).Some? <==> z.id !in t.usedFreezes && z.amount <= Get(t.balances, z.fromAddress)
    ensures AddFreeze(t, z).Some? ==> var t' := AddFreeze(t, z).value;
      && t' == t.(balances := t'.balances, frozen := t'.frozen, usedFreezes := t.usedFreezes + {z.id})
      && Get(t'.balances, z.fromAddress) == Get(t.balances, z.fromAddress) - z.amount
      && (forall a :: a != z.fromAddress ==> Get(t'.balances, a) == Get(t.balances, a))
      && (z.unfreezeBlock > h ==>
          Get(t'.frozen, Hold(z.unfreezeBlock, z.fromAddress)) == Get(t.frozen, Hold(z.unfreezeBlock, z.fromAddress)) + z.amount)
      && (forall k :: k != Hold(z.unfreezeBlock, z.fromAddress) ==> Get(t'.frozen, k) == Get(t.frozen, k))
  {
    hide Worth;
    if AddFreeze(t, z).Some? && z.unfreezeBlock > h {
      FreezeFits(t, z, h);
    }
  }

  lemma FreezeFits(t: Token, z: Freeze, h: nat)
    requires Worth(t, h) < WORD && z.amount <= Get(t.balances, z.fromAddress) && z.unfreezeBlock > h
    ensures Get(t.frozen, Hold(z.unfreezeBlock, z.fromAddress)) + z.amount < WORD
  {
    hide Sum;
    TotalPut(t.balances, z.fromAddress, 0);
    TotalPut(Due(t.frozen, h), Hold(z.unfreezeBlock, z.fromAddress), 0);
  }

  lemma ReleaseGives(t: Token, h: nat)
    requires Worth(t, h) < WORD
    ensures var t' := ApplyUnfreezes(t, h + 1);
      && t' == t.(balances := t'.balances)
      && forall a :: Get(t'.balances, a) == Get(t.balances, a) + Get(t.frozen, Hold(h + 1, a))
  {
    hide Sum;
    var t' := ApplyUnfreezes(t, h + 1);
    forall a ensures Get(t'.balances, a) == Get(t.balances, a) + Get(t.frozen, Hold(h + 1, a)) {
      FrozenOfAddress(t.frozen, h + 1, a);
      TotalPut(t.balances, a, 0);
      TotalPut(Due(t.frozen, h), Hold(h + 1, a), 0);
    }
  }

  lemma FrozenOfAddress(frozen: Frozen, h: nat, a: Address)
    ensures Get(FrozenAt(frozen, h), a) == Get(frozen, Hold(h, a))
  {
    if Hold(h, a) in frozen {
      assert Hold(h, a).address == a;
    }
  }

  // ---------------------------------------------------------------- matches

  /** What is left of an order after it gave and got so much. */
  predicate Reduced(before: Order, after: Order, gave: nat, got: nat) {
    && after.amountToSell == before.amountToSell - gave && after.amountToBuy == before.amountToBuy - got
    && after.id == before.id && after.seller == before.seller && after.buySymbol == before.buySymbol
  }

  /** One side of a match: the order is open with what is left of it, or closed if it wants nothing more; the
      other party can claim what it is paid, and the owner of a closed order what is left over. */
  ghost predicate SideSettled(t: Token, t': Token, id: u64, gave: nat, got: nat, payee: Address, pay: nat)
    requires id in t.open
  {
    var before := t.open[id];
    && t' == t.(open := t'.open, deleted := t'.deleted, updates := t'.updates, unclaimed := t'.unclaimed)
    && (if before.amountToBuy == got
        then t'.open == t.open - {id} && id in t'.deleted && t'.deleted - {id} == t.deleted && Reduced(before, t'.deleted[id], gave, got)
        else t'.deleted == t.deleted && id in t'.open && t'.open - {id} == t.open - {id} && Reduced(before, t'.open[id], gave, got))
    && Count(t', id) == Count(t, id) + 1 && (forall other :: other != id ==> Count(t', other) == Count(t, other))
    && forall a :: Get(t'.unclaimed, a) ==
         Get(t.unclaimed, a) + (if a == payee then pay else 0)
         + (if a == before.seller && before.amountToBuy == got then before.amountToSell - gave else 0)
  }

  lemma SidePays(t: Token, s: Side, h: nat, a: Address)
    requires SideFits(t, s) && Filed(t) && Worth(t, h) < WORD
    ensures Get(ApplySide(t, s).unclaimed, a) == Get(t.unclaimed, a) + PaidTo(s, a)
  {
    hide *;
    SideUnclaimed(t, s);
    NoWrap(t, s, h, a);
    PaidInFull(t.unclaimed, s, a);
  }

  lemma SideFiles(t: Token, s: Side, gave: u64, got: u64)
    requires s.residual.id in t.open && Filed(t)
    requires var o := t.open[s.residual.id];
      s.residual == Residual(o, gave, got) && gave <= o.amountToSell && got <= o.amountToBuy
    ensures var t', id := ApplySide(t, s), s.residual.id;
      && t' == t.(open := t'.open, deleted := t'.deleted, updates := t'.updates, unclaimed := t'.unclaimed)
      && t'.updates == t.updates[id := Count(t, id) + 1] && Reduced(t.open[id], s.residual, gave, got)
      && (if s.residual.amountToBuy == 0 then t'.open == t.open - {id} && t'.deleted == t.deleted[id := s.residual]
          else t'.deleted == t.deleted && t'.open == t.open[id := s.residual])
  {
    hide Credit;
  }

  lemma SideSettles(t: Token, s: Side, h: nat, gave: u64, got: u64)
    requires SideFits(t, s) && Filed(t) && Worth(t, h) < WORD
    requires var o := t.open[s.residual.id];
      s.residual == Residual(o, gave, got) && gave <= o.amountToSell && got <= o.amountToBuy
    ensures SideSettled(t, ApplySide(t, s), s.residual.id, gave, got, s.payee, s.pay)
  {
    hide ApplySide, Worth, Residual, Get;
    SideFiles(t, s, gave, got);
    forall a {
      SidePays(t, s, h, a);
    }
  }

  /** An accepted match: both sides are settled, the seller is paid in the buyer's token and the buyer in the
      seller's, and nothing else has changed but that the id is used. */
  lemma MatchSettles(w: World, m: Match)
    requires Inv(w) && m.buySymbol != m.sellSymbol && ValidMatch(w.ledger, m)
    ensures var l, l' := w.ledger, AddMatch(w.ledger, m).value;
      var buy, sell := BuyOrder(l, m).value, SellOrder(l, m).value;
      && m.buySymbol in l'.tokens && m.sellSymbol in l'.tokens
      && SideSettled(l.tokens[m.buySymbol], l'.tokens[m.buySymbol], m.buyOrderId, m.buyerLoss, m.transferAmt, sell.seller, m.sellerGain)
      && SideSettled(l.tokens[m.sellSymbol], l'.tokens[m.sellSymbol], m.sellOrderId, m.transferAmt, m.sellerGain, buy.seller, m.transferAmt)
      && l'.tokens - {m.buySymbol, m.sellSymbol} == l.tokens - {m.buySymbol, m.sellSymbol}
      && l'.created == l.created && l'.usedMatches == l.usedMatches + {m.matchId} && m.matchId !in l.usedMatches
  {
    hide Inv, Accepts, ApplySide, SideSettled, Worth;
    ValidMatchFacts(w, m);
    var l := w.ledger;
    var buy, sell := BuyOrder(l, m).value, SellOrder(l, m).value;
    MatchTokens(l, m);
    MatchSidesFit(l, m);
    AcceptedSides(buy, sell, m);
    InvOf(w, m.buySymbol);
    InvOf(w, m.sellSymbol);
    SideSettles(l.tokens[m.buySymbol], BuySide(m, buy, sell), HeightOf(w, m.buySymbol), m.buyerLoss, m.transferAmt);
    SideSettles(l.tokens[m.sellSymbol], SellSide(m, buy, sell), HeightOf(w, m.sellSymbol), m.transferAmt, m.sellerGain);
  }

  /** What the rollback of a match takes from an address: what it was paid, and what was left over of its order
      when the match closed it. */
  function Retaken(t: Token, id: u64, payee: Address, pay: nat, a: Address): nat {
    (if a == payee then pay else 0) + (if id in t.deleted && t.deleted[id].seller == a then t.deleted[id].amountToSell else 0)
  }

  lemma SideRetaken(t: Token, s: Side, before: Order, a: Address)
    ensures Retaken(t, s.residual.id, s.payee, s.pay, a) <= Get(t.unclaimed, a) ==>
      Get(UndoSide(t, s, before).unclaimed, a) == Get(t.unclaimed, a) - Retaken(t, s.residual.id, s.payee, s.pay, a)
  {
    assert UndoSide(t, s, before).unclaimed == Debit(Unfiled(t, s.residual.id).unclaimed, s.payee, s.pay);
  }

  /** A rollback of a match that passes the checks takes from each party what it was paid, without wrapping, leftovers
      apart; and no address loses anything that holds what is taken from it. */
  lemma RollbackRetakes(l: Ledger, m: Match, a: Address)
    requires OrdersKnown(l, m) && m.buySymbol != m.sellSymbol && PaymentsUnclaimed(l, m)
    requires NamedBuy(l, m).id == m.buyOrderId && NamedSell(l, m).id == m.sellOrderId
    ensures var l', buyer, seller := RollbackMatch(l, m), NamedBuy(l, m).seller, NamedSell(l, m).seller;
      var b, s, b', s' := l.tokens[m.buySymbol], l.tokens[m.sellSymbol], l'.tokens[m.buySymbol], l'.tokens[m.sellSymbol];
      && (buyer != seller || m.buyOrderId !in b.deleted ==>
          m.sellerGain <= Get(b.unclaimed, seller) && Get(b'.unclaimed, seller) == Get(b.unclaimed, seller) - m.sellerGain)
      && (buyer != seller || m.sellOrderId !in s.deleted ==>
          m.transferAmt <= Get(s.unclaimed, buyer) && Get(s'.unclaimed, buyer) == Get(s.unclaimed, buyer) - m.transferAmt)
      && (Retaken(b, m.buyOrderId, seller, m.sellerGain, a) <= Get(b.unclaimed, a) ==>
          Get(b'.unclaimed, a) == Get(b.unclaimed, a) - Retaken(b, m.buyOrderId, seller, m.sellerGain, a))
      && (Retaken(s, m.sellOrderId, buyer, m.transferAmt, a) <= Get(s.unclaimed, a) ==>
          Get(s'.unclaimed, a) == Get(s.unclaimed, a) - Retaken(s, m.sellOrderId, buyer, m.transferAmt, a))
  {
    hide UndoSide, Unfiled, Debit;
    var buy, sell := NamedBuy(l, m), NamedSell(l, m);
    var b, s := l.tokens[m.buySymbol], l.tokens[m.sellSymbol];
    var before, before' := Restored(buy, m.buyerLoss, m.transferAmt), Restored(sell, m.transferAmt, m.sellerGain);
    SideRetaken(b, BuySideAfter(l, m), before, a);
    SideRetaken(s, SellSideAfter(l, m), before', a);
    SideRetaken(b, BuySideAfter(l, m), before, sell.seller);
    SideRetaken(s, SellSideAfter(l, m), before', buy.seller);
  }

  // ---------------------------------------------------------------- cancellations

  /** A cancellation gives the owner of the order back what it still had to sell, and counts as an update. */
  lemma CancelGives(t: Token, id: u64, h: nat)
    requires Worth(t, h) < WORD && id in t.open
    ensures var t', o := Cancelled(t, id), t.open[id];
      && t' == t.(open := t.open - {id}, unclaimed := t'.unclaimed, updates := t'.updates)
      && Get(t'.unclaimed, o.seller) == Get(t.unclaimed, o.seller) + o.amountToSell
      && (forall a :: a != o.seller ==> Get(t'.unclaimed, a) == Get(t.unclaimed, a))
      && Count(t', id) == Count(t, id) + 1 && (forall other :: other != id ==> Count(t', other) == Count(t, other))
  {
    hide Sum;
    EscrowClose(t, id);
    TotalPut(t.unclaimed, t.open[id].seller, 0);
  }

  /** An order that was cancelled cannot be rolled back any more: what it sold would be refunded twice. */
  lemma CancelledForGood(ops: Program, w: World, c: CancelOrder, o: Order)
    requires Reached(ops, w) && AddCancelOrder(w.ledger, c).Some? && o.id == c.orderId
    ensures !CanUndo(AddCancelOrder(w.ledger, c).value, TokenOp(c.orderSymbol, Place(o)))
    ensures Count(AddCancelOrder(w.ledger, c).value.tokens[c.orderSymbol], c.orderId) == LifeOf(ops, c.orderSymbol, c.orderId).fills + 1
  {
    hide Run, LifeOf, Inv, Worth;
    LedgerAgrees(ops, w, c.orderSymbol, c.orderId);
    GenesisInv();
    RunInv(GENESIS, ops);
    CancelCounts(w, c, LifeOf(ops, c.orderSymbol, c.orderId));
  }

  lemma CancelCounts(w: World, c: CancelOrder, h: Life)
    requires Inv(w) && AddCancelOrder(w.ledger, c).Some? && AgreesIn(w, c.orderSymbol, c.orderId, h)
    ensures Count(AddCancelOrder(w.ledger, c).value.tokens[c.orderSymbol], c.orderId) == h.fills + 1
  {
    hide Worth, Credit;
  }

  // ---------------------------------------------------------------- identifiers

  /** The two transactions use the same identifier for the same thing. */
  predicate SameUse(a: Op, b: Op) {
    match (a, b)
    case (TokenOp(r, x), TokenOp(s, y)) =>
      r == s && (match (x, y)
                 case (Pay(p), Pay(q)) => p.id == q.id
                 case (Lock(p), Lock(q)) => p.id == q.id
                 case (Place(p), Place(q)) => p.id == q.id
                 case _ => false)
    case (MatchOp(m), MatchOp(n)) => m.matchId == n.matchId
    case (CreateOp(c), CreateOp(d)) => c.info.symbol == d.info.symbol
    case _ => false
  }

  /** No transaction with the identifier of this one is accepted. */
  ghost predicate Refuses(w: World, a: Op) {
    forall b :: SameUse(a, b) ==> Step(w, b).None?
  }

  /** The identifier is on record. */
  ghost predicate Recorded(w: World, a: Op) {
    match a
    case TokenOp(s, Pay(x)) => s in w.ledger.tokens && x.id in w.ledger.tokens[s].usedTransfers
    case TokenOp(s, Lock(z)) => s in w.ledger.tokens && z.id in w.ledger.tokens[s].usedFreezes
    case TokenOp(s, Place(o)) =>
      s in w.ledger.tokens && (o.id in w.ledger.tokens[s].open || o.id in w.ledger.tokens[s].deleted)
    case TokenOp(_, _) => true
    case MatchOp(m) => m.matchId in w.ledger.usedMatches
    case CreateOp(c) => c.info.symbol in w.ledger.created
    case CancelOp(_) => true
  }

  lemma RecordedRefuses(w: World, a: Op)
    requires Recorded(w, a)
    ensures Refuses(w, a)
  {
    hide Accepts, ApplySide, Credit, Debit;
  }

  lemma RecordedAtOnce(w: World, a: Op)
    requires Step(w, a).Some?
    ensures Recorded(Step(w, a).value, a)
  {
    hide Accepts, ApplySide, Credit, Debit, Merge;
  }

  lemma RecordStays(w: World, a: Op, op: Op)
    requires Inv(w) && WellFormed(op) && Recorded(w, a) && Step(w, op).Some?
    ensures Recorded(Step(w, op).value, a)
  {
    hide TokenInv, ValidMatch, AddMatch, Apply, NewToken;
    match op
    case TokenOp(s, x) =>
      RecordStaysTx(w.ledger.tokens[s], x);
    case MatchOp(m) =>
      MatchSteps(w, m);
      RecordStaysMatch(w, a, m);
    case CreateOp(c) =>
    case CancelOp(_) =>
  }

  lemma RecordStaysTx(t: Token, x: TokenTx)
    requires Apply(t, x).Some?
    ensures var t' := Apply(t, x).value;
      && t.usedTransfers <= t'.usedTransfers && t.usedFreezes <= t'.usedFreezes
      && t.open.Keys <= t'.open.Keys && t.deleted.Keys <= t'.deleted.Keys
  {}

  lemma RecordStaysMatch(w: World, a: Op, m: Match)
    requires Inv(w) && m.buySymbol != m.sellSymbol && ValidMatch(w.ledger, m) && Recorded(w, a)
    ensures Recorded(w.(ledger := AddMatch(w.ledger, m).value), a)
  {
    hide Inv, Accepts, ApplySide;
    ValidMatchFacts(w, m);
    var l := w.ledger;
    var buy, sell := BuyOrder(l, m).value, SellOrder(l, m).value;
    MatchTokens(l, m);
    RecordStaysSide(l.tokens[m.buySymbol], BuySide(m, buy, sell));
    RecordStaysSide(l.tokens[m.sellSymbol], SellSide(m, buy, sell));
  }

  lemma RecordStaysSide(t: Token, s: Side)
    ensures var t' := ApplySide(t, s);
      && t'.usedTransfers == t.usedTransfers && t'.usedFreezes == t.usedFreezes
      && t.open.Keys + t.deleted.Keys <= t'.open.Keys + t'.deleted.Keys
  {
    hide Credit;
  }

  /** What was accepted once is refused from then on, whatever else is accepted. */
  lemma {:induction false} RefusedFromThenOn(w: World, a: Op, post: seq<Op>)
    requires Inv(w) && WellFormed(a) && Step(w, a).Some? && AllWellFormed(post) && Run(Step(w, a).value, post).Some?
    ensures Refuses(Run(Step(w, a).value, post).value, a)
  {
    hide Inv, WellFormed, Step, Recorded, Refuses, Run;
    RecordedAtOnce(w, a);
    StepInv(w, a);
    RecordedRun(Step(w, a).value, a, post);
    RecordedRefuses(Run(Step(w, a).value, post).value, a);
  }

  lemma {:induction false} RecordedRun(w: World, a: Op, post: seq<Op>)
    requires Inv(w) && Recorded(w, a) && AllWellFormed(post) && Run(w, post).Some?
    ensures Recorded(Run(w, post).value, a)
    decreases |post|
  {
    hide Inv, WellFormed, Step, Recorded;
    if post != [] {
      RecordStays(w, a, post[0]);
      StepInv(w, post[0]);
      RecordedRun(Step(w, post[0]).value, a, post[1..]);
    }
  }

  /** Until it is rolled back: then the identifier is as free as it was before. */
  lemma FreeAgain(w: World, a: Op, b: Op)
    requires Inv(w) && WellFormed(a) && Step(w, a).Some?
    ensures var w' := Step(w, a).value;
      && (a.TokenOp? ==> a.symbol in w'.ledger.tokens && (a.tx.Release? ==> a.tx.height > 0))
      && (a.MatchOp? ==> OrdersKnown(w'.ledger, a.m) && a.m.buySymbol != a.m.sellSymbol)
      && (Step(UndoOp(w', a), b).Some? <==> Step(w, b).Some?) && Step(UndoOp(w', a), a).Some?
  {
    hide Inv, ValidMatch, Apply, AddMatch, OrdersKnown;
    UndoStep(w, a);
    TokensOfStep(w, a);
  }

  /** In no run are two transfers of a token, two freezes, two orders or two matches accepted that have the same
      identifier, nor two tokens of the same name. */
  lemma OnceOnly(ops: Program, w: World, i: nat, j: nat)
    requires Reached(ops, w) && i < j < |ops|
    ensures !SameUse(ops[i], ops[j])
  {
    hide Inv, WellFormed, Step, Run, SameUse, Refuses;
    var pre, post, rest := ops[..i], ops[i + 1..j], ops[j + 1..];
    assert ops == pre + ([ops[i]] + (post + ([ops[j]] + rest)));
    GenesisInv();
    RunConcat(GENESIS, pre, [ops[i]] + (post + ([ops[j]] + rest)));
    var u := Run(GENESIS, pre).value;
    RunInv(GENESIS, pre);
    RunOneMore(u, ops[i], post + ([ops[j]] + rest));
    var v := Step(u, ops[i]).value;
    RunConcat(v, post, [ops[j]] + rest);
    RunOneMore(Run(v, post).value, ops[j], rest);
    RefusedFromThenOn(u, ops[i], post);
    RefusesSame(Run(v, post).value, ops[i], ops[j]);
  }

  lemma RefusesSame(w: World, a: Op, b: Op)
    requires Refuses(w, a) && Step(w, b).Some?
    ensures !SameUse(a, b)
  {
    hide SameUse, Step;
  }

  lemma RunOneMore(w: World, o: Op, post: seq<Op>)
    ensures Run(w, [o] + post) == (match Step(w, o) case None => None case Some(w1) => Run(w1, post))
  {
    hide Step;
    assert ([o] + post)[1..] == post;
  }
}
