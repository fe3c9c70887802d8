/** The consensus state as the program keeps it: one object per token, changed in place.  Every method
    is proved to do to the abstract ledger what the functions of TokenLedger and Ledger say.  The part
    of a method that deals with one token is a method of that token's object. */
module ConsensusStates {
  import opened Amounts
  import opened Transactions
  import opened Fills
  import opened TokenLedger
  import opened TokenLaws
  import opened Ledgers
  import opened Commutation

  lemma NormPut<K(!new)>(m: map<K, u64>, a: K, v: u64)
    ensures Norm(m[a := v]) == Put(Norm(m), a, v)
    ensures Get(Norm(m), a) == Get(m, a)
  {
    SameBag(Norm(m[a := v]), Put(Norm(m), a, v));
  }

  function Holds(store: map<u64, map<Address, u64>>): set<Hold> {
    set h, a | h in store && a in store[h] :: Hold(h, a)
  }

  /** The nested store of frozen funds as one map. */
  function Flatten(store: map<u64, map<Address, u64>>): Frozen {
    map k | k in Holds(store) && store[k.height][k.address] != 0 :: store[k.height][k.address]
  }

  function BlockFreezes(store: map<u64, map<Address, u64>>, h: nat): map<Address, u64> {
    if h in store then store[h] else map[]
  }

  lemma FlattenPut(store: map<u64, map<Address, u64>>, h: u64, a: Address, v: u64)
    ensures Flatten(store[h := BlockFreezes(store, h)[a := v]]) == Put(Flatten(store), Hold(h, a), v)
    ensures Get(Flatten(store), Hold(h, a)) == Get(BlockFreezes(store, h), a)
  {
    var store' := store[h := BlockFreezes(store, h)[a := v]];
    forall k ensures Get(Flatten(store'), k) == Get(Put(Flatten(store), Hold(h, a), v), k) {
      assert k in Holds(store') <==> k in Holds(store) || k == Hold(h, a) || (k.height == h && k.height in store && k.address in store[k.height]);
    }
    SameBag(Flatten(store'), Put(Flatten(store), Hold(h, a), v));
  }

  lemma FlattenAt(store: map<u64, map<Address, u64>>, h: nat)
    ensures FrozenAt(Flatten(store), h) == Norm(BlockFreezes(store, h))
  {
    var f := FrozenAt(Flatten(store), h);
    forall a ensures Get(f, a) == Get(Norm(BlockFreezes(store, h)), a) {
      assert Hold(h, a) in Holds(store) <==> h in store && a in store[h];
      if Hold(h, a) in Flatten(store) {
        assert Hold(h, a).address == a;
      }
    }
    SameBag(f, Norm(BlockFreezes(store, h)));
  }

  lemma NormNothing()
    ensures Norm<Address>(map[]) == map[]
  {}

  lemma PutNorm(f: map<Address, u64>, a: Address, v: u64)
    requires a !in f
    ensures Norm(f[a := v]) == Put(Norm(f), a, v) && Get(Norm(f), a) == 0
  {
    NormPut(f, a, v);
  }

  lemma MergeAt(m: Funds, f: Funds, a: Address)
    ensures Get(Merge(m, f), a) == Add64(Get(m, a), Get(f, a))
  {}

  lemma UnmergeAt(m: Funds, f: Funds, a: Address)
    ensures Get(Unmerge(m, f), a) == Sub64(Get(m, a), Get(f, a))
  {}

  lemma ReleaseOne(m: Funds, f: map<Address, u64>, a: Address, v: u64)
    requires a !in f
    ensures Credit(Merge(m, Norm(f)), a, v) == Merge(m, Norm(f[a := v]))
  {
    hide Merge, Unmerge, Norm;
    PutNorm(f, a, v);
    var L := Credit(Merge(m, Norm(f)), a, v);
    forall b ensures Get(L, b) == Get(Merge(m, Put(Norm(f), a, v)), b) {
      MergeAt(m, Norm(f), b);
      MergeAt(m, Put(Norm(f), a, v), b);
    }
    SameBag(L, Merge(m, Norm(f[a := v])));
  }

  lemma ReclaimOne(m: Funds, f: map<Address, u64>, a: Address, v: u64)
    requires a !in f
    ensures Debit(Unmerge(m, Norm(f)), a, v) == Unmerge(m, Norm(f[a := v]))
  {
    hide Merge, Unmerge, Norm;
    PutNorm(f, a, v);
    var L := Debit(Unmerge(m, Norm(f)), a, v);
    forall b ensures Get(L, b) == Get(Unmerge(m, Put(Norm(f), a, v)), b) {
      UnmergeAt(m, Norm(f), b);
      UnmergeAt(m, Put(Norm(f), a, v), b);
    }
    SameBag(L, Unmerge(m, Norm(f[a := v])));
  }

  const NO_ORDER: Order := Order(0, "", 0, 0, Address(""))

  // ---------------------------------------------------------------- steps of a match

  lemma PaymentsCommute(t: Token, a: Address, v: u64, b: Address, w: u64)
    ensures Paid(Paid(t, a, v), b, w) == Paid(Paid(t, b, w), a, v)
  {
    CreditsCommute(t.unclaimed, a, v, b, w);
  }

  lemma PaySettleCommute(t: Token, a: Address, v: u64, o: Order)
    ensures Paid(Settled(t, o), a, v) == Settled(Paid(t, a, v), o)
  {
    hide Credit;
    CreditsCommute(t.unclaimed, a, v, o.seller, o.amountToSell);
  }

  lemma CountSettleCommute(t: Token, id: u64, o: Order)
    ensures Counted(Settled(t, o), id) == Settled(Counted(t, id), o)
  {
    hide Credit;
    assert Count(Settled(t, o), id) == Count(t, id);
    hide Count;
  }

  lemma CountPayCommute(t: Token, id: u64, a: Address, v: u64)
    ensures Counted(Paid(t, a, v), id) == Paid(Counted(t, id), a, v)
  {
    hide Credit;
  }

  lemma CountsCommute(t: Token, i: u64, j: u64)
    ensures Counted(Counted(t, i), j) == Counted(Counted(t, j), i)
  {}

  /** A match of a token with itself does both sides to it, whichever payment and count comes first. */
  lemma SameTokenTwice(t: Token, b: Side, s: Side)
    ensures var i, j := b.residual.id, s.residual.id;
      Settled(Settled(Counted(Counted(Paid(Paid(t, b.payee, b.pay), s.payee, s.pay), i), j), s.residual), b.residual)
      == ApplySide(ApplySide(t, s), b)
  {
    hide Paid, Counted, Settled;
    var i, j := b.residual.id, s.residual.id;
    var ps := Paid(t, s.payee, s.pay);
    PaymentsCommute(t, b.payee, b.pay, s.payee, s.pay);
    CountsCommute(Paid(ps, b.payee, b.pay), i, j);
    CountPayCommute(ps, j, b.payee, b.pay);
    PaySettleCommute(Counted(ps, j), b.payee, b.pay, s.residual);
    CountSettleCommute(Paid(Counted(ps, j), b.payee, b.pay), i, s.residual);
  }

  lemma UnfiledCount(t: Token, id: u64)
    ensures Count(Unfiled(t, id), id) == Count(t, id)
  {}

  lemma FirstCredit(a: Address, v: u64)
    ensures Credit(map[], a, v) == Put(map[], a, v)
  {}

  // ---------------------------------------------------------------- rollback of a match, in two steps

  function GainTakenBack(l: Ledger, m: Match): Ledger
    requires OrdersKnown(l, m)
  {
    var t := l.tokens[m.buySymbol];
    l.(tokens := l.tokens[m.buySymbol := t.(unclaimed := Debit(t.unclaimed, NamedSell(l, m).seller, m.sellerGain))])
  }

  function Reopened(t: Token, id: u64, before: Order): Token {
    var u := Unfiled(t, id);
    u.(open := u.open[id := before], updates := u.updates[id := Count(t, id) - 1])
  }

  function RestOfRollback(l: Ledger, m: Match): Ledger
    requires OrdersKnown(l, m) && m.buySymbol != m.sellSymbol
  {
    var buy, sell := NamedBuy(l, m), NamedSell(l, m);
    l.(tokens := l.tokens
         [m.sellSymbol := UndoSide(l.tokens[m.sellSymbol], Side(sell.(id := m.sellOrderId), buy.seller, m.transferAmt),
                                   Restored(sell, m.transferAmt, m.sellerGain))]
         [m.buySymbol := Reopened(l.tokens[m.buySymbol], m.buyOrderId, Restored(buy, m.buyerLoss, m.transferAmt))],
       usedMatches := l.usedMatches - {m.matchId})
  }

  lemma TakeBackFirst(t: Token, s: Side, before: Order)
    ensures UndoSide(t, s, before)
         == Reopened(t.(unclaimed := Debit(t.unclaimed, s.payee, s.pay)), s.residual.id, before)
  {
    hide Debit;
    if s.residual.id in t.deleted {
      var o := t.deleted[s.residual.id];
      DebitsCommute(t.unclaimed, s.payee, s.pay, o.seller, o.amountToSell);
    }
  }

  /** Taking the gain back first and rolling back the rest is the rollback of the match. */
  lemma RollbackInSteps(l: Ledger, m: Match)
    requires OrdersKnown(l, m) && m.buySymbol != m.sellSymbol
    requires NamedBuy(l, m).id == m.buyOrderId && NamedSell(l, m).id == m.sellOrderId
    ensures OrdersKnown(GainTakenBack(l, m), m)
    ensures RestOfRollback(GainTakenBack(l, m), m) == Ledgers.RollbackMatch(l, m)
  {
    hide Debit, UndoSide, Reopened;
    var buy := NamedBuy(l, m);
    TakeBackFirst(l.tokens[m.buySymbol], BuySideAfter(l, m), Restored(buy, m.buyerLoss, m.transferAmt));
  }

  lemma DebitNothing(u: Funds, a: Address)
    ensures Debit(u, a, 0) == u
  {
    SameBag(Debit(u, a, 0), u);
  }

  class TokenState {
    var openOrders: map<u64, Order>
    var orderUpdatesCount: map<u64, int>
    var balances: map<Address, u64>
    var unclaimedFunds: map<Address, u64>
    var deletedOrders: map<u64, Order>
    var usedTransferIDs: set<u64>
    var usedFreezeIDs: set<u64>
    var frozenTokenStore: map<u64, map<Address, u64>>

    constructor ()
      ensures View() == EMPTY_TOKEN && Keyed()
      ensures unclaimedFunds == map[]
    {
      openOrders, deletedOrders, orderUpdatesCount := map[], map[], map[];
      balances, unclaimedFunds := map[], map[];
      usedTransferIDs, usedFreezeIDs, frozenTokenStore := {}, {}, map[];
      new;
      assert Flatten(map[]) == map[];
    }

    /** Orders are filed under their own identifiers. */
    ghost predicate Keyed()
      reads this
    {
      && (forall id :: id in openOrders ==> openOrders[id].id == id)
      && (forall id :: id in deletedOrders ==> deletedOrders[id].id == id)
    }

    ghost function View(): Token
      reads this
    {
      Token(openOrders, deletedOrders, orderUpdatesCount, Norm(balances), Norm(unclaimedFunds),
            usedTransferIDs, usedFreezeIDs, Flatten(frozenTokenStore))
    }

    method CreditBalance(a: Address, v: u64)
      modifies this`balances
      ensures View() == old(View()).(balances := Credit(old(View()).balances, a, v))
    {
      NormPut(balances, a, Add64(Get(balances, a), v));
      balances := balances[a := Add64(Get(balances, a), v)];
    }

    method DebitBalance(a: Address, v: u64)
      modifies this`balances
      ensures View() == old(View()).(balances := Debit(old(View()).balances, a, v))
    {
      NormPut(balances, a, Sub64(Get(balances, a), v));
      balances := balances[a := Sub64(Get(balances, a), v)];
    }

    method CreditUnclaimed(a: Address, v: u64)
      modifies this`unclaimedFunds
      ensures View() == Paid(old(View()), a, v)
      ensures old(Keyed()) ==> Keyed()
    {
      NormPut(unclaimedFunds, a, Add64(Get(unclaimedFunds, a), v));
      unclaimedFunds := unclaimedFunds[a := Add64(Get(unclaimedFunds, a), v)];
    }

    method DebitUnclaimed(a: Address, v: u64)
      modifies this`unclaimedFunds
      ensures View() == old(View()).(unclaimed := Debit(old(View()).unclaimed, a, v))
      ensures old(Keyed()) ==> Keyed()
    {
      NormPut(unclaimedFunds, a, Sub64(Get(unclaimedFunds, a), v));
      unclaimedFunds := unclaimedFunds[a := Sub64(Get(unclaimedFunds, a), v)];
    }

    method CreditFrozen(h: u64, a: Address, v: u64)
      modifies this`frozenTokenStore
      ensures View() == old(View()).(frozen := Credit(old(View()).frozen, Hold(h, a), v))
    {
      var blockFreezes := BlockFreezes(frozenTokenStore, h);
      FlattenPut(frozenTokenStore, h, a, Add64(Get(blockFreezes, a), v));
      blockFreezes := blockFreezes[a := Add64(Get(blockFreezes, a), v)];
      frozenTokenStore := frozenTokenStore[h := blockFreezes];
    }

    method DebitFrozen(h: u64, a: Address, v: u64)
      modifies this`frozenTokenStore
      ensures View() == old(View()).(frozen := Debit(old(View()).frozen, Hold(h, a), v))
    {
      var blockFreezes := BlockFreezes(frozenTokenStore, h);
      FlattenPut(frozenTokenStore, h, a, Sub64(Get(blockFreezes, a), v));
      blockFreezes := blockFreezes[a := Sub64(Get(blockFreezes, a), v)];
      frozenTokenStore := frozenTokenStore[h := blockFreezes];
    }

    function Balance(a: Address): (v: u64)
      reads this
      ensures v == Get(View().balances, a)
    {
      NormPut(balances, a, 0);
      Get(balances, a)
    }

    function Unclaimed(a: Address): (v: u64)
      reads this
      ensures v == Get(View().unclaimed, a)
    {
      NormPut(unclaimedFunds, a, 0);
      Get(unclaimedFunds, a)
    }

    /** Everything that one side of a match paid out is still unclaimed. */
    predicate Covers(s: Side)
      reads this
      ensures Covers(s) <==> SideCovered(View(), s)
    {
      PaidTo(s, s.payee) <= Unclaimed(s.payee) && PaidTo(s, s.residual.seller) <= Unclaimed(s.residual.seller)
    }

    method AddOrder(order: Order) returns (ok: bool)
      requires Keyed()
      modifies this
      ensures Keyed()
      ensures ok <==> Apply(old(View()), Place(order)).Some?
      ensures View() == if ok then Apply(old(View()), Place(order)).value else old(View())
    {
      hide Norm, Flatten, Credit, Debit, FrozenAt;
      if Balance(order.seller) < order.amountToSell {
        return false;
      }
      if order.id in deletedOrders {
        return false;
      }
      if order.id in openOrders {
        return false;
      }
      openOrders := openOrders[order.id := order];
      DebitBalance(order.seller, order.amountToSell);
      orderUpdatesCount := orderUpdatesCount[order.id := 0];
      return true;
    }

    method RollbackOrder(order: Order)
      requires Keyed()
      modifies this
      ensures Keyed()
      ensures View() == Undo(old(View()), Place(order))
    {
      hide Norm, Flatten, Credit, Debit, FrozenAt;
      openOrders := openOrders - {order.id};
      orderUpdatesCount := orderUpdatesCount - {order.id};
      CreditBalance(order.seller, order.amountToSell);
    }

    method AddClaimFunds(funds: ClaimFunds) returns (ok: bool)
      requires Keyed()
      modifies this
      ensures Keyed()
      ensures ok <==> Apply(old(View()), Claim(funds)).Some?
      ensures View() == if ok then Apply(old(View()), Claim(funds)).value else old(View())
    {
      hide Norm, Flatten, Credit, Debit, FrozenAt;
      if Unclaimed(funds.address) < funds.amount {
        return false;
      }
      DebitUnclaimed(funds.address, funds.amount);
      CreditBalance(funds.address, funds.amount);
      return true;
    }

    method RollbackClaimFunds(funds: ClaimFunds)
      requires Keyed()
      modifies this
      ensures Keyed()
      ensures View() == Undo(old(View()), Claim(funds))
    {
      hide Norm, Flatten, Credit, Debit, FrozenAt;
      CreditUnclaimed(funds.address, funds.amount);
      DebitBalance(funds.address, funds.amount);
    }

    method AddTransfer(transfer: Transfer) returns (ok: bool)
      requires Keyed()
      modifies this
      ensures Keyed()
      ensures ok <==> Apply(old(View()), Pay(transfer)).Some?
      ensures View() == if ok then Apply(old(View()), Pay(transfer)).value else old(View())
    {
      hide Norm, Flatten, Credit, Debit, FrozenAt;
      if transfer.id in usedTransferIDs {
        return false;
      }
      if Balance(transfer.fromAddress) < transfer.amount {
        return false;
      }
      DebitBalance(transfer.fromAddress, transfer.amount);
      CreditBalance(transfer.toAddress, transfer.amount);
      usedTransferIDs := usedTransferIDs + {transfer.id};
      return true;
    }

    method RollbackTransfer(transfer: Transfer)
      requires Keyed()
      modifies this
      ensures Keyed()
      ensures View() == Undo(old(View()), Pay(transfer))
    {
      hide Norm, Flatten, Credit, Debit, FrozenAt;
      usedTransferIDs := usedTransferIDs - {transfer.id};
      CreditBalance(transfer.fromAddress, transfer.amount);
      DebitBalance(transfer.toAddress, transfer.amount);
    }

    method AddFreeze(freeze: Freeze) returns (ok: bool)
      requires Keyed()
      modifies this
      ensures Keyed()
      ensures ok <==> Apply(old(View()), Lock(freeze)).Some?
      ensures View() == if ok then Apply(old(View()), Lock(freeze)).value else old(View())
    {
      hide Norm, Flatten, Credit, Debit, FrozenAt;
      if freeze.id in usedFreezeIDs {
        return false;
      }
      if Balance(freeze.fromAddress) < freeze.amount {
        return false;
      }
      DebitBalance(freeze.fromAddress, freeze.amount);
      CreditFrozen(freeze.unfreezeBlock, freeze.fromAddress, freeze.amount);
      usedFreezeIDs := usedFreezeIDs + {freeze.id};
      return true;
    }

    method RollbackFreeze(freeze: Freeze)
      requires Keyed()
      modifies this
      ensures Keyed()
      ensures View() == Undo(old(View()), Lock(freeze))
    {
      hide Norm, Flatten, Credit, Debit, FrozenAt;
      usedFreezeIDs := usedFreezeIDs - {freeze.id};
      CreditBalance(freeze.fromAddress, freeze.amount);
      DebitFrozen(freeze.unfreezeBlock, freeze.fromAddress, freeze.amount);
    }

    method ApplyUnfreezesForBlock(height: nat)
      requires Keyed()
      modifies this
      ensures Keyed()
      ensures View() == ApplyUnfreezes(old(View()), height)
    {
      hide Norm, Flatten, FrozenAt, Credit, Debit, Merge, Unmerge;
      FlattenAt(frozenTokenStore, height);
      MergeNothing(View().balances);
      NormNothing();
      if height !in frozenTokenStore {
        return;
      }
      var blockFreezes := frozenTokenStore[height];
      var todo := blockFreezes.Keys;
      ghost var start, done := View(), map[];
      while todo != {}
        invariant Keyed()
        invariant todo !! done.Keys && todo + done.Keys == blockFreezes.Keys
        invariant forall a :: a in done ==> done[a] == blockFreezes[a]
        invariant View() == start.(balances := Merge(start.balances, Norm(done)))
        decreases todo
      {
        var address :| address in todo;
        ReleaseOne(start.balances, done, address, blockFreezes[address]);
        CreditBalance(address, blockFreezes[address]);
        todo := todo - {address};
        done := done[address := blockFreezes[address]];
      }
      assert done == blockFreezes;
    }

    method RollbackUnfreezesForBlock(height: nat)
      requires Keyed()
      modifies this
      ensures Keyed()
      ensures View() == RollbackUnfreezes(old(View()), height)
    {
      hide Norm, Flatten, FrozenAt, Credit, Debit, Merge, Unmerge;
      FlattenAt(frozenTokenStore, height);
      UnmergeNothing(View().balances);
      NormNothing();
      if height !in frozenTokenStore {
        return;
      }
      var blockFreezes := frozenTokenStore[height];
      var todo := blockFreezes.Keys;
      ghost var start, done := View(), map[];
      while todo != {}
        invariant Keyed()
        invariant todo !! done.Keys && todo + done.Keys == blockFreezes.Keys
        invariant forall a :: a in done ==> done[a] == blockFreezes[a]
        invariant View() == start.(balances := Unmerge(start.balances, Norm(done)))
        decreases todo
      {
        var address :| address in todo;
        ReclaimOne(start.balances, done, address, blockFreezes[address]);
        DebitBalance(address, blockFreezes[address]);
        todo := todo - {address};
        done := done[address := blockFreezes[address]];
      }
      assert done == blockFreezes;
    }

    method CountUpdate(id: u64)
      requires Keyed()
      modifies this`orderUpdatesCount
      ensures Keyed()
      ensures View() == Counted(old(View()), id)
    {
      hide Norm, Flatten;
      orderUpdatesCount := orderUpdatesCount[id := (if id in orderUpdatesCount then orderUpdatesCount[id] else 0) + 1];
    }

    /** File an order with its residual amounts, and close it when it wants nothing more. */
    method SettleOrder(order: Order)
      requires Keyed()
      modifies this
      ensures Keyed()
      ensures View() == Settled(old(View()), order)
    {
      hide Norm, Flatten, Credit;
      if order.amountToBuy == 0 {
        if order.amountToSell > 0 {
          CreditUnclaimed(order.seller, order.amountToSell);
        } else {
          CreditNothing(View().unclaimed, order.seller);
        }
        deletedOrders := deletedOrders[order.id := order];
        openOrders := openOrders - {order.id};
      } else {
        openOrders := openOrders[order.id := order];
      }
    }

    /** Take an order back from the closed orders, with what it had left over. */
    method Unfile(id: u64)
      requires Keyed()
      modifies this
      ensures Keyed()
      ensures View() == Unfiled(old(View()), id)
    {
      hide Norm, Flatten, Debit;
      if id in deletedOrders {
        if deletedOrders[id].amountToSell > 0 {
          DebitUnclaimed(deletedOrders[id].seller, deletedOrders[id].amountToSell);
        } else {
          DebitNothing(View().unclaimed, deletedOrders[id].seller);
        }
        deletedOrders := deletedOrders - {id};
      }
    }

    method Reopen(order: Order)
      requires Keyed()
      modifies this
      ensures Keyed()
      ensures View() == old(View()).(open := old(View()).open[order.id := order])
    {
      openOrders := openOrders[order.id := order];
    }

    method UncountUpdate(id: u64)
      requires Keyed()
      modifies this`orderUpdatesCount
      ensures Keyed()
      ensures View() == old(View()).(updates := old(View()).updates[id := Count(old(View()), id) - 1])
    {
      orderUpdatesCount := orderUpdatesCount[id := (if id in orderUpdatesCount then orderUpdatesCount[id] else 0) - 1];
    }

    method CancelOrder(id: u64) returns (ok: bool)
      requires Keyed()
      modifies this
      ensures Keyed()
      ensures ok <==> id in old(View()).open
      ensures !ok ==> View() == old(View())
      ensures ok ==> View() == Cancelled(old(View()), id)
    {
      hide Norm, Flatten, Credit;
      if id !in openOrders {
        return false;
      }
      var order := openOrders[id];
      CreditUnclaimed(order.seller, order.amountToSell);
      openOrders := openOrders - {id};
      CountUpdate(id);
      return true;
    }

    /** The order that a match names: closed or open. */
    method FindOrder(id: u64) returns (found: bool, order: Order)
      requires Keyed()
      ensures found <==> Named(View(), id).Some?
      ensures found ==> order == Named(View(), id).value && order.id == id
    {
      order := NO_ORDER;
      if id in deletedOrders {
        return true, deletedOrders[id];
      }
      if id in openOrders {
        return true, openOrders[id];
      }
      return false, order;
    }
  }

  method ReopenBoth(buyToken: TokenState, sellToken: TokenState, m: Match, buyOrder: Order, sellOrder: Order)
    requires buyToken != sellToken && buyToken.Keyed() && sellToken.Keyed()
    requires buyOrder.id == m.buyOrderId && sellOrder.id == m.sellOrderId
    modifies buyToken, sellToken
    ensures buyToken.Keyed() && sellToken.Keyed()
    ensures buyToken.View() ==
            Reopened(old(buyToken.View()), m.buyOrderId, Restored(buyOrder, m.buyerLoss, m.transferAmt))
    ensures sellToken.View() ==
            UndoSide(old(sellToken.View()), Side(sellOrder, buyOrder.seller, m.transferAmt),
                     Restored(sellOrder, m.transferAmt, m.sellerGain))
  {
    hide Norm, Flatten, TokenState.View, TokenState.Keyed, Debit;
    UnfiledCount(buyToken.View(), m.buyOrderId);
    UnfiledCount(sellToken.View(), m.sellOrderId);
    hide Unfiled, Count;
    buyToken.Unfile(m.buyOrderId);
    sellToken.Unfile(m.sellOrderId);
    sellToken.DebitUnclaimed(buyOrder.seller, m.transferAmt);
    var buyBefore := Restored(buyOrder, m.buyerLoss, m.transferAmt);
    var sellBefore := Restored(sellOrder, m.transferAmt, m.sellerGain);
    sellToken.Reopen(sellBefore);
    buyToken.Reopen(buyBefore);
    buyToken.UncountUpdate(buyOrder.id);
    sellToken.UncountUpdate(sellOrder.id);
  }

  method CreateTokenState(create: CreateToken) returns (t: TokenState)
    ensures fresh(t) && t.Keyed() && t.View() == NewToken(create)
  {
    hide TokenState.View, TokenState.Keyed, Put;
    t := new TokenState();
    t.CreditUnclaimed(create.creator, create.info.totalSupply);
    FirstCredit(create.creator, create.info.totalSupply);
  }

  /** Pay for both sides of a match and count it, in the order in which the program does it.  The two
      objects are one when a match names the same token twice. */
  method PayBoth(buyToken: TokenState, sellToken: TokenState, m: Match, buyOrder: Order, sellOrder: Order)
    requires buyToken.Keyed() && (buyToken != sellToken ==> sellToken.Keyed())
    modifies buyToken, sellToken
    ensures buyToken.Keyed()
    ensures buyToken != sellToken ==> sellToken.Keyed()
    ensures buyToken != sellToken ==>
      && buyToken.View() == Counted(Paid(old(buyToken.View()), sellOrder.seller, m.sellerGain), buyOrder.id)
      && sellToken.View() == Counted(Paid(old(sellToken.View()), buyOrder.seller, m.transferAmt), sellOrder.id)
    ensures buyToken == sellToken ==>
      buyToken.View() == Counted(Counted(Paid(Paid(old(buyToken.View()), sellOrder.seller, m.sellerGain),
                                              buyOrder.seller, m.transferAmt), buyOrder.id), sellOrder.id)
  {
    hide Norm, Flatten, TokenState.View, TokenState.Keyed, Counted, Paid;
    buyToken.CreditUnclaimed(sellOrder.seller, m.sellerGain);
    sellToken.CreditUnclaimed(buyOrder.seller, m.transferAmt);
    buyToken.CountUpdate(buyOrder.id);
    sellToken.CountUpdate(sellOrder.id);
  }

  method SettleBoth(buyToken: TokenState, sellToken: TokenState, buyOrder: Order, sellOrder: Order)
    requires buyToken.Keyed() && (buyToken != sellToken ==> sellToken.Keyed())
    modifies buyToken, sellToken
    ensures buyToken.Keyed()
    ensures buyToken != sellToken ==> sellToken.Keyed()
    ensures buyToken != sellToken ==>
      && buyToken.View() == Settled(old(buyToken.View()), buyOrder)
      && sellToken.View() == Settled(old(sellToken.View()), sellOrder)
    ensures buyToken == sellToken ==>
      buyToken.View() == Settled(Settled(old(buyToken.View()), sellOrder), buyOrder)
  {
    hide Norm, Flatten, TokenState.View, TokenState.Keyed, Settled;
    sellToken.SettleOrder(sellOrder);
    buyToken.SettleOrder(buyOrder);
  }

  class ConsensusState {
    var tokenStates: map<string, TokenState>
    var createdTokens: map<string, TokenInfo>
    var usedMatchIDs: set<u64>

    /** Every token has an object of its own. */
    ghost predicate Valid()
      reads this, tokenStates.Values
    {
      && (forall s :: s in tokenStates ==> tokenStates[s].Keyed())
      && (forall s, r :: s in tokenStates && r in tokenStates && s != r ==> tokenStates[s] != tokenStates[r])
    }

    ghost function View(): Ledger
      reads this, tokenStates.Values
    {
      Ledger(map s | s in tokenStates :: tokenStates[s].View(), createdTokens, usedMatchIDs)
    }

    lemma ViewTokens()
      ensures View().tokens.Keys == tokenStates.Keys
      ensures View().created == createdTokens && View().usedMatches == usedMatchIDs
      ensures forall s :: s in tokenStates ==> View().tokens[s] == tokenStates[s].View()
    {
      hide TokenState.View;
    }

    constructor ()
      ensures Valid() && fresh(tokenStates.Values)
      ensures View() == GENESIS.ledger
    {
      hide TokenState.View, TokenState.Keyed;
      var t := new TokenState();
      tokenStates := map[MATCH_CHAIN := t];
      createdTokens, usedMatchIDs := map[], {};
    }

    /** Changing the object of one token changes that token only. */
    twostate lemma OneTokenChanged(symbol: string)
      requires old(Valid()) && unchanged(this) && symbol in tokenStates
      requires forall s :: s in tokenStates && s != symbol ==> unchanged(tokenStates[s])
      requires tokenStates[symbol].Keyed()
      ensures Valid()
      ensures View() == old(View()).(tokens := old(View()).tokens[symbol := tokenStates[symbol].View()])
    {
      hide Norm, Flatten, TokenState.View;
    }

    method AddOrder(symbol: string, order: Order) returns (ok: bool)
      requires Valid()
      modifies tokenStates.Values
      ensures Valid()
      ensures ok <==> AddTokenTx(old(View()), symbol, Place(order)).Some?
      ensures View() == if ok then AddTokenTx(old(View()), symbol, Place(order)).value else old(View())
    {
      hide Apply, Norm, Flatten, TokenState.View;
      if symbol !in tokenStates {
        return false;
      }
      ok := tokenStates[symbol].AddOrder(order);
      OneTokenChanged(symbol);
    }

    method RollbackOrder(symbol: string, order: Order)
      requires Valid() && symbol in tokenStates
      modifies tokenStates.Values
      ensures Valid()
      ensures View() == RollbackTokenTx(old(View()), symbol, Place(order))
    {
      hide Norm, Flatten, TokenState.View, Undo;
      tokenStates[symbol].RollbackOrder(order);
      OneTokenChanged(symbol);
    }

    method AddClaimFunds(symbol: string, funds: ClaimFunds) returns (ok: bool)
      requires Valid()
      modifies tokenStates.Values
      ensures Valid()
      ensures ok <==> AddTokenTx(old(View()), symbol, Claim(funds)).Some?
      ensures View() == if ok then AddTokenTx(old(View()), symbol, Claim(funds)).value else old(View())
    {
      hide Apply, Norm, Flatten, TokenState.View;
      if symbol !in tokenStates {
        return false;
      }
      ok := tokenStates[symbol].AddClaimFunds(funds);
      OneTokenChanged(symbol);
    }

    method RollbackClaimFunds(symbol: string, funds: ClaimFunds)
      requires Valid() && symbol in tokenStates
      modifies tokenStates.Values
      ensures Valid()
      ensures View() == RollbackTokenTx(old(View()), symbol, Claim(funds))
    {
      hide Norm, Flatten, TokenState.View, Undo;
      tokenStates[symbol].RollbackClaimFunds(funds);
      OneTokenChanged(symbol);
    }

    method AddTransfer(symbol: string, transfer: Transfer) returns (ok: bool)
      requires Valid()
      modifies tokenStates.Values
      ensures Valid()
      ensures ok <==> AddTokenTx(old(View()), symbol, Pay(transfer)).Some?
      ensures View() == if ok then AddTokenTx(old(View()), symbol, Pay(transfer)).value else old(View())
    {
      hide Apply, Norm, Flatten, TokenState.View;
      if symbol !in tokenStates {
        return false;
      }
      ok := tokenStates[symbol].AddTransfer(transfer);
      OneTokenChanged(symbol);
    }

    method RollbackTransfer(symbol: string, transfer: Transfer)
      requires Valid() && symbol in tokenStates
      modifies tokenStates.Values
      ensures Valid()
      ensures View() == RollbackTokenTx(old(View()), symbol, Pay(transfer))
    {
      hide Norm, Flatten, TokenState.View, Undo;
      tokenStates[symbol].RollbackTransfer(transfer);
      OneTokenChanged(symbol);
    }

    method AddFreeze(symbol: string, freeze: Freeze) returns (ok: bool)
      requires Valid()
      modifies tokenStates.Values
      ensures Valid()
      ensures ok <==> AddTokenTx(old(View()), symbol, Lock(freeze)).Some?
      ensures View() == if ok then AddTokenTx(old(View()), symbol, Lock(freeze)).value else old(View())
    {
      hide Apply, Norm, Flatten, TokenState.View;
      if symbol !in tokenStates {
        return false;
      }
      ok := tokenStates[symbol].AddFreeze(freeze);
      OneTokenChanged(symbol);
    }

    method RollbackFreeze(symbol: string, freeze: Freeze)
      requires Valid() && symbol in tokenStates
      modifies tokenStates.Values
      ensures Valid()
      ensures View() == RollbackTokenTx(old(View()), symbol, Lock(freeze))
    {
      hide Norm, Flatten, TokenState.View, Undo;
      tokenStates[symbol].RollbackFreeze(freeze);
      OneTokenChanged(symbol);
    }

    method ApplyUnfreezesForBlock(symbol: string, height: nat)
      requires Valid() && symbol in tokenStates
      modifies tokenStates.Values
      ensures Valid()
      ensures Some(View()) == AddTokenTx(old(View()), symbol, Release(height))
    {
      hide Norm, Flatten, TokenState.View, ApplyUnfreezes;
      tokenStates[symbol].ApplyUnfreezesForBlock(height);
      OneTokenChanged(symbol);
    }

    method RollbackUnfreezesForBlock(symbol: string, height: nat)
      requires Valid() && symbol in tokenStates
      modifies tokenStates.Values
      ensures Valid()
      ensures View() == RollbackTokenTx(old(View()), symbol, Release(height))
    {
      hide Norm, Flatten, TokenState.View, RollbackUnfreezes;
      tokenStates[symbol].RollbackUnfreezesForBlock(height);
      OneTokenChanged(symbol);
    }

    /** Changing the objects of two tokens, or of one token named twice, changes no other. */
    twostate lemma TwoTokensChanged(buy: string, new sell: string)
      requires old(Valid()) && unchanged(this)
      requires buy in tokenStates && sell in tokenStates
      requires forall s :: s in tokenStates && s != buy && s != sell ==> unchanged(tokenStates[s])
      requires forall s :: s in tokenStates ==> tokenStates[s].Keyed()
      ensures Valid()
      ensures View() == old(View()).(
        tokens := old(View()).tokens[sell := tokenStates[sell].View()][buy := tokenStates[buy].View()])
    {
      hide Norm, Flatten, TokenState.View;
    }

    /** The fill that the validator computes from the two orders, or nothing on overflow. */
    method ComputeFill(buyOrder: Order, sellOrder: Order) returns (ok: bool, f: Fill)
      ensures ok <==> !Overflows(buyOrder, sellOrder)
      ensures ok ==> f == FillOf(buyOrder, sellOrder)
      ensures Positive(buyOrder) && Positive(sellOrder) ==> ok && Exact(buyOrder, sellOrder, f.transfer, f.loss, f.gain)
    {
      NeverOverflows(buyOrder, sellOrder);
      if Positive(buyOrder) && Positive(sellOrder) {
        ghost var g := FillOf(buyOrder, sellOrder);
        FillExact(buyOrder, sellOrder, g.transfer, g.loss, g.gain);
      }
      hide Exact;
      f := Fill(0, 0, 0);
      if buyOrder.amountToBuy > sellOrder.amountToSell {
        var transferAmt := sellOrder.amountToSell;
        var sellerBaseGain := sellOrder.amountToBuy;
        if buyOrder.amountToSell * transferAmt > WORD * buyOrder.amountToBuy {
          return false, f;
        }
        var buyerBaseLoss := FloorDiv(buyOrder.amountToSell * transferAmt, buyOrder.amountToBuy);
        return true, Fill(transferAmt, buyerBaseLoss, sellerBaseGain);
      } else {
        var transferAmt := buyOrder.amountToBuy;
        var buyerBaseLoss := buyOrder.amountToSell;
        if sellOrder.amountToBuy * transferAmt > WORD * sellOrder.amountToSell {
          return false, f;
        }
        var sellerBaseGain := CeilDiv(sellOrder.amountToBuy * transferAmt, sellOrder.amountToSell);
        return true, Fill(transferAmt, buyerBaseLoss, sellerBaseGain);
      }
    }

    /** The checks that come before a match changes anything. */
    method CheckMatch(m: Match) returns (ok: bool, buyOrder: Order, sellOrder: Order)
      requires Valid()
      ensures ok <==> ValidMatch(View(), m)
      ensures ok ==> BuyOrder(View(), m) == Some(buyOrder) && SellOrder(View(), m) == Some(sellOrder)
      ensures ok && Positive(buyOrder) && Positive(sellOrder) ==>
        Exact(buyOrder, sellOrder, m.transferAmt, m.buyerLoss, m.sellerGain) && m.sellerGain <= m.buyerLoss
    {
      hide Norm, Flatten, FillOf, Overflows, Exact;
      ok := false;
      buyOrder, sellOrder := NO_ORDER, NO_ORDER;
      if m.matchId in usedMatchIDs {
        return;
      }
      if m.buySymbol !in tokenStates || m.sellSymbol !in tokenStates {
        return;
      }
      var buyToken, sellToken := tokenStates[m.buySymbol], tokenStates[m.sellSymbol];
      if m.buyOrderId !in buyToken.openOrders || m.sellOrderId !in sellToken.openOrders {
        return;
      }
      buyOrder, sellOrder := buyToken.openOrders[m.buyOrderId], sellToken.openOrders[m.sellOrderId];
      if sellOrder.amountToSell < m.transferAmt {
        return;
      }
      var fits, f := ComputeFill(buyOrder, sellOrder);
      if !fits {
        return;
      }
      if m.transferAmt != f.transfer || f.gain != m.sellerGain || f.loss != m.buyerLoss {
        return;
      }
      if f.gain > f.loss || f.loss > buyOrder.amountToSell {
        return;
      }
      ok := true;
    }

    method FillOrders(m: Match, buyOrder: Order, sellOrder: Order)
      requires Valid() && m.buySymbol in tokenStates && m.sellSymbol in tokenStates
      modifies tokenStates.Values
      ensures Valid()
      ensures var was := old(View());
        var sold := was.tokens[m.sellSymbol := ApplySide(was.tokens[m.sellSymbol], SellSide(m, buyOrder, sellOrder))];
        View() == was.(tokens := sold[m.buySymbol := ApplySide(sold[m.buySymbol], BuySide(m, buyOrder, sellOrder))])
    {
      hide Norm, Flatten, TokenState.View, TokenState.Keyed, Settled, Counted, Paid;
      var buyToken, sellToken := tokenStates[m.buySymbol], tokenStates[m.sellSymbol];
      var buyResidual := Residual(buyOrder, m.buyerLoss, m.transferAmt);
      var sellResidual := Residual(sellOrder, m.transferAmt, m.sellerGain);
      ghost var b := buyToken.View();
      PayBoth(buyToken, sellToken, m, buyOrder, sellOrder);
      SettleBoth(buyToken, sellToken, buyResidual, sellResidual);
      TwoTokensChanged(m.buySymbol, m.sellSymbol);
      if buyToken == sellToken {
        SameTokenTwice(b, BuySide(m, buyOrder, sellOrder), SellSide(m, buyOrder, sellOrder));
      }
    }

    method AddMatch(m: Match) returns (ok: bool)
      requires Valid()
      modifies this`usedMatchIDs, tokenStates.Values
      ensures Valid()
      ensures ok <==> Ledgers.AddMatch(old(View()), m).Some?
      ensures View() == if ok then Ledgers.AddMatch(old(View()), m).value else old(View())
    {
      hide TokenState.View, Accepts, ApplySide, Exact, Norm, Flatten, TokenState.Keyed;
      var buyOrder, sellOrder;
      ok, buyOrder, sellOrder := CheckMatch(m);
      if ok {
        FillOrders(m, buyOrder, sellOrder);
        usedMatchIDs := usedMatchIDs + {m.matchId};
      }
    }

    /** The orders that a match names. */
    method GetBuySellOrdersForMatch(m: Match) returns (found: bool, buyOrder: Order, sellOrder: Order)
      requires Valid() && m.buySymbol in tokenStates && m.sellSymbol in tokenStates
      ensures found <==> OrdersKnown(View(), m)
      ensures found ==> buyOrder == NamedBuy(View(), m) && sellOrder == NamedSell(View(), m)
      ensures found ==> buyOrder.id == m.buyOrderId && sellOrder.id == m.sellOrderId
    {
      hide TokenState.View, Named;
      sellOrder := NO_ORDER;
      found, buyOrder := tokenStates[m.buySymbol].FindOrder(m.buyOrderId);
      if found {
        found, sellOrder := tokenStates[m.sellSymbol].FindOrder(m.sellOrderId);
      }
    }

    lemma KnownIds(m: Match)
      requires Valid() && OrdersKnown(View(), m)
      ensures NamedBuy(View(), m).id == m.buyOrderId && NamedSell(View(), m).id == m.sellOrderId
    {
      hide Norm, Flatten;
    }

    /** Whether all that the match paid, leftovers included, is still unclaimed.  The program does not ask. */
    method Covers(m: Match) returns (covered: bool)
      requires Valid() && m.buySymbol in tokenStates && m.sellSymbol in tokenStates
      ensures covered <==> Covered(View(), m)
    {
      hide TokenState.View, SideCovered, Named;
      var found, buyOrder, sellOrder := GetBuySellOrdersForMatch(m);
      if !found {
        return false;
      }
      covered := tokenStates[m.buySymbol].Covers(Side(buyOrder, sellOrder.seller, m.sellerGain))
              && tokenStates[m.sellSymbol].Covers(Side(sellOrder, buyOrder.seller, m.transferAmt));
    }

    /** Make sure that what the match paid is still there, and take the seller's gain back.  The program
        panics where `ok` is false; the rollback of the token chains that follows its panics is dead code. */
    method RollbackUntilRollbackMatchSucceeds(m: Match) returns (ok: bool)
      requires Valid() && m.buySymbol in tokenStates && m.sellSymbol in tokenStates && m.buySymbol != m.sellSymbol
      modifies tokenStates.Values
      ensures Valid()
      ensures ok <==> OrdersKnown(old(View()), m) && PaymentsUnclaimed(old(View()), m)
      ensures ok <==>
        && OrdersKnown(old(View()), m)
        && Get(old(View()).tokens[m.buySymbol].unclaimed, NamedSell(old(View()), m).seller) >= m.sellerGain
        && Get(old(View()).tokens[m.sellSymbol].unclaimed, NamedBuy(old(View()), m).seller) >= m.transferAmt
      ensures ok ==> View() == GainTakenBack(old(View()), m)
    {
      hide TokenState.View, Named, Debit;
      var buyOrder, sellOrder;
      ok, buyOrder, sellOrder := GetBuySellOrdersForMatch(m);
      if !ok {
        return;
      }
      var buyToken, sellToken := tokenStates[m.buySymbol], tokenStates[m.sellSymbol];
      if buyToken.Unclaimed(sellOrder.seller) < m.sellerGain {
        return false;
      }
      ok := m.transferAmt <= sellToken.Unclaimed(buyOrder.seller);
      buyToken.DebitUnclaimed(sellOrder.seller, m.sellerGain);
      OneTokenChanged(m.buySymbol);
    }

    method RollbackMatch(m: Match)
      requires Valid() && OrdersKnown(View(), m) && m.buySymbol != m.sellSymbol
      modifies this`usedMatchIDs, tokenStates.Values
      ensures Valid()
      ensures View() == RestOfRollback(old(View()), m)
    {
      hide TokenState.View, TokenState.Keyed, Named, Debit, Unfiled;
      RestoreOrders(m);
      usedMatchIDs := usedMatchIDs - {m.matchId};
    }

    method RestoreOrders(m: Match)
      requires Valid() && OrdersKnown(View(), m) && m.buySymbol != m.sellSymbol
      modifies tokenStates.Values
      ensures Valid()
      ensures View() == RestOfRollback(old(View()), m).(usedMatches := usedMatchIDs)
    {
      hide TokenState.View, TokenState.Keyed, Named, Debit, Unfiled;
      var _, buyOrder, sellOrder := GetBuySellOrdersForMatch(m);
      ReopenBoth(tokenStates[m.buySymbol], tokenStates[m.sellSymbol], m, buyOrder, sellOrder);
      TwoTokensChanged(m.buySymbol, m.sellSymbol);
    }

    method AddCancelOrder(cancel: CancelOrder) returns (ok: bool)
      requires Valid()
      modifies tokenStates.Values
      ensures Valid()
      ensures ok <==> Ledgers.AddCancelOrder(old(View()), cancel).Some?
      ensures View() == if ok then Ledgers.AddCancelOrder(old(View()), cancel).value else old(View())
    {
      hide Norm, Flatten, Credit;
      if cancel.orderSymbol !in tokenStates {
        return false;
      }
      ok := tokenStates[cancel.orderSymbol].CancelOrder(cancel.orderId);
      OneTokenChanged(cancel.orderSymbol);
    }

    /** The part of the creation of a token that concerns this state; the new chain is the caller's. */
    method AddCreateToken(create: CreateToken) returns (ok: bool)
      requires Valid()
      modifies this`tokenStates, this`createdTokens
      ensures Valid()
      ensures ok <==> Ledgers.AddCreateToken(old(View()), create).Some?
      ensures View() == if ok then Ledgers.AddCreateToken(old(View()), create).value else old(View())
      ensures tokenStates.Keys == old(tokenStates.Keys) + (if ok then {create.info.symbol} else {})
      ensures fresh(tokenStates.Values - old(tokenStates.Values))
    {
      hide TokenState.View, TokenState.Keyed, NewToken;
      if create.info.symbol in createdTokens {
        return false;
      }
      var t := CreateTokenState(create);
      tokenStates := tokenStates[create.info.symbol := t];
      createdTokens := createdTokens[create.info.symbol := create.info];
      return true;
    }

    method RollbackCreateToken(create: CreateToken)
      requires Valid()
      modifies this`tokenStates, this`createdTokens
      ensures Valid()
      ensures View() == Ledgers.RollbackCreateToken(old(View()), create)
      ensures tokenStates == old(tokenStates) - {create.info.symbol}
      ensures tokenStates.Values <= old(tokenStates.Values)
    {
      hide TokenState.View;
      tokenStates := tokenStates - {create.info.symbol};
      createdTokens := createdTokens - {create.info.symbol};
    }
  }
}
