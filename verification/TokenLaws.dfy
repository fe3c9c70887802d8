/** Laws of one token's ledger: undo is exact, the invariant is kept, and a transaction of the token's
    chain commutes with one side of a match unless it places the very order that the match names. */
module TokenLaws {
  import opened Amounts
  import opened Transactions
  import opened TokenLedger

  /** The side closes or reduces an order that is open here, and pays out no more than it releases. */
  ghost predicate SideFits(t: Token, s: Side) {
    && s.residual.id in t.open
    && s.residual.seller == t.open[s.residual.id].seller
    && s.pay + s.residual.amountToSell <= t.open[s.residual.id].amountToSell
  }

  // ---------------------------------------------------------------- undo

  lemma UndoTx(t: Token, tx: TokenTx)
    requires Filed(t) && Apply(t, tx).Some?
    ensures Undo(Apply(t, tx).value, tx) == t
  {
    match tx
    case Claim(c) =>
      CreditThenDebit(t.unclaimed, c.address, c.amount);
      CreditThenDebit(t.balances, c.address, c.amount);
    case Pay(x) =>
      UndoTransfer(t, x);
    case Lock(z) =>
      CreditThenDebit(t.balances, z.fromAddress, z.amount);
      CreditThenDebit(t.frozen, Hold(z.unfreezeBlock, z.fromAddress), z.amount);
      assert t.usedFreezes + {z.id} - {z.id} == t.usedFreezes;
    case Place(o) =>
      CreditThenDebit(t.balances, o.seller, o.amountToSell);
      assert t.open[o.id := o] - {o.id} == t.open;
      assert t.updates[o.id := 0] - {o.id} == t.updates;
    case Release(h) =>
      MergeThenUnmerge(t.balances, FrozenAt(t.frozen, h));
  }

  lemma UndoTransfer(t: Token, x: Transfer)
    requires AddTransfer(t, x).Some?
    ensures RollbackTransfer(AddTransfer(t, x).value, x) == t
  {
    var paid := Debit(t.balances, x.fromAddress, x.amount);
    DebitCreditCommute(Credit(paid, x.toAddress, x.amount), x.fromAddress, x.amount, x.toAddress, x.amount);
    CreditThenDebit(paid, x.toAddress, x.amount);
    CreditThenDebit(t.balances, x.fromAddress, x.amount);
    assert t.usedTransfers + {x.id} - {x.id} == t.usedTransfers;
  }

  lemma UndoOfSide(t: Token, s: Side)
    requires Filed(t) && s.residual.id in t.open
    ensures UndoSide(ApplySide(t, s), s, t.open[s.residual.id]) == t
  {
    hide Credit, Debit;
    UndoOfCount(t, s.residual.id);
    if s.residual.amountToBuy == 0 {
      UndoOfClosing(t, s);
    } else {
      UndoOfReducing(t, s);
    }
  }

  lemma UndoOfCount(t: Token, id: u64)
    requires Filed(t) && id in t.open
    ensures t.updates[id := Count(t, id) + 1][id := Count(t, id)] == t.updates
  {
    assert id in t.updates;
  }

  lemma UndoOfReducing(t: Token, s: Side)
    requires s.residual.id in t.open
    ensures Debit(Credit(t.unclaimed, s.payee, s.pay), s.payee, s.pay) == t.unclaimed
    ensures t.open[s.residual.id := s.residual][s.residual.id := t.open[s.residual.id]] == t.open
  {
    CreditThenDebit(t.unclaimed, s.payee, s.pay);
  }

  lemma UndoOfClosing(t: Token, s: Side)
    requires Filed(t) && s.residual.id in t.open && s.residual.amountToBuy == 0
    ensures var t' := ApplySide(t, s);
      && Debit(Debit(t'.unclaimed, s.residual.seller, s.residual.amountToSell), s.payee, s.pay) == t.unclaimed
      && t'.deleted - {s.residual.id} == t.deleted
      && t'.open[s.residual.id := t.open[s.residual.id]] == t.open
  {
    hide Put, Get, Credit, Debit;
    CreditThenDebit(t.unclaimed, s.payee, s.pay);
    CreditThenDebit(Credit(t.unclaimed, s.payee, s.pay), s.residual.seller, s.residual.amountToSell);
  }

  // ---------------------------------------------------------------- invariant

  lemma FiledTx(t: Token, tx: TokenTx)
    requires Filed(t) && Apply(t, tx).Some?
    ensures Filed(Apply(t, tx).value)
  {}

  lemma FiledSide(t: Token, s: Side)
    requires Filed(t) && s.residual.id in t.open
    ensures Filed(ApplySide(t, s))
  {}

  /** The token loses to nobody but the miner: the part of the sold amount that no one is paid. */
  lemma WorthOfSide(t: Token, s: Side, h: nat)
    requires SideFits(t, s) && Worth(t, h) < WORD
    ensures Worth(ApplySide(t, s), h) ==
            Worth(t, h) - (t.open[s.residual.id].amountToSell - s.residual.amountToSell - s.pay)
  {
    hide Sum;
    var id := s.residual.id;
    EscrowClose(t, id);
    TotalCredit(t.unclaimed, s.payee, s.pay);
    if s.residual.amountToBuy == 0 {
      TotalCredit(Credit(t.unclaimed, s.payee, s.pay), s.residual.seller, s.residual.amountToSell);
    } else {
      EscrowOpen(t, id, s.residual);
    }
  }

  // ---------------------------------------------------------------- commutation

  /** What a side adds to the unclaimed funds of an address. */
  function PaidTo(s: Side, a: Address): nat {
    (if s.payee == a then s.pay else 0) + (if s.residual.seller == a then Leftover(s) else 0)
  }

  function PaySide(u: Funds, s: Side): Funds {
    Credit(Credit(u, s.payee, s.pay), s.residual.seller, Leftover(s))
  }

  lemma CreditNothing(u: Funds, a: Address)
    ensures Credit(u, a, 0) == u
  {
    SameBag(Credit(u, a, 0), u);
  }

  lemma SideUnclaimed(t: Token, s: Side)
    ensures ApplySide(t, s).unclaimed == PaySide(t.unclaimed, s)
  {
    CreditNothing(Credit(t.unclaimed, s.payee, s.pay), s.residual.seller);
  }

  lemma PaidInFull(u: Funds, s: Side, a: Address)
    requires Get(u, a) + PaidTo(s, a) < WORD
    ensures Get(PaySide(u, s), a) == Get(u, a) + PaidTo(s, a)
  {}

  lemma DebitPastPay(u: Funds, s: Side, a: Address, v: u64)
    ensures Debit(PaySide(u, s), a, v) == PaySide(Debit(u, a, v), s)
  {
    DebitCreditCommute(Credit(u, s.payee, s.pay), s.residual.seller, Leftover(s), a, v);
    DebitCreditCommute(u, s.payee, s.pay, a, v);
  }

  /** Nothing that the side pays out can wrap. */
  lemma NoWrap(t: Token, s: Side, h: nat, a: Address)
    requires SideFits(t, s) && Worth(t, h) < WORD
    ensures Get(t.unclaimed, a) + PaidTo(s, a) < WORD
  {
    hide Sum;
    EscrowClose(t, s.residual.id);
    TotalPut(t.unclaimed, a, 0);
  }

  /** A transaction and one side of a match, both possible now, can follow each other in either order
      and lead to the same ledger. */
  lemma TxSideCommute(t: Token, tx: TokenTx, s: Side, h: nat)
    requires SideFits(t, s) && Worth(t, h) < WORD && Filed(t) && Apply(t, tx).Some?
    ensures SideFits(Apply(t, tx).value, s)
    ensures Apply(t, tx).value.open[s.residual.id] == t.open[s.residual.id]
    ensures Apply(ApplySide(t, s), tx) == Some(ApplySide(Apply(t, tx).value, s))
  {
    hide Worth, Merge, Credit, Debit, ApplySide;
    match tx
    case Claim(c) => ClaimSideCommute(t, c, s, h);
    case Place(o) => PlaceSideCommute(t, o, s);
    case _ => BalanceSideCommute(t, tx, s);
  }

  lemma BalanceSideCommute(t: Token, tx: TokenTx, s: Side)
    requires s.residual.id in t.open && !tx.Claim? && !tx.Place? && Apply(t, tx).Some?
    ensures Apply(ApplySide(t, s), tx) == Some(ApplySide(Apply(t, tx).value, s))
  {
    hide Credit, Debit, Merge, FrozenAt;
  }

  lemma ClaimSideCommute(t: Token, c: ClaimFunds, s: Side, h: nat)
    requires SideFits(t, s) && Worth(t, h) < WORD && AddClaim(t, c).Some?
    ensures AddClaim(ApplySide(t, s), c) == Some(ApplySide(AddClaim(t, c).value, s))
  {
    hide Worth, Merge, Put, Get, Credit, Debit, PaySide, PaidTo, Leftover;
    SideUnclaimed(t, s);
    SideUnclaimed(AddClaim(t, c).value, s);
    NoWrap(t, s, h, c.address);
    PaidInFull(t.unclaimed, s, c.address);
    DebitPastPay(t.unclaimed, s, c.address, c.amount);
  }

  lemma PlaceSideCommute(t: Token, o: Order, s: Side)
    requires s.residual.id in t.open && Filed(t) && AddOrder(t, o).Some?
    ensures AddOrder(ApplySide(t, s), o) == Some(ApplySide(AddOrder(t, o).value, s))
  {
    var id := s.residual.id;
    var n := Count(t, id) + 1;
    assert t.updates[o.id := 0][id := n] == t.updates[id := n][o.id := 0];
    if s.residual.amountToBuy == 0 {
      assert (t.open - {id})[o.id := o] == t.open[o.id := o] - {id};
    } else {
      assert t.open[o.id := o][id := s.residual] == t.open[id := s.residual][o.id := o];
    }
  }

  /** A transaction that came after a side was possible before it, unless it claims what the side paid. */
  lemma TxBeforeSide(t: Token, tx: TokenTx, s: Side, h: nat)
    requires SideFits(t, s) && Worth(t, h) < WORD
    requires Apply(ApplySide(t, s), tx).Some?
    requires tx.Claim? ==>
      PaidTo(s, tx.claim.address) <= Get(Apply(ApplySide(t, s), tx).value.unclaimed, tx.claim.address)
    ensures Apply(t, tx).Some?
  {
    if tx.Claim? {
      var a := tx.claim.address;
      SideUnclaimed(t, s);
      NoWrap(t, s, h, a);
      PaidInFull(t.unclaimed, s, a);
    }
  }
}
