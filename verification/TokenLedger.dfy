/** The ledger of one token: what each transaction of its chain does, how it is undone, and what one
    side of a match does to it.  These are the values that the objects of ConsensusState hold. */
module TokenLedger {
  import opened Amounts
  import opened Transactions

  /** Funds of an address that a freeze holds until a height. */
  datatype Hold = Hold(height: nat, address: Address)

  type Frozen = Bag<Hold>

  datatype Token = Token(
    open: map<u64, Order>,
    deleted: map<u64, Order>,
    updates: map<u64, int>,
    balances: Funds,
    unclaimed: Funds,
    usedTransfers: set<u64>,
    usedFreezes: set<u64>,
    frozen: Frozen)

  /** A transaction of a token chain, or the release of the funds frozen until a height, which
      accompanies the block that brings the chain to that height. */
  datatype TokenTx =
    | Claim(claim: ClaimFunds)
    | Pay(transfer: Transfer)
    | Lock(freeze: Freeze)
    | Place(order: Order)
    | Release(height: nat)

  const EMPTY_TOKEN: Token := Token(map[], map[], map[], map[], map[], {}, {}, map[])

  /** What is released when the chain reaches height h. */
  function FrozenAt(frozen: Frozen, h: nat): Funds {
    map a | a in (set k | k in frozen :: k.address) && Hold(h, a) in frozen :: frozen[Hold(h, a)]
  }

  function Count(t: Token, id: u64): int {
    if id in t.updates then t.updates[id] else 0
  }

  // ---------------------------------------------------------------- transactions

  function AddOrder(t: Token, o: Order): Option<Token> {
    if Get(t.balances, o.seller) < o.amountToSell || o.id in t.deleted || o.id in t.open then None
    else Some(t.(
      open := t.open[o.id := o],
      balances := Debit(t.balances, o.seller, o.amountToSell),
      updates := t.updates[o.id := 0]))
  }

  function RollbackOrder(t: Token, o: Order): Token {
    t.(open := t.open - {o.id},
       updates := t.updates - {o.id},
       balances := Credit(t.balances, o.seller, o.amountToSell))
  }

  function AddClaim(t: Token, c: ClaimFunds): Option<Token> {
    if Get(t.unclaimed, c.address) < c.amount then None
    else Some(t.(
      unclaimed := Debit(t.unclaimed, c.address, c.amount),
      balances := Credit(t.balances, c.address, c.amount)))
  }

  function RollbackClaim(t: Token, c: ClaimFunds): Token {
    t.(unclaimed := Credit(t.unclaimed, c.address, c.amount),
       balances := Debit(t.balances, c.address, c.amount))
  }

  function AddTransfer(t: Token, x: Transfer): Option<Token> {
    if x.id in t.usedTransfers || Get(t.balances, x.fromAddress) < x.amount then None
    else Some(t.(
      balances := Credit(Debit(t.balances, x.fromAddress, x.amount), x.toAddress, x.amount),
      usedTransfers := t.usedTransfers + {x.id}))
  }

  function RollbackTransfer(t: Token, x: Transfer): Token {
    t.(balances := Debit(Credit(t.balances, x.fromAddress, x.amount), x.toAddress, x.amount),
       usedTransfers := t.usedTransfers - {x.id})
  }

  function AddFreeze(t: Token, z: Freeze): Option<Token> {
    if z.id in t.usedFreezes || Get(t.balances, z.fromAddress) < z.amount then None
    else Some(t.(
      balances := Debit(t.balances, z.fromAddress, z.amount),
      frozen := Credit(t.frozen, Hold(z.unfreezeBlock, z.fromAddress), z.amount),
      usedFreezes := t.usedFreezes + {z.id}))
  }

  function RollbackFreeze(t: Token, z: Freeze): Token {
    t.(balances := Credit(t.balances, z.fromAddress, z.amount),
       frozen := Debit(t.frozen, Hold(z.unfreezeBlock, z.fromAddress), z.amount),
       usedFreezes := t.usedFreezes - {z.id})
  }

  /** Released funds stay in the store of frozen funds; only the balances change. */
  function ApplyUnfreezes(t: Token, h: nat): Token {
    t.(balances := Merge(t.balances, FrozenAt(t.frozen, h)))
  }

  function RollbackUnfreezes(t: Token, h: nat): Token {
    t.(balances := Unmerge(t.balances, FrozenAt(t.frozen, h)))
  }

  function Apply(t: Token, tx: TokenTx): Option<Token> {
    match tx
    case Claim(c) => AddClaim(t, c)
    case Pay(x) => AddTransfer(t, x)
    case Lock(z) => AddFreeze(t, z)
    case Place(o) => AddOrder(t, o)
    case Release(h) => Some(ApplyUnfreezes(t, h))
  }

  function Undo(t: Token, tx: TokenTx): Token {
    match tx
    case Claim(c) => RollbackClaim(t, c)
    case Pay(x) => RollbackTransfer(t, x)
    case Lock(z) => RollbackFreeze(t, z)
    case Place(o) => RollbackOrder(t, o)
    case Release(h) => RollbackUnfreezes(t, h)
  }

  // ---------------------------------------------------------------- one side of a match

  /** One side of a match: the order with its amounts after the fill, and who is paid how much of this
      token for it.  An order that wants nothing more is closed and what it has left to sell becomes
      claimable by its owner. */
  datatype Side = Side(residual: Order, payee: Address, pay: u64)

  function Leftover(s: Side): u64 {
    if s.residual.amountToBuy == 0 then s.residual.amountToSell else 0
  }

  function Paid(t: Token, a: Address, v: u64): Token {
    t.(unclaimed := Credit(t.unclaimed, a, v))
  }

  function Counted(t: Token, id: u64): Token {
    t.(updates := t.updates[id := Count(t, id) + 1])
  }

  /** File an order with its residual amounts, and close it when it wants nothing more. */
  function Settled(t: Token, o: Order): Token {
    if o.amountToBuy == 0 then
      t.(unclaimed := Credit(t.unclaimed, o.seller, o.amountToSell),
         deleted := t.deleted[o.id := o],
         open := t.open - {o.id})
    else
      t.(open := t.open[o.id := o])
  }

  function ApplySide(t: Token, s: Side): Token {
    Settled(Counted(Paid(t, s.payee, s.pay), s.residual.id), s.residual)
  }

  /** The order that a match names, open or closed. */
  function Named(t: Token, id: u64): Option<Order> {
    if id in t.deleted then Some(t.deleted[id])
    else if id in t.open then Some(t.open[id])
    else None
  }

  /** Take an order back from the closed orders, with what it had left over. */
  function Unfiled(t: Token, id: u64): Token {
    if id in t.deleted then
      t.(unclaimed := Debit(t.unclaimed, t.deleted[id].seller, t.deleted[id].amountToSell),
         deleted := t.deleted - {id})
    else t
  }

  /** Undo one side, given the order as it was before the match. */
  function UndoSide(t: Token, s: Side, before: Order): Token {
    var u := Unfiled(t, s.residual.id);
    u.(unclaimed := Debit(u.unclaimed, s.payee, s.pay),
       open := u.open[s.residual.id := before],
       updates := u.updates[s.residual.id := Count(t, s.residual.id) - 1])
  }

  // ---------------------------------------------------------------- invariant

  /** Orders are filed under their own identifier, are open or closed but not both, and every order
      that is either has a count of the matches that named it. */
  ghost predicate Filed(t: Token) {
    && (forall id :: id in t.open ==> t.open[id].id == id)
    && (forall id :: id in t.deleted ==> t.deleted[id].id == id)
    && t.open.Keys !! t.deleted.Keys
    && t.updates.Keys == t.open.Keys + t.deleted.Keys
  }

  ghost function Escrows(open: map<u64, Order>): map<u64, nat> {
    map id | id in open :: open[id].amountToSell
  }

  /** What the open orders hold in escrow. */
  ghost function Escrow(t: Token): nat {
    Sum(Escrows(t.open))
  }

  ghost function Due(frozen: Frozen, h: nat): Frozen {
    map k | k in frozen && k.height > h :: frozen[k]
  }

  /** What is frozen until a height above h. */
  ghost function FrozenAbove(t: Token, h: nat): nat {
    Total(Due(t.frozen, h))
  }

  ghost function Worth(t: Token, h: nat): nat {
    Total(t.balances) + Total(t.unclaimed) + Escrow(t) + FrozenAbove(t, h)
  }

  /** A chain of height h whose token has the given supply. */
  ghost predicate TokenInv(t: Token, h: nat, supply: u64) {
    Filed(t) && Worth(t, h) <= supply
  }

  lemma EscrowOpen(t: Token, id: u64, o: Order)
    ensures Sum(Escrows(t.open[id := o])) ==
            Escrow(t) - (if id in t.open then t.open[id].amountToSell else 0) + o.amountToSell
  {
    SumPut(Escrows(t.open), id, o.amountToSell);
    assert Escrows(t.open[id := o]) == Escrows(t.open)[id := o.amountToSell];
  }

  lemma EscrowClose(t: Token, id: u64)
    requires id in t.open
    ensures Sum(Escrows(t.open - {id})) == Escrow(t) - t.open[id].amountToSell
  {
    SumRemove(Escrows(t.open), id);
    assert Escrows(t.open - {id}) == Escrows(t.open) - {id};
  }

  lemma DueCredit(frozen: Frozen, k: Hold, v: u64, h: nat)
    requires k.height > h ==> Total(Due(frozen, h)) + v < WORD
    ensures Total(Due(Credit(frozen, k, v), h)) == Total(Due(frozen, h)) + (if k.height > h then v else 0)
  {
    hide Sum;
    var due := Due(frozen, h);
    if k.height > h {
      TotalCredit(due, k, v);
      SameBag(Due(Credit(frozen, k, v), h), Credit(due, k, v));
    } else {
      SameBag(Due(Credit(frozen, k, v), h), due);
    }
  }

  lemma {:induction false} FrozenNext(frozen: Frozen, h: nat)
    ensures Total(Due(frozen, h)) == Total(Due(frozen, h + 1)) + Total(FrozenAt(frozen, h + 1))
    decreases |frozen|
  {
    hide Sum;
    if frozen == map[] {
      assert Due(frozen, h) == Due(frozen, h + 1);
      assert FrozenAt(frozen, h + 1) == map[];
      SumNothing<Address>();
    } else {
      var k := Pick(frozen.Keys);
      var rest: Frozen := frozen - {k};
      FrozenNext(rest, h);
      DueWithout(frozen, k, h);
      DueWithout(frozen, k, h + 1);
      FrozenWithout(frozen, k, h + 1);
    }
  }

  lemma DueWithout(frozen: Frozen, k: Hold, h: nat)
    requires k in frozen
    ensures Total(Due(frozen, h)) == Total(Due(frozen - {k}, h)) + (if k.height > h then frozen[k] else 0)
  {
    hide Sum;
    if k.height > h {
      SumRemove(Due(frozen, h), k);
      assert Due(frozen - {k}, h) == Due(frozen, h) - {k};
    } else {
      assert Due(frozen - {k}, h) == Due(frozen, h);
    }
  }

  lemma FrozenWithout(frozen: Frozen, k: Hold, h: nat)
    requires k in frozen
    ensures Total(FrozenAt(frozen, h)) == Total(FrozenAt(frozen - {k}, h)) + (if k.height == h then frozen[k] else 0)
  {
    hide Sum;
    var f, g := FrozenAt(frozen, h), FrozenAt(frozen - {k}, h);
    if k.height == h {
      SumRemove(f, k.address);
      forall a ensures Get(g, a) == Get(f - {k.address}, a) {
        assert Hold(h, a) in frozen - {k} <==> Hold(h, a) in frozen && a != k.address;
      }
      SameBag(g, f - {k.address});
    } else {
      SameBag(g, f);
    }
  }

  /** A transaction leaves the worth of the token as it was, except that funds frozen until a height
      already reached are never released again. */
  lemma WorthOfTx(t: Token, tx: TokenTx, h: nat)
    requires Worth(t, h) < WORD && Apply(t, tx).Some?
    requires tx.Release? ==> tx.height == h + 1
    ensures var t' := Apply(t, tx).value;
      Worth(t', if tx.Release? then h + 1 else h) ==
      Worth(t, h) - (if tx.Lock? && tx.freeze.unfreezeBlock <= h then tx.freeze.amount else 0)
  {
    hide Worth, AddClaim, AddTransfer, AddFreeze, AddOrder, ApplyUnfreezes;
    match tx
    case Claim(c) => WorthOfClaim(t, c, h);
    case Pay(x) => WorthOfTransfer(t, x, h);
    case Lock(z) => WorthOfFreeze(t, z, h);
    case Place(o) => WorthOfOrder(t, o, h);
    case Release(_) => WorthOfRelease(t, h);
  }

  lemma WorthOfOrder(t: Token, o: Order, h: nat)
    requires Worth(t, h) < WORD && AddOrder(t, o).Some?
    ensures Worth(AddOrder(t, o).value, h) == Worth(t, h)
  {
    hide Sum, Credit, Debit;
    TotalDebit(t.balances, o.seller, o.amountToSell);
    EscrowOpen(t, o.id, o);
  }

  lemma WorthOfRelease(t: Token, h: nat)
    requires Worth(t, h) < WORD
    ensures Worth(ApplyUnfreezes(t, h + 1), h + 1) == Worth(t, h)
  {
    hide Sum, Merge, Escrows, FrozenAt;
    FrozenNext(t.frozen, h);
    TotalMerge(t.balances, FrozenAt(t.frozen, h + 1));
  }

  lemma WorthOfClaim(t: Token, c: ClaimFunds, h: nat)
    requires Worth(t, h) < WORD && AddClaim(t, c).Some?
    ensures Worth(AddClaim(t, c).value, h) == Worth(t, h)
  {
    TotalDebit(t.unclaimed, c.address, c.amount);
    TotalPut(t.unclaimed, c.address, 0);
    TotalCredit(t.balances, c.address, c.amount);
  }

  lemma WorthOfTransfer(t: Token, x: Transfer, h: nat)
    requires Worth(t, h) < WORD && AddTransfer(t, x).Some?
    ensures Worth(AddTransfer(t, x).value, h) == Worth(t, h)
  {
    TotalPut(t.balances, x.fromAddress, 0);
    TotalDebit(t.balances, x.fromAddress, x.amount);
    TotalCredit(Debit(t.balances, x.fromAddress, x.amount), x.toAddress, x.amount);
  }

  lemma WorthOfFreeze(t: Token, z: Freeze, h: nat)
    requires Worth(t, h) < WORD && AddFreeze(t, z).Some?
    ensures Worth(AddFreeze(t, z).value, h) == Worth(t, h) - (if z.unfreezeBlock <= h then z.amount else 0)
  {
    hide Sum;
    TotalPut(t.balances, z.fromAddress, 0);
    TotalDebit(t.balances, z.fromAddress, z.amount);
    DueCredit(t.frozen, Hold(z.unfreezeBlock, z.fromAddress), z.amount, h);
  }
}
