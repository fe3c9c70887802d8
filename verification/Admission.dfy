/** Taking in a block, transaction by transaction: where it is refused, what a refusal leaves, and what
    the tokens that it creates add to the chains. */
module Admission {
  import opened Amounts
  import opened Transactions
  import opened Fills
  import opened TokenLedger
  import opened Ledgers
  import opened Commutation
  import opened Schedules
  import opened Timelines
  import opened TokenGenesis
  import opened Chains

  /** What the blocks of a chain stand for. */
  function Programs(c: string, blocks: seq<Block>): seq<Program> {
    seq(|blocks|, i requires 0 <= i < |blocks| => BlockOps(c, blocks[i].data, i + 1))
  }

  ghost predicate GoodBlocks(c: string, blocks: seq<Block>) {
    forall i :: 0 <= i < |blocks| ==> Fits(c, blocks[i].data)
  }

  lemma ProgramsDrop(c: string, blocks: seq<Block>)
    requires blocks != []
    ensures var n := |blocks| - 1;
      Programs(c, blocks) == Programs(c, blocks[..n]) + [BlockOps(c, blocks[n].data, n + 1)]
  {
    hide BlockOps;
  }

  lemma ProgramsAppend(c: string, blocks: seq<Block>, b: Block)
    ensures Programs(c, blocks + [b]) == Programs(c, blocks) + [BlockOps(c, b.data, |blocks| + 1)]
  {
    hide BlockOps;
  }

  function NewTokenGenesisBlock(c: CreateToken): Block {
    Block(NoHash, GenesisData(c), 0, Digest(NoHash, GenesisData(c), 0))
  }

  /** The token that every node starts with. */
  function NativeToken(creator: Address): CreateToken {
    CreateToken(TokenInfo("NATIVE", 100 * 1000 * 1000, 18), creator)
  }

  /** The first block of the MATCH chain creates it. */
  function NewGenesisBlock(creator: Address): Block {
    var data := MatchData([], [], [NativeToken(creator)]);
    Block(NoHash, data, 0, Digest(NoHash, data, 0))
  }

  lemma FirstBlockFits(creator: Address)
    ensures var b, op := NewGenesisBlock(creator), CreateOp(NativeToken(creator));
      Sealed(b) && b.prev == NoHash && Fits(MATCH_CHAIN, b.data) && DataOps(MATCH_CHAIN, b.data) == [op]
  {
    var b, c := NewGenesisBlock(creator), NativeToken(creator);
    assert DataOps(MATCH_CHAIN, b.data) == [CreateOp(c)] + [] + [];
  }

  lemma TakeOne(w: World, op: Op)
    ensures TakeAll(w, [op]) == Take(w, op)
  {
    hide Take;
    assert TakeAll(w, []) == Some(w) && [op][..0] == [];
  }

  /** The creator of the native token has all there is of it: a hundred million. */
  ghost predicate NativeSupply(l: Ledger, creator: Address) {
    && "NATIVE" in l.tokens && "NATIVE" in l.created && l.created["NATIVE"].totalSupply == 100_000_000
    && forall a :: Get(l.tokens["NATIVE"].balances, a) == if a == creator then 100_000_000 else 0
  }

  lemma FirstBlockTaken(creator: Address)
    ensures var op := CreateOp(NativeToken(creator));
      && TakeAll(GENESIS, [op]).Some?
      && TakeAll(GENESIS, [op]).value.ledger.tokens.Keys == {MATCH_CHAIN, "NATIVE"}
      && NativeSupply(TakeAll(GENESIS, [op]).value.ledger, creator)
  {
    var c := NativeToken(creator);
    TakeOne(GENESIS, CreateOp(c));
    GenesisInv();
    NewTokenTaken(GENESIS, c);
    CreatedSupply(GENESIS, c);
    assert GENESIS.ledger.tokens.Keys == {MATCH_CHAIN};
    hide *;
  }

  /** A token whose name is new is created. */
  lemma NewTokenTaken(w: World, c: CreateToken)
    requires Inv(w) && c.info.symbol != MATCH_CHAIN && c.info.symbol !in w.ledger.created
    ensures Take(w, CreateOp(c)).Some?
    ensures Take(w, CreateOp(c)).value.ledger.tokens.Keys == w.ledger.tokens.Keys + {c.info.symbol}
  {
    hide Take, NewToken, TokenInv;
    TakeSteps(w, CreateOp(c));
    TakenKeys(w, c);
  }

  // ---------------------------------------------------------------- refused transactions

  /** A refused transaction changes nothing, unless it is a cancellation: that takes effect all the same. */
  function AfterRefusal(l: Ledger, op: Op): Ledger {
    if op.CancelOp? && AddCancelOrder(l, op.cancel).Some? then AddCancelOrder(l, op.cancel).value else l
  }

  /** What a transaction that creates no token does to the ledger, if it is accepted. */
  function Make(l: Ledger, op: Op): Option<Ledger>
    requires !op.CreateOp?
  {
    match op
    case TokenOp(symbol, tx) => AddTokenTx(l, symbol, tx)
    case MatchOp(m) => Ledgers.AddMatch(l, m)
    case CancelOp(_) => None
  }

  lemma MadeIsTaken(w: World, op: Op)
    requires !op.CreateOp? && (op.TokenOp? ==> !op.tx.Release?)
    ensures Take(w, op).Some? <==> Make(w.ledger, op).Some?
    ensures Take(w, op).Some? ==> Make(w.ledger, op) == Some(Take(w, op).value.ledger)
  {
    hide Apply, ValidMatch, ApplySide;
  }

  ghost predicate CancelsAt(w: World, ops: Program, n: nat) {
    && n < |ops| && ops[n].CancelOp? && TakeAll(w, ops[..n]).Some?
    && AddCancelOrder(TakeAll(w, ops[..n]).value.ledger, ops[n].cancel).Some?
  }

  /** All that comes before a cancellation is accepted, and the order that it cancels is open. */
  ghost predicate CancelReached(w: World, ops: Program) {
    exists n: nat :: CancelsAt(w, ops, n)
  }

  lemma {:induction false} TakeAllPrefix(w: World, ops: Program, n: nat)
    requires TakeAll(w, ops).Some? && n <= |ops|
    ensures TakeAll(w, ops[..n]).Some?
    decreases |ops|
  {
    hide Take;
    if n < |ops| {
      TakeAllPrefix(w, ops[..|ops| - 1], n);
      assert ops[..|ops| - 1][..n] == ops[..n];
    } else {
      assert ops[..n] == ops;
    }
  }

  lemma TakeNext(w: World, ops: Program, n: nat)
    requires n < |ops|
    ensures TakeAll(w, ops[..n + 1]) ==
      (match TakeAll(w, ops[..n]) case None => None case Some(v) => Take(v, ops[n]))
  {
    hide Take;
    assert ops[..n + 1][..n] == ops[..n];
  }

  lemma TakeOneMore(w: World, done: Program, op: Op)
    ensures TakeAll(w, done + [op]) == (match TakeAll(w, done) case None => None case Some(v) => Take(v, op))
  {
    assert (done + [op])[..|done| + 1] == done + [op] && (done + [op])[..|done|] == done;
    TakeNext(w, done + [op], |done|);
  }

  /** Where a block is refused is determined. */
  lemma RefusedAt(w: World, ops: Program, n: nat)
    requires n < |ops| && TakeAll(w, ops[..n]).Some? && Take(TakeAll(w, ops[..n]).value, ops[n]).None?
    ensures TakeAll(w, ops).None?
    ensures CancelReached(w, ops) <==> AfterRefusal(TakeAll(w, ops[..n]).value.ledger, ops[n]) != TakeAll(w, ops[..n]).value.ledger
  {
    hide Take, TakeAll, Ledgers.AddCancelOrder;
    TakeNext(w, ops, n);
    if TakeAll(w, ops).Some? {
      TakeAllPrefix(w, ops, n + 1);
    }
    if CancelsAt(w, ops, n) {
      CancelChanges(TakeAll(w, ops[..n]).value.ledger, ops[n].cancel);
    }
    if CancelReached(w, ops) {
      var k: nat :| CancelsAt(w, ops, k);
      if k < n {
        assert ops[..n][..k + 1] == ops[..k + 1];
        CancelRefused(TakeAll(w, ops[..k]).value, ops[k]);
        TakeAllPrefix(w, ops[..n], k + 1);
        TakeNext(w, ops, k);
      } else if k > n {
        assert ops[..k][..n + 1] == ops[..n + 1];
        TakeAllPrefix(w, ops[..k], n + 1);
      }
    }
  }

  lemma CancelRefused(w: World, op: Op)
    requires op.CancelOp?
    ensures Take(w, op).None?
  {}

  lemma CancelChanges(l: Ledger, c: CancelOrder)
    requires AddCancelOrder(l, c).Some?
    ensures AddCancelOrder(l, c).value != l
  {
    hide Credit;
    var t := l.tokens[c.orderSymbol];
    assert c.orderId in t.open && c.orderId !in Cancelled(t, c.orderId).open;
  }

  /** Creating a token while a block is taken in: the creation, and then the first block. */
  lemma TakeCreate(w: World, c: CreateToken)
    requires Inv(w) && c.info.symbol != MATCH_CHAIN
    ensures Take(w, CreateOp(c)).Some? <==> Ledgers.AddCreateToken(w.ledger, c).Some?
    ensures Take(w, CreateOp(c)).Some? ==>
      && var w1 := Step(w, CreateOp(c));
      && w1.Some? && Ledgers.AddCreateToken(w.ledger, c) == Some(w1.value.ledger)
      && c.info.symbol in w1.value.ledger.tokens
      && Run(w1.value, GenesisOps(c)) == Take(w, CreateOp(c))
  {
    hide Inv, Run, NewToken;
    TakeSteps(w, CreateOp(c));
  }

  /** A token that is created is new. */
  lemma TakenKeys(w: World, c: CreateToken)
    requires Inv(w) && c.info.symbol != MATCH_CHAIN && Take(w, CreateOp(c)).Some?
    ensures c.info.symbol !in w.ledger.tokens
    ensures Take(w, CreateOp(c)).value.ledger.tokens.Keys == w.ledger.tokens.Keys + {c.info.symbol}
  {
    hide Run, NewToken, TokenInv;
    var w1 := Step(w, CreateOp(c)).value;
    GenesisIsLocal(w1, c);
    var s, w' := c.info.symbol, Take(w, CreateOp(c)).value;
    forall d ensures d in w'.ledger.tokens <==> d in w.ledger.tokens || d == s {
      assert d in w'.ledger.tokens - {s} <==> d in w1.ledger.tokens - {s};
    }
  }

  /** When a token has been created and its first block added, its creator has the whole supply, and nobody can
      claim or has frozen anything of it. */
  lemma CreatedSupply(w: World, c: CreateToken)
    requires Inv(w) && c.info.symbol != MATCH_CHAIN && Take(w, CreateOp(c)).Some?
    ensures var l := Take(w, CreateOp(c)).value.ledger;
      && c.info.symbol !in w.ledger.tokens && c.info.symbol in l.tokens
      && c.info.symbol in l.created && l.created[c.info.symbol] == c.info
      && (forall a :: Get(l.tokens[c.info.symbol].balances, a) == if a == c.creator then c.info.totalSupply else 0)
      && l.tokens[c.info.symbol] == EMPTY_TOKEN.(balances := l.tokens[c.info.symbol].balances)
  {
    hide Run, TokenInv, Merge;
    TakenKeys(w, c);
    var w1 := Step(w, CreateOp(c)).value;
    RunGenesis(w1, c);
    FirstClaimed(c);
  }

  lemma FirstClaimed(c: CreateToken)
    ensures var t := Apply(NewToken(c), GenesisOps(c)[0].tx);
      && t.Some? && Apply(t.value, GenesisOps(c)[1].tx) == t
      && t.value == EMPTY_TOKEN.(balances := t.value.balances)
      && forall a :: Get(t.value.balances, a) == if a == c.creator then c.info.totalSupply else 0
  {
    var m: Funds := map[];
    var t := AddClaim(NewToken(c), ClaimFunds(0, c.creator, c.info.totalSupply)).value;
    PutTwice(m, c.creator, c.info.totalSupply, 0);
    assert m - {c.creator} == m;
    assert FrozenAt(t.frozen, 1) == map[];
    MergeNothing(t.balances);
  }

  /** What the creation of a token adds to the first blocks of tokens. */
  lemma BirthOfToken(t: Timeline, done: Program, c: CreateToken)
    ensures var s, more := c.info.symbol, Births(done + [CreateOp(c)]);
      && (BlocksOf(t, s) + BlocksOf(Births(done), s) == [] ==> BlocksOf(t, s) + BlocksOf(more, s) == [GenesisOps(c)])
      && forall d :: d != s ==> BlocksOf(more, d) == BlocksOf(Births(done), d)
  {
    hide BlocksOf, Births, GenesisOps;
    var more := Births(done + [CreateOp(c)]);
    forall d ensures d != c.info.symbol ==> BlocksOf(more, d) == BlocksOf(Births(done), d) {
      BlocksOfBirths(done, CreateOp(c), d);
      NoRest(BlocksOf(Births(done), d));
    }
    BlocksOfBirths(done, CreateOp(c), c.info.symbol);
  }

  lemma NoBirth(done: Program, op: Op)
    requires !op.CreateOp?
    ensures forall d :: BlocksOf(Births(done + [op]), d) == BlocksOf(Births(done), d)
  {
    hide BlocksOf, Births;
    forall d ensures BlocksOf(Births(done + [op]), d) == BlocksOf(Births(done), d) {
      BlocksOfBirths(done, op, d);
      NoRest(BlocksOf(Births(done), d));
    }
  }

  lemma FirstBlockOps(c: CreateToken)
    requires c.info.symbol != MATCH_CHAIN
    ensures Programs(c.info.symbol, [NewTokenGenesisBlock(c)]) == [GenesisOps(c)]
    ensures GoodBlocks(c.info.symbol, [NewTokenGenesisBlock(c)])
  {
    GenesisBlockOps(c);
    hide BlockOps, Fits;
  }

  lemma NoRest<T>(a: seq<T>)
    ensures a + [] == a
  {}

  // ---------------------------------------------------------------- the block is taken

  /** A block is being taken in, and its transactions so far are accepted. */
  ghost predicate Taken(t: Timeline, w: World, done: Program, v: World) {
    Replays(t, w) && TakeAll(w, done) == Some(v) && Inv(v)
  }

  lemma TakenMore(t: Timeline, w: World, done: Program, v: World, op: Op)
    requires Taken(t, w, done, v) && WellFormed(op) && Take(v, op).Some?
    ensures Taken(t, w, done + [op], Take(v, op).value)
  {
    hide Replays, Inv, Take, TakeAll;
    TakeSteps(v, op);
    TakeOneMore(w, done, op);
  }

  /** What follows the transactions of a block: on a token chain, the release of frozen funds. */
  function ReleaseOps(c: string, height: nat): Program {
    if c == MATCH_CHAIN then [] else [TokenOp(c, Release(height))]
  }

  function Released(w: World, c: string, height: nat): Option<World> {
    if c == MATCH_CHAIN then Some(w) else Step(w, TokenOp(c, Release(height)))
  }

  /** What a block makes of the world: its transactions, and on a token chain the release after them. */
  function Next(w: World, c: string, data: BlockData): Option<World> {
    match TakeAll(w, DataOps(c, data))
    case None => None
    case Some(u) => Released(u, c, HeightOf(w, c) + 1)
  }

  lemma NextIs(w: World, c: string, data: BlockData, h: nat)
    requires c != MATCH_CHAIN ==> HeightOf(w, c) == h
    ensures TakeAll(w, DataOps(c, data)).Some? ==> Next(w, c, data) == Released(TakeAll(w, DataOps(c, data)).value, c, h + 1)
    ensures TakeAll(w, DataOps(c, data)).None? ==> Next(w, c, data).None?
  {
    hide TakeAll, DataOps, Step;
  }

  /** The world after a block is the replay of the timeline after it. */
  lemma BlockCommitted(t: Timeline, w: World, c: string, data: BlockData, u: World, h: nat)
    requires Taken(t, w, DataOps(c, data), u) && Fits(c, data) && c in u.ledger.tokens
    requires c != MATCH_CHAIN ==> HeightOf(u, c) == h
    ensures OfChain(DataOps(c, data), c)
    ensures BlockOps(c, data, h + 1) == DataOps(c, data) + ReleaseOps(c, h + 1)
    ensures Released(u, c, h + 1).Some?
    ensures var u' := Released(u, c, h + 1).value;
      && Replays(After(t, c, DataOps(c, data), ReleaseOps(c, h + 1)), u')
      && (c == MATCH_CHAIN ==> u' == u)
      && (c != MATCH_CHAIN ==> Some(u'.ledger) == AddTokenTx(u.ledger, c, Release(h + 1)) && HeightOf(u', c) == h + 1)
      && (forall d :: d != c ==> HeightOf(u', d) == HeightOf(u, d))
  {
    hide Replays, Inv, TakeAll, DataOps, After, Merge;
    BlockOpsOfChain(c, data, h + 1);
    assert DataOps(c, data) + [] == DataOps(c, data);
    if c != MATCH_CHAIN {
      hide Step;
      RunJust(u, TokenOp(c, Release(h + 1)));
    }
    BlockTaken(t, w, c, DataOps(c, data), ReleaseOps(c, h + 1), Released(u, c, h + 1).value);
  }

  lemma {:induction false} BirthsElsewhere(ops: Program, c: string)
    requires OfChain(ops, c)
    ensures BlocksOf(Births(ops), c) == []
    decreases |ops|
  {
    hide BlocksOf, Births;
    if ops == [] {
      NoBirthsAtAll(c);
    } else {
      var n := |ops| - 1;
      assert ops == ops[..n] + [ops[n]];
      BirthsElsewhere(ops[..n], c);
      BlocksOfBirths(ops[..n], ops[n], c);
    }
  }

  lemma NoBirthsAtAll(c: string)
    ensures BlocksOf(Births([]), c) == []
  {}

  /** The blocks of a chain after the block. */
  lemma BlocksCommitted(t: Timeline, c: string, ops: Program, rest: Program, d: string)
    requires OfChain(ops, c)
    ensures d == c ==> BlocksOf(After(t, c, ops, rest), d) == BlocksOf(t, d) + [ops + rest] && BlocksOf(Births(ops), d) == []
    ensures d != c ==> BlocksOf(After(t, c, ops, rest), d) == BlocksOf(t, d) + BlocksOf(Births(ops), d)
  {
    hide BlocksOf, Births, After;
    BlocksAfter(t, c, ops, rest, d);
    BirthsElsewhere(ops, c);
    NoRest(BlocksOf(t, d));
    NoRest(BlocksOf(t, d) + [ops + rest]);
  }

  // ---------------------------------------------------------------- taking a refused block back

  /** The rollback of one transaction, seen from the ledger. */
  function Undone(l: Ledger, op: Op): Ledger {
    match op
    case TokenOp(symbol, tx) => if symbol in l.tokens then RollbackTokenTx(l, symbol, tx) else l
    case MatchOp(m) => if OrdersKnown(l, m) && m.buySymbol != m.sellSymbol then Ledgers.RollbackMatch(l, m) else l
    case CreateOp(c) => Ledgers.RollbackCreateToken(l, c)
    case CancelOp(_) => l
  }

  /** The rollback of a transaction finds what it needs. */
  predicate CanUndo(l: Ledger, op: Op) {
    match op
    case TokenOp(symbol, tx) => symbol in l.tokens && (tx.Place? ==> Count(l.tokens[symbol], tx.order.id) == 0)
    case MatchOp(m) => OrdersKnown(l, m) && PaymentsUnclaimed(l, m)
    case CreateOp(c) => c.info.symbol in l.tokens
    case CancelOp(_) => false
  }

  /** A transaction that was just made can be taken back, and that restores the ledger. */
  lemma UndoTaken(w: World, op: Op)
    requires Inv(w) && WellFormed(op) && Take(w, op).Some? && (op.TokenOp? ==> !op.tx.Release?)
    ensures CanUndo(Take(w, op).value.ledger, op)
    ensures Undone(Take(w, op).value.ledger, op) == w.ledger
  {
    hide Inv, Run, ValidMatch, ApplySide, Apply, Undo, Count, RollbackMatch, OrdersKnown, PaymentsUnclaimed;
    match op
    case TokenOp(s, tx) =>
      UndoStep(w, op);
      if tx.Place? {
        JustPlaced(w.ledger.tokens[s], tx.order);
      }
    case MatchOp(m) =>
      UndoStep(w, op);
    case CreateOp(c) =>
      TakenKeys(w, c);
      UndoTakenCreate(w, c);
    case CancelOp(_) =>
  }

  // ---------------------------------------------------------------- after a cancellation

  /** Undoing a match for one order and cancelling another can be exchanged. */
  lemma CancelPastSide(t: Token, s: Side, before: Order, id: u64)
    requires id in t.open && id != s.residual.id
    ensures id in UndoSide(t, s, before).open && UndoSide(t, s, before).open[id] == t.open[id]
    ensures UndoSide(Cancelled(t, id), s, before) == Cancelled(UndoSide(t, s, before), id)
  {
    hide Put, Get, Credit, Debit;
    var o, sid := t.open[id], s.residual.id;
    var u := Unfiled(t, sid).unclaimed;
    CancelPastUnfiled(t, sid, id);
    DebitCreditCommute(u, o.seller, o.amountToSell, s.payee, s.pay);
    assert (t.open - {id})[sid := before] == t.open[sid := before] - {id};
    var m, n := Count(t, id) + 1, Count(t, sid) - 1;
    assert t.updates[id := m][sid := n] == t.updates[sid := n][id := m];
    hide Unfiled;
  }

  lemma CancelPastUnfiled(t: Token, sid: u64, id: u64)
    requires id in t.open && id != sid
    ensures Unfiled(t, sid).open == t.open && Unfiled(t, sid).updates == t.updates
    ensures Unfiled(Cancelled(t, id), sid) == Cancelled(Unfiled(t, sid), id)
  {
    hide Put, Get, Credit, Debit;
    if sid in t.deleted {
      var o, d := t.open[id], t.deleted[sid];
      DebitCreditCommute(t.unclaimed, o.seller, o.amountToSell, d.seller, d.amountToSell);
    }
  }

  lemma CancelKeepsNamed(t: Token, id: u64, other: u64)
    requires id in t.open && other != id
    ensures Named(Cancelled(t, id), other) == Named(t, other)
  {}

  /** A cancelled order is no longer on file. */
  lemma CancelForgets(t: Token, id: u64)
    requires Filed(t) && id in t.open
    ensures Named(Cancelled(t, id), id).None?
  {}

  /** The rollback of a match and the cancellation of an order that it does not name can be exchanged. */
  lemma CancelPastRollback(l: Ledger, m: Match, c: CancelOrder)
    requires OrdersKnown(l, m) && m.buySymbol != m.sellSymbol && !Names(m, c.orderSymbol, c.orderId)
    requires NamedBuy(l, m).id == m.buyOrderId && NamedSell(l, m).id == m.sellOrderId
    requires AddCancelOrder(l, c).Some?
    ensures var l' := AddCancelOrder(l, c).value;
      && OrdersKnown(l', m) && NamedBuy(l', m) == NamedBuy(l, m) && NamedSell(l', m) == NamedSell(l, m)
      && AddCancelOrder(Ledgers.RollbackMatch(l, m), c) == Some(Ledgers.RollbackMatch(l', m))
  {
    hide Cancelled, UndoSide, Named, Credit, Debit;
    var s, id := c.orderSymbol, c.orderId;
    var l' := AddCancelOrder(l, c).value;
    if s == m.buySymbol { CancelKeepsNamed(l.tokens[s], id, m.buyOrderId); }
    if s == m.sellSymbol { CancelKeepsNamed(l.tokens[s], id, m.sellOrderId); }
    var buyBefore := Restored(NamedBuy(l, m), m.buyerLoss, m.transferAmt);
    var sellBefore := Restored(NamedSell(l, m), m.transferAmt, m.sellerGain);
    if s == m.buySymbol {
      CancelPastSide(l.tokens[s], BuySideAfter(l, m), buyBefore, id);
    } else if s == m.sellSymbol {
      CancelPastSide(l.tokens[s], SellSideAfter(l, m), sellBefore, id);
    }
    ThreeUpdates(l.tokens, m.buySymbol, UndoSide(l.tokens[m.buySymbol], BuySideAfter(l, m), buyBefore),
                 m.sellSymbol, UndoSide(l.tokens[m.sellSymbol], SellSideAfter(l, m), sellBefore),
                 s, Cancelled(l.tokens[s], id), Ledgers.RollbackMatch(l', m).tokens[s]);
  }

  lemma ThreeUpdates<T>(tokens: map<string, T>, a: string, x: T, b: string, y: T, s: string, z: T, zz: T)
    requires a != b
    ensures s != a && s != b ==> tokens[s := z][a := x][b := y] == tokens[a := x][b := y][s := z]
    ensures s == a ==> tokens[s := z][a := zz][b := y] == tokens[a := x][b := y][s := zz]
    ensures s == b ==> tokens[s := z][a := x][b := zz] == tokens[a := x][b := y][s := zz]
  {}

  /** What undoing a match does after an order has been cancelled: it panics if the match named the order,
      and otherwise leaves the cancellation alone. */
  lemma CancelPastMatch(v: World, m: Match, c: CancelOrder)
    requires Inv(v) && m.buySymbol != m.sellSymbol && ValidMatch(v.ledger, m)
    requires AddCancelOrder(Ledgers.AddMatch(v.ledger, m).value, c).Some?
    ensures var l := AddCancelOrder(Ledgers.AddMatch(v.ledger, m).value, c).value;
      && (CanUndo(l, MatchOp(m)) <==> !Names(m, c.orderSymbol, c.orderId))
      && (!Names(m, c.orderSymbol, c.orderId) ==> AddCancelOrder(v.ledger, c) == Some(Undone(l, MatchOp(m))))
  {
    hide Inv, ValidMatch, Ledgers.AddMatch, Ledgers.RollbackMatch, Named, Cancelled, OrdersKnown, PaymentsUnclaimed, NamedBuy,
         NamedSell, TokenInv;
    MatchJustMade(v, m);
    UndoMatchStep(v, m);
    MatchSteps(v, m);
    MatchStepInv(v, m);
    var w := Step(v, MatchOp(m)).value;
    var l := AddCancelOrder(w.ledger, c).value;
    ValidMatchFacts(v, m);
    if Names(m, c.orderSymbol, c.orderId) {
      CancelUnknown(w, m, c);
    } else {
      CancelPastRollback(w.ledger, m, c);
      CancelPays(w, m, c);
    }
  }

  lemma CancelUnknown(w: World, m: Match, c: CancelOrder)
    requires Inv(w) && Names(m, c.orderSymbol, c.orderId) && AddCancelOrder(w.ledger, c).Some?
    ensures !OrdersKnown(AddCancelOrder(w.ledger, c).value, m)
  {
    hide Worth, Cancelled, Named;
    CancelForgets(w.ledger.tokens[c.orderSymbol], c.orderId);
  }

  /** Cancelling pays somebody, and takes from nobody. */
  lemma CancelPays(w: World, m: Match, c: CancelOrder)
    requires Inv(w) && OrdersKnown(w.ledger, m) && PaymentsUnclaimed(w.ledger, m) && AddCancelOrder(w.ledger, c).Some?
    requires var l := AddCancelOrder(w.ledger, c).value;
      OrdersKnown(l, m) && NamedBuy(l, m) == NamedBuy(w.ledger, m) && NamedSell(l, m) == NamedSell(w.ledger, m)
    ensures PaymentsUnclaimed(AddCancelOrder(w.ledger, c).value, m)
  {
    hide NamedBuy, NamedSell, OrdersKnown, Inv, Worth;
    KnownSymbols(w.ledger, m);
    InvOf(w, c.orderSymbol);
    forall a { CancelOnlyPays(w.ledger.tokens[c.orderSymbol], c.orderId, HeightOf(w, c.orderSymbol), a); }
  }

  lemma KnownSymbols(l: Ledger, m: Match)
    requires OrdersKnown(l, m)
    ensures m.buySymbol in l.tokens && m.sellSymbol in l.tokens
  {}

  lemma CancelOnlyPays(t: Token, id: u64, h: nat, a: Address)
    requires id in t.open && Worth(t, h) < WORD
    ensures Get(Cancelled(t, id).unclaimed, a) >= Get(t.unclaimed, a)
  {
    hide Sum;
    EscrowClose(t, id);
    TotalPut(t.unclaimed, t.open[id].seller, 0);
  }

  /** The new token of a block has no orders: undoing its creation leaves a cancellation alone. */
  lemma CancelPastCreate(v: World, create: CreateToken, c: CancelOrder)
    requires Inv(v) && create.info.symbol != MATCH_CHAIN && Take(v, CreateOp(create)).Some?
    requires AddCancelOrder(Take(v, CreateOp(create)).value.ledger, c).Some?
    ensures var l := AddCancelOrder(Take(v, CreateOp(create)).value.ledger, c).value;
      CanUndo(l, CreateOp(create)) && AddCancelOrder(v.ledger, c) == Some(Undone(l, CreateOp(create)))
  {
    hide Inv, Cancelled, Take, Run;
    TakenTokens(v, create);
    UndoTakenCreate(v, create);
    var w := Take(v, CreateOp(create)).value;
    var s := create.info.symbol;
    assert c.orderSymbol != s;
    var x := Cancelled(w.ledger.tokens[c.orderSymbol], c.orderId);
    assert w.ledger.tokens[c.orderSymbol := x] - {s} == (w.ledger.tokens - {s})[c.orderSymbol := x];
  }

  lemma TakenTokens(w: World, c: CreateToken)
    requires Inv(w) && c.info.symbol != MATCH_CHAIN && Take(w, CreateOp(c)).Some?
    ensures var l := Take(w, CreateOp(c)).value.ledger;
      && c.info.symbol in l.tokens && l.tokens[c.info.symbol].open == map[]
      && forall s :: s in l.tokens && s != c.info.symbol ==> s in w.ledger.tokens && l.tokens[s] == w.ledger.tokens[s]
  {
    hide TokenInv, Run, Merge, Credit, Debit;
    var w1 := Step(w, CreateOp(c)).value;
    RunGenesis(w1, c);
  }

  /** The same for any transaction that the block had made before the cancellation. */
  lemma CancelPastUndo(v: World, op: Op, c: CancelOrder)
    requires Inv(v) && WellFormed(op) && !op.TokenOp? && Take(v, op).Some?
    requires AddCancelOrder(Take(v, op).value.ledger, c).Some?
    ensures var l := AddCancelOrder(Take(v, op).value.ledger, c).value;
      && (CanUndo(l, op) <==> !NamesOrder(op, c))
      && (!NamesOrder(op, c) ==> AddCancelOrder(v.ledger, c) == Some(Undone(l, op)))
  {
    hide Inv, CanUndo, Undone, Ledgers.AddCancelOrder, ValidMatch, AddMatch, Run;
    match op
    case CreateOp(create) => CancelPastCreate(v, create, c);
    case MatchOp(m) =>
      MatchSteps(v, m);
      CancelPastMatch(v, m, c);
    case CancelOp(_) => CancelRefused(v, op);
  }

  predicate NamesOrder(op: Op, c: CancelOrder) {
    op.MatchOp? && Names(op.m, c.orderSymbol, c.orderId)
  }

  lemma MatchTransaction(op: Op)
    requires WellFormed(op) && ChainOf(op) == MATCH_CHAIN
    ensures !op.TokenOp?
  {}

  /** What a refusal amounts to: nothing, or a cancellation on the MATCH chain. */
  lemma RefusalIs(w: World, c: string, ops: Program, n: nat, u: World)
    requires Inv(w) && n < |ops| && OfChain(ops, c) && TakeAll(w, ops[..n]) == Some(u) && Take(u, ops[n]).None?
    ensures TakeAll(w, ops).None?
    ensures !CancelReached(w, ops) ==> AfterRefusal(u.ledger, ops[n]) == u.ledger
    ensures CancelReached(w, ops) ==>
      && ops[n].CancelOp? && CancelsAt(w, ops, n) && OfChain(ops[..n], MATCH_CHAIN)
      && AddCancelOrder(u.ledger, ops[n].cancel) == Some(AfterRefusal(u.ledger, ops[n]))
  {
    hide Inv, Take, TakeAll, CancelReached, Ledgers.AddCancelOrder;
    RefusedAt(w, ops, n);
    OfChainPrefix(ops, c, n);
    if CancelReached(w, ops) {
      assert ChainOf(ops[n]) == c;
    }
  }

  lemma OfChainPrefix(ops: Program, c: string, n: nat)
    requires OfChain(ops, c) && n <= |ops|
    ensures OfChain(ops[..n], c) && AllWellFormed(ops[..n])
  {}

  /** What is left of a block that was refused at a cancellation.  It ends in a panic exactly when one of its
      matches names the cancelled order; otherwise the cancellation is all that is left of it. */
  ghost predicate CancelLeaves(w: World, ops: Program, n: nat, panicked: bool, l: Ledger) {
    && CancelsAt(w, ops, n)
    && (panicked <==> exists i :: 0 <= i < n && NamesOrder(ops[i], ops[n].cancel))
    && (!panicked ==> AddCancelOrder(w.ledger, ops[n].cancel) == Some(l))
  }

  ghost predicate CancelStays(w: World, ops: Program, panicked: bool, l: Ledger) {
    exists n: nat :: CancelLeaves(w, ops, n, panicked, l)
  }

  lemma CancelKeys(l: Ledger, c: CancelOrder)
    requires AddCancelOrder(l, c).Some?
    ensures AddCancelOrder(l, c).value.tokens.Keys == l.tokens.Keys && AddCancelOrder(l, c).value != l
  {
    CancelChanges(l, c);
    hide Cancelled;
  }
}
