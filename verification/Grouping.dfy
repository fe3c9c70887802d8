/** A miner accepts transactions one by one as they arrive; a block stores them sorted by type, and is
    replayed in that order.  Both orders lead to the same ledger. */
module Grouping {
  import opened Amounts
  import opened Transactions
  import opened TokenLedger
  import opened Ledgers
  import opened Commutation
  import opened Schedules
  import opened Timelines
  import opened OrderHistory

  /** The place of a type of transaction in a block. */
  function Rank(x: TokenTx): nat {
    match x
    case Claim(_) => 0
    case Pay(_) => 1
    case Lock(_) => 2
    case Place(_) => 3
    case Release(_) => 4
  }

  function RunTxs(t: Token, txs: seq<TokenTx>): Option<Token>
    decreases |txs|
  {
    if txs == [] then Some(t)
    else match RunTxs(t, txs[..|txs| - 1])
      case None => None
      case Some(t1) => Apply(t1, txs[|txs| - 1])
  }

  function OfRank(txs: seq<TokenTx>, k: nat): seq<TokenTx>
    decreases |txs|
  {
    if txs == [] then []
    else
      var x := txs[|txs| - 1];
      OfRank(txs[..|txs| - 1], k) + (if Rank(x) == k then [x] else [])
  }

  function Grouped(txs: seq<TokenTx>): seq<TokenTx> {
    OfRank(txs, 0) + OfRank(txs, 1) + OfRank(txs, 2) + OfRank(txs, 3)
  }

  ghost predicate NoReleases(txs: seq<TokenTx>) {
    forall i :: 0 <= i < |txs| ==> !txs[i].Release?
  }

  // ---------------------------------------------------------------- one exchange

  lemma MoreAfterCredit(m: Funds, a: Address, v: u64, b: Address)
    requires Total(m) + v < WORD
    ensures Get(Credit(m, a, v), b) == Get(m, b) + (if a == b then v else 0)
  {
    hide Sum;
    TotalPut(m, a, 0);
  }

  lemma LessAfterDebit(m: Funds, a: Address, v: u64, b: Address)
    requires v <= Get(m, a)
    ensures Get(Debit(m, a, v), b) == Get(m, b) - (if a == b then v else 0)
  {}

  /** A claim can be moved before any other transaction that it followed. */
  lemma ClaimEarlier(t: Token, l: TokenTx, c: ClaimFunds, h: nat)
    requires Worth(t, h) < WORD && !l.Claim? && !l.Release?
    requires Apply(t, l).Some? && AddClaim(Apply(t, l).value, c).Some?
    ensures AddClaim(t, c).Some?
    ensures Apply(AddClaim(t, c).value, l) == AddClaim(Apply(t, l).value, c)
  {
    ClaimFits(t, c, h);
    var a, v, m := c.address, c.amount, t.balances;
    match l
    case Pay(x) =>
      MoreAfterCredit(m, a, v, x.fromAddress);
      DebitCreditCommute(m, a, v, x.fromAddress, x.amount);
      CreditsCommute(Debit(m, x.fromAddress, x.amount), x.toAddress, x.amount, a, v);
      hide Credit, Debit, Worth;
    case Lock(z) =>
      MoreAfterCredit(m, a, v, z.fromAddress);
      DebitCreditCommute(m, a, v, z.fromAddress, z.amount);
      hide Credit, Debit, Worth;
    case Place(o) =>
      MoreAfterCredit(m, a, v, o.seller);
      DebitCreditCommute(m, a, v, o.seller, o.amountToSell);
      hide Credit, Debit, Worth;
  }

  lemma ClaimFits(t: Token, c: ClaimFunds, h: nat)
    requires Worth(t, h) < WORD && Get(t.unclaimed, c.address) >= c.amount
    ensures Total(t.balances) + c.amount < WORD
  {
    hide Sum;
    TotalPut(t.unclaimed, c.address, 0);
  }

  /** A transfer can be moved before a freeze or an order that only took funds away. */
  lemma TransferBeforeDebit(m: Funds, a: Address, v: u64, x: Transfer)
    requires Total(m) < WORD && v <= Get(m, a) && x.amount <= Get(Debit(m, a, v), x.fromAddress)
    ensures x.amount <= Get(m, x.fromAddress)
    ensures var paid := Credit(Debit(m, x.fromAddress, x.amount), x.toAddress, x.amount);
      && v <= Get(paid, a)
      && Debit(paid, a, v) == Credit(Debit(Debit(m, a, v), x.fromAddress, x.amount), x.toAddress, x.amount)
  {
    hide Total, Credit, Debit;
    var less := Debit(m, x.fromAddress, x.amount);
    LessAfterDebit(m, a, v, x.fromAddress);
    LessAfterDebit(m, x.fromAddress, x.amount, a);
    TotalDebit(m, x.fromAddress, x.amount);
    MoreAfterCredit(less, x.toAddress, x.amount, a);
    DebitCreditCommute(less, x.toAddress, x.amount, a, v);
    DebitsCommute(m, a, v, x.fromAddress, x.amount);
  }

  lemma TransferEarlier(t: Token, l: TokenTx, x: Transfer, h: nat)
    requires Worth(t, h) < WORD && (l.Lock? || l.Place?)
    requires Apply(t, l).Some? && AddTransfer(Apply(t, l).value, x).Some?
    ensures AddTransfer(t, x).Some?
    ensures Apply(AddTransfer(t, x).value, l) == AddTransfer(Apply(t, l).value, x)
  {
    hide Credit, Debit, Escrow, FrozenAbove, Total;
    if l.Lock? {
      TransferBeforeDebit(t.balances, l.freeze.fromAddress, l.freeze.amount, x);
    } else {
      TransferBeforeDebit(t.balances, l.order.seller, l.order.amountToSell, x);
    }
  }

  lemma FreezeEarlier(t: Token, o: Order, z: Freeze)
    requires AddOrder(t, o).Some? && AddFreeze(AddOrder(t, o).value, z).Some?
    ensures AddFreeze(t, z).Some?
    ensures AddOrder(AddFreeze(t, z).value, o) == AddFreeze(AddOrder(t, o).value, z)
  {
    hide Credit, Debit;
    LessAfterDebit(t.balances, o.seller, o.amountToSell, z.fromAddress);
    LessAfterDebit(t.balances, z.fromAddress, z.amount, o.seller);
    DebitsCommute(t.balances, o.seller, o.amountToSell, z.fromAddress, z.amount);
  }

  /** Two neighbours in the wrong order can be exchanged. */
  lemma Exchange(t: Token, l: TokenTx, x: TokenTx, h: nat)
    requires Worth(t, h) < WORD && Rank(x) < Rank(l) && !l.Release?
    requires Apply(t, l).Some? && Apply(Apply(t, l).value, x).Some?
    ensures Apply(t, x).Some?
    ensures Apply(Apply(t, x).value, l) == Apply(Apply(t, l).value, x)
  {
    hide Worth, AddClaim, AddTransfer, AddFreeze, AddOrder;
    match x
    case Claim(c) => ClaimEarlier(t, l, c, h);
    case Pay(p) => TransferEarlier(t, l, p, h);
    case Lock(z) => FreezeEarlier(t, l.order, z);
  }

  // ---------------------------------------------------------------- whole sequences

  lemma {:induction false} RunTxsWorth(t: Token, txs: seq<TokenTx>, h: nat)
    requires Worth(t, h) < WORD && NoReleases(txs) && RunTxs(t, txs).Some?
    ensures Worth(RunTxs(t, txs).value, h) < WORD
    decreases |txs|
  {
    hide Worth, Apply;
    if txs != [] {
      var n := |txs| - 1;
      RunTxsWorth(t, txs[..n], h);
      WorthOfTx(RunTxs(t, txs[..n]).value, txs[n], h);
    }
  }

  lemma {:induction false} RunTxsConcat(t: Token, a: seq<TokenTx>, b: seq<TokenTx>)
    ensures RunTxs(t, a + b) == (match RunTxs(t, a) case None => None case Some(t1) => RunTxs(t1, b))
    decreases |b|
  {
    hide Apply;
    if b == [] {
      assert a + b == a;
    } else {
      var n := |b| - 1;
      assert (a + b)[..|a + b| - 1] == a + b[..n];
      RunTxsConcat(t, a, b[..n]);
    }
  }

  /** A transaction that came last can be moved before all transactions of later types. */
  lemma {:induction false} MoveForward(t: Token, later: seq<TokenTx>, x: TokenTx, h: nat)
    requires Worth(t, h) < WORD && NoReleases(later)
    requires forall i :: 0 <= i < |later| ==> Rank(x) < Rank(later[i])
    requires RunTxs(t, later).Some? && Apply(RunTxs(t, later).value, x).Some?
    ensures Apply(t, x).Some?
    ensures RunTxs(Apply(t, x).value, later) == Apply(RunTxs(t, later).value, x)
    decreases |later|
  {
    hide Worth, Apply;
    if later != [] {
      var n := |later| - 1;
      var before := RunTxs(t, later[..n]).value;
      RunTxsWorth(t, later[..n], h);
      Exchange(before, later[n], x, h);
      MoveForward(t, later[..n], x, h);
    }
  }

  lemma {:induction false} RanksOf(txs: seq<TokenTx>, k: nat)
    ensures forall i :: 0 <= i < |OfRank(txs, k)| ==> Rank(OfRank(txs, k)[i]) == k
    decreases |txs|
  {
    if txs != [] {
      RanksOf(txs[..|txs| - 1], k);
    }
  }

  function Upto(txs: seq<TokenTx>, k: nat): seq<TokenTx> {
    if k == 0 then OfRank(txs, 0) else Upto(txs, k - 1) + OfRank(txs, k)
  }

  function Beyond(txs: seq<TokenTx>, k: nat): seq<TokenTx>
    decreases 3 - k
  {
    if k >= 3 then [] else OfRank(txs, k + 1) + Beyond(txs, k + 1)
  }

  lemma SplitGroups(txs: seq<TokenTx>, k: nat)
    requires k <= 3
    ensures Grouped(txs) == Upto(txs, k) + Beyond(txs, k)
  {
    hide OfRank;
    assert Upto(txs, 1) == OfRank(txs, 0) + OfRank(txs, 1);
    assert Upto(txs, 2) == Upto(txs, 1) + OfRank(txs, 2);
    assert Beyond(txs, 2) == OfRank(txs, 3);
    assert Beyond(txs, 1) == OfRank(txs, 2) + OfRank(txs, 3);
  }

  lemma BeyondRanks(txs: seq<TokenTx>, k: nat)
    ensures forall i :: 0 <= i < |Beyond(txs, k)| ==> k < Rank(Beyond(txs, k)[i]) <= 3
    decreases 3 - k
  {
    hide OfRank;
    if k < 3 {
      RanksOf(txs, k + 1);
      BeyondRanks(txs, k + 1);
    }
  }

  /** One more transaction goes to the end of its own group. */
  lemma GroupOneMore(txs: seq<TokenTx>, x: TokenTx)
    requires !x.Release?
    ensures Grouped(txs + [x]) == Upto(txs, Rank(x)) + [x] + Beyond(txs, Rank(x))
  {
    var more, k := txs + [x], Rank(x);
    assert more[..|more| - 1] == txs;
    assert forall j: nat :: j != k ==> OfRank(more, j) == OfRank(txs, j);
    assert OfRank(more, k) == OfRank(txs, k) + [x];
    hide OfRank;
    SplitGroups(more, k);
    UptoSame(txs, more, k, x);
    BeyondSame(txs, more, k);
  }

  lemma UptoSame(txs: seq<TokenTx>, more: seq<TokenTx>, k: nat, x: TokenTx)
    requires forall j: nat :: j < k ==> OfRank(more, j) == OfRank(txs, j)
    requires OfRank(more, k) == OfRank(txs, k) + [x]
    ensures Upto(more, k) == Upto(txs, k) + [x]
  {
    hide OfRank;
    if k > 0 {
      UptoEqual(txs, more, k - 1);
    }
  }

  lemma UptoEqual(txs: seq<TokenTx>, more: seq<TokenTx>, k: nat)
    requires forall j: nat :: j <= k ==> OfRank(more, j) == OfRank(txs, j)
    ensures Upto(more, k) == Upto(txs, k)
  {
    hide OfRank;
    if k > 0 {
      UptoEqual(txs, more, k - 1);
    }
  }

  lemma BeyondSame(txs: seq<TokenTx>, more: seq<TokenTx>, k: nat)
    requires forall j: nat :: j > k ==> OfRank(more, j) == OfRank(txs, j)
    ensures Beyond(more, k) == Beyond(txs, k)
    decreases 3 - k
  {
    hide OfRank;
    if k < 3 {
      BeyondSame(txs, more, k + 1);
    }
  }

  lemma InsertBetween(t: Token, low: seq<TokenTx>, high: seq<TokenTx>, x: TokenTx, h: nat)
    requires Worth(t, h) < WORD && NoReleases(low) && NoReleases(high)
    requires forall i :: 0 <= i < |high| ==> Rank(x) < Rank(high[i])
    requires RunTxs(t, low + high).Some? && Apply(RunTxs(t, low + high).value, x).Some?
    ensures RunTxs(t, low + [x] + high) == Apply(RunTxs(t, low + high).value, x)
  {
    hide Worth, Apply, RunTxs, Rank;
    RunTxsConcat(t, low, high);
    RunTxsWorth(t, low, h);
    MoveForward(RunTxs(t, low).value, high, x, h);
    RunTxsConcat(t, low + [x], high);
    RunTxsConcat(t, low, [x]);
    RunTxsSingle(RunTxs(t, low).value, x);
  }

  /** Transactions accepted as they arrived are accepted grouped by type, with the same outcome. */
  lemma {:induction false} GroupingKeepsOutcome(t: Token, txs: seq<TokenTx>, h: nat)
    requires Worth(t, h) < WORD && NoReleases(txs) && RunTxs(t, txs).Some?
    ensures RunTxs(t, Grouped(txs)) == RunTxs(t, txs)
    decreases |txs|
  {
    hide Worth, Apply, Grouped, Upto, Beyond;
    if txs == [] {
      GroupNothing();
    } else {
      var n := |txs| - 1;
      var init, x := txs[..n], txs[n];
      GroupingKeepsOutcome(t, init, h);
      SplitGroups(init, Rank(x));
      BeyondRanks(init, Rank(x));
      UptoNoReleases(init, Rank(x));
      InsertBetween(t, Upto(init, Rank(x)), Beyond(init, Rank(x)), x, h);
      assert init + [x] == txs;
      GroupOneMore(init, x);
    }
  }

  lemma GroupNothing()
    ensures Grouped([]) == []
  {}

  lemma RunTxsSingle(t: Token, x: TokenTx)
    ensures RunTxs(t, [x]) == Apply(t, x)
  {
    hide Apply;
    assert [x][..0] == [];
  }

  lemma UptoNoReleases(txs: seq<TokenTx>, k: nat)
    requires k <= 3
    ensures NoReleases(Upto(txs, k))
  {
    hide OfRank;
    RanksOf(txs, k);
    if k > 0 {
      UptoNoReleases(txs, k - 1);
    }
  }

  // ---------------------------------------------------------------- blocks

  /** A block with one more transaction: it goes to the end of the list of its type. */
  function WithTransaction(data: BlockData, op: Op): BlockData
    requires op.TokenOp? ==> data.TokenData? && !op.tx.Release?
    requires !op.TokenOp? ==> data.MatchData?
  {
    match op
    case TokenOp(_, Claim(c)) => data.(claims := data.claims + [c])
    case TokenOp(_, Pay(x)) => data.(transfers := data.transfers + [x])
    case TokenOp(_, Lock(z)) => data.(freezes := data.freezes + [z])
    case TokenOp(_, Place(o)) => data.(orders := data.orders + [o])
    case MatchOp(m) => data.(matches := data.matches + [m])
    case CreateOp(c) => data.(creates := data.creates + [c])
    case CancelOp(c) => data.(cancels := data.cancels + [c])
  }

  function TokenOps(s: string, txs: seq<TokenTx>): Program {
    seq(|txs|, i requires 0 <= i < |txs| => TokenOp(s, txs[i]))
  }

  /** The block that a miner builds from transactions as they arrive. */
  function BlockOf(s: string, txs: seq<TokenTx>): (data: BlockData)
    requires NoReleases(txs)
    ensures data.TokenData?
    decreases |txs|
  {
    if txs == [] then TokenData([], [], [], [])
    else WithTransaction(BlockOf(s, txs[..|txs| - 1]), TokenOp(s, txs[|txs| - 1]))
  }

  class MinedBlock {
    var data: BlockData

    constructor (data: BlockData)
      ensures this.data == data
    {
      this.data := data;
    }

    method AddTransaction(op: Op)
      requires op.TokenOp? ==> data.TokenData? && !op.tx.Release?
      requires !op.TokenOp? ==> data.MatchData?
      modifies this
      ensures data == WithTransaction(old(data), op)
    {
      match op
      case TokenOp(_, Claim(c)) => data := data.(claims := data.claims + [c]);
      case TokenOp(_, Pay(x)) => data := data.(transfers := data.transfers + [x]);
      case TokenOp(_, Lock(z)) => data := data.(freezes := data.freezes + [z]);
      case TokenOp(_, Place(o)) => data := data.(orders := data.orders + [o]);
      case MatchOp(m) => data := data.(matches := data.matches + [m]);
      case CreateOp(c) => data := data.(creates := data.creates + [c]);
      case CancelOp(c) => data := data.(cancels := data.cancels + [c]);
    }
  }

  /** Build a token block from the transactions that a miner has accepted, in the order of arrival. */
  method MineTokenBlock(s: string, txs: seq<TokenTx>) returns (data: BlockData)
    requires NoReleases(txs)
    ensures data == BlockOf(s, txs)
  {
    var block := new MinedBlock(TokenData([], [], [], []));
    assert txs[..0] == [];
    for t := 0 to |txs|
      invariant block.data == BlockOf(s, txs[..t])
    {
      assert txs[..t + 1][..t] == txs[..t];
      block.AddTransaction(TokenOp(s, txs[t]));
    }
    assert txs[..|txs|] == txs;
    data := block.data;
  }

  lemma {:induction false} ListsAreGroups(s: string, txs: seq<TokenTx>)
    requires NoReleases(txs)
    ensures var data := BlockOf(s, txs);
      && ClaimOps(s, data.claims) == TokenOps(s, OfRank(txs, 0))
      && TransferOps(s, data.transfers) == TokenOps(s, OfRank(txs, 1))
      && FreezeOps(s, data.freezes) == TokenOps(s, OfRank(txs, 2))
      && OrderOps(s, data.orders) == TokenOps(s, OfRank(txs, 3))
    decreases |txs|
  {
    if txs != [] {
      var n := |txs| - 1;
      ListsAreGroups(s, txs[..n]);
      OneMoreInLists(s, BlockOf(s, txs[..n]), txs[n]);
      forall k: nat { OneMoreOp(s, OfRank(txs[..n], k), txs[n]); }
    }
  }

  lemma OneMoreOp(s: string, txs: seq<TokenTx>, x: TokenTx)
    ensures TokenOps(s, txs + [x]) == TokenOps(s, txs) + [TokenOp(s, x)]
    ensures TokenOps(s, txs + []) == TokenOps(s, txs)
  {
    assert txs + [] == txs;
  }

  lemma OneMoreInLists(s: string, data: BlockData, x: TokenTx)
    requires data.TokenData? && !x.Release?
    ensures var d := WithTransaction(data, TokenOp(s, x));
      && ClaimOps(s, d.claims) == ClaimOps(s, data.claims) + (if Rank(x) == 0 then [TokenOp(s, x)] else [])
      && TransferOps(s, d.transfers) == TransferOps(s, data.transfers) + (if Rank(x) == 1 then [TokenOp(s, x)] else [])
      && FreezeOps(s, d.freezes) == FreezeOps(s, data.freezes) + (if Rank(x) == 2 then [TokenOp(s, x)] else [])
      && OrderOps(s, d.orders) == OrderOps(s, data.orders) + (if Rank(x) == 3 then [TokenOp(s, x)] else [])
  {}

  /** The block that is built holds the transactions grouped by type. */
  lemma BlockIsGrouped(s: string, txs: seq<TokenTx>)
    requires NoReleases(txs)
    ensures DataOps(s, BlockOf(s, txs)) == TokenOps(s, Grouped(txs))
  {
    hide OfRank, BlockOf, ClaimOps, TransferOps, FreezeOps, OrderOps;
    ListsAreGroups(s, txs);
    var a, b, c, d := OfRank(txs, 0), OfRank(txs, 1), OfRank(txs, 2), OfRank(txs, 3);
    assert TokenOps(s, a + b + c + d) == TokenOps(s, a) + TokenOps(s, b) + TokenOps(s, c) + TokenOps(s, d);
  }

  /** Running transactions of one token in the whole ledger. */
  lemma {:induction false} RunOneToken(w: World, s: string, txs: seq<TokenTx>)
    requires s in w.ledger.tokens && NoReleases(txs)
    ensures Run(w, TokenOps(s, txs)) ==
      (match RunTxs(w.ledger.tokens[s], txs)
       case None => None
       case Some(t) => Some(w.(ledger := w.ledger.(tokens := w.ledger.tokens[s := t]))))
    decreases |txs|
  {
    hide Apply;
    if txs == [] {
      assert w.ledger.tokens[s := w.ledger.tokens[s]] == w.ledger.tokens;
    } else {
      var n := |txs| - 1;
      RunOneToken(w, s, txs[..n]);
      assert TokenOps(s, txs) == TokenOps(s, txs[..n]) + [TokenOp(s, txs[n])];
      RunConcat(w, TokenOps(s, txs[..n]), [TokenOp(s, txs[n])]);
      if RunTxs(w.ledger.tokens[s], txs[..n]).Some? {
        RunJust(Run(w, TokenOps(s, txs[..n])).value, TokenOp(s, txs[n]));
        var t1 := RunTxs(w.ledger.tokens[s], txs[..n]).value;
        if Apply(t1, txs[n]).Some? {
          var t2 := Apply(t1, txs[n]).value;
          assert w.ledger.tokens[s := t1][s := t2] == w.ledger.tokens[s := t2];
        }
      }
    }
  }

  /** Arrival order is block order: whatever a miner accepted one by one is accepted from the block that
      it mined, and a peer that replays the block reaches the miner's ledger. */
  lemma ReplayedAsMined(w: World, s: string, txs: seq<TokenTx>)
    requires Inv(w) && s in w.ledger.tokens && NoReleases(txs) && Run(w, TokenOps(s, txs)).Some?
    ensures Run(w, DataOps(s, BlockOf(s, txs))) == Run(w, TokenOps(s, txs))
  {
    hide Worth, Run, TokenOps, DataOps, Grouped;
    InvOf(w, s);
    RunOneToken(w, s, txs);
    GroupingKeepsOutcome(w.ledger.tokens[s], txs, HeightOf(w, s));
    GroupedNoReleases(txs);
    RunOneToken(w, s, Grouped(txs));
    BlockIsGrouped(s, txs);
  }

  lemma GroupedNoReleases(txs: seq<TokenTx>)
    ensures NoReleases(Grouped(txs))
  {
    hide OfRank;
    RanksOf(txs, 0);
    RanksOf(txs, 1);
    RanksOf(txs, 2);
    RanksOf(txs, 3);
  }

  /** The other way round is not promised: a block may be accepted although its transactions could not
      have arrived in that order. */
  lemma BlockMayAcceptMore(a: Address, b: Address)
    requires a != b
    ensures var t := EMPTY_TOKEN.(unclaimed := map[a := 1]);
      var txs := [Pay(Transfer(1, 1, a, b)), Claim(ClaimFunds(1, a, 1))];
      RunTxs(t, txs).None? && RunTxs(t, Grouped(txs)).Some?
  {
    var t := EMPTY_TOKEN.(unclaimed := map[a := 1]);
    var pay, claim := Pay(Transfer(1, 1, a, b)), Claim(ClaimFunds(1, a, 1));
    TwoTxs(t, pay, claim);
    TwoTxs(t, claim, pay);
    TwoRanks(pay, claim, 0);
    TwoRanks(pay, claim, 1);
    TwoRanks(pay, claim, 2);
    TwoRanks(pay, claim, 3);
    hide OfRank, RunTxs;
    assert Grouped([pay, claim]) == [claim, pay];
  }

  lemma TwoTxs(t: Token, x: TokenTx, y: TokenTx)
    ensures RunTxs(t, [x, y]) == (match Apply(t, x) case None => None case Some(t1) => Apply(t1, y))
  {
    hide Apply;
    assert [x, y][..1] == [x];
    RunTxsSingle(t, x);
  }

  lemma TwoRanks(x: TokenTx, y: TokenTx, k: nat)
    ensures OfRank([x, y], k) == (if Rank(x) == k then [x] else []) + (if Rank(y) == k then [y] else [])
  {
    hide Rank;
    assert [x, y][..1] == [x] && [x][..0] == [];
    assert OfRank([], k) == [];
    assert OfRank([x], k) == if Rank(x) == k then [x] else [];
  }
}
