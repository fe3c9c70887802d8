/** A node with a small market.  Two tokens are created, and each of their owners offers it for the other;
    the ask wants less than the bid pays.  What the node then takes in, and what it refuses, shows that the
    exceptional cases of the theorems about it do occur. */
module Market {
  import opened Amounts
  import opened Transactions
  import opened Fills
  import opened TokenLedger
  import opened Ledgers
  import opened Commutation
  import opened Schedules
  import opened Timelines
  import opened TokenGenesis
  import opened ConsensusStates
  import opened Chains
  import opened Admission
  import opened Multichain
  import opened Freezes
  import Orderbooks
  import Findings
  import Matchers
  import MinedTransactions

  // ---------------------------------------------------------------- worlds, token by token

  ghost predicate Listed(w: World, s: string, t: Token, h: nat) {
    s in w.ledger.tokens && w.ledger.tokens[s] == t && HeightOf(w, s) == h
  }

  /** No match has been made yet. */
  ghost predicate Quiet(w: World) {
    Inv(w) && w.ledger.usedMatches == {}
  }

  /** Only this token may differ. */
  ghost predicate SameBut(w: World, v: World, s: string) {
    forall r :: r != s ==>
      && (r in v.ledger.tokens <==> r in w.ledger.tokens)
      && (r in w.ledger.tokens ==> v.ledger.tokens[r] == w.ledger.tokens[r])
      && HeightOf(v, r) == HeightOf(w, r)
  }

  function Creating(c: CreateToken): BlockData { MatchData([], [], [c]) }

  function Placing(o: Order): BlockData { TokenData([o], [], [], []) }

  function Supplied(c: CreateToken): Token {
    EMPTY_TOKEN.(balances := Put(map[], c.creator, c.info.totalSupply))
  }

  lemma CreatingOps(c: CreateToken)
    requires c.info.symbol != MATCH_CHAIN
    ensures DataOps(MATCH_CHAIN, Creating(c)) == [CreateOp(c)] && Fits(MATCH_CHAIN, Creating(c))
  {
    assert DataOps(MATCH_CHAIN, Creating(c)) == [CreateOp(c)] + [] + [];
  }

  lemma PlacingOps(s: string, o: Order)
    requires s != MATCH_CHAIN
    ensures DataOps(s, Placing(o)) == [TokenOp(s, Place(o))] && Fits(s, Placing(o))
  {
    assert DataOps(s, Placing(o)) == [] + [] + [] + [TokenOp(s, Place(o))];
  }

  lemma SuppliedByGenesis(c: CreateToken)
    ensures var t := Apply(NewToken(c), GenesisOps(c)[0].tx);
      t == Some(Supplied(c)) && Apply(Supplied(c), GenesisOps(c)[1].tx) == Some(Supplied(c))
  {
    var m: Funds := map[];
    PutTwice(m, c.creator, c.info.totalSupply, 0);
    assert m - {c.creator} == m;
    assert FrozenAt(Supplied(c).frozen, 1) == map[];
    MergeNothing(Supplied(c).balances);
  }

  /** A block that creates a token gives all of it to the creator. */
  lemma Created(w: World, c: CreateToken)
    requires Quiet(w) && c.info.symbol != MATCH_CHAIN && c.info.symbol !in w.ledger.tokens
    ensures Next(w, MATCH_CHAIN, Creating(c)).Some?
    ensures var v := Next(w, MATCH_CHAIN, Creating(c)).value;
      Quiet(v) && Listed(v, c.info.symbol, Supplied(c), 1) && SameBut(w, v, c.info.symbol)
  {
    hide Inv, Take, Apply, Supplied, NewToken, Run, GenesisOps;
    CreatingOps(c);
    TakeOne(w, CreateOp(c));
    NewName(w, c);
    TakeSteps(w, CreateOp(c));
    CreatedToken(w, c);
  }

  lemma NewName(w: World, c: CreateToken)
    requires Inv(w) && c.info.symbol != MATCH_CHAIN && c.info.symbol !in w.ledger.tokens
    ensures Step(w, CreateOp(c)).Some?
  {
    hide TokenInv, NewToken;
  }

  /** A transaction changes its own token only. */
  lemma LocalStep(w: World, s: string, t: Token, h: nat, x: TokenTx)
    requires Listed(w, s, t, h) && Apply(t, x).Some? && (x.Release? ==> x.height == h + 1)
    ensures Step(w, TokenOp(s, x)).Some?
    ensures var v := Step(w, TokenOp(s, x)).value;
      && v.ledger.usedMatches == w.ledger.usedMatches
      && Listed(v, s, Apply(t, x).value, if x.Release? then h + 1 else h) && SameBut(w, v, s)
  {
    hide Apply;
  }

  lemma SameButTwice(u: World, v: World, w: World, s: string)
    requires SameBut(u, v, s) && SameBut(v, w, s)
    ensures SameBut(u, w, s)
  {}

  lemma CreateStepToken(w: World, c: CreateToken)
    requires Step(w, CreateOp(c)).Some?
    ensures var v := Step(w, CreateOp(c)).value;
      v.ledger.usedMatches == w.ledger.usedMatches && Listed(v, c.info.symbol, NewToken(c), 0) && SameBut(w, v, c.info.symbol)
  {
    hide NewToken;
  }

  lemma CreatedToken(w: World, c: CreateToken)
    requires Inv(w) && c.info.symbol != MATCH_CHAIN && Take(w, CreateOp(c)).Some?
    ensures var v := Take(w, CreateOp(c)).value;
      && v.ledger.usedMatches == w.ledger.usedMatches
      && Listed(v, c.info.symbol, Supplied(c), 1) && SameBut(w, v, c.info.symbol)
  {
    hide Inv, Step, Apply, Run, Supplied, NewToken, Listed, SameBut;
    var s := c.info.symbol;
    var w1 := Step(w, CreateOp(c)).value;
    CreateStepToken(w, c);
    SuppliedByGenesis(c);
    RunGenesis(w1, c);
    LocalStep(w1, s, NewToken(c), 0, GenesisOps(c)[0].tx);
    var w2 := Step(w1, GenesisOps(c)[0]).value;
    LocalStep(w2, s, Supplied(c), 0, GenesisOps(c)[1].tx);
    var w3 := Step(w2, GenesisOps(c)[1]).value;
    SameButTwice(w, w1, w2, s);
    SameButTwice(w, w2, w3, s);
  }

  /** A block with one order. */
  lemma Placed(w: World, s: string, t: Token, h: nat, o: Order)
    requires Quiet(w) && s != MATCH_CHAIN && Listed(w, s, t, h) && AddOrder(t, o).Some? && t.frozen == map[]
    ensures Next(w, s, Placing(o)).Some?
    ensures var v := Next(w, s, Placing(o)).value;
      Quiet(v) && Listed(v, s, AddOrder(t, o).value, h + 1) && SameBut(w, v, s)
  {
    hide Inv, Take, AddOrder, TakeAll, ApplyUnfreezes;
    PlacingOps(s, o);
    var op, t1 := TokenOp(s, Place(o)), AddOrder(t, o).value;
    TakeOne(w, op);
    PlacedStep(w, s, t, o);
    TakeSteps(w, op);
    var u := Take(w, op).value;
    ReleasesNothing(t, o, h + 1);
    StepInv(u, TokenOp(s, Release(h + 1)));
  }

  lemma PlacedStep(w: World, s: string, t: Token, o: Order)
    requires Inv(w) && s in w.ledger.tokens && w.ledger.tokens[s] == t && AddOrder(t, o).Some?
    ensures Take(w, TokenOp(s, Place(o))) == Some(w.(ledger := w.ledger.(tokens := w.ledger.tokens[s := AddOrder(t, o).value])))
    ensures Take(w, TokenOp(s, Place(o))) == Step(w, TokenOp(s, Place(o)))
  {
    hide Inv, AddOrder;
  }

  lemma ReleasesNothing(t: Token, o: Order, h: nat)
    requires AddOrder(t, o).Some? && t.frozen == map[]
    ensures ApplyUnfreezes(AddOrder(t, o).value, h) == AddOrder(t, o).value
  {
    var t1 := AddOrder(t, o).value;
    assert FrozenAt(t1.frozen, h) == map[];
    MergeNothing(t1.balances);
  }

  // ---------------------------------------------------------------- the market

  function TokenA(s: Address): CreateToken { CreateToken(TokenInfo("A", 3, 0), s) }

  function TokenB(b: Address): CreateToken { CreateToken(TokenInfo("B", 1, 0), b) }

  function TokenC(s: Address): CreateToken { CreateToken(TokenInfo("C", 1, 0), s) }

  /** A seller of 3 who wants 1, and a buyer of 1 for 1. */
  function Asks(s: Address): Order { Order(1, "B", 3, 1, s) }

  function Bids(b: Address): Order { Order(2, "A", 1, 1, b) }

  function OnFile(o: Order): Token {
    EMPTY_TOKEN.(open := map[o.id := o], updates := map[o.id := 0])
  }

  /** Both offers are open, and there is nothing else of the two tokens. */
  ghost predicate AtMarket(w: World, s: Address, b: Address) {
    Quiet(w) && Listed(w, "A", OnFile(Asks(s)), 2) && Listed(w, "B", OnFile(Bids(b)), 2) && "C" !in w.ledger.tokens
  }

  /** All that there is of a token is offered. */
  lemma AllOffered(c: CreateToken, o: Order)
    requires o.seller == c.creator && o.amountToSell == c.info.totalSupply > 0
    ensures AddOrder(Supplied(c), o) == Some(OnFile(o))
  {
    var m: Funds := map[];
    PutTwice(m, c.creator, c.info.totalSupply, 0);
    assert m - {c.creator} == m;
  }

  /** The blocks that open the market. */
  function Opening(s: Address, b: Address): seq<(string, BlockData)> {
    [(MATCH_CHAIN, Creating(TokenA(s))), (MATCH_CHAIN, Creating(TokenB(b))), ("A", Placing(Asks(s))), ("B", Placing(Bids(b)))]
  }

  ghost predicate BeforeMarket(w: World, s: Address, b: Address, n: nat) {
    && Quiet(w) && "C" !in w.ledger.tokens
    && (if n == 0 then "A" !in w.ledger.tokens else Listed(w, "A", if n < 3 then Supplied(TokenA(s)) else OnFile(Asks(s)), if n < 3 then 1 else 2))
    && (if n < 2 then "B" !in w.ledger.tokens else Listed(w, "B", if n < 4 then Supplied(TokenB(b)) else OnFile(Bids(b)), if n < 4 then 1 else 2))
  }

  /** Each of these blocks is accepted after the ones before it. */
  lemma OpeningNext(w: World, s: Address, b: Address, n: nat)
    requires n < 4 && BeforeMarket(w, s, b, n)
    ensures var (c, data) := Opening(s, b)[n];
      && Fits(c, data) && (c == MATCH_CHAIN || c in w.ledger.tokens)
      && Next(w, c, data).Some? && BeforeMarket(Next(w, c, data).value, s, b, n + 1)
  {
    hide Inv, Next, Supplied, OnFile, Fits, DataOps, AddOrder;
    AllOffered(TokenA(s), Asks(s));
    AllOffered(TokenB(b), Bids(b));
    if n == 0 {
      CreatingOps(TokenA(s));
      Created(w, TokenA(s));
    } else if n == 1 {
      CreatingOps(TokenB(b));
      Created(w, TokenB(b));
    } else if n == 2 {
      NothingFrozen(TokenA(s));
      PlacingOps("A", Asks(s));
      Placed(w, "A", Supplied(TokenA(s)), 1, Asks(s));
    } else {
      NothingFrozen(TokenB(b));
      PlacingOps("B", Bids(b));
      Placed(w, "B", Supplied(TokenB(b)), 1, Bids(b));
    }
  }

  lemma NothingFrozen(c: CreateToken)
    ensures Supplied(c).frozen == map[]
  {}

  // ---------------------------------------------------------------- nodes

  function Datas(blocks: seq<Block>): seq<BlockData> {
    seq(|blocks|, i requires 0 <= i < |blocks| => blocks[i].data)
  }

  /** What a node consists of was there or is new, and each of its chains has this many blocks more. */
  twostate predicate Extended(n: Blockchains, new symbol: string, new data: BlockData)
    reads n, n.state, n.chains.Values
  {
    && (forall c :: c in n.chains ==> n.chains[c] in old(n.chains.Values) || fresh(n.chains[c]))
    && (forall o :: o in n.state.tokenStates.Values ==> o in old(n.state.tokenStates.Values) || fresh(o))
    && (forall c :: c in old(n.chains) ==>
        c in n.chains && Datas(n.chains[c].blocks) == old(Datas(n.chains[c].blocks)) + (if c == symbol then [data] else []))
  }

  lemma DatasMore(blocks: seq<Block>, b: Block)
    ensures Datas(blocks + [b]) == Datas(blocks) + [b.data] && Datas(blocks) + [] == Datas(blocks)
  {}

  twostate lemma BlockExtends(n: Blockchains, new symbol: string, new block: Block)
    requires n.IsAdded(symbol, block)
    requires forall c :: c in old(n.chains) && c != symbol ==> unchanged(old(n.chains[c]))
    ensures Extended(n, symbol, block.data)
  {
    hide Blockchains.Mirrors, TakeAll, DataOps, Released, ReleaseOps, After, Datas;
    forall c | c in old(n.chains) ensures Datas(n.chains[c].blocks)
      == old(Datas(n.chains[c].blocks)) + (if c == symbol then [block.data] else [])
    {
      DatasMore(old(n.chains[c].blocks), block);
    }
  }

  /** The block leads a node to the next world. */
  lemma WorldOfNode(n: Blockchains, symbol: string)
    requires n.Mirrors() && symbol in n.chains
    ensures symbol != MATCH_CHAIN ==> HeightOf(n.world, symbol) == n.chains[symbol].height
    ensures symbol in n.world.ledger.tokens && n.state.Valid()
  {
    hide ConsensusState.Valid, ConsensusState.View, Replays, BlocksOf, Fits, Programs, HeightOf;
    n.NodeKeys();
  }

  ghost predicate NoLocks(ops: Program) {
    forall i :: 0 <= i < |ops| && ops[i].TokenOp? ==> !ops[i].tx.Lock?
  }

  lemma {:induction false} BirthsLockNothing(ops: Program)
    ensures NoLocks(Flat(Births(ops)))
    decreases |ops|
  {
    hide GenesisOps;
    if ops == [] {
      FlatNoBirths();
    } else {
      BirthsLockNothing(ops[..|ops| - 1]);
      FlatBirths(ops);
      if ops[|ops| - 1].CreateOp? {
        GenesisLocksNothing(ops[|ops| - 1].create);
      }
    }
  }

  lemma GenesisLocksNothing(c: CreateToken)
    ensures NoLocks(GenesisOps(c))
  {}

  lemma StillNoLocks(t: Timeline, c: string, ops: Program, h: nat)
    requires NoLocks(Flat(t)) && NoLocks(ops)
    ensures NoLocks(Flat(After(t, c, ops, ReleaseOps(c, h))))
  {
    hide Flat, Births;
    var seg := Segment(c, ops + ReleaseOps(c, h));
    BirthsLockNothing(ops);
    FlatConcat(t + [seg], Births(ops));
    FlatConcat(t, [seg]);
    OneSegment(seg);
  }

  twostate lemma BlockLocks(n: Blockchains, new symbol: string, new block: Block)
    requires n.IsAdded(symbol, block)
    requires NoLocks(Flat(old(n.timeline))) && NoLocks(DataOps(symbol, block.data))
    ensures NoLocks(Flat(n.timeline))
  {
    hide *;
    n.Addition(symbol, block);
    StillNoLocks(old(n.timeline), symbol, DataOps(symbol, block.data), old(n.chains[symbol].height) + 1);
  }

  /** Add a block with this content after the last one of a chain. */
  method Extend(n: Blockchains, symbol: string, data: BlockData) returns (r: Verdict)
    requires n.Mirrors() && symbol in n.chains && Fits(symbol, data)
    modifies n, n.state, n.state.tokenStates.Values, n.chains.Values
    ensures r == Added <==> TakeAll(old(n.world), DataOps(symbol, data)).Some?
    ensures r == Added ==> n.Mirrors() && Some(n.world) == Next(old(n.world), symbol, data)
    ensures r == Added ==> Extended(n, symbol, data)
    ensures r == Added && old(NoLocks(Flat(n.timeline))) && NoLocks(DataOps(symbol, data)) ==> NoLocks(Flat(n.timeline))
  {
    hide *;
    var block := SealedBlock(n.chains[symbol].tipHash, data);
    SealedSo(n.chains[symbol].tipHash, data);
    n.Terms(symbol, block);
    r := n.AddBlock(symbol, block);
    if r == Added {
      BlockLeads(n, symbol, block);
      BlockExtends(n, symbol, block);
      if old(NoLocks(Flat(n.timeline))) && NoLocks(DataOps(symbol, data)) {
        BlockLocks(n, symbol, block);
      }
    }
  }

  lemma SealedSo(prev: Hash, data: BlockData)
    ensures var b := SealedBlock(prev, data); Sealed(b) && b.prev == prev && b.data == data
  {}

  // ---------------------------------------------------------------- opening the market

  lemma OpeningLocksNothing(s: Address, b: Address, n: nat)
    requires n < 4
    ensures NoLocks(DataOps(Opening(s, b)[n].0, Opening(s, b)[n].1))
  {
    CreatingOps(TokenA(s));
    CreatingOps(TokenB(b));
    PlacingOps("A", Asks(s));
    PlacingOps("B", Bids(b));
    hide DataOps, Creating, Placing;
  }

  /** A new node, before the market. */
  lemma NewNodeIs(creator: Address, w: World, t: Timeline, s: Address, b: Address)
    requires Some(w) == TakeAll(GENESIS, [CreateOp(NativeToken(creator))])
    requires t == After([], MATCH_CHAIN, [CreateOp(NativeToken(creator))], [])
    ensures BeforeMarket(w, s, b, 0) && NoLocks(Flat(t))
    ensures Datas([NewGenesisBlock(creator)]) == Creations(creator, s, b, 0)
  {
    hide TakeAll, Inv, Flat, Births, After, NativeToken, Supplied;
    var c := NativeToken(creator);
    GenesisInv();
    NativeName(creator);
    CreatingOps(c);
    Created(GENESIS, c);
    NothingLocked();
    StillNoLocks([], MATCH_CHAIN, [CreateOp(c)], 0);
  }

  lemma NativeName(creator: Address)
    ensures NativeToken(creator).info.symbol == "NATIVE" && NewGenesisBlock(creator).data == Creating(NativeToken(creator))
  {}

  lemma NothingLocked()
    ensures NoLocks(Flat([]))
  {}

  /** The content of the MATCH chain before the n-th of these blocks. */
  function Creations(creator: Address, s: Address, b: Address, n: nat): seq<BlockData> {
    [Creating(NativeToken(creator))] + (if n > 0 then [Creating(TokenA(s))] else []) + (if n > 1 then [Creating(TokenB(b))] else [])
  }

  lemma OneMoreCreation(creator: Address, s: Address, b: Address, n: nat)
    requires n < 4
    ensures |Opening(s, b)| == 4
    ensures Creations(creator, s, b, n + 1)
         == Creations(creator, s, b, n) + (if Opening(s, b)[n].0 == MATCH_CHAIN then [Opening(s, b)[n].1] else [])
  {
    hide Creating;
  }

  lemma TakenNext(w: World, c: string, data: BlockData)
    requires Next(w, c, data).Some?
    ensures TakeAll(w, DataOps(c, data)).Some?
  {
    hide TakeAll, DataOps;
  }

  twostate lemma MoreThere(n: Blockchains, new symbol: string, new data: BlockData)
    requires Extended(n, symbol, data)
    ensures forall c :: c in n.chains ==> n.chains[c] in old(n.chains.Values) || fresh(n.chains[c])
    ensures forall o :: o in n.state.tokenStates.Values ==> o in old(n.state.tokenStates.Values) || fresh(o)
    ensures MATCH_CHAIN in old(n.chains) ==>
      && MATCH_CHAIN in n.chains
      && Datas(n.chains[MATCH_CHAIN].blocks)
         == old(Datas(n.chains[MATCH_CHAIN].blocks)) + (if MATCH_CHAIN == symbol then [data] else [])
  {
    hide Datas;
  }

  /** The node before the n-th block of the market. */
  ghost predicate Opens(n: Blockchains, creator: Address, s: Address, b: Address, i: nat)
    reads n, n.state, n.state.tokenStates.Values, n.chains.Values
  {
    && n.Mirrors() && BeforeMarket(n.world, s, b, i) && NoLocks(Flat(n.timeline))
    && MATCH_CHAIN in n.chains && Datas(n.chains[MATCH_CHAIN].blocks) == Creations(creator, s, b, i)
  }

  method OpenNext(n: Blockchains, creator: Address, s: Address, b: Address, i: nat)
    requires i < 4 && Opens(n, creator, s, b, i)
    modifies n, n.state, n.state.tokenStates.Values, n.chains.Values
    ensures Opens(n, creator, s, b, i + 1)
    ensures forall c :: c in n.chains ==> n.chains[c] in old(n.chains.Values) || fresh(n.chains[c])
    ensures forall o :: o in n.state.tokenStates.Values ==> o in old(n.state.tokenStates.Values) || fresh(o)
  {
    hide Blockchains.Mirrors, BeforeMarket, NoLocks, Datas, Creations, Opening, Next, Extended, TakeAll, DataOps, Flat, Fits;
    OpeningNext(n.world, s, b, i);
    OpeningLocksNothing(s, b, i);
    OneMoreCreation(creator, s, b, i);
    n.NodeKeys();
    var symbol, data := Opening(s, b)[i].0, Opening(s, b)[i].1;
    TakenNext(n.world, symbol, data);
    var r := Extend(n, symbol, data);
    MoreThere(n, symbol, data);
  }

  method OpenMarket(creator: Address, s: Address, b: Address) returns (n: Blockchains)
    ensures fresh(n) && fresh(n.state) && fresh(n.state.tokenStates.Values) && fresh(n.chains.Values)
    ensures Opens(n, creator, s, b, 4)
  {
    hide *;
    n := new Blockchains(creator);
    MatchName();
    NewNodeIs(creator, n.world, n.timeline, s, b);
    NodeOpens(n, creator, s, b);
    for i := 0 to 4
      invariant fresh(n) && fresh(n.state) && fresh(n.state.tokenStates.Values) && fresh(n.chains.Values)
      invariant Opens(n, creator, s, b, i)
    {
      OpenNext(n, creator, s, b, i);
    }
  }

  lemma NodeOpens(n: Blockchains, creator: Address, s: Address, b: Address)
    requires n.Mirrors() && BeforeMarket(n.world, s, b, 0) && NoLocks(Flat(n.timeline)) && MATCH_CHAIN in n.chains
    requires n.chains[MATCH_CHAIN].blocks == [NewGenesisBlock(creator)]
    requires Datas([NewGenesisBlock(creator)]) == Creations(creator, s, b, 0)
    ensures Opens(n, creator, s, b, 0)
  {
    hide Blockchains.Mirrors, BeforeMarket, NoLocks, Datas, Creations, Flat;
  }

  // ---------------------------------------------------------------- the market as a run

  /** The same as a run of transactions. */
  lemma CreatedRun(w: World, c: CreateToken)
    requires c.info.symbol != MATCH_CHAIN
    ensures Run(w, [CreateOp(c)] + GenesisOps(c)) == Next(w, MATCH_CHAIN, Creating(c))
    ensures AllWellFormed([CreateOp(c)] + GenesisOps(c))
  {
    CreatingOps(c);
    TakeOne(w, CreateOp(c));
    RunOne(w, CreateOp(c), GenesisOps(c));
    hide Step, Run, TakeAll, DataOps;
  }

  lemma PlacedRun(w: World, s: string, o: Order, h: nat)
    requires s != MATCH_CHAIN && HeightOf(w, s) == h
    ensures Run(w, [TokenOp(s, Place(o)), TokenOp(s, Release(h + 1))]) == Next(w, s, Placing(o))
  {
    hide Step, Run, TakeAll, DataOps;
    var op, release := TokenOp(s, Place(o)), TokenOp(s, Release(h + 1));
    PlacingOps(s, o);
    TakeOne(w, op);
    PlaceIsTaken(w, op);
    RunOne(w, op, [release]);
    assert [op] + [release] == [op, release];
    if Step(w, op).Some? {
      RunJust(Step(w, op).value, release);
    }
  }

  lemma PlaceIsTaken(w: World, op: Op)
    requires op.TokenOp?
    ensures Take(w, op) == Step(w, op)
  {
    hide Step;
  }

  function OpeningOps(s: Address, b: Address, n: nat): Program {
    if n == 0 then [] else OpeningOps(s, b, n - 1) + OpeningRunOf(s, b, n - 1)
  }

  /** The n-th block as a run. */
  function OpeningRunOf(s: Address, b: Address, n: nat): Program {
    if n == 0 then [CreateOp(TokenA(s))] + GenesisOps(TokenA(s))
    else if n == 1 then [CreateOp(TokenB(b))] + GenesisOps(TokenB(b))
    else if n == 2 then [TokenOp("A", Place(Asks(s))), TokenOp("A", Release(2))]
    else [TokenOp("B", Place(Bids(b))), TokenOp("B", Release(2))]
  }

  /** The market is reached from nothing. */
  lemma {:induction false} MarketReached(s: Address, b: Address, n: nat) returns (w: World)
    requires n <= 4
    ensures Reached(OpeningOps(s, b, n), w) && BeforeMarket(w, s, b, n)
  {
    hide BeforeMarket, Next, Run, WellFormed, GenesisOps;
    if n == 0 {
      w := GENESIS;
      NothingYet(s, b);
    } else {
      var v := MarketReached(s, b, n - 1);
      OpeningNext(v, s, b, n - 1);
      OpeningRun(v, s, b, n - 1);
      RunConcat(GENESIS, OpeningOps(s, b, n - 1), OpeningRunOf(s, b, n - 1));
      w := Next(v, Opening(s, b)[n - 1].0, Opening(s, b)[n - 1].1).value;
    }
  }

  lemma NothingYet(s: Address, b: Address)
    ensures Reached([], GENESIS) && BeforeMarket(GENESIS, s, b, 0)
  {
    GenesisInv();
    hide Inv;
  }

  lemma OpeningRun(w: World, s: Address, b: Address, n: nat)
    requires n < 4 && BeforeMarket(w, s, b, n)
    ensures AllWellFormed(OpeningRunOf(s, b, n))
    ensures Run(w, OpeningRunOf(s, b, n)) == Next(w, Opening(s, b)[n].0, Opening(s, b)[n].1)
  {
    hide Run, Next, GenesisOps, Inv, Supplied, OnFile;
    CreatedRun(w, TokenA(s));
    CreatedRun(w, TokenB(b));
    if n == 2 { PlacedRun(w, "A", Asks(s), 1); }
    if n == 3 { PlacedRun(w, "B", Bids(b), 1); }
  }

  // ---------------------------------------------------------------- what the node takes in and refuses

  /** The fill gives the seller all that it wants and leaves 2 of its tokens over. */
  const FILL: Match := Match(7, "A", 1, 1, "B", 2, 1, 1)

  /** At the market the ask and the bid can be filled. */
  lemma FillIsValid(w: World, s: Address, b: Address)
    requires AtMarket(w, s, b)
    ensures ValidMatch(w.ledger, FILL) && BuyOrder(w.ledger, FILL) == Some(Bids(b)) && SellOrder(w.ledger, FILL) == Some(Asks(s))
  {
    hide Inv;
    NeverOverflows(Bids(b), Asks(s));
    assert FillOf(Bids(b), Asks(s)) == Fill(1, 1, 1);
  }

  /** A block that cancels the ask is one of those that leave a trace although they are refused. */
  lemma CancelIsReached(w: World, s: Address, b: Address)
    requires AtMarket(w, s, b)
    ensures var data := MatchData([], [CancelOrder("A", 1)], []);
      Fits(MATCH_CHAIN, data) && CancelReached(w, DataOps(MATCH_CHAIN, data)) && TakeAll(w, DataOps(MATCH_CHAIN, data)).None?
  {
    hide Inv, Take;
    var ops := DataOps(MATCH_CHAIN, MatchData([], [CancelOrder("A", 1)], []));
    assert ops == [] + [] + [CancelOp(CancelOrder("A", 1))];
    TakeOne(w, ops[0]);
    CancelRefused(w, ops[0]);
    assert ops[..0] == [];
    NothingTaken(w);
    assert CancelsAt(w, ops, 0);
  }

  lemma CancelPanics(w: World, panicked: bool, l: Ledger)
    requires CancelStays(w, DataOps(MATCH_CHAIN, MatchData([], [CancelOrder("A", 1)], [])), panicked, l)
    ensures !panicked
  {
    hide TakeAll, Ledgers.AddCancelOrder;
    var ops := DataOps(MATCH_CHAIN, MatchData([], [CancelOrder("A", 1)], []));
    assert ops == [] + [] + [CancelOp(CancelOrder("A", 1))];
    var n: nat :| CancelLeaves(w, ops, n, panicked, l);
  }

  twostate lemma CancellationStays(n: Blockchains, new block: Block, new r: Verdict)
    requires n.NotAdded(MATCH_CHAIN, block, r) && block.data == MatchData([], [CancelOrder("A", 1)], [])
    requires old(n.Cancels(MATCH_CHAIN, block)) && r != Added
    ensures r == Rejected && n.world == old(n.world) && n.Strayed()
  {
    hide DataOps, CancelStays, Blockchains.Mirrors, Blockchains.Strayed, ConsensusState.View;
    CancelPanics(n.world, r == Aborted, n.state.View());
  }

  /** A node that refuses a cancelling block, and no longer has the state that its chains stand for. */
  method RefuseCancellation(creator: Address, s: Address, b: Address) returns (n: Blockchains, r: Verdict)
    ensures r == Rejected && n.Strayed() && AtMarket(n.world, s, b)
  {
    hide *;
    n := OpenMarket(creator, s, b);
    OpenedMarket(n, creator, s, b);
    var data := MatchData([], [CancelOrder("A", 1)], []);
    CancelIsReached(n.world, s, b);
    var block := SealedBlock(n.chains[MATCH_CHAIN].tipHash, data);
    SealedSo(n.chains[MATCH_CHAIN].tipHash, data);
    n.Terms(MATCH_CHAIN, block);
    label before:
    r := n.AddBlock(MATCH_CHAIN, block);
    CancellationStays@before(n, block, r);
  }

  /** A block that creates a token and also carries a match. */
  function Mixed(s: Address): BlockData { MatchData([FILL], [], [TokenC(s)]) }

  lemma MixedIsTaken(w: World, s: Address, b: Address)
    requires AtMarket(w, s, b)
    ensures Fits(MATCH_CHAIN, Mixed(s)) && NoLocks(DataOps(MATCH_CHAIN, Mixed(s)))
    ensures DataOps(MATCH_CHAIN, Mixed(s)) == [CreateOp(TokenC(s)), MatchOp(FILL)]
    ensures Next(w, MATCH_CHAIN, Mixed(s)).Some?
    ensures var v := Next(w, MATCH_CHAIN, Mixed(s)).value; "C" in v.ledger.tokens && HeightOf(v, "C") == 1 && "C" != MATCH_CHAIN
  {
    hide Inv, Take, TakeAll, AddMatch, ValidMatch, Supplied, OnFile;
    var c, ops := TokenC(s), DataOps(MATCH_CHAIN, Mixed(s));
    assert ops == [CreateOp(c)] + [MatchOp(FILL)] + [];
    assert [CreateOp(c)] + [MatchOp(FILL)] == [CreateOp(c), MatchOp(FILL)];
    CreatingOps(c);
    Created(w, c);
    var u := Next(w, MATCH_CHAIN, Creating(c)).value;
    AtMarketStill(w, u, s, b);
    MatchSteps(u, FILL);
    TakeOneMore(w, [CreateOp(c)], MatchOp(FILL));
    MatchTaken(u, FILL);
  }

  lemma AtMarketStill(w: World, u: World, s: Address, b: Address)
    requires AtMarket(w, s, b) && Quiet(u) && SameBut(w, u, "C")
    ensures ValidMatch(u.ledger, FILL)
  {
    hide Inv;
    NeverOverflows(Bids(b), Asks(s));
    assert FillOf(Bids(b), Asks(s)) == Fill(1, 1, 1);
  }

  lemma MatchTaken(w: World, m: Match)
    requires ValidMatch(w.ledger, m)
    ensures Take(w, MatchOp(m)) == Some(w.(ledger := AddMatch(w.ledger, m).value))
    ensures AddMatch(w.ledger, m).value.tokens.Keys == w.ledger.tokens.Keys
  {
    hide Accepts, ApplySide;
  }

  lemma OpenedMarket(n: Blockchains, creator: Address, s: Address, b: Address)
    requires Opens(n, creator, s, b, 4)
    ensures n.Mirrors() && AtMarket(n.world, s, b) && NoLocks(Flat(n.timeline))
    ensures MATCH_CHAIN in n.chains && Datas(n.chains[MATCH_CHAIN].blocks) == Creations(creator, s, b, 2)
  {
    hide Blockchains.Mirrors, NoLocks, Datas, Flat, Quiet, OnFile;
  }

  /** A node whose MATCH chain ends in such a block. */
  method MixedNode(creator: Address, s: Address, b: Address) returns (n: Blockchains)
    ensures n.Mirrors() && NoLocks(Flat(n.timeline))
    ensures MATCH_CHAIN in n.chains && Datas(n.chains[MATCH_CHAIN].blocks) == Creations(creator, s, b, 2) + [Mixed(s)]
    ensures "C" in n.chains && n.chains["C"].blocks != []
  {
    hide *;
    n := OpenMarket(creator, s, b);
    OpenedMarket(n, creator, s, b);
    MixedIsTaken(n.world, s, b);
    TakenNext(n.world, MATCH_CHAIN, Mixed(s));
    label before:
    var r := Extend(n, MATCH_CHAIN, Mixed(s));
    MoreThere@before(n, MATCH_CHAIN, Mixed(s));
    n.NodeKeys();
    WorldOfNode(n, "C");
    ChainOfHeight(n, "C");
  }

  lemma ChainOfHeight(n: Blockchains, c: string)
    requires n.Mirrors() && c in n.chains
    ensures n.chains[c].height == |n.chains[c].blocks|
  {
    hide ConsensusState.Valid, ConsensusState.View, Replays, BlocksOf, Fits, Programs, HeightOf, Blockchain.Stored;
  }

  // ---------------------------------------------------------------- a leftover that was spent

  lemma FillOfMarket(s: Address, b: Address)
    ensures FillOf(Bids(b), Asks(s)) == Fill(1, 1, 1) && !Overflows(Bids(b), Asks(s))
    ensures FillOf(Asks(s), Bids(b)) == Fill(1, 3, 1) && !Overflows(Asks(s), Bids(b))
  {
    NeverOverflows(Bids(b), Asks(s));
    NeverOverflows(Asks(s), Bids(b));
  }

  /** The tokens after the fill, and after the seller has claimed what was left over of the ask. */
  function Filled1(s: Address, b: Address): Token {
    EMPTY_TOKEN.(deleted := map[1 := Order(1, "B", 2, 0, s)], updates := map[1 := 1], unclaimed := map[b := 1, s := 2])
  }

  lemma FillLeavesSome(w: World, s: Address, b: Address)
    requires AtMarket(w, s, b) && s != b
    ensures ValidMatch(w.ledger, FILL)
    ensures var l := AddMatch(w.ledger, FILL).value;
      && "A" in l.tokens && l.tokens["A"] == Filled1(s, b)
      && "B" in l.tokens && l.tokens["B"].deleted == map[2 := Order(2, "A", 0, 0, b)] && Get(l.tokens["B"].unclaimed, s) == 1
  {
    hide Inv, ApplySide, FillOf;
    FillIsValid(w, s, b);
    MatchTokens(w.ledger, FILL);
    SidesOfFill(s, b);
  }

  lemma SidesOfFill(s: Address, b: Address)
    requires s != b
    ensures ApplySide(OnFile(Asks(s)), SellSide(FILL, Bids(b), Asks(s))) == Filled1(s, b)
    ensures var t := ApplySide(OnFile(Bids(b)), BuySide(FILL, Bids(b), Asks(s)));
      t.deleted == map[2 := Order(2, "A", 0, 0, b)] && Get(t.unclaimed, s) == 1
  {
    var m: Funds := map[];
    assert map[1 := Asks(s)] - {1} == map[];
    assert m[b := 1][s := 2] == map[b := 1, s := 2];
  }

  /** After the fill, somebody claims something of the seller's token. */
  lemma ClaimedAfterFill(s: Address, b: Address, c: ClaimFunds) returns (pre: Program, l: Ledger, w: World)
    requires s != b && c.amount <= Get(Filled1(s, b).unclaimed, c.address)
    ensures Reached(pre + [MatchOp(FILL), TokenOp("A", Claim(c))], w)
    ensures "A" in l.tokens && l.tokens["A"] == Filled1(s, b) && Some(w.ledger) == AddTokenTx(l, "A", Claim(c))
    ensures "B" in l.tokens && l.tokens["B"].deleted == map[2 := Order(2, "A", 0, 0, b)] && Get(l.tokens["B"].unclaimed, s) == 1
  {
    hide Run, Quiet, WellFormed, AddMatch, ValidMatch, BeforeMarket, Filled1;
    var v := MarketReached(s, b, 4);
    MarketIsOpen(v, s, b);
    FillLeavesSome(v, s, b);
    MatchSteps(v, FILL);
    l := AddMatch(v.ledger, FILL).value;
    var u := v.(ledger := l);
    w := u.(ledger := AddTokenTx(l, "A", Claim(c)).value);
    ClaimSteps(u, "A", c);
    var more := [MatchOp(FILL), TokenOp("A", Claim(c))];
    RunOne(v, MatchOp(FILL), [TokenOp("A", Claim(c))]);
    assert [MatchOp(FILL)] + [TokenOp("A", Claim(c))] == more;
    RunJust(u, TokenOp("A", Claim(c)));
    pre := OpeningOps(s, b, 4);
    RunConcat(GENESIS, pre, more);
    FindingsWellFormed(Claim(c));
  }

  /** When what was left over has been claimed, the rollback of the match goes through without a panic, and
      takes the seller's claim below zero. */
  lemma SpentLeftoverWraps(s: Address, b: Address) returns (pre: Program, w: World)
    requires s != b
    ensures Reached(pre + [MatchOp(FILL), TokenOp("A", Claim(ClaimFunds(0, s, 2)))], w)
    ensures OrdersKnown(w.ledger, FILL) && PaymentsUnclaimed(w.ledger, FILL)
    ensures !Covered(w.ledger, FILL) && Get(RollbackMatch(w.ledger, FILL).tokens["A"].unclaimed, s) == WORD - 2
  {
    hide Reached, AddTokenTx, RollbackMatch;
    var l;
    pre, l, w := ClaimedAfterFill(s, b, ClaimFunds(0, s, 2));
    ClaimedLeftover(l, s, b);
  }

  /** When the buyer has claimed what the match paid it, the rollback of the match panics, although nothing of
      what it paid the seller is spent. */
  lemma SpentPaymentPanics(s: Address, b: Address) returns (pre: Program, w: World)
    requires s != b
    ensures Reached(pre + [MatchOp(FILL), TokenOp("A", Claim(ClaimFunds(0, b, 1)))], w)
    ensures OrdersKnown(w.ledger, FILL) && Get(w.ledger.tokens["B"].unclaimed, s) == FILL.sellerGain
    ensures Get(w.ledger.tokens["A"].unclaimed, b) < FILL.transferAmt && !CanUndo(w.ledger, MatchOp(FILL))
  {
    hide Reached, AddTokenTx;
    var l;
    pre, l, w := ClaimedAfterFill(s, b, ClaimFunds(0, b, 1));
    ClaimedPayment(l, s, b);
  }

  lemma ClaimedPayment(l: Ledger, s: Address, b: Address)
    requires s != b && "A" in l.tokens && l.tokens["A"] == Filled1(s, b)
    requires "B" in l.tokens && l.tokens["B"].deleted == map[2 := Order(2, "A", 0, 0, b)] && Get(l.tokens["B"].unclaimed, s) == 1
    ensures var r := AddTokenTx(l, "A", Claim(ClaimFunds(0, b, 1)));
      && r.Some? && OrdersKnown(r.value, FILL) && Get(r.value.tokens["B"].unclaimed, s) == 1
      && Get(r.value.tokens["A"].unclaimed, b) == 0 && !CanUndo(r.value, MatchOp(FILL))
  {
    var t := AddClaim(l.tokens["A"], ClaimFunds(0, b, 1)).value;
    assert Get(t.unclaimed, b) == 0;
  }

  lemma FindingsWellFormed(x: TokenTx)
    ensures AllWellFormed([MatchOp(FILL), TokenOp("A", x)])
  {}

  lemma ClaimSteps(w: World, s: string, c: ClaimFunds)
    requires AddTokenTx(w.ledger, s, Claim(c)).Some?
    ensures Step(w, TokenOp(s, Claim(c))) == Some(w.(ledger := AddTokenTx(w.ledger, s, Claim(c)).value))
  {
    hide AddTokenTx;
  }

  lemma MarketIsOpen(w: World, s: Address, b: Address)
    requires BeforeMarket(w, s, b, 4)
    ensures AtMarket(w, s, b)
  {
    hide Quiet, OnFile;
  }

  lemma ClaimedLeftover(l: Ledger, s: Address, b: Address)
    requires s != b && "A" in l.tokens && l.tokens["A"] == Filled1(s, b)
    requires "B" in l.tokens && l.tokens["B"].deleted == map[2 := Order(2, "A", 0, 0, b)] && Get(l.tokens["B"].unclaimed, s) == 1
    ensures var r := AddTokenTx(l, "A", Claim(ClaimFunds(0, s, 2)));
      && r.Some? && OrdersKnown(r.value, FILL) && PaymentsUnclaimed(r.value, FILL) && !Covered(r.value, FILL)
      && "A" in RollbackMatch(r.value, FILL).tokens
      && Get(RollbackMatch(r.value, FILL).tokens["A"].unclaimed, s) == WORD - 2
  {
    var t := AddClaim(l.tokens["A"], ClaimFunds(0, s, 2)).value;
    assert Get(t.unclaimed, s) == 0 && Get(t.unclaimed, b) == 1;
  }

  // ---------------------------------------------------------------- a match named the other way round

  /** The fill of the ask by the bid, with the roles of the two exchanged. */
  const SWAPPED: Match := Match(8, "B", 2, 1, "A", 1, 3, 1)

  /** No book finds a match that names its symbols in the other order. */
  lemma SwappedFitsNoBook(b: Orderbooks.Book, m: Match, p: Findings.Pair)
    requires Findings.Canonical(p)
    requires Orderbooks.GetBaseQuote(m.buySymbol, m.sellSymbol) != (m.buySymbol, m.sellSymbol)
    ensures !Orderbooks.Fitting(b, m, p.base, p.quote)
  {}

  lemma NotInTheBook(w: World, s: Address, b: Address)
    requires AtMarket(w, s, b)
    ensures Orderbooks.GetBaseQuote(SWAPPED.buySymbol, SWAPPED.sellSymbol) != (SWAPPED.buySymbol, SWAPPED.sellSymbol)
    ensures Findings.Canonical(Matchers.PairOf("A", "B"))
    ensures var book := Findings.ImpliedBook(w.ledger, Matchers.PairOf("A", "B"));
      SWAPPED.buyOrderId !in book.bids && SWAPPED.sellOrderId !in book.asks
  {
    assert Orderbooks.Precedes("A", "B");
    Orderbooks.OneWayOnly("A", "B");
    hide Inv, Orderbooks.Precedes;
  }

  /** The ledger does not check in which order a match names its symbols: it accepts this one, which no book
      that agrees with the ledger would find. */
  lemma SwappedMatchIsValid(s: Address, b: Address) returns (ops: Program, w: World)
    ensures Reached(ops, w) && AtMarket(w, s, b) && ValidMatch(w.ledger, SWAPPED) && Step(w, MatchOp(SWAPPED)).Some?
    ensures forall p :: Findings.Canonical(p) ==> !Orderbooks.Fitting(Findings.ImpliedBook(w.ledger, p), SWAPPED, p.base, p.quote)
  {
    hide Reached, Quiet, Findings.ImpliedBook, Orderbooks.Fitting, Findings.Canonical, Orderbooks.GetBaseQuote;
    ops := OpeningOps(s, b, 4);
    w := MarketReached(s, b, 4);
    MarketIsOpen(w, s, b);
    FillOfMarket(s, b);
    QuietIds(w);
    MatchSteps(w, SWAPPED);
    NotInTheBook(w, s, b);
    forall p | Findings.Canonical(p)
      ensures !Orderbooks.Fitting(Findings.ImpliedBook(w.ledger, p), SWAPPED, p.base, p.quote)
    {
      SwappedFitsNoBook(Findings.ImpliedBook(w.ledger, p), SWAPPED, p);
    }
  }

  lemma QuietIds(w: World)
    requires Quiet(w)
    ensures w.ledger.usedMatches == {}
  {}

  /** A matcher whose books agree with the ledger panics at it. */
  method MineSwapped(mr: Matchers.Matcher, ghost w: World, s: Address, b: Address) returns (panicked: bool)
    requires MinedTransactions.AgreesWith(mr, w.ledger) && AtMarket(w, s, b)
    modifies mr, mr.Objects()
    ensures panicked
  {
    hide AtMarket, Matchers.Matcher.Sound, Matchers.Matcher.OrdersAt, Matchers.Matcher.Objects, Findings.ImpliedBook,
         Orderbooks.GetBaseQuote, Orderbooks.Precedes;
    NotInTheBook(w, s, b);
    panicked := mr.AddMatch(SWAPPED);
  }
}
