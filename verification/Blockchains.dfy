/** All chains together with the consensus state that they produce.  The node changes both in place; what
    is proved is that the state is, at every moment, the replay of the blocks that the chains hold. */
module Multichain {
  import opened Amounts
  import opened Transactions
  import opened TokenLedger
  import opened Ledgers
  import opened Commutation
  import opened Schedules
  import opened Timelines
  import opened Determinism
  import opened Cascade
  import opened Survival
  import opened TokenGenesis
  import opened ConsensusStates
  import opened Chains
  import opened Admission
  import opened GenericTransactions

  /** How a rollback ends: as it should; in a panic; at a match whose leftover was already claimed; or
      at a block that created a token. */
  datatype Outcome = Done | Panicked | Overdrawn | TokenRemoved

  /** How the addition of a block ends: it is taken, refused, or it ends in a panic. */
  datatype Verdict = Added | Rejected | Aborted

  class Blockchains {
    var chains: map<string, Blockchain>
    const state: ConsensusState
    ghost var timeline: Timeline
    ghost var world: World

    /** Every chain has an object of its own, in good order. */
    ghost predicate ChainsOk()
      reads this`chains, chains.Values
    {
      && MATCH_CHAIN in chains
      && (forall c, d :: c in chains && d in chains && c != d ==> chains[c] != chains[d])
      && (forall c :: c in chains ==> chains[c].Valid() && GoodBlocks(c, chains[c].blocks))
    }

    /** The consensus state is the replay of the timeline. */
    ghost predicate Followed()
      reads this`timeline, this`world, state, state.tokenStates.Values
    {
      state.Valid() && world.ledger == state.View() && Replays(timeline, world)
    }

    /** The timeline holds the blocks of a chain, and then those that are still being taken apart. */
    ghost predicate Coupled(c: string, rest: seq<Program>)
      reads this`chains, this`timeline, this`world, chains.Values
    {
      && c in chains
      && BlocksOf(timeline, c) == Programs(c, chains[c].blocks) + rest
      && (c != MATCH_CHAIN ==> HeightOf(world, c) == chains[c].height)
    }

    /** The chains hold the blocks of the timeline, and nothing else. */
    ghost predicate Kept()
      reads this, chains.Values
    {
      && ChainsOk() && Replays(timeline, world)
      && (forall c :: c in chains ==> Coupled(c, []))
      && (forall c :: c !in chains ==> BlocksOf(timeline, c) == [])
    }

    /** The consensus state is the replay of the blocks that the chains hold, and of nothing else. */
    ghost predicate Mirrors()
      reads this, state, state.tokenStates.Values, chains.Values
    {
      && ChainsOk() && Followed() && chains.Keys == state.tokenStates.Keys
      && (forall c :: c in chains ==> Coupled(c, []))
      && (forall c :: c !in chains ==> BlocksOf(timeline, c) == [])
    }

    /** The chains are those of the timeline, but in the state an order is cancelled. */
    ghost predicate Strayed()
      reads this, state, state.tokenStates.Values, chains.Values
    {
      && Kept() && state.Valid() && chains.Keys == state.tokenStates.Keys
      && exists c :: Ledgers.AddCancelOrder(world.ledger, c) == Some(state.View())
    }

    lemma MirrorsKept()
      requires Mirrors()
      ensures Kept()
    {
      hide ConsensusState.Valid, ConsensusState.View, ChainsOk, Coupled, Replays, BlocksOf;
    }

    /** A new node: its MATCH chain holds the block that creates the native token, and the chain of that
        token holds its first block. */
    constructor (creator: Address)
      ensures Mirrors() && fresh(state) && fresh(state.tokenStates.Values) && fresh(chains.Values)
      ensures chains.Keys == {"MATCH", "NATIVE"} && chains["MATCH"].blocks == [NewGenesisBlock(creator)]
      ensures NativeSupply(state.View(), creator)
      ensures Some(world) == TakeAll(GENESIS, [CreateOp(NativeToken(creator))])
      ensures timeline == After([], MATCH_CHAIN, [CreateOp(NativeToken(creator))], [])
    {
      hide *;
      NewBucket();
      ReplayNothing();
      var s := new ConsensusState();
      var c := new Blockchain(map[], NoHash, []);
      state := s;
      chains := map[MATCH_CHAIN := c];
      timeline, world := [], GENESIS;
      new;
      EmptyNode();
      FirstBlockFits(creator);
      FirstBlockTaken(creator);
      Terms(MATCH_CHAIN, NewGenesisBlock(creator));
      label empty:
      var verdict := AddBlock(MATCH_CHAIN, NewGenesisBlock(creator));
      Addition@empty(MATCH_CHAIN, NewGenesisBlock(creator));
      NewNode@empty(creator);
    }

    lemma EmptyNode()
      requires state.Valid() && state.View() == GENESIS.ledger && chains.Keys == {MATCH_CHAIN}
      requires chains[MATCH_CHAIN].Stored() && chains[MATCH_CHAIN].blocks == [] && chains[MATCH_CHAIN].height == 0
      requires timeline == [] && world == GENESIS
      ensures Mirrors() && chains[MATCH_CHAIN].tipHash == NoHash
    {
      hide ConsensusState.Valid, ConsensusState.View, TokenState.View, Linked, Stores, HashesOf, Fits;
      state.ViewTokens();
    }

    twostate lemma NewNode(new creator: Address)
      requires old(chains.Keys) == {MATCH_CHAIN} && old(chains[MATCH_CHAIN].blocks) == []
      requires old(world) == GENESIS && old(timeline) == [] && IsAdded(MATCH_CHAIN, NewGenesisBlock(creator))
      ensures Mirrors() && chains.Keys == {"MATCH", "NATIVE"} && chains["MATCH"].blocks == [NewGenesisBlock(creator)]
      ensures NativeSupply(state.View(), creator)
      ensures Some(world) == TakeAll(GENESIS, [CreateOp(NativeToken(creator))])
      ensures timeline == After([], MATCH_CHAIN, [CreateOp(NativeToken(creator))], [])
    {
      hide *;
      var b := NewGenesisBlock(creator);
      assert [] + [b] == [b];
      FirstBlockFits(creator);
      FirstBlockTaken(creator);
      Addition(MATCH_CHAIN, b);
      assert DataOps(MATCH_CHAIN, b.data) == [CreateOp(NativeToken(creator))];
      NothingReleasedOnMatch(TakeAll(GENESIS, [CreateOp(NativeToken(creator))]).value, old(chains[MATCH_CHAIN].height) + 1);
      NodeKeys();
      MatchName();
      ShownLedger();
    }

    lemma ShownLedger()
      requires Mirrors()
      ensures state.View() == world.ledger
    {
      hide ConsensusState.Valid, ConsensusState.View, ChainsOk, Coupled, Replays;
    }

    // -------------------------------------------------------------- taking one transaction back

    method RevertMatch(m: Match) returns (r: Outcome)
      requires state.Valid() && m.buySymbol in state.tokenStates && m.sellSymbol in state.tokenStates
      requires m.buySymbol != m.sellSymbol
      modifies state`usedMatchIDs, state.tokenStates.Values
      ensures state.Valid()
      ensures r == Panicked <==> !(OrdersKnown(old(state.View()), m) && PaymentsUnclaimed(old(state.View()), m))
      ensures r == Done <==> r != Panicked && Covered(old(state.View()), m)
      ensures r == Done ==> state.View() == Ledgers.RollbackMatch(old(state.View()), m)
    {
      hide ConsensusState.View, TokenState.View, PaymentsUnclaimed, SideCovered;
      ghost var l := state.View();
      var covered := state.Covers(m);
      if OrdersKnown(state.View(), m) {
        state.KnownIds(m);
      }
      var ok := state.RollbackUntilRollbackMatchSucceeds(m);
      if !ok {
        return Panicked;
      }
      if !covered {
        return Overdrawn;
      }
      RollbackInSteps(l, m);
      state.RollbackMatch(m);
      return Done;
    }

    /** Undo the last transaction of a chain, in the state and in the timeline. */
    method Revert(op: Op, ghost c: string, ghost init: seq<Program>, ghost kept: Program) returns (r: Outcome)
      requires Followed() && BlocksOf(timeline, c) == init + [kept + [op]]
      requires op.TokenOp? ==> Removable(world, op)
      modifies this`timeline, this`world, state`usedMatchIDs, state.tokenStates.Values
      ensures state.Valid()
      ensures r == Done <==> Removable(old(world), op)
      ensures r == Done ==> Followed() && BlocksOf(timeline, c) == init + [kept]
      ensures r == Done ==> Undoes(old(world), op, world)
      ensures r == Done ==> forall d :: d != c ==> BlocksOf(timeline, d) == BlocksOf(old(timeline), d)
      ensures r == Done ==>
        world.heights == (if op.TokenOp? && op.tx.Release? && op.tx.height > 0
                          then old(world).heights[op.symbol := op.tx.height - 1] else old(world).heights)
    {
      hide ConsensusState.Valid, ConsensusState.View, TokenState.View, Replays, BlocksOf, Removable, Covered,
           PaymentsUnclaimed, OrdersKnown, RollbackTokenTx, Ledgers.RollbackMatch;
      state.ViewTokens();
      LastOpMade(timeline, world, c, init, kept, op);
      ghost var w := world;
      match op
      case TokenOp(s, tx) =>
        ghost var t' := PopOp(timeline, w, c, init, kept, op);
        RevertTokenTx(state, s, tx);
        timeline, world := t', UndoOp(w, op);
        r := Done;
      case MatchOp(m) =>
        RemovableMatch(w, m);
        r := RevertMatch(m);
        if r == Done {
          ghost var t' := PopOp(timeline, w, c, init, kept, op);
          timeline, world := t', UndoOp(w, op);
        }
      case CreateOp(_) =>
        NeverRemovable(w, op);
        r := TokenRemoved;
    }

    /** Undo the transactions of the last MATCH block, last one first; the block is already off the chain.  When
        it was, in some history, added last, and creates no token, it can be undone. */
    method RevertMatchBlock(ops: seq<Op>, ghost init: seq<Program>, ghost u: World) returns (r: Outcome)
      requires Followed() && BlocksOf(timeline, MATCH_CHAIN) == init + [ops] && OfChain(ops, MATCH_CHAIN)
      modifies this`timeline, this`world, state`usedMatchIDs, state.tokenStates.Values
      ensures state.Valid()
      ensures r == Done ==> Followed() && BlocksOf(timeline, MATCH_CHAIN) == init && world.heights == old(world).heights
      ensures r == Done ==> forall d :: d != MATCH_CHAIN ==> BlocksOf(timeline, d) == BlocksOf(old(timeline), d)
      ensures r == Done ==> NoCreates(ops)
      ensures Inv(u) && Run(u, ops) == Some(old(world)) && NoCreates(ops) ==> r == Done
    {
      hide ConsensusState.Valid, ConsensusState.View, Replays, BlocksOf, Removable, WellFormed, Run, Inv, Undoes, AllWellFormed;
      var j := |ops|;
      assert ops[..j] == ops;
      ghost var last := Inv(u) && Run(u, ops) == Some(world) && NoCreates(ops);
      OfOneChain(ops, "", MATCH_CHAIN);
      while j > 0
        invariant 0 <= j <= |ops|
        invariant Followed() && BlocksOf(timeline, MATCH_CHAIN) == init + [ops[..j]]
        invariant world.heights == old(world).heights
        invariant forall d :: d != MATCH_CHAIN ==> BlocksOf(timeline, d) == BlocksOf(old(timeline), d)
        invariant forall i :: j <= i < |ops| ==> !ops[i].CreateOp?
        invariant last ==> Run(u, ops[..j]) == Some(world)
      {
        j := j - 1;
        assert ops[..j + 1] == ops[..j] + [ops[j]];
        assert ChainOf(ops[j]) == MATCH_CHAIN && WellFormed(ops[j]);
        NotOfToken(ops[j]);
        if last {
          LastIsUndone(u, ops, j, world);
        }
        NotCreated(world, ops[j]);
        r := Revert(ops[j], MATCH_CHAIN, init, ops[..j]);
        if r != Done {
          return r;
        }
      }
      assert ops[..0] == [];
      timeline := PopEmpty(timeline, world, MATCH_CHAIN, init);
      return Done;
    }

    /** Take the last block off the MATCH chain and out of the state. */
    method RemoveMatchBlock(ghost u: World) returns (r: Outcome)
      requires ChainsOk() && Followed() && Coupled(MATCH_CHAIN, []) && chains[MATCH_CHAIN].blocks != []
      modifies this`timeline, this`world, state`usedMatchIDs, state.tokenStates.Values, chains[MATCH_CHAIN]
      ensures ChainsOk() && state.Valid()
      ensures r == Done ==> Followed() && Coupled(MATCH_CHAIN, []) && world.heights == old(world).heights
      ensures r == Done ==> forall d :: d != MATCH_CHAIN ==> BlocksOf(timeline, d) == BlocksOf(old(timeline), d)
      ensures chains[MATCH_CHAIN].blocks == old(chains[MATCH_CHAIN].blocks)[..|old(chains[MATCH_CHAIN].blocks)| - 1]
      ensures var blocks := BlocksOf(old(timeline), MATCH_CHAIN);
        && blocks != [] && blocks == Programs(MATCH_CHAIN, old(chains[MATCH_CHAIN].blocks))
        && (r == Done ==> NoCreates(blocks[|blocks| - 1]))
        && (Inv(u) && Run(u, blocks[|blocks| - 1]) == Some(old(world)) && NoCreates(blocks[|blocks| - 1]) ==> r == Done)
    {
      hide ConsensusState.Valid, ConsensusState.View, Replays, BlocksOf, Programs, DataOps, Fits, OfChain,
           Linked, Stores, HashesOf, Run, Inv, NoCreates;
      var chain := chains[MATCH_CHAIN];
      RemovedBlock(MATCH_CHAIN, chain.blocks, BlocksOf(timeline, MATCH_CHAIN));
      NoRest(Programs(MATCH_CHAIN, chain.blocks));
      var removedData := chain.RemoveLastBlock();
      ghost var left := Programs(MATCH_CHAIN, chain.blocks);
      NoRest(left);
      r := RevertMatchBlock(DataOps(MATCH_CHAIN, removedData), left, u);
    }

    /** Cut the MATCH chain at a height.  That goes through exactly if no block above it creates a token and
        there is a history without them. */
    method rollbackMatchToHeight(height: nat, ghost a: Goal) returns (r: Outcome)
      requires ChainsOk() && Followed() && Coupled(MATCH_CHAIN, [])
      modifies this`timeline, this`world, state`usedMatchIDs, state.tokenStates.Values, chains[MATCH_CHAIN]
      ensures ChainsOk() && state.Valid()
      ensures r == Done ==> Followed() && Coupled(MATCH_CHAIN, []) && world.heights == old(world).heights
      ensures r == Done ==> forall d :: d != MATCH_CHAIN ==> BlocksOf(timeline, d) == BlocksOf(old(timeline), d)
      ensures r == Done ==>
        var n := |old(chains[MATCH_CHAIN].blocks)|;
        chains[MATCH_CHAIN].blocks == old(chains[MATCH_CHAIN].blocks)[..if height < n then height else n]
      ensures r == Done ==> CreateNothing(BlocksOf(old(timeline), MATCH_CHAIN), height)
      ensures Aims(old(timeline), a, height) && CreateNothing(BlocksOf(old(timeline), MATCH_CHAIN), height) ==> r == Done
    {
      hide *;
      InOrder();
      var chain := chains[MATCH_CHAIN];
      ghost var was, all := chain.blocks, BlocksOf(timeline, MATCH_CHAIN);
      assert was[..|was|] == was && all[..|all|] == all;
      MatchLength(was, all);
      NothingCut(all);
      if height >= chain.height {
        NoneAbove(all, height);
        return Done;
      }
      var blocksToRemove := chain.height - height;
      for i := 0 to blocksToRemove
        invariant ChainsOk() && Followed() && Coupled(MATCH_CHAIN, [])
        invariant chain.blocks == was[..|was| - i] && world.heights == old(world).heights
        invariant BlocksOf(timeline, MATCH_CHAIN) == all[..|was| - i]
        invariant forall d :: d != MATCH_CHAIN ==> BlocksOf(timeline, d) == BlocksOf(old(timeline), d)
        invariant CreateNothing(all, |was| - i)
      {
        assert was[..|was| - i][..|was| - i - 1] == was[..|was| - i - 1];
        assert all[..|was| - i][|was| - i - 1] == all[|was| - i - 1];
        InOrder();
        ghost var u := world;
        if Aims(old(timeline), a, height) {
          StillAims(old(timeline), timeline, a, height, |was| - i);
          u := NextToGo(timeline, world, a, height);
        }
        NoCreatesAt(all, height, |was| - i - 1);
        r := RemoveMatchBlock(u);
        if r != Done {
          return r;
        }
        MatchBlocks(was, all, |was| - i - 1);
        CreatesNoMore(all, |was| - i - 1);
      }
      InOrder();
      return Done;
    }

    lemma MatchLength(was: seq<Block>, all: seq<Program>)
      requires ChainsOk() && Coupled(MATCH_CHAIN, []) && was == chains[MATCH_CHAIN].blocks && all == BlocksOf(timeline, MATCH_CHAIN)
      ensures |all| == |was| == chains[MATCH_CHAIN].height && all == Programs(MATCH_CHAIN, was)
    {
      hide BlocksOf, BlockOps, Linked, Stores, HashesOf, Fits;
      NoRest(Programs(MATCH_CHAIN, was));
    }

    lemma MatchBlocks(was: seq<Block>, all: seq<Program>, k: nat)
      requires ChainsOk() && Coupled(MATCH_CHAIN, []) && all == Programs(MATCH_CHAIN, was)
      requires k <= |was| && chains[MATCH_CHAIN].blocks == was[..k]
      ensures |all| == |was| && BlocksOf(timeline, MATCH_CHAIN) == all[..k]
    {
      hide BlocksOf, Programs, ChainsOk;
      NoRest(Programs(MATCH_CHAIN, was[..k]));
      ProgramsPrefix(MATCH_CHAIN, was, k);
    }

    // -------------------------------------------------------------- the cascade from an order

    /** Roll the MATCH chain back, block by block, until no match names the order any more.  It stops just
        before the earliest block with such a match, and it gets there whenever there is a history in which the
        order comes last and no later block creates a token. */
    method RollbackUntilRollbackOrderSucceeds(symbol: string, order: Order, ghost a: Goal) returns (r: Outcome)
      requires ChainsOk() && Followed() && Coupled(MATCH_CHAIN, []) && symbol in state.tokenStates
      modifies this`timeline, this`world, state`usedMatchIDs, state.tokenStates.Values, chains[MATCH_CHAIN]
      ensures ChainsOk() && state.Valid()
      ensures r == Done ==> Followed() && Coupled(MATCH_CHAIN, []) && world.heights == old(world).heights
      ensures r == Done ==> forall d :: d != MATCH_CHAIN ==> BlocksOf(timeline, d) == BlocksOf(old(timeline), d)
      ensures r == Done ==> Removable(world, TokenOp(symbol, Place(order)))
      ensures r == Done ==> Cleared(old(chains[MATCH_CHAIN].blocks), chains[MATCH_CHAIN].blocks, symbol, [TokenOp(symbol, Place(order))])
      ensures Pursued(old(timeline), a, symbol, order) ==>
        r == Done && |BlocksOf(a.g, MATCH_CHAIN)| <= |chains[MATCH_CHAIN].blocks|
    {
      hide *;
      InOrder();
      var chain := chains[MATCH_CHAIN];
      ghost var was, all := chain.blocks, BlocksOf(timeline, MATCH_CHAIN);
      ghost var k: nat := |was|;
      MatchLength(was, all);
      CountThere(symbol, order.id);
      assert was[..k] == was && all[..k] == all;
      NothingCut(all);
      if Pursued(timeline, a, symbol, order) {
        PursuedLength(timeline, a, symbol, order);
      }
      if order.id !in state.tokenStates[symbol].orderUpdatesCount {
        if Pursued(timeline, a, symbol, order) {
          LastKnown(timeline, world, a, symbol, order);
        }
        return Panicked;
      }
      var count := UpdatesOf(symbol, order.id);
      while count > 0
        invariant ChainsOk() && Followed() && Coupled(MATCH_CHAIN, []) && world.heights == old(world).heights
        invariant forall d :: d != MATCH_CHAIN ==> BlocksOf(timeline, d) == BlocksOf(old(timeline), d)
        invariant k <= |was| == |all| && chain.blocks == was[..k] && BlocksOf(timeline, MATCH_CHAIN) == all[..k]
        invariant symbol in world.ledger.tokens && count == Count(world.ledger.tokens[symbol], order.id)
        invariant count == NamesIn(all[..k], symbol, order.id) && CreateNothing(all, k)
        invariant k < |was| ==> NamesIn(all[..k + 1], symbol, order.id) > 0
        invariant Pursued(old(timeline), a, symbol, order) ==> Pursued(timeline, a, symbol, order) && |BlocksOf(a.g, MATCH_CHAIN)| <= k
        decreases k
      {
        NoNames(all[..k], symbol, order.id);
        assert was[..k][..k - 1] == was[..k - 1] && all[..k][..k - 1] == all[..k - 1];
        r := RollbackNamed(symbol, order, a);
        if r != Done {
          return r;
        }
        k := k - 1;
        CreateNothingMore(all, k + 1);
        count := UpdatesOf(symbol, order.id);
      }
      if k < |was| {
        LastNames(all, k + 1, symbol, order.id);
      }
      InOrder();
      Untouched(world, symbol, order);
      OneOrderNamed(all, k, symbol, symbol, order);
      ClearedAt(was, k, symbol, [TokenOp(symbol, Place(order))]);
      return Done;
    }

    /** Roll the last MATCH block back, as long as a match names the order. */
    method RollbackNamed(symbol: string, order: Order, ghost a: Goal) returns (r: Outcome)
      requires ChainsOk() && Followed() && Coupled(MATCH_CHAIN, []) && NamesIn(BlocksOf(timeline, MATCH_CHAIN), symbol, order.id) > 0
      modifies this`timeline, this`world, state`usedMatchIDs, state.tokenStates.Values, chains[MATCH_CHAIN]
      ensures ChainsOk() && state.Valid()
      ensures r == Done ==> Followed() && Coupled(MATCH_CHAIN, []) && world.heights == old(world).heights
      ensures r == Done ==> forall d :: d != MATCH_CHAIN ==> BlocksOf(timeline, d) == BlocksOf(old(timeline), d)
      ensures r == Done ==>
        var was, all := old(chains[MATCH_CHAIN].blocks), BlocksOf(old(timeline), MATCH_CHAIN);
        && |was| == |all| > 0 && chains[MATCH_CHAIN].blocks == was[..|was| - 1]
        && BlocksOf(timeline, MATCH_CHAIN) == all[..|all| - 1] && CreateNothing(all, |all| - 1)
      ensures Pursued(old(timeline), a, symbol, order) ==>
        && r == Done && Pursued(timeline, a, symbol, order)
        && |BlocksOf(a.g, MATCH_CHAIN)| < |BlocksOf(old(timeline), MATCH_CHAIN)|
    {
      hide *;
      InOrder();
      var chain := chains[MATCH_CHAIN];
      ghost var was, all, before := chain.blocks, BlocksOf(timeline, MATCH_CHAIN), timeline;
      MatchLength(was, all);
      NoNames(all, symbol, order.id);
      if Pursued(timeline, a, symbol, order) {
        AimsAtName(timeline, a, symbol, order);
      }
      r := rollbackMatchToHeight(chain.height - 1, a);
      if r == Done {
        MatchBlocks(was, all, |was| - 1);
        if Pursued(before, a, symbol, order) {
          CutPursued(before, timeline, a, symbol, order, |was| - 1);
        }
      }
    }

    lemma CountThere(symbol: string, id: u64)
      requires Followed() && symbol in state.tokenStates
      ensures symbol in world.ledger.tokens
      ensures id in world.ledger.tokens[symbol].updates <==> id in state.tokenStates[symbol].orderUpdatesCount
    {
      hide ConsensusState.Valid, Replays, Norm, Flatten;
      state.ViewTokens();
    }

    lemma InOrder()
      requires ChainsOk() && Followed()
      ensures state.Valid() && MATCH_CHAIN in chains && chains[MATCH_CHAIN].Valid() && Replays(timeline, world)
      ensures chains[MATCH_CHAIN].height == |chains[MATCH_CHAIN].blocks|
    {
      hide ConsensusState.Valid, Linked, Stores, HashesOf, Fits, Replays;
    }

    /** The count of an order, which is the number of matches on the MATCH chain that name it. */
    method UpdatesOf(symbol: string, id: u64) returns (count: int)
      requires ChainsOk() && Followed() && Coupled(MATCH_CHAIN, []) && symbol in state.tokenStates
      ensures symbol in world.ledger.tokens && count == Count(world.ledger.tokens[symbol], id)
      ensures count == NamesIn(BlocksOf(timeline, MATCH_CHAIN), symbol, id)
    {
      hide ConsensusState.Valid, Replays, BlocksOf, Fits, OfChain, Linked, Stores, HashesOf, NamesIn, Programs, Norm, Flatten;
      state.ViewTokens();
      CountIsNames(timeline, world, symbol, id);
      var tokenState := state.tokenStates[symbol];
      count := if id in tokenState.orderUpdatesCount then tokenState.orderUpdatesCount[id] else 0;
    }

    // -------------------------------------------------------------- rollback of a token chain

    /** Undo one transaction of a token chain; for an order, after the matches that name it. */
    method RevertOnToken(op: Op, ghost init: seq<Program>, ghost kept: Program, ghost g: Timeline, ghost v: World)
      returns (r: Outcome)
      requires ChainsOk() && Followed() && Coupled(MATCH_CHAIN, [])
      requires op.TokenOp? && op.symbol != MATCH_CHAIN && !op.tx.Release? && op.symbol in state.tokenStates
      requires BlocksOf(timeline, op.symbol) == init + [kept + [op]]
      modifies this`timeline, this`world, state`usedMatchIDs, state.tokenStates.Values, chains[MATCH_CHAIN]
      ensures ChainsOk() && state.Valid()
      ensures r == Done ==> Followed() && Coupled(MATCH_CHAIN, []) && world.heights == old(world).heights
      ensures r == Done ==> BlocksOf(timeline, op.symbol) == init + [kept]
      ensures r == Done ==>
        forall d :: d != MATCH_CHAIN && d != op.symbol ==> BlocksOf(timeline, d) == BlocksOf(old(timeline), d)
      ensures r == Done ==> Cleared(old(chains[MATCH_CHAIN].blocks), chains[MATCH_CHAIN].blocks, op.symbol, [op])
      ensures Wanted(old(timeline), g, v, op.symbol, [op]) ==>
        r == Done && |BlocksOf(g, MATCH_CHAIN)| <= |chains[MATCH_CHAIN].blocks|
    {
      hide ConsensusState.Valid, ConsensusState.View, Replays, BlocksOf, Fits, OfChain, Linked, Stores, HashesOf,
           Programs, Removable, Wanted, Cleared, Undoes;
      InOrder();
      MatchLength(chains[MATCH_CHAIN].blocks, BlocksOf(timeline, MATCH_CHAIN));
      if Wanted(timeline, g, v, op.symbol, [op]) {
        WantedLength(timeline, g, v, op.symbol, [op]);
      }
      if op.tx.Place? {
        PlaceOnly(op);
        if Wanted(timeline, g, v, op.symbol, [op]) {
          WantedPursued(timeline, g, v, op.symbol, op.tx.order, init, kept);
        }
        r := RollbackUntilRollbackOrderSucceeds(op.symbol, op.tx.order, Goal(g, v, op.symbol, op.tx.order, init, kept));
        if r != Done {
          return r;
        }
      } else {
        OtherwiseRemovable(world, op);
        NothingCleared(chains[MATCH_CHAIN].blocks, op.symbol, op);
      }
      OffMatch(op);
      r := Revert(op, op.symbol, init, kept);
    }

    /** Undo the transactions of the last block of a token chain, last one first: orders, freezes,
        transfers and claims; the block is already off the chain. */
    method RevertTokenBlock(symbol: string, ops: seq<Op>, ghost init: seq<Program>, ghost g: Timeline, ghost v: World)
      returns (r: Outcome)
      requires ChainsOk() && Followed() && Coupled(MATCH_CHAIN, [])
      requires symbol != MATCH_CHAIN && symbol in state.tokenStates && OnlyTokenTxs(ops, symbol)
      requires BlocksOf(timeline, symbol) == init + [ops]
      modifies this`timeline, this`world, state`usedMatchIDs, state.tokenStates.Values, chains[MATCH_CHAIN]
      ensures ChainsOk() && state.Valid()
      ensures r == Done ==> Followed() && Coupled(MATCH_CHAIN, []) && world.heights == old(world).heights
      ensures r == Done ==> BlocksOf(timeline, symbol) == init
      ensures r == Done ==>
        forall d :: d != MATCH_CHAIN && d != symbol ==> BlocksOf(timeline, d) == BlocksOf(old(timeline), d)
      ensures r == Done ==> Cleared(old(chains[MATCH_CHAIN].blocks), chains[MATCH_CHAIN].blocks, symbol, ops)
      ensures ops == [] ==> r == Done && chains[MATCH_CHAIN].blocks == old(chains[MATCH_CHAIN].blocks)
      ensures BlocksOf(g, symbol) <= init && Wanted(old(timeline), g, v, symbol, ops) ==>
        r == Done && |BlocksOf(g, MATCH_CHAIN)| <= |chains[MATCH_CHAIN].blocks|
    {
      hide *;
      InOrder();
      var j := |ops|;
      ghost var wanted := BlocksOf(g, symbol) <= init && Wanted(timeline, g, v, symbol, ops);
      ghost var was, all := chains[MATCH_CHAIN].blocks, BlocksOf(timeline, MATCH_CHAIN);
      assert ops[..j] == ops && ops[j..] == [];
      NoneCleared(was, symbol);
      MatchLength(was, all);
      if wanted {
        WantedLength(timeline, g, v, symbol, ops);
      }
      while j > 0
        invariant 0 <= j <= |ops|
        invariant ChainsOk() && Followed() && Coupled(MATCH_CHAIN, []) && world.heights == old(world).heights
        invariant BlocksOf(timeline, symbol) == init + [ops[..j]]
        invariant forall d :: d != MATCH_CHAIN && d != symbol ==> BlocksOf(timeline, d) == BlocksOf(old(timeline), d)
        invariant Cleared(was, chains[MATCH_CHAIN].blocks, symbol, ops[j..])
        invariant j == |ops| ==> chains[MATCH_CHAIN].blocks == was
        invariant wanted ==> |BlocksOf(g, MATCH_CHAIN)| <= |chains[MATCH_CHAIN].blocks|
        invariant wanted && j > 0 ==> Wanted(timeline, g, v, symbol, ops)
      {
        j := j - 1;
        ghost var before, mid := timeline, chains[MATCH_CHAIN].blocks;
        assert ops[..j + 1] == ops[..j] + [ops[j]] && [ops[j]] + ops[j + 1..] == ops[j..];
        OnlyTokenTx(ops, symbol, j);
        MatchLength(mid, BlocksOf(timeline, MATCH_CHAIN));
        if wanted {
          WantedOne(timeline, g, v, symbol, ops, j);
        }
        r := RevertOnToken(ops[j], init, ops[..j], g, v);
        if r != Done {
          return r;
        }
        ClearedBoth(was, mid, chains[MATCH_CHAIN].blocks, symbol, [ops[j]], ops[j + 1..]);
        MatchLength(chains[MATCH_CHAIN].blocks, BlocksOf(timeline, MATCH_CHAIN));
        ClearedPrefix(mid, chains[MATCH_CHAIN].blocks, symbol, [ops[j]]);
        if wanted && j > 0 {
          SolidLast(before, g, v, symbol, ops, init, ops[..j + 1], ops[..j]);
          StillWanted(before, timeline, g, v, symbol, ops);
        }
      }
      assert ops[..0] == [] && ops[0..] == ops;
      ForgetEmpty(symbol, init);
      InOrder();
      return Done;
    }
    /** A token block whose transactions have all been undone is no longer in the timeline. */
    ghost method ForgetEmpty(c: string, init: seq<Program>)
      requires Followed() && Coupled(MATCH_CHAIN, []) && c != MATCH_CHAIN && BlocksOf(timeline, c) == init + [[]]
      modifies this`timeline
      ensures Followed() && Coupled(MATCH_CHAIN, []) && BlocksOf(timeline, c) == init
      ensures forall d :: d != c ==> BlocksOf(timeline, d) == BlocksOf(old(timeline), d)
    {
      hide ConsensusState.Valid, ConsensusState.View, Replays, BlocksOf, Programs, HeightOf;
      timeline := PopEmpty(timeline, world, c, init);
    }

    /** Undo the release that came with the last block of a token chain. */
    method RevertRelease(symbol: string, ghost left: seq<Program>, ghost ops: Program)
      requires ChainsOk() && Followed() && Coupled(MATCH_CHAIN, [])
      requires symbol != MATCH_CHAIN && symbol in chains && Coupled(symbol, []) && chains[symbol].height > 0
      requires BlocksOf(timeline, symbol) == left + [ops + [TokenOp(symbol, Release(chains[symbol].height))]]
      modifies this`timeline, this`world, state`usedMatchIDs, state.tokenStates.Values
      ensures state.Valid() && Followed() && Coupled(MATCH_CHAIN, []) && BlocksOf(timeline, symbol) == left + [ops]
      ensures forall d :: d != symbol ==> BlocksOf(timeline, d) == BlocksOf(old(timeline), d)
      ensures forall d :: d != symbol ==> HeightOf(world, d) == HeightOf(old(world), d)
      ensures HeightOf(world, symbol) == chains[symbol].height - 1
    {
      hide ConsensusState.Valid, ConsensusState.View, Replays, BlocksOf, Programs, Blockchain.Valid, Fits, Undoes, Removable;
      var release := TokenOp(symbol, Release(chains[symbol].height));
      OtherwiseRemovable(world, release);
      var r := Revert(release, symbol, left, ops);
    }

    /** What the last block of a token chain is in the timeline. */
    lemma LastTokenBlock(symbol: string)
      requires ChainsOk() && symbol != MATCH_CHAIN && Coupled(symbol, []) && chains[symbol].blocks != []
      ensures var blocks := chains[symbol].blocks;
        var n := |blocks| - 1;
        var left, ops := Programs(symbol, blocks[..n]), DataOps(symbol, blocks[n].data);
        && chains[symbol].Valid() && chains[symbol].height == n + 1 && |left| == n && OnlyTokenTxs(ops, symbol)
        && GoodBlocks(symbol, blocks[..n]) && (forall c :: c in chains && c != symbol ==> chains[c] != chains[symbol])
        && BlocksOf(timeline, symbol) == left + [ops + [TokenOp(symbol, Release(n + 1))]]
        && (left + [ops + [TokenOp(symbol, Release(n + 1))]])[..n] == left
    {
      hide BlocksOf, Fits, OfChain, Linked, Stores, HashesOf, DataOps, BlockOps, OnlyTokenTxs;
      var blocks := chains[symbol].blocks;
      RemovedBlock(symbol, blocks, BlocksOf(timeline, symbol));
      TokenBlockOps(symbol, blocks[|blocks| - 1].data);
    }

    /** A chain is shorter by its last block. */
    twostate lemma OneBlockLess(symbol: string, new n: nat)
      requires old(ChainsOk()) && chains == old(chains) && symbol in chains && n <= |old(chains[symbol].blocks)|
      requires chains[symbol].Valid() && chains[symbol].blocks == old(chains[symbol].blocks)[..n]
      requires GoodBlocks(symbol, old(chains[symbol].blocks)[..n])
      requires forall c :: c in chains && c != symbol ==> unchanged(chains[c])
      requires timeline == old(timeline) && world == old(world) && symbol != MATCH_CHAIN && old(Coupled(MATCH_CHAIN, []))
      ensures ChainsOk() && Coupled(MATCH_CHAIN, []) && chains[symbol].height == n
    {
      hide Fits, Blockchain.Stored, Programs, BlocksOf, HeightOf;
    }

    lemma NowCoupled(symbol: string)
      requires ChainsOk() && symbol in chains && BlocksOf(timeline, symbol) == Programs(symbol, chains[symbol].blocks)
      requires HeightOf(world, symbol) == chains[symbol].height
      ensures Coupled(symbol, [])
    {
      hide BlocksOf, Programs, HeightOf;
      NoRest(Programs(symbol, chains[symbol].blocks));
    }

    /** Take the last block off a token chain and out of the state. */
    method RemoveTokenBlock(symbol: string, ghost g: Timeline, ghost v: World) returns (r: Outcome)
      requires ChainsOk() && Followed() && Coupled(MATCH_CHAIN, [])
      requires symbol != MATCH_CHAIN && symbol in state.tokenStates && symbol in chains && Coupled(symbol, []) && chains[symbol].blocks != []
      modifies this`timeline, this`world, state`usedMatchIDs, state.tokenStates.Values, chains[MATCH_CHAIN], chains[symbol]
      ensures ChainsOk() && state.Valid()
      ensures r == Done ==> Followed() && Coupled(MATCH_CHAIN, []) && Coupled(symbol, [])
      ensures r == Done ==> forall d :: d != symbol ==> HeightOf(world, d) == HeightOf(old(world), d)
      ensures r == Done ==>
        forall d :: d != MATCH_CHAIN && d != symbol ==> BlocksOf(timeline, d) == BlocksOf(old(timeline), d)
      ensures r == Done ==> chains[symbol].blocks == old(chains[symbol].blocks)[..|old(chains[symbol].blocks)| - 1]
      ensures var blocks := BlocksOf(old(timeline), symbol);
        && blocks != []
        && (r == Done ==> BlocksOf(timeline, symbol) == blocks[..|blocks| - 1])
        && (r == Done ==> Cleared(old(chains[MATCH_CHAIN].blocks), chains[MATCH_CHAIN].blocks, symbol, blocks[|blocks| - 1]))
        && (Wanted(old(timeline), g, v, symbol, blocks[|blocks| - 1]) && |BlocksOf(g, symbol)| < |blocks| ==>
            r == Done && |BlocksOf(g, MATCH_CHAIN)| <= |chains[MATCH_CHAIN].blocks|)
    {
      hide *;
      InOrder();
      LastTokenBlock(symbol);
      var chain := chains[symbol];
      ghost var n, t0, was := |chain.blocks| - 1, timeline, chains[MATCH_CHAIN].blocks;
      ghost var left, ops := Programs(symbol, chain.blocks[..n]), DataOps(symbol, chain.blocks[n].data);
      ghost var release := TokenOp(symbol, Release(n + 1));
      NothingCleared(was, symbol, release);
      RevertRelease(symbol, left, ops);
      if Wanted(t0, g, v, symbol, ops + [release]) && |BlocksOf(g, symbol)| <= n {
        WantedBlockLeft(t0, timeline, g, v, symbol, ops, release, left);
        MatchLength(was, BlocksOf(timeline, MATCH_CHAIN));
      }
      label reverted:
      var removedData := chain.RemoveLastBlock();
      OneBlockLess@reverted(symbol, n);
      ghost var w := world;
      r := RevertTokenBlock(symbol, DataOps(symbol, removedData), left, g, v);
      SameHeights(w, world);
      if r == Done {
        ClearedBoth(was, was, chains[MATCH_CHAIN].blocks, symbol, ops, [release]);
        NowCoupled(symbol);
      }
    }

    /** Cut a token chain at a height, and the MATCH chain before the first block that names an order that is
        undone. */
    method rollbackTokenToHeight(symbol: string, height: nat, ghost g: Timeline, ghost v: World) returns (r: Outcome)
      requires ChainsOk() && Followed() && Coupled(MATCH_CHAIN, [])
      requires symbol != MATCH_CHAIN && symbol in state.tokenStates && symbol in chains && Coupled(symbol, [])
      modifies this`timeline, this`world, state`usedMatchIDs, state.tokenStates.Values, chains[MATCH_CHAIN], chains[symbol]
      ensures ChainsOk() && state.Valid()
      ensures r == Done ==> Followed() && Coupled(MATCH_CHAIN, []) && Coupled(symbol, [])
      ensures r == Done ==> forall d :: d != symbol ==> HeightOf(world, d) == HeightOf(old(world), d)
      ensures r == Done ==>
        forall d :: d != MATCH_CHAIN && d != symbol ==> BlocksOf(timeline, d) == BlocksOf(old(timeline), d)
      ensures r == Done ==>
        var n := |old(chains[symbol].blocks)|;
        chains[symbol].blocks == old(chains[symbol].blocks)[..if height < n then height else n]
      ensures r == Done ==>
        Cleared(old(chains[MATCH_CHAIN].blocks), chains[MATCH_CHAIN].blocks, symbol, From(BlocksOf(old(timeline), symbol), height))
      ensures Wanted(old(timeline), g, v, symbol, From(BlocksOf(old(timeline), symbol), height)) && |BlocksOf(g, symbol)| <= height
        ==> r == Done
    {
      hide *;
      var chain := chains[symbol];
      InOrder();
      ghost var was, all := chain.blocks, BlocksOf(timeline, symbol);
      ghost var match0 := chains[MATCH_CHAIN].blocks;
      ghost var wanted := Wanted(timeline, g, v, symbol, From(all, height)) && |BlocksOf(g, symbol)| <= height;
      TokenLength(symbol, was, all);
      assert was[..|was|] == was && all[..|all|] == all && all[|all|..] == [];
      NothingFrom(all, height);
      NoneCleared(match0, symbol);
      if height >= chain.height {
        return Done;
      }
      if wanted {
        WantedLength(timeline, g, v, symbol, From(all, height));
        MatchLength(match0, BlocksOf(timeline, MATCH_CHAIN));
      }
      var blocksToRemove := chain.height - height;
      for i := 0 to blocksToRemove
        invariant ChainsOk() && Followed() && Coupled(MATCH_CHAIN, []) && Coupled(symbol, [])
        invariant chain.blocks == was[..|was| - i] && BlocksOf(timeline, symbol) == all[..|was| - i]
        invariant forall d :: d != symbol ==> HeightOf(world, d) == HeightOf(old(world), d)
        invariant forall d :: d != MATCH_CHAIN && d != symbol ==> BlocksOf(timeline, d) == BlocksOf(old(timeline), d)
        invariant Cleared(match0, chains[MATCH_CHAIN].blocks, symbol, From(all, |was| - i))
        invariant wanted ==> Wanted(timeline, g, v, symbol, From(all, height))
      {
        ghost var k, before, mid := |was| - i - 1, timeline, chains[MATCH_CHAIN].blocks;
        assert was[..k + 1][..k] == was[..k] && all[..k + 1][..k] == all[..k] && all[..k + 1][k] == all[k];
        MatchLength(mid, BlocksOf(timeline, MATCH_CHAIN));
        if wanted {
          WantedBlock(timeline, g, v, symbol, all, height, k);
        }
        r := RemoveTokenBlock(symbol, g, v);
        if r != Done {
          return r;
        }
        FromNext(all, k);
        ClearedBoth(match0, mid, chains[MATCH_CHAIN].blocks, symbol, all[k], From(all, k + 1));
        MatchLength(chains[MATCH_CHAIN].blocks, BlocksOf(timeline, MATCH_CHAIN));
        ClearedPrefix(mid, chains[MATCH_CHAIN].blocks, symbol, all[k]);
        if wanted {
          WantedOff(before, timeline, g, v, symbol, From(all, height), all, height, k);
        }
      }
      InOrder();
      return Done;
    }

    lemma TokenLength(symbol: string, was: seq<Block>, all: seq<Program>)
      requires ChainsOk() && Coupled(symbol, []) && was == chains[symbol].blocks && all == BlocksOf(timeline, symbol)
      ensures |all| == |was| == chains[symbol].height && all == Programs(symbol, was)
    {
      hide BlocksOf, BlockOps, Linked, Stores, HashesOf, Fits;
      NoRest(Programs(symbol, was));
    }

    lemma MirrorParts(symbol: string)
      requires Mirrors()
      ensures ChainsOk() && Followed() && state.Valid() && Coupled(MATCH_CHAIN, [])
      ensures symbol in chains ==> Coupled(symbol, []) && symbol in state.tokenStates
    {
      hide ConsensusState.Valid, ConsensusState.View, Replays, BlocksOf, Blockchain.Valid, Fits, Programs;
    }

    /** Changing one chain and the MATCH chain leaves the rest of the mirror intact. */
    twostate lemma StillMirrors(symbol: string)
      requires old(Mirrors()) && chains == old(chains) && state.tokenStates == old(state.tokenStates)
      requires symbol in chains && ChainsOk() && Followed() && Coupled(MATCH_CHAIN, []) && Coupled(symbol, [])
      requires forall d :: d != MATCH_CHAIN && d != symbol ==> BlocksOf(timeline, d) == BlocksOf(old(timeline), d)
      requires forall d :: d != symbol ==> HeightOf(world, d) == HeightOf(old(world), d)
      requires forall c :: c in chains && c != symbol && c != MATCH_CHAIN ==> unchanged(chains[c])
      ensures Mirrors()
    {
      hide ConsensusState.Valid, ConsensusState.View, Blockchain.Valid, Replays, BlocksOf, Fits, OfChain, Linked,
           Stores, HashesOf, Programs, HeightOf;
      forall c | c in chains ensures Coupled(c, []) {
        if c != symbol && c != MATCH_CHAIN {
          assert old(Coupled(c, []));
        }
      }
    }

    /** Cross-chain rollback is exact: it goes through if and only if what is cut off has created no token and
        there is a history without it.  Then the state is the replay of exactly the blocks that the chains still
        hold: the chain is cut at the height, the MATCH chain before the first match that names an order that was
        cut off, and no other chain has changed. */
    method RollbackToHeight(symbol: string, height: nat) returns (r: Outcome)
      requires Mirrors()
      modifies this`timeline, this`world, state`usedMatchIDs, state.tokenStates.Values, chains.Values
      ensures ChainsOk() && state.Valid()
      ensures if symbol in chains then r == Done <==> CanCut(old(timeline), symbol, height) else r == Done
      ensures r == Done ==> Mirrors()
      ensures r == Done && symbol in chains ==>
        var n := |old(chains[symbol].blocks)|;
        && chains[symbol].blocks == old(chains[symbol].blocks)[..if height < n then height else n]
        && chains[MATCH_CHAIN].blocks <= old(chains[MATCH_CHAIN].blocks)
        && |chains[MATCH_CHAIN].blocks| == MatchBelow(old(timeline), symbol, height)
        && CutHistory(old(timeline), symbol, height, timeline, world)
      ensures forall c :: c in chains && c != symbol && c != MATCH_CHAIN ==> unchanged(chains[c])
    {
      hide *;
      MirrorParts(symbol);
      if symbol !in chains {
        return Done;
      }
      InOrder();
      OwnObject(symbol);
      OwnObject(MATCH_CHAIN);
      MirrorsKept();
      SolidNode();
      ghost var g, v := [], GENESIS;
      if CanCut(timeline, symbol, height) {
        g, v := HistoryOf(timeline, symbol, height);
      }
      if symbol == MATCH_CHAIN {
        ghost var a := Goal(g, v, "", Order(0, "", 0, 0, Address("")), [], []);
        if CanCut(timeline, symbol, height) {
          NoName();
          HistoryAims(timeline, height, a);
          CutCreatesNothing(timeline, symbol, height);
        }
        ghost var w := world;
        r := rollbackMatchToHeight(height, a);
        SameHeights(w, world);
        if r == Done {
          StillMirrors(symbol);
          MatchIsCut(height);
        }
      } else {
        if CanCut(timeline, symbol, height) {
          CutCreatesNothing(timeline, symbol, height);
          HistoryWanted(timeline, symbol, height, g, v);
        }
        r := rollbackTokenToHeight(symbol, height, g, v);
        if r == Done {
          StillMirrors(symbol);
          TokenIsCut(symbol, height);
        }
      }
    }

    /** Cutting a chain at its height or above changes nothing. */
    lemma WholeHistory(symbol: string, height: nat)
      requires Mirrors() && symbol in chains && height >= |chains[symbol].blocks|
      ensures CanCut(timeline, symbol, height) && CutHistory(timeline, symbol, height, timeline, world)
    {
      hide Mirrors, BlocksOf, Programs, Replays, NoCreates, NamedBy;
      NodeBlocks(symbol);
      NodeBlocks(MATCH_CHAIN);
      var blocks, all := BlocksOf(timeline, symbol), BlocksOf(timeline, MATCH_CHAIN);
      NothingNamed(all, symbol);
      FirstIs(all, |all|, symbol, []);
      assert blocks[..|blocks|] == blocks && all[..|all|] == all;
      assert CutHistory(timeline, symbol, height, timeline, world);
    }

    lemma OwnObject(symbol: string)
      requires ChainsOk() && symbol in chains
      ensures forall c :: c in chains && c != symbol ==> chains[c] != chains[symbol]
    {
      hide Blockchain.Valid, Fits;
    }

    /** The chains of a node and its timeline. */
    lemma NodeBlocks(c: string)
      requires Mirrors()
      ensures c in chains ==> BlocksOf(timeline, c) == Programs(c, chains[c].blocks) && |BlocksOf(timeline, c)| == |chains[c].blocks|
      ensures Replays(timeline, world) && MATCH_CHAIN in chains
    {
      hide ConsensusState.Valid, ConsensusState.View, Replays, BlocksOf, BlockOps, Blockchain.Valid, Fits, HeightOf;
      if c in chains {
        assert Coupled(c, []);
        NoRest(Programs(c, chains[c].blocks));
      }
    }

    twostate lemma MatchIsCut(new height: nat)
      requires old(Mirrors()) && Mirrors()
      requires var n := |old(chains[MATCH_CHAIN].blocks)|;
        chains[MATCH_CHAIN].blocks == old(chains[MATCH_CHAIN].blocks)[..if height < n then height else n]
      requires forall d :: d != MATCH_CHAIN ==> BlocksOf(timeline, d) == BlocksOf(old(timeline), d)
      requires CreateNothing(BlocksOf(old(timeline), MATCH_CHAIN), height)
      ensures CanCut(old(timeline), MATCH_CHAIN, height) && CutHistory(old(timeline), MATCH_CHAIN, height, timeline, world)
      ensures |chains[MATCH_CHAIN].blocks| == MatchBelow(old(timeline), MATCH_CHAIN, height)
    {
      hide Mirrors, BlocksOf, Programs, Replays, NoCreates, ChainsOk, Coupled, Followed;
      NodeBlocks(MATCH_CHAIN);
      OldNodeBlocks(MATCH_CHAIN);
      var was := old(chains[MATCH_CHAIN].blocks);
      ProgramsPrefix(MATCH_CHAIN, was, if height < |was| then height else |was|);
      assert CutHistory(old(timeline), MATCH_CHAIN, height, timeline, world);
    }

    twostate lemma OldNodeBlocks(new c: string)
      requires old(Mirrors())
      ensures c in old(chains) ==> BlocksOf(old(timeline), c) == Programs(c, old(chains[c].blocks))
      ensures c in old(chains) ==> |BlocksOf(old(timeline), c)| == |old(chains[c].blocks)|
      ensures MATCH_CHAIN in old(chains)
    {
      hide ConsensusState.Valid, ConsensusState.View, Replays, BlocksOf, BlockOps, Blockchain.Valid, Fits, HeightOf;
      if c in old(chains) {
        assert old(Coupled(c, []));
        NoRest(Programs(c, old(chains[c].blocks)));
      }
    }

    twostate lemma TokenIsCut(symbol: string, new height: nat)
      requires old(Mirrors()) && Mirrors() && symbol in old(chains) && symbol in chains && symbol != MATCH_CHAIN
      requires var n := |old(chains[symbol].blocks)|;
        chains[symbol].blocks == old(chains[symbol].blocks)[..if height < n then height else n]
      requires Cleared(old(chains[MATCH_CHAIN].blocks), chains[MATCH_CHAIN].blocks, symbol, From(BlocksOf(old(timeline), symbol), height))
      requires forall d :: d != MATCH_CHAIN && d != symbol ==> BlocksOf(timeline, d) == BlocksOf(old(timeline), d)
      ensures CanCut(old(timeline), symbol, height) && CutHistory(old(timeline), symbol, height, timeline, world)
      ensures chains[MATCH_CHAIN].blocks <= old(chains[MATCH_CHAIN].blocks)
      ensures |chains[MATCH_CHAIN].blocks| == MatchBelow(old(timeline), symbol, height)
    {
      hide Mirrors, BlocksOf, Programs, Replays, ChainsOk, Coupled, Followed, From, IsFirst, CreateNothing;
      NodeBlocks(MATCH_CHAIN);
      NodeBlocks(symbol);
      OldNodeBlocks(MATCH_CHAIN);
      OldNodeBlocks(symbol);
      var was, matched, now := old(chains[symbol].blocks), old(chains[MATCH_CHAIN].blocks), chains[MATCH_CHAIN].blocks;
      FirstIs(Programs(MATCH_CHAIN, matched), |now|, symbol, From(BlocksOf(old(timeline), symbol), height));
      assert now == matched[..|now|];
      ProgramsPrefix(MATCH_CHAIN, matched, |now|);
      ProgramsPrefix(symbol, was, if height < |was| then height else |was|);
      assert CutHistory(old(timeline), symbol, height, timeline, world);
    }

    /** A node has no token block without transactions: each releases what was frozen until its height. */
    lemma SolidNode()
      requires Kept()
      ensures Solid(timeline)
    {
      hide ConsensusState.Valid, ConsensusState.View, Replays, BlocksOf, DataOps, OfChain, Blockchain.Valid, HeightOf;
      forall c, i | c != MATCH_CHAIN && 0 <= i < |BlocksOf(timeline, c)| ensures BlocksOf(timeline, c)[i] != [] {
        if c in chains {
          assert Coupled(c, []);
          NoRest(Programs(c, chains[c].blocks));
        }
      }
    }

    // -------------------------------------------------------------- adding a block

    /** Midway through the addition of a block: the state is that of v, and every chain holds what the
        timeline says and the first blocks of the tokens that the block has created so far. */
    ghost predicate Underway(done: Program, v: World)
      reads this, state, state.tokenStates.Values, chains.Values
    {
      ChainsOk() && Shows(v) && Taken(timeline, world, done, v) && AllHolding(done, v)
    }

    ghost predicate Shows(v: World)
      reads this, state, state.tokenStates.Values
    {
      chains.Keys == state.tokenStates.Keys == v.ledger.tokens.Keys && state.Valid() && state.View() == v.ledger
    }

    ghost predicate AllHolding(done: Program, v: World)
      reads this, chains.Values
    {
      && (forall c :: c in chains ==> Holding(c, done, v))
      && (forall c :: c !in chains ==> BlocksOf(timeline, c) + BlocksOf(Births(done), c) == [])
    }

    ghost predicate Holding(c: string, done: Program, v: World)
      requires c in chains
      reads this, chains.Values
    {
      && BlocksOf(timeline, c) + BlocksOf(Births(done), c) == Programs(c, chains[c].blocks)
      && (c != MATCH_CHAIN ==> HeightOf(v, c) == chains[c].height)
    }

    /** Chains and tokens have only been added. */
    twostate predicate Grown()
      reads this, state
    {
      && timeline == old(timeline) && world == old(world)
      && (forall c :: c in old(chains) ==> c in chains && chains[c] == old(chains[c]))
      && (forall c :: c in chains && c !in old(chains) ==> fresh(chains[c]))
      && fresh(state.tokenStates.Values - old(state.tokenStates.Values))
    }

    twostate lemma OnlyGrown()
      requires timeline == old(timeline) && world == old(world)
      requires forall c :: c in old(chains) ==> c in chains && chains[c] == old(chains[c])
      requires forall c :: c in chains && c !in old(chains) ==> fresh(chains[c])
      requires fresh(state.tokenStates.Values - old(state.tokenStates.Values))
      ensures Grown()
    {}

    /** The first block of a new chain is added at once. */
    method AddTokenChain(create: CreateToken, ghost v: World)
      requires state.Valid() && state.View() == v.ledger && create.info.symbol in state.tokenStates
      requires Run(v, GenesisOps(create)).Some?
      modifies this`chains, state.tokenStates.Values
      ensures state.Valid() && state.View() == Run(v, GenesisOps(create)).value.ledger
      ensures chains.Keys == old(chains.Keys) + {create.info.symbol}
      ensures forall c :: c in old(chains) && c != create.info.symbol ==> chains[c] == old(chains[c])
      ensures var chain := chains[create.info.symbol];
        fresh(chain) && chain.Valid() && chain.blocks == [NewTokenGenesisBlock(create)]
    {
      hide ConsensusState.Valid, ConsensusState.View, Linked, Stores, HashesOf, Apply, Run;
      NewBucket();
      RunGenesis(v, create);
      var s := create.info.symbol;
      var chain := new Blockchain(map[], NoHash, []);
      chains := chains[s := chain];
      var block := NewTokenGenesisBlock(create);
      var ok := state.AddClaimFunds(s, block.data.claims[0]);
      assert ok;
      state.ApplyUnfreezesForBlock(s, chain.height + 1);
      chain.AddBlock(block);
    }

    lemma WhileUnderway(done: Program, v: World)
      requires Underway(done, v)
      ensures Inv(v) && state.Valid() && state.View() == v.ledger
    {
      hide Inv, ConsensusState.Valid, ConsensusState.View, ChainsOk, AllHolding;
    }

    twostate lemma SameKeys(done: Program, new v: World)
      requires old(Underway(done, v)) && chains == old(chains)
      requires state.tokenStates.Keys == old(state.tokenStates.Keys)
      ensures chains.Keys == state.tokenStates.Keys
    {}

    /** Create a token and its chain. */
    method AddCreateToken(create: CreateToken, ghost v: World) returns (ok: bool)
      requires state.Valid() && state.View() == v.ledger && Inv(v) && create.info.symbol != MATCH_CHAIN
      modifies this`chains, state, state.tokenStates.Values
      ensures state.Valid() && fresh(state.tokenStates.Values - old(state.tokenStates.Values))
      ensures state.tokenStates.Keys == old(state.tokenStates.Keys) + (if ok then {create.info.symbol} else {})
      ensures ok <==> Take(v, CreateOp(create)).Some?
      ensures !ok ==> chains == old(chains) && state.View() == v.ledger
      ensures ok ==> state.View() == Take(v, CreateOp(create)).value.ledger
      ensures ok ==> chains.Keys == old(chains.Keys) + {create.info.symbol}
      ensures ok ==> forall c :: c in old(chains) && c != create.info.symbol ==> chains[c] == old(chains[c])
      ensures ok ==>
        var chain := chains[create.info.symbol];
        fresh(chain) && chain.Valid() && chain.blocks == [NewTokenGenesisBlock(create)]
    {
      hide ConsensusState.Valid, ConsensusState.View, Inv, Run, Blockchain.Valid, Take, Step, Ledgers.AddCreateToken,
           NewTokenGenesisBlock, GenesisOps;
      TakeCreate(v, create);
      ok := state.AddCreateToken(create);
      if ok {
        AddTokenChain(create, Step(v, CreateOp(create)).value);
      }
    }

    method addCreateToken(create: CreateToken, ghost done: Program, ghost v: World) returns (ok: bool)
      requires Underway(done, v) && create.info.symbol != MATCH_CHAIN
      modifies this`chains, state, state.tokenStates.Values
      ensures Grown()
      ensures ok <==> Take(v, CreateOp(create)).Some?
      ensures ok ==> Underway(done + [CreateOp(create)], Take(v, CreateOp(create)).value)
      ensures !ok ==> state.Valid() && chains.Keys == state.tokenStates.Keys && state.View() == v.ledger
    {
      hide *;
      WhileUnderway(done, v);
      ok := AddCreateToken(create, v);
      if ok {
        UnderwayWithToken(create, done, v);
      } else {
        SameKeys(done, v);
      }
      OnlyGrown();
    }

    /** Make one transaction of a block. */
    method addGenericTransaction(op: Op, uncommitted: UncommittedTransactions, ghost done: Program, ghost v: World)
      returns (ok: bool)
      requires Underway(done, v) && WellFormed(op) && (op.TokenOp? ==> !op.tx.Release?)
      requires uncommitted.transactions == done
      modifies this`chains, state, state.tokenStates.Values, uncommitted
      ensures Grown()
      ensures ok <==> Take(v, op).Some?
      ensures ok ==> Underway(done + [op], Take(v, op).value) && uncommitted.transactions == done + [op]
      ensures !ok ==> uncommitted.transactions == done && state.Valid() && chains.Keys == state.tokenStates.Keys
      ensures !ok ==> state.View() == AfterRefusal(v.ledger, op)
    {
      hide ConsensusState.Valid, ConsensusState.View, AllHolding, ChainsOk, Taken, Take, Make, WellFormed,
           Ledgers.AddCancelOrder;
      if op.CreateOp? {
        CreateNames(op);
        ok := addCreateToken(op.create, done, v);
      } else {
        MadeIsTaken(v, op);
        ok := MakeTransaction(state, op);
        if ok {
          StillUnderway(op, done, v);
        }
      }
      if ok {
        uncommitted.addTransaction(op);
      }
    }

    /** The next transaction is not acceptable, and what its refusal leaves. */
    ghost predicate Refused(done: Program, u: World, op: Op)
      reads this, state, state.tokenStates.Values
    {
      && TakeAll(world, done) == Some(u) && Take(u, op).None?
      && state.Valid() && chains.Keys == state.tokenStates.Keys
      && state.View() == AfterRefusal(u.ledger, op)
    }

    /** Make the transactions of one list of a block, until one is refused. */
    method addTransactions(ops: Program, uncommitted: UncommittedTransactions,
                           ghost done: Program, ghost v: World, ghost all: Program)
      returns (ok: bool, ghost n: nat, ghost u: World)
      requires Underway(done, v) && uncommitted.transactions == done && done + ops <= all && Admissible(all)
      modifies this`chains, state, state.tokenStates.Values, uncommitted
      ensures Grown()
      ensures ok ==> n == |done + ops| && Underway(done + ops, u) && uncommitted.transactions == done + ops
      ensures !ok ==> n < |all| && uncommitted.transactions == all[..n] && Refused(all[..n], u, all[n])
    {
      hide Underway, Take, TakeAll, AfterRefusal, ConsensusState.Valid, ConsensusState.View, WellFormed;
      u := v;
      assert done + ops[..0] == done;
      for i := 0 to |ops|
        invariant Grown()
        invariant uncommitted.transactions == done + ops[..i] && Underway(done + ops[..i], u)
      {
        n := |done| + i;
        assert all[..n] == (done + ops)[..n] == done + ops[..i] && all[n] == (done + ops)[n] == ops[i];
        TakenSoFar(done + ops[..i], u);
        ok := addGenericTransaction(ops[i], uncommitted, done + ops[..i], u);
        if !ok {
          return;
        }
        u := Take(u, ops[i]).value;
        assert done + ops[..i] + [ops[i]] == done + ops[..i + 1];
      }
      assert ops[..|ops|] == ops;
      return true, |done + ops|, u;
    }

    method addTokenData(symbol: string, data: BlockData, uncommitted: UncommittedTransactions)
      returns (ok: bool, ghost n: nat, ghost u: World)
      requires data.TokenData? && Admissible(DataOps(symbol, data))
      requires Underway([], world) && uncommitted.transactions == []
      modifies this`chains, state, state.tokenStates.Values, uncommitted
      ensures Grown()
      ensures ok ==> Underway(DataOps(symbol, data), u) && uncommitted.transactions == DataOps(symbol, data)
      ensures !ok ==> n < |DataOps(symbol, data)| && uncommitted.transactions == DataOps(symbol, data)[..n]
      ensures !ok ==> Refused(DataOps(symbol, data)[..n], u, DataOps(symbol, data)[n])
    {
      hide Underway, Refused, Admissible, ConsensusState.Valid, ConsensusState.View, DataOps,
           ClaimOps, TransferOps, FreezeOps, OrderOps;
      TokenDataParts(symbol, data);
      ghost var all := DataOps(symbol, data);
      ok, n, u := addTransactions(ClaimOps(symbol, data.claims), uncommitted, [], world, all);
      if !ok {
        return;
      }
      ghost var done := [] + ClaimOps(symbol, data.claims);
      ok, n, u := addTransactions(TransferOps(symbol, data.transfers), uncommitted, done, u, all);
      if !ok {
        return;
      }
      done := done + TransferOps(symbol, data.transfers);
      ok, n, u := addTransactions(FreezeOps(symbol, data.freezes), uncommitted, done, u, all);
      if !ok {
        return;
      }
      done := done + FreezeOps(symbol, data.freezes);
      ok, n, u := addTransactions(OrderOps(symbol, data.orders), uncommitted, done, u, all);
    }

    method addMatchData(data: BlockData, uncommitted: UncommittedTransactions)
      returns (ok: bool, ghost n: nat, ghost u: World)
      requires data.MatchData? && Admissible(DataOps(MATCH_CHAIN, data))
      requires Underway([], world) && uncommitted.transactions == []
      modifies this`chains, state, state.tokenStates.Values, uncommitted
      ensures Grown()
      ensures ok ==> Underway(DataOps(MATCH_CHAIN, data), u) && uncommitted.transactions == DataOps(MATCH_CHAIN, data)
      ensures !ok ==> n < |DataOps(MATCH_CHAIN, data)| && uncommitted.transactions == DataOps(MATCH_CHAIN, data)[..n]
      ensures !ok ==> Refused(DataOps(MATCH_CHAIN, data)[..n], u, DataOps(MATCH_CHAIN, data)[n])
    {
      hide Underway, Refused, Admissible, ConsensusState.Valid, ConsensusState.View, DataOps,
           CreateOps, MatchOps, CancelOps;
      MatchDataParts(data);
      ghost var all := DataOps(MATCH_CHAIN, data);
      ok, n, u := addTransactions(CreateOps(data.creates), uncommitted, [], world, all);
      if !ok {
        return;
      }
      ghost var done := [] + CreateOps(data.creates);
      ok, n, u := addTransactions(MatchOps(data.matches), uncommitted, done, u, all);
      if !ok {
        return;
      }
      done := done + MatchOps(data.matches);
      ok, n, u := addTransactions(CancelOps(data.cancels), uncommitted, done, u, all);
    }

    /** Make all transactions of a block, until one is refused. */
    method addBlockData(symbol: string, data: BlockData)
      returns (ok: bool, uncommitted: UncommittedTransactions, ghost n: nat, ghost u: World)
      requires (symbol == MATCH_CHAIN <==> data.MatchData?) && Admissible(DataOps(symbol, data))
      requires Underway([], world)
      modifies this`chains, state, state.tokenStates.Values
      ensures Grown() && fresh(uncommitted)
      ensures ok ==> Underway(DataOps(symbol, data), u)
      ensures !ok ==> n < |DataOps(symbol, data)| && uncommitted.transactions == DataOps(symbol, data)[..n]
      ensures !ok ==> Refused(DataOps(symbol, data)[..n], u, DataOps(symbol, data)[n])
    {
      hide *;
      uncommitted := new UncommittedTransactions();
      label start:
      if symbol == MATCH_CHAIN {
        ok, n, u := addMatchData(data, uncommitted);
      } else {
        ok, n, u := addTokenData(symbol, data, uncommitted);
      }
      GrownMeans@start();
      OnlyGrown();
    }

    // -------------------------------------------------------------- all of the block is accepted

    /** One block more on one chain. */
    twostate lemma OneMoreBlock(symbol: string, new block: Block)
      requires old(ChainsOk()) && chains == old(chains) && symbol in chains && Fits(symbol, block.data)
      requires chains[symbol].Valid() && chains[symbol].blocks == old(chains[symbol].blocks) + [block]
      requires forall c :: c in chains && c != symbol ==> unchanged(chains[c])
      ensures ChainsOk()
    {
      hide Fits, Blockchain.Valid;
    }

    /** The chains and the timeline agree again once both have the block. */
    twostate lemma CoupledAgain(symbol: string, new block: Block, new u: World)
      requires chains == old(chains) && symbol in chains && old(chains[symbol].Valid())
      requires var ops, h := DataOps(symbol, block.data), old(chains[symbol].height) + 1;
        && old(AllHolding(ops, u)) && OfChain(ops, symbol)
        && BlockOps(symbol, block.data, h) == ops + ReleaseOps(symbol, h)
        && timeline == After(old(timeline), symbol, ops, ReleaseOps(symbol, h))
      requires chains[symbol].blocks == old(chains[symbol].blocks) + [block] && chains[symbol].Valid()
      requires forall c :: c in chains && c != symbol ==> unchanged(chains[c])
      requires symbol != MATCH_CHAIN ==> HeightOf(world, symbol) == chains[symbol].height
      requires forall d :: d != symbol ==> HeightOf(world, d) == HeightOf(u, d)
      ensures forall c :: c in chains ==> Coupled(c, [])
      ensures forall c :: c !in chains ==> BlocksOf(timeline, c) == []
    {
      hide BlocksOf, DataOps, BlockOps, Births, After, Programs, HeightOf, OfChain, ReleaseOps, Blockchain.Stored;
      var ops, h := DataOps(symbol, block.data), old(chains[symbol].height) + 1;
      ProgramsAppend(symbol, old(chains[symbol].blocks), block);
      forall c ensures c in chains ==> Coupled(c, [])
               ensures c !in chains ==> BlocksOf(timeline, c) == []
      {
        BlocksCommitted(old(timeline), symbol, ops, ReleaseOps(symbol, h), c);
        if c in chains {
          assert old(Holding(c, ops, u));
          NoRest(BlocksOf(old(timeline), c));
          NoRest(Programs(c, chains[c].blocks));
        }
      }
    }

    lemma ReadyToCommit(symbol: string, ops: Program, u: World)
      requires symbol in chains && Underway(ops, u)
      ensures ChainsOk() && Taken(timeline, world, ops, u) && AllHolding(ops, u) && state.Valid() && state.View() == u.ledger
      ensures symbol in u.ledger.tokens && symbol in state.tokenStates && chains[symbol].Valid()
      ensures chains.Keys == state.tokenStates.Keys
      ensures forall c :: c in chains && c != symbol ==> chains[c] != chains[symbol]
      ensures symbol != MATCH_CHAIN ==> HeightOf(u, symbol) == chains[symbol].height
    {
      hide ConsensusState.Valid, ConsensusState.View, Blockchain.Valid, Taken, BlocksOf, Births, Programs, HeightOf, Fits;
      assert Holding(symbol, ops, u);
    }

    /** Release what is due, and put the block on its chain. */
    method CommitBlock(symbol: string, block: Block, ghost u: World)
      requires symbol in chains && Underway(DataOps(symbol, block.data), u)
      requires Sealed(block) && block.prev == chains[symbol].tipHash && Fits(symbol, block.data)
      modifies this`timeline, this`world, state.tokenStates.Values, chains[symbol]
      ensures Mirrors() && state.Valid()
      ensures timeline == After(old(timeline), symbol, DataOps(symbol, block.data), ReleaseOps(symbol, old(chains[symbol].height) + 1))
      ensures Some(world) == Released(u, symbol, old(chains[symbol].height) + 1)
      ensures chains[symbol].blocks == old(chains[symbol].blocks) + [block]
      ensures forall c :: c in chains && c != symbol ==> unchanged(chains[c])
    {
      hide *;
      ghost var ops := DataOps(symbol, block.data);
      ghost var h := chains[symbol].height;
      ReadyToCommit(symbol, ops, u);
      BlockCommitted(timeline, world, symbol, block.data, u, h);
      if symbol != MATCH_CHAIN {
        state.ApplyUnfreezesForBlock(symbol, chains[symbol].height + 1);
      }
      chains[symbol].AddBlock(block);
      timeline := After(timeline, symbol, ops, ReleaseOps(symbol, h + 1));
      world := Released(u, symbol, h + 1).value;
      OneMoreBlock(symbol, block);
      CoupledAgain(symbol, block, u);
      NowMirrors();
    }

    lemma NowMirrors()
      requires ChainsOk() && state.Valid() && world.ledger == state.View() && Replays(timeline, world)
      requires chains.Keys == state.tokenStates.Keys
      requires forall c :: c in chains ==> Coupled(c, [])
      requires forall c :: c !in chains ==> BlocksOf(timeline, c) == []
      ensures Mirrors()
    {}

    // -------------------------------------------------------------- taking a refused block back

    /** Remove a token and its chain. */
    method rollbackCreateToken(c: CreateToken) returns (panicked: bool)
      requires state.Valid() && chains.Keys == state.tokenStates.Keys
      modifies this`chains, state`tokenStates, state`createdTokens
      ensures state.Valid() && chains.Keys == state.tokenStates.Keys
      ensures state.tokenStates.Values <= old(state.tokenStates.Values)
      ensures forall c :: c in chains ==> c in old(chains) && chains[c] == old(chains[c])
      ensures panicked <==> !CanUndo(old(state.View()), CreateOp(c))
      ensures state.View() == Undone(old(state.View()), CreateOp(c))
    {
      hide *;
      state.ViewTokens();
      CreateUndo(state.View(), c);
      panicked := c.info.symbol !in chains;
      state.RollbackCreateToken(c);
      chains := chains - {c.info.symbol};
    }

    /** Take one transaction back.  No match names an order that has just been placed, so that the
        cascade from an order has nothing to do. */
    method rollbackGenericTransaction(op: Op) returns (panicked: bool)
      requires state.Valid() && WellFormed(op) && !op.CancelOp? && (op.TokenOp? ==> !op.tx.Release?)
      requires chains.Keys == state.tokenStates.Keys
      requires op.TokenOp? ==> CanUndo(state.View(), op)
      modifies this`chains, state, state.tokenStates.Values
      ensures state.Valid() && chains.Keys == state.tokenStates.Keys
      ensures state.tokenStates.Values <= old(state.tokenStates.Values)
      ensures forall c :: c in chains ==> c in old(chains) && chains[c] == old(chains[c])
      ensures panicked <==> !CanUndo(old(state.View()), op)
      ensures !panicked ==> state.View() == Undone(old(state.View()), op)
    {
      hide ConsensusState.Valid, ConsensusState.View, Undone, CanUndo, WellFormed;
      if op.CreateOp? {
        panicked := rollbackCreateToken(op.create);
      } else {
        panicked := TakeBack(state, op);
      }
    }

    /** Take back what a block had done before it was refused, last transaction first.  Without a
        cancellation that restores the state; with one, it restores the state but for the cancellation,
        unless a match names the cancelled order. */
    method undoTransactions(uncommitted: UncommittedTransactions, ghost w: World, ghost c: Option<CancelOrder>)
      returns (panicked: bool)
      requires state.Valid() && chains.Keys == state.tokenStates.Keys
      requires Inv(w) && Admissible(uncommitted.transactions) && TakeAll(w, uncommitted.transactions).Some?
      requires c.None? ==> state.View() == TakeAll(w, uncommitted.transactions).value.ledger
      requires c.Some? ==>
        && OfChain(uncommitted.transactions, MATCH_CHAIN)
        && Ledgers.AddCancelOrder(TakeAll(w, uncommitted.transactions).value.ledger, c.value) == Some(state.View())
      modifies this`chains, state, state.tokenStates.Values
      ensures state.Valid() && chains.Keys == state.tokenStates.Keys
      ensures forall c :: c in chains ==> c in old(chains) && chains[c] == old(chains[c])
      ensures c.None? ==> !panicked && state.View() == w.ledger
      ensures c.Some? ==>
        && (panicked <==> exists i :: 0 <= i < |uncommitted.transactions| && NamesOrder(uncommitted.transactions[i], c.value))
        && (!panicked ==> Ledgers.AddCancelOrder(w.ledger, c.value) == Some(state.View()))
    {
      hide ConsensusState.Valid, ConsensusState.View, Inv, TakeAll, Take, Undone, CanUndo, WellFormed, Ledgers.AddCancelOrder,
           NamesOrder;
      var ops := uncommitted.transactions;
      var j := |ops|;
      assert ops[..j] == ops;
      while j > 0
        invariant 0 <= j <= |ops| && uncommitted.transactions == ops
        invariant state.Valid() && chains.Keys == state.tokenStates.Keys
        invariant state.tokenStates.Values <= old(state.tokenStates.Values)
        invariant forall c :: c in chains ==> c in old(chains) && chains[c] == old(chains[c])
        invariant TakeAll(w, ops[..j]).Some?
        invariant c.None? ==> state.View() == TakeAll(w, ops[..j]).value.ledger
        invariant c.Some? ==>
          && (forall i :: j <= i < |ops| ==> !NamesOrder(ops[i], c.value))
          && Ledgers.AddCancelOrder(TakeAll(w, ops[..j]).value.ledger, c.value) == Some(state.View())
      {
        j := j - 1;
        LastTaken(w, ops, j);
        if c.Some? {
          MatchTransaction(ops[j]);
          CancelPastUndo(TakeAll(w, ops[..j]).value, ops[j], c.value);
        }
        panicked := rollbackGenericTransaction(ops[j]);
        if panicked {
          return;
        }
      }
      assert ops[..0] == [];
      NothingTaken(w);
      panicked := false;
    }

    /** A block was refused: take back what it had done. */
    method RefuseBlock(uncommitted: UncommittedTransactions, ghost c: string, ghost ops: Program, ghost n: nat, ghost u: World)
      returns (r: Verdict)
      requires n < |ops| && uncommitted.transactions == ops[..n] && Refused(ops[..n], u, ops[n])
      requires Admissible(ops) && OfChain(ops, c) && Inv(world)
      modifies this`chains, state, state.tokenStates.Values
      ensures state.Valid() && chains.Keys == state.tokenStates.Keys
      ensures forall c :: c in chains ==> c in old(chains) && chains[c] == old(chains[c])
      ensures r != Added && TakeAll(world, ops).None?
      ensures !CancelReached(world, ops) ==> r == Rejected && state.View() == world.ledger
      ensures CancelReached(world, ops) ==> CancelLeaves(world, ops, n, r == Aborted, state.View())
    {
      hide ConsensusState.Valid, ConsensusState.View, Inv, TakeAll, Take, AfterRefusal, CancelReached, CancelsAt, WellFormed,
           ChainOf, OfChain, Ledgers.AddCancelOrder, NamesOrder;
      RefusalIs(world, c, ops, n, u);
      ghost var cancel := if CancelReached(world, ops) then Some(ops[n].cancel) else None;
      var panicked := undoTransactions(uncommitted, world, cancel);
      if panicked {
        return Aborted;
      }
      return Rejected;
    }

    /** The block names the last block of its chain. */
    ghost predicate Follows(symbol: string, block: Block)
      reads this, chains.Values
    {
      symbol in chains && block.prev == chains[symbol].tipHash
    }

    /** The block follows, and all its transactions are acceptable. */
    ghost predicate Takes(symbol: string, block: Block)
      reads this, chains.Values
    {
      Follows(symbol, block) && TakeAll(world, DataOps(symbol, block.data)).Some?
    }

    /** The block follows, and it cancels an open order before it is refused. */
    ghost predicate Cancels(symbol: string, block: Block)
      reads this, chains.Values
    {
      Follows(symbol, block) && CancelReached(world, DataOps(symbol, block.data))
    }

    lemma Terms(symbol: string, block: Block)
      ensures Follows(symbol, block) <==> symbol in chains && block.prev == chains[symbol].tipHash
      ensures Takes(symbol, block) <==> Follows(symbol, block) && TakeAll(world, DataOps(symbol, block.data)).Some?
      ensures Cancels(symbol, block) <==> Follows(symbol, block) && CancelReached(world, DataOps(symbol, block.data))
    {}

    lemma StartsUnderway()
      requires Mirrors()
      ensures Underway([], world) && Inv(world) && state.Valid() && state.View() == world.ledger
      ensures chains.Keys == state.tokenStates.Keys
    {
      hide ConsensusState.Valid, ConsensusState.View, Replays, BlocksOf, Births, Inv, Programs, HeightOf,
           Blockchain.Valid, Fits, ChainsOk;
      ReplayInv(timeline, world);
      state.ViewTokens();
      NothingTaken(world);
      forall c ensures BlocksOf(timeline, c) + BlocksOf(Births([]), c) == BlocksOf(timeline, c) {
        NoBirthsAtAll(c);
        NoRest(BlocksOf(timeline, c));
      }
      forall c | c in chains ensures Holding(c, [], world) {
        assert Coupled(c, []);
        NoRest(Programs(c, chains[c].blocks));
      }
    }

    twostate lemma GrownMeans()
      requires Grown()
      ensures timeline == old(timeline) && world == old(world)
      ensures forall c :: c in old(chains) ==> c in chains && chains[c] == old(chains[c])
      ensures forall c :: c in chains && c !in old(chains) ==> fresh(chains[c])
      ensures fresh(state.tokenStates.Values - old(state.tokenStates.Values))
    {}

    /** Once the chains and the ledger are what they were, everything is. */
    twostate lemma MirrorsAgain()
      requires old(Mirrors()) && timeline == old(timeline) && world == old(world)
      requires state.Valid() && state.View() == world.ledger && chains.Keys == state.tokenStates.Keys
      requires forall c :: c in chains && c in old(chains) ==> chains[c] == old(chains[c])
      requires forall c :: c in old(chains) ==> unchanged(old(chains[c]))
      ensures chains == old(chains) && Mirrors()
    {
      hide *;
      state.ViewTokens();
      OldKeys();
      assert chains == old(chains);
      ChainsStill();
      NowMirrors();
    }

    twostate lemma ChainsStill()
      requires old(Mirrors()) && timeline == old(timeline) && world == old(world) && chains == old(chains)
      requires forall c :: c in chains ==> unchanged(chains[c])
      ensures ChainsOk() && Replays(timeline, world)
      ensures forall c :: c in chains ==> Coupled(c, [])
      ensures forall c :: c !in chains ==> BlocksOf(timeline, c) == []
    {
      hide ConsensusState.Valid, ConsensusState.View, Replays, BlocksOf, Programs, HeightOf, Blockchain.Valid, Fits;
      forall c | c in chains ensures Coupled(c, []) {
        assert old(Coupled(c, []));
      }
    }

    twostate lemma OldKeys()
      requires old(Mirrors())
      ensures old(chains.Keys) == old(world.ledger.tokens.Keys)
    {
      hide ConsensusState.Valid, TokenState.View, Replays, Coupled, ChainsOk;
    }

    /** What a block that was not added leaves. */
    twostate predicate NotAdded(new symbol: string, new block: Block, new r: Verdict)
      reads this, state, state.tokenStates.Values, chains.Values
    {
      && timeline == old(timeline) && world == old(world)
      && (!old(Cancels(symbol, block)) ==>
          r == Rejected && Mirrors() && chains == old(chains) && state.View() == old(state.View()))
      && (old(Cancels(symbol, block)) ==>
          && CancelStays(world, DataOps(symbol, block.data), r == Aborted, state.View())
          && (r == Rejected ==> state.View() != old(state.View()) && Strayed()))
      && (r == Rejected ==> chains == old(chains) && chains.Keys == state.tokenStates.Keys)
    }

    /** What a block that was added leaves: it is on its chain, its transactions have been made, and what was
        frozen until the new height has been released. */
    twostate predicate IsAdded(new symbol: string, new block: Block)
      reads this, state, state.tokenStates.Values, chains.Values
    {
      && Mirrors() && symbol in old(chains)
      && (forall c :: c in old(chains) ==> c in chains && chains[c] == old(chains[c]))
      && (forall c :: c in chains && c !in old(chains) ==> fresh(chains[c]))
      && fresh(state.tokenStates.Values - old(state.tokenStates.Values))
      && chains[symbol].blocks == old(chains[symbol].blocks) + [block]
      && var h, ops := old(chains[symbol].height), DataOps(symbol, block.data);
      && TakeAll(old(world), ops).Some?
      && Some(world) == Released(TakeAll(old(world), ops).value, symbol, h + 1)
      && timeline == After(old(timeline), symbol, ops, ReleaseOps(symbol, h + 1))
    }

    /** Whether the transactions of a block are acceptable decides whether there is a next world. */
    lemma NextOfNode(symbol: string, data: BlockData)
      requires Mirrors() && symbol in chains && Fits(symbol, data)
      ensures Next(world, symbol, data).Some? <==> TakeAll(world, DataOps(symbol, data)).Some?
    {
      hide ConsensusState.Valid, ConsensusState.View, Replays, BlocksOf, Programs, TakeAll, DataOps, OfChain, Blockchain.Valid, Apply,
           Released, HeightOf;
      if TakeAll(world, DataOps(symbol, data)).Some? {
        NodeKeys();
        FitsMeans(symbol, data);
        TakenStays(world, DataOps(symbol, data), symbol);
        ReleasedAlways(TakeAll(world, DataOps(symbol, data)).value, symbol, HeightOf(world, symbol));
      }
    }

    twostate lemma Addition(new symbol: string, new block: Block)
      requires IsAdded(symbol, block)
      ensures Mirrors() && symbol in old(chains)
      ensures forall c :: c in old(chains) ==> c in chains && chains[c] == old(chains[c])
      ensures forall c :: c in chains && c !in old(chains) ==> fresh(chains[c])
      ensures fresh(state.tokenStates.Values - old(state.tokenStates.Values))
      ensures chains[symbol].blocks == old(chains[symbol].blocks) + [block]
      ensures var h, ops := old(chains[symbol].height), DataOps(symbol, block.data);
        && TakeAll(old(world), ops).Some?
        && Some(world) == Released(TakeAll(old(world), ops).value, symbol, h + 1)
        && timeline == After(old(timeline), symbol, ops, ReleaseOps(symbol, h + 1))
    {
      hide Mirrors, TakeAll, DataOps, Released, ReleaseOps, After;
    }

    lemma NodeKeys()
      requires Mirrors()
      ensures chains.Keys == world.ledger.tokens.Keys
    {
      hide ConsensusState.Valid, ConsensusState.View, ChainsOk, Coupled, Replays;
      state.ViewTokens();
    }

    /** Add a block, or nothing of it: unless it cancels an order before it is refused, a block that is
        refused leaves state and chains as they were.  If it does cancel one, the cancellation stays. */
    method AddBlock(symbol: string, block: Block) returns (r: Verdict)
      requires Mirrors() && Sealed(block) && (symbol in chains ==> Fits(symbol, block.data))
      modifies this, state, state.tokenStates.Values, chains.Values
      ensures state.Valid()
      ensures r == Added <==> old(Takes(symbol, block))
      ensures if r == Added then IsAdded(symbol, block) else NotAdded(symbol, block, r)
      ensures forall c :: c in old(chains) && (r == Added ==> c != symbol) ==> unchanged(old(chains[c]))
    {
      hide *;
      Terms(symbol, block);
      StartsUnderway();
      if symbol !in chains || chains[symbol].tipHash != block.prev {
        NothingDone(symbol, block);
        return Rejected;
      }
      ghost var u;
      r, u := takeBlock(symbol, block);
      if r == Added {
        GrownMeans();
        TakenSoFar(DataOps(symbol, block.data), u);
        CommitBlock(symbol, block, u);
        AddedEnds(symbol, block, u);
      }
    }

    /** Make the transactions of a block that follows, or take them back. */
    method takeBlock(symbol: string, block: Block) returns (r: Verdict, ghost u: World)
      requires Mirrors() && Follows(symbol, block) && Fits(symbol, block.data)
      modifies this`chains, state, state.tokenStates.Values
      ensures state.Valid()
      ensures r == Added <==> old(Takes(symbol, block))
      ensures r == Added ==> Grown() && Underway(DataOps(symbol, block.data), u)
      ensures r != Added ==> NotAdded(symbol, block, r)
    {
      hide *;
      Terms(symbol, block);
      StartsUnderway();
      AdmissibleBlock(symbol, block.data);
      var ok, uncommitted; ghost var n;
      ok, uncommitted, n, u := addBlockData(symbol, block.data);
      if ok {
        WhileUnderway(DataOps(symbol, block.data), u);
        TakenSoFar(DataOps(symbol, block.data), u);
        return Added, u;
      }
      GrownMeans();
      r := RefuseBlock(uncommitted, symbol, DataOps(symbol, block.data), n, u);
      RefusedEnds(symbol, block, n, r);
    }

    twostate lemma NothingDone(new symbol: string, new block: Block)
      requires old(Mirrors()) && !old(Follows(symbol, block)) && unchanged(this) && unchanged(state)
      requires forall c :: c in chains ==> unchanged(chains[c])
      requires forall s :: s in state.tokenStates ==> unchanged(state.tokenStates[s])
      ensures NotAdded(symbol, block, Rejected)
    {
      hide ConsensusState.Valid, ConsensusState.View, ChainsOk, Followed, Coupled, CancelReached;
    }

    twostate lemma RefusedEnds(new symbol: string, new block: Block, new n: nat, new r: Verdict)
      requires old(Mirrors()) && old(Follows(symbol, block)) && timeline == old(timeline) && world == old(world)
      requires state.Valid() && chains.Keys == state.tokenStates.Keys && r != Added
      requires forall c :: c in chains && c in old(chains) ==> chains[c] == old(chains[c])
      requires forall c :: c in old(chains) ==> unchanged(old(chains[c]))
      requires var ops := DataOps(symbol, block.data);
        && (!CancelReached(world, ops) ==> r == Rejected && state.View() == world.ledger)
        && (CancelReached(world, ops) ==> CancelLeaves(world, ops, n, r == Aborted, state.View()))
      ensures NotAdded(symbol, block, r)
    {
      hide Mirrors, ConsensusState.Valid, ConsensusState.View, CancelReached, CancelLeaves, CancelStays, DataOps;
      var ops := DataOps(symbol, block.data);
      SameLedger();
      if !CancelReached(world, ops) {
        MirrorsAgain();
      } else {
        CancelStaysAt(world, ops, n, r == Aborted, state.View());
        if r == Rejected {
          OnlyCancelled(ops, n);
          ChainsStill();
          NowStrayed(ops, n);
        }
      }
    }

    lemma NowStrayed(ops: Program, n: nat)
      requires ChainsOk() && state.Valid() && Replays(timeline, world) && chains.Keys == state.tokenStates.Keys
      requires CancelLeaves(world, ops, n, false, state.View())
      requires forall c :: c in chains ==> Coupled(c, [])
      requires forall c :: c !in chains ==> BlocksOf(timeline, c) == []
      ensures Strayed()
    {
      hide ConsensusState.Valid, ConsensusState.View, ChainsOk, Replays, Coupled, BlocksOf, TakeAll, Ledgers.AddCancelOrder, NamesOrder;
    }

    twostate lemma SameLedger()
      requires old(Mirrors())
      ensures old(state.View()) == old(world).ledger
    {
      hide ConsensusState.Valid, ConsensusState.View, ChainsOk, Coupled, Replays;
    }

    twostate lemma AddedEnds(new symbol: string, new block: Block, new u: World)
      requires symbol in old(chains) && symbol in chains && Mirrors() && TakeAll(old(world), DataOps(symbol, block.data)) == Some(u)
      requires forall c :: c in old(chains) ==> c in chains && chains[c] == old(chains[c])
      requires forall c :: c in chains && c !in old(chains) ==> fresh(chains[c])
      requires fresh(state.tokenStates.Values - old(state.tokenStates.Values))
      requires chains[symbol].blocks == old(chains[symbol].blocks) + [block]
      requires var h := old(chains[symbol].height);
        && Some(world) == Released(u, symbol, h + 1)
        && timeline == After(old(timeline), symbol, DataOps(symbol, block.data), ReleaseOps(symbol, h + 1))
      ensures IsAdded(symbol, block)
    {
      hide Mirrors, TakeAll, DataOps, Released;
    }

    /** A cancellation changes neither the tokens that there are nor the chains. */
    twostate lemma OnlyCancelled(new ops: Program, new n: nat)
      requires old(Mirrors()) && world == old(world) && state.Valid() && chains.Keys == state.tokenStates.Keys
      requires CancelLeaves(world, ops, n, false, state.View())
      requires forall c :: c in chains && c in old(chains) ==> chains[c] == old(chains[c])
      ensures chains == old(chains) && state.View() != old(state.View())
    {
      hide ConsensusState.Valid, ConsensusState.View, Replays, ChainsOk, Coupled, TakeAll, Ledgers.AddCancelOrder, NamesOrder;
      CancelKeys(world.ledger, ops[n].cancel);
      state.ViewTokens();
      OldKeys();
    }

    lemma TakenSoFar(done: Program, v: World)
      requires Underway(done, v)
      ensures TakeAll(world, done) == Some(v)
    {
      hide Inv, ConsensusState.Valid, ConsensusState.View, ChainsOk, AllHolding, TakeAll;
    }

    /** A new chain object beside the others. */
    twostate lemma OneMoreChain(s: string)
      requires old(ChainsOk()) && s !in old(chains)
      requires forall d :: d in old(chains) ==> unchanged(old(chains[d]))
      requires chains.Keys == old(chains.Keys) + {s}
      requires forall d :: d in old(chains) && d != s ==> chains[d] == old(chains[d])
      requires fresh(chains[s]) && chains[s].Valid() && GoodBlocks(s, chains[s].blocks)
      ensures forall d :: d in old(chains) ==> d in chains && chains[d] == old(chains[d]) && unchanged(chains[d])
      ensures ChainsOk()
    {
      hide Linked, Stores, HashesOf, Fits;
    }

    /** A new token: its chain holds the first block, which stands for what has been done already. */
    twostate lemma HoldingToken(c: CreateToken, new done: Program, new v: World)
      requires old(AllHolding(done, v)) && timeline == old(timeline) && c.info.symbol !in old(chains)
      requires c.info.symbol != MATCH_CHAIN && Take(v, CreateOp(c)).Some?
      requires chains.Keys == old(chains.Keys) + {c.info.symbol}
      requires forall d :: d in old(chains) ==> chains[d] == old(chains[d]) && unchanged(chains[d])
      requires chains[c.info.symbol].blocks == [NewTokenGenesisBlock(c)] && chains[c.info.symbol].height == 1
      ensures AllHolding(done + [CreateOp(c)], Take(v, CreateOp(c)).value)
    {
      hide BlocksOf, Births, Take, Programs, HeightOf, Blockchain.Valid, GenesisOps, NewTokenGenesisBlock;
      var s, op := c.info.symbol, CreateOp(c);
      TakeHeights(v, op);
      FirstBlockOps(c);
      BirthOfToken(timeline, done, c);
      forall d | d in chains ensures Holding(d, done + [op], Take(v, op).value) {
        if d != s {
          assert old(Holding(d, done, v));
        }
      }
    }

    twostate lemma UnderwayWithToken(c: CreateToken, new done: Program, new v: World)
      requires old(Underway(done, v)) && timeline == old(timeline) && world == old(world)
      requires forall d :: d in old(chains) ==> unchanged(old(chains[d]))
      requires c.info.symbol != MATCH_CHAIN && Take(v, CreateOp(c)).Some?
      requires state.Valid() && state.View() == Take(v, CreateOp(c)).value.ledger
      requires chains.Keys == old(chains.Keys) + {c.info.symbol}
      requires forall d :: d in old(chains) && d != c.info.symbol ==> chains[d] == old(chains[d])
      requires var chain := chains[c.info.symbol];
        fresh(chain) && chain.Valid() && chain.blocks == [NewTokenGenesisBlock(c)]
      ensures forall d :: d in old(chains) ==> d in chains && chains[d] == old(chains[d])
      ensures Underway(done + [CreateOp(c)], Take(v, CreateOp(c)).value)
    {
      hide ConsensusState.Valid, ConsensusState.View, Inv, Take, TakeAll, Replays, AllHolding, ChainsOk, GoodBlocks,
           Blockchain.Stored, NewTokenGenesisBlock, WellFormed;
      TakenKeys(v, c);
      WellFormedCreate(c);
      FirstBlockOps(c);
      state.ViewTokens();
      TakenMore(timeline, world, done, v, CreateOp(c));
      OneMoreChain(c.info.symbol);
      HoldingToken(c, done, v);
    }

    /** What a transaction that creates no token leaves as it was. */
    twostate lemma StillUnderway(op: Op, new done: Program, new v: World)
      requires old(Underway(done, v)) && unchanged(this) && state.tokenStates == old(state.tokenStates)
      requires forall c :: c in chains ==> unchanged(chains[c])
      requires !op.CreateOp? && (op.TokenOp? ==> !op.tx.Release?) && WellFormed(op)
      requires Take(v, op).Some? && state.Valid() && state.View() == Take(v, op).value.ledger
      ensures Underway(done + [op], Take(v, op).value)
    {
      hide ConsensusState.Valid, ConsensusState.View, Replays, BlocksOf, Births, Inv, Take, Programs, TakeAll,
           Blockchain.Valid, Fits, HeightOf, Taken, WellFormed;
      state.ViewTokens();
      TakenMore(timeline, world, done, v, op);
      TakeHeights(v, op);
      NoBirth(done, op);
      forall c | c in chains ensures Holding(c, done + [op], Take(v, op).value) {
        assert old(Holding(c, done, v));
      }
    }
  }

  // ---------------------------------------------------------------- the state is a function of the chains

  /** The timeline of a node has no empty token block. */
  lemma SubstantialNode(n: Blockchains)
    requires n.Kept()
    ensures Substantial(n.timeline)
  {
    hide Blockchains.Kept, BlocksOf;
    n.SolidNode();
    SubstantialBlocks(n.timeline);
  }

  twostate lemma BlockLeads(n: Blockchains, new symbol: string, new block: Block)
    requires old(n.Mirrors()) && n.IsAdded(symbol, block)
    ensures n.Mirrors() && Some(n.world) == Next(old(n.world), symbol, block.data)
  {
    hide *;
    n.Addition(symbol, block);
    OldHeight(n, symbol);
    NextIs(old(n.world), symbol, block.data, old(n.chains[symbol].height));
  }

  twostate lemma OldHeight(n: Blockchains, new symbol: string)
    requires old(n.Mirrors()) && symbol in old(n.chains)
    ensures symbol != MATCH_CHAIN ==> HeightOf(old(n.world), symbol) == old(n.chains[symbol].height)
  {
    hide ConsensusState.Valid, ConsensusState.View, Replays, BlocksOf, Fits, Programs, HeightOf;
  }

  /** Two nodes whose chains hold the same blocks have the same consensus state, however each came by
      them: in whatever order blocks arrived, were refused, or were rolled back and added again. */
  lemma SameChainsSameState(a: Blockchains, b: Blockchains)
    requires a.Mirrors() && b.Mirrors() && a.chains.Keys == b.chains.Keys
    requires forall c :: c in a.chains ==> a.chains[c].blocks == b.chains[c].blocks
    ensures a.state.View() == b.state.View() && a.world == b.world
  {
    hide ConsensusState.Valid, ConsensusState.View, Replays, BlocksOf, Programs, Blockchain.Valid, HeightOf, Fits;
    a.MirrorsKept();
    b.MirrorsKept();
    SubstantialNode(a);
    SubstantialNode(b);
    forall c ensures BlocksOf(a.timeline, c) == BlocksOf(b.timeline, c) {
      if c in a.chains {
        assert a.Coupled(c, []) && b.Coupled(c, []);
      }
    }
    BlocksDetermineWorld(a.timeline, a.world, b.timeline, b.world);
  }

  /** The lists of a block, one after the other. */
  lemma TokenDataParts(s: string, data: BlockData)
    requires data.TokenData?
    ensures var all, a, b, c := DataOps(s, data), [] + ClaimOps(s, data.claims), TransferOps(s, data.transfers), FreezeOps(s, data.freezes);
      a <= all && a + b <= all && a + b + c <= all && a + b + c + OrderOps(s, data.orders) == all
  {
    hide ClaimOps, TransferOps, FreezeOps, OrderOps;
  }

  lemma MatchDataParts(data: BlockData)
    requires data.MatchData?
    ensures var all, a, b := DataOps(MATCH_CHAIN, data), [] + CreateOps(data.creates), MatchOps(data.matches);
      a <= all && a + b <= all && a + b + CancelOps(data.cancels) == all
  {
    hide CreateOps, MatchOps, CancelOps;
  }

  lemma WellFormedCreate(c: CreateToken)
    requires c.info.symbol != MATCH_CHAIN
    ensures WellFormed(CreateOp(c))
  {}

  /** The last of the transactions that were accepted, and how to take it back. */
  lemma LastTaken(w: World, ops: Program, j: nat)
    requires Inv(w) && j < |ops| && Admissible(ops) && TakeAll(w, ops[..j + 1]).Some?
    ensures TakeAll(w, ops[..j]).Some? && !ops[j].CancelOp? && WellFormed(ops[j]) && Inv(TakeAll(w, ops[..j]).value)
    ensures Take(TakeAll(w, ops[..j]).value, ops[j]) == TakeAll(w, ops[..j + 1])
    ensures CanUndo(TakeAll(w, ops[..j + 1]).value.ledger, ops[j])
    ensures Undone(TakeAll(w, ops[..j + 1]).value.ledger, ops[j]) == TakeAll(w, ops[..j]).value.ledger
  {
    hide Inv, Take, TakeAll, Undone, CanUndo, WellFormed;
    TakeNext(w, ops, j);
    var v := TakeAll(w, ops[..j]).value;
    TakeAllInv(w, ops[..j]);
    UndoTaken(v, ops[j]);
    NotTaken(v, ops[j]);
  }

  lemma CancelStaysAt(w: World, ops: Program, n: nat, panicked: bool, l: Ledger)
    requires CancelLeaves(w, ops, n, panicked, l)
    ensures CancelStays(w, ops, panicked, l)
  {
    hide CancelLeaves;
  }

  lemma CreateUndo(l: Ledger, c: CreateToken)
    ensures CanUndo(l, CreateOp(c)) <==> c.info.symbol in l.tokens
    ensures Undone(l, CreateOp(c)) == Ledgers.RollbackCreateToken(l, c)
  {}

  /** A block that fits its chain holds only transactions that a block can hold. */
  lemma AdmissibleBlock(symbol: string, data: BlockData)
    requires Fits(symbol, data)
    ensures Admissible(DataOps(symbol, data)) && OfChain(DataOps(symbol, data), symbol)
    ensures data.MatchData? <==> symbol == MATCH_CHAIN
  {}

  lemma NotTaken(w: World, op: Op)
    requires Take(w, op).Some?
    ensures !op.CancelOp?
  {}

  lemma FitsMeans(c: string, data: BlockData)
    requires Fits(c, data)
    ensures AllWellFormed(DataOps(c, data)) && OfChain(DataOps(c, data), c)
    ensures forall i :: 0 <= i < |DataOps(c, data)| && DataOps(c, data)[i].TokenOp? ==> !DataOps(c, data)[i].tx.Release?
  {}

  /** The transactions of a block remove no token and leave the height of its chain. */
  lemma {:induction false} TakenStays(w: World, ops: Program, c: string)
    requires OfChain(ops, c) && TakeAll(w, ops).Some? && c in w.ledger.tokens
    requires forall i :: 0 <= i < |ops| && ops[i].TokenOp? ==> !ops[i].tx.Release?
    ensures c in TakeAll(w, ops).value.ledger.tokens
    ensures c != MATCH_CHAIN ==> HeightOf(TakeAll(w, ops).value, c) == HeightOf(w, c)
    decreases |ops|
  {
    hide Take, WellFormed;
    if ops != [] {
      var n := |ops| - 1;
      TakenStays(w, ops[..n], c);
      assert ChainOf(ops[n]) == c;
      TakeStays(TakeAll(w, ops[..n]).value, ops[n], c);
    }
  }

  lemma ReleasedAlways(w: World, c: string, h: nat)
    requires c in w.ledger.tokens && (c != MATCH_CHAIN ==> HeightOf(w, c) == h)
    ensures Released(w, c, h + 1).Some?
  {
    hide ApplyUnfreezes;
  }

  lemma TakeStays(w: World, op: Op, c: string)
    requires Take(w, op).Some? && c in w.ledger.tokens && ChainOf(op) == c && (op.TokenOp? ==> !op.tx.Release?)
    ensures c in Take(w, op).value.ledger.tokens && (c != MATCH_CHAIN ==> HeightOf(Take(w, op).value, c) == HeightOf(w, c))
  {
    hide Apply, ApplySide, Accepts, Run, NewToken;
    TakeHeights(w, op);
    if op.CreateOp? {
      KeysWithGenesis(w, op.create, c);
    }
  }

  lemma KeysWithGenesis(w: World, create: CreateToken, c: string)
    requires Take(w, CreateOp(create)).Some? && c in w.ledger.tokens
    ensures c in Take(w, CreateOp(create)).value.ledger.tokens
  {
    hide Apply, Run, NewToken;
    var w1 := Step(w, CreateOp(create)).value;
    GenesisIsLocal(w1, create);
    var v := Take(w, CreateOp(create)).value;
    if c != create.info.symbol {
      assert c in w1.ledger.tokens - {create.info.symbol};
      assert c in v.ledger.tokens - {create.info.symbol};
    }
  }

  lemma NothingReleasedOnMatch(w: World, h: nat)
    ensures Released(w, MATCH_CHAIN, h) == Some(w) && ReleaseOps(MATCH_CHAIN, h) == []
  {}

  lemma NothingTaken(w: World)
    ensures TakeAll(w, []) == Some(w)
  {}

  ghost predicate Admissible(ops: Program) {
    forall i :: 0 <= i < |ops| ==> WellFormed(ops[i]) && (ops[i].TokenOp? ==> !ops[i].tx.Release?)
  }

  lemma CreateNames(op: Op)
    requires op.CreateOp? && WellFormed(op)
    ensures op.create.info.symbol != MATCH_CHAIN
  {}

  lemma NoNames(blocks: seq<Program>, s: string, id: u64)
    requires NamesIn(blocks, s, id) > 0
    ensures blocks != []
  {}

  lemma ProgramsPrefix(c: string, blocks: seq<Block>, n: nat)
    requires n <= |blocks|
    ensures |Programs(c, blocks)| == |blocks|
    ensures Programs(c, blocks[..n]) == Programs(c, blocks)[..n]
  {
    hide BlockOps;
  }

  /** An order that no match has touched can be taken back. */
  lemma Untouched(w: World, symbol: string, order: Order)
    requires symbol in w.ledger.tokens && Count(w.ledger.tokens[symbol], order.id) == 0
    ensures Removable(w, TokenOp(symbol, Place(order)))
  {}

  lemma OtherwiseRemovable(w: World, op: Op)
    requires op.TokenOp? && !op.tx.Place?
    ensures Removable(w, op)
  {}

  ghost predicate OnlyTokenTxs(ops: seq<Op>, symbol: string) {
    forall i :: 0 <= i < |ops| ==> ops[i].TokenOp? && ops[i].symbol == symbol && !ops[i].tx.Release?
  }

  lemma TokenBlockOps(symbol: string, data: BlockData)
    requires symbol != MATCH_CHAIN && OfChain(DataOps(symbol, data), symbol)
    ensures OnlyTokenTxs(DataOps(symbol, data), symbol)
  {
    var ops := DataOps(symbol, data);
    forall i | 0 <= i < |ops| ensures ops[i].TokenOp? && ops[i].symbol == symbol && !ops[i].tx.Release? {
      assert ChainOf(ops[i]) == symbol;
    }
  }

  lemma NewBucket()
    ensures Linked([]) && Stores(map[], []) && TipOf([]) == NoHash && Programs(MATCH_CHAIN, []) == []
  {}

  lemma ReplayNothing()
    ensures Replays([], GENESIS)
  {}

  lemma NotOfToken(op: Op)
    requires WellFormed(op) && ChainOf(op) == MATCH_CHAIN
    ensures !op.TokenOp?
  {}

  /** The last block of a chain, taken off it. */
  lemma RemovedBlock(c: string, blocks: seq<Block>, programs: seq<Program>)
    requires blocks != [] && GoodBlocks(c, blocks) && programs == Programs(c, blocks) + []
    ensures var n := |blocks| - 1;
      && GoodBlocks(c, blocks[..n]) && OfChain(DataOps(c, blocks[n].data), c)
      && programs == Programs(c, blocks[..n]) + [BlockOps(c, blocks[n].data, n + 1)]
      && (c == MATCH_CHAIN ==> BlockOps(c, blocks[n].data, n + 1) == DataOps(c, blocks[n].data))
      && (c != MATCH_CHAIN ==>
          BlockOps(c, blocks[n].data, n + 1) == DataOps(c, blocks[n].data) + [TokenOp(c, Release(n + 1))])
  {
    hide DataOps, OfChain;
    ProgramsDrop(c, blocks);
    NoRest(Programs(c, blocks));
    NoRest(DataOps(c, blocks[|blocks| - 1].data));
  }

  lemma RemovableMatch(w: World, m: Match)
    ensures Removable(w, MatchOp(m)) <==> Covered(w.ledger, m)
    ensures Covered(w.ledger, m) ==> OrdersKnown(w.ledger, m) && PaymentsUnclaimed(w.ledger, m)
  {
    hide Named;
  }

  /** What is left of the MATCH chain once orders are to be undone: what comes before the first block with a
      match that names one of them.  The others have created no token. */
  ghost predicate Cleared(was: seq<Block>, now: seq<Block>, s: string, ops: Program) {
    && now <= was && IsFirst(Programs(MATCH_CHAIN, was), |now|, s, ops)
    && CreateNothing(Programs(MATCH_CHAIN, was), |now|)
  }

  lemma ClearedAt(was: seq<Block>, k: nat, s: string, ops: Program)
    requires k <= |was| && IsFirst(Programs(MATCH_CHAIN, was), k, s, ops) && CreateNothing(Programs(MATCH_CHAIN, was), k)
    ensures Cleared(was, was[..k], s, ops)
  {}

  lemma HistoryOf(t: Timeline, s: string, h: nat) returns (g: Timeline, v: World)
    requires CanCut(t, s, h)
    ensures CutHistory(t, s, h, g, v)
  {
    hide CutHistory, CreateNothing;
    g, v :| CutHistory(t, s, h, g, v);
  }

  lemma CutCreatesNothing(t: Timeline, s: string, h: nat)
    requires CanCut(t, s, h)
    ensures CreateNothing(BlocksOf(t, MATCH_CHAIN), MatchBelow(t, s, h))
    ensures s == MATCH_CHAIN ==> CreateNothing(BlocksOf(t, MATCH_CHAIN), h)
  {
    hide CutHistory, BlocksOf, FirstNamed, NoCreates;
  }

  lemma SameHeights(w: World, v: World)
    ensures w.heights == v.heights ==> forall d :: HeightOf(w, d) == HeightOf(v, d)
  {}

  lemma MatchName()
    ensures MATCH_CHAIN == "MATCH"
  {}

  lemma NoName()
    ensures "" != MATCH_CHAIN
  {}

  lemma NoneCleared(was: seq<Block>, s: string)
    ensures Cleared(was, was, s, [])
  {
    hide BlockOps;
    NothingNamed(Programs(MATCH_CHAIN, was), s);
  }

  lemma NothingCleared(was: seq<Block>, s: string, op: Op)
    requires !(op.TokenOp? && op.tx.Place?)
    ensures Cleared(was, was, s, [op])
  {
    hide BlockOps;
    NoOrderNamed(Programs(MATCH_CHAIN, was), s, op);
  }

  lemma ClearedBoth(was: seq<Block>, mid: seq<Block>, now: seq<Block>, s: string, a: Program, b: Program)
    requires Cleared(was, mid, s, b) && Cleared(mid, now, s, a)
    ensures Cleared(was, now, s, a + b)
  {
    hide BlockOps, NamedBy, NoCreates;
    ProgramsPrefix(MATCH_CHAIN, was, |mid|);
    assert mid == was[..|mid|];
    var all := Programs(MATCH_CHAIN, was);
    FirstOfBoth(all, |mid|, |now|, s, a, b);
    forall i | |now| <= i < |all| ensures NoCreates(all[i]) {
      if i < |mid| {
        assert all[..|mid|][i] == all[i];
      }
    }
  }

  lemma ClearedPrefix(was: seq<Block>, now: seq<Block>, s: string, ops: Program)
    requires Cleared(was, now, s, ops)
    ensures Programs(MATCH_CHAIN, now) <= Programs(MATCH_CHAIN, was)
  {
    hide BlockOps, NamedBy, NoCreates;
    ProgramsPrefix(MATCH_CHAIN, was, |now|);
    assert now == was[..|now|];
  }

  lemma NothingFrom(blocks: seq<Program>, h: nat)
    ensures From(blocks, |blocks|) == [] && (h >= |blocks| ==> From(blocks, h) == [])
    ensures h < |blocks| ==> From(blocks, h) == Joined(blocks[h..])
  {}

  lemma FromNext(blocks: seq<Program>, k: nat)
    requires k < |blocks|
    ensures From(blocks, k) == blocks[k] + From(blocks, k + 1)
  {
    JoinedFrom(blocks, k);
    hide Joined;
    if k + 1 == |blocks| {
      NothingJoined();
      assert blocks[k + 1..] == [];
    }
  }

  lemma NothingJoined()
    ensures Joined([]) == []
  {}

  lemma PlaceOnly(op: Op)
    requires op.TokenOp? && op.tx.Place?
    ensures op == TokenOp(op.symbol, Place(op.tx.order))
  {}

  lemma OffMatch(op: Op)
    requires op.TokenOp? && op.symbol != MATCH_CHAIN
    ensures !(op.TokenOp? && op.symbol == MATCH_CHAIN)
  {}

  lemma OnlyTokenTx(ops: seq<Op>, symbol: string, j: nat)
    requires OnlyTokenTxs(ops, symbol) && j < |ops|
    ensures ops[j].TokenOp? && ops[j].symbol == symbol && !ops[j].tx.Release?
  {}

  /** The release is undone, and the block has transactions left or none. */
  lemma WantedBlockLeft(t: Timeline, t': Timeline, g: Timeline, v: World, s: string, ops: Program, release: Op, left: seq<Program>)
    requires Wanted(t, g, v, s, ops + [release]) && BlocksOf(t, s) == left + [ops + [release]] && |BlocksOf(g, s)| <= |left|
    requires BlocksOf(t', s) == left + [ops] && forall d :: d != s ==> BlocksOf(t', d) == BlocksOf(t, d)
    ensures BlocksOf(g, s) <= left && |BlocksOf(g, MATCH_CHAIN)| <= |BlocksOf(t', MATCH_CHAIN)|
    ensures ops != [] ==> Wanted(t', g, v, s, ops)
  {
    hide BlocksOf, Replays, Spared, Unnamed;
    WantedLength(t, g, v, s, ops + [release]);
    assert BlocksOf(g, s) <= BlocksOf(t, s);
    assert BlocksOf(g, s) == (left + [ops + [release]])[..|BlocksOf(g, s)|] == left[..|BlocksOf(g, s)|];
    if ops != [] {
      WantedBegin(t, g, v, s, ops, [release]);
      SolidLast(t, g, v, s, ops, left, ops + [release], ops);
      hide Keeps, Wanted;
      StillWanted(t, t', g, v, s, ops);
    }
  }

  /** A block of the chain is off. */
  lemma WantedOff(t: Timeline, t': Timeline, g: Timeline, v: World, s: string, ops: Program, all: seq<Program>, h: nat, k: nat)
    requires Wanted(t, g, v, s, ops) && h <= k < |all| && BlocksOf(t, s) == all[..k + 1] && BlocksOf(t', s) == all[..k]
    requires |BlocksOf(g, s)| <= h && BlocksOf(t', MATCH_CHAIN) <= BlocksOf(t, MATCH_CHAIN)
    requires |BlocksOf(g, MATCH_CHAIN)| <= |BlocksOf(t', MATCH_CHAIN)|
    requires forall d :: d != MATCH_CHAIN && d != s ==> BlocksOf(t', d) == BlocksOf(t, d)
    ensures Wanted(t', g, v, s, ops)
  {
    hide BlocksOf, Replays, Spared, Unnamed;
    assert BlocksOf(g, s) <= BlocksOf(t, s);
    assert BlocksOf(g, s) == all[..k + 1][..|BlocksOf(g, s)|] == all[..k][..|BlocksOf(g, s)|];
    forall i | 0 <= i < k ensures all[..k][i] != [] {
      assert all[..k][i] == all[..k + 1][i] == BlocksOf(t, s)[i];
    }
    StillWanted(t, t', g, v, s, ops);
  }

  lemma CreatesNoMore(all: seq<Program>, k: nat)
    requires k < |all| && CreateNothing(all, k + 1)
    ensures NoCreates(all[k]) <==> CreateNothing(all, k)
  {
    hide NoCreates;
  }

  lemma NoCreatesAt(all: seq<Program>, h: nat, k: nat)
    requires h <= k < |all|
    ensures CreateNothing(all, h) ==> NoCreates(all[k])
  {
    hide NoCreates;
  }

  lemma NoneAbove(all: seq<Program>, h: nat)
    requires h >= |all|
    ensures CreateNothing(all, h)
  {}

  lemma NothingCut(all: seq<Program>)
    ensures CreateNothing(all, |all|)
  {}

  lemma NotCreated(w: World, op: Op)
    ensures Removable(w, op) ==> !op.CreateOp?
  {}

  lemma NeverRemovable(w: World, op: Op)
    requires op.CreateOp?
    ensures !Removable(w, op)
  {}

  /** The world without a transaction. */
  ghost predicate Undoes(w: World, op: Op, v: World) {
    && (op.TokenOp? ==> op.symbol in w.ledger.tokens && (op.tx.Release? ==> op.tx.height > 0))
    && (op.MatchOp? ==> OrdersKnown(w.ledger, op.m) && op.m.buySymbol != op.m.sellSymbol)
    && v == UndoOp(w, op)
  }

  /** What was made last is undone, as long as it creates nothing. */
  lemma LastIsUndone(u: World, ops: Program, j: nat, w: World)
    requires Inv(u) && AllWellFormed(ops) && j < |ops| && Run(u, ops[..j + 1]) == Some(w) && !ops[j].CreateOp?
    ensures Removable(w, ops[j])
    ensures forall v :: Undoes(w, ops[j], v) ==> Run(u, ops[..j]) == Some(v)
  {
    hide Inv, Run, Removable, UndoOp, OrdersKnown;
    UndoLast(u, ops, j, w);
  }
}
