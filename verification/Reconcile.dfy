/** Reconciling a chain with that of a peer: find the highest block in common, roll back to it, and add
    the peer's blocks after it.  The peer is honest: its list of hashes is that of a chain of the height
    that it claims, and a block that it sends has the hash that was asked for.  It need not answer. */
module Reconcile {
  import opened Amounts
  import opened Transactions
  import opened Ledgers
  import opened Commutation
  import opened Survival
  import opened TokenGenesis
  import opened Timelines
  import opened ConsensusStates
  import opened Chains
  import opened Admission
  import opened Multichain

  /** How many blocks two chains have in common. */
  function Common(a: seq<Block>, b: seq<Block>): (n: nat)
    ensures n <= |a| && n <= |b| && a[..n] == b[..n]
    ensures n < |a| && n < |b| ==> a[n] != b[n]
    decreases |a|
  {
    if a == [] || b == [] || a[0] != b[0] then 0
    else
      var n := Common(a[1..], b[1..]);
      assert a[..n + 1] == [a[0]] + a[1..][..n] && b[..n + 1] == [b[0]] + b[1..][..n];
      n + 1
  }

  lemma PrefixAt(a: seq<Block>, b: seq<Block>, n: nat, i: nat)
    requires n <= |a| && n <= |b| && a[..n] == b[..n] && i < n
    ensures a[i] == b[i]
  {
    assert a[..n][i] == a[i] && b[..n][i] == b[i];
  }

  /** A block at the same height with the same hash is a block in common; one with another hash is not. */
  lemma CommonAt(a: seq<Block>, b: seq<Block>, h: nat)
    requires Linked(a) && Linked(b) && 0 < h <= |a| && h <= |b|
    ensures a[h - 1].hash == b[h - 1].hash ==> h <= Common(a, b)
    ensures a[h - 1].hash != b[h - 1].hash ==> Common(a, b) < h
  {
    hide Linked;
    var n := Common(a, b);
    if a[h - 1].hash == b[h - 1].hash {
      SameHashSamePrefix(a, b, h - 1, h - 1);
      if n < h {
        PrefixAt(a, b, h, n);
      }
    } else if h <= n {
      PrefixAt(a, b, n, h - 1);
    }
  }

  /** The n-th block of a peer's chain, counted from its newest. */
  lemma HashAt(blocks: seq<Block>, i: nat)
    requires i < |blocks|
    ensures |HashesOf(blocks)| == |blocks| && HashesOf(blocks)[i] == blocks[|blocks| - 1 - i].hash
  {}

  datatype Fork = At(height: nat) | MoreHashesNeeded | NilBlock

  /** Walk back from the tip until a block has the hash that the peer has at the same height. */
  method FindFork(chain: Blockchain, theirBlockhashes: seq<Hash>, theirHeight: nat, ghost theirs: seq<Block>) returns (r: Fork)
    requires chain.Valid() && chain.height < theirHeight
    requires Linked(theirs) && theirHeight == |theirs| && theirBlockhashes == HashesOf(theirs)
    ensures Common(chain.blocks, theirs) > 0 ==> r == At(Common(chain.blocks, theirs))
    ensures Common(chain.blocks, theirs) == 0 ==> r == NilBlock
    ensures r.At? ==>
      && 0 < r.height <= chain.height && chain.height == |chain.blockhashes| && theirHeight == |theirBlockhashes|
      && chain.blockhashes[chain.height - r.height] == theirBlockhashes[theirHeight - r.height]
  {
    hide Linked, Stores, HashesOf, TipOf, Common;
    HashAt(theirs, 0);
    var height := chain.height;
    var theirIdx := theirHeight - chain.height;
    var bci := new BlockchainIterator(chain);
    ghost var mine := chain.blocks;
    LinkedChain(chain);
    var found, block := bci.Prev(height);
    while theirIdx < |theirBlockhashes| && found && block.hash != theirBlockhashes[theirIdx]
      invariant height <= |mine| && theirIdx == theirHeight - height && (found <==> height > 0)
      invariant chain.Valid() && chain.blocks == mine
      invariant found ==> block == mine[height - 1] && bci.At(height - 1)
      invariant Common(mine, theirs) <= height
      decreases height
    {
      HashAt(theirs, theirIdx);
      CommonAt(mine, theirs, height);
      height := height - 1;
      theirIdx := theirIdx + 1;
      found, block := bci.Prev(height);
    }
    if theirIdx > |theirBlockhashes| {
      return MoreHashesNeeded;
    }
    if !found {
      return NilBlock;
    }
    HashAt(theirs, theirIdx);
    CommonAt(mine, theirs, height);
    HashAt(mine, |mine| - height);
    return At(height);
  }

  lemma LinkedChain(chain: Blockchain)
    requires chain.Valid()
    ensures Linked(chain.blocks) && chain.height == |chain.blocks|
  {}

  /** How a reconciliation ends. */
  datatype Result =
    | Reconciled
    | NoChain
    | NotNecessary
    | NoFork(fork: Fork)
    | NotRolledBack(outcome: Outcome)
    | NoAnswer
    | Conflict(verdict: Verdict)

  /** What the peer answers when it is asked for a block: that block, if anything. */
  ghost predicate Honest(peer: map<Hash, Block>) {
    forall h :: h in peer ==> Sealed(peer[h]) && peer[h].hash == h
  }

  lemma AnsweredWith(peer: map<Hash, Block>, theirs: seq<Block>, i: nat)
    requires Honest(peer) && Linked(theirs) && i < |theirs| && theirs[i].hash in peer
    ensures peer[theirs[i].hash] == theirs[i]
  {}

  /** The next block of the peer fits the chain that holds all the ones before it. */
  lemma NextOfPeer(symbol: string, theirs: seq<Block>, i: nat)
    requires Linked(theirs) && GoodBlocks(symbol, theirs) && i < |theirs|
    ensures Sealed(theirs[i]) && Fits(symbol, theirs[i].data)
    ensures theirs[..i] + [theirs[i]] == theirs[..i + 1]
  {
    hide Fits;
  }

  /** No block cancels an order. */
  predicate Cancelless(blocks: seq<Block>) {
    forall i :: 0 <= i < |blocks| && blocks[i].data.MatchData? ==> blocks[i].data.cancels == []
  }

  lemma NeverCancels(bcs: Blockchains, symbol: string, theirs: seq<Block>, i: nat)
    requires i < |theirs|
    ensures Cancelless(theirs) ==> !bcs.Cancels(symbol, theirs[i])
  {}

  /** The world after blocks of a chain have been added, if all of them can be. */
  function Feed(w: World, c: string, blocks: seq<Block>): Option<World>
    decreases |blocks|
  {
    if blocks == [] then Some(w)
    else match Feed(w, c, blocks[..|blocks| - 1])
      case None => None
      case Some(u) => Next(u, c, blocks[|blocks| - 1].data)
  }

  lemma FeedMore(w: World, c: string, blocks: seq<Block>, h: nat, i: nat)
    requires h <= i < |blocks|
    ensures Feed(w, c, blocks[h..i + 1]) ==
      (match Feed(w, c, blocks[h..i]) case None => None case Some(u) => Next(u, c, blocks[i].data))
  {
    hide Next;
    assert blocks[h..i + 1][..i - h] == blocks[h..i];
  }

  lemma FeedNothing(w: World, c: string, blocks: seq<Block>, h: nat)
    requires h <= |blocks|
    ensures Feed(w, c, blocks[h..h]) == Some(w)
  {}

  /** From w, which has the first h of the peer's blocks, the download came as far as k and stopped there: at
      the end, at a block that the peer did not send, or at one that could not be added. */
  ghost predicate Fetched(w: World, c: string, theirs: seq<Block>, peer: map<Hash, Block>, h: nat, k: nat, r: Result) {
    && h <= k <= |theirs| && (forall i :: h <= i < k ==> theirs[i].hash in peer)
    && var u := Feed(w, c, theirs[h..k]);
    && u.Some?
    && match r
       case Reconciled => k == |theirs|
       case NoAnswer => k < |theirs| && theirs[k].hash !in peer
       case Conflict(_) => k < |theirs| && theirs[k].hash in peer && Next(u.value, c, theirs[k].data).None?
       case _ => false
  }

  /** The world of a history of what stays when the chain is cut. */
  ghost predicate Stays(t: Timeline, symbol: string, height: nat, w: World) {
    exists g :: CutHistory(t, symbol, height, g, w)
  }

  /** Reconcile a chain with a peer whose chain is longer.  If any of the peer's blocks is there at all,
      the chain is cut back to the highest one, if it can be, and then follows the peer's as far as its blocks
      are sent and can be added: however far it comes, it is a prefix of the peer's chain. */
  method reconcileChain(bcs: Blockchains, symbol: string, theirBlockhashes: seq<Hash>, theirHeight: nat,
                        peer: map<Hash, Block>, ghost theirs: seq<Block>)
    returns (r: Result, ghost w: World)
    requires bcs.Mirrors()
    requires Linked(theirs) && GoodBlocks(symbol, theirs) && Honest(peer)
    requires theirHeight == |theirs| && theirBlockhashes == HashesOf(theirs)
    modifies bcs, bcs.state, bcs.state.tokenStates.Values, bcs.chains.Values
    ensures r == NoChain <==> symbol !in old(bcs.chains)
    ensures r == NotNecessary <==> r != NoChain && theirHeight <= |old(bcs.chains[symbol].blocks)|
    ensures r.NoFork? <==>
      r != NoChain && r != NotNecessary && Common(old(bcs.chains[symbol].blocks), theirs) == 0
    ensures r.NoFork? ==> r.fork == NilBlock
    ensures r == NoChain || r == NotNecessary || r.NoFork? ==>
      bcs.Mirrors() && bcs.chains == old(bcs.chains) && forall c :: c in bcs.chains ==> unchanged(bcs.chains[c])
    ensures r.NotRolledBack? <==>
      && r != NoChain && r != NotNecessary && !r.NoFork?
      && !CanCut(old(bcs.timeline), symbol, Common(old(bcs.chains[symbol].blocks), theirs))
    ensures r.Reconciled? || r.NoAnswer? || r.Conflict? ==>
      var was, now := old(bcs.chains[symbol].blocks), old(bcs.chains[symbol]).blocks;
      && now <= theirs && Stays(old(bcs.timeline), symbol, Common(was, theirs), w)
      && Fetched(w, symbol, theirs, peer, Common(was, theirs), |now|, r)
    ensures r.Reconciled? ==> symbol in bcs.chains && bcs.chains[symbol].blocks == theirs
    ensures r.Reconciled? || r.NoAnswer? ==> bcs.Mirrors()
    ensures r.Conflict? && Cancelless(theirs) ==> bcs.Mirrors()
  {
    hide *;
    w := bcs.world;
    if symbol !in bcs.chains {
      return NoChain, w;
    }
    var chain := bcs.chains[symbol];
    InGoodOrder(bcs, symbol);
    if theirHeight <= chain.height {
      return NotNecessary, w;
    }
    var fork := FindFork(chain, theirBlockhashes, theirHeight, theirs);
    if !fork.At? {
      return NoFork(fork), w;
    }
    ghost var was, t := chain.blocks, bcs.timeline;
    assert was[..|was|] == was && was[..fork.height] == theirs[..fork.height];
    if fork.height != chain.height {
      var outcome := bcs.RollbackToHeight(symbol, fork.height);
      if outcome != Done {
        return NotRolledBack(outcome), w;
      }
    } else {
      bcs.WholeHistory(symbol, fork.height);
    }
    w := bcs.world;
    StaysSo(t, symbol, fork.height, bcs.timeline, w);
    r := Download(bcs, symbol, fork.height, theirBlockhashes, theirHeight, peer, theirs);
  }

  lemma StaysSo(t: Timeline, symbol: string, height: nat, g: Timeline, w: World)
    requires CutHistory(t, symbol, height, g, w)
    ensures Stays(t, symbol, height, w)
  {
    hide CutHistory;
  }

  lemma InGoodOrder(bcs: Blockchains, symbol: string)
    requires bcs.Mirrors() && symbol in bcs.chains
    ensures bcs.chains[symbol].Valid() && bcs.chains[symbol].height == |bcs.chains[symbol].blocks|
    ensures bcs.chains[symbol].tipHash == TipOf(bcs.chains[symbol].blocks)
  {
    hide ConsensusState.Valid, Linked, Stores, HashesOf, TipOf, Fits;
  }

  /** The peer's next block names the last block of the chain. */
  lemma FollowsTheirs(theirs: seq<Block>, i: nat)
    requires Linked(theirs) && i < |theirs|
    ensures theirs[i].prev == TipOf(theirs[..i])
  {
    hide TipOf, Sealed;
  }

  /** Whether a block that follows can be added depends on the world. */
  lemma TakesIfNext(bcs: Blockchains, symbol: string, block: Block)
    requires bcs.Mirrors() && symbol in bcs.chains && block.prev == bcs.chains[symbol].tipHash && Fits(symbol, block.data)
    ensures bcs.Takes(symbol, block) <==> Next(bcs.world, symbol, block.data).Some?
  {
    hide Blockchains.Mirrors, TakeAll, DataOps, Fits, Released;
    bcs.NextOfNode(symbol, block.data);
  }

  twostate lemma NotTaken(bcs: Blockchains, new symbol: string, new block: Block, new r: Verdict)
    requires bcs.NotAdded(symbol, block, r)
    ensures bcs.world == old(bcs.world) && (!old(bcs.Cancels(symbol, block)) ==> bcs.Mirrors())
  {
    hide Blockchains.Mirrors, Blockchains.Strayed, ConsensusState.View, CancelStays, DataOps;
  }

  /** Fetch the peer's blocks above a height one by one, and add them. */
  method Download(bcs: Blockchains, symbol: string, height: nat, theirBlockhashes: seq<Hash>, theirHeight: nat,
                  peer: map<Hash, Block>, ghost theirs: seq<Block>)
    returns (r: Result)
    requires bcs.Mirrors() && symbol in bcs.chains
    requires Linked(theirs) && GoodBlocks(symbol, theirs) && Honest(peer)
    requires theirHeight == |theirs| && theirBlockhashes == HashesOf(theirs)
    requires height <= theirHeight && bcs.chains[symbol].blocks == theirs[..height]
    modifies bcs, bcs.state, bcs.state.tokenStates.Values, bcs.chains.Values
    ensures var now := old(bcs.chains[symbol]).blocks;
      now <= theirs && Fetched(old(bcs.world), symbol, theirs, peer, height, |now|, r)
    ensures r.Reconciled? || r.NoAnswer? || r.Conflict?
    ensures r.Reconciled? ==> symbol in bcs.chains && bcs.chains[symbol].blocks == theirs
    ensures r.Reconciled? || r.NoAnswer? ==> bcs.Mirrors()
    ensures r.Conflict? && Cancelless(theirs) ==> bcs.Mirrors()
  {
    hide *;
    var chain := bcs.chains[symbol];
    var theirIdx := theirHeight - height;
    FeedNothing(bcs.world, symbol, theirs, height);
    for i := height to theirHeight
      invariant bcs.Mirrors() && symbol in bcs.chains && bcs.chains[symbol] == chain
      invariant theirIdx == theirHeight - i && chain.blocks == theirs[..i]
      invariant forall j :: height <= j < i ==> theirs[j].hash in peer
      invariant Feed(old(bcs.world), symbol, theirs[height..i]) == Some(bcs.world)
      invariant forall c :: c in bcs.chains ==> bcs.chains[c] in old(bcs.chains.Values) || fresh(bcs.chains[c])
      invariant forall o :: o in bcs.state.tokenStates.Values ==> o in old(bcs.state.tokenStates.Values) || fresh(o)
    {
      theirIdx := theirIdx - 1;
      HashAt(theirs, theirIdx);
      if theirBlockhashes[theirIdx] !in peer {
        FetchedSo(old(bcs.world), symbol, theirs, peer, height, i, NoAnswer);
        return NoAnswer;
      }
      var verdict := AddFetched(bcs, symbol, peer, theirBlockhashes[theirIdx], theirs, i);
      FeedMore(old(bcs.world), symbol, theirs, height, i);
      if verdict != Added {
        FetchedSo(old(bcs.world), symbol, theirs, peer, height, i, Conflict(verdict));
        return Conflict(verdict);
      }
    }
    assert theirs[..theirHeight] == theirs;
    FetchedSo(old(bcs.world), symbol, theirs, peer, height, theirHeight, Reconciled);
    return Reconciled;
  }

  lemma FetchedSo(w: World, c: string, theirs: seq<Block>, peer: map<Hash, Block>, h: nat, k: nat, r: Result)
    requires h <= k <= |theirs| && (forall i :: h <= i < k ==> theirs[i].hash in peer) && Feed(w, c, theirs[h..k]).Some?
    requires r.Reconciled? || r.NoAnswer? || r.Conflict?
    requires r.Reconciled? ==> k == |theirs|
    requires r.NoAnswer? ==> k < |theirs| && theirs[k].hash !in peer
    requires r.Conflict? ==>
      k < |theirs| && theirs[k].hash in peer && Next(Feed(w, c, theirs[h..k]).value, c, theirs[k].data).None?
    ensures Fetched(w, c, theirs, peer, h, k, r)
  {
    hide Next, Feed;
  }

  /** Add the block that the peer has sent for a hash: its i-th. */
  method AddFetched(bcs: Blockchains, symbol: string, peer: map<Hash, Block>, hash: Hash, ghost theirs: seq<Block>, ghost i: nat)
    returns (verdict: Verdict)
    requires bcs.Mirrors() && symbol in bcs.chains && hash in peer
    requires Linked(theirs) && GoodBlocks(symbol, theirs) && Honest(peer) && i < |theirs| && hash == theirs[i].hash
    requires bcs.chains[symbol].blocks == theirs[..i]
    modifies bcs, bcs.state, bcs.state.tokenStates.Values, bcs.chains.Values
    ensures verdict == Added <==> Next(old(bcs.world), symbol, theirs[i].data).Some?
    ensures verdict == Added ==>
      && bcs.Mirrors() && symbol in bcs.chains && bcs.chains[symbol] == old(bcs.chains[symbol])
      && bcs.chains[symbol].blocks == theirs[..i + 1] && Some(bcs.world) == Next(old(bcs.world), symbol, theirs[i].data)
    ensures verdict != Added ==> bcs.world == old(bcs.world) && old(bcs.chains[symbol]).blocks == theirs[..i]
    ensures verdict != Added && Cancelless(theirs) ==> bcs.Mirrors()
    ensures verdict == Added ==> forall c :: c in bcs.chains ==> bcs.chains[c] in old(bcs.chains.Values) || fresh(bcs.chains[c])
    ensures verdict == Added ==>
      forall o :: o in bcs.state.tokenStates.Values ==> o in old(bcs.state.tokenStates.Values) || fresh(o)
  {
    hide *;
    InGoodOrder(bcs, symbol);
    AnsweredWith(peer, theirs, i);
    NextOfPeer(symbol, theirs, i);
    NeverCancels(bcs, symbol, theirs, i);
    FollowsTheirs(theirs, i);
    TakesIfNext(bcs, symbol, theirs[i]);
    verdict := bcs.AddBlock(symbol, peer[hash]);
    if verdict == Added {
      bcs.Addition(symbol, theirs[i]);
      BlockLeads(bcs, symbol, theirs[i]);
    } else {
      NotTaken(bcs, symbol, theirs[i], verdict);
    }
  }
}
