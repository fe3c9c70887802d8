/** Restarting a node: the blocks of all stored chains are replayed, chain by chain in whatever order the
    chains come up, each as far as it goes, until every chain is done.  Nothing is released from the
    frozen funds on the way, and a token that is created gets the chain that is stored for it. */
module Restart {
  import opened Amounts
  import opened Transactions
  import opened TokenLedger
  import opened Ledgers
  import opened Commutation
  import opened Schedules
  import opened Timelines
  import opened Determinism
  import opened TokenGenesis
  import opened ConsensusStates
  import opened Chains
  import opened Admission
  import opened GenericTransactions
  import opened Recovery

  datatype Bucket = Bucket(store: map<Hash, Block>, last: Hash)

  /** What a node can have stored: blocks that fit their chains and cancel nothing. */
  ghost predicate Storable(contents: map<string, seq<Block>>) {
    forall c, i :: c in contents && 0 <= i < |contents[c]| ==> Restorable(c, contents[c][i].data)
  }

  ghost predicate Restorable(c: string, data: BlockData) {
    Fits(c, data) && NoCancels(DataOps(c, data))
  }

  lemma StorableBacklog(contents: map<string, seq<Block>>)
    requires Storable(contents)
    ensures WellFormedBacklog(ReplayBacklog(contents))
  {
    hide DataOps, OfChain, NoCancels;
    forall c, i | c in contents && 0 <= i < |contents[c]| ensures OfChain(ReplayBacklog(contents)[c][i], c) {
      assert Restorable(c, contents[c][i].data);
    }
  }

  // ---------------------------------------------------------------- how far the replay has come

  function Done(delivered: map<string, nat>, c: string): nat {
    if c in delivered then delivered[c] else 0
  }

  lemma NotYetDelivered(delivered: map<string, nat>, c: string)
    ensures c !in delivered ==> forall d :: Done(delivered[c := 0], d) == Done(delivered, d)
  {}

  /** What is left of every chain is what follows the blocks that have been replayed. */
  ghost predicate Behind(b: Backlog, contents: map<string, seq<Block>>, delivered: map<string, nat>) {
    forall c ::
      && Done(delivered, c) <= |Saved(contents, c)|
      && Queue(b, c) == Replayed(c, Saved(contents, c))[Done(delivered, c)..]
  }

  lemma AllLeft(contents: map<string, seq<Block>>)
    ensures Behind(ReplayBacklog(contents), contents, map[])
  {
    forall c ensures Queue(ReplayBacklog(contents), c) == Replayed(c, Saved(contents, c))[0..] {}
  }

  lemma NextBlock(b: Backlog, contents: map<string, seq<Block>>, delivered: map<string, nat>, c: string)
    requires Behind(b, contents, delivered)
    ensures var blocks, n := Saved(contents, c), Done(delivered, c);
      && n <= |blocks| && (Pending(b, c) <==> n < |blocks|)
      && (n < |blocks| ==> b[c][0] == DataOps(c, blocks[n].data))
      && (n == |blocks| ==> Queue(b, c) == [])
  {
    hide DataOps;
    assert Queue(b, c) == Replayed(c, Saved(contents, c))[Done(delivered, c)..];
  }

  lemma OneDelivered(b: Backlog, contents: map<string, seq<Block>>, delivered: map<string, nat>, c: string)
    requires Behind(b, contents, delivered) && Pending(b, c)
    ensures Behind(Advance(b, c), contents, delivered[c := Done(delivered, c) + 1])
  {
    hide DataOps;
    var more := delivered[c := Done(delivered, c) + 1];
    forall d ensures Done(more, d) <= |Saved(contents, d)|
                  && Queue(Advance(b, c), d) == Replayed(d, Saved(contents, d))[Done(more, d)..]
    {
      assert Queue(b, d) == Replayed(d, Saved(contents, d))[Done(delivered, d)..];
    }
  }

  lemma HoldsNoRelease(c: string, data: BlockData)
    ensures forall i :: 0 <= i < |DataOps(c, data)| && DataOps(c, data)[i].TokenOp? ==> !DataOps(c, data)[i].tx.Release?
  {}

  /** How an attempt at the next block of a chain ends. */
  datatype Attempt = Exhausted | Stuck | Advanced

  lemma SameDelivered(b: Backlog, contents: map<string, seq<Block>>, d: map<string, nat>, e: map<string, nat>)
    requires Behind(b, contents, d) && forall c :: Done(e, c) == Done(d, c)
    ensures Behind(b, contents, e)
  {}

  lemma SoFar(delivered: map<string, nat>, c: string)
    requires c in delivered
    ensures Done(delivered, c) == delivered[c] && delivered[c := delivered[c]] == delivered
  {}


  lemma OneBack(before: map<string, nat>, after: map<string, nat>, c: string, n: nat)
    requires (c in before && before[c] == n && after == before[c := n + 1]) || (c in after && after[c] == n + 1 && before == after[c := n])
    ensures c in before && c in after && after[c := n] == before && before[c := Done(before, c) + 1] == after
    ensures before.Keys == after.Keys
  {}

  /** Every bucket of the database holds a chain. */
  ghost predicate HoldsChains(db: map<string, Bucket>, contents: map<string, seq<Block>>) {
    && db.Keys == contents.Keys
    && forall c :: c in db ==>
      && Linked(contents[c]) && Stores(db[c].store, contents[c]) && db[c].last == TipOf(contents[c])
  }

  function BucketOf(db: map<string, Bucket>, c: string): Bucket {
    if c in db then db[c] else Bucket(map[], NoHash)
  }

  lemma BucketHolds(db: map<string, Bucket>, contents: map<string, seq<Block>>, c: string)
    requires HoldsChains(db, contents)
    ensures var b, blocks := BucketOf(db, c), Saved(contents, c);
      Linked(blocks) && Stores(b.store, blocks) && b.last == TipOf(blocks)
  {
    NothingStored();
    hide Linked, Stores;
  }

  /** Open a stored chain.  Its height is the number of its hashes. */
  method OpenChain(bucket: Bucket, ghost blocks: seq<Block>) returns (chain: Blockchain)
    requires Linked(blocks) && Stores(bucket.store, blocks) && bucket.last == TipOf(blocks)
    ensures fresh(chain) && chain.Valid() && chain.blocks == blocks
  {
    hide Linked, Stores, HashesOf;
    CountHashes(blocks);
    chain := new Blockchain(bucket.store, bucket.last, blocks);
    chain.SetHeight(|chain.blockhashes|);
  }

  lemma CountHashes(blocks: seq<Block>)
    ensures |HashesOf(blocks)| == |blocks|
  {}

  /** Chains have only been added. */
  ghost predicate Extends(a: map<string, Blockchain>, b: map<string, Blockchain>) {
    forall c :: c in a ==> c in b && b[c] == a[c]
  }

  lemma ExtendsFurther(a: map<string, Blockchain>, b: map<string, Blockchain>, c: map<string, Blockchain>)
    requires Extends(a, b) && Extends(b, c)
    ensures Extends(a, c)
  {}

  lemma ClosedAgain(a: map<string, Blockchain>, b: map<string, Blockchain>, c: map<string, Blockchain>)
    requires Extends(a, b) && a.Keys == c.Keys && forall s :: s in c ==> s in b && c[s] == b[s]
    ensures c == a
  {}

  lemma ExtendsItself(a: map<string, Blockchain>)
    ensures Extends(a, a)
  {}

  /** A block of transactions that can be replayed. */
  ghost predicate Replayable(ops: Program) {
    AllWellFormed(ops) && NoCancels(ops) && forall i :: 0 <= i < |ops| && ops[i].TokenOp? ==> !ops[i].tx.Release?
  }

  /** Every chain that is open holds what is stored for it. */
  ghost predicate OpenedAs(chains: map<string, Blockchain>, contents: map<string, seq<Block>>)
    reads chains.Values
  {
    && (forall c :: c in chains ==> chains[c].Valid() && chains[c].blocks == Saved(contents, c))
    && (forall c, d :: c in chains && d in chains && c != d ==> chains[c] != chains[d])
  }

  class RecoveringBlockchains {
    var db: map<string, Bucket>
    const state: ConsensusState
    var chains: map<string, Blockchain>
    var iterators: map<string, BlockchainForwardIterator>
    ghost var delivered: map<string, nat>
    ghost var progress: Progress

    ghost predicate Opened(contents: map<string, seq<Block>>)
      reads this`chains, this`db, chains.Values
    {
      HoldsChains(db, contents) && OpenedAs(chains, contents)
    }

    ghost predicate Shows(w: World)
      reads this`chains, state, state.tokenStates.Values
    {
      Inv(w) && state.Valid() && state.View() == w.ledger && chains.Keys == w.ledger.tokens.Keys
    }

    /** Only the MATCH chain is open at first. */
    constructor (db: map<string, Bucket>, ghost contents: map<string, seq<Block>>)
      requires HoldsChains(db, contents)
      ensures progress == Begin(contents) && Opened(contents) && Shows(GENESIS)
      ensures chains.Keys == {MATCH_CHAIN} && iterators == map[] && delivered == map[]
      ensures fresh(state) && fresh(state.tokenStates.Values) && fresh(chains.Values)
    {
      hide HoldsChains, ConsensusState.Valid, ConsensusState.View, Linked, Stores, HashesOf, Inv, Blockchain.Valid,
           TokenState.View, Saved, BucketOf, ReplayBacklog;
      BucketHolds(db, contents, MATCH_CHAIN);
      GenesisInv();
      this.db := db;
      var s := new ConsensusState();
      state := s;
      iterators, delivered, progress := map[], map[], Begin(contents);
      var bucket := BucketOf(db, MATCH_CHAIN);
      var chain := OpenChain(bucket, Saved(contents, MATCH_CHAIN));
      chains := map[MATCH_CHAIN := chain];
      new;
    }

    // -------------------------------------------------------------- one block

    /** Open the chain of a token that was created; its blocks will be replayed like any others. */
    method AddTokenChain(symbol: string, ghost contents: map<string, seq<Block>>)
      requires Opened(contents)
      modifies this`chains
      ensures Opened(contents) && chains.Keys == old(chains.Keys) + {symbol}
      ensures forall c :: c in old(chains) && c != symbol ==> chains[c] == old(chains[c])
    {
      hide Linked, Stores, HashesOf, HoldsChains, Blockchain.Valid;
      BucketHolds(db, contents, symbol);
      var bucket := BucketOf(db, symbol);
      var chain := OpenChain(bucket, Saved(contents, symbol));
      chains := chains[symbol := chain];
    }

    /** Close the chain of a token whose creation is undone, and delete what is stored for it. */
    method RemoveTokenChain(symbol: string, ghost contents: map<string, seq<Block>>)
      requires HoldsChains(db, contents)
      modifies this`chains, this`db
      ensures HoldsChains(db, contents - {symbol}) && chains == old(chains) - {symbol}
    {
      hide Linked, Stores;
      db := db - {symbol};
      chains := chains - {symbol};
    }

    /** Replay one transaction. */
    method replayTransaction(op: Op, ghost w: World, ghost contents: map<string, seq<Block>>) returns (ok: bool)
      requires Opened(contents) && Shows(w)
      requires WellFormed(op) && !op.CancelOp? && (op.TokenOp? ==> !op.tx.Release?)
      modifies this`chains, state, state.tokenStates.Values
      ensures ok <==> Step(w, op).Some?
      ensures Opened(contents) && Shows(if ok then Step(w, op).value else w)
      ensures forall o :: o in state.tokenStates.Values ==> o in old(state.tokenStates.Values) || fresh(o)
      ensures Extends(old(chains), chains)
    {
      hide ConsensusState.Valid, ConsensusState.View, Opened, Inv, Step, AfterRefusal, Make, HoldsChains,
           Ledgers.AddCreateToken;
      if Step(w, op).Some? {
        StepInv(w, op);
        StepKeys(w, op);
      }
      if op.CreateOp? {
        CreateSteps(w, op.create);
        ok := state.AddCreateToken(op.create);
        if ok {
          AddTokenChain(op.create.info.symbol, contents);
        }
      } else {
        MadeIsStepped(w, op);
        ok := MakeTransaction(state, op);
      }
    }

    lemma Shown(w: World)
      requires Shows(w)
      ensures Inv(w) && state.Valid() && state.View() == w.ledger && chains.Keys == w.ledger.tokens.Keys
    {}

    /** Undo one transaction; a token that it created is closed, and its storage deleted. */
    method undoTransaction(op: Op, ghost contents: map<string, seq<Block>>) returns (panicked: bool)
      requires state.Valid() && WellFormed(op) && !op.CancelOp? && (op.TokenOp? ==> !op.tx.Release?)
      requires CanUndo(state.View(), op) && HoldsChains(db, contents)
      modifies this`chains, this`db, state, state.tokenStates.Values
      ensures !panicked && state.Valid() && state.View() == Admission.Undone(old(state.View()), op)
      ensures HoldsChains(db, contents - CreatedBy(op)) && chains == old(chains) - CreatedBy(op)
      ensures state.tokenStates.Values <= old(state.tokenStates.Values)
    {
      hide ConsensusState.Valid, ConsensusState.View, CanUndo, WellFormed, Admission.Undone, HoldsChains;
      if op.CreateOp? {
        CreationUndone(state.View(), op.create);
        state.RollbackCreateToken(op.create);
        RemoveTokenChain(op.create.info.symbol, contents);
        return false;
      }
      panicked := TakeBack(state, op);
      assert contents - {} == contents && chains - {} == chains;
    }

    /** Take back what was replayed of a block that could not be replayed in full. */
    method undoTransactions(uncommitted: UncommittedTransactions, ghost w: World, ghost contents: map<string, seq<Block>>)
      requires Inv(w) && state.Valid() && Replayable(uncommitted.transactions) && Run(w, uncommitted.transactions).Some?
      requires state.View() == Run(w, uncommitted.transactions).value.ledger
      requires chains.Keys == Run(w, uncommitted.transactions).value.ledger.tokens.Keys && HoldsChains(db, contents)
      modifies this`chains, this`db, state, state.tokenStates.Values
      ensures Shows(w) && HoldsChains(db, contents - CreatedIn(uncommitted.transactions))
      ensures forall c :: c in chains ==> c in old(chains) && chains[c] == old(chains[c])
      ensures state.tokenStates.Values <= old(state.tokenStates.Values)
    {
      hide *;
      var ops := uncommitted.transactions;
      var j := |ops|;
      WholeRun(w, ops, contents);
      while j > 0
        invariant 0 <= j <= |ops| && Run(w, ops[..j]).Some?
        invariant state.Valid() && state.View() == Run(w, ops[..j]).value.ledger
        invariant chains.Keys == Run(w, ops[..j]).value.ledger.tokens.Keys
        invariant HoldsChains(db, contents - CreatedIn(ops[j..]))
        invariant forall c :: c in chains ==> c in old(chains) && chains[c] == old(chains[c])
        invariant state.tokenStates.Values <= old(state.tokenStates.Values)
      {
        j := j - 1;
        LastReplayed(w, ops, j);
        CreatedFrom(contents, ops, j);
        var panicked := undoTransaction(ops[j], contents - CreatedIn(ops[j + 1..]));
      }
      NothingRun(w, ops);
      ShowsNow(w);
    }

    lemma ShowsNow(w: World)
      requires Inv(w) && state.Valid() && state.View() == w.ledger && chains.Keys == w.ledger.tokens.Keys
      ensures Shows(w)
    {}

    /** Replay the transactions of a block until one is refused. */
    method replayTransactions(ops: Program, uncommitted: UncommittedTransactions, ghost w: World,
                              ghost contents: map<string, seq<Block>>)
      returns (ok: bool, ghost v: World)
      requires Opened(contents) && Shows(w) && Replayable(ops) && uncommitted.transactions == []
      modifies this`chains, state, state.tokenStates.Values, uncommitted
      ensures Opened(contents) && Shows(v) && Extends(old(chains), chains)
      ensures ok ==> Run(w, ops) == Some(v)
      ensures !ok ==> Run(w, ops).None? && uncommitted.transactions == ops[..Accepted(w, ops)]
      ensures !ok ==> Run(w, uncommitted.transactions) == Some(v)
      ensures forall o :: o in state.tokenStates.Values ==> o in old(state.tokenStates.Values) || fresh(o)
    {
      hide *;
      v := w;
      ok := true;
      NothingRun(w, ops);
      ExtendsItself(chains);
      for i := 0 to |ops|
        invariant uncommitted.transactions == ops[..i] && Run(w, ops[..i]) == Some(v)
        invariant Opened(contents) && Shows(v) && Extends(old(chains), chains)
        invariant forall o :: o in state.tokenStates.Values ==> o in old(state.tokenStates.Values) || fresh(o)
      {
        RunNext(w, ops, i);
        ReplayableAt(ops, i);
        ghost var before := chains;
        ok := replayTransaction(ops[i], v, contents);
        ExtendsFurther(old(chains), before, chains);
        if !ok {
          AcceptedUpTo(w, ops, i);
          return;
        }
        v := Step(v, ops[i]).value;
        uncommitted.addTransaction(ops[i]);
        assert ops[..i + 1] == ops[..i] + [ops[i]];
      }
      ok := true;
    }

    /** Replay a block, or nothing of it; but the tokens that a refused block had created lose their storage. */
    method replayBlock(symbol: string, data: BlockData, ghost w: World, ghost contents: map<string, seq<Block>>)
      returns (ok: bool)
      requires Opened(contents) && Shows(w) && Replayable(DataOps(symbol, data))
      modifies this`chains, this`db, state, state.tokenStates.Values
      ensures ok <==> Run(w, DataOps(symbol, data)).Some?
      ensures ok ==> Opened(contents) && Shows(Run(w, DataOps(symbol, data)).value)
      ensures !ok ==> Shows(w) && chains == old(chains)
      ensures !ok ==>
        Opened(contents - CreatedIn(DataOps(symbol, data)[..Accepted(w, DataOps(symbol, data))]))
      ensures forall o :: o in state.tokenStates.Values ==> o in old(state.tokenStates.Values) || fresh(o)
      ensures Extends(old(chains), chains)
    {
      hide *;
      var uncommitted := new UncommittedTransactions();
      ghost var v;
      Shown(w);
      var ops := DataOps(symbol, data);
      ok, v := replayTransactions(ops, uncommitted, w, contents);
      if !ok {
        ghost var mid := chains;
        refuseBlock(ops, uncommitted, w, v, contents);
        Shown(w);
        ClosedAgain(old(chains), mid, chains);
        ExtendsItself(chains);
      }
    }

    /** A block was refused: take back what was replayed of it. */
    method refuseBlock(ops: Program, uncommitted: UncommittedTransactions, ghost w: World, ghost v: World,
                       ghost contents: map<string, seq<Block>>)
      requires Opened(contents) && Shows(v) && Inv(w) && Replayable(ops)
      requires uncommitted.transactions == ops[..Accepted(w, ops)] && Run(w, uncommitted.transactions) == Some(v)
      modifies this`chains, this`db, state, state.tokenStates.Values
      ensures Shows(w) && Opened(contents - CreatedIn(ops[..Accepted(w, ops)]))
      ensures forall c :: c in chains ==> c in old(chains) && chains[c] == old(chains[c])
      ensures state.tokenStates.Values <= old(state.tokenStates.Values)
    {
      hide *;
      ghost var n := Accepted(w, ops);
      Shown(v);
      OpenedMeans(contents);
      AcceptedReplayable(ops, n);
      undoTransactions(uncommitted, w, contents);
      Shown(w);
      AllWellFormedIn(ops);
      CreatedAreNew(w, ops, n);
      StillOpened(contents, CreatedIn(ops[..n]), w);
    }

    lemma OpenedMeans(contents: map<string, seq<Block>>)
      requires Opened(contents)
      ensures HoldsChains(db, contents)
    {}

    twostate lemma StillOpened(contents: map<string, seq<Block>>, new gone: set<string>, new w: World)
      requires old(Opened(contents)) && HoldsChains(db, contents - gone)
      requires forall c :: c in chains ==> c in old(chains) && chains[c] == old(chains[c]) && unchanged(chains[c])
      requires chains.Keys == w.ledger.tokens.Keys && gone !! w.ledger.tokens.Keys
      ensures Opened(contents - gone)
    {
      hide HoldsChains, Blockchain.Valid;
    }

    // -------------------------------------------------------------- one chain

    /** Every chain whose replay has begun knows its height, and its iterator has delivered what was replayed. */
    ghost predicate Tracking()
      reads this`delivered, this`iterators, this`chains, chains.Values, iterators.Values, set c | c in iterators :: iterators[c].chain
    {
      && delivered.Keys == iterators.Keys
      && (forall c :: c in iterators ==> c in chains && iterators[c].chain == chains[c])
      && (forall c :: c in iterators ==> iterators[c].At(delivered[c]))
      && (forall c, d :: c in iterators && d in iterators && c != d ==> iterators[c] != iterators[d])
    }

    /** The iterator of a chain, made when the chain is first visited. */
    method ForwardIterator(symbol: string)
      requires OpenedAs(chains, progress.contents) && Tracking() && symbol in chains
      modifies this`iterators, this`delivered
      ensures Tracking() && symbol in iterators
      ensures forall c :: Done(delivered, c) == Done(old(delivered), c)
      ensures forall c :: c in iterators ==> iterators[c] in old(iterators.Values) || fresh(iterators[c])
      ensures delivered.Keys == iterators.Keys
    {
      hide *;
      StoredChain(symbol);
      NotYetDelivered(delivered, symbol);
      if symbol !in iterators {
        var it := new BlockchainForwardIterator(chains[symbol]);
        iterators := iterators[symbol := it];
        delivered := delivered[symbol := 0];
        OneMoreIterator(symbol, it);
      }
    }

    lemma StoredChain(symbol: string)
      requires OpenedAs(chains, progress.contents) && Tracking() && symbol in chains
      ensures chains[symbol].Stored() && delivered.Keys == iterators.Keys
    {
      hide Blockchain.Stored, BlockchainForwardIterator.At;
    }

    twostate lemma OneMoreIterator(symbol: string, new it: BlockchainForwardIterator)
      requires old(Tracking()) && symbol in chains && symbol !in old(iterators) && chains == old(chains)
      requires iterators == old(iterators)[symbol := it] && delivered == old(delivered)[symbol := 0]
      requires fresh(it) && it.chain == chains[symbol] && it.At(0)
      requires forall c :: c in chains ==> unchanged(chains[c])
      requires forall c :: c in old(iterators) ==> unchanged(old(iterators[c]))
      ensures Tracking()
    {
      hide Blockchain.Valid, Blockchain.Stored, BlockchainForwardIterator.At, Saved;
      forall c | c in iterators
        ensures c in chains && iterators[c].chain == chains[c] && iterators[c].At(delivered[c])
      {
        if c != symbol {
          assert old(iterators[c].At(delivered[c]));
        }
      }
    }

    /** All that holds between two blocks of the replay. */
    ghost predicate Replaying()
      reads this, state, state.tokenStates.Values, chains.Values, iterators.Values,
            set c | c in iterators :: iterators[c].chain
    {
      && Storable(progress.contents) && Opened(progress.contents) && Tracking() && Shows(progress.world)
      && Behind(progress.left, progress.contents, delivered) && WellFormedBacklog(progress.left)
    }

    lemma Parts(symbol: string)
      requires Replaying()
      ensures Storable(progress.contents) && Opened(progress.contents) && OpenedAs(chains, progress.contents)
      ensures Tracking() && Shows(progress.world) && Inv(progress.world) && chains.Keys == progress.world.ledger.tokens.Keys
      ensures Behind(progress.left, progress.contents, delivered) && WellFormedBacklog(progress.left)
      ensures symbol in chains ==> symbol in progress.world.ledger.tokens && chains[symbol].blocks == Saved(progress.contents, symbol)
      ensures symbol in iterators ==>
        && symbol in chains && iterators[symbol].chain == chains[symbol]
        && symbol in delivered && iterators[symbol].At(delivered[symbol])
      ensures delivered.Keys <= chains.Keys
    {
      hide ConsensusState.Valid, ConsensusState.View, Inv, Blockchain.Valid, Blockchain.Stored, Behind, WellFormedBacklog,
           BlockchainForwardIterator.At, HoldsChains, Storable;
    }

    lemma Whole()
      requires Storable(progress.contents) && Opened(progress.contents) && Tracking() && Shows(progress.world)
      requires Behind(progress.left, progress.contents, delivered) && WellFormedBacklog(progress.left)
      ensures Replaying()
    {}

    /** The iterator of one chain has moved; new chains may have been opened. */
    twostate lemma TrackingAgain(symbol: string, new n: nat)
      requires old(Tracking()) && iterators == old(iterators) && symbol in iterators
      requires delivered == old(delivered)[symbol := n] && iterators[symbol].At(n)
      requires Extends(old(chains), chains) && forall c :: c in old(chains) ==> unchanged(old(chains[c]))
      requires forall c :: c in iterators && iterators[c] != iterators[symbol] ==> unchanged(iterators[c])
      ensures Tracking()
    {
      hide Blockchain.Valid, Blockchain.Stored, BlockchainForwardIterator.At;
      forall c | c in iterators
        ensures c in chains && iterators[c].chain == chains[c] && iterators[c].At(delivered[c])
      {
        if c != symbol {
          assert old(iterators[c].At(delivered[c]));
        }
      }
    }

    twostate lemma ShowsStill(w: World)
      requires old(Shows(w)) && chains == old(chains) && state.tokenStates == old(state.tokenStates)
      requires unchanged(state) && forall s :: s in state.tokenStates ==> unchanged(state.tokenStates[s])
      ensures Shows(w)
    {}

    /** Replay the next block of a chain, if there is one and it can be replayed. */
    method replayNext(symbol: string) returns (r: Attempt)
      requires Replaying() && symbol in iterators
      modifies this`chains, this`db, this`delivered, this`progress, state, state.tokenStates.Values, iterators[symbol]
      ensures Replaying()
      ensures match r
        case Exhausted => !Pending(old(progress.left), symbol) && progress == old(progress)
        case Stuck =>
          && Pending(old(progress.left), symbol) && !Ready(old(progress.world), old(progress.left), symbol)
          && progress == Refuse(old(progress), symbol) && Pending(progress.left, symbol)
          && Queue(progress.left, symbol) == Queue(old(progress.left), symbol)
        case Advanced =>
          Ready(old(progress.world), old(progress.left), symbol) && progress == Replay(old(progress), symbol)
      ensures forall o :: o in state.tokenStates.Values ==> o in old(state.tokenStates.Values) || fresh(o)
      ensures Extends(old(chains), chains)
    {
      hide *;
      Parts(symbol);
      NextBlock(progress.left, progress.contents, delivered, symbol);
      ExtendsItself(chains);
      var it := iterators[symbol];
      ghost var n: nat, p := delivered[symbol], progress;
      SoFar(delivered, symbol);
      var found, block := it.Next(n);
      if !found {
        TrackingAgain(symbol, n);
        Whole();
        return Exhausted;
      }
      HeadReplayable(p, symbol, n);
      ReadyIf(p.world, p.left, symbol);
      delivered := delivered[symbol := n + 1];
      TrackingAgain(symbol, n + 1);
      OneBack(old(delivered), delivered, symbol, n);
      r := replayFound(symbol, block.data, n);
    }

    /** Replay a block that the iterator has just delivered; if it is refused, the iterator takes it back. */
    method replayFound(symbol: string, data: BlockData, ghost n: nat) returns (r: Attempt)
      requires Storable(progress.contents) && Opened(progress.contents) && Tracking() && Shows(progress.world)
      requires WellFormedBacklog(progress.left) && Pending(progress.left, symbol)
      requires symbol in iterators && symbol in delivered && delivered[symbol] == n + 1 && delivered.Keys <= chains.Keys
      requires Behind(progress.left, progress.contents, delivered[symbol := n])
      requires symbol in progress.world.ledger.tokens
      requires progress.left[symbol][0] == DataOps(symbol, data) && Replayable(DataOps(symbol, data))
      modifies this`chains, this`db, this`delivered, this`progress, state, state.tokenStates.Values, iterators[symbol]
      ensures Replaying() && r != Exhausted
      ensures r == Stuck ==>
        && !Ready(old(progress.world), old(progress.left), symbol)
        && progress == Refuse(old(progress), symbol) && Pending(progress.left, symbol)
        && Queue(progress.left, symbol) == Queue(old(progress.left), symbol)
      ensures r == Advanced ==>
        Ready(old(progress.world), old(progress.left), symbol) && progress == Replay(old(progress), symbol)
      ensures forall o :: o in state.tokenStates.Values ==> o in old(state.tokenStates.Values) || fresh(o)
      ensures Extends(old(chains), chains)
    {
      hide *;
      Shown(progress.world);
      ReadyIf(progress.world, progress.left, symbol);
      var ok := replayDelivered(symbol, data);
      if ok {
        moveOn(symbol, n);
        return Advanced;
      }
      takeBack(symbol, n);
      return Stuck;
    }

    /** Replay a block; the iterators stay where they are. */
    method replayDelivered(symbol: string, data: BlockData) returns (ok: bool)
      requires Opened(progress.contents) && Tracking() && Shows(progress.world) && symbol in iterators && symbol in delivered
      requires Replayable(DataOps(symbol, data))
      modifies this`chains, this`db, state, state.tokenStates.Values
      ensures Tracking() && Extends(old(chains), chains)
      ensures ok <==> Run(progress.world, DataOps(symbol, data)).Some?
      ensures ok ==> Opened(progress.contents) && Shows(Run(progress.world, DataOps(symbol, data)).value)
      ensures !ok ==> Shows(progress.world) && chains == old(chains)
      ensures !ok ==>
        Opened(progress.contents - CreatedIn(DataOps(symbol, data)[..Accepted(progress.world, DataOps(symbol, data))]))
      ensures forall o :: o in state.tokenStates.Values ==> o in old(state.tokenStates.Values) || fresh(o)
    {
      hide *;
      ok := replayBlock(symbol, data, progress.world, progress.contents);
      TrackingStill();
    }

    twostate lemma TrackingStill()
      requires old(Tracking()) && iterators == old(iterators) && delivered == old(delivered)
      requires Extends(old(chains), chains) && forall c :: c in old(chains) ==> unchanged(old(chains[c]))
      requires forall c :: c in iterators ==> unchanged(iterators[c])
      ensures Tracking()
    {
      hide Blockchain.Valid, Blockchain.Stored, BlockchainForwardIterator.At;
      forall c | c in iterators ensures c in chains && iterators[c].chain == chains[c] && iterators[c].At(delivered[c]) {
        assert old(iterators[c].At(delivered[c]));
      }
    }

    /** A block was replayed. */
    ghost method moveOn(symbol: string, n: nat)
      requires Tracking() && symbol in iterators && symbol in delivered && delivered[symbol] == n + 1
      requires Storable(progress.contents) && Opened(progress.contents) && WellFormedBacklog(progress.left)
      requires Ready(progress.world, progress.left, symbol)
      requires Shows(BlockStep(progress.world, symbol, progress.left[symbol][0]).value)
      requires Behind(progress.left, progress.contents, delivered[symbol := n])
      modifies this`progress
      ensures Replaying() && progress == Replay(old(progress), symbol)
    {
      hide *;
      SoFar(delivered[symbol := n], symbol);
      OneBack(delivered[symbol := n], delivered, symbol, n);
      ReplayBehind(progress, delivered[symbol := n], symbol);
      progress := Replay(progress, symbol);
      Whole();
    }

    /** A block was refused: the iterator is to deliver it again. */
    method takeBack(symbol: string, ghost n: nat)
      requires Tracking() && Shows(progress.world) && Storable(progress.contents)
      requires WellFormedBacklog(progress.left) && Pending(progress.left, symbol) && symbol in progress.world.ledger.tokens
      requires symbol in iterators && symbol in delivered && delivered[symbol] == n + 1 && delivered.Keys <= chains.Keys
      requires Behind(progress.left, progress.contents, delivered[symbol := n])
      requires !Ready(progress.world, progress.left, symbol) && Replayable(progress.left[symbol][0])
      requires var ops := progress.left[symbol][0];
        Opened(progress.contents - CreatedIn(ops[..Accepted(progress.world, ops)]))
      modifies this`delivered, this`progress, iterators[symbol]
      ensures Replaying() && progress == Refuse(old(progress), symbol)
      ensures Pending(progress.left, symbol) && Queue(progress.left, symbol) == Queue(old(progress.left), symbol)
    {
      hide *;
      Shown(progress.world);
      DeliveredAt(symbol);
      RefuseBehind(progress, delivered[symbol := n], symbol);
      OneBack(delivered[symbol := n], delivered, symbol, n);
      progress := Refuse(progress, symbol);
      delivered := delivered[symbol := n];
      iterators[symbol].Undo(n + 1);
      ExtendsItself(chains);
      TrackingAgain(symbol, n);
      Whole();
    }

    lemma DeliveredAt(symbol: string)
      requires Tracking() && symbol in iterators
      ensures symbol in delivered && iterators[symbol].At(delivered[symbol])
    {
      hide BlockchainForwardIterator.At;
    }

    /** Make sure that a chain has an iterator. */
    method visitChain(symbol: string)
      requires Replaying() && symbol in chains
      modifies this`iterators, this`delivered
      ensures Replaying() && symbol in iterators
      ensures forall c :: c in iterators ==> iterators[c] in old(iterators.Values) || fresh(iterators[c])
    {
      hide *;
      Parts(symbol);
      ForwardIterator(symbol);
      SameDelivered(progress.left, progress.contents, old(delivered), delivered);
      ShowsStill(progress.world);
      Whole();
    }

    /** Replay the blocks of one chain as far as it goes. */
    method replayChain(symbol: string) returns (done: bool)
      requires Replaying() && symbol in chains
      modifies this, state, state.tokenStates.Values, iterators.Values
      ensures Replaying() && progress == Visit(old(progress), symbol)
      ensures done <==> !Pending(progress.left, symbol)
      ensures forall o :: o in state.tokenStates.Values ==> o in old(state.tokenStates.Values) || fresh(o)
      ensures forall c :: c in iterators ==> iterators[c] in old(iterators.Values) || fresh(iterators[c])
      ensures Extends(old(chains), chains)
    {
      hide *;
      visitChain(symbol);
      ExtendsItself(chains);
      ghost var its := iterators;
      var r := Advanced;
      while r == Advanced
        invariant Replaying() && iterators == its
        invariant r == Advanced ==> Visit(progress, symbol) == Visit(old(progress), symbol)
        invariant r != Advanced ==> progress == Visit(old(progress), symbol)
        invariant r == Exhausted ==> !Pending(progress.left, symbol)
        invariant r == Stuck ==> Pending(progress.left, symbol)
        invariant forall o :: o in state.tokenStates.Values ==> o in old(state.tokenStates.Values) || fresh(o)
        invariant Extends(old(chains), chains)
        decreases |Queue(progress.left, symbol)|, if r == Advanced then 1 else 0
      {
        ghost var before, p := chains, progress;
        Parts(symbol);
        r := replayNext(symbol);
        ExtendsFurther(old(chains), before, chains);
        VisitNext(p, symbol);
      }
      done := r == Exhausted;
    }

    // -------------------------------------------------------------- all chains

    /** Visit one chain, unless it is done. */
    method replayUnlessDone(symbol: string, chainsDone0: set<string>) returns (chainsDone: set<string>)
      requires Replaying() && AllDone(chainsDone0, progress) && symbol in chains
      modifies this, state, state.tokenStates.Values, iterators.Values
      ensures Replaying() && progress == Visit(old(progress), symbol)
      ensures AllDone(chainsDone, progress) && chainsDone0 <= chainsDone
      ensures symbol in chainsDone || Pending(progress.left, symbol)
      ensures forall o :: o in state.tokenStates.Values ==> o in old(state.tokenStates.Values) || fresh(o)
      ensures forall c :: c in iterators ==> iterators[c] in old(iterators.Values) || fresh(iterators[c])
      ensures Extends(old(chains), chains)
    {
      hide *;
      chainsDone := chainsDone0;
      ghost var p := progress;
      Parts(symbol);
      ExtendsItself(chains);
      if symbol in chainsDone {
        DoneMeans(chainsDone, p, symbol);
        VisitNext(p, symbol);
        return;
      }
      var done := replayChain(symbol);
      StillDone(chainsDone, p, symbol);
      if done {
        Parts(symbol);
        ExtendsKeys(old(chains), chains);
        OneMoreDone(chainsDone, progress, symbol);
        chainsDone := chainsDone + {symbol};
      }
    }

    /** Midway through a pass. */
    ghost predicate Midway(p0: Progress, visits: seq<string>, todo: set<string>, chainsDone: set<string>)
      reads this, state, state.tokenStates.Values, chains.Values, iterators.Values,
            set c | c in iterators :: iterators[c].chain
    {
      && Replaying() && AllDone(chainsDone, progress) && todo <= chains.Keys
      && progress == VisitAll(p0, visits) && Passing(p0, visits, todo) && Tried(progress, visits, todo, chainsDone)
    }

    lemma MidwayMeans(p0: Progress, visits: seq<string>, todo: set<string>, chainsDone: set<string>)
      ensures Midway(p0, visits, todo, chainsDone) <==>
        && Replaying() && AllDone(chainsDone, progress) && todo <= chains.Keys
        && progress == VisitAll(p0, visits) && Passing(p0, visits, todo) && Tried(progress, visits, todo, chainsDone)
    {}

    /** Visit one of the chains that are still to be visited.  A chain that is opened on the way may come up in
        this pass or not. */
    method replaySome(todo0: set<string>, chainsDone0: set<string>, ghost p0: Progress, ghost visits0: seq<string>)
      returns (todo: set<string>, chainsDone: set<string>, ghost visits: seq<string>)
      requires todo0 != {} && Midway(p0, visits0, todo0, chainsDone0)
      modifies this, state, state.tokenStates.Values, iterators.Values
      ensures Midway(p0, visits, todo, chainsDone)
      ensures |Queue(progress.left, MATCH_CHAIN)| < |Queue(old(progress.left), MATCH_CHAIN)|
           || (|Queue(progress.left, MATCH_CHAIN)| == |Queue(old(progress.left), MATCH_CHAIN)| && todo < todo0)
      ensures forall o :: o in state.tokenStates.Values ==> o in old(state.tokenStates.Values) || fresh(o)
      ensures forall c :: c in iterators ==> iterators[c] in old(iterators.Values) || fresh(iterators[c])
    {
      hide *;
      MidwayMeans(p0, visits0, todo0, chainsDone0);
      var symbol := AnySymbol(todo0);
      var before := chains;
      ghost var p := progress;
      Parts(symbol);
      chainsDone := replayUnlessDone(symbol, chainsDone0);
      Parts(symbol);
      VisitElsewhere(p, symbol);
      ExtendsKeys(before, chains);
      var added := SomeSymbols(chains.Keys - before.Keys);
      todo := todo0 - {symbol} + added;
      PassesOn(p0, visits0, todo0, symbol, added);
      TriedOn(p, visits0, todo0, chainsDone0, symbol, chainsDone, added);
      visits := visits0 + [symbol];
      MidwayMeans(p0, visits, todo, chainsDone);
    }

    /** Visit every chain once. */
    method replayPass(chainsDone0: set<string>) returns (chainsDone: set<string>, ghost visits: seq<string>)
      requires Replaying() && AllDone(chainsDone0, progress)
      modifies this, state, state.tokenStates.Values, iterators.Values
      ensures Replaying() && AllDone(chainsDone, progress)
      ensures progress == VisitAll(old(progress), visits) && Pass(old(progress), visits)
      ensures forall c :: c in visits ==> c in chainsDone || Pending(progress.left, c)
      ensures forall o :: o in state.tokenStates.Values ==> o in old(state.tokenStates.Values) || fresh(o)
      ensures forall c :: c in iterators ==> iterators[c] in old(iterators.Values) || fresh(iterators[c])
    {
      hide *;
      chainsDone, visits := chainsDone0, [];
      Parts(MATCH_CHAIN);
      var todo := chains.Keys;
      ghost var p0 := progress;
      NoVisits(p0, chainsDone);
      MidwayMeans(p0, visits, todo, chainsDone);
      while todo != {}
        invariant Midway(p0, visits, todo, chainsDone)
        invariant forall o :: o in state.tokenStates.Values ==> o in old(state.tokenStates.Values) || fresh(o)
        invariant forall c :: c in iterators ==> iterators[c] in old(iterators.Values) || fresh(iterators[c])
        decreases |Queue(progress.left, MATCH_CHAIN)|, todo
      {
        todo, chainsDone, visits := replaySome(todo, chainsDone, p0, visits);
      }
      MidwayMeans(p0, visits, todo, chainsDone);
      PassEnds(p0, visits);
      TriedEnds(progress, visits, chainsDone);
    }

    /** The node is where the replay is. */
    ghost predicate Restored(p: Progress)
      reads this`chains, state, state.tokenStates.Values, chains.Values
    {
      && state.Valid() && state.View() == p.world.ledger && chains.Keys == p.world.ledger.tokens.Keys
      && forall c :: c in chains ==> chains[c].Valid() && chains[c].blocks == Saved(p.contents, c)
    }

    /** Replay all chains, in pass after pass, until all that are open have been replayed.  That may never be,
        so the number of passes is bounded here. */
    method restoreFromDatabase(bound: nat, ghost saved: map<string, seq<Block>>)
      returns (done: bool, ghost passes: seq<seq<string>>)
      requires progress == Begin(saved) && Storable(saved) && Opened(saved) && Shows(GENESIS)
      requires iterators == map[] && delivered == map[]
      modifies this, state, state.tokenStates.Values
      ensures Execution(saved, passes) && Restored(AfterPasses(Begin(saved), passes))
      ensures done ==> Finished(AfterPasses(Begin(saved), passes)) && passes != []
      ensures !done ==> |passes| == bound && Unfinished(saved, passes)
    {
      hide *;
      Starts(saved);
      var chainsDone: set<string> := {};
      var pass := 0;
      done, passes := false, [];
      NoPasses(saved);
      while !done && pass < bound
        invariant Replaying() && AllDone(chainsDone, progress) && pass == |passes| <= bound
        invariant progress == AfterPasses(Begin(saved), passes) && Execution(saved, passes)
        invariant if done then Finished(progress) && passes != [] else Unfinished(saved, passes)
        invariant forall o :: o in state.tokenStates.Values ==> o in old(state.tokenStates.Values) || fresh(o)
        invariant forall c :: c in iterators ==> fresh(iterators[c])
        decreases bound - pass, if done then 0 else 1
      {
        ghost var visits;
        chainsDone, visits := replayPass(chainsDone);
        done := chains.Keys <= chainsDone;
        Parts(MATCH_CHAIN);
        OnePassMore(saved, passes, visits);
        PassResult(saved, passes, visits, chainsDone);
        passes := passes + [visits];
        pass := pass + 1;
      }
      NowRestored();
    }

    lemma Starts(saved: map<string, seq<Block>>)
      requires progress == Begin(saved) && Storable(saved) && Opened(saved) && Shows(GENESIS)
      requires iterators == map[] && delivered == map[]
      ensures Replaying()
    {
      hide Storable, Opened, Shows, ReplayBacklog, Behind, WellFormedBacklog;
      AllLeft(saved);
      StorableBacklog(saved);
    }

    lemma NowRestored()
      requires Replaying()
      ensures Restored(progress)
    {
      hide ConsensusState.Valid, ConsensusState.View, Inv, Blockchain.Valid, Behind, WellFormedBacklog, HoldsChains, Storable,
           Tracking;
    }
  }

  lemma NothingStored()
    ensures Linked([]) && Stores(map[], []) && TipOf([]) == NoHash
  {}

  lemma ReplayableAt(ops: Program, i: nat)
    requires i < |ops| && Replayable(ops)
    ensures WellFormed(ops[i]) && !ops[i].CancelOp? && (ops[i].TokenOp? ==> !ops[i].tx.Release?)
  {
    hide WellFormed;
  }

  lemma AcceptedReplayable(ops: Program, n: nat)
    requires n <= |ops| && Replayable(ops)
    ensures Replayable(ops[..n])
  {
    hide WellFormed;
  }

  lemma WholeRun(w: World, ops: Program, contents: map<string, seq<Block>>)
    ensures ops[..|ops|] == ops && contents - CreatedIn(ops[|ops|..]) == contents
  {}

  /** What has been deleted once the transactions from the j-th on are undone. */
  lemma CreatedFrom(contents: map<string, seq<Block>>, ops: Program, j: nat)
    requires j < |ops|
    ensures contents - CreatedIn(ops[j..]) == contents - CreatedIn(ops[j + 1..]) - CreatedBy(ops[j])
  {
    assert CreatedIn(ops[j..]) == CreatedIn(ops[j + 1..]) + CreatedBy(ops[j]) by {
      forall s ensures s in CreatedIn(ops[j..]) <==> s in CreatedIn(ops[j + 1..]) + CreatedBy(ops[j]) {
        if s in CreatedIn(ops[j + 1..]) {
          var i :| 0 <= i < |ops[j + 1..]| && ops[j + 1..][i].CreateOp? && ops[j + 1..][i].create.info.symbol == s;
          assert ops[j..][i + 1] == ops[j + 1..][i];
        }
        if s in CreatedBy(ops[j]) {
          assert ops[j..][0] == ops[j];
        }
      }
    }
  }

  lemma CreationUndone(l: Ledger, c: CreateToken)
    ensures Admission.Undone(l, CreateOp(c)) == Ledgers.RollbackCreateToken(l, c)
  {}

  /** The last of the transactions that were replayed, and how to take it back. */
  lemma LastReplayed(w: World, ops: Program, j: nat)
    requires Inv(w) && j < |ops| && Replayable(ops) && Run(w, ops[..j + 1]).Some?
    ensures Run(w, ops[..j]).Some? && WellFormed(ops[j]) && !ops[j].CancelOp? && (ops[j].TokenOp? ==> !ops[j].tx.Release?)
    ensures CanUndo(Run(w, ops[..j + 1]).value.ledger, ops[j])
    ensures Admission.Undone(Run(w, ops[..j + 1]).value.ledger, ops[j]) == Run(w, ops[..j]).value.ledger
    ensures Run(w, ops[..j]).value.ledger.tokens.Keys == Run(w, ops[..j + 1]).value.ledger.tokens.Keys - CreatedBy(ops[j])
  {
    hide Inv, Run, Admission.Undone, CanUndo, WellFormed, Step, Take;
    RunNext(w, ops, j);
    ReplayableAt(ops, j);
    AllWellFormedIn(ops);
    RunSome(w, ops, j);
    var v := Run(w, ops[..j]).value;
    StepKeys(v, ops[j]);
    NewInStep(v, ops[j]);
    if ops[j].CreateOp? {
      CreatedTokenUndone(v, ops[j].create);
    } else {
      TakeIsStep(v, ops[j]);
      UndoTaken(v, ops[j]);
    }
  }

  lemma CreatedTokenUndone(w: World, c: CreateToken)
    requires Inv(w) && WellFormed(CreateOp(c)) && Step(w, CreateOp(c)).Some?
    ensures var l := Step(w, CreateOp(c)).value.ledger;
      CanUndo(l, CreateOp(c)) && Admission.Undone(l, CreateOp(c)) == w.ledger
  {
    hide Inv, NewToken;
    UndoCreateStep(w, c);
  }

  lemma AllWellFormedIn(ops: Program)
    requires Replayable(ops)
    ensures AllWellFormed(ops)
  {}

  lemma TakeIsStep(w: World, op: Op)
    requires !op.CreateOp?
    ensures Take(w, op) == Step(w, op)
  {
    hide Step;
  }

  lemma MadeIsStepped(w: World, op: Op)
    requires !op.CreateOp? && !op.CancelOp? && (op.TokenOp? ==> !op.tx.Release?)
    ensures Step(w, op).Some? <==> Make(w.ledger, op).Some?
    ensures Step(w, op).Some? ==> Make(w.ledger, op) == Some(Step(w, op).value.ledger)
    ensures AfterRefusal(w.ledger, op) == w.ledger
  {
    hide AddTokenTx, Ledgers.AddMatch;
  }

  // ---------------------------------------------------------------- the next block of a chain

  lemma ReadyIf(w: World, b: Backlog, c: string)
    requires Pending(b, c) && c in w.ledger.tokens
    ensures Ready(w, b, c) <==> Run(w, b[c][0]).Some?
    ensures Ready(w, b, c) ==> BlockStep(w, c, b[c][0]) == Run(w, b[c][0])
    ensures Head(b, c) == b[c][0]
  {
    hide Run;
  }

  lemma HeadReplayable(p: Progress, c: string, n: nat)
    requires Storable(p.contents) && n < |Saved(p.contents, c)|
    ensures Replayable(DataOps(c, Saved(p.contents, c)[n].data))
  {
    hide DataOps, WellFormed;
    var data := Saved(p.contents, c)[n].data;
    assert Restorable(c, data);
    HoldsNoRelease(c, data);
    OfOneChain(DataOps(c, data), "", c);
  }

  lemma ReplayBehind(p: Progress, delivered: map<string, nat>, c: string)
    requires Behind(p.left, p.contents, delivered) && WellFormedBacklog(p.left) && Ready(p.world, p.left, c)
    ensures var q := Replay(p, c);
      && Behind(q.left, q.contents, delivered[c := Done(delivered, c) + 1]) && WellFormedBacklog(q.left)
      && q.contents == p.contents && q.world == BlockStep(p.world, c, p.left[c][0]).value
  {
    hide BlockStep, Behind, OfChain;
    OneDelivered(p.left, p.contents, delivered, c);
    BacklogHead(p.left, c);
  }

  lemma RefuseBehind(p: Progress, delivered: map<string, nat>, c: string)
    requires Behind(p.left, p.contents, delivered) && WellFormedBacklog(p.left) && Storable(p.contents)
    requires Pending(p.left, c) && c in p.world.ledger.tokens && delivered.Keys <= p.world.ledger.tokens.Keys
    requires Inv(p.world) && Replayable(p.left[c][0])
    ensures var q := Refuse(p, c);
      && Behind(q.left, q.contents, delivered) && WellFormedBacklog(q.left) && Storable(q.contents)
      && q.world == p.world && q.contents == p.contents - CreatedIn(p.left[c][0][..Accepted(p.world, p.left[c][0])])
      && Pending(q.left, c) && Queue(q.left, c) == Queue(p.left, c)
  {
    hide Inv, Run, WellFormedBacklog, Storable, Behind, Replayable, CreatedIn, Accepted;
    var ops := p.left[c][0];
    AcceptedRuns(p.world, ops);
    AllWellFormedIn(ops);
    CreatedAreNew(p.world, ops, Accepted(p.world, ops));
    LessStored(p.left, p.contents, delivered, Uncreated(p, c), p.world.ledger.tokens.Keys, c);
  }

  /** Less is in store, of chains that have not been opened. */
  lemma LessStored(b: Backlog, contents: map<string, seq<Block>>, delivered: map<string, nat>, gone: set<string>,
                   open: set<string>, c: string)
    requires Behind(b, contents, delivered) && WellFormedBacklog(b) && Storable(contents)
    requires gone !! open && delivered.Keys <= open && c in open && Pending(b, c)
    ensures WellFormedBacklog(b - StoredOf(contents, gone)) && Storable(contents - gone)
    ensures Behind(b - StoredOf(contents, gone), contents - gone, delivered)
    ensures Pending(b - StoredOf(contents, gone), c) && Queue(b - StoredOf(contents, gone), c) == Queue(b, c)
  {
    hide OfChain, Restorable, DataOps;
    var b' := b - StoredOf(contents, gone);
    forall d ensures Done(delivered, d) <= |Saved(contents - gone, d)|
                  && Queue(b', d) == Replayed(d, Saved(contents - gone, d))[Done(delivered, d)..]
    {
      assert Queue(b, d) == Replayed(d, Saved(contents, d))[Done(delivered, d)..];
      if d in gone {
        assert d !in delivered;
        NothingReplayed(d);
        if d !in StoredOf(contents, gone) {
          assert Saved(contents, d) == [] && Queue(b', d) == Queue(b, d);
        }
      } else {
        assert Queue(b', d) == Queue(b, d) && Saved(contents - gone, d) == Saved(contents, d);
      }
    }
  }

  lemma NothingReplayed(c: string)
    ensures Replayed(c, []) == [] && Replayed(c, [])[0..] == []
  {}

  /** One block of a visit. */
  lemma VisitNext(p: Progress, c: string)
    ensures !Pending(p.left, c) ==> Visit(p, c) == p
    ensures Pending(p.left, c) && !Ready(p.world, p.left, c) ==> Visit(p, c) == Refuse(p, c)
    ensures Ready(p.world, p.left, c) ==>
      Visit(Replay(p, c), c) == Visit(p, c) && |Queue(Replay(p, c).left, c)| < |Queue(p.left, c)|
  {
    hide Refuse, BlockStep;
  }

  // ---------------------------------------------------------------- a pass over the chains

  /** The chains that are done are open and have nothing left. */
  ghost predicate AllDone(chainsDone: set<string>, p: Progress) {
    forall c :: c in chainsDone ==> !Pending(p.left, c) && c in p.world.ledger.tokens
  }

  lemma DoneMeans(chainsDone: set<string>, p: Progress, c: string)
    requires AllDone(chainsDone, p) && c in chainsDone
    ensures !Pending(p.left, c)
  {}

  lemma OneMoreDone(chainsDone: set<string>, p: Progress, c: string)
    requires AllDone(chainsDone, p) && !Pending(p.left, c) && c in p.world.ledger.tokens
    ensures AllDone(chainsDone + {c}, p)
  {}

  lemma StillDone(chainsDone: set<string>, p: Progress, c: string)
    requires AllDone(chainsDone, p) && Inv(p.world) && WellFormedBacklog(p.left) && c !in chainsDone
    ensures AllDone(chainsDone, Visit(p, c))
  {
    hide Inv, WellFormedBacklog, Visit;
    VisitElsewhere(p, c);
    forall d | d in chainsDone ensures !Pending(Visit(p, c).left, d) {
      PendingQueue(p.left, d);
      PendingQueue(Visit(p, c).left, d);
    }
  }

  lemma PendingQueue(b: Backlog, c: string)
    ensures Pending(b, c) <==> Queue(b, c) != []
  {}

  /** Some of the symbols: a map that grows while it is visited may show the new keys or not. */
  method SomeSymbols(symbols: set<string>) returns (some: set<string>)
    ensures some <= symbols
  {
    some :| some <= symbols;
  }

  /** During a pass: what was open when it began has been visited or is still to be visited. */
  ghost predicate Passing(p: Progress, visits: seq<string>, todo: set<string>) {
    && (forall c :: c in p.world.ledger.tokens ==> c in visits || c in todo)
    && (forall i :: 0 <= i < |visits| ==> visits[i] in VisitAll(p, visits[..i]).world.ledger.tokens)
  }

  /** What has been visited is done, or has a block left that was refused. */
  ghost predicate Tried(p: Progress, visits: seq<string>, todo: set<string>, chainsDone: set<string>) {
    forall c :: c in visits ==> c !in todo && c in p.world.ledger.tokens && (c in chainsDone || Pending(p.left, c))
  }

  lemma NoVisits(p: Progress, chainsDone: set<string>)
    ensures VisitAll(p, []) == p && Passing(p, [], p.world.ledger.tokens.Keys)
    ensures Tried(p, [], p.world.ledger.tokens.Keys, chainsDone)
  {}

  lemma PassesOn(p: Progress, visits: seq<string>, todo: set<string>, c: string, added: set<string>)
    requires Passing(p, visits, todo) && c in VisitAll(p, visits).world.ledger.tokens
    ensures Passing(p, visits + [c], todo - {c} + added)
    ensures VisitAll(p, visits + [c]) == Visit(VisitAll(p, visits), c)
  {
    hide Visit;
    var more := visits + [c];
    assert more[..|visits|] == visits;
    forall i | 0 <= i < |more| ensures more[i] in VisitAll(p, more[..i]).world.ledger.tokens {
      if i < |visits| {
        assert more[..i] == visits[..i];
      }
    }
  }

  lemma TriedOn(p: Progress, visits: seq<string>, todo: set<string>, before: set<string>, c: string,
                  chainsDone: set<string>, added: set<string>)
    requires Tried(p, visits, todo, before) && Inv(p.world) && WellFormedBacklog(p.left) && before <= chainsDone
    requires c in todo && c in p.world.ledger.tokens && added !! p.world.ledger.tokens.Keys
    requires c in chainsDone || Pending(Visit(p, c).left, c)
    ensures Tried(Visit(p, c), visits + [c], todo - {c} + added, chainsDone)
  {
    hide Inv, WellFormedBacklog, Visit;
    VisitElsewhere(p, c);
    forall d | d in visits + [c]
      ensures d !in todo - {c} + added && d in Visit(p, c).world.ledger.tokens && (d in chainsDone || Pending(Visit(p, c).left, d))
    {
      PendingQueue(p.left, d);
      PendingQueue(Visit(p, c).left, d);
      assert d in visits || d == c;
    }
  }

  lemma PassEnds(p: Progress, visits: seq<string>)
    requires Passing(p, visits, {})
    ensures Pass(p, visits)
  {
    hide VisitAll;
  }

  lemma TriedEnds(p: Progress, visits: seq<string>, chainsDone: set<string>)
    requires Tried(p, visits, {}, chainsDone)
    ensures forall c :: c in visits ==> c in chainsDone || Pending(p.left, c)
  {}

  lemma ExtendsKeys(a: map<string, Blockchain>, b: map<string, Blockchain>)
    requires Extends(a, b)
    ensures a.Keys <= b.Keys
  {}

  /** The last pass replayed something, or left something to be replayed. */
  ghost predicate Unfinished(saved: map<string, seq<Block>>, passes: seq<seq<string>>) {
    passes == [] ||
    !(Idle(AfterPasses(Begin(saved), passes[..|passes| - 1]), AfterPasses(Begin(saved), passes))
      && Finished(AfterPasses(Begin(saved), passes)))
  }

  lemma NoPasses(saved: map<string, seq<Block>>)
    ensures AfterPasses(Begin(saved), []) == Begin(saved) && Execution(saved, []) && Unfinished(saved, [])
    ensures AllDone({}, Begin(saved))
  {}

  lemma OnePassMore(saved: map<string, seq<Block>>, passes: seq<seq<string>>, visits: seq<string>)
    requires Execution(saved, passes) && Pass(AfterPasses(Begin(saved), passes), visits)
    ensures Execution(saved, passes + [visits])
    ensures AfterPasses(Begin(saved), passes + [visits]) == VisitAll(AfterPasses(Begin(saved), passes), visits)
  {
    hide Pass, VisitAll, Begin;
    var more := passes + [visits];
    assert more[..|passes|] == passes;
    forall i | 0 <= i < |more| ensures Pass(AfterPasses(Begin(saved), more[..i]), more[i]) {
      if i < |passes| {
        assert more[..i] == passes[..i];
      }
    }
  }

  lemma PassResult(saved: map<string, seq<Block>>, passes: seq<seq<string>>, visits: seq<string>, chainsDone: set<string>)
    requires Pass(AfterPasses(Begin(saved), passes), visits)
    requires AfterPasses(Begin(saved), passes + [visits]) == VisitAll(AfterPasses(Begin(saved), passes), visits)
    requires var p := AfterPasses(Begin(saved), passes + [visits]);
      AllDone(chainsDone, p) && forall c :: c in visits ==> c in chainsDone || Pending(p.left, c)
    ensures var p := AfterPasses(Begin(saved), passes + [visits]);
      && (p.world.ledger.tokens.Keys <= chainsDone ==> Finished(p))
      && (!(p.world.ledger.tokens.Keys <= chainsDone) ==> Unfinished(saved, passes + [visits]))
  {
    hide VisitAll, Begin, AfterPasses;
    assert (passes + [visits])[..|passes + [visits]| - 1] == passes;
  }
}
