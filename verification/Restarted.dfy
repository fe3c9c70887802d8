/** What a restart leaves of a node.  A node that is restarted has its state and its chains again exactly when
    no freeze of any funds fell due while it ran and the replay loses no chain; a node that has refused a block
    which cancelled an order never has its state again. */
module Restarted {
  import opened Amounts
  import opened Transactions
  import opened TokenLedger
  import opened Ledgers
  import opened Commutation
  import opened Schedules
  import opened Timelines
  import opened Determinism
  import opened OrderHistory
  import opened ConsensusStates
  import opened Chains
  import opened Admission
  import opened Multichain
  import opened Recovery
  import opened Restart
  import opened LiveRestart
  import opened Forgetting
  import opened Market

  /** The restarted node has finished, and has the state and the chains of the former one. */
  ghost predicate Recovered(n: Blockchains, r: RecoveringBlockchains, done: bool)
    reads n, n.state, n.state.tokenStates.Values, n.chains.Values
    reads r, r.state, r.state.tokenStates.Values, r.chains.Values
  {
    && done && r.state.View() == n.state.View() && r.chains.Keys == n.chains.Keys
    && forall c :: c in n.chains ==> r.chains[c].blocks == n.chains[c].blocks
  }

  /** How restoreFromDatabase ends. */
  ghost predicate Ends(saved: map<string, seq<Block>>, passes: seq<seq<string>>, done: bool) {
    && Execution(saved, passes)
    && (done ==> Finished(AfterPasses(Begin(saved), passes)) && passes != [])
    && (!done ==> Unfinished(saved, passes))
  }

  function Lost(saved: map<string, seq<Block>>, passes: seq<seq<string>>): set<string> {
    AfterPasses(Begin(saved), passes).lost
  }

  // ---------------------------------------------------------------- what a node has stored

  lemma {:induction false} CancelNothing(t: Timeline, c: string)
    requires NoCancels(Flat(t))
    ensures forall i :: 0 <= i < |BlocksOf(t, c)| ==> NoCancels(BlocksOf(t, c)[i])
    decreases |t|
  {
    if t != [] {
      var n := |t| - 1;
      forall i | 0 <= i < |Flat(t[..n])| ensures !Flat(t[..n])[i].CancelOp? {
        assert Flat(t)[i] == Flat(t[..n])[i];
      }
      forall i | 0 <= i < |t[n].ops| ensures !t[n].ops[i].CancelOp? {
        assert Flat(t)[|Flat(t[..n])| + i] == t[n].ops[i];
      }
      CancelNothing(t[..n], c);
    }
  }

  /** What a node has stored can be replayed transaction by transaction. */
  lemma StorableNode(n: Blockchains)
    requires n.Kept()
    ensures Storable(Contents(n)) && WellFormedBacklog(ReplayBacklog(Contents(n)))
  {
    hide ConsensusState.Valid, Run, Flat, BlocksOf, Blockchain.Valid, HeightOf, Programs, DataOps, NoCancels, OfChain;
    RunsCancelNothing(GENESIS, Flat(n.timeline));
    forall c, i | c in Contents(n) && 0 <= i < |Contents(n)[c]| ensures Restorable(c, Contents(n)[c][i].data) {
      CancelNothing(n.timeline, c);
      assert n.Coupled(c, []);
      NoRest(Programs(c, n.chains[c].blocks));
      ProgramAt(c, n.chains[c].blocks, i);
      StoredCancelsNothing(c, n.chains[c].blocks[i].data, i + 1);
    }
    StorableBacklog(Contents(n));
  }

  lemma ProgramAt(c: string, blocks: seq<Block>, i: nat)
    requires i < |blocks|
    ensures |Programs(c, blocks)| == |blocks| && Programs(c, blocks)[i] == BlockOps(c, blocks[i].data, i + 1)
  {
    hide BlockOps;
  }

  lemma StoredCancelsNothing(c: string, data: BlockData, h: nat)
    requires NoCancels(BlockOps(c, data, h))
    ensures NoCancels(DataOps(c, data))
  {
    hide DataOps;
    forall i | 0 <= i < |DataOps(c, data)| ensures !DataOps(c, data)[i].CancelOp? {
      assert BlockOps(c, data, h)[i] == DataOps(c, data)[i];
    }
  }

  // ---------------------------------------------------------------- exactly when a node is recovered

  lemma {:induction false} LeadsKeys(w: World, b: Backlog, order: seq<string>)
    requires Leads(w, b, order).Some?
    ensures Leads(w, b, order).value.1.Keys == b.Keys
    decreases |order|
  {
    hide BlockStep;
    if order != [] {
      LeadsKeys(BlockStep(w, order[0], b[order[0]][0]).value, Advance(b, order[0]), order[1..]);
    }
  }

  /** A restart that recovers the chains has lost nothing, and has followed a schedule for all of them. */
  lemma RecoveredCompletes(n: Blockchains, r: RecoveringBlockchains, passes: seq<seq<string>>, done: bool)
    requires n.Kept() && Ends(Contents(n), passes, done) && r.Restored(AfterPasses(Begin(Contents(n)), passes))
    requires Recovered(n, r, done)
    ensures var p := AfterPasses(Begin(Contents(n)), passes);
      && p.lost == {} && Completes(GENESIS, ReplayBacklog(Contents(n)), p.history, p.world)
      && p.world.ledger == n.state.View()
  {
    hide ConsensusState.Valid, ConsensusState.View, Blockchain.Valid, AfterPasses, Begin, WellFormedBacklog, ReplayBacklog,
         Replays, BlocksOf, Leads, Execution, Completes, Blockchains.Coupled, Blockchains.ChainsOk, Inv, LosesAfter;
    var saved := Contents(n);
    var p := AfterPasses(Begin(saved), passes);
    StorableNode(n);
    BeginLogged(saved);
    PassesLogged(saved, Begin(saved), passes);
    forall s ensures s !in p.lost {
      if s in n.chains {
        assert r.chains[s].blocks == Saved(p.contents, s);
      }
    }
    LeadsKeys(GENESIS, ReplayBacklog(saved), p.history);
    BacklogKeys(saved);
    forall c ensures !Pending(p.left, c) {
      if c in p.left {
        assert c in p.world.ledger.tokens;
      }
    }
    LeadsCompletes(GENESIS, ReplayBacklog(saved), p.history);
  }

  lemma BacklogKeys(saved: map<string, seq<Block>>)
    ensures ReplayBacklog(saved).Keys == saved.Keys
  {}

  /** A restart that lost nothing and is given the time that it needs ends where any schedule does. */
  lemma NothingLostEnds(n: Blockchains, passes: seq<seq<string>>, done: bool, order: seq<string>, end: World)
    requires n.Kept() && Ends(Contents(n), passes, done) && (done || |passes| > |order|) && Lost(Contents(n), passes) == {}
    requires Completes(GENESIS, ReplayBacklog(Contents(n)), order, end)
    ensures done && AfterPasses(Begin(Contents(n)), passes).world == end
  {
    hide AfterPasses, Begin, WellFormedBacklog, ReplayBacklog, Leads, Completes, Execution, Inv, Blockchains.Kept, Ready;
    var saved := Contents(n);
    var p := AfterPasses(Begin(saved), passes);
    StorableNode(n);
    BeginLogged(saved);
    PassesLogged(saved, Begin(saved), passes);
    if done {
      GenesisInv();
      var rest := Remaining(GENESIS, ReplayBacklog(saved), p.history, order, end);
      NoneReady(p);
      NoneLeft(p.world, p.left, rest, end);
    } else {
      LongEnough(saved, passes, order, end);
    }
  }

  lemma NoneReady(p: Progress)
    requires Finished(p)
    ensures forall c :: !Ready(p.world, p.left, c)
  {
    hide Run;
  }

  lemma SameKeysAndBlocks(n: Blockchains, r: RecoveringBlockchains, p: Progress)
    requires n.Mirrors() && r.Restored(p) && p.world.ledger == n.state.View()
    requires p.lost == {} && forall s :: s !in p.lost ==> Saved(p.contents, s) == Saved(Contents(n), s)
    ensures r.state.View() == n.state.View() && r.chains.Keys == n.chains.Keys
    ensures forall c :: c in n.chains ==> r.chains[c].blocks == n.chains[c].blocks
  {
    hide ConsensusState.Valid, ConsensusState.View, Blockchain.Valid, Replays, BlocksOf, Fits, Programs, HeightOf;
    n.state.ViewTokens();
    assert n.chains.Keys == n.state.tokenStates.Keys;
    forall c | c in n.chains ensures r.chains[c].blocks == n.chains[c].blocks {
      assert Saved(Contents(n), c) == n.chains[c].blocks;
    }
  }

  /** A node that is restarted, and given a pass more than it has blocks if it does not finish before, has its
      state and its chains again if and only if no freeze of any funds fell due while it ran and no block was
      refused on the way that had created a token whose chain is in store. */
  lemma RecoveredIff(n: Blockchains, r: RecoveringBlockchains, passes: seq<seq<string>>, done: bool)
    requires n.Mirrors() && Ends(Contents(n), passes, done) && (done || |passes| > |n.timeline|)
    requires r.Restored(AfterPasses(Begin(Contents(n)), passes))
    ensures Recovered(n, r, done) <==> NoneDue(Flat(n.timeline)) && Lost(Contents(n), passes) == {}
  {
    hide *;
    var saved := Contents(n);
    var p := AfterPasses(Begin(saved), passes);
    n.MirrorsKept();
    LedgerOf(n);
    StorableNode(n);
    LostIs(saved, passes);
    if Recovered(n, r, done) {
      RecoveredCompletes(n, r, passes, done);
      RecoveredNoneDue(n, p.history, p.world);
    }
    if NoneDue(Flat(n.timeline)) && Lost(saved, passes) == {} {
      var order, end := RestartAgrees(n);
      NothingLostEnds(n, passes, done, order, end);
      LoggedContents(saved, passes);
      SameKeysAndBlocks(n, r, p);
      RecoveredIs(n, r, done);
    }
  }

  lemma LedgerOf(n: Blockchains)
    requires n.Mirrors()
    ensures n.world.ledger == n.state.View()
  {
    hide ConsensusState.Valid, ConsensusState.View, Blockchains.ChainsOk, Blockchains.Coupled, Replays, BlocksOf;
  }

  lemma LostIs(saved: map<string, seq<Block>>, passes: seq<seq<string>>)
    ensures Lost(saved, passes) == AfterPasses(Begin(saved), passes).lost
  {}

  lemma LoggedContents(saved: map<string, seq<Block>>, passes: seq<seq<string>>)
    requires WellFormedBacklog(ReplayBacklog(saved))
    ensures var p := AfterPasses(Begin(saved), passes); forall s :: s !in p.lost ==> Saved(p.contents, s) == Saved(saved, s)
  {
    hide AfterPasses, WellFormedBacklog, ReplayBacklog, Begin, Inv;
    BeginLogged(saved);
    PassesLogged(saved, Begin(saved), passes);
  }

  lemma RecoveredIs(n: Blockchains, r: RecoveringBlockchains, done: bool)
    requires done && r.state.View() == n.state.View() && r.chains.Keys == n.chains.Keys
    requires forall c :: c in n.chains ==> r.chains[c].blocks == n.chains[c].blocks
    ensures Recovered(n, r, done)
  {
    hide ConsensusState.View;
  }

  /** When blocks that create tokens do nothing else, nothing is ever lost. */
  lemma AloneRecovers(n: Blockchains, r: RecoveringBlockchains, passes: seq<seq<string>>, done: bool)
    requires n.Mirrors() && Ends(Contents(n), passes, done) && (done || |passes| > |n.timeline|)
    requires r.Restored(AfterPasses(Begin(Contents(n)), passes))
    requires CreateBlocksAlone(Contents(n))
    ensures Recovered(n, r, done) <==> NoneDue(Flat(n.timeline))
  {
    hide *;
    var saved := Contents(n);
    n.MirrorsKept();
    LostIs(saved, passes);
    RecoveredIff(n, r, passes, done);
    if NoneDue(Flat(n.timeline)) {
      var order, end := RestartAgrees(n);
      BeginLogged(saved);
      PassesLogged(saved, Begin(saved), passes);
      AloneBacklog(saved);
      NothingLost(saved, AfterPasses(Begin(saved), passes), order, end);
    }
  }

  lemma AloneBacklog(saved: map<string, seq<Block>>)
    requires CreateBlocksAlone(saved)
    ensures AloneIn(ReplayBacklog(saved))
  {
    hide CreatesAlone, DataOps;
  }

  /** When the first block of the MATCH chain that makes a match also creates a token, no restart recovers the
      node: it always loses the chain of the token. */
  lemma MixedNeverRecovers(n: Blockchains, r: RecoveringBlockchains, passes: seq<seq<string>>, done: bool, k: nat, j: nat, s: string)
    requires n.Mirrors() && Ends(Contents(n), passes, done)
    requires r.Restored(AfterPasses(Begin(Contents(n)), passes))
    requires var q := Replayed(MATCH_CHAIN, Saved(Contents(n), MATCH_CHAIN));
      MixedAfter(q, k, j) && Run(GENESIS, Joined(q[..k]) + q[k][..j]).Some? && s in CreatedIn(q[k][..j])
    requires Saved(Contents(n), s) != []
    ensures !Recovered(n, r, done)
  {
    hide *;
    var saved := Contents(n);
    n.MirrorsKept();
    StorableNode(n);
    if Recovered(n, r, done) {
      RecoveredCompletes(n, r, passes, done);
      DoneAfterAPass(saved, passes, n, r, done);
      MixedBlockLoses(saved, passes, k, j);
      StoredToken(saved, Replayed(MATCH_CHAIN, Saved(saved, MATCH_CHAIN)), k, j, s);
      assert false;
    }
  }

  lemma DoneAfterAPass(saved: map<string, seq<Block>>, passes: seq<seq<string>>, n: Blockchains, r: RecoveringBlockchains, done: bool)
    requires Ends(saved, passes, done) && Recovered(n, r, done)
    ensures passes != [] && Execution(saved, passes)
  {
    hide Execution, Unfinished, Finished, ConsensusState.View;
  }

  lemma StoredToken(saved: map<string, seq<Block>>, q: seq<Program>, k: nat, j: nat, s: string)
    requires MixedAfter(q, k, j) && s in CreatedIn(q[k][..j]) && Saved(saved, s) != []
    ensures StoredOf(saved, CreatedIn(q[k][..j])) != {}
  {
    hide CreatedIn;
    assert s in StoredOf(saved, CreatedIn(q[k][..j]));
  }

  // ---------------------------------------------------------------- a node in which an order is cancelled

  /** The order is on file, open or closed. */
  ghost predicate Known(w: World, s: string, id: u64) {
    s in w.ledger.tokens && Named(w.ledger.tokens[s], id).Some?
  }

  predicate PlacesOrder(op: Op, s: string, id: u64) {
    op.TokenOp? && op.symbol == s && op.tx.Place? && op.tx.order.id == id
  }

  ghost predicate PlacesIn(ops: Program, s: string, id: u64) {
    exists i :: 0 <= i < |ops| && PlacesOrder(ops[i], s, id)
  }

  ghost predicate PlacesInSome(blocks: seq<Program>, s: string, id: u64) {
    exists i :: 0 <= i < |blocks| && PlacesIn(blocks[i], s, id)
  }

  lemma {:induction false} PlacedIn(ops: Program, s: string, id: u64)
    requires LifeOf(ops, s, id).placed.Some?
    ensures PlacesIn(ops, s, id)
    decreases |ops|
  {
    var n := |ops| - 1;
    if PlacesOrder(ops[n], s, id) {
    } else {
      PlacedIn(ops[..n], s, id);
      var i :| 0 <= i < n && PlacesOrder(ops[..n][i], s, id);
      assert PlacesOrder(ops[i], s, id);
    }
  }

  /** An order that is on file was placed. */
  lemma KnownWasPlaced(ops: Program, w: World, s: string, id: u64)
    requires AllWellFormed(ops) && Run(GENESIS, ops) == Some(w) && Known(w, s, id)
    ensures PlacesIn(ops, s, id)
  {
    hide Run, LifeOf, PlacesIn, Count;
    LedgerAgrees(ops, w, s, id);
    PlacedIn(ops, s, id);
  }

  lemma PlacesConcat(a: Program, b: Program, s: string, id: u64)
    ensures PlacesIn(a + b, s, id) <==> PlacesIn(a, s, id) || PlacesIn(b, s, id)
  {
    hide PlacesOrder;
    if i :| 0 <= i < |a| && PlacesOrder(a[i], s, id) {
      assert (a + b)[i] == a[i];
    }
    if i :| 0 <= i < |b| && PlacesOrder(b[i], s, id) {
      assert (a + b)[|a| + i] == b[i];
    }
  }

  /** ... in a block of its token's chain. */
  lemma {:induction false} PlacedOnChain(t: Timeline, s: string, id: u64)
    requires WellFormedTimeline(t) && PlacesIn(Flat(t), s, id)
    ensures PlacesInSome(BlocksOf(t, s), s, id)
    decreases |t|
  {
    hide OfChain, PlacesIn, PlacesOrder;
    if t == [] {
      PlacedNowhere(s, id);
      assert false;
    } else {
      var n := |t| - 1;
      PlacesConcat(Flat(t[..n]), t[n].ops, s, id);
      var blocks := BlocksOf(t, s);
      if PlacesIn(t[n].ops, s, id) {
        PlacedOnOwnChain(t[n].ops, t[n].chain, s, id);
        assert blocks[|blocks| - 1] == t[n].ops;
      } else {
        PlacedOnChain(t[..n], s, id);
        var i :| 0 <= i < |BlocksOf(t[..n], s)| && PlacesIn(BlocksOf(t[..n], s)[i], s, id);
        assert blocks[i] == BlocksOf(t[..n], s)[i];
      }
    }
  }

  lemma PlacedNowhere(s: string, id: u64)
    ensures !PlacesIn(Flat([]), s, id)
  {}

  lemma PlacedOnOwnChain(ops: Program, c: string, s: string, id: u64)
    requires OfChain(ops, c) && PlacesIn(ops, s, id)
    ensures c == s
  {
    var i :| 0 <= i < |ops| && PlacesOrder(ops[i], s, id);
    assert ChainOf(ops[i]) == c;
  }

  lemma {:induction false} StripPlaces(ops: Program, s: string, id: u64)
    requires PlacesIn(ops, s, id)
    ensures PlacesIn(Strip(ops), s, id)
    decreases |ops|
  {
    var i :| 0 <= i < |ops| && PlacesOrder(ops[i], s, id);
    if i == 0 {
      assert PlacesOrder(Strip(ops)[0], s, id);
    } else {
      assert PlacesOrder(ops[1..][i - 1], s, id);
      StripPlaces(ops[1..], s, id);
      PlacesConcat([ops[0]], Strip(ops[1..]), s, id);
    }
  }

  /** What is on file stays on file, and what is placed comes on file. */
  lemma KnownStep(w: World, op: Op, s: string, id: u64)
    requires Inv(w) && WellFormed(op) && Step(w, op).Some?
    ensures Known(w, s, id) || PlacesOrder(op, s, id) ==> Known(Step(w, op).value, s, id)
  {
    hide Inv, ValidMatch, AddMatch, Named, Count, Apply, NewToken;
    match op
    case TokenOp(r, x) =>
      if r == s {
        KnownTx(w, s, x, id);
      }
    case MatchOp(m) =>
      MatchSteps(w, m);
      if Known(w, s, id) {
        MatchCountsUp(w, m, s, id);
      }
    case CreateOp(c) =>
      NewInStep(w, op);
    case CancelOp(_) =>
  }

  lemma KnownTx(w: World, s: string, x: TokenTx, id: u64)
    requires Inv(w) && Step(w, TokenOp(s, x)).Some?
    ensures Known(w, s, id) || PlacesOrder(TokenOp(s, x), s, id) ==> Known(Step(w, TokenOp(s, x)).value, s, id)
  {
    hide Worth, Count;
    if Known(w, s, id) {
      hide Apply, Named;
      TxKeepsNamed(w.ledger.tokens[s], x, id);
    }
  }

  lemma {:induction false} KnownRun(w: World, ops: Program, s: string, id: u64)
    requires Inv(w) && AllWellFormed(ops) && Run(w, ops).Some? && (Known(w, s, id) || PlacesIn(ops, s, id))
    ensures Known(Run(w, ops).value, s, id)
    decreases |ops|
  {
    hide Inv, WellFormed, Step, Known, PlacesOrder;
    if ops != [] {
      KnownStep(w, ops[0], s, id);
      StepInv(w, ops[0]);
      PlacesConcat([ops[0]], ops[1..], s, id);
      assert [ops[0]] + ops[1..] == ops;
      if PlacesIn([ops[0]], s, id) {
        assert PlacesOrder(ops[0], s, id);
      }
      KnownRun(Step(w, ops[0]).value, ops[1..], s, id);
    }
  }

  /** After any complete replay all orders that were placed are on file. */
  lemma {:induction false} KnownReplay(w: World, b: Backlog, order: seq<string>, end: World, s: string, id: u64)
    requires Inv(w) && WellFormedBacklog(b) && Completes(w, b, order, end)
    requires Known(w, s, id) || PlacesInSome(Queue(b, s), s, id)
    ensures Known(end, s, id)
    decreases |order|
  {
    hide Inv, OfChain, Known, PlacesIn, Run, WellFormedBacklog;
    if order == [] {
      assert !Pending(b, s);
    } else {
      var c := order[0];
      var ops := b[c][0];
      BacklogHead(b, c);
      BlockStepInv(w, c, ops);
      OfOneChain(ops, "", c);
      if Known(w, s, id) || (c == s && PlacesIn(ops, s, id)) {
        KnownRun(w, ops, s, id);
      } else {
        PlacesAdvance(b, c, s, id);
      }
      KnownReplay(Run(w, ops).value, Advance(b, c), order[1..], end, s, id);
    }
  }

  lemma PlacesAdvance(b: Backlog, c: string, s: string, id: u64)
    requires Pending(b, c) && PlacesInSome(Queue(b, s), s, id) && (c != s || !PlacesIn(b[c][0], s, id))
    ensures PlacesInSome(Queue(Advance(b, c), s), s, id)
  {
    hide PlacesIn;
    var i :| 0 <= i < |Queue(b, s)| && PlacesIn(Queue(b, s)[i], s, id);
    if c == s {
      assert Queue(Advance(b, c), s)[i - 1] == Queue(b, s)[i];
    } else {
      assert Queue(Advance(b, c), s)[i] == Queue(b, s)[i];
    }
  }

  /** Every replay of the chains of a node puts the orders of its timeline on file. */
  lemma KnownAgain(n: Blockchains, order: seq<string>, end: World, s: string, id: u64)
    requires n.Kept() && Known(n.world, s, id)
    requires Completes(GENESIS, ReplayBacklog(Contents(n)), order, end)
    ensures Known(end, s, id)
  {
    hide *;
    var b := ReplayBacklog(Contents(n));
    NodeTimeline(n);
    TimelineRuns(n.timeline, n.world);
    KnownWasPlaced(Flat(n.timeline), n.world, s, id);
    PlacedOnChain(n.timeline, s, id);
    BacklogOfNode(n, s);
    StripAllPlaces(BlocksOf(n.timeline, s), s, id);
    StorableNode(n);
    GenesisInv();
    KnownReplay(GENESIS, b, order, end, s, id);
  }

  lemma TimelineRuns(t: Timeline, w: World)
    requires Replays(t, w)
    ensures AllWellFormed(Flat(t)) && Run(GENESIS, Flat(t)) == Some(w) && Inv(w)
  {
    hide Run, Inv, OfChain;
    FlatWellFormed(t);
    ReplayInv(t, w);
  }

  lemma StripAllPlaces(blocks: seq<Program>, s: string, id: u64)
    requires PlacesInSome(blocks, s, id)
    ensures PlacesInSome(StripAll(blocks), s, id)
  {
    hide PlacesIn, Strip;
    var i :| 0 <= i < |blocks| && PlacesIn(blocks[i], s, id);
    StripPlaces(blocks[i], s, id);
    assert StripAll(blocks)[i] == Strip(blocks[i]);
  }

  lemma CancelledIsUnknown(w: World, c: CancelOrder)
    requires Inv(w) && Ledgers.AddCancelOrder(w.ledger, c).Some?
    ensures Known(w, c.orderSymbol, c.orderId)
    ensures !Known(w.(ledger := Ledgers.AddCancelOrder(w.ledger, c).value), c.orderSymbol, c.orderId)
  {
    hide Worth, Credit;
  }

  /** A node in which an order was cancelled by a block that was refused is never recovered: its chains do not
      say that the order was cancelled. */
  lemma StrayedNeverRecovers(n: Blockchains, r: RecoveringBlockchains, passes: seq<seq<string>>, done: bool)
    requires n.Strayed() && Ends(Contents(n), passes, done)
    requires r.Restored(AfterPasses(Begin(Contents(n)), passes))
    ensures !Recovered(n, r, done)
  {
    hide *;
    var p := AfterPasses(Begin(Contents(n)), passes);
    var c := CancelledIn(n);
    NodeTimeline(n);
    TimelineRuns(n.timeline, n.world);
    CancelledIsUnknown(n.world, c);
    if Recovered(n, r, done) {
      RecoveredCompletes(n, r, passes, done);
      KnownAgain(n, p.history, p.world, c.orderSymbol, c.orderId);
      SameKnown(p.world, n.world.(ledger := n.state.View()), c.orderSymbol, c.orderId);
      assert false;
    }
  }

  lemma SameKnown(v: World, w: World, s: string, id: u64)
    requires v.ledger == w.ledger
    ensures Known(v, s, id) <==> Known(w, s, id)
  {}

  lemma CancelledIn(n: Blockchains) returns (c: CancelOrder)
    requires n.Strayed()
    ensures n.Kept() && Ledgers.AddCancelOrder(n.world.ledger, c) == Some(n.state.View())
  {
    hide ConsensusState.Valid, ConsensusState.View, Ledgers.AddCancelOrder, Blockchains.Kept;
    c :| Ledgers.AddCancelOrder(n.world.ledger, c) == Some(n.state.View());
  }

  // ---------------------------------------------------------------- restarting

  lemma BucketsHold(n: Blockchains, db: map<string, Bucket>)
    requires n.Kept() && db == map c | c in n.chains :: Bucket(n.chains[c].store, n.chains[c].last)
    ensures HoldsChains(db, Contents(n))
  {
    hide ConsensusState.Valid, Replays, BlocksOf, Fits, Programs, HeightOf, Linked, Stores, HashesOf;
  }

  /** Start a node anew from what another one has stored. */
  method RestartNode(n: Blockchains, bound: nat)
    returns (r: RecoveringBlockchains, done: bool, ghost passes: seq<seq<string>>)
    requires n.Kept()
    ensures fresh(r) && r.Restored(AfterPasses(Begin(Contents(n)), passes))
    ensures Ends(Contents(n), passes, done) && (!done ==> |passes| == bound)
  {
    hide *;
    var db := map c | c in n.chains :: Bucket(n.chains[c].store, n.chains[c].last);
    BucketsHold(n, db);
    StorableNode(n);
    r := new RecoveringBlockchains(db, Contents(n));
    done, passes := r.restoreFromDatabase(bound, Contents(n));
    EndsSo(Contents(n), passes, done);
  }

  lemma EndsSo(saved: map<string, seq<Block>>, passes: seq<seq<string>>, done: bool)
    requires Execution(saved, passes)
    requires done ==> Finished(AfterPasses(Begin(saved), passes)) && passes != []
    requires !done ==> Unfinished(saved, passes)
    ensures Ends(saved, passes, done)
  {}

  // ---------------------------------------------------------------- the market, restarted

  lemma ReplayedDatas(c: string, blocks: seq<Block>, datas: seq<BlockData>)
    requires Datas(blocks) == datas
    ensures |Replayed(c, blocks)| == |datas| && forall i :: 0 <= i < |datas| ==> Replayed(c, blocks)[i] == DataOps(c, datas[i])
  {
    hide DataOps;
    assert forall i :: 0 <= i < |blocks| ==> Datas(blocks)[i] == blocks[i].data;
  }

  /** Tokens with new names can be created in any world. */
  lemma {:induction false} NewNamesRun(w: World, creates: seq<CreateToken>)
    requires forall i :: 0 <= i < |creates| ==> creates[i].info.symbol !in w.ledger.created
    requires forall i, j :: 0 <= i < j < |creates| ==> creates[i].info.symbol != creates[j].info.symbol
    ensures Run(w, CreateOps(creates)).Some?
    decreases |creates|
  {
    hide NewToken;
    if creates != [] {
      assert CreateOps(creates)[1..] == CreateOps(creates[1..]);
      NewNamesRun(Step(w, CreateOp(creates[0])).value, creates[1..]);
    }
  }

  lemma MarketMixed(creator: Address, s: Address, b: Address, q: seq<Program>)
    requires |q| == 4 && q[0] == [CreateOp(NativeToken(creator))] && q[1] == [CreateOp(TokenA(s))] && q[2] == [CreateOp(TokenB(b))]
    requires q[3] == [CreateOp(TokenC(s)), MatchOp(FILL)]
    ensures MixedAfter(q, 3, 1) && Run(GENESIS, Joined(q[..3]) + q[3][..1]).Some? && "C" in CreatedIn(q[3][..1])
  {
    hide Run;
    var creates := [NativeToken(creator), TokenA(s), TokenB(b), TokenC(s)];
    assert q[..3] == [q[0], q[1], q[2]] && q[3][..1] == [CreateOp(TokenC(s))];
    assert [q[0], q[1], q[2]][1..] == [q[1], q[2]] && [q[1], q[2]][1..] == [q[2]] && [q[2]][1..] == [];
    assert Joined([q[2]]) == q[2] + [];
    assert Joined(q[..3]) + q[3][..1] == CreateOps(creates);
    assert q[3][..1][0].CreateOp? && q[3][..1][0].create.info.symbol == "C";
    NewNamesRun(GENESIS, creates);
  }

  /** The node with a block that creates a token and makes a match: no freeze fell due in it, and still no
      restart of it recovers what it had. */
  method RestartMixedNode(creator: Address, s: Address, b: Address, bound: nat)
    returns (n: Blockchains, r: RecoveringBlockchains, done: bool)
    ensures n.Mirrors() && NoneDue(Flat(n.timeline)) && !Recovered(n, r, done)
  {
    hide *;
    n := MixedNode(creator, s, b);
    NoLocksNoneDue(Flat(n.timeline));
    n.MirrorsKept();
    ghost var passes;
    r, done, passes := RestartNode(n, bound);
    MixedStore(n, creator, s, b);
    MixedNeverRecovers(n, r, passes, done, 3, 1, "C");
  }

  lemma NoLocksNoneDue(ops: Program)
    requires NoLocks(ops)
    ensures NoneDue(ops)
  {}

  lemma MixedStore(n: Blockchains, creator: Address, s: Address, b: Address)
    requires MATCH_CHAIN in n.chains && Datas(n.chains[MATCH_CHAIN].blocks) == Creations(creator, s, b, 2) + [Mixed(s)]
    requires "C" in n.chains && n.chains["C"].blocks != []
    ensures var q := Replayed(MATCH_CHAIN, Saved(Contents(n), MATCH_CHAIN));
      MixedAfter(q, 3, 1) && Run(GENESIS, Joined(q[..3]) + q[3][..1]).Some? && "C" in CreatedIn(q[3][..1])
    ensures Saved(Contents(n), "C") != []
  {
    hide Run, Replayed, Joined, MixedAfter, NativeToken, TokenA, TokenB, DataOps, CreatedIn, Datas;
    var blocks := n.chains[MATCH_CHAIN].blocks;
    ReplayedDatas(MATCH_CHAIN, blocks, Creations(creator, s, b, 2) + [Mixed(s)]);
    NativeName(creator);
    MixedOps(creator, s, b);
    MarketMixed(creator, s, b, Replayed(MATCH_CHAIN, blocks));
  }

  lemma MixedOps(creator: Address, s: Address, b: Address)
    ensures DataOps(MATCH_CHAIN, Creating(NativeToken(creator))) == [CreateOp(NativeToken(creator))]
    ensures DataOps(MATCH_CHAIN, Creating(TokenA(s))) == [CreateOp(TokenA(s))]
    ensures DataOps(MATCH_CHAIN, Creating(TokenB(b))) == [CreateOp(TokenB(b))]
    ensures DataOps(MATCH_CHAIN, Mixed(s)) == [CreateOp(TokenC(s)), MatchOp(FILL)]
  {
    hide DataOps;
    CreatingOps(NativeToken(creator));
    CreatingOps(TokenA(s));
    CreatingOps(TokenB(b));
    DataOfMixed(s);
  }

  lemma DataOfMixed(s: Address)
    ensures DataOps(MATCH_CHAIN, Mixed(s)) == [CreateOp(TokenC(s)), MatchOp(FILL)]
  {
    assert DataOps(MATCH_CHAIN, Mixed(s)) == [CreateOp(TokenC(s))] + [MatchOp(FILL)] + [];
  }

  /** The node that refused a cancelling block is not recovered either. */
  method RestartStrayedNode(creator: Address, s: Address, b: Address, bound: nat)
    returns (n: Blockchains, r: RecoveringBlockchains, done: bool)
    ensures n.Strayed() && !Recovered(n, r, done)
  {
    hide *;
    var verdict;
    n, verdict := RefuseCancellation(creator, s, b);
    StrayedKept(n);
    ghost var passes;
    r, done, passes := RestartNode(n, bound);
    StrayedNeverRecovers(n, r, passes, done);
  }

  lemma StrayedKept(n: Blockchains)
    requires n.Strayed()
    ensures n.Kept()
  {
    hide Blockchains.Kept, ConsensusState.View, ConsensusState.Valid;
  }

  /** The market itself is recovered. */
  method RestartMarket(creator: Address, s: Address, b: Address, bound: nat)
    returns (n: Blockchains, r: RecoveringBlockchains, done: bool)
    ensures n.Mirrors() && (bound > |n.timeline| ==> Recovered(n, r, done))
  {
    hide *;
    n := OpenMarket(creator, s, b);
    OpenedMarket(n, creator, s, b);
    NoLocksNoneDue(Flat(n.timeline));
    n.MirrorsKept();
    ghost var passes;
    r, done, passes := RestartNode(n, bound);
    MarketCreates(n, creator, s, b);
    if bound > |n.timeline| {
      AloneRecovers(n, r, passes, done);
    }
  }

  lemma MarketCreates(n: Blockchains, creator: Address, s: Address, b: Address)
    requires n.Kept() && MATCH_CHAIN in n.chains && Datas(n.chains[MATCH_CHAIN].blocks) == Creations(creator, s, b, 2)
    ensures CreateBlocksAlone(Contents(n))
  {
    hide Blockchain.Valid, Blockchains.Coupled, Replays, BlocksOf, DataOps, Datas, NativeToken, TokenA, TokenB;
    var datas := Creations(creator, s, b, 2);
    forall c, i | c in Contents(n) && 0 <= i < |Contents(n)[c]| ensures CreatesAlone(DataOps(c, Contents(n)[c][i].data)) {
      var blocks := n.chains[c].blocks;
      assert Fits(c, blocks[i].data);
      if c == MATCH_CHAIN {
        DataAt(blocks, i);
        NativeName(creator);
        MixedOps(creator, s, b);
      } else {
        TokensOnly(DataOps(c, blocks[i].data), c);
      }
    }
  }

  lemma DataAt(blocks: seq<Block>, i: nat)
    requires i < |blocks|
    ensures |Datas(blocks)| == |blocks| && Datas(blocks)[i] == blocks[i].data
  {}

  lemma TokensOnly(ops: Program, c: string)
    requires OfChain(ops, c) && c != MATCH_CHAIN
    ensures NoCreates(ops)
  {
    assert forall i :: 0 <= i < |ops| ==> ChainOf(ops[i]) == c;
  }
}
