/** A node that is restarted finds the state that it had, provided that no frozen funds were released
    while it ran: the replay of the stored chains does not release any. */
module LiveRestart {
  import opened Amounts
  import opened Transactions
  import opened TokenLedger
  import opened Ledgers
  import opened Commutation
  import opened Schedules
  import opened Timelines
  import opened Determinism
  import opened OrderHistory
  import opened ConsensusStates
  import opened Chains
  import opened Admission
  import opened Multichain
  import opened Recovery
  import opened Restart

  /** The transactions without the releases of frozen funds. */
  function Strip(ops: Program): Program
    decreases |ops|
  {
    if ops == [] then []
    else if ops[0].TokenOp? && ops[0].tx.Release? then Strip(ops[1..])
    else [ops[0]] + Strip(ops[1..])
  }

  function StripAll(blocks: seq<Program>): seq<Program> {
    seq(|blocks|, i requires 0 <= i < |blocks| => Strip(blocks[i]))
  }

  /** No freeze of any funds is followed by the release of the height until which it holds. */
  ghost predicate NoneDue(ops: Program) {
    forall i, j :: 0 <= i < j < |ops| ==> !Releases(ops[i], ops[j])
  }

  predicate Releases(lock: Op, release: Op) {
    && lock.TokenOp? && lock.tx.Lock? && release.TokenOp? && release.tx.Release?
    && release.symbol == lock.symbol && release.tx.height == lock.tx.freeze.unfreezeBlock
    && lock.tx.freeze.amount > 0
  }

  // ---------------------------------------------------------------- frozen funds come from freezes

  ghost predicate LockedBy(ops: Program, s: string, h: nat) {
    exists i :: 0 <= i < |ops| && Locks(ops[i], s, h)
  }

  predicate Locks(op: Op, s: string, h: nat) {
    op.TokenOp? && op.symbol == s && op.tx.Lock? && op.tx.freeze.unfreezeBlock == h && op.tx.freeze.amount > 0
  }

  lemma FrozenStep(w: World, op: Op, s: string, k: Hold)
    requires Inv(w) && WellFormed(op) && Step(w, op).Some?
    requires s in Step(w, op).value.ledger.tokens && k in Step(w, op).value.ledger.tokens[s].frozen
    ensures Locks(op, s, k.height) || (s in w.ledger.tokens && k in w.ledger.tokens[s].frozen)
  {
    hide Inv, Accepts, Merge;
    if op.MatchOp? {
      MatchKeepsFrozen(w, op.m, s);
    }
  }

  lemma MatchKeepsFrozen(w: World, m: Match, s: string)
    requires Inv(w) && m.buySymbol != m.sellSymbol && ValidMatch(w.ledger, m) && s in AddMatch(w.ledger, m).value.tokens
    ensures s in w.ledger.tokens && AddMatch(w.ledger, m).value.tokens[s].frozen == w.ledger.tokens[s].frozen
  {
    hide Inv, Accepts, Credit;
    MatchTokens(w.ledger, m);
  }

  lemma {:induction false} FrozenWasLocked(ops: Program, w: World, s: string, k: Hold)
    requires AllWellFormed(ops) && Run(GENESIS, ops) == Some(w)
    requires s in w.ledger.tokens && k in w.ledger.tokens[s].frozen
    ensures LockedBy(ops, s, k.height)
    decreases |ops|
  {
    hide Inv, WellFormed, Step;
    if ops != [] {
      var n := |ops| - 1;
      RunSnoc(GENESIS, ops);
      var before := Run(GENESIS, ops[..n]).value;
      GenesisInv();
      RunInv(GENESIS, ops[..n]);
      FrozenStep(before, ops[n], s, k);
      if !Locks(ops[n], s, k.height) {
        FrozenWasLocked(ops[..n], before, s, k);
        var i :| 0 <= i < n && Locks(ops[..n][i], s, k.height);
        assert Locks(ops[i], s, k.height);
      }
    }
  }

  /** When no freeze falls due, a release finds nothing to release. */
  lemma NothingReleased(pre: Program, w: World, op: Op)
    requires AllWellFormed(pre) && Run(GENESIS, pre) == Some(w) && op.TokenOp? && op.tx.Release? && op.symbol in w.ledger.tokens
    requires forall i :: 0 <= i < |pre| ==> !Releases(pre[i], op)
    ensures AddTokenTx(w.ledger, op.symbol, op.tx) == Some(w.ledger)
  {
    hide *;
    var s, h := op.symbol, op.tx.height;
    forall k | k in w.ledger.tokens[s].frozen && k.height == h ensures false {
      FrozenWasLocked(pre, w, s, k);
      LockReleased(pre, op);
    }
    ReleaseOfNothing(w.ledger, s, op.tx);
  }

  lemma LockReleased(pre: Program, op: Op)
    requires op.TokenOp? && op.tx.Release? && LockedBy(pre, op.symbol, op.tx.height)
    ensures exists i :: 0 <= i < |pre| && Releases(pre[i], op)
  {
    var i :| 0 <= i < |pre| && Locks(pre[i], op.symbol, op.tx.height);
    assert Releases(pre[i], op);
  }

  lemma ReleaseOfNothing(l: Ledger, s: string, x: TokenTx)
    requires s in l.tokens && x.Release? && forall k :: k in l.tokens[s].frozen ==> k.height != x.height
    ensures AddTokenTx(l, s, x) == Some(l)
  {
    hide Merge;
    var t := l.tokens[s];
    assert FrozenAt(t.frozen, x.height) == map[];
    MergeNothing(t.balances);
    assert l.tokens[s := t] == l.tokens;
  }

  // ---------------------------------------------------------------- the same ledger without releases

  /** Apart from releases, transactions depend on the ledger only. */
  lemma StepOnLedger(w: World, v: World, op: Op)
    requires w.ledger == v.ledger && !(op.TokenOp? && op.tx.Release?)
    ensures Step(w, op).Some? <==> Step(v, op).Some?
    ensures Step(w, op).Some? ==> Step(w, op).value.ledger == Step(v, op).value.ledger
  {
    hide Apply, ValidMatch, ApplySide;
  }

  lemma {:induction false} RunStripped(pre: Program, w: World, v: World, ops: Program)
    requires AllWellFormed(pre + ops) && Run(GENESIS, pre) == Some(w) && Run(w, ops).Some? && NoneDue(pre + ops)
    requires w.ledger == v.ledger
    ensures Run(v, Strip(ops)).Some? && Run(v, Strip(ops)).value.ledger == Run(w, ops).value.ledger
    decreases |ops|
  {
    hide Step, WellFormed, NoneDue;
    if ops != [] {
      var op, rest := ops[0], ops[1..];
      assert pre + ops == pre + [op] + rest;
      RunConcat(GENESIS, pre, [op]);
      RunOne(w, op, rest);
      assert [op] + rest == ops && (pre + ops)[|pre|] == op;
      RunOne(w, op, []);
      assert [op] + [] == [op];
      var w1 := Step(w, op).value;
      if op.TokenOp? && op.tx.Release? {
        ReleaseStep(w, op);
        ReleaseDue(pre, op, ops);
        NothingReleased(pre, w, op);
        RunStripped(pre + [op], w1, v, rest);
      } else {
        StepOnLedger(w, v, op);
        var v1 := Step(v, op).value;
        RunStripped(pre + [op], w1, v1, rest);
        RunOne(v, op, Strip(rest));
      }
    }
  }

  lemma ReleaseStep(w: World, op: Op)
    requires op.TokenOp? && op.tx.Release? && Step(w, op).Some?
    ensures op.symbol in w.ledger.tokens && Some(Step(w, op).value.ledger) == AddTokenTx(w.ledger, op.symbol, op.tx)
  {
    hide Apply;
  }

  lemma ReleaseDue(pre: Program, op: Op, ops: Program)
    requires NoneDue(pre + ops) && AllWellFormed(pre + ops) && ops != [] && ops[0] == op
    ensures AllWellFormed(pre) && forall i :: 0 <= i < |pre| ==> !Releases(pre[i], op)
  {
    hide WellFormed;
    forall i | 0 <= i < |pre| ensures !Releases(pre[i], op) && WellFormed(pre[i]) {
      assert (pre + ops)[i] == pre[i] && (pre + ops)[|pre|] == op;
      assert !Releases((pre + ops)[i], (pre + ops)[|pre|]);
    }
  }

  /** What the live node did block by block can be done block by block without the releases. */
  lemma {:induction false} StrippedCompletes(pre: Program, w: World, v: World, t: Timeline, end: World, b: Backlog)
    returns (last: World)
    requires AllWellFormed(pre + Flat(t)) && Run(GENESIS, pre) == Some(w) && Inv(w) && NoneDue(pre + Flat(t))
    requires WellFormedTimeline(t) && Substantial(t) && Run(w, Flat(t)) == Some(end) && w.ledger == v.ledger
    requires forall c :: Queue(b, c) == StripAll(BlocksOf(t, c))
    ensures Completes(v, b, Plan(t), last) && last.ledger == end.ledger
    decreases |t|
  {
    hide Inv, Run, OfChain, Flat, BlocksOf, Strip, NoneDue, WellFormed;
    if t == [] {
      last := v;
      NothingStripped(v, b);
      FlatNothing(w);
    } else {
      var c, ops, rest := t[0].chain, t[0].ops, t[1..];
      FirstSegment(t);
      assert pre + Flat(t) == pre + ops + Flat(rest);
      RunConcat(w, ops, Flat(rest));
      RunConcat(GENESIS, pre, ops);
      ChainExists(w, t[0]);
      OfOneChain(ops, "", c);
      RunInv(w, ops);
      DuePrefix(pre + ops, Flat(rest));
      RunStripped(pre, w, v, ops);
      HeadStripped(t, b, c);
      forall d ensures Queue(Advance(b, c), d) == StripAll(BlocksOf(rest, d)) {
        TailStripped(t, b, d);
      }
      last := StrippedCompletes(pre + ops, Run(w, ops).value, Run(v, Strip(ops)).value, rest, end, Advance(b, c));
      assert Plan(t)[1..] == Plan(rest);
    }
  }

  lemma FlatNothing(w: World)
    ensures Run(w, Flat([])) == Some(w)
  {}

  lemma NothingStripped(v: World, b: Backlog)
    requires forall c :: Queue(b, c) == StripAll(BlocksOf([], c))
    ensures Completes(v, b, Plan([]), v)
  {
    forall c ensures !Pending(b, c) {
      assert Queue(b, c) == [];
    }
  }

  lemma DuePrefix(a: Program, b: Program)
    requires NoneDue(a + b) && AllWellFormed(a + b)
    ensures NoneDue(a) && AllWellFormed(a)
  {
    hide WellFormed;
    forall i, j | 0 <= i < j < |a| ensures !Releases(a[i], a[j]) {
      assert (a + b)[i] == a[i] && (a + b)[j] == a[j];
    }
    forall i | 0 <= i < |a| ensures WellFormed(a[i]) {
      assert (a + b)[i] == a[i];
    }
  }

  lemma HeadStripped(t: Timeline, b: Backlog, c: string)
    requires t != [] && c == t[0].chain && Queue(b, c) == StripAll(BlocksOf(t, c))
    ensures Pending(b, c) && b[c][0] == Strip(t[0].ops)
  {
    hide Strip, BlocksOf;
    FirstSegment(t);
  }

  lemma TailStripped(t: Timeline, b: Backlog, d: string)
    requires t != [] && forall c :: Queue(b, c) == StripAll(BlocksOf(t, c))
    ensures Pending(b, t[0].chain) && Queue(Advance(b, t[0].chain), d) == StripAll(BlocksOf(t[1..], d))
  {
    hide Strip, BlocksOf;
    FirstSegment(t);
    HeadStripped(t, b, t[0].chain);
    var rest := BlocksOf(t[1..], d);
    if d == t[0].chain {
      assert Queue(b, d)[1..] == StripAll(rest);
    } else {
      assert [] + rest == rest;
      assert Queue(b, d) == StripAll(rest);
    }
  }

  // ---------------------------------------------------------------- the node

  ghost function Contents(n: Blockchains): map<string, seq<Block>>
    reads n, n.chains.Values
  {
    map c | c in n.chains :: n.chains[c].blocks
  }

  lemma {:induction false} StripNothing(ops: Program)
    requires forall i :: 0 <= i < |ops| && ops[i].TokenOp? ==> !ops[i].tx.Release?
    ensures Strip(ops) == ops
    decreases |ops|
  {
    if ops != [] {
      StripNothing(ops[1..]);
    }
  }

  lemma {:induction false} StripConcat(a: Program, b: Program)
    ensures Strip(a + b) == Strip(a) + Strip(b)
    decreases |a|
  {
    if a == [] {
      assert a + b == b;
    } else {
      assert (a + b)[0] == a[0] && (a + b)[1..] == a[1..] + b;
      StripConcat(a[1..], b);
    }
  }

  lemma StrippedBlock(c: string, data: BlockData, h: nat)
    ensures Strip(BlockOps(c, data, h)) == DataOps(c, data)
  {
    hide DataOps;
    HoldsNoRelease(c, data);
    StripNothing(DataOps(c, data));
    if data.TokenData? {
      var r := [TokenOp(c, Release(h))];
      StripConcat(DataOps(c, data), r);
      assert r[1..] == [];
      assert Strip(r) == [];
    } else {
      assert DataOps(c, data) + [] == DataOps(c, data);
    }
    assert DataOps(c, data) + [] == DataOps(c, data);
  }

  lemma StrippedChain(c: string, blocks: seq<Block>)
    ensures StripAll(Programs(c, blocks)) == Replayed(c, blocks)
  {
    hide DataOps, BlockOps, Strip;
    forall i | 0 <= i < |blocks| ensures Strip(Programs(c, blocks)[i]) == Replayed(c, blocks)[i] {
      StrippedBlock(c, blocks[i].data, i + 1);
    }
  }

  /** When no freeze fell due, the chains that a node holds can be replayed from nothing, and every replay of
      them ends in the ledger that the node had. */
  lemma RestartAgrees(n: Blockchains) returns (order: seq<string>, end: World)
    requires n.Kept() && NoneDue(Flat(n.timeline))
    ensures WellFormedBacklog(ReplayBacklog(Contents(n))) && Completes(GENESIS, ReplayBacklog(Contents(n)), order, end)
    ensures end.ledger == n.world.ledger && |order| == |n.timeline|
  {
    hide ConsensusState.Valid, ConsensusState.View, Inv, Run, OfChain, Flat, BlocksOf, Blockchain.Valid, HeightOf,
         Programs, NoneDue, DataOps, Completes, Replayed, Fits;
    var b := ReplayBacklog(Contents(n));
    GenesisInv();
    SubstantialNode(n);
    FlatWellFormed(n.timeline);
    forall c { BacklogOfNode(n, c); }
    RunNothing(GENESIS);
    assert [] + Flat(n.timeline) == Flat(n.timeline);
    end := StrippedCompletes([], GENESIS, GENESIS, n.timeline, n.world, b);
    order := Plan(n.timeline);
    BacklogFits(n);
  }

  /** What a node has to replay is what it did, without the releases. */
  lemma BacklogOfNode(n: Blockchains, c: string)
    requires n.Kept()
    ensures Queue(ReplayBacklog(Contents(n)), c) == StripAll(BlocksOf(n.timeline, c))
  {
    hide ConsensusState.Valid, ConsensusState.View, Replays, BlocksOf, Programs, DataOps, Blockchain.Valid, HeightOf, Strip,
         OfChain, Fits;
    if c in n.chains {
      assert n.Coupled(c, []);
      NoRest(Programs(c, n.chains[c].blocks));
      StrippedChain(c, n.chains[c].blocks);
    }
  }

  lemma BacklogFits(n: Blockchains)
    requires n.ChainsOk()
    ensures WellFormedBacklog(ReplayBacklog(Contents(n)))
  {
    hide DataOps, OfChain, Blockchain.Valid;
  }
}
