/** What a restart forgets.  Replaying the stored chains releases no frozen funds; the live node does, when
    a chain reaches the height until which they were frozen.  The two end in the same ledger exactly when no
    freeze of any funds fell due. */
module Forgetting {
  import opened Amounts
  import opened Transactions
  import opened TokenLedger
  import opened TokenLaws
  import opened Ledgers
  import opened Commutation
  import opened Schedules
  import opened Timelines
  import opened Determinism
  import opened ConsensusStates
  import opened Chains
  import opened Admission
  import opened Multichain
  import opened Recovery
  import opened Restart
  import opened LiveRestart

  // ---------------------------------------------------------------- what is held of a token

  /** What is held of a token, apart from what is frozen. */
  ghost function Holdings(t: Token): nat {
    Total(t.balances) + Total(t.unclaimed) + Escrow(t)
  }

  ghost function HeldIn(w: World, s: string): nat {
    if s in w.ledger.tokens then Holdings(w.ledger.tokens[s]) else 0
  }

  /** What a transaction adds to that, whatever the state, unless it is a release. */
  function Gain(op: Op, s: string): int {
    match op
    case TokenOp(r, Lock(z)) => if r == s then 0 - z.amount else 0
    case MatchOp(m) => if m.buySymbol == s then m.sellerGain - m.buyerLoss else 0
    case CreateOp(c) => if c.info.symbol == s then c.info.totalSupply else 0
    case _ => 0
  }

  ghost function ReleasedBy(w: World, op: Op, s: string): nat {
    if op.TokenOp? && op.symbol == s && op.tx.Release? && s in w.ledger.tokens
    then Total(FrozenAt(w.ledger.tokens[s].frozen, op.tx.height)) else 0
  }

  lemma HeldTx(t: Token, x: TokenTx, h: nat)
    requires Worth(t, h) < WORD && Apply(t, x).Some? && (x.Release? ==> x.height == h + 1)
    ensures Holdings(Apply(t, x).value) == Holdings(t)
              - (if x.Lock? then x.freeze.amount else 0)
              + (if x.Release? then Total(FrozenAt(t.frozen, x.height)) else 0)
  {
    hide Total, Escrow, Credit, Debit, Merge, FrozenAt, Due;
    WorthOfTx(t, x, h);
    if x.Lock? {
      DueAfterLock(t, x.freeze, h);
    } else if x.Release? {
      FrozenNext(t.frozen, h);
    }
  }

  lemma DueAfterLock(t: Token, z: Freeze, h: nat)
    requires Worth(t, h) < WORD && AddFreeze(t, z).Some?
    ensures FrozenAbove(AddFreeze(t, z).value, h) == FrozenAbove(t, h) + (if z.unfreezeBlock > h then z.amount else 0)
  {
    hide Sum;
    TotalPut(t.balances, z.fromAddress, 0);
    DueCredit(t.frozen, Hold(z.unfreezeBlock, z.fromAddress), z.amount, h);
  }

  lemma HeldSide(t: Token, s: Side, h: nat)
    requires SideFits(t, s) && Worth(t, h) < WORD
    ensures Holdings(ApplySide(t, s)) ==
            Holdings(t) - (t.open[s.residual.id].amountToSell - s.residual.amountToSell - s.pay)
  {
    hide Total, Escrow, Credit, Due;
    WorthOfSide(t, s, h);
  }

  /** The holdings of a token change by what the transaction is, and by what it releases. */
  lemma HeldStep(w: World, op: Op, s: string)
    requires Inv(w) && WellFormed(op) && Step(w, op).Some?
    ensures HeldIn(Step(w, op).value, s) == HeldIn(w, s) + Gain(op, s) + ReleasedBy(w, op, s)
  {
    hide Holdings, Total, Apply, ValidMatch, AddMatch, NewToken, Filed, Worth, FrozenAt;
    match op
    case TokenOp(r, x) =>
      if r == s {
        HeldTx(w.ledger.tokens[s], x, HeightOf(w, s));
      }
    case MatchOp(m) => HeldMatch(w, m, s);
    case CreateOp(c) => HeldNew(c);
    case CancelOp(_) =>
  }

  lemma HeldNew(c: CreateToken)
    ensures Holdings(NewToken(c)) == c.info.totalSupply
  {
    hide Sum;
    NewTokenInv(c);
    assert Due(NewToken(c).frozen, 0) == map[];
    SumNothing<Hold>();
  }

  lemma HeldMatch(w: World, m: Match, s: string)
    requires Inv(w) && WellFormed(MatchOp(m)) && Step(w, MatchOp(m)).Some?
    ensures HeldIn(Step(w, MatchOp(m)).value, s) == HeldIn(w, s) + Gain(MatchOp(m), s)
  {
    hide Holdings, Worth, Accepts, ApplySide, Filed;
    ValidMatchFacts(w, m);
    var l := w.ledger;
    var buy, sell := BuyOrder(l, m).value, SellOrder(l, m).value;
    MatchTokens(l, m);
    MatchSidesFit(l, m);
    AcceptedSides(buy, sell, m);
    if s == m.buySymbol {
      HeldSide(l.tokens[s], BuySide(m, buy, sell), HeightOf(w, s));
    } else if s == m.sellSymbol {
      HeldSide(l.tokens[s], SellSide(m, buy, sell), HeightOf(w, s));
    }
  }

  // ---------------------------------------------------------------- over runs

  function GainOf(ops: Program, s: string): int
    decreases |ops|
  {
    if ops == [] then 0 else Gain(ops[0], s) + GainOf(ops[1..], s)
  }

  /** All that a run releases of a token. */
  ghost function ReleasedIn(w: World, ops: Program, s: string): nat
    requires Run(w, ops).Some?
    decreases |ops|
  {
    if ops == [] then 0 else ReleasedBy(w, ops[0], s) + ReleasedIn(Step(w, ops[0]).value, ops[1..], s)
  }

  lemma {:induction false} HeldRun(w: World, ops: Program, s: string)
    requires Inv(w) && AllWellFormed(ops) && Run(w, ops).Some?
    ensures HeldIn(Run(w, ops).value, s) == HeldIn(w, s) + GainOf(ops, s) + ReleasedIn(w, ops, s)
    decreases |ops|
  {
    hide Inv, WellFormed, Step, HeldIn, Gain, ReleasedBy;
    if ops != [] {
      StepInv(w, ops[0]);
      HeldStep(w, ops[0], s);
      HeldRun(Step(w, ops[0]).value, ops[1..], s);
    }
  }

  predicate Unreleasing(ops: Program) {
    forall i :: 0 <= i < |ops| && ops[i].TokenOp? ==> !ops[i].tx.Release?
  }

  lemma {:induction false} NothingIsReleased(w: World, ops: Program, s: string)
    requires Unreleasing(ops) && Run(w, ops).Some?
    ensures ReleasedIn(w, ops, s) == 0
    decreases |ops|
  {
    hide Step;
    if ops != [] {
      NothingIsReleased(Step(w, ops[0]).value, ops[1..], s);
    }
  }

  lemma {:induction false} StripGains(ops: Program, s: string)
    requires AllWellFormed(ops)
    ensures GainOf(Strip(ops), s) == GainOf(ops, s)
    ensures Unreleasing(Strip(ops)) && AllWellFormed(Strip(ops))
    decreases |ops|
  {
    hide WellFormed;
    if ops != [] {
      StripGains(ops[1..], s);
      var kept := Strip(ops[1..]);
      assert ([ops[0]] + kept)[1..] == kept;
    }
  }

  lemma {:induction false} GainConcat(a: Program, b: Program, s: string)
    ensures GainOf(a + b, s) == GainOf(a, s) + GainOf(b, s)
    decreases |a|
  {
    hide Gain;
    if a == [] {
      assert a + b == b;
    } else {
      assert (a + b)[0] == a[0] && (a + b)[1..] == a[1..] + b;
      GainConcat(a[1..], b, s);
    }
  }

  // ---------------------------------------------------------------- a freeze that falls due is released

  /** What is frozen until a height still ahead stays frozen, and no height ahead is skipped. */
  lemma FrozenStays(w: World, op: Op, s: string, k: Hold)
    requires Inv(w) && WellFormed(op) && Step(w, op).Some? && s in w.ledger.tokens && k.height > HeightOf(w, s)
    ensures var w' := Step(w, op).value;
      && s in w'.ledger.tokens && Get(w'.ledger.tokens[s].frozen, k) >= Get(w.ledger.tokens[s].frozen, k)
      && (op == TokenOp(s, Release(k.height)) || k.height > HeightOf(w', s))
  {
    hide Inv, ValidMatch, AddMatch, Apply, Worth;
    InvParts(w, s);
    match op
    case TokenOp(r, x) =>
      if r == s {
        FrozenStaysTx(w.ledger.tokens[s], x, HeightOf(w, s), k);
      }
    case MatchOp(m) =>
      MatchSteps(w, m);
      FrozenInMatch(w, m, s);
    case CreateOp(c) =>
    case CancelOp(_) =>
  }

  lemma FrozenInMatch(w: World, m: Match, s: string)
    requires Inv(w) && m.buySymbol != m.sellSymbol && ValidMatch(w.ledger, m) && s in w.ledger.tokens
    ensures var l := AddMatch(w.ledger, m).value; s in l.tokens && l.tokens[s].frozen == w.ledger.tokens[s].frozen
  {
    hide Inv, Accepts, ApplySide;
    MatchTokens(w.ledger, m);
    MatchKeepsFrozen(w, m, s);
  }

  lemma InvParts(w: World, s: string)
    requires Inv(w) && s in w.ledger.tokens
    ensures Worth(w.ledger.tokens[s], HeightOf(w, s)) < WORD
    ensures s == MATCH_CHAIN || s in w.ledger.created
  {}

  lemma FrozenStaysTx(t: Token, x: TokenTx, h: nat, k: Hold)
    requires Worth(t, h) < WORD && Apply(t, x).Some? && k.height > h
    ensures Get(Apply(t, x).value.frozen, k) >= Get(t.frozen, k)
    ensures x.Lock? && k == Hold(x.freeze.unfreezeBlock, x.freeze.fromAddress) ==>
      Get(Apply(t, x).value.frozen, k) >= x.freeze.amount
  {
    hide Sum, Merge;
    if x.Lock? {
      TotalPut(t.balances, x.freeze.fromAddress, 0);
      TotalPut(Due(t.frozen, h), k, 0);
    }
  }

  /** A height that is reached later in a run lies ahead. */
  lemma {:induction false} ReleaseAhead(w: World, ops: Program, s: string, j: nat, h: nat)
    requires Inv(w) && AllWellFormed(ops) && Run(w, ops).Some? && s in w.ledger.tokens
    requires j < |ops| && ops[j] == TokenOp(s, Release(h))
    ensures h > HeightOf(w, s)
    decreases |ops|
  {
    hide Inv, WellFormed, Step, HeightOf;
    if j > 0 {
      StepInv(w, ops[0]);
      HeightsGrow(w, ops[0], s);
      ReleaseAhead(Step(w, ops[0]).value, ops[1..], s, j - 1, h);
    } else {
      ReleaseNext(w, s, h);
    }
  }

  lemma ReleaseNext(w: World, s: string, h: nat)
    requires Step(w, TokenOp(s, Release(h))).Some?
    ensures h == HeightOf(w, s) + 1
  {
    hide Apply;
  }

  lemma HeightsGrow(w: World, op: Op, s: string)
    requires Inv(w) && WellFormed(op) && Step(w, op).Some? && s in w.ledger.tokens
    ensures s in Step(w, op).value.ledger.tokens && HeightOf(Step(w, op).value, s) >= HeightOf(w, s)
  {
    hide Inv, ValidMatch, Apply;
    InvParts(w, s);
  }

  lemma ReleasedSome(t: Token, k: Hold)
    requires Get(t.frozen, k) > 0
    ensures Total(FrozenAt(t.frozen, k.height)) > 0
  {
    hide Sum;
    assert Hold(k.height, k.address) == k;
    TotalPut(FrozenAt(t.frozen, k.height), k.address, 0);
  }

  /** Funds that are frozen until a height that the run reaches are released in it. */
  lemma {:induction false} FrozenIsReleased(w: World, ops: Program, s: string, j: nat, k: Hold)
    requires Inv(w) && AllWellFormed(ops) && Run(w, ops).Some? && s in w.ledger.tokens
    requires j < |ops| && ops[j] == TokenOp(s, Release(k.height)) && Get(w.ledger.tokens[s].frozen, k) > 0
    ensures ReleasedIn(w, ops, s) > 0
    decreases |ops|
  {
    hide Inv, WellFormed, Step, HeightOf, FrozenAt, Total;
    if ops[0] == TokenOp(s, Release(k.height)) {
      ReleasedSome(w.ledger.tokens[s], k);
    } else {
      ReleaseAhead(w, ops, s, j, k.height);
      FrozenStays(w, ops[0], s, k);
      StepInv(w, ops[0]);
      FrozenIsReleased(Step(w, ops[0]).value, ops[1..], s, j - 1, k);
    }
  }

  lemma {:induction false} DueIsReleased(w: World, ops: Program, i: nat, j: nat)
    requires Inv(w) && AllWellFormed(ops) && Run(w, ops).Some?
    requires i < j < |ops| && Releases(ops[i], ops[j])
    ensures ReleasedIn(w, ops, ops[i].symbol) > 0
    decreases |ops|
  {
    hide Inv, WellFormed, HeightOf, FrozenAt, Total, Apply, AddMatch;
    var w1 := Step(w, ops[0]).value;
    StepInv(w, ops[0]);
    if i > 0 {
      DueIsReleased(w1, ops[1..], i - 1, j - 1);
    } else {
      var s, z := ops[0].symbol, ops[0].tx.freeze;
      var k := Hold(z.unfreezeBlock, z.fromAddress);
      ReleaseAhead(w, ops, s, j, k.height);
      InvParts(w, s);
      FrozenStaysTx(w.ledger.tokens[s], ops[0].tx, HeightOf(w, s), k);
      FrozenIsReleased(w1, ops[1..], s, j - 1, k);
    }
  }

  lemma DueSomewhere(ops: Program) returns (i: nat, j: nat)
    requires !NoneDue(ops)
    ensures i < j < |ops| && Releases(ops[i], ops[j])
  {
    i, j :| 0 <= i < j < |ops| && Releases(ops[i], ops[j]);
  }

  /** A run without its releases is possible and ends in the same ledger if and only if no freeze of any
      funds fell due in it. */
  lemma ForgottenIff(ops: Program, w: World)
    requires AllWellFormed(ops) && Run(GENESIS, ops) == Some(w)
    ensures (Run(GENESIS, Strip(ops)).Some? && Run(GENESIS, Strip(ops)).value.ledger == w.ledger) <==> NoneDue(ops)
  {
    hide Inv, Run, WellFormed, NoneDue, Releases, Gain, ReleasedIn;
    GenesisInv();
    StripGains(ops, MATCH_CHAIN);
    if NoneDue(ops) {
      RunNothing(GENESIS);
      assert [] + ops == ops;
      RunStripped([], GENESIS, GENESIS, ops);
    } else if Run(GENESIS, Strip(ops)).Some? {
      var i, j := DueSomewhere(ops);
      SymbolOfLock(ops[i], ops[j]);
      var s := ops[i].symbol;
      DueIsReleased(GENESIS, ops, i, j);
      StripGains(ops, s);
      HeldRun(GENESIS, ops, s);
      HeldRun(GENESIS, Strip(ops), s);
      NothingIsReleased(GENESIS, Strip(ops), s);
    }
  }

  lemma SymbolOfLock(lock: Op, release: Op)
    requires Releases(lock, release)
    ensures lock.TokenOp?
  {}

  // ---------------------------------------------------------------- over replays

  function GainOfBlocks(blocks: seq<Program>, s: string): int
    decreases |blocks|
  {
    if blocks == [] then 0 else GainOf(blocks[0], s) + GainOfBlocks(blocks[1..], s)
  }

  /** What a backlog adds to a token: only its own chain and the MATCH chain matter. */
  function GainOfBacklog(b: Backlog, s: string): int {
    GainOfBlocks(Queue(b, s), s) + GainOfBlocks(Queue(b, MATCH_CHAIN), s)
  }

  lemma {:induction false} OtherChainsGainNothing(ops: Program, c: string, s: string)
    requires OfChain(ops, c) && c != s && c != MATCH_CHAIN
    ensures GainOf(ops, s) == 0
    decreases |ops|
  {
    if ops != [] {
      assert ChainOf(ops[0]) == c;
      OtherChainsGainNothing(ops[1..], c, s);
    }
  }

  ghost predicate UnreleasingBacklog(b: Backlog) {
    forall c, i :: c in b && 0 <= i < |b[c]| ==> Unreleasing(b[c][i])
  }

  lemma GainAdvances(b: Backlog, c: string, s: string)
    requires WellFormedBacklog(b) && Pending(b, c) && s != MATCH_CHAIN
    ensures GainOfBacklog(b, s) == GainOf(b[c][0], s) + GainOfBacklog(Advance(b, c), s)
  {
    hide GainOf;
    BacklogHead(b, c);
    if c != s && c != MATCH_CHAIN {
      OtherChainsGainNothing(b[c][0], c, s);
    }
  }

  lemma UnreleasingAdvances(b: Backlog, c: string)
    requires UnreleasingBacklog(b) && Pending(b, c)
    ensures Unreleasing(b[c][0]) && UnreleasingBacklog(Advance(b, c))
  {
    hide Unreleasing;
  }

  /** Whatever the order of the replay, a token ends up with what its blocks add to it. */
  lemma {:induction false} HeldReplay(w: World, b: Backlog, order: seq<string>, end: World, s: string)
    requires Inv(w) && WellFormedBacklog(b) && UnreleasingBacklog(b) && Completes(w, b, order, end) && s != MATCH_CHAIN
    ensures HeldIn(end, s) == HeldIn(w, s) + GainOfBacklog(b, s)
    decreases |order|
  {
    hide Inv, Run, OfChain, HeldIn, GainOfBacklog, UnreleasingBacklog, WellFormedBacklog, Advance, Unreleasing;
    if order == [] {
      NothingPending(b, s);
    } else {
      var c := order[0];
      var ops := b[c][0];
      BacklogHead(b, c);
      UnreleasingAdvances(b, c);
      GainAdvances(b, c, s);
      BlockStepInv(w, c, ops);
      OfOneChain(ops, "", c);
      HeldRun(w, ops, s);
      NothingIsReleased(w, ops, s);
      HeldReplay(Run(w, ops).value, Advance(b, c), order[1..], end, s);
    }
  }

  lemma NothingPending(b: Backlog, s: string)
    requires forall c :: !Pending(b, c)
    ensures GainOfBacklog(b, s) == 0
  {
    assert !Pending(b, s) && !Pending(b, MATCH_CHAIN);
  }

  /** What the blocks of a timeline add to a token does not depend on how they are interleaved. */
  lemma {:induction false} GainOfTimeline(t: Timeline, s: string)
    requires WellFormedTimeline(t) && s != MATCH_CHAIN
    ensures GainOf(Flat(t), s) == GainOfBlocks(BlocksOf(t, s), s) + GainOfBlocks(BlocksOf(t, MATCH_CHAIN), s)
    decreases |t|
  {
    hide OfChain, Gain, BlocksOf, Flat, GainOf;
    if t == [] {
      NoTimeline(s);
    } else {
      FirstSegment(t);
      GainConcat(t[0].ops, Flat(t[1..]), s);
      GainOfTimeline(t[1..], s);
      GainOfMore(t[0], BlocksOf(t[1..], s), s, s);
      GainOfMore(t[0], BlocksOf(t[1..], MATCH_CHAIN), MATCH_CHAIN, s);
      if t[0].chain != s && t[0].chain != MATCH_CHAIN {
        OtherChainsGainNothing(t[0].ops, t[0].chain, s);
      }
    }
  }

  lemma NoTimeline(s: string)
    ensures GainOf(Flat([]), s) == 0 && BlocksOf([], s) == [] && BlocksOf([], MATCH_CHAIN) == []
  {}

  lemma GainOfMore(g: Segment, blocks: seq<Program>, c: string, s: string)
    ensures GainOfBlocks((if g.chain == c then [g.ops] else []) + blocks, s)
         == (if g.chain == c then GainOf(g.ops, s) else 0) + GainOfBlocks(blocks, s)
  {
    hide GainOf;
    assert ([g.ops] + blocks)[1..] == blocks && [] + blocks == blocks;
  }

  lemma {:induction false} StripBlockGains(blocks: seq<Program>, s: string)
    requires forall i :: 0 <= i < |blocks| ==> AllWellFormed(blocks[i])
    ensures GainOfBlocks(StripAll(blocks), s) == GainOfBlocks(blocks, s)
    ensures forall i :: 0 <= i < |blocks| ==> Unreleasing(StripAll(blocks)[i])
    decreases |blocks|
  {
    hide Strip, GainOf, AllWellFormed, Unreleasing;
    if blocks != [] {
      StripBlockGains(blocks[1..], s);
      StripGains(blocks[0], s);
      assert StripAll(blocks)[1..] == StripAll(blocks[1..]);
      forall i | 0 <= i < |blocks| ensures Unreleasing(StripAll(blocks)[i]) {
        StripGains(blocks[i], s);
      }
    }
  }

  // ---------------------------------------------------------------- the node

  lemma UnreleasingNode(n: Blockchains)
    requires n.Kept()
    ensures UnreleasingBacklog(ReplayBacklog(Contents(n)))
  {
    hide *;
    var b := ReplayBacklog(Contents(n));
    forall c ensures forall i :: 0 <= i < |Queue(b, c)| ==> Unreleasing(Queue(b, c)[i]) {
      BacklogOfNode(n, c);
      NodeTimeline(n);
      BlocksWellFormed(n.timeline, c);
      StripBlockGains(BlocksOf(n.timeline, c), "");
      SameLength(BlocksOf(n.timeline, c));
    }
    QueuesOfBacklog(b);
  }

  lemma SameLength(blocks: seq<Program>)
    ensures |StripAll(blocks)| == |blocks|
  {}

  lemma QueuesOfBacklog(b: Backlog)
    requires forall c, i :: 0 <= i < |Queue(b, c)| ==> Unreleasing(Queue(b, c)[i])
    ensures UnreleasingBacklog(b)
  {
    hide Unreleasing;
    forall c, i | c in b && 0 <= i < |b[c]| ensures Unreleasing(b[c][i]) {
      assert Queue(b, c)[i] == b[c][i];
    }
  }

  lemma NodeTimeline(n: Blockchains)
    requires n.Kept()
    ensures Replays(n.timeline, n.world) && WellFormedTimeline(n.timeline)
  {
    hide ConsensusState.Valid, ConsensusState.View, Run, OfChain, Flat, BlocksOf, Blockchain.Valid, HeightOf, Programs;
  }

  lemma BlocksWellFormed(t: Timeline, c: string)
    requires WellFormedTimeline(t)
    ensures forall i :: 0 <= i < |BlocksOf(t, c)| ==> AllWellFormed(BlocksOf(t, c)[i])
  {
    hide OfChain, AllWellFormed, BlocksOf;
    BlocksOfChain(t, c);
    forall i | 0 <= i < |BlocksOf(t, c)| ensures AllWellFormed(BlocksOf(t, c)[i]) {
      OfOneChain(BlocksOf(t, c)[i], "", c);
    }
  }

  /** If any replay of a node's chains gives the ledger of its timeline, no freeze fell due. */
  lemma RecoveredNoneDue(n: Blockchains, order: seq<string>, end: World)
    requires n.Kept() && end.ledger == n.world.ledger
    requires WellFormedBacklog(ReplayBacklog(Contents(n))) && Completes(GENESIS, ReplayBacklog(Contents(n)), order, end)
    ensures NoneDue(Flat(n.timeline))
  {
    hide *;
    var t, b := n.timeline, ReplayBacklog(Contents(n));
    NodeTimeline(n);
    if !NoneDue(Flat(t)) {
      var i, j := DueSomewhere(Flat(t));
      var s := ReleasedInNode(t, n.world, i, j);
      GenesisInv();
      UnreleasingNode(n);
      HeldReplay(GENESIS, b, order, end, s);
      BacklogGain(n, s);
      SameHeld(end, n.world, s);
      assert false;
    }
  }

  lemma SameHeld(v: World, w: World, s: string)
    requires v.ledger == w.ledger
    ensures HeldIn(v, s) == HeldIn(w, s)
  {}

  /** After a release the token holds more than its blocks add to it. */
  lemma ReleasedInNode(t: Timeline, w: World, i: nat, j: nat) returns (s: string)
    requires Replays(t, w) && i < j < |Flat(t)| && Releases(Flat(t)[i], Flat(t)[j])
    ensures s != MATCH_CHAIN && HeldIn(w, s) > HeldIn(GENESIS, s) + GainOf(Flat(t), s)
  {
    hide Inv, Run, Flat, HeldIn, GainOf, OfChain;
    s := Flat(t)[i].symbol;
    GenesisInv();
    FlatWellFormed(t);
    DueIsReleased(GENESIS, Flat(t), i, j);
    HeldRun(GENESIS, Flat(t), s);
    assert WellFormed(Flat(t)[i]);
  }

  lemma BacklogGain(n: Blockchains, s: string)
    requires n.Kept() && s != MATCH_CHAIN
    ensures GainOfBacklog(ReplayBacklog(Contents(n)), s) == GainOf(Flat(n.timeline), s)
  {
    hide *;
    var t := n.timeline;
    NodeTimeline(n);
    GainOfTimeline(t, s);
    BacklogOfNode(n, s);
    BacklogOfNode(n, MATCH_CHAIN);
    BlocksWellFormed(t, s);
    BlocksWellFormed(t, MATCH_CHAIN);
    StripBlockGains(BlocksOf(t, s), s);
    StripBlockGains(BlocksOf(t, MATCH_CHAIN), s);
    GainIs(ReplayBacklog(Contents(n)), s);
  }

  lemma GainIs(b: Backlog, s: string)
    ensures GainOfBacklog(b, s) == GainOfBlocks(Queue(b, s), s) + GainOfBlocks(Queue(b, MATCH_CHAIN), s)
  {
    hide GainOfBlocks, Queue;
  }
}
