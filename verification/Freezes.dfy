/** Which freezes can wrap the store of frozen funds.  Released funds stay on record there, so that a freeze
    until a height that has passed can meet a record that is full.  On a node the first block of a token
    chain freezes nothing, and brings the chain to height 1. */
module Freezes {
  import opened Amounts
  import opened Transactions
  import opened TokenLedger
  import opened Ledgers
  import opened Commutation
  import opened Schedules
  import opened Timelines
  import opened OrderHistory
  import opened Conservation
  import opened TokenGenesis
  import opened Chains
  import opened Admission
  import opened ConsensusStates
  import opened Multichain
  import opened Recovery
  import opened Restart
  import opened LiveRestart

  /** The freeze is accepted, and with what is on record for its height and address it does not fit. */
  ghost predicate Wraps(w: World, s: string, z: Freeze) {
    && s in w.ledger.tokens && AddFreeze(w.ledger.tokens[s], z).Some?
    && Get(w.ledger.tokens[s].frozen, Hold(z.unfreezeBlock, z.fromAddress)) + z.amount >= WORD
  }

  ghost predicate Reached(ops: Program, w: World) {
    AllWellFormed(ops) && Run(GENESIS, ops) == Some(w)
  }

  /** No run to a chain height of h lets a freeze until u wrap. */
  ghost predicate SafeOnRuns(h: nat, u: u64) {
    forall ops, w, s, z: Freeze :: Reached(ops, w) && HeightOf(w, s) == h && z.unfreezeBlock == u ==> !Wraps(w, s, z)
  }

  // ---------------------------------------------------------------- freezes that come too late

  /** Every freeze until u comes when the chain has reached that height. */
  ghost predicate LateOnly(ops: Program, s: string, u: nat) {
    forall i :: 0 <= i < |ops| && Freezes(ops[i], s, u) ==> u <= AuditOf(ops[..i], s).height
  }

  predicate Freezes(op: Op, s: string, u: nat) {
    op.TokenOp? && op.symbol == s && op.tx.Lock? && op.tx.freeze.unfreezeBlock == u
  }

  /** How the record of a height and address grows. */
  lemma RecordStep(w: World, op: Op, s: string, k: Hold)
    requires Inv(w) && WellFormed(op) && Step(w, op).Some? && s in Step(w, op).value.ledger.tokens
    ensures var t' := Step(w, op).value.ledger.tokens[s];
      Get(t'.frozen, k) <= (if s in w.ledger.tokens then Get(w.ledger.tokens[s].frozen, k) else 0)
                           + (if Freezes(op, s, k.height) then op.tx.freeze.amount else 0)
  {
    hide Inv, ValidMatch, AddMatch, Worth, Merge;
    match op
    case TokenOp(r, x) =>
    case MatchOp(m) =>
      MatchSteps(w, m);
      MatchKeepsFrozen(w, m, s);
    case CreateOp(c) =>
    case CancelOp(_) =>
  }

  /** What is on record for freezes that all came too late is part of what the audit counts as stuck. */
  lemma {:induction false} LateRecord(ops: Program, w: World, s: string, k: Hold)
    requires Reached(ops, w) && LateOnly(ops, s, k.height) && s in w.ledger.tokens
    ensures Get(w.ledger.tokens[s].frozen, k) <= AuditOf(ops, s).stuck
    decreases |ops|
  {
    hide *;
    if ops == [] {
      NothingOnRecord(w, s, k);
    } else {
      var n := |ops| - 1;
      ReachedBefore(ops, w);
      var v := Run(GENESIS, ops[..n]).value;
      LateBefore(ops, s, k.height);
      if s in v.ledger.tokens {
        LateRecord(ops[..n], v, s, k);
      }
      RecordStep(v, ops[n], s, k);
    }
  }

  lemma NothingOnRecord(w: World, s: string, k: Hold)
    requires Reached([], w) && s in w.ledger.tokens
    ensures Get(w.ledger.tokens[s].frozen, k) == 0
  {}

  lemma ReachedBefore(ops: Program, w: World)
    requires Reached(ops, w) && ops != []
    ensures var n := |ops| - 1;
      && Run(GENESIS, ops[..n]).Some?
      && var v := Run(GENESIS, ops[..n]).value;
      && Reached(ops[..n], v) && Inv(v) && WellFormed(ops[n]) && Step(v, ops[n]) == Some(w)
  {
    hide Inv, WellFormed, Step;
    var n := |ops| - 1;
    RunSnoc(GENESIS, ops);
    GenesisInv();
    RunInv(GENESIS, ops[..n]);
  }

  lemma LateBefore(ops: Program, s: string, u: nat)
    requires LateOnly(ops, s, u) && ops != []
    ensures var n := |ops| - 1;
      && LateOnly(ops[..n], s, u)
      && AuditOf(ops, s).stuck >= AuditOf(ops[..n], s).stuck + (if Freezes(ops[n], s, u) then ops[n].tx.freeze.amount else 0)
  {
    hide AuditOf, NextAudit;
    var n := |ops| - 1;
    forall i | 0 <= i < n && Freezes(ops[..n][i], s, u) ensures u <= AuditOf(ops[..n][..i], s).height {
      assert ops[..n][..i] == ops[..i];
    }
    AuditMore(ops, s);
    StuckMore(AuditOf(ops[..n], s), ops[n], s, u);
  }

  lemma AuditMore(ops: Program, s: string)
    requires ops != []
    ensures AuditOf(ops, s) == NextAudit(AuditOf(ops[..|ops| - 1], s), ops[|ops| - 1], s)
  {}

  lemma StuckMore(a: Audit, op: Op, s: string, u: nat)
    requires Freezes(op, s, u) ==> u <= a.height
    ensures NextAudit(a, op, s).stuck >= a.stuck + (if Freezes(op, s, u) then op.tx.freeze.amount else 0)
  {}

  lemma LateNeverWraps(ops: Program, w: World, s: string, z: Freeze)
    requires Reached(ops, w) && LateOnly(ops, s, z.unfreezeBlock)
    ensures !Wraps(w, s, z)
  {
    hide Inv, WellFormed, Run, LateOnly, Total, AuditOf;
    if Wraps(w, s, z) {
      var t := w.ledger.tokens[s];
      LateRecord(ops, w, s, Hold(z.unfreezeBlock, z.fromAddress));
      SupplyConserved(ops, w, s);
      BalanceInTotal(t.balances, z.fromAddress);
    }
  }

  lemma BalanceInTotal(m: Funds, a: Address)
    ensures Get(m, a) <= Total(m)
  {
    TotalPut(m, a, 0);
  }

  lemma AheadNeverWraps(ops: Program, w: World, s: string, z: Freeze)
    requires Reached(ops, w) && z.unfreezeBlock > HeightOf(w, s)
    ensures !Wraps(w, s, z)
  {
    hide Inv, WellFormed, Run, AddFreeze;
    GenesisInv();
    RunInv(GENESIS, ops);
    if Wraps(w, s, z) {
      InvOf(w, s);
      TimelyFreeze(w.ledger.tokens[s], z, HeightOf(w, s));
    }
  }

  // ---------------------------------------------------------------- a run to a full record

  const HALF: u64 := WORD / 2

  function Coin(a: Address): CreateToken {
    CreateToken(TokenInfo("A", HALF, 0), a)
  }

  /** The creator has half of what fits, and nothing is frozen. */
  function Unspent(a: Address): Token {
    EMPTY_TOKEN.(balances := map[a := HALF])
  }

  function Hoard(a: Address, u: u64): Freeze {
    Freeze(1, HALF, a, u)
  }

  /** All of it has been frozen until u, and the chain has height k. */
  function Frozen1(a: Address, u: u64, k: nat): Token {
    EMPTY_TOKEN.(balances := if k >= u then map[a := HALF] else map[], frozen := map[Hold(u, a) := HALF], usedFreezes := {1})
  }

  function Releasing(k: nat, n: nat): Program
    decreases n
  {
    if n <= k then [] else Releasing(k, n - 1) + [TokenOp("A", Release(n))]
  }

  /** The world that holds this one token. */
  function Only(c: CreateToken, t: Token, k: nat): World {
    World(Ledger(map[MATCH_CHAIN := EMPTY_TOKEN, c.info.symbol := t], map[c.info.symbol := c.info], {}), map[c.info.symbol := k])
  }

  lemma TxOnly(c: CreateToken, t: Token, k: nat, x: TokenTx)
    requires c.info.symbol != MATCH_CHAIN && Apply(t, x).Some? && (x.Release? ==> x.height == k + 1)
    ensures Step(Only(c, t, k), TokenOp(c.info.symbol, x)) == Some(Only(c, Apply(t, x).value, if x.Release? then k + 1 else k))
  {
    hide Apply;
    var s, t' := c.info.symbol, Apply(t, x).value;
    assert map[MATCH_CHAIN := EMPTY_TOKEN, s := t][s := t'] == map[MATCH_CHAIN := EMPTY_TOKEN, s := t'];
    assert map[s := k][s := k + 1] == map[s := k + 1];
  }

  lemma Minted(a: Address)
    ensures Step(GENESIS, CreateOp(Coin(a))) == Some(Only(Coin(a), NewToken(Coin(a)), 0))
    ensures Apply(NewToken(Coin(a)), GenesisOps(Coin(a))[0].tx) == Some(Unspent(a))
  {
    var c := Coin(a);
    assert map[MATCH_CHAIN := EMPTY_TOKEN][c.info.symbol := NewToken(c)] == map[MATCH_CHAIN := EMPTY_TOKEN, c.info.symbol := NewToken(c)];
    assert Put<Address>(map[], a, HALF) == map[a := HALF];
    assert Put<Address>(map[a := HALF], a, 0) == map[];
  }

  lemma ReleaseUnspent(a: Address, k: nat)
    ensures Apply(Unspent(a), Release(k)) == Some(Unspent(a))
  {
    var t := Unspent(a);
    assert FrozenAt(t.frozen, k) == map[];
    MergeNothing(t.balances);
  }

  lemma Hoarded(a: Address, u: u64, k: nat)
    requires k < u
    ensures Apply(Unspent(a), Lock(Hoard(a, u))) == Some(Frozen1(a, u, k))
  {
    assert Put<Address>(map[a := HALF], a, 0) == map[];
    assert Put<Hold>(map[], Hold(u, a), HALF) == map[Hold(u, a) := HALF];
    assert {} + {1} == {1 as u64};
  }

  lemma FrozenOf(a: Address, u: u64, k: nat)
    ensures FrozenAt(map[Hold(u, a) := HALF], k) == if k == u then map[a := HALF] else map[]
  {
    var f: Frozen := map[Hold(u, a) := HALF];
    if k == u {
      assert Hold(u, a) in f && Hold(u, a).address == a;
    }
  }

  lemma ReleaseFrozen(a: Address, u: u64, k: nat)
    ensures Apply(Frozen1(a, u, k), Release(k + 1)) == Some(Frozen1(a, u, k + 1))
  {
    hide FrozenAt, Merge;
    FrozenOf(a, u, k + 1);
    MergeNothing(Frozen1(a, u, k).balances);
    OntoNothing(a);
  }

  lemma OntoNothing(a: Address)
    ensures Merge(map[], map[a := HALF]) == map[a := HALF]
  {}

  lemma {:induction false} RunReleases(a: Address, u: u64, k: nat, n: nat)
    requires k <= n
    ensures Run(Only(Coin(a), Frozen1(a, u, k), k), Releasing(k, n)) == Some(Only(Coin(a), Frozen1(a, u, n), n))
    ensures AllWellFormed(Releasing(k, n))
    decreases n
  {
    hide Step, Apply, Frozen1;
    var w := Only(Coin(a), Frozen1(a, u, k), k);
    if k == n {
      RunNothing(w);
    } else {
      RunReleases(a, u, k, n - 1);
      ReleaseFrozen(a, u, n - 1);
      TxOnly(Coin(a), Frozen1(a, u, n - 1), n - 1, Release(n));
      RunConcat(w, Releasing(k, n - 1), [TokenOp("A", Release(n))]);
      RunJust(Only(Coin(a), Frozen1(a, u, n - 1), n - 1), TokenOp("A", Release(n)));
    }
  }

  /** The creator freezes all that there is, and the chain grows to height h; in the first version before it
      has any block, in the second after its first block. */
  function FullRecord(a: Address, u: u64, first: bool, h: nat): Program {
    [CreateOp(Coin(a))] + (if first then GenesisOps(Coin(a)) else [GenesisOps(Coin(a))[0]])
      + [TokenOp("A", Lock(Hoard(a, u)))] + Releasing(if first then 1 else 0, h)
  }

  lemma FullRecordRuns(a: Address, u: u64, first: bool, h: nat)
    requires var k := if first then 1 else 0; k < u <= h
    ensures Reached(FullRecord(a, u, first, h), Only(Coin(a), Frozen1(a, u, h), h))
  {
    hide Step, Apply, Frozen1, Inv;
    var c, k := Coin(a), if first then 1 else 0;
    var w0, w1 := Only(c, NewToken(c), 0), Only(c, Unspent(a), 0);
    var claim, rest := GenesisOps(c)[0], [TokenOp("A", Lock(Hoard(a, u)))] + Releasing(k, h);
    Minted(a);
    TxOnly(c, NewToken(c), 0, claim.tx);
    ReleaseUnspent(a, 1);
    TxOnly(c, Unspent(a), 0, Release(1));
    Hoarded(a, u, k);
    TxOnly(c, Unspent(a), k, Lock(Hoard(a, u)));
    RunReleases(a, u, k, h);
    RunOne(Only(c, Unspent(a), k), rest[0], Releasing(k, h));
    RunOne(w1, TokenOp("A", Release(1)), rest);
    var more := (if first then [TokenOp("A", Release(1))] else []) + rest;
    assert [] + rest == rest;
    RunOne(w0, claim, more);
    RunOne(GENESIS, CreateOp(c), [claim] + more);
    assert FullRecord(a, u, first, h) == [CreateOp(c)] + ([claim] + more);
  }

  lemma FullRecordWraps(a: Address, u: u64, h: nat)
    requires u <= h
    ensures Wraps(Only(Coin(a), Frozen1(a, u, h), h), "A", Freeze(2, HALF, a, u))
  {}

  /** On runs exactly the freezes until a height that was reached by a block are unsafe. */
  lemma SafeOnRunsIff(h: nat, u: u64)
    ensures SafeOnRuns(h, u) <==> !(1 <= u <= h)
  {
    hide Wraps, Reached, Frozen1;
    if 1 <= u <= h {
      var a := Address("");
      FullRecordRuns(a, u, false, h);
      FullRecordWraps(a, u, h);
      assert HeightOf(Only(Coin(a), Frozen1(a, u, h), h), "A") == h;
    } else {
      forall ops, w, s, z: Freeze | Reached(ops, w) && HeightOf(w, s) == h && z.unfreezeBlock == u ensures !Wraps(w, s, z) {
        if u == 0 {
          AlwaysLate(ops, s);
          LateNeverWraps(ops, w, s, z);
        } else {
          AheadNeverWraps(ops, w, s, z);
        }
      }
    }
  }

  lemma AlwaysLate(ops: Program, s: string)
    ensures LateOnly(ops, s, 0)
  {}

  // ---------------------------------------------------------------- nodes

  /** The history of a node: what its chains hold, each token chain beginning with the token's first block. */
  ghost predicate NodeHistory(t: Timeline, contents: map<string, seq<Block>>) {
    forall c ::
      && BlocksOf(t, c) == Programs(c, Saved(contents, c))
      && Linked(Saved(contents, c)) && GoodBlocks(c, Saved(contents, c))
      && (c != MATCH_CHAIN && Saved(contents, c) != [] ==> FirstOf(c, Saved(contents, c)[0]))
  }

  ghost predicate FirstOf(c: string, b: Block) {
    exists create: CreateToken :: create.info.symbol == c && b == NewTokenGenesisBlock(create)
  }

  /** The transactions of a block that is being added. */
  ghost predicate Partial(done: Program, s: string) {
    OfChain(done, s) && forall i :: 0 <= i < |done| && done[i].TokenOp? ==> !done[i].tx.Release?
  }

  /** On no node with a chain of height h can a freeze until u wrap, in any part of its next block. */
  ghost predicate SafeOnNodes(h: nat, u: u64) {
    forall t, contents, done, w, s, z: Freeze ::
      NodeHistory(t, contents) && Partial(done, s) && Reached(Flat(t) + done, w) && HeightOf(w, s) == h && z.unfreezeBlock == u ==>
        !Wraps(w, s, z)
  }

  /** A node whose token chains all begin with their first blocks has such a history. */
  lemma NodesHaveHistories(n: Blockchains)
    requires n.Mirrors()
    requires forall c :: c in n.chains && c != MATCH_CHAIN && n.chains[c].blocks != [] ==> FirstOf(c, n.chains[c].blocks[0])
    ensures NodeHistory(n.timeline, Contents(n)) && Reached(Flat(n.timeline) + [], n.world)
  {
    hide ConsensusState.Valid, ConsensusState.View, Run, Flat, BlocksOf, Programs, HeightOf, FirstOf, Linked, Stores, HashesOf,
         Fits;
    FlatWellFormed(n.timeline);
    assert Flat(n.timeline) + [] == Flat(n.timeline);
    forall c
      ensures var blocks := Saved(Contents(n), c);
        && BlocksOf(n.timeline, c) == Programs(c, blocks) && Linked(blocks) && GoodBlocks(c, blocks)
        && (c != MATCH_CHAIN && blocks != [] ==> FirstOf(c, blocks[0]))
    {
      NothingStored();
      if c in n.chains {
        assert n.Coupled(c, []);
        NoRest(Programs(c, n.chains[c].blocks));
      } else {
        NoPrograms(c);
      }
    }
  }

  lemma NoPrograms(c: string)
    ensures Programs(c, []) == [] && GoodBlocks(c, [])
  {}

  // ---------------------------------------------------------------- no freeze before height 1

  lemma {:induction false} HeightsOnlyGrow(a: Program, b: Program, s: string)
    ensures AuditOf(a + b, s).height >= AuditOf(a, s).height
    decreases |b|
  {
    if b == [] {
      assert a + b == a;
    } else {
      var n := |b| - 1;
      assert (a + b)[..|a + b| - 1] == a + b[..n];
      HeightsOnlyGrow(a, b[..n], s);
    }
  }

  lemma LateAppend(a: Program, b: Program, s: string, u: nat)
    requires LateOnly(a, s, u)
    requires (forall i :: 0 <= i < |b| ==> !Freezes(b[i], s, u)) || AuditOf(a, s).height >= u
    ensures LateOnly(a + b, s, u)
  {
    hide AuditOf, Freezes;
    forall i | 0 <= i < |a + b| && Freezes((a + b)[i], s, u) ensures u <= AuditOf((a + b)[..i], s).height {
      if i < |a| {
        assert (a + b)[..i] == a[..i];
      } else {
        assert (a + b)[..i] == a + b[..i - |a|];
        HeightsOnlyGrow(a, b[..i - |a|], s);
      }
    }
  }

  /** A freeze until 1 comes after the first block, which brings the chain to height 1. */
  lemma {:induction false} NoneBeforeFirst(t: Timeline, s: string, create: CreateToken)
    requires WellFormedTimeline(t) && create.info.symbol == s
    requires BlocksOf(t, s) != [] ==> BlocksOf(t, s)[0] == GenesisOps(create)
    ensures LateOnly(Flat(t), s, 1)
    ensures BlocksOf(t, s) != [] ==> AuditOf(Flat(t), s).height >= 1
    decreases |t|
  {
    hide LateOnly, AuditOf, OfChain, GenesisOps;
    if t == [] {
      LateNothing(s);
    } else {
      var n := |t| - 1;
      NoneBeforeFirst(t[..n], s, create);
      HeightsOnlyGrow(Flat(t[..n]), t[n].ops, s);
      if t[n].chain != s {
        OthersFreezeNothing(t[n].ops, t[n].chain, s, 1);
      } else if BlocksOf(t[..n], s) == [] {
        FirstBlockAudit(Flat(t[..n]), create);
      }
      LateAppend(Flat(t[..n]), t[n].ops, s, 1);
    }
  }

  lemma LateNothing(s: string)
    ensures LateOnly(Flat([]), s, 1) && BlocksOf([], s) == []
  {}

  lemma OthersFreezeNothing(ops: Program, c: string, s: string, u: nat)
    requires OfChain(ops, c) && c != s
    ensures forall i :: 0 <= i < |ops| ==> !Freezes(ops[i], s, u)
  {}

  lemma FirstBlockAudit(pre: Program, create: CreateToken)
    ensures var s, ops := create.info.symbol, GenesisOps(create);
      && (forall i :: 0 <= i < |ops| ==> !Freezes(ops[i], s, 1))
      && AuditOf(pre + ops, s).height >= 1
  {
    var s, ops := create.info.symbol, GenesisOps(create);
    assert (pre + ops)[..|pre| + 1] == pre + [ops[0]];
    AuditMore(pre + ops, s);
  }

  lemma SafeUntilOne(t: Timeline, contents: map<string, seq<Block>>, done: Program, w: World, s: string)
    requires NodeHistory(t, contents) && WellFormedTimeline(t) && Partial(done, s) && Reached(Flat(t) + done, w)
    requires s != MATCH_CHAIN && HeightOf(w, s) >= 1 && s in w.ledger.tokens
    ensures LateOnly(Flat(t) + done, s, 1)
  {
    hide LateOnly, AuditOf, Reached, Flat, BlocksOf, Linked, GoodBlocks, GenesisOps, HeightOf, OfChain;
    var blocks := Saved(contents, s);
    SupplyAudit(Flat(t) + done, w, s);
    AuditOfPartial(Flat(t), done, s);
    if blocks == [] {
      NoPrograms(s);
      NoBlocksNoHeight(t, s);
      assert false;
    } else {
      var create: CreateToken :| create.info.symbol == s && blocks[0] == NewTokenGenesisBlock(create);
      GenesisBlockOps(create);
      NoneBeforeFirst(t, s, create);
      LateAppend(Flat(t), done, s, 1);
    }
  }

  lemma SupplyAudit(ops: Program, w: World, s: string)
    requires Reached(ops, w) && s in w.ledger.tokens
    ensures HeightOf(w, s) == AuditOf(ops, s).height
  {
    hide Run, AuditOf, Worth;
    SupplyConserved(ops, w, s);
  }

  lemma {:induction false} AuditOfPartial(a: Program, b: Program, s: string)
    requires forall i :: 0 <= i < |b| && b[i].TokenOp? ==> !b[i].tx.Release?
    ensures AuditOf(a + b, s).height == AuditOf(a, s).height
    decreases |b|
  {
    if b == [] {
      assert a + b == a;
    } else {
      var n := |b| - 1;
      assert (a + b)[..|a + b| - 1] == a + b[..n];
      AuditOfPartial(a, b[..n], s);
    }
  }

  lemma {:induction false} NoBlocksNoHeight(t: Timeline, s: string)
    requires WellFormedTimeline(t) && BlocksOf(t, s) == []
    ensures AuditOf(Flat(t), s).height == 0
    decreases |t|
  {
    hide OfChain;
    if t != [] {
      var n := |t| - 1;
      assert t[n].chain != s;
      NoBlocksNoHeight(t[..n], s);
      OthersRelease(Flat(t[..n]), t[n].ops, t[n].chain, s);
    }
  }

  lemma {:induction false} OthersRelease(a: Program, b: Program, c: string, s: string)
    requires OfChain(b, c) && c != s
    ensures AuditOf(a + b, s).height == AuditOf(a, s).height
    decreases |b|
  {
    if b == [] {
      assert a + b == a;
    } else {
      var n := |b| - 1;
      assert (a + b)[..|a + b| - 1] == a + b[..n];
      assert ChainOf(b[n]) == c;
      OthersRelease(a, b[..n], c, s);
    }
  }

  // ---------------------------------------------------------------- a node with a full record

  function HoardData(a: Address, u: u64, n: nat): BlockData {
    TokenData([], [], [], if n == 2 then [Hoard(a, u)] else [])
  }

  function SealedBlock(prev: Hash, data: BlockData): Block {
    Block(prev, data, 0, Digest(prev, data, 0))
  }

  /** The first n blocks of the token chain: everything is frozen in the second, the others are empty. */
  function HoardBlocks(a: Address, u: u64, n: nat): seq<Block>
    requires n > 0
  {
    if n == 1 then [NewTokenGenesisBlock(Coin(a))]
    else HoardBlocks(a, u, n - 1) + [SealedBlock(TipOf(HoardBlocks(a, u, n - 1)), HoardData(a, u, n))]
  }

  function MintBlock(a: Address): Block {
    SealedBlock(NoHash, MatchData([], [], [Coin(a)]))
  }

  function HoardContents(a: Address, u: u64, n: nat): map<string, seq<Block>>
    requires n > 0
  {
    map[MATCH_CHAIN := [MintBlock(a)], "A" := HoardBlocks(a, u, n)]
  }

  function HoardTimeline(a: Address, u: u64, n: nat): Timeline
    requires n > 0
  {
    if n == 1 then [Segment(MATCH_CHAIN, [CreateOp(Coin(a))]), Segment("A", GenesisOps(Coin(a)))]
    else HoardTimeline(a, u, n - 1) + [Segment("A", BlockOps("A", HoardData(a, u, n), n))]
  }

  lemma {:induction false} HoardBlocksFit(a: Address, u: u64, n: nat)
    requires n > 0
    ensures var blocks := HoardBlocks(a, u, n);
      |blocks| == n && blocks[0] == NewTokenGenesisBlock(Coin(a)) && Linked(blocks) && GoodBlocks("A", blocks)
  {
    if n == 1 {
      var blocks := HoardBlocks(a, u, 1);
      GenesisBlockOps(Coin(a));
      assert blocks[..0] == [];
    } else {
      hide Linked, TipOf, DataOps;
      var before := HoardBlocks(a, u, n - 1);
      HoardBlocksFit(a, u, n - 1);
      LinkedAppend(before, SealedBlock(TipOf(before), HoardData(a, u, n)));
      HoardDataFits(a, u, n);
    }
  }

  lemma HoardDataFits(a: Address, u: u64, n: nat)
    ensures Fits("A", HoardData(a, u, n))
  {}

  ghost predicate HoardHeld(t: Timeline, a: Address, u: u64, n: nat)
    requires n > 0
  {
    && BlocksOf(t, "A") == Programs("A", HoardBlocks(a, u, n)) && BlocksOf(t, MATCH_CHAIN) == [[CreateOp(Coin(a))]]
    && forall c :: c != "A" && c != MATCH_CHAIN ==> BlocksOf(t, c) == []
  }

  lemma {:induction false} HoardTimelineHolds(a: Address, u: u64, n: nat)
    requires n > 0
    ensures HoardHeld(HoardTimeline(a, u, n), a, u, n)
  {
    hide HoardHeld;
    if n == 1 {
      HoardStarts(a, u);
    } else {
      HoardTimelineHolds(a, u, n - 1);
      HoardGrows(a, u, n);
    }
  }

  lemma HoardStarts(a: Address, u: u64)
    ensures HoardHeld(HoardTimeline(a, u, 1), a, u, 1)
  {
    var first, second := Segment(MATCH_CHAIN, [CreateOp(Coin(a))]), Segment("A", GenesisOps(Coin(a)));
    FirstBlockOps(Coin(a));
    forall c { BlocksWith([first], second, c); }
    OneSegment(first);
    assert HoardTimeline(a, u, 1) == [first] + [second];
    hide Programs, GenesisOps, BlocksOf, BlockOps;
    assert [] + [GenesisOps(Coin(a))] == [GenesisOps(Coin(a))];
  }

  lemma HoardGrows(a: Address, u: u64, n: nat)
    requires n > 1 && HoardHeld(HoardTimeline(a, u, n - 1), a, u, n - 1)
    ensures HoardHeld(HoardTimeline(a, u, n), a, u, n)
  {
    HoardBlocksFit(a, u, n - 1);
    var before := HoardBlocks(a, u, n - 1);
    ProgramsAppend("A", before, SealedBlock(TipOf(before), HoardData(a, u, n)));
    var t, s := HoardTimeline(a, u, n - 1), Segment("A", BlockOps("A", HoardData(a, u, n), n));
    forall c { BlocksWith(t, s, c); }
    assert HoardTimeline(a, u, n) == t + [s];
    hide Programs, GenesisOps, BlocksOf, BlockOps, HoardTimeline, TipOf;
    forall c | c != "A" ensures BlocksOf(t + [s], c) == BlocksOf(t, c) {
      assert BlocksOf(t, c) + [] == BlocksOf(t, c);
    }
  }

  lemma {:induction false} HoardTimelineFlat(a: Address, u: u64, n: nat)
    requires n > 1
    ensures Flat(HoardTimeline(a, u, n)) == FullRecord(a, u, true, n)
  {
    hide GenesisOps, Flat, BlockOps, HoardData;
    var before, last := HoardTimeline(a, u, n - 1), Segment("A", BlockOps("A", HoardData(a, u, n), n));
    FlatConcat(before, [last]);
    OneSegment(last);
    HoardBlockOps(a, u, n);
    if n == 2 {
      HoardBegins(a, u);
    } else {
      HoardTimelineFlat(a, u, n - 1);
      assert [] + [TokenOp("A", Release(n))] == [TokenOp("A", Release(n))];
    }
  }

  lemma HoardBlockOps(a: Address, u: u64, n: nat)
    ensures BlockOps("A", HoardData(a, u, n), n)
      == (if n == 2 then [TokenOp("A", Lock(Hoard(a, u)))] else []) + [TokenOp("A", Release(n))]
  {}

  lemma HoardBegins(a: Address, u: u64)
    ensures FullRecord(a, u, true, 2)
      == Flat(HoardTimeline(a, u, 1)) + ([TokenOp("A", Lock(Hoard(a, u)))] + [TokenOp("A", Release(2))])
  {
    hide GenesisOps, Flat;
    var first, second := Segment(MATCH_CHAIN, [CreateOp(Coin(a))]), Segment("A", GenesisOps(Coin(a)));
    assert HoardTimeline(a, u, 1) == [first] + [second];
    FlatConcat([first], [second]);
    OneSegment(first);
    OneSegment(second);
    assert Releasing(1, 1) == [];
    assert Releasing(1, 2) == [] + [TokenOp("A", Release(2))];
    assert [] + [TokenOp("A", Release(2))] == [TokenOp("A", Release(2))];
  }

  lemma HoardHistory(a: Address, u: u64, n: nat)
    requires n > 1
    ensures NodeHistory(HoardTimeline(a, u, n), HoardContents(a, u, n))
    ensures Flat(HoardTimeline(a, u, n)) + [] == FullRecord(a, u, true, n)
  {
    hide BlocksOf, Programs, Flat, HoardTimeline, HoardBlocks, DataOps, NewTokenGenesisBlock;
    var t, contents := HoardTimeline(a, u, n), HoardContents(a, u, n);
    HoardTimelineHolds(a, u, n);
    HoardTimelineFlat(a, u, n);
    HoardBlocksFit(a, u, n);
    MintBlockFits(a);
    NothingStored();
    forall c
      ensures BlocksOf(t, c) == Programs(c, Saved(contents, c)) && Linked(Saved(contents, c)) && GoodBlocks(c, Saved(contents, c))
      ensures c != MATCH_CHAIN && Saved(contents, c) != [] ==> FirstOf(c, Saved(contents, c)[0])
    {
      NoPrograms(c);
      if c == "A" {
        assert Coin(a).info.symbol == "A";
      }
    }
  }

  lemma MintBlockFits(a: Address)
    ensures Linked([MintBlock(a)]) && GoodBlocks(MATCH_CHAIN, [MintBlock(a)])
    ensures Programs(MATCH_CHAIN, [MintBlock(a)]) == [[CreateOp(Coin(a))]]
  {
    assert [MintBlock(a)][..0] == [];
    assert BlockOps(MATCH_CHAIN, MintBlock(a).data, 1) == [CreateOp(Coin(a))];
  }

  /** The same node forgets a release when it is restarted: its second block freezes all that the creator has
      until the height of that block, so that the funds are released at once, and the replay of its blocks
      leaves them frozen. */
  lemma RestartForgetsRelease(a: Address)
    ensures NodeHistory(HoardTimeline(a, 2, 2), HoardContents(a, 2, 2)) && !NoneDue(Flat(HoardTimeline(a, 2, 2)))
    ensures var live, replayed := Run(GENESIS, Flat(HoardTimeline(a, 2, 2))), Run(GENESIS, Strip(Flat(HoardTimeline(a, 2, 2))));
      && live.Some? && "A" in live.value.ledger.tokens && Get(live.value.ledger.tokens["A"].balances, a) == HALF
      && replayed.Some? && "A" in replayed.value.ledger.tokens && Get(replayed.value.ledger.tokens["A"].balances, a) == 0
  {
    hide Step, Apply, Run, Flat, HoardTimeline, NodeHistory, HoardContents, NoneDue, Strip;
    HoardHistory(a, 2, 2);
    FullRecordRuns(a, 2, true, 2);
    assert Flat(HoardTimeline(a, 2, 2)) + [] == Flat(HoardTimeline(a, 2, 2));
    HoardReplayed(a);
    HoardDue(a);
  }

  lemma HoardOps(a: Address)
    ensures FullRecord(a, 2, true, 2) ==
      [CreateOp(Coin(a)), GenesisOps(Coin(a))[0], TokenOp("A", Release(1)), TokenOp("A", Lock(Hoard(a, 2))), TokenOp("A", Release(2))]
  {
    assert Releasing(1, 1) == [];
    assert Releasing(1, 2) == [] + [TokenOp("A", Release(2))];
  }

  lemma HoardDue(a: Address)
    ensures !NoneDue(FullRecord(a, 2, true, 2))
  {
    HoardOps(a);
    var ops := FullRecord(a, 2, true, 2);
    hide FullRecord;
    assert Releases(ops[3], ops[4]);
  }

  lemma StripOne(op: Op, rest: Program)
    ensures Strip([op] + rest) == if op.TokenOp? && op.tx.Release? then Strip(rest) else [op] + Strip(rest)
  {
    assert ([op] + rest)[1..] == rest;
  }

  lemma HoardReplayed(a: Address)
    ensures Run(GENESIS, Strip(FullRecord(a, 2, true, 2))) == Some(Only(Coin(a), Frozen1(a, 2, 0), 0))
    ensures Get(Frozen1(a, 2, 0).balances, a) == 0
  {
    hide Run, Step, Strip, Apply, FullRecord;
    var c, claim, lock := Coin(a), GenesisOps(Coin(a))[0], TokenOp("A", Lock(Hoard(a, 2)));
    var w0, w1 := Only(c, NewToken(c), 0), Only(c, Unspent(a), 0);
    HoardOps(a);
    var release1, release2 := TokenOp("A", Release(1)), TokenOp("A", Release(2));
    assert [CreateOp(c), claim, release1, lock, release2]
      == [CreateOp(c)] + ([claim] + ([release1] + ([lock] + ([release2] + []))));
    StripNothing([]);
    StripOne(release2, []);
    StripOne(lock, [release2] + []);
    StripOne(release1, [lock] + ([release2] + []));
    StripOne(claim, [release1] + ([lock] + ([release2] + [])));
    StripOne(CreateOp(c), [claim] + ([release1] + ([lock] + ([release2] + []))));
    Minted(a);
    TxOnly(c, NewToken(c), 0, claim.tx);
    Hoarded(a, 2, 0);
    TxOnly(c, Unspent(a), 0, lock.tx);
    RunOne(GENESIS, CreateOp(c), [claim] + ([lock] + []));
    RunOne(w0, claim, [lock] + []);
    RunOne(w1, lock, []);
    RunNothing(Only(c, Frozen1(a, 2, 0), 0));
  }

  /** On nodes exactly the freezes until a height reached by a later block than the first are unsafe. */
  lemma SafeOnNodesIff(h: nat, u: u64)
    ensures SafeOnNodes(h, u) <==> !(2 <= u <= h)
  {
    hide Wraps, Reached, Frozen1, NodeHistory, Flat, HoardTimeline, HoardContents, FullRecord;
    if 2 <= u <= h {
      var a := Address("");
      HoardHistory(a, u, h);
      FullRecordRuns(a, u, true, h);
      FullRecordWraps(a, u, h);
      var w := Only(Coin(a), Frozen1(a, u, h), h);
      assert HeightOf(w, "A") == h && Partial([], "A");
      assert NodeHistory(HoardTimeline(a, u, h), HoardContents(a, u, h)) && Reached(Flat(HoardTimeline(a, u, h)) + [], w);
      assert Wraps(w, "A", Freeze(2, HALF, a, u)) && Freeze(2, HALF, a, u).unfreezeBlock == u;
    } else {
      forall t, contents, done, w, s, z: Freeze |
          NodeHistory(t, contents) && Partial(done, s) && Reached(Flat(t) + done, w) && HeightOf(w, s) == h && z.unfreezeBlock == u
        ensures !Wraps(w, s, z)
      {
        if u > h {
          AheadNeverWraps(Flat(t) + done, w, s, z);
        } else if u == 0 {
          AlwaysLate(Flat(t) + done, s);
          LateNeverWraps(Flat(t) + done, w, s, z);
        } else {
          OneNeverWraps(t, contents, done, w, s, z);
        }
      }
    }
  }

  lemma OneNeverWraps(t: Timeline, contents: map<string, seq<Block>>, done: Program, w: World, s: string, z: Freeze)
    requires NodeHistory(t, contents) && Partial(done, s) && Reached(Flat(t) + done, w)
    requires z.unfreezeBlock == 1 <= HeightOf(w, s)
    ensures !Wraps(w, s, z)
  {
    hide Reached, NodeHistory, Flat, AddFreeze, LateOnly;
    if Wraps(w, s, z) {
      HasHeight(Flat(t) + done, w, s);
      HistoryWellFormed(t, contents);
      SafeUntilOne(t, contents, done, w, s);
      LateNeverWraps(Flat(t) + done, w, s, z);
    }
  }

  /** Only tokens have heights. */
  lemma HasHeight(ops: Program, w: World, s: string)
    requires Reached(ops, w) && HeightOf(w, s) >= 1
    ensures s != MATCH_CHAIN
  {
    hide Run, WellFormed, TokenInv;
    GenesisInv();
    RunInv(GENESIS, ops);
  }

  lemma {:induction false} HistoryWellFormed(t: Timeline, contents: map<string, seq<Block>>)
    requires NodeHistory(t, contents)
    ensures WellFormedTimeline(t)
  {
    hide Linked, OfChain, BlockOps;
    forall i | 0 <= i < |t| ensures OfChain(t[i].ops, t[i].chain) {
      var k := BlockAmong(t, i);
      var blocks := Saved(contents, t[i].chain);
      assert BlocksOf(t, t[i].chain) == Programs(t[i].chain, blocks);
      assert Fits(t[i].chain, blocks[k].data);
      BlockOpsOfChain(t[i].chain, blocks[k].data, k + 1);
    }
  }

  /** Every segment of a timeline is among the blocks of its chain. */
  lemma {:induction false} BlockAmong(t: Timeline, i: nat) returns (k: nat)
    requires i < |t|
    ensures k < |BlocksOf(t, t[i].chain)| && BlocksOf(t, t[i].chain)[k] == t[i].ops
    decreases |t|
  {
    var n := |t| - 1;
    if i == n {
      k := |BlocksOf(t[..n], t[n].chain)|;
    } else {
      k := BlockAmong(t[..n], i);
    }
  }
}
