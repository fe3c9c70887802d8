/** How a world came about: the blocks of all chains, in the order in which they were added.  The world
    is the replay of its timeline; adding a block extends it, and a rollback takes transactions out of
    it, wherever they lie. */
module Timelines {
  import opened Amounts
  import opened Transactions
  import opened TokenLedger
  import opened TokenLaws
  import opened Ledgers
  import opened Commutation
  import opened Schedules

  // ---------------------------------------------------------------- what a block stands for

  function ClaimOps(s: string, claims: seq<ClaimFunds>): Program {
    seq(|claims|, i requires 0 <= i < |claims| => TokenOp(s, Claim(claims[i])))
  }

  function TransferOps(s: string, transfers: seq<Transfer>): Program {
    seq(|transfers|, i requires 0 <= i < |transfers| => TokenOp(s, Pay(transfers[i])))
  }

  function FreezeOps(s: string, freezes: seq<Freeze>): Program {
    seq(|freezes|, i requires 0 <= i < |freezes| => TokenOp(s, Lock(freezes[i])))
  }

  function OrderOps(s: string, orders: seq<Order>): Program {
    seq(|orders|, i requires 0 <= i < |orders| => TokenOp(s, Place(orders[i])))
  }

  function MatchOps(matches: seq<Match>): Program {
    seq(|matches|, i requires 0 <= i < |matches| => MatchOp(matches[i]))
  }

  function CreateOps(creates: seq<CreateToken>): Program {
    seq(|creates|, i requires 0 <= i < |creates| => CreateOp(creates[i]))
  }

  function CancelOps(cancels: seq<CancelOrder>): Program {
    seq(|cancels|, i requires 0 <= i < |cancels| => CancelOp(cancels[i]))
  }

  /** The transactions of a block, in the order in which they are processed. */
  function DataOps(s: string, data: BlockData): Program {
    match data
    case TokenData(orders, claims, transfers, freezes) =>
      ClaimOps(s, claims) + TransferOps(s, transfers) + FreezeOps(s, freezes) + OrderOps(s, orders)
    case MatchData(matches, cancels, creates) =>
      CreateOps(creates) + MatchOps(matches) + CancelOps(cancels)
  }

  /** What adding a block does: its transactions, and on a token chain the release of frozen funds. */
  function BlockOps(s: string, data: BlockData, height: nat): Program {
    DataOps(s, data) + (if data.TokenData? then [TokenOp(s, Release(height))] else [])
  }

  /** The block is of the kind that the chain takes, and all that it holds is well formed. */
  ghost predicate Fits(s: string, data: BlockData) {
    && (s == MATCH_CHAIN <==> data.MatchData?)
    && OfChain(DataOps(s, data), s)
  }

  lemma BlockOpsOfChain(s: string, data: BlockData, height: nat)
    requires Fits(s, data)
    ensures OfChain(BlockOps(s, data, height), s)
  {
    hide DataOps;
  }

  predicate NoCreates(ops: Program) {
    forall i :: 0 <= i < |ops| ==> !ops[i].CreateOp?
  }

  /** All the blocks in sequence. */
  function Joined(blocks: seq<Program>): Program {
    if blocks == [] then [] else blocks[0] + Joined(blocks[1..])
  }

  // ---------------------------------------------------------------- timelines

  datatype Segment = Segment(chain: string, ops: Program)

  type Timeline = seq<Segment>

  ghost predicate WellFormedTimeline(t: Timeline) {
    forall i :: 0 <= i < |t| ==> OfChain(t[i].ops, t[i].chain)
  }

  function Flat(t: Timeline): seq<Op> {
    if t == [] then [] else Flat(t[..|t| - 1]) + t[|t| - 1].ops
  }

  /** The blocks of one chain. */
  function BlocksOf(t: Timeline, c: string): seq<Program> {
    if t == [] then []
    else BlocksOf(t[..|t| - 1], c) + (if t[|t| - 1].chain == c then [t[|t| - 1].ops] else [])
  }

  ghost predicate Replays(t: Timeline, w: World) {
    WellFormedTimeline(t) && Run(GENESIS, Flat(t)) == Some(w)
  }

  lemma ReplayInv(t: Timeline, w: World)
    requires Replays(t, w)
    ensures Inv(w)
  {
    hide Inv, Run, OfChain;
    FlatWellFormed(t);
    GenesisInv();
    RunInv(GENESIS, Flat(t));
  }

  lemma {:induction false} FlatWellFormed(t: Timeline)
    requires WellFormedTimeline(t)
    ensures AllWellFormed(Flat(t))
  {
    if t != [] {
      FlatWellFormed(t[..|t| - 1]);
    }
  }

  lemma {:induction false} FlatConcat(a: Timeline, b: Timeline)
    ensures Flat(a + b) == Flat(a) + Flat(b)
    decreases |b|
  {
    if b == [] {
      assert a + b == a;
    } else {
      assert (a + b)[..|a + b| - 1] == a + b[..|b| - 1];
      FlatConcat(a, b[..|b| - 1]);
    }
  }

  lemma {:induction false} BlocksConcat(a: Timeline, b: Timeline, c: string)
    ensures BlocksOf(a + b, c) == BlocksOf(a, c) + BlocksOf(b, c)
    decreases |b|
  {
    if b == [] {
      assert a + b == a;
    } else {
      assert (a + b)[..|a + b| - 1] == a + b[..|b| - 1];
      BlocksConcat(a, b[..|b| - 1], c);
    }
  }

  lemma OneSegment(s: Segment)
    ensures Flat([s]) == s.ops
    ensures forall c :: BlocksOf([s], c) == if s.chain == c then [s.ops] else []
  {
    assert [s][..0] == [];
  }

  ghost predicate Without(t: Timeline, c: string) {
    forall i :: 0 <= i < |t| ==> t[i].chain != c
  }

  lemma {:induction false} FlatAvoids(t: Timeline, c: string)
    requires WellFormedTimeline(t) && Without(t, c)
    ensures Avoids(Flat(t), c) && BlocksOf(t, c) == []
  {
    if t != [] {
      FlatAvoids(t[..|t| - 1], c);
    }
  }

  /** Where the last block of a chain lies in a timeline. */
  lemma {:induction false} LastBlock(t: Timeline, c: string) returns (k: nat)
    requires BlocksOf(t, c) != []
    ensures k < |t| && t[k].chain == c && Without(t[k + 1..], c)
    ensures BlocksOf(t, c) == BlocksOf(t[..k], c) + [t[k].ops]
  {
    var n := |t| - 1;
    if t[n].chain == c {
      k := n;
    } else {
      k := LastBlock(t[..n], c);
      assert t[..n][..k] == t[..k];
      var rest, before := t[k + 1..], t[..n][k + 1..];
      forall i | 0 <= i < |rest| ensures rest[i].chain != c {
        if k + 1 + i < n {
          assert before[i] == rest[i];
        }
      }
    }
  }

  /** The timeline with the k-th block replaced. */
  function Replace(t: Timeline, k: nat, ops: Program): Timeline
    requires k < |t|
  {
    t[..k] + [Segment(t[k].chain, ops)] + t[k + 1..]
  }

  lemma Around(t: Timeline, k: nat, ops: Program)
    requires k < |t|
    ensures Flat(Replace(t, k, ops)) == Flat(t[..k]) + ops + Flat(t[k + 1..])
    ensures Replace(t, k, t[k].ops) == t
  {
    hide Flat, BlocksOf;
    var s := Segment(t[k].chain, ops);
    FlatConcat(t[..k] + [s], t[k + 1..]);
    FlatConcat(t[..k], [s]);
    OneSegment(s);
  }

  lemma BlocksAround(t: Timeline, k: nat, ops: Program, c: string)
    requires k < |t|
    ensures BlocksOf(Replace(t, k, ops), c)
         == BlocksOf(t[..k], c) + (if c == t[k].chain then [ops] else []) + BlocksOf(t[k + 1..], c)
  {
    hide BlocksOf;
    var s := Segment(t[k].chain, ops);
    BlocksConcat(t[..k] + [s], t[k + 1..], c);
    BlocksConcat(t[..k], [s], c);
    OneSegment(s);
  }

  // ---------------------------------------------------------------- taking one transaction out

  /** Undoing the last transaction of a chain, wherever its block lies in the timeline, gives the replay
      of the timeline without it. */
  lemma TakeOut(t: Timeline, k: nat, w: World)
    requires Replays(t, w) && k < |t| && t[k].ops != [] && Without(t[k + 1..], t[k].chain)
    requires var o := t[k].ops[|t[k].ops| - 1];
      !o.CreateOp? && Removable(w, o) && (o.MatchOp? ==> OrdersKnown(w.ledger, o.m))
    ensures var o := t[k].ops[|t[k].ops| - 1];
      && (o.TokenOp? ==> o.symbol in w.ledger.tokens && (o.tx.Release? ==> o.tx.height > 0))
      && (o.MatchOp? ==> o.m.buySymbol != o.m.sellSymbol)
      && Replays(Replace(t, k, t[k].ops[..|t[k].ops| - 1]), UndoOp(w, o))
  {
    hide Inv, Run, Removable, OrdersKnown, UndoOp, Flat, Step;
    var c, n := t[k].chain, |t[k].ops| - 1;
    var o, kept := t[k].ops[n], t[k].ops[..n];
    var pre, post := Flat(t[..k]) + kept, Flat(t[k + 1..]);
    Around(t, k, t[k].ops);
    Around(t, k, kept);
    assert t[k].ops == kept + [o];
    assert Flat(t) == pre + ([o] + post);
    FlatWellFormed(t);
    FlatAvoids(t[k + 1..], c);
    GenesisInv();
    RunConcat(GENESIS, pre, [o] + post);
    RunOne(Run(GENESIS, pre).value, o, post);
    assert AllWellFormed(pre) && AllWellFormed(post) && WellFormed(o) by {
      assert forall i :: 0 <= i < |pre| ==> Flat(t)[i] == pre[i];
      assert forall i :: 0 <= i < |post| ==> Flat(t)[|pre| + 1 + i] == post[i];
      assert Flat(t)[|pre|] == o;
    }
    RunInv(GENESIS, pre);
    UndoFromBehind(Run(GENESIS, pre).value, o, post);
    RunConcat(GENESIS, pre, post);
    ReplaceWellFormed(t, k, kept);
  }

  /** Nothing depends on a transaction that was just made. */
  lemma JustMadeRemovable(w: World, o: Op)
    requires Inv(w) && WellFormed(o) && !o.CreateOp? && Step(w, o).Some?
    ensures Removable(Step(w, o).value, o)
  {
    hide Worth, Accepts, ApplySide, Apply;
    match o
    case TokenOp(s, x) =>
      if x.Place? {
        JustPlaced(w.ledger.tokens[s], x.order);
      }
    case MatchOp(m) =>
      hide Inv, ValidMatch, OrdersKnown, SideCovered;
      MatchCoveredAtOnce(w, m);
    case CancelOp(_) =>
  }

  lemma JustPlaced(t: Token, o: Order)
    requires Apply(t, Place(o)).Some?
    ensures Count(Apply(t, Place(o)).value, o.id) == 0
  {}

  lemma MatchCoveredAtOnce(w: World, m: Match)
    requires Inv(w) && m.buySymbol != m.sellSymbol && ValidMatch(w.ledger, m)
    ensures Covered(AddMatch(w.ledger, m).value, m)
  {
    hide Worth, Accepts, ApplySide, Filed, Named, OrdersKnown;
    ValidMatchFacts(w, m);
    var l := w.ledger;
    var buy, sell := BuyOrder(l, m).value, SellOrder(l, m).value;
    MatchTokens(l, m);
    MatchSidesFit(l, m);
    MatchJustMade(w, m);
    SideCoveredAtOnce(l.tokens[m.buySymbol], BuySide(m, buy, sell), HeightOf(w, m.buySymbol));
    SideCoveredAtOnce(l.tokens[m.sellSymbol], SellSide(m, buy, sell), HeightOf(w, m.sellSymbol));
  }

  lemma SideCoveredAtOnce(t: Token, s: Side, h: nat)
    requires SideFits(t, s) && Worth(t, h) < WORD
    ensures SideCovered(ApplySide(t, s), s)
  {
    hide Worth, ApplySide;
    SideUnclaimed(t, s);
    NoWrap(t, s, h, s.payee);
    NoWrap(t, s, h, s.residual.seller);
    PaidInFull(t.unclaimed, s, s.payee);
    PaidInFull(t.unclaimed, s, s.residual.seller);
  }

  /** Exactly when can a transaction be taken out?  The other transactions can be replayed without the
      last one of some chain if and only if no match names the order that it placed, or all that the
      match paid is still unclaimed. */
  lemma TakeOutIff(t: Timeline, k: nat, w: World)
    requires Replays(t, w) && k < |t| && t[k].ops != [] && Without(t[k + 1..], t[k].chain)
    requires !t[k].ops[|t[k].ops| - 1].CreateOp?
    ensures var n := |t[k].ops| - 1;
      Run(GENESIS, Flat(Replace(t, k, t[k].ops[..n]))).Some? <==> Removable(w, t[k].ops[n])
  {
    hide Inv, Run, UndoOp, Flat, Step, Removable;
    var c, n := t[k].chain, |t[k].ops| - 1;
    var o, kept := t[k].ops[n], t[k].ops[..n];
    var pre, post := Flat(t[..k]) + kept, Flat(t[k + 1..]);
    Around(t, k, t[k].ops);
    Around(t, k, kept);
    assert t[k].ops == kept + [o];
    assert Flat(t) == pre + ([o] + post);
    FlatWellFormed(t);
    FlatAvoids(t[k + 1..], c);
    GenesisInv();
    RunConcat(GENESIS, pre, [o] + post);
    RunConcat(GENESIS, pre, post);
    assert AllWellFormed(pre) && AllWellFormed(post) && WellFormed(o) && ChainOf(o) == c by {
      assert forall i :: 0 <= i < |pre| ==> Flat(t)[i] == pre[i];
      assert forall i :: 0 <= i < |post| ==> Flat(t)[|pre| + 1 + i] == post[i];
      assert Flat(t)[|pre|] == o;
      assert OfChain(t[k].ops, c);
    }
    RunInv(GENESIS, pre);
    var v := Run(GENESIS, pre).value;
    RunOne(v, o, post);
    if Removable(w, o) {
      CoveredIsKnown(w, o);
      TakeOut(t, k, w);
    }
    if Run(v, post).Some? {
      StepRunCommute(v, o, post);
      RunInv(v, post);
      JustMadeRemovable(Run(v, post).value, o);
    }
  }

  lemma CoveredIsKnown(w: World, o: Op)
    requires Removable(w, o)
    ensures o.MatchOp? ==> OrdersKnown(w.ledger, o.m)
  {}

  lemma RunOne(w: World, o: Op, post: seq<Op>)
    ensures Run(w, [o] + post) == (match Step(w, o) case None => None case Some(w1) => Run(w1, post))
  {
    assert ([o] + post)[1..] == post;
  }

  lemma ReplaceWellFormed(t: Timeline, k: nat, ops: Program)
    requires WellFormedTimeline(t) && k < |t| && ops <= t[k].ops
    ensures WellFormedTimeline(Replace(t, k, ops))
  {
    forall i | 0 <= i < |t| ensures OfChain(Replace(t, k, ops)[i].ops, Replace(t, k, ops)[i].chain) {
      if i == k {
        assert OfChain(t[k].ops, t[k].chain);
      } else {
        assert Replace(t, k, ops)[i] == t[i];
      }
    }
  }

  /** A block that has lost all its transactions is no longer there. */
  lemma DropEmpty(t: Timeline, k: nat, w: World)
    requires Replays(t, w) && k < |t| && t[k].ops == []
    ensures Replays(t[..k] + t[k + 1..], w)
  {
    hide Flat, Run, OfChain;
    var fewer := t[..k] + t[k + 1..];
    Around(t, k, []);
    FlatConcat(t[..k], t[k + 1..]);
    assert Flat(t[..k]) + [] == Flat(t[..k]);
    forall i | 0 <= i < |fewer| ensures OfChain(fewer[i].ops, fewer[i].chain) {
      assert fewer[i] == t[if i < k then i else i + 1];
    }
  }

  lemma BlocksWithout(t: Timeline, k: nat, c: string)
    requires k < |t|
    ensures BlocksOf(t[..k] + t[k + 1..], c) == BlocksOf(t[..k], c) + BlocksOf(t[k + 1..], c)
  {
    BlocksConcat(t[..k], t[k + 1..], c);
  }

  lemma RunNothing(w: World)
    ensures Run(w, []) == Some(w)
  {}

  lemma BlocksWith(t: Timeline, s: Segment, c: string)
    ensures BlocksOf(t + [s], c) == BlocksOf(t, c) + (if s.chain == c then [s.ops] else [])
  {
    assert (t + [s])[..|t|] == t;
  }

  // ---------------------------------------------------------------- the same, seen from the blocks of a chain

  /** The timeline after the last transaction of a chain was taken out. */
  lemma PopOp(t: Timeline, w: World, c: string, init: seq<Program>, kept: Program, o: Op) returns (t': Timeline)
    requires Replays(t, w) && BlocksOf(t, c) == init + [kept + [o]]
    requires !o.CreateOp? && Removable(w, o) && (o.MatchOp? ==> OrdersKnown(w.ledger, o.m))
    ensures (o.TokenOp? ==> o.symbol in w.ledger.tokens && (o.tx.Release? ==> o.tx.height > 0))
    ensures o.MatchOp? ==> o.m.buySymbol != o.m.sellSymbol
    ensures Replays(t', UndoOp(w, o))
    ensures BlocksOf(t', c) == init + [kept]
    ensures forall d :: d != c ==> BlocksOf(t', d) == BlocksOf(t, d)
  {
    hide Replays, Removable, OrdersKnown, UndoOp, BlocksOf;
    var k := LastBlock(t, c);
    LastOfTwo(init, kept + [o], BlocksOf(t[..k], c), t[k].ops);
    assert t[k].ops[|t[k].ops| - 1] == o && t[k].ops[..|t[k].ops| - 1] == kept;
    TakeOut(t, k, w);
    t' := Replace(t, k, kept);
    forall d ensures d != c ==> BlocksOf(t', d) == BlocksOf(t, d) {
      BlocksAround(t, k, kept, d);
      BlocksAround(t, k, t[k].ops, d);
      Around(t, k, t[k].ops);
    }
    BlocksAround(t, k, kept, c);
    FromWithout(t, k, w);
  }

  lemma LastOfTwo<T>(a: seq<T>, x: T, b: seq<T>, y: T)
    requires a + [x] == b + [y]
    ensures a == b && x == y
  {
    assert (a + [x])[|a|] == x && (b + [y])[|b|] == y;
    assert a == (a + [x])[..|a|] && b == (b + [y])[..|b|];
  }

  lemma FromWithout(t: Timeline, k: nat, w: World)
    requires Replays(t, w) && k < |t| && Without(t[k + 1..], t[k].chain)
    ensures BlocksOf(t[k + 1..], t[k].chain) == []
  {
    hide Run;
    FlatAvoids(t[k + 1..], t[k].chain);
  }

  /** The timeline without the last block of a chain, which has lost all its transactions. */
  lemma PopEmpty(t: Timeline, w: World, c: string, init: seq<Program>) returns (t': Timeline)
    requires Replays(t, w) && BlocksOf(t, c) == init + [[]]
    ensures Replays(t', w)
    ensures BlocksOf(t', c) == init
    ensures forall d :: d != c ==> BlocksOf(t', d) == BlocksOf(t, d)
  {
    hide Replays, BlocksOf;
    var k := LastBlock(t, c);
    LastOfTwo(init, [], BlocksOf(t[..k], c), t[k].ops);
    DropEmpty(t, k, w);
    t' := t[..k] + t[k + 1..];
    forall d ensures d != c ==> BlocksOf(t', d) == BlocksOf(t, d) {
      BlocksWithout(t, k, d);
      BlocksAround(t, k, t[k].ops, d);
      Around(t, k, t[k].ops);
    }
    BlocksWithout(t, k, c);
    FromWithout(t, k, w);
  }

  /** What is known of the last transaction of a chain. */
  lemma LastOpMade(t: Timeline, w: World, c: string, init: seq<Program>, kept: Program, o: Op)
    requires Replays(t, w) && BlocksOf(t, c) == init + [kept + [o]]
    ensures WellFormed(o) && ChainOf(o) == c && !o.CancelOp?
    ensures o.TokenOp? ==> o.symbol in w.ledger.tokens && (o.tx.Release? ==> o.tx.height > 0)
    ensures o.MatchOp? ==> o.m.buySymbol in w.ledger.tokens && o.m.sellSymbol in w.ledger.tokens
  {
    hide BlocksOf, Inv, Run, Flat;
    var k := LastBlock(t, c);
    LastOfTwo(init, kept + [o], BlocksOf(t[..k], c), t[k].ops);
    assert WellFormed(t[k].ops[|kept|]) && ChainOf(t[k].ops[|kept|]) == c;
    Around(t, k, t[k].ops);
    var pre, post := Flat(t[..k]) + kept, Flat(t[k + 1..]);
    assert Flat(t) == pre + ([o] + post);
    FlatWellFormed(t);
    GenesisInv();
    RunConcat(GENESIS, pre, [o] + post);
    assert AllWellFormed(pre) && AllWellFormed(post) by {
      assert forall i :: 0 <= i < |pre| ==> Flat(t)[i] == pre[i];
      assert forall i :: 0 <= i < |post| ==> Flat(t)[|pre| + 1 + i] == post[i];
    }
    RunInv(GENESIS, pre);
    var before := Run(GENESIS, pre).value;
    RunOne(before, o, post);
    var after := Step(before, o).value;
    StepInv(before, o);
    TokensOfStep(before, o);
    if o.TokenOp? { TokensStay(after, post, o.symbol); }
    if o.MatchOp? { TokensStay(after, post, o.m.buySymbol); TokensStay(after, post, o.m.sellSymbol); }
  }

  lemma TokensOfStep(w: World, o: Op)
    requires Step(w, o).Some?
    ensures var l := Step(w, o).value.ledger;
      && !o.CancelOp?
      && (o.TokenOp? ==> o.symbol in l.tokens && (o.tx.Release? ==> o.tx.height > 0))
      && (o.MatchOp? ==> o.m.buySymbol in l.tokens && o.m.sellSymbol in l.tokens)
  {
    hide Apply, ApplySide, Accepts;
  }
}
