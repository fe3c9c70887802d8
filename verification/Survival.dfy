/** When blocks can be taken off their chains.  A history of some of the blocks of a world can be continued
    with all the others, so that what is taken off was, in some history, added last. */
module Survival {
  import opened Amounts
  import opened Transactions
  import opened TokenLedger
  import opened Ledgers
  import opened Commutation
  import opened Schedules
  import opened Timelines
  import opened Determinism
  import opened OrderHistory
  import opened Cascade

  /** Every block of a token chain has transactions. */
  ghost predicate Solid(t: Timeline) {
    forall c, i :: c != MATCH_CHAIN && 0 <= i < |BlocksOf(t, c)| ==> BlocksOf(t, c)[i] != []
  }

  /** A history of the first blocks of every chain. */
  ghost predicate Early(g: Timeline, t: Timeline) {
    forall c :: BlocksOf(g, c) <= BlocksOf(t, c)
  }

  lemma EarlySolid(g: Timeline, t: Timeline)
    requires Solid(t) && Early(g, t)
    ensures Solid(g)
  {
    hide BlocksOf;
    forall c, i | c != MATCH_CHAIN && 0 <= i < |BlocksOf(g, c)| ensures BlocksOf(g, c)[i] != [] {
      assert BlocksOf(t, c)[i] == BlocksOf(g, c)[i];
    }
  }

  /** Follow a history for as long as it goes: the rest of a schedule is a schedule for the rest. */
  lemma {:induction false} Follow(w: World, b: Backlog, order: seq<string>, end: World, g: Timeline, v: World)
    returns (rest: seq<string>, left: Backlog)
    requires Inv(w) && WellFormedBacklog(b) && Completes(w, b, order, end)
    requires WellFormedTimeline(g) && Substantial(g) && Run(w, Flat(g)) == Some(v)
    requires forall c :: BlocksOf(g, c) <= Queue(b, c)
    ensures Inv(v) && WellFormedBacklog(left) && Completes(v, left, rest, end)
    ensures forall c :: Queue(b, c) == BlocksOf(g, c) + Queue(left, c)
    decreases |g|
  {
    hide Inv, Run, OfChain, Flat, BlocksOf, BlockStep, Queue, Substantial, WellFormedBacklog, Advance;
    if g == [] {
      rest, left := order, b;
      NoHistory(w);
    } else {
      var c, more := g[0].chain, g[1..];
      FirstSegment(g);
      RunConcat(w, g[0].ops, Flat(more));
      FirstSubstantial(g);
      ChainExists(w, g[0]);
      OfOneChain(g[0].ops, "", c);
      RunInv(w, g[0].ops);
      HeadOfPrefix(g[0].ops, BlocksOf(more, c), Queue(b, c));
      HeadOfQueue(b, c);
      ExistingChain(w, c, g[0].ops);
      BacklogHead(b, c);
      var tail := ReplayFirst(w, b, order, end, c);
      forall d ensures BlocksOf(more, d) <= Queue(Advance(b, c), d) {
        NextOfQueue(b, c, d, BlocksOf(g, d), BlocksOf(more, d));
      }
      rest, left := Follow(Run(w, g[0].ops).value, Advance(b, c), tail, end, more, v);
      forall d ensures Queue(b, d) == BlocksOf(g, d) + Queue(left, d) {
        WholeQueue(b, c, d, BlocksOf(g, d), BlocksOf(more, d), Queue(left, d));
      }
    }
  }

  lemma NoHistory(w: World)
    ensures Run(w, Flat([])) == Some(w) && forall c :: BlocksOf([], c) == []
  {}

  lemma FirstSubstantial(g: Timeline)
    requires Substantial(g) && WellFormedTimeline(g) && g != []
    ensures OfChain(g[0].ops, g[0].chain) && (g[0].chain != MATCH_CHAIN ==> g[0].ops != [])
    ensures Substantial(g[1..]) && WellFormedTimeline(g[1..])
  {
    hide OfChain;
  }

  lemma HeadOfQueue(b: Backlog, c: string)
    requires Queue(b, c) != []
    ensures Pending(b, c) && b[c][0] == Queue(b, c)[0]
  {}

  lemma HeadOfPrefix<T>(x: T, more: seq<T>, all: seq<T>)
    requires [x] + more <= all
    ensures all != [] && all[0] == x && more <= all[1..]
  {
    assert ([x] + more)[0] == x && ([x] + more)[1..] == more;
  }

  lemma ExistingChain(w: World, c: string, ops: Program)
    requires c in w.ledger.tokens
    ensures BlockStep(w, c, ops) == Run(w, ops)
  {
    hide Run;
  }

  lemma NextOfQueue(b: Backlog, c: string, d: string, blocks: seq<Program>, more: seq<Program>)
    requires Pending(b, c) && blocks <= Queue(b, d) && blocks == (if c == d then [b[c][0]] else []) + more
    ensures more <= Queue(Advance(b, c), d)
  {
    if c == d {
      HeadOfPrefix(b[c][0], more, Queue(b, c));
    } else {
      assert [] + more == more;
    }
  }

  lemma WholeQueue(b: Backlog, c: string, d: string, blocks: seq<Program>, more: seq<Program>, rest: seq<Program>)
    requires Pending(b, c) && blocks == (if c == d then [b[c][0]] else []) + more && Queue(Advance(b, c), d) == more + rest
    ensures Queue(b, d) == blocks + rest
  {
    if c == d {
      assert Queue(b, c) == [b[c][0]] + Queue(Advance(b, c), c);
    } else {
      assert [] + more == more;
    }
  }

  /** A schedule as a history. */
  lemma {:induction false} Unroll(w: World, b: Backlog, order: seq<string>, end: World) returns (more: Timeline)
    requires Inv(w) && WellFormedBacklog(b) && Completes(w, b, order, end)
    ensures WellFormedTimeline(more) && Run(w, Flat(more)) == Some(end)
    ensures forall c :: BlocksOf(more, c) == Queue(b, c)
    decreases |order|
  {
    hide Inv, Run, OfChain, Flat, BlocksOf;
    if order == [] {
      more := [];
      NoHistory(w);
      forall c ensures Queue(b, c) == [] { assert !Pending(b, c); }
    } else {
      var c := order[0];
      BacklogHead(b, c);
      BlockStepInv(w, c, b[c][0]);
      var s := Segment(c, b[c][0]);
      var rest := Unroll(BlockStep(w, c, b[c][0]).value, Advance(b, c), order[1..], end);
      more := [s] + rest;
      assert more[1..] == rest;
      FirstSegment(more);
      RunConcat(w, s.ops, Flat(rest));
      forall d ensures BlocksOf(more, d) == Queue(b, d) {
        assert Queue(b, d) == (if c == d then [s.ops] else []) + Queue(Advance(b, c), d);
      }
    }
  }

  /** A history of the first blocks of every chain can be continued with all the others, and leads to the
      same world as any other history of all the blocks. */
  lemma Continued(t: Timeline, w: World, g: Timeline, v: World) returns (more: Timeline)
    requires Replays(t, w) && Replays(g, v) && Solid(t) && Early(g, t)
    ensures Replays(g + more, w)
    ensures forall c :: BlocksOf(g + more, c) == BlocksOf(t, c)
  {
    hide Inv, Run, OfChain, Flat, BlocksOf, BacklogOf, Queue, Completes;
    EarlySolid(g, t);
    SubstantialBlocks(t);
    SubstantialBlocks(g);
    BacklogHolds(t);
    GenesisInv();
    TimelineCompletes(GENESIS, t, w, BacklogOf(t));
    var rest, left := Follow(GENESIS, BacklogOf(t), Plan(t), w, g, v);
    more := Unroll(v, left, rest, w);
    FlatConcat(g, more);
    RunConcat(GENESIS, Flat(g), Flat(more));
    forall c ensures BlocksOf(g + more, c) == BlocksOf(t, c) {
      BlocksConcat(g, more, c);
    }
    BothWellFormed(g, more);
  }

  lemma BothWellFormed(a: Timeline, b: Timeline)
    requires WellFormedTimeline(a) && WellFormedTimeline(b)
    ensures WellFormedTimeline(a + b)
  {
    hide OfChain;
  }

  // ---------------------------------------------------------------- the last block of the MATCH chain

  /** The last block of a timeline. */
  lemma LastSegmentRuns(t: Timeline, w: World) returns (u: World)
    requires Replays(t, w) && t != []
    ensures var n := |t| - 1; Inv(u) && Replays(t[..n], u) && Run(u, t[n].ops) == Some(w)
  {
    hide Inv, Run, OfChain;
    var n := |t| - 1;
    RunConcat(GENESIS, Flat(t[..n]), t[n].ops);
    u := Run(GENESIS, Flat(t[..n])).value;
    ReplayInv(t[..n], u);
  }

  /** An order that is named by a match cannot be placed after it. */
  lemma NamedNotPlaced(t: Timeline, w: World, s: string, order: Order)
    requires Replays(t, w) && s != MATCH_CHAIN && NamesIn(BlocksOf(t, MATCH_CHAIN), s, order.id) > 0
    ensures Step(w, TokenOp(s, Place(order))).None?
  {
    hide Run, BlocksOf, NamesIn, Inv;
    ReplayInv(t, w);
    if s in w.ledger.tokens {
      CountIsNames(t, w, s, order.id);
      FiledCount(w, s, order.id);
    }
  }

  lemma FiledCount(w: World, s: string, id: u64)
    requires Inv(w) && s in w.ledger.tokens && Count(w.ledger.tokens[s], id) > 0
    ensures id in w.ledger.tokens[s].open || id in w.ledger.tokens[s].deleted
  {
    hide Worth;
  }

  /** The last transaction of the chain places an order that a match names. */
  ghost predicate Awaits(t: Timeline, s: string, order: Order, init: seq<Program>, kept: Program) {
    && BlocksOf(t, s) == init + [kept + [TokenOp(s, Place(order))]]
    && NamesIn(BlocksOf(t, MATCH_CHAIN), s, order.id) > 0
  }

  /** There is a history in which the last block of the MATCH chain comes last: when all but that chain can
      do without it, or all but that chain and one whose last transaction it needs. */
  lemma MatchBlockLast(t: Timeline, w: World, g: Timeline, v: World, s: string, order: Order, init: seq<Program>, kept: Program)
    returns (u: World)
    requires Replays(t, w) && Replays(g, v) && Solid(t) && Early(g, t) && s != MATCH_CHAIN
    requires BlocksOf(g, MATCH_CHAIN) != BlocksOf(t, MATCH_CHAIN)
    requires forall d :: d != MATCH_CHAIN && d != s ==> BlocksOf(g, d) == BlocksOf(t, d)
    requires BlocksOf(g, s) == BlocksOf(t, s) || Awaits(t, s, order, init, kept)
    ensures Inv(u) && Run(u, BlocksOf(t, MATCH_CHAIN)[|BlocksOf(t, MATCH_CHAIN)| - 1]) == Some(w)
  {
    hide Inv, Run, OfChain, Flat, Step, NamesIn;
    var more := Continued(t, w, g, v);
    var t2, n := g + more, |g + more| - 1;
    if more == [] {
      NoRestOf(g);
      assert false;
    }
    u := LastSegmentRuns(t2, w);
    var c, last := t2[n].chain, t2[n].ops;
    assert BlocksOf(t2, c) == BlocksOf(t2[..n], c) + [last];
    if c != MATCH_CHAIN {
      assert BlocksOf(t2, MATCH_CHAIN) == BlocksOf(t2[..n], MATCH_CHAIN);
      LongerThere(g, more, c);
      var op := TokenOp(s, Place(order));
      LastOfTwo(init, kept + [op], BlocksOf(t2[..n], s), last);
      PlacedLast(t2[..n], u, s, kept, order);
      assert false;
    }
  }

  lemma LongerThere(g: Timeline, more: Timeline, c: string)
    requires more != [] && more[|more| - 1].chain == c
    ensures |BlocksOf(g + more, c)| > |BlocksOf(g, c)|
  {
    BlocksConcat(g, more, c);
  }

  /** Such an order cannot have been placed last. */
  lemma PlacedLast(t: Timeline, u: World, s: string, kept: Program, order: Order)
    requires Replays(t, u) && s != MATCH_CHAIN && NamesIn(BlocksOf(t, MATCH_CHAIN), s, order.id) > 0
    requires OfChain(kept + [TokenOp(s, Place(order))], s)
    ensures Run(u, kept + [TokenOp(s, Place(order))]).None?
  {
    hide Inv, Run, Step, NamesIn, BlocksOf;
    var op, seg := TokenOp(s, Place(order)), Segment(s, kept);
    RunConcat(u, kept, [op]);
    if Run(u, kept).Some? {
      var x := Run(u, kept).value;
      RunJust(x, op);
      assert forall i :: 0 <= i < |kept| ==> (kept + [op])[i] == kept[i];
      OneBlockMore(t, u, seg, x);
      BlocksWith(t, seg, MATCH_CHAIN);
      NoRestOf(BlocksOf(t, MATCH_CHAIN));
      NamedNotPlaced(t + [seg], x, s, order);
    }
  }

  lemma NoRestOf<T>(a: seq<T>)
    ensures a + [] == a
  {}

  lemma OneBlockMore(t: Timeline, u: World, s: Segment, w: World)
    requires Replays(t, u) && OfChain(s.ops, s.chain) && Run(u, s.ops) == Some(w)
    ensures Replays(t + [s], w)
  {
    hide Run, OfChain;
    assert (t + [s])[..|t|] == t;
    RunConcat(GENESIS, Flat(t), s.ops);
  }

  /** The last transaction that was made can be taken back, and that leads back. */
  lemma UndoLast(u: World, ops: Program, j: nat, w: World)
    requires Inv(u) && AllWellFormed(ops) && j < |ops| && Run(u, ops[..j + 1]) == Some(w) && !ops[j].CreateOp?
    ensures Removable(w, ops[j])
    ensures (ops[j].TokenOp? ==> ops[j].symbol in w.ledger.tokens && (ops[j].tx.Release? ==> ops[j].tx.height > 0))
    ensures ops[j].MatchOp? ==> OrdersKnown(w.ledger, ops[j].m) && ops[j].m.buySymbol != ops[j].m.sellSymbol
    ensures Run(u, ops[..j]) == Some(UndoOp(w, ops[j]))
  {
    hide Inv, Run, Step, Removable, UndoOp, OrdersKnown;
    var made := ops[..j + 1];
    assert made[..|made| - 1] == ops[..j] && made[|made| - 1] == ops[j];
    RunSnoc(u, made);
    RunInv(u, ops[..j]);
    var x := Run(u, ops[..j]).value;
    JustMadeRemovable(x, ops[j]);
    TokensOfStep(x, ops[j]);
    UndoStep(x, ops[j]);
  }

  // ---------------------------------------------------------------- which blocks have to go

  /** None of the blocks from this one on creates a token. */
  ghost predicate CreateNothing(blocks: seq<Program>, h: nat) {
    forall i :: h <= i < |blocks| ==> NoCreates(blocks[i])
  }

  /** A match in the block names one of the orders that the transactions place. */
  ghost predicate NamedBy(block: Program, s: string, ops: Program) {
    exists i :: 0 <= i < |ops| && Placed(ops[i], block, s)
  }

  predicate Placed(op: Op, block: Program, s: string) {
    op.TokenOp? && op.tx.Place? && NameCount(block, s, op.tx.order.id) > 0
  }

  /** How many blocks there are before the first that names any of the orders. */
  ghost function FirstNamed(blocks: seq<Program>, s: string, ops: Program): (n: nat)
    ensures n <= |blocks|
  {
    if blocks == [] || NamedBy(blocks[0], s, ops) then 0 else 1 + FirstNamed(blocks[1..], s, ops)
  }

  ghost predicate IsFirst(blocks: seq<Program>, n: nat, s: string, ops: Program) {
    && n <= |blocks| && (forall i :: 0 <= i < n ==> !NamedBy(blocks[i], s, ops))
    && (n < |blocks| ==> NamedBy(blocks[n], s, ops))
  }

  lemma {:induction false} FirstIs(blocks: seq<Program>, n: nat, s: string, ops: Program)
    requires IsFirst(blocks, n, s, ops)
    ensures n == FirstNamed(blocks, s, ops)
    decreases |blocks|
  {
    hide NamedBy;
    if n > 0 {
      assert !NamedBy(blocks[0], s, ops);
      forall i | 0 <= i < n - 1 ensures !NamedBy(blocks[1..][i], s, ops) {
        assert !NamedBy(blocks[i + 1], s, ops);
      }
      FirstIs(blocks[1..], n - 1, s, ops);
    }
  }

  lemma {:induction false} FirstNamedIs(blocks: seq<Program>, s: string, ops: Program)
    ensures IsFirst(blocks, FirstNamed(blocks, s, ops), s, ops)
    decreases |blocks|
  {
    hide NamedBy;
    if blocks != [] && !NamedBy(blocks[0], s, ops) {
      FirstNamedIs(blocks[1..], s, ops);
      var n := FirstNamed(blocks, s, ops);
      forall i | 0 <= i < n ensures !NamedBy(blocks[i], s, ops) {
        if i > 0 {
          assert blocks[i] == blocks[1..][i - 1];
        }
      }
    }
  }

  lemma NamedByBoth(block: Program, s: string, a: Program, b: Program)
    ensures NamedBy(block, s, a + b) <==> NamedBy(block, s, a) || NamedBy(block, s, b)
  {
    hide Placed;
    if i :| 0 <= i < |a| && Placed(a[i], block, s) {
      assert (a + b)[i] == a[i];
    }
    if i :| 0 <= i < |b| && Placed(b[i], block, s) {
      assert (a + b)[|a| + i] == b[i];
    }
  }

  /** What the later orders leave, and then what the earlier ones leave of that. */
  lemma FirstOfBoth(blocks: seq<Program>, n: nat, m: nat, s: string, a: Program, b: Program)
    requires IsFirst(blocks, n, s, b) && m <= n && IsFirst(blocks[..n], m, s, a)
    ensures IsFirst(blocks, m, s, a + b)
  {
    hide NamedBy;
    forall i | 0 <= i < |blocks| { NamedByBoth(blocks[i], s, a, b); }
    assert forall i :: 0 <= i < n ==> blocks[..n][i] == blocks[i];
  }

  lemma NothingNamed(blocks: seq<Program>, s: string)
    ensures IsFirst(blocks, |blocks|, s, [])
  {}

  /** No block names an order that is not placed. */
  lemma NoOrderNamed(blocks: seq<Program>, s: string, op: Op)
    requires !(op.TokenOp? && op.tx.Place?)
    ensures IsFirst(blocks, |blocks|, s, [op])
  {}

  lemma NoneNamed(blocks: seq<Program>, s: string, id: u64)
    ensures NamesIn(blocks, s, id) == 0 <==> forall i :: 0 <= i < |blocks| ==> NameCount(blocks[i], s, id) == 0
    decreases |blocks|
  {
    if blocks != [] {
      var n := |blocks| - 1;
      NoneNamed(blocks[..n], s, id);
      assert forall i :: 0 <= i < n ==> blocks[..n][i] == blocks[i];
    }
  }

  lemma OneOrderNamed(blocks: seq<Program>, n: nat, s: string, symbol: string, order: Order)
    requires n <= |blocks| && NamesIn(blocks[..n], s, order.id) == 0
    requires n < |blocks| ==> NameCount(blocks[n], s, order.id) > 0
    ensures IsFirst(blocks, n, s, [TokenOp(symbol, Place(order))])
  {
    NoneNamed(blocks[..n], s, order.id);
    var ops := [TokenOp(symbol, Place(order))];
    forall i | 0 <= i < n ensures !NamedBy(blocks[i], s, ops) {
      assert blocks[..n][i] == blocks[i];
    }
    if n < |blocks| {
      assert Placed(ops[0], blocks[n], s);
    }
  }

  /** The last order of a chain is on file. */
  lemma LastOrderKnown(t: Timeline, w: World, s: string, init: seq<Program>, kept: Program, order: Order)
    requires Replays(t, w) && BlocksOf(t, s) == init + [kept + [TokenOp(s, Place(order))]]
    ensures s in w.ledger.tokens && order.id in w.ledger.tokens[s].updates
  {
    hide BlocksOf, Inv, Run, Flat, Step, Tracked;
    var o := TokenOp(s, Place(order));
    var k := LastBlock(t, s);
    LastOfTwo(init, kept + [o], BlocksOf(t[..k], s), t[k].ops);
    Around(t, k, t[k].ops);
    var pre, post := Flat(t[..k]) + kept, Flat(t[k + 1..]);
    assert Flat(t) == pre + ([o] + post);
    FlatWellFormed(t);
    RestAvoids(t, k);
    GenesisInv();
    RunConcat(GENESIS, pre, [o] + post);
    assert AllWellFormed(pre) && AllWellFormed(post) && WellFormed(o) by {
      assert forall i :: 0 <= i < |pre| ==> Flat(t)[i] == pre[i];
      assert forall i :: 0 <= i < |post| ==> Flat(t)[|pre| + 1 + i] == post[i];
      assert Flat(t)[|pre|] == o;
    }
    RunInv(GENESIS, pre);
    var before := Run(GENESIS, pre).value;
    RunOne(before, o, post);
    var after := Step(before, o).value;
    StepInv(before, o);
    TrackedAtOnce(before, o);
    TrackedStays(after, o, post);
    RunInv(after, post);
    KnownCount(w, s, order);
  }

  lemma RestAvoids(t: Timeline, k: nat)
    requires WellFormedTimeline(t) && k < |t| && Without(t[k + 1..], t[k].chain)
    ensures Avoids(Flat(t[k + 1..]), t[k].chain)
  {
    FlatAvoids(t[k + 1..], t[k].chain);
  }

  lemma {:induction false} TrackedStays(w: World, o: Op, post: seq<Op>)
    requires Inv(w) && WellFormed(o) && AllWellFormed(post) && Avoids(post, ChainOf(o)) && Tracked(w, o) && Run(w, post).Some?
    ensures Tracked(Run(w, post).value, o)
    decreases |post|
  {
    hide Inv, Step, WellFormed, Tracked, Removable, ChainOf;
    if post != [] {
      StepInv(w, post[0]);
      TrackedStep(w, o, post[0]);
      TrackedStays(Step(w, post[0]).value, o, post[1..]);
    }
  }

  lemma KnownCount(w: World, s: string, order: Order)
    requires Inv(w) && Tracked(w, TokenOp(s, Place(order)))
    ensures s in w.ledger.tokens && order.id in w.ledger.tokens[s].updates
  {
    hide Worth;
  }

  // ---------------------------------------------------------------- what a rollback is after

  /** A history of what is to stay; apart from the MATCH chain and one other everything is to stay. */
  ghost predicate Keeps(t: Timeline, g: Timeline, v: World, s: string) {
    && Solid(t) && Replays(g, v) && Early(g, t)
    && forall d :: d != MATCH_CHAIN && d != s ==> BlocksOf(g, d) == BlocksOf(t, d)
  }

  /** The history, the chain that is cut, and the order that comes last on it. */
  datatype Goal = Goal(g: Timeline, v: World, s: string, order: Order, init: seq<Program>, kept: Program)

  /** The MATCH chain is to be cut at a height: because nothing else is, or because the next block names the
      order that comes last on the chain that is. */
  ghost predicate Aims(t: Timeline, a: Goal, h: nat) {
    && Keeps(t, a.g, a.v, a.s) && a.s != MATCH_CHAIN && |BlocksOf(a.g, MATCH_CHAIN)| <= h
    && (BlocksOf(a.g, a.s) == BlocksOf(t, a.s)
        || (BlocksOf(t, a.s) == a.init + [a.kept + [TokenOp(a.s, Place(a.order))]]
            && h < |BlocksOf(t, MATCH_CHAIN)| && NamesIn(BlocksOf(t, MATCH_CHAIN)[..h + 1], a.s, a.order.id) > 0))
  }

  lemma {:induction false} MoreNames(blocks: seq<Program>, n: nat, s: string, id: u64)
    requires n <= |blocks|
    ensures NamesIn(blocks, s, id) >= NamesIn(blocks[..n], s, id)
    decreases |blocks|
  {
    if n < |blocks| {
      MoreNames(blocks[..|blocks| - 1], n, s, id);
      assert blocks[..|blocks| - 1][..n] == blocks[..n];
    } else {
      assert blocks[..n] == blocks;
    }
  }

  /** The last block of the MATCH chain is the next to go, and it can. */
  lemma NextToGo(t: Timeline, w: World, a: Goal, h: nat) returns (u: World)
    requires Replays(t, w) && Aims(t, a, h) && h < |BlocksOf(t, MATCH_CHAIN)|
    ensures Inv(u) && Run(u, BlocksOf(t, MATCH_CHAIN)[|BlocksOf(t, MATCH_CHAIN)| - 1]) == Some(w)
  {
    hide Inv, Run, Replays, BlocksOf, NamesIn, Solid;
    MoreNames(BlocksOf(t, MATCH_CHAIN), h + 1, a.s, a.order.id);
    u := MatchBlockLast(t, w, a.g, a.v, a.s, a.order, a.init, a.kept);
  }

  lemma StillAims(t: Timeline, t': Timeline, a: Goal, h: nat, k: nat)
    requires Aims(t, a, h) && h < k <= |BlocksOf(t, MATCH_CHAIN)| && BlocksOf(t', MATCH_CHAIN) == BlocksOf(t, MATCH_CHAIN)[..k]
    requires forall d :: d != MATCH_CHAIN ==> BlocksOf(t', d) == BlocksOf(t, d)
    ensures Aims(t', a, h)
  {
    hide BlocksOf, NamesIn, Replays;
    assert BlocksOf(t, MATCH_CHAIN)[..k][..h + 1] == BlocksOf(t, MATCH_CHAIN)[..h + 1];
    assert BlocksOf(a.g, MATCH_CHAIN) == BlocksOf(t, MATCH_CHAIN)[..|BlocksOf(a.g, MATCH_CHAIN)|];
  }

  /** The MATCH chain can be cut where what is to stay says: no block above creates a token. */
  ghost predicate Spared(t: Timeline, g: Timeline) {
    CreateNothing(BlocksOf(t, MATCH_CHAIN), |BlocksOf(g, MATCH_CHAIN)|)
  }

  /** The transactions to be undone place no order that a match names that is to stay. */
  ghost predicate Unnamed(g: Timeline, s: string, ops: Program) {
    forall i :: 0 <= i < |BlocksOf(g, MATCH_CHAIN)| ==> !NamedBy(BlocksOf(g, MATCH_CHAIN)[i], s, ops)
  }

  lemma UnnamedOrder(g: Timeline, s: string, ops: Program, j: nat)
    requires Unnamed(g, s, ops) && j < |ops| && ops[j].TokenOp? && ops[j].tx.Place?
    ensures NamesIn(BlocksOf(g, MATCH_CHAIN), s, ops[j].tx.order.id) == 0
  {
    hide BlocksOf;
    var blocks := BlocksOf(g, MATCH_CHAIN);
    forall i | 0 <= i < |blocks| ensures NameCount(blocks[i], s, ops[j].tx.order.id) == 0 {
      assert !NamedBy(blocks[i], s, ops);
      assert !Placed(ops[j], blocks[i], s);
    }
    NoneNamed(blocks, s, ops[j].tx.order.id);
  }

  /** The last transaction places this order; no match that is to stay names it, and the others create nothing. */
  ghost predicate Pursued(t: Timeline, a: Goal, s: string, order: Order) {
    && Keeps(t, a.g, a.v, s) && a.s == s != MATCH_CHAIN && a.order == order && Spared(t, a.g)
    && BlocksOf(t, s) == a.init + [a.kept + [TokenOp(s, Place(order))]]
    && NamesIn(BlocksOf(a.g, MATCH_CHAIN), s, order.id) == 0
  }

  /** The cut before the last block of the MATCH chain, as long as a match names the order. */
  lemma AimsAtName(t: Timeline, a: Goal, s: string, order: Order)
    requires Pursued(t, a, s, order) && NamesIn(BlocksOf(t, MATCH_CHAIN), s, order.id) > 0
    ensures var k := |BlocksOf(t, MATCH_CHAIN)|;
      0 < k && |BlocksOf(a.g, MATCH_CHAIN)| < k && Aims(t, a, k - 1) && CreateNothing(BlocksOf(t, MATCH_CHAIN), k - 1)
  {
    hide BlocksOf, Replays, Solid, NoCreates;
    var all, few := BlocksOf(t, MATCH_CHAIN), BlocksOf(a.g, MATCH_CHAIN);
    NoNamesAtAll(all, s, order.id);
    hide NamesIn;
    assert all[..|all|] == all;
    assert few == all[..|few|];
  }

  lemma NoNamesAtAll(blocks: seq<Program>, s: string, id: u64)
    requires NamesIn(blocks, s, id) > 0
    ensures blocks != []
  {}

  /** Cutting the MATCH chain above what is to stay changes nothing of that. */
  lemma CutPursued(t: Timeline, t': Timeline, a: Goal, s: string, order: Order, k: nat)
    requires Pursued(t, a, s, order) && |BlocksOf(a.g, MATCH_CHAIN)| <= k <= |BlocksOf(t, MATCH_CHAIN)|
    requires BlocksOf(t', MATCH_CHAIN) == BlocksOf(t, MATCH_CHAIN)[..k]
    requires forall d :: d != MATCH_CHAIN ==> BlocksOf(t', d) == BlocksOf(t, d)
    ensures Pursued(t', a, s, order)
  {
    hide BlocksOf, Replays, NoCreates, NamesIn;
    assert BlocksOf(a.g, MATCH_CHAIN) == BlocksOf(t, MATCH_CHAIN)[..|BlocksOf(a.g, MATCH_CHAIN)|];
  }

  lemma LastKnown(t: Timeline, w: World, a: Goal, s: string, order: Order)
    requires Replays(t, w) && Pursued(t, a, s, order)
    ensures s in w.ledger.tokens && order.id in w.ledger.tokens[s].updates
  {
    hide Replays, BlocksOf, Spared, Keeps, NamesIn;
    LastOrderKnown(t, w, s, a.init, a.kept, order);
  }

  lemma PursuedLength(t: Timeline, a: Goal, s: string, order: Order)
    requires Pursued(t, a, s, order)
    ensures |BlocksOf(a.g, MATCH_CHAIN)| <= |BlocksOf(t, MATCH_CHAIN)|
  {
    hide BlocksOf, Replays, Spared, NamesIn;
    assert BlocksOf(a.g, MATCH_CHAIN) <= BlocksOf(t, MATCH_CHAIN);
  }

  lemma CreateNothingMore(all: seq<Program>, k: nat)
    requires 0 < k <= |all| && CreateNothing(all, k) && CreateNothing(all[..k], k - 1)
    ensures CreateNothing(all, k - 1)
  {
    hide NoCreates;
    assert all[..k][k - 1] == all[k - 1];
  }

  // ---------------------------------------------------------------- orders of one chain, undone from the last

  /** A history without these transactions and those after them on their chain: of the matches those stay that
      name none of the orders, and no other block of the MATCH chain creates a token. */
  ghost predicate Wanted(t: Timeline, g: Timeline, v: World, s: string, ops: Program) {
    Keeps(t, g, v, s) && s != MATCH_CHAIN && Spared(t, g) && Unnamed(g, s, ops)
  }

  lemma WantedOne(t: Timeline, g: Timeline, v: World, s: string, ops: Program, j: nat)
    requires Wanted(t, g, v, s, ops) && j < |ops|
    ensures Wanted(t, g, v, s, [ops[j]])
  {
    hide Keeps, Spared, BlocksOf, Placed;
    forall i | 0 <= i < |BlocksOf(g, MATCH_CHAIN)| ensures !NamedBy(BlocksOf(g, MATCH_CHAIN)[i], s, [ops[j]]) {
      assert !NamedBy(BlocksOf(g, MATCH_CHAIN)[i], s, ops);
    }
  }

  lemma JoinedFrom(blocks: seq<Program>, k: nat)
    requires k < |blocks|
    ensures Joined(blocks[k..]) == blocks[k] + Joined(blocks[k + 1..])
  {
    assert blocks[k..][1..] == blocks[k + 1..];
  }

  lemma {:induction false} NamedByJoined(b: Program, s: string, blocks: seq<Program>, k: nat)
    requires k < |blocks| && NamedBy(b, s, blocks[k])
    ensures NamedBy(b, s, Joined(blocks))
    decreases k
  {
    hide NamedBy;
    NamedByBoth(b, s, blocks[0], Joined(blocks[1..]));
    if k > 0 {
      NamedByJoined(b, s, blocks[1..], k - 1);
    }
  }

  lemma WantedBlock(t: Timeline, g: Timeline, v: World, s: string, blocks: seq<Program>, h: nat, k: nat)
    requires h <= k < |blocks| && Wanted(t, g, v, s, Joined(blocks[h..]))
    ensures Wanted(t, g, v, s, blocks[k])
  {
    hide Keeps, Spared, BlocksOf, NamedBy, Joined;
    forall i | 0 <= i < |BlocksOf(g, MATCH_CHAIN)| ensures !NamedBy(BlocksOf(g, MATCH_CHAIN)[i], s, blocks[k]) {
      if NamedBy(BlocksOf(g, MATCH_CHAIN)[i], s, blocks[k]) {
        NamedByJoined(BlocksOf(g, MATCH_CHAIN)[i], s, blocks[h..], k - h);
      }
    }
  }

  lemma WantedBegin(t: Timeline, g: Timeline, v: World, s: string, a: Program, b: Program)
    requires Wanted(t, g, v, s, a + b)
    ensures Wanted(t, g, v, s, a)
  {
    hide Keeps, Spared, BlocksOf, NamedBy;
    forall i | 0 <= i < |BlocksOf(g, MATCH_CHAIN)| ensures !NamedBy(BlocksOf(g, MATCH_CHAIN)[i], s, a) {
      NamedByBoth(BlocksOf(g, MATCH_CHAIN)[i], s, a, b);
    }
  }

  lemma WantedPursued(t: Timeline, g: Timeline, v: World, s: string, order: Order, init: seq<Program>, kept: Program)
    requires Wanted(t, g, v, s, [TokenOp(s, Place(order))]) && BlocksOf(t, s) == init + [kept + [TokenOp(s, Place(order))]]
    ensures Pursued(t, Goal(g, v, s, order, init, kept), s, order)
  {
    hide Keeps, Spared, BlocksOf, Unnamed, NamesIn;
    UnnamedOrder(g, s, [TokenOp(s, Place(order))], 0);
  }

  /** As later transactions are undone, the same history is wanted. */
  lemma StillWanted(t: Timeline, t': Timeline, g: Timeline, v: World, s: string, ops: Program)
    requires Wanted(t, g, v, s, ops) && BlocksOf(t', MATCH_CHAIN) <= BlocksOf(t, MATCH_CHAIN)
    requires |BlocksOf(g, MATCH_CHAIN)| <= |BlocksOf(t', MATCH_CHAIN)|
    requires BlocksOf(g, s) <= BlocksOf(t', s)
    requires forall i :: 0 <= i < |BlocksOf(t', s)| ==> BlocksOf(t', s)[i] != []
    requires forall d :: d != MATCH_CHAIN && d != s ==> BlocksOf(t', d) == BlocksOf(t, d)
    ensures Wanted(t', g, v, s, ops)
  {
    hide BlocksOf, Replays, NoCreates, Unnamed;
    var few := BlocksOf(g, MATCH_CHAIN);
    assert few == BlocksOf(t, MATCH_CHAIN)[..|few|] == BlocksOf(t', MATCH_CHAIN)[..|few|];
    forall c, i | c != MATCH_CHAIN && 0 <= i < |BlocksOf(t', c)| ensures BlocksOf(t', c)[i] != [] {
      if c != s {
        assert BlocksOf(t', c) == BlocksOf(t, c);
      }
    }
  }

  lemma WantedLength(t: Timeline, g: Timeline, v: World, s: string, ops: Program)
    requires Wanted(t, g, v, s, ops)
    ensures |BlocksOf(g, MATCH_CHAIN)| <= |BlocksOf(t, MATCH_CHAIN)|
  {
    hide BlocksOf, Replays, Spared, Unnamed;
    assert BlocksOf(g, MATCH_CHAIN) <= BlocksOf(t, MATCH_CHAIN);
  }

  /** The blocks of the chain but the last are as they were, and the last has lost transactions but not all. */
  lemma SolidLast(t: Timeline, g: Timeline, v: World, s: string, ops: Program, init: seq<Program>, last: Program, kept: Program)
    requires Wanted(t, g, v, s, ops) && BlocksOf(t, s) == init + [last] && kept != []
    ensures forall i :: 0 <= i < |init + [kept]| ==> (init + [kept])[i] != []
  {
    hide BlocksOf, Replays, Spared, Unnamed;
    forall i | 0 <= i < |init| ensures init[i] != [] {
      assert BlocksOf(t, s)[i] == init[i];
    }
  }

  // ---------------------------------------------------------------- exactly when a chain can be cut

  /** The transactions of the blocks from a height on. */
  function From(blocks: seq<Program>, h: nat): Program {
    if h < |blocks| then Joined(blocks[h..]) else []
  }

  function Below(blocks: seq<Program>, h: nat): nat {
    if h < |blocks| then h else |blocks|
  }

  /** How much of the MATCH chain stays when a chain is cut: if it is another chain, what comes before the first
      match that names an order from the part that is cut off. */
  ghost function MatchBelow(t: Timeline, s: string, h: nat): (m: nat)
    ensures m <= |BlocksOf(t, MATCH_CHAIN)|
  {
    if s == MATCH_CHAIN then Below(BlocksOf(t, MATCH_CHAIN), h)
    else FirstNamed(BlocksOf(t, MATCH_CHAIN), s, From(BlocksOf(t, s), h))
  }

  /** A history of exactly what stays. */
  ghost predicate CutHistory(t: Timeline, s: string, h: nat, g: Timeline, v: World) {
    && Replays(g, v) && BlocksOf(g, s) == BlocksOf(t, s)[..Below(BlocksOf(t, s), h)]
    && BlocksOf(g, MATCH_CHAIN) == BlocksOf(t, MATCH_CHAIN)[..MatchBelow(t, s, h)]
    && forall d :: d != MATCH_CHAIN && d != s ==> BlocksOf(g, d) == BlocksOf(t, d)
  }

  /** What stays has a history of its own, and what goes creates no token. */
  ghost predicate CanCut(t: Timeline, s: string, h: nat) {
    && CreateNothing(BlocksOf(t, MATCH_CHAIN), MatchBelow(t, s, h))
    && exists g, v :: CutHistory(t, s, h, g, v)
  }

  lemma HistoryKeeps(t: Timeline, s: string, h: nat, g: Timeline, v: World, r: string)
    requires Solid(t) && CutHistory(t, s, h, g, v) && (s == r || s == MATCH_CHAIN)
    ensures Keeps(t, g, v, r)
    ensures |BlocksOf(g, s)| <= h && |BlocksOf(g, MATCH_CHAIN)| == MatchBelow(t, s, h)
  {
    hide BlocksOf, Replays, MatchBelow, From;
    forall c ensures BlocksOf(g, c) <= BlocksOf(t, c) {}
  }

  lemma HistoryAims(t: Timeline, h: nat, a: Goal)
    requires Solid(t) && CutHistory(t, MATCH_CHAIN, h, a.g, a.v) && a.s != MATCH_CHAIN
    ensures Aims(t, a, h)
  {
    hide BlocksOf, Replays, From, FirstNamed, NamesIn;
    HistoryKeeps(t, MATCH_CHAIN, h, a.g, a.v, a.s);
  }

  lemma HistoryWanted(t: Timeline, s: string, h: nat, g: Timeline, v: World)
    requires Solid(t) && s != MATCH_CHAIN && CutHistory(t, s, h, g, v)
    requires CreateNothing(BlocksOf(t, MATCH_CHAIN), MatchBelow(t, s, h))
    ensures Wanted(t, g, v, s, From(BlocksOf(t, s), h)) && |BlocksOf(g, s)| <= h
  {
    hide BlocksOf, Replays, From, FirstNamed, NamedBy, NoCreates, Keeps;
    HistoryKeeps(t, s, h, g, v, s);
    var all := BlocksOf(t, MATCH_CHAIN);
    FirstNamedIs(all, s, From(BlocksOf(t, s), h));
    forall i | 0 <= i < |BlocksOf(g, MATCH_CHAIN)| ensures !NamedBy(BlocksOf(g, MATCH_CHAIN)[i], s, From(BlocksOf(t, s), h)) {
      assert BlocksOf(g, MATCH_CHAIN)[i] == all[i];
    }
  }
}
