/** Replaying stored chains.  The blocks of all chains can be replayed in many interleavings; whichever
    one works, it leads to the same world, and a block that can be replayed now stays replayable. */
module Schedules {
  import opened Amounts
  import opened TokenLedger
  import opened Ledgers
  import opened Commutation

  /** A block, as the transactions that it stands for. */
  type Program = seq<Op>

  /** All of these are transactions of one chain. */
  ghost predicate OfChain(ops: Program, chain: string) {
    forall i :: 0 <= i < |ops| ==> WellFormed(ops[i]) && ChainOf(ops[i]) == chain
  }

  /** A block can be replayed when its chain exists and all its transactions are accepted. */
  function BlockStep(w: World, chain: string, ops: Program): Option<World> {
    if chain !in w.ledger.tokens then None else Run(w, ops)
  }

  /** What is left to replay, per chain, oldest block first. */
  type Backlog = map<string, seq<Program>>

  ghost predicate WellFormedBacklog(b: Backlog) {
    forall c, i :: c in b && 0 <= i < |b[c]| ==> OfChain(b[c][i], c)
  }

  predicate Pending(b: Backlog, c: string) {
    c in b && b[c] != []
  }

  function Advance(b: Backlog, c: string): Backlog
    requires Pending(b, c)
  {
    b[c := b[c][1..]]
  }

  /** The order of chains in which their next blocks are replayed, from w until nothing is left. */
  ghost predicate Completes(w: World, b: Backlog, order: seq<string>, end: World)
    decreases |order|
  {
    if order == [] then
      w == end && forall c :: !Pending(b, c)
    else
      var c := order[0];
      && Pending(b, c)
      && BlockStep(w, c, b[c][0]).Some?
      && Completes(BlockStep(w, c, b[c][0]).value, Advance(b, c), order[1..], end)
  }

  // ---------------------------------------------------------------- runs of two chains commute

  lemma {:induction false} StepRunCommute(w: World, a: Op, ops: seq<Op>)
    requires Inv(w) && WellFormed(a) && AllWellFormed(ops) && Avoids(ops, ChainOf(a))
    requires Step(w, a).Some? && Run(w, ops).Some?
    ensures Run(Step(w, a).value, ops).Some?
    ensures Step(Run(w, ops).value, a) == Run(Step(w, a).value, ops)
    decreases |ops|
  {
    hide Inv, Step, WellFormed, ChainOf;
    if ops != [] {
      var p, rest := ops[0], ops[1..];
      StepsCommute(w, a, p);
      StepInv(w, p);
      StepRunCommute(Step(w, p).value, a, rest);
    }
  }

  lemma {:induction false} RunsCommute(w: World, a: seq<Op>, b: seq<Op>, c: string)
    requires Inv(w) && OfChain(a, c) && AllWellFormed(b) && Avoids(b, c)
    requires Run(w, a).Some? && Run(w, b).Some?
    ensures Run(Run(w, a).value, b).Some?
    ensures Run(Run(w, b).value, a) == Run(Run(w, a).value, b)
    decreases |a|
  {
    hide Inv, Step, WellFormed, ChainOf;
    if a != [] {
      StepRunCommute(w, a[0], b);
      StepInv(w, a[0]);
      RunsCommute(Step(w, a[0]).value, a[1..], b, c);
    }
  }

  lemma {:induction false} TokensStay(w: World, ops: seq<Op>, c: string)
    requires Inv(w) && AllWellFormed(ops) && Run(w, ops).Some? && c in w.ledger.tokens
    ensures c in Run(w, ops).value.ledger.tokens
    decreases |ops|
  {
    hide Inv, WellFormed, Apply, ValidMatch, ApplySide;
    if ops != [] {
      StepInv(w, ops[0]);
      TokensStay(Step(w, ops[0]).value, ops[1..], c);
    }
  }

  lemma OfOneChain(ops: Program, c: string, d: string)
    requires OfChain(ops, d)
    ensures AllWellFormed(ops)
    ensures c != d ==> Avoids(ops, c)
  {}

  /** The next blocks of two chains, both replayable, can be replayed in either order: neither disables
      the other and they lead to the same world. */
  lemma BlocksCommute(w: World, c: string, a: Program, d: string, b: Program)
    requires Inv(w) && c != d && OfChain(a, c) && OfChain(b, d)
    requires BlockStep(w, c, a).Some? && BlockStep(w, d, b).Some?
    ensures BlockStep(BlockStep(w, c, a).value, d, b).Some?
    ensures BlockStep(BlockStep(w, d, b).value, c, a) == BlockStep(BlockStep(w, c, a).value, d, b)
  {
    hide Inv, Run, OfChain;
    OfOneChain(a, d, c);
    OfOneChain(b, c, d);
    RunsCommute(w, a, b, c);
    TokensStay(w, a, d);
    TokensStay(w, b, c);
  }

  lemma BlockStepInv(w: World, c: string, a: Program)
    requires Inv(w) && OfChain(a, c) && BlockStep(w, c, a).Some?
    ensures Inv(BlockStep(w, c, a).value)
  {
    hide Inv, Run;
    RunInv(w, a);
  }

  // ---------------------------------------------------------------- confluence

  lemma BacklogHead(b: Backlog, c: string)
    requires WellFormedBacklog(b) && Pending(b, c)
    ensures OfChain(b[c][0], c) && WellFormedBacklog(Advance(b, c))
  {
    hide OfChain;
  }

  /** A block that can be replayed now can be replayed first: the rest can still be completed, with the
      same outcome, and with one block less to go. */
  lemma {:induction false} ReplayFirst(w: World, b: Backlog, order: seq<string>, end: World, c: string)
    returns (rest: seq<string>)
    requires Inv(w) && WellFormedBacklog(b) && Completes(w, b, order, end)
    requires Pending(b, c) && BlockStep(w, c, b[c][0]).Some?
    ensures Completes(BlockStep(w, c, b[c][0]).value, Advance(b, c), rest, end)
    ensures |rest| == |order| - 1
    decreases |order|
  {
    hide Inv, BlockStep, OfChain;
    var d := order[0];
    if c == d {
      rest := order[1..];
    } else {
      BacklogHead(b, c);
      BacklogHead(b, d);
      BlocksCommute(w, c, b[c][0], d, b[d][0]);
      BlockStepInv(w, d, b[d][0]);
      var w' := BlockStep(w, d, b[d][0]).value;
      var tail := ReplayFirst(w', Advance(b, d), order[1..], end, c);
      rest := [d] + tail;
      assert Advance(Advance(b, d), c) == Advance(Advance(b, c), d);
    }
  }

  /** Whatever the order, a completed replay ends in the same world, after the same number of blocks. */
  lemma {:induction false} Confluence(w: World, b: Backlog, o1: seq<string>, e1: World, o2: seq<string>, e2: World)
    requires Inv(w) && WellFormedBacklog(b)
    requires Completes(w, b, o1, e1) && Completes(w, b, o2, e2)
    ensures e1 == e2 && |o1| == |o2|
    decreases |o1|
  {
    hide Inv, BlockStep, OfChain;
    if o1 != [] {
      var c := o1[0];
      var rest := ReplayFirst(w, b, o2, e2, c);
      BacklogHead(b, c);
      BlockStepInv(w, c, b[c][0]);
      Confluence(BlockStep(w, c, b[c][0]).value, Advance(b, c), o1[1..], e1, rest, e2);
    }
  }
}
