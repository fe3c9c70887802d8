/** The ledger is a function of the chains only: whatever the order in which the blocks of the chains were
    added, rolled back and added again, the blocks that are left determine it. */
module Determinism {
  import opened Amounts
  import opened Transactions
  import opened TokenLedger
  import opened Ledgers
  import opened Commutation
  import opened Schedules
  import opened Timelines

  /** The chains in the order in which the timeline adds to them. */
  function Plan(t: Timeline): seq<string> {
    seq(|t|, i requires 0 <= i < |t| => t[i].chain)
  }

  /** No block of a token chain is without transactions. */
  ghost predicate Substantial(t: Timeline) {
    forall i :: 0 <= i < |t| && t[i].chain != MATCH_CHAIN ==> t[i].ops != []
  }

  function Queue(b: Backlog, c: string): seq<Program> {
    if c in b then b[c] else []
  }

  lemma FirstSegment(t: Timeline)
    requires t != []
    ensures Flat(t) == t[0].ops + Flat(t[1..])
    ensures forall c :: BlocksOf(t, c) == (if t[0].chain == c then [t[0].ops] else []) + BlocksOf(t[1..], c)
  {
    assert t == [t[0]] + t[1..];
    FlatConcat([t[0]], t[1..]);
    OneSegment(t[0]);
    forall c { BlocksConcat([t[0]], t[1..], c); }
  }

  /** A block with transactions that are accepted is a block of a chain that exists. */
  lemma ChainExists(w: World, s: Segment)
    requires Inv(w) && OfChain(s.ops, s.chain) && Run(w, s.ops).Some?
    requires s.chain != MATCH_CHAIN ==> s.ops != []
    ensures s.chain in w.ledger.tokens
  {
    hide Apply, TokenInv, ValidMatch;
    if s.chain != MATCH_CHAIN {
      assert ChainOf(s.ops[0]) == s.chain && Step(w, s.ops[0]).Some?;
    }
  }

  /** A timeline is a way to replay the blocks that it holds. */
  lemma {:induction false} TimelineCompletes(w: World, t: Timeline, end: World, b: Backlog)
    requires Inv(w) && WellFormedTimeline(t) && Substantial(t) && Run(w, Flat(t)) == Some(end)
    requires forall c :: Queue(b, c) == BlocksOf(t, c)
    ensures Completes(w, b, Plan(t), end)
    decreases |t|
  {
    hide Inv, Run, OfChain, Flat, BlocksOf;
    if t == [] {
      NothingLeft(w, b, end);
    } else {
      var c, rest := t[0].chain, t[1..];
      FirstSegment(t);
      RunConcat(w, t[0].ops, Flat(rest));
      ChainExists(w, t[0]);
      OfOneChain(t[0].ops, "", c);
      RunInv(w, t[0].ops);
      assert Queue(b, c)[0] == t[0].ops && Pending(b, c);
      forall d ensures Queue(Advance(b, c), d) == BlocksOf(rest, d) {
        if d == c {
          assert Queue(b, c)[1..] == BlocksOf(rest, c);
        } else {
          assert [] + BlocksOf(rest, d) == BlocksOf(rest, d);
        }
      }
      TimelineCompletes(Run(w, t[0].ops).value, rest, end, Advance(b, c));
      assert Plan(t)[1..] == Plan(rest);
    }
  }

  lemma NothingLeft(w: World, b: Backlog, end: World)
    requires Run(w, Flat([])) == Some(end) && forall c :: Queue(b, c) == BlocksOf([], c)
    ensures w == end && Completes(w, b, Plan([]), end)
  {
    forall c ensures !Pending(b, c) {
      assert Queue(b, c) == [];
    }
  }

  function BacklogOf(t: Timeline): Backlog {
    map c | c in Plan(t) :: BlocksOf(t, c)
  }

  lemma {:induction false} BlocksInPlan(t: Timeline, c: string)
    ensures c !in Plan(t) ==> BlocksOf(t, c) == []
  {
    if t != [] {
      var n := |t| - 1;
      BlocksInPlan(t[..n], c);
      assert Plan(t) == Plan(t[..n]) + [t[n].chain];
    }
  }

  lemma {:induction false} BlocksOfChain(t: Timeline, c: string)
    requires WellFormedTimeline(t)
    ensures forall i :: 0 <= i < |BlocksOf(t, c)| ==> OfChain(BlocksOf(t, c)[i], c)
  {
    hide OfChain;
    if t != [] {
      BlocksOfChain(t[..|t| - 1], c);
    }
  }

  lemma BacklogHolds(t: Timeline)
    requires WellFormedTimeline(t)
    ensures WellFormedBacklog(BacklogOf(t))
    ensures forall c :: Queue(BacklogOf(t), c) == BlocksOf(t, c)
  {
    hide OfChain, BlocksOf;
    forall c ensures Queue(BacklogOf(t), c) == BlocksOf(t, c) { BlocksInPlan(t, c); }
    forall c, i | c in BacklogOf(t) && 0 <= i < |BacklogOf(t)[c]| ensures OfChain(BacklogOf(t)[c][i], c) {
      BlocksOfChain(t, c);
    }
  }

  /** Two histories that left the same blocks on every chain left the same ledger. */
  lemma BlocksDetermineWorld(t1: Timeline, w1: World, t2: Timeline, w2: World)
    requires Replays(t1, w1) && Replays(t2, w2) && Substantial(t1) && Substantial(t2)
    requires forall c :: BlocksOf(t1, c) == BlocksOf(t2, c)
    ensures w1 == w2
  {
    hide Inv, Run, OfChain, Flat, BlocksOf, BacklogOf, Queue;
    var b := BacklogOf(t1);
    BacklogHolds(t1);
    GenesisInv();
    TimelineCompletes(GENESIS, t1, w1, b);
    TimelineCompletes(GENESIS, t2, w2, b);
    Confluence(GENESIS, b, Plan(t1), w1, Plan(t2), w2);
  }

  /** Whether the blocks of a timeline have transactions can be seen from the blocks of the chains. */
  lemma {:induction false} SubstantialBlocks(t: Timeline)
    requires forall c, i :: c != MATCH_CHAIN && 0 <= i < |BlocksOf(t, c)| ==> BlocksOf(t, c)[i] != []
    ensures Substantial(t)
  {
    if t != [] {
      var n := |t| - 1;
      forall c, i | c != MATCH_CHAIN && 0 <= i < |BlocksOf(t[..n], c)| ensures BlocksOf(t[..n], c)[i] != [] {
        assert BlocksOf(t, c)[i] == BlocksOf(t[..n], c)[i];
      }
      SubstantialBlocks(t[..n]);
      var last := BlocksOf(t, t[n].chain);
      assert last[|last| - 1] == t[n].ops;
    }
  }
}
