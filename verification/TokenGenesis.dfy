/** Creating a token while a MATCH block is added: the new token's chain gets its first block at once,
    in the middle of the MATCH block.  The result is the same as if the whole MATCH block had come first
    and the first blocks of the new chains after it. */
module TokenGenesis {
  import opened Amounts
  import opened Transactions
  import opened TokenLedger
  import opened Ledgers
  import opened Commutation
  import opened Schedules
  import opened Timelines

  /** The first block of a token chain lets the creator claim the whole supply. */
  function GenesisData(c: CreateToken): BlockData {
    TokenData([], [ClaimFunds(0, c.creator, c.info.totalSupply)], [], [])
  }

  function GenesisOps(c: CreateToken): Program {
    [TokenOp(c.info.symbol, Claim(ClaimFunds(0, c.creator, c.info.totalSupply))), TokenOp(c.info.symbol, Release(1))]
  }

  lemma GenesisBlockOps(c: CreateToken)
    ensures BlockOps(c.info.symbol, GenesisData(c), 1) == GenesisOps(c)
    ensures c.info.symbol != MATCH_CHAIN ==> Fits(c.info.symbol, GenesisData(c)) && OfChain(GenesisOps(c), c.info.symbol)
  {}

  /** What accepting a transaction does while a block is being added. */
  function Take(w: World, op: Op): Option<World> {
    match Step(w, op)
    case None => None
    case Some(w1) => if op.CreateOp? then Run(w1, GenesisOps(op.create)) else Some(w1)
  }

  function TakeAll(w: World, ops: seq<Op>): Option<World>
    decreases |ops|
  {
    if ops == [] then Some(w)
    else match TakeAll(w, ops[..|ops| - 1])
      case None => None
      case Some(w1) => Take(w1, ops[|ops| - 1])
  }

  /** The first blocks of the tokens that a block creates, as segments of a timeline. */
  function Births(ops: seq<Op>): Timeline
    decreases |ops|
  {
    if ops == [] then []
    else
      var o := ops[|ops| - 1];
      Births(ops[..|ops| - 1]) + (if o.CreateOp? then [Segment(o.create.info.symbol, GenesisOps(o.create))] else [])
  }

  lemma FirstClaim(w: World, c: CreateToken)
    requires Inv(w) && c.info.symbol != MATCH_CHAIN && Step(w, CreateOp(c)).Some?
    ensures Run(Step(w, CreateOp(c)).value, GenesisOps(c)).Some?
  {
    var w1 := Step(w, CreateOp(c)).value;
    NewSupply(c);
    RunGenesis(w1, c);
    hide NewToken, Merge, Credit, Debit, Inv, Run;
  }

  /** The two transactions of a genesis block, one after the other. */
  lemma RunGenesis(w: World, c: CreateToken)
    ensures Run(w, GenesisOps(c)) ==
      (match Step(w, GenesisOps(c)[0]) case None => None case Some(w1) => Step(w1, GenesisOps(c)[1]))
  {
    hide Step;
    var a, b := GenesisOps(c)[0], GenesisOps(c)[1];
    assert GenesisOps(c) == [a] + [b];
    RunOne(w, a, [b]);
    if Step(w, a).Some? {
      RunJust(Step(w, a).value, b);
    }
  }

  lemma NewSupply(c: CreateToken)
    ensures Get(NewToken(c).unclaimed, c.creator) == c.info.totalSupply
  {}

  /** A transaction is accepted while a block is added exactly when it is accepted at all. */
  lemma TakeSteps(w: World, op: Op)
    requires Inv(w) && WellFormed(op)
    ensures Take(w, op).Some? <==> Step(w, op).Some?
    ensures Take(w, op).Some? ==> Inv(Take(w, op).value)
  {
    hide Inv, Step, Run;
    if Step(w, op).Some? {
      StepInv(w, op);
      if op.CreateOp? {
        FirstClaim(w, op.create);
        GenesisBlockOps(op.create);
        OfOneChain(GenesisOps(op.create), "", op.create.info.symbol);
        RunInv(Step(w, op).value, GenesisOps(op.create));
      }
    }
  }

  /** The genesis block changes nothing but the new token. */
  lemma GenesisIsLocal(w: World, c: CreateToken)
    requires c.info.symbol in w.ledger.tokens && Run(w, GenesisOps(c)).Some?
    ensures var s, w' := c.info.symbol, Run(w, GenesisOps(c)).value;
      && w'.ledger.tokens - {s} == w.ledger.tokens - {s} && s in w'.ledger.tokens
      && w'.ledger.created == w.ledger.created && w'.ledger.usedMatches == w.ledger.usedMatches
      && w'.heights - {s} == w.heights - {s}
      && HeightOf(w', s) == 1
  {
    hide Apply, Run;
    RunGenesis(w, c);
  }

  /** Undoing the creation of a token, first block and all. */
  lemma UndoTakenCreate(w: World, c: CreateToken)
    requires Inv(w) && c.info.symbol != MATCH_CHAIN && Take(w, CreateOp(c)).Some?
    ensures RollbackCreateToken(Take(w, CreateOp(c)).value.ledger, c) == w.ledger
    ensures Take(w, CreateOp(c)).value.heights - {c.info.symbol} == w.heights
  {
    hide TokenInv, NewToken, Run;
    var w1 := Step(w, CreateOp(c)).value;
    UndoCreateStep(w, c);
    GenesisIsLocal(w1, c);
  }

  lemma {:induction false} TakeAllInv(w: World, ops: seq<Op>)
    requires Inv(w) && AllWellFormed(ops) && TakeAll(w, ops).Some?
    ensures Inv(TakeAll(w, ops).value)
    decreases |ops|
  {
    hide Inv, Take, WellFormed;
    if ops != [] {
      var n := |ops| - 1;
      TakeAllInv(w, ops[..n]);
      TakeSteps(TakeAll(w, ops[..n]).value, ops[n]);
    }
  }

  // ---------------------------------------------------------------- the same as after the block

  /** Transactions that depend on nothing and that nothing can depend on: no order is placed. */
  ghost predicate Harmless(ops: seq<Op>) {
    forall i :: 0 <= i < |ops| ==> WellFormed(ops[i]) && ops[i].TokenOp? && !ops[i].tx.Place?
  }

  /** A transaction that was accepted after harmless ones of other chains would have been accepted before
      them, with the same outcome. */
  lemma {:induction false} SlipIn(w: World, post: seq<Op>, o: Op)
    requires Inv(w) && WellFormed(o) && Harmless(post) && Avoids(post, ChainOf(o))
    requires Run(w, post).Some? && Step(Run(w, post).value, o).Some?
    ensures Step(w, o).Some?
    ensures Run(Step(w, o).value, post) == Step(Run(w, post).value, o)
    decreases |post|
  {
    hide Inv, WellFormed, Step, ChainOf;
    if post != [] {
      var n := |post| - 1;
      var init, g := post[..n], post[n];
      assert post == init + [g];
      RunConcat(w, init, [g]);
      RunInv(w, init);
      var v := Run(w, init).value;
      RunJust(v, g);
      HarmlessRemovable(Step(Step(v, g).value, o).value, g);
      StepBefore(v, g, o);
      StepsCommute(v, g, o);
      SlipIn(w, init, o);
      RunConcat(Step(w, o).value, init, [g]);
      RunJust(Step(v, o).value, g);
    }
  }

  lemma HarmlessRemovable(w: World, g: Op)
    requires g.TokenOp? && !g.tx.Place?
    ensures Removable(w, g)
  {}

  lemma {:induction false} BirthsHarmless(ops: seq<Op>)
    requires OfChain(ops, MATCH_CHAIN)
    ensures Harmless(Flat(Births(ops))) && Avoids(Flat(Births(ops)), MATCH_CHAIN)
    ensures WellFormedTimeline(Births(ops))
    decreases |ops|
  {
    if ops != [] {
      var n := |ops| - 1;
      BirthsHarmless(ops[..n]);
      FlatConcat(Births(ops[..n]), Births(ops)[|Births(ops[..n])|..]);
      if ops[n].CreateOp? {
        GenesisBlockOps(ops[n].create);
        OneSegment(Segment(ops[n].create.info.symbol, GenesisOps(ops[n].create)));
        assert Births(ops)[|Births(ops[..n])|..] == [Segment(ops[n].create.info.symbol, GenesisOps(ops[n].create))];
      } else {
        assert Births(ops) == Births(ops[..n]);
      }
    }
  }

  lemma {:induction false} NoBirths(ops: seq<Op>, c: string)
    requires OfChain(ops, c) && c != MATCH_CHAIN
    ensures Births(ops) == []
    decreases |ops|
  {
    if ops != [] {
      NoBirths(ops[..|ops| - 1], c);
    }
  }

  lemma BirthsAvoid(ops: seq<Op>, c: string)
    requires OfChain(ops, c)
    ensures Harmless(Flat(Births(ops))) && Avoids(Flat(Births(ops)), c) && WellFormedTimeline(Births(ops))
  {
    if c == MATCH_CHAIN {
      BirthsHarmless(ops);
    } else {
      NoBirths(ops, c);
    }
  }

  lemma FlatBirths(ops: seq<Op>)
    requires ops != []
    ensures var n := |ops| - 1;
      Flat(Births(ops)) == Flat(Births(ops[..n])) + (if ops[n].CreateOp? then GenesisOps(ops[n].create) else [])
  {
    var n := |ops| - 1;
    if ops[n].CreateOp? {
      var s := Segment(ops[n].create.info.symbol, GenesisOps(ops[n].create));
      FlatConcat(Births(ops[..n]), [s]);
      OneSegment(s);
    } else {
      assert Births(ops) == Births(ops[..n]);
    }
  }

  /** Adding a block transaction by transaction is replaying the block, and then the first blocks of the
      tokens that it creates. */
  lemma {:induction false} TakingIsReplaying(w: World, c: string, ops: seq<Op>)
    requires Inv(w) && OfChain(ops, c) && TakeAll(w, ops).Some?
    ensures Run(w, ops).Some?
    ensures Run(Run(w, ops).value, Flat(Births(ops))) == TakeAll(w, ops)
    decreases |ops|
  {
    hide Inv, Step, Flat, Births, WellFormed;
    if ops == [] {
      FlatNoBirths();
    } else {
      var n := |ops| - 1;
      var init, o, gen := ops[..n], ops[n], Flat(Births(ops[..n]));
      TakingIsReplaying(w, c, init);
      OfOneChain(init, "", c);
      BirthsAvoid(init, c);
      var u := Run(w, init).value;
      RunInv(w, init);
      SlipIn(u, gen, o);
      assert ops == init + [o];
      RunConcat(w, init, [o]);
      RunJust(u, o);
      FlatBirths(ops);
      if o.CreateOp? {
        RunConcat(Step(u, o).value, gen, GenesisOps(o.create));
      } else {
        assert gen + [] == gen;
      }
    }
  }

  lemma FlatNoBirths()
    ensures Flat(Births([])) == []
  {}

  /** The timeline after a block: the block, and then the first blocks of the tokens that it creates. */
  function After(t: Timeline, c: string, ops: Program, rest: Program): Timeline {
    t + [Segment(c, ops + rest)] + Births(ops)
  }

  lemma BlockTaken(t: Timeline, w: World, c: string, ops: Program, rest: Program, w': World)
    requires Replays(t, w) && OfChain(ops + rest, c) && TakeAll(w, ops).Some?
    requires (c == MATCH_CHAIN && rest == [] && TakeAll(w, ops) == Some(w'))
          || (c != MATCH_CHAIN && Run(TakeAll(w, ops).value, rest) == Some(w'))
    ensures Replays(After(t, c, ops, rest), w')
  {
    hide Inv, Step, Births, Run, WellFormed, BlocksOf;
    ReplayInv(t, w);
    assert OfChain(ops, c) by {
      assert forall i :: 0 <= i < |ops| ==> (ops + rest)[i] == ops[i];
    }
    TakingIsReplaying(w, c, ops);
    BirthsAvoid(ops, c);
    var seg := Segment(c, ops + rest);
    FlatConcat(t + [seg], Births(ops));
    FlatConcat(t, [seg]);
    OneSegment(seg);
    var gen := Flat(Births(ops));
    if c == MATCH_CHAIN {
      assert ops + rest == ops;
      RunConcat(GENESIS, Flat(t) + ops, gen);
      RunConcat(GENESIS, Flat(t), ops);
    } else {
      NoBirths(ops, c);
      RunNothing(Run(w, ops).value);
      assert Flat(t) + (ops + rest) + gen == Flat(t) + ops + rest;
      RunConcat(GENESIS, Flat(t) + ops, rest);
      RunConcat(GENESIS, Flat(t), ops);
    }
    AfterWellFormed(t, seg, Births(ops));
  }

  lemma AfterWellFormed(t: Timeline, s: Segment, b: Timeline)
    requires WellFormedTimeline(t) && OfChain(s.ops, s.chain) && WellFormedTimeline(b)
    ensures WellFormedTimeline(t + [s] + b)
  {
    hide OfChain;
  }

  lemma BlocksAfter(t: Timeline, c: string, ops: Program, rest: Program, d: string)
    ensures BlocksOf(After(t, c, ops, rest), d)
         == BlocksOf(t, d) + (if c == d then [ops + rest] else []) + BlocksOf(Births(ops), d)
  {
    hide BlocksOf;
    BlocksConcat(t + [Segment(c, ops + rest)], Births(ops), d);
    BlocksConcat(t, [Segment(c, ops + rest)], d);
    OneSegment(Segment(c, ops + rest));
  }

  lemma BlocksOfBirths(ops: seq<Op>, op: Op, d: string)
    ensures BlocksOf(Births(ops + [op]), d)
         == BlocksOf(Births(ops), d) + (if op.CreateOp? && op.create.info.symbol == d then [GenesisOps(op.create)] else [])
  {
    assert (ops + [op])[..|ops|] == ops;
    if op.CreateOp? {
      BlocksWith(Births(ops), Segment(op.create.info.symbol, GenesisOps(op.create)), d);
    } else {
      assert Births(ops + [op]) == Births(ops);
    }
  }

  /** While a block is being added the height of no chain changes but those of the chains it creates. */
  lemma TakeHeights(w: World, op: Op)
    requires Take(w, op).Some? && (op.TokenOp? ==> !op.tx.Release?)
    ensures op.CreateOp? ==> HeightOf(Take(w, op).value, op.create.info.symbol) == 1
    ensures forall d :: !(op.CreateOp? && op.create.info.symbol == d) ==> HeightOf(Take(w, op).value, d) == HeightOf(w, d)
  {
    hide Run, NewToken, Apply, ValidMatch;
    if op.CreateOp? {
      var w1 := Step(w, op).value;
      GenesisIsLocal(w1, op.create);
      var w' := Take(w, op).value;
      forall d | d != op.create.info.symbol ensures HeightOf(w', d) == HeightOf(w, d) {
        assert d in w'.heights - {op.create.info.symbol} <==> d in w1.heights - {op.create.info.symbol};
      }
    }
  }
}
