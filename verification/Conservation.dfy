/** Conservation: over every run, the supply of a token is what its holders have, what they can claim,
    what open orders hold, what is frozen and not released, and what matches left to the miner. */
module Conservation {
  import opened Amounts
  import opened Transactions
  import opened TokenLedger
  import opened TokenLaws
  import opened Ledgers
  import opened Commutation
  import opened OrderHistory

  /** What the transactions say about one token: how many blocks its chain has, what was frozen until a
      height already reached, and the surplus of its matches. */
  datatype Audit = Audit(height: nat, stuck: nat, surplus: nat)

  const CLEAN: Audit := Audit(0, 0, 0)

  function NextAudit(a: Audit, op: Op, s: string): Audit {
    match op
    case TokenOp(r, Lock(z)) =>
      if r == s && z.unfreezeBlock <= a.height then a.(stuck := a.stuck + z.amount) else a
    case TokenOp(r, Release(_)) => if r == s then a.(height := a.height + 1) else a
    case MatchOp(m) =>
      if m.buySymbol == s && m.sellerGain <= m.buyerLoss
      then a.(surplus := a.surplus + (m.buyerLoss - m.sellerGain)) else a
    case _ => a
  }

  function AuditOf(ops: seq<Op>, s: string): Audit
    decreases |ops|
  {
    if ops == [] then CLEAN else NextAudit(AuditOf(ops[..|ops| - 1], s), ops[|ops| - 1], s)
  }

  ghost predicate Balanced(w: World, s: string, a: Audit) {
    if s in w.ledger.tokens then
      && HeightOf(w, s) == a.height
      && Worth(w.ledger.tokens[s], a.height) + a.stuck + a.surplus == SupplyOf(w, s)
    else a == CLEAN
  }

  lemma TokenStepBalanced(w: World, r: string, x: TokenTx, s: string, a: Audit)
    requires Inv(w) && r != MATCH_CHAIN && Step(w, TokenOp(r, x)).Some? && Balanced(w, s, a)
    ensures Balanced(Step(w, TokenOp(r, x)).value, s, NextAudit(a, TokenOp(r, x), s))
  {
    hide Worth, Apply, Filed;
    if r == s {
      WorthOfTx(w.ledger.tokens[s], x, HeightOf(w, s));
    }
  }

  lemma MatchStepBalanced(w: World, m: Match, s: string, a: Audit)
    requires Inv(w) && ValidMatch(w.ledger, m) && m.buySymbol != m.sellSymbol && Balanced(w, s, a)
    ensures Balanced(Step(w, MatchOp(m)).value, s, NextAudit(a, MatchOp(m), s))
  {
    hide Worth, Accepts, ApplySide, Filed;
    ValidMatchFacts(w, m);
    var l := w.ledger;
    var buy, sell := BuyOrder(l, m).value, SellOrder(l, m).value;
    MatchTokens(l, m);
    MatchSidesFit(l, m);
    AcceptedSides(buy, sell, m);
    if s == m.buySymbol {
      WorthOfSide(l.tokens[s], BuySide(m, buy, sell), a.height);
    } else if s == m.sellSymbol {
      WorthOfSide(l.tokens[s], SellSide(m, buy, sell), a.height);
    }
  }

  lemma CreateStepBalanced(w: World, c: CreateToken, s: string, a: Audit)
    requires Inv(w) && c.info.symbol != MATCH_CHAIN && c.info.symbol !in w.ledger.created && Balanced(w, s, a)
    ensures Balanced(Step(w, CreateOp(c)).value, s, a)
  {
    hide Worth, NewToken, Filed;
    NewTokenInv(c);
  }

  lemma StepBalanced(w: World, op: Op, s: string, a: Audit)
    requires Inv(w) && WellFormed(op) && Step(w, op).Some? && Balanced(w, s, a)
    ensures Balanced(Step(w, op).value, s, NextAudit(a, op, s))
  {
    hide Inv, Balanced, ValidMatch, Apply;
    match op
    case TokenOp(r, x) => TokenStepBalanced(w, r, x, s, a);
    case MatchOp(m) => MatchStepBalanced(w, m, s, a);
    case CreateOp(c) => CreateStepBalanced(w, c, s, a);
    case CancelOp(_) =>
  }

  lemma GenesisBalanced(s: string)
    ensures Balanced(GENESIS, s, CLEAN)
  {
    hide Worth;
    GenesisInv();
  }

  /** Conservation over every run. */
  lemma {:induction false} SupplyConserved(ops: seq<Op>, w: World, s: string)
    requires AllWellFormed(ops) && Run(GENESIS, ops) == Some(w)
    ensures Balanced(w, s, AuditOf(ops, s))
    decreases |ops|
  {
    hide Inv, WellFormed, Step, Balanced;
    if ops == [] {
      GenesisBalanced(s);
    } else {
      var n := |ops| - 1;
      RunSnoc(GENESIS, ops);
      SupplyConserved(ops[..n], Run(GENESIS, ops[..n]).value, s);
      GenesisInv();
      RunInv(GENESIS, ops[..n]);
      StepBalanced(Run(GENESIS, ops[..n]).value, ops[n], s, AuditOf(ops[..n], s));
    }
  }

  /** Hence no payment to a balance or to unclaimed funds, and no freeze that will be released, wraps. */
  lemma NoCreditWraps(w: World, s: string, a: Address, h: nat)
    requires Inv(w) && s in w.ledger.tokens && h > HeightOf(w, s)
    ensures var t := w.ledger.tokens[s];
      Get(t.balances, a) + Get(t.unclaimed, a) + Escrow(t) + Get(t.frozen, Hold(h, a)) <= SupplyOf(w, s)
  {
    hide Sum;
    var t := w.ledger.tokens[s];
    TotalPut(t.balances, a, 0);
    TotalPut(t.unclaimed, a, 0);
    TotalPut(Due(t.frozen, HeightOf(w, s)), Hold(h, a), 0);
  }

  lemma TimelyFreeze(t: Token, z: Freeze, h: nat)
    requires Worth(t, h) < WORD && AddFreeze(t, z).Some? && z.unfreezeBlock > h
    ensures Get(t.frozen, Hold(z.unfreezeBlock, z.fromAddress)) + z.amount < WORD
  {
    hide Sum;
    TotalPut(t.balances, z.fromAddress, 0);
    TotalPut(Due(t.frozen, h), Hold(z.unfreezeBlock, z.fromAddress), 0);
  }

  /** A cancellation moves the escrow of the order to its owner's unclaimed funds and loses nothing. */
  lemma CancelConserves(t: Token, id: u64, h: nat)
    requires Worth(t, h) < WORD && id in t.open
    ensures Worth(Cancelled(t, id), h) == Worth(t, h)
  {
    hide Sum;
    EscrowClose(t, id);
    TotalCredit(t.unclaimed, t.open[id].seller, t.open[id].amountToSell);
  }
}
