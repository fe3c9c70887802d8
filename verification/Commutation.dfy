/** Steps of different chains commute.  Forwards: two steps that are both possible can follow each other
    in either order.  Backwards: a step that is about to be undone can be moved behind the later steps
    of the other chains, provided nothing later depends on it. */
module Commutation {
  import opened Amounts
  import opened Transactions
  import opened TokenLedger
  import opened TokenLaws
  import opened Ledgers

  /** Both steps are possible after each other and lead to the same world. */
  ghost predicate Commute(w: World, a: Op, b: Op)
    requires Step(w, a).Some? && Step(w, b).Some?
  {
    && Step(Step(w, a).value, b).Some?
    && Step(Step(w, b).value, a) == Step(Step(w, a).value, b)
  }

  // ---------------------------------------------------------------- forwards

  lemma TokensCommute(w: World, s: string, x: TokenTx, r: string, y: TokenTx)
    requires s != r && Step(w, TokenOp(s, x)).Some? && Step(w, TokenOp(r, y)).Some?
    ensures Commute(w, TokenOp(s, x), TokenOp(r, y))
  {
    hide Apply;
    var t, u := Apply(w.ledger.tokens[s], x).value, Apply(w.ledger.tokens[r], y).value;
    UpdatesCommute(w.ledger.tokens, s, t, r, u);
    if x.Release? && y.Release? {
      UpdatesCommute(w.heights, s, x.height, r, y.height);
    }
  }

  lemma UpdatesCommute<V>(m: map<string, V>, s: string, x: V, r: string, y: V)
    requires s != r
    ensures m[s := x][r := y] == m[r := y][s := x]
  {}

  lemma TokenCreateCommute(w: World, s: string, x: TokenTx, c: CreateToken)
    requires Inv(w) && WellFormed(TokenOp(s, x)) && WellFormed(CreateOp(c))
    requires Step(w, TokenOp(s, x)).Some? && Step(w, CreateOp(c)).Some?
    ensures Commute(w, TokenOp(s, x), CreateOp(c))
  {
    hide Apply, TokenInv, NewToken;
    var l := w.ledger;
    UpdatesCommute(l.tokens, s, Apply(l.tokens[s], x).value, c.info.symbol, NewToken(c));
    if x.Release? {
      UpdatesCommute(w.heights, s, x.height, c.info.symbol, 0);
    }
  }

  lemma OpenOrdersStay(t: Token, x: TokenTx)
    requires Apply(t, x).Some?
    ensures forall id :: id in t.open ==> id in Apply(t, x).value.open && Apply(t, x).value.open[id] == t.open[id]
  {}

  /** A transaction leaves the orders of a valid match open with the amounts they had. */
  lemma TxKeepsMatch(l: Ledger, s: string, x: TokenTx, l1: Ledger, m: Match)
    requires AddTokenTx(l, s, x) == Some(l1) && ValidMatch(l, m)
    ensures ValidMatch(l1, m) && BuyOrder(l1, m) == BuyOrder(l, m) && SellOrder(l1, m) == SellOrder(l, m)
  {
    hide Accepts, Apply;
    OpenOrdersStay(l.tokens[s], x);
  }

  /** Seen from the token of the transaction, it commutes with the match. */
  lemma TxCommutesOnToken(w: World, s: string, x: TokenTx, l1: Ledger, m: Match)
    requires Inv(w) && AddTokenTx(w.ledger, s, x) == Some(l1)
    requires ValidMatch(w.ledger, m) && ValidMatch(l1, m) && m.buySymbol != m.sellSymbol
    requires BuyOrder(l1, m) == BuyOrder(w.ledger, m) && SellOrder(l1, m) == SellOrder(w.ledger, m)
    ensures Apply(AddMatch(w.ledger, m).value.tokens[s], x) == Some(AddMatch(l1, m).value.tokens[s])
  {
    hide Apply, ApplySide, Worth, Accepts;
    ValidMatchFacts(w, m);
    var l := w.ledger;
    var buy, sell := BuyOrder(l, m).value, SellOrder(l, m).value;
    MatchTokens(l, m);
    MatchTokens(l1, m);
    MatchSidesFit(l, m);
    InvOf(w, s);
    if s == m.buySymbol {
      TxSideCommute(l.tokens[s], x, BuySide(m, buy, sell), HeightOf(w, s));
    } else if s == m.sellSymbol {
      TxSideCommute(l.tokens[s], x, SellSide(m, buy, sell), HeightOf(w, s));
    }
  }

  /** A match leaves other tokens alone and treats its own two independently. */
  lemma MatchIsLocal(l: Ledger, l1: Ledger, s: string, m: Match)
    requires ValidMatch(l, m) && ValidMatch(l1, m) && m.buySymbol != m.sellSymbol
    requires s in l.tokens && s in l1.tokens && l1 == l.(tokens := l.tokens[s := l1.tokens[s]])
    requires BuyOrder(l1, m) == BuyOrder(l, m) && SellOrder(l1, m) == SellOrder(l, m)
    ensures var r, r1 := AddMatch(l, m).value, AddMatch(l1, m).value;
      s in r1.tokens && r1 == r.(tokens := r.tokens[s := r1.tokens[s]])
  {
    hide ApplySide, Accepts;
    MatchTokens(l, m);
    MatchTokens(l1, m);
  }

  lemma TokenMatchCommute(w: World, s: string, x: TokenTx, m: Match)
    requires Inv(w) && WellFormed(TokenOp(s, x)) && WellFormed(MatchOp(m))
    requires Step(w, TokenOp(s, x)).Some? && Step(w, MatchOp(m)).Some?
    ensures Commute(w, TokenOp(s, x), MatchOp(m))
  {
    hide Inv, ValidMatch, Apply, ApplySide;
    var l1 := AddTokenTx(w.ledger, s, x).value;
    TxKeepsMatch(w.ledger, s, x, l1, m);
    TxCommutesOnToken(w, s, x, l1, m);
    MatchIsLocal(w.ledger, l1, s, m);
  }

  lemma InvOf(w: World, s: string)
    requires Inv(w) && s in w.ledger.tokens
    ensures Filed(w.ledger.tokens[s]) && Worth(w.ledger.tokens[s], HeightOf(w, s)) < WORD
  {}

  /** Two possible steps of different chains commute. */
  lemma StepsCommute(w: World, a: Op, b: Op)
    requires Inv(w) && WellFormed(a) && WellFormed(b) && ChainOf(a) != ChainOf(b)
    requires Step(w, a).Some? && Step(w, b).Some?
    ensures Commute(w, a, b)
  {
    hide Inv, Step;
    match (a, b)
    case (TokenOp(s, x), TokenOp(r, y)) => TokensCommute(w, s, x, r, y);
    case (TokenOp(s, x), MatchOp(m)) => TokenMatchCommute(w, s, x, m);
    case (TokenOp(s, x), CreateOp(c)) => TokenCreateCommute(w, s, x, c);
    case (MatchOp(m), TokenOp(s, x)) => TokenMatchCommute(w, s, x, m);
    case (CreateOp(c), TokenOp(s, x)) => TokenCreateCommute(w, s, x, c);
    case _ =>
      NeverCancels(w, a);
      NeverCancels(w, b);
  }

  lemma NeverCancels(w: World, a: Op)
    requires Step(w, a).Some?
    ensures !a.CancelOp?
  {}

  // ---------------------------------------------------------------- backwards

  /** Everything that one side of a match paid out is still unclaimed. */
  predicate SideCovered(t: Token, s: Side) {
    && PaidTo(s, s.payee) <= Get(t.unclaimed, s.payee)
    && PaidTo(s, s.residual.seller) <= Get(t.unclaimed, s.residual.seller)
  }

  predicate Covered(l: Ledger, m: Match) {
    && OrdersKnown(l, m)
    && SideCovered(l.tokens[m.buySymbol], BuySideAfter(l, m))
    && SideCovered(l.tokens[m.sellSymbol], SellSideAfter(l, m))
  }

  /** The order that a step placed, or the orders that a match named, are still on file. */
  ghost predicate Tracked(w: World, o: Op) {
    match o
    case TokenOp(s, Place(order)) =>
      s in w.ledger.tokens && Named(w.ledger.tokens[s], order.id).Some? && Count(w.ledger.tokens[s], order.id) >= 0
    case TokenOp(_, _) => true
    case MatchOp(m) => OrdersKnown(w.ledger, m)
    case _ => false
  }

  /** A step can be taken back: no match has touched the order that it placed, or all that the match
      paid is still unclaimed.  The creation of a token is never taken back here. */
  ghost predicate Removable(w: World, o: Op) {
    match o
    case TokenOp(s, Place(order)) => s in w.ledger.tokens && Count(w.ledger.tokens[s], order.id) == 0
    case TokenOp(_, _) => true
    case MatchOp(m) => Covered(w.ledger, m)
    case _ => false
  }

  predicate Names(m: Match, symbol: string, id: u64) {
    (m.buySymbol == symbol && m.buyOrderId == id) || (m.sellSymbol == symbol && m.sellOrderId == id)
  }

  lemma TxKeepsNamed(t: Token, x: TokenTx, id: u64)
    requires Filed(t) && Apply(t, x).Some? && Named(t, id).Some?
    ensures Named(Apply(t, x).value, id) == Named(t, id)
    ensures Count(Apply(t, x).value, id) == Count(t, id)
  {
    hide Credit, Debit, Merge, FrozenAt;
  }

  lemma TxClaimsOnly(t: Token, x: TokenTx, a: Address)
    requires Apply(t, x).Some?
    ensures Get(Apply(t, x).value.unclaimed, a) <= Get(t.unclaimed, a)
  {
    hide Merge, FrozenAt;
  }

  lemma SideCountsUp(t: Token, s: Side, id: u64)
    requires Filed(t) && s.residual.id in t.open && Named(t, id).Some?
    ensures Named(ApplySide(t, s), id).Some?
    ensures Count(ApplySide(t, s), id) == Count(t, id) + (if s.residual.id == id then 1 else 0)
  {
    hide Credit;
  }

  /** How a match changes the number of updates of an order. */
  lemma MatchCountsUp(w: World, m: Match, s: string, id: u64)
    requires Inv(w) && ValidMatch(w.ledger, m) && m.buySymbol != m.sellSymbol
    requires s in w.ledger.tokens && Named(w.ledger.tokens[s], id).Some?
    ensures var l := AddMatch(w.ledger, m).value;
      && s in l.tokens && Named(l.tokens[s], id).Some?
      && Count(l.tokens[s], id) == Count(w.ledger.tokens[s], id) + (if Names(m, s, id) then 1 else 0)
  {
    hide ApplySide, Named, Count, Accepts, Worth;
    ValidMatchFacts(w, m);
    var l := w.ledger;
    var buy, sell := BuyOrder(l, m).value, SellOrder(l, m).value;
    MatchTokens(l, m);
    if s == m.buySymbol {
      SideCountsUp(l.tokens[s], BuySide(m, buy, sell), id);
    } else if s == m.sellSymbol {
      SideCountsUp(l.tokens[s], SellSide(m, buy, sell), id);
    }
  }

  /** Steps of the other chains keep what a step left behind on file, and never make it removable. */
  lemma TrackedStep(w: World, o: Op, p: Op)
    requires Inv(w) && WellFormed(o) && WellFormed(p) && ChainOf(o) != ChainOf(p)
    requires Tracked(w, o) && Step(w, p).Some?
    ensures Tracked(Step(w, p).value, o)
    ensures Removable(Step(w, p).value, o) ==> Removable(w, o)
  {
    hide Worth, Apply, ValidMatch, AddMatch, Inv;
    if o.MatchOp? {
      TrackedMatch(w, o.m, p.symbol, p.tx);
    } else if o.tx.Place? {
      TrackedOrder(w, o.symbol, o.tx.order.id, p);
    }
  }

  lemma TrackedOrder(w: World, s: string, id: u64, p: Op)
    requires Inv(w) && s != MATCH_CHAIN && WellFormed(p) && ChainOf(p) != s && Step(w, p).Some?
    requires s in w.ledger.tokens && Named(w.ledger.tokens[s], id).Some?
    ensures var l := Step(w, p).value.ledger;
      && s in l.tokens && Named(l.tokens[s], id).Some?
      && Count(l.tokens[s], id) >= Count(w.ledger.tokens[s], id)
  {
    hide TokenInv;
    if p.MatchOp? {
      hide Inv, ValidMatch, AddMatch, Named, Count, Step;
      MatchSteps(w, p.m);
      MatchCountsUp(w, p.m, s, id);
    } else {
      OtherTokens(w, s, p);
    }
  }

  lemma OtherTokens(w: World, s: string, p: Op)
    requires Inv(w) && s != MATCH_CHAIN && WellFormed(p) && ChainOf(p) != s && !p.MatchOp? && Step(w, p).Some?
    requires s in w.ledger.tokens
    ensures var l := Step(w, p).value.ledger; s in l.tokens && l.tokens[s] == w.ledger.tokens[s]
  {
    hide Apply, ValidMatch, TokenInv, NewToken;
  }

  lemma MatchSteps(w: World, m: Match)
    ensures Step(w, MatchOp(m)).Some? <==> ValidMatch(w.ledger, m)
    ensures ValidMatch(w.ledger, m) ==>
      AddMatch(w.ledger, m).Some? && Step(w, MatchOp(m)).value == w.(ledger := AddMatch(w.ledger, m).value)
  {
    hide ValidMatch;
  }

  lemma TrackedMatch(w: World, m: Match, s: string, x: TokenTx)
    requires Inv(w) && OrdersKnown(w.ledger, m) && Step(w, TokenOp(s, x)).Some?
    ensures var l := Step(w, TokenOp(s, x)).value.ledger; OrdersKnown(l, m) && (Covered(l, m) ==> Covered(w.ledger, m))
  {
    hide Worth, Apply, Named, Count;
    var t := w.ledger.tokens[s];
    var l := Step(w, TokenOp(s, x)).value.ledger;
    if s == m.buySymbol { TxKeepsNamed(t, x, m.buyOrderId); }
    if s == m.sellSymbol { TxKeepsNamed(t, x, m.sellOrderId); }
    forall a { TxClaimsOnly(t, x, a); }
    assert NamedBuy(l, m) == NamedBuy(w.ledger, m) && NamedSell(l, m) == NamedSell(w.ledger, m);
  }

  lemma TrackedAtOnce(w: World, o: Op)
    requires Inv(w) && WellFormed(o) && !o.CreateOp? && Step(w, o).Some?
    ensures Tracked(Step(w, o).value, o)
  {
    hide Worth, Accepts;
    if o.MatchOp? {
      hide ValidMatch, AddMatch, OrdersKnown;
      MatchJustMade(w, o.m);
    }
  }

  /** What a transaction does not change about a match made before it. */
  lemma SidesStay(l: Ledger, m: Match, s: string, x: TokenTx, l1: Ledger)
    requires OrdersKnown(l, m) && AddTokenTx(l, s, x) == Some(l1) && Filed(l.tokens[s])
    ensures OrdersKnown(l1, m) && BuySideAfter(l1, m) == BuySideAfter(l, m) && SellSideAfter(l1, m) == SellSideAfter(l, m)
  {
    hide Filed, Apply, Named;
    var t := l.tokens[s];
    if s == m.buySymbol { TxKeepsNamed(t, x, m.buyOrderId); }
    if s == m.sellSymbol { TxKeepsNamed(t, x, m.sellOrderId); }
  }

  /** A covered side leaves what it paid to any address. */
  lemma CoveredPays(t: Token, s: Side, a: Address)
    requires SideCovered(t, s)
    ensures PaidTo(s, a) <= Get(t.unclaimed, a)
  {}

  /** A transaction that came after a match was possible before it, as long as what the match paid is
      unclaimed after both. */
  lemma TxBeforeMatch(w: World, m: Match, s: string, x: TokenTx)
    requires Inv(w) && ValidMatch(w.ledger, m) && m.buySymbol != m.sellSymbol
    requires var w1 := Step(w, MatchOp(m)).value;
      && Step(w1, TokenOp(s, x)).Some?
      && Covered(Step(w1, TokenOp(s, x)).value.ledger, m)
    ensures Step(w, TokenOp(s, x)).Some?
  {
    hide Worth, Apply, ApplySide, Accepts, Named, Inv;
    ValidMatchFacts(w, m);
    var l := w.ledger;
    var buy, sell := BuyOrder(l, m).value, SellOrder(l, m).value;
    var w1 := Step(w, MatchOp(m)).value;
    var w2 := Step(w1, TokenOp(s, x)).value;
    MatchTokens(l, m);
    MatchSidesFit(l, m);
    MatchJustMade(w, m);
    InvOf(w, s);
    MatchStepInv(w, m);
    InvOf(w1, s);
    SidesStay(w1.ledger, m, s, x, w2.ledger);
    if x.Claim? && s == m.buySymbol {
      CoveredPays(w2.ledger.tokens[s], BuySide(m, buy, sell), x.claim.address);
    } else if x.Claim? && s == m.sellSymbol {
      CoveredPays(w2.ledger.tokens[s], SellSide(m, buy, sell), x.claim.address);
    }
    if s == m.buySymbol {
      TxBeforeSide(l.tokens[s], x, BuySide(m, buy, sell), HeightOf(w, s));
    } else if s == m.sellSymbol {
      TxBeforeSide(l.tokens[s], x, SellSide(m, buy, sell), HeightOf(w, s));
    }
  }

  /** A step that came after another step of a different chain was possible before it. */
  lemma StepBefore(w: World, o: Op, p: Op)
    requires Inv(w) && WellFormed(o) && WellFormed(p) && ChainOf(o) != ChainOf(p) && !o.CreateOp?
    requires Step(w, o).Some? && Step(Step(w, o).value, p).Some?
    requires Removable(Step(Step(w, o).value, p).value, o)
    ensures Step(w, p).Some?
  {
    hide Worth, Apply, Accepts;
    if o.MatchOp? {
      TxBeforeMatch(w, o.m, p.symbol, p.tx);
    } else if p.MatchOp? {
      MatchBeforeTx(w, o.symbol, o.tx, p.m);
    }
  }

  lemma MatchBeforeTx(w: World, s: string, x: TokenTx, m: Match)
    requires Inv(w) && s != MATCH_CHAIN && m.buySymbol != m.sellSymbol
    requires Step(w, TokenOp(s, x)).Some?
    requires var w1 := Step(w, TokenOp(s, x)).value;
      && ValidMatch(w1.ledger, m)
      && Removable(Step(w1, MatchOp(m)).value, TokenOp(s, x))
    ensures ValidMatch(w.ledger, m)
  {
    hide Inv, Accepts, Named, Count, ApplySide, Apply;
    var w1 := Step(w, TokenOp(s, x)).value;
    TokenStepInv(w, s, x);
    if x.Place? {
      TrackedAtOnce(w, TokenOp(s, x));
      MatchCountsUp(w1, m, s, x.order.id);
    }
    NewOrdersOnly(w.ledger.tokens[s], x);
  }

  lemma NewOrdersOnly(t: Token, x: TokenTx)
    requires Apply(t, x).Some?
    ensures forall id :: id in Apply(t, x).value.open && (x.Place? ==> id != x.order.id) ==>
      id in t.open && Apply(t, x).value.open[id] == t.open[id]
  {}

  // ---------------------------------------------------------------- runs

  function Run(w: World, ops: seq<Op>): Option<World>
    decreases |ops|
  {
    if ops == [] then Some(w)
    else match Step(w, ops[0])
      case None => None
      case Some(w1) => Run(w1, ops[1..])
  }

  ghost predicate AllWellFormed(ops: seq<Op>) {
    forall i :: 0 <= i < |ops| ==> WellFormed(ops[i])
  }

  ghost predicate Avoids(ops: seq<Op>, chain: string) {
    forall i :: 0 <= i < |ops| ==> ChainOf(ops[i]) != chain
  }

  lemma {:induction false} RunInv(w: World, ops: seq<Op>)
    requires Inv(w) && AllWellFormed(ops) && Run(w, ops).Some?
    ensures Inv(Run(w, ops).value)
    decreases |ops|
  {
    hide Inv, Step, WellFormed;
    if ops != [] {
      StepInv(w, ops[0]);
      RunInv(Step(w, ops[0]).value, ops[1..]);
    }
  }

  lemma {:induction false} RunConcat(w: World, a: seq<Op>, b: seq<Op>)
    ensures Run(w, a + b) == (match Run(w, a) case None => None case Some(w1) => Run(w1, b))
    decreases |a|
  {
    hide Step;
    if a == [] {
      assert a + b == b;
    } else {
      assert (a + b)[0] == a[0] && (a + b)[1..] == a[1..] + b;
      if Step(w, a[0]).Some? {
        RunConcat(Step(w, a[0]).value, a[1..], b);
      }
    }
  }

  lemma RunJust(w: World, o: Op)
    ensures Run(w, [o]) == Step(w, o)
  {
    hide Step;
  }

  lemma {:induction false} TrackedRun(w: World, o: Op, post: seq<Op>)
    requires Inv(w) && WellFormed(o) && AllWellFormed(post) && Avoids(post, ChainOf(o))
    requires Tracked(w, o) && Run(w, post).Some?
    ensures Removable(Run(w, post).value, o) ==> Removable(w, o)
    decreases |post|
  {
    hide Inv, Step, WellFormed, Tracked, Removable, ChainOf;
    if post != [] {
      StepInv(w, post[0]);
      TrackedStep(w, o, post[0]);
      TrackedRun(Step(w, post[0]).value, o, post[1..]);
    }
  }

  /** A removable step can be moved behind all later steps of the other chains: they were possible
      without it, and it is possible after them. */
  lemma {:induction false} MoveToEnd(w: World, o: Op, post: seq<Op>)
    requires Inv(w) && WellFormed(o) && AllWellFormed(post) && Avoids(post, ChainOf(o)) && !o.CreateOp?
    requires Step(w, o).Some? && Run(Step(w, o).value, post).Some?
    requires Removable(Run(Step(w, o).value, post).value, o)
    ensures Run(w, post).Some?
    ensures Step(Run(w, post).value, o) == Run(Step(w, o).value, post)
    decreases |post|
  {
    hide Inv, Step, WellFormed, Tracked, Removable, ChainOf;
    if post != [] {
      var p, rest := post[0], post[1..];
      var w1 := Step(w, o).value;
      var w2 := Step(w1, p).value;
      StepInv(w, o);
      StepInv(w1, p);
      TrackedAtOnce(w, o);
      TrackedStep(w1, o, p);
      TrackedRun(w2, o, rest);
      StepBefore(w, o, p);
      StepsCommute(w, o, p);
      StepInv(w, p);
      MoveToEnd(Step(w, p).value, o, rest);
    }
  }

  /** Undoing a removable step of one chain, however far back it lies among the steps of the other
      chains, gives the world that those steps alone lead to. */
  lemma UndoFromBehind(w: World, o: Op, post: seq<Op>)
    requires Inv(w) && WellFormed(o) && AllWellFormed(post) && Avoids(post, ChainOf(o)) && !o.CreateOp?
    requires Step(w, o).Some? && Run(Step(w, o).value, post).Some?
    requires var end := Run(Step(w, o).value, post).value;
      && Removable(end, o)
      && (o.MatchOp? ==> OrdersKnown(end.ledger, o.m))
    ensures Run(w, post).Some?
    ensures var end := Run(Step(w, o).value, post).value;
      && (o.TokenOp? ==> o.symbol in end.ledger.tokens)
      && (o.TokenOp? && o.tx.Release? ==> o.tx.height > 0)
      && UndoOp(end, o) == Run(w, post).value
  {
    hide Inv, WellFormed, Removable, OrdersKnown, Apply, ValidMatch, AddMatch;
    MoveToEnd(w, o, post);
    RunInv(w, post);
    UndoStep(Run(w, post).value, o);
  }
}
