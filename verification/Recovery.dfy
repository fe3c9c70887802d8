/** Replaying stored chains, as a function of the order in which the chains come up.  A visit replays a chain
    as far as it goes.  A block that is refused is taken back, and when it had created tokens, so are they:
    the chains that were stored for them are deleted with them. */
module Recovery {
  import opened Amounts
  import opened Transactions
  import opened TokenLedger
  import opened Ledgers
  import opened Commutation
  import opened Schedules
  import opened Timelines
  import opened Determinism
  import opened Chains

  /** What replaying the blocks of a chain does. */
  function Replayed(c: string, blocks: seq<Block>): seq<Program> {
    seq(|blocks|, i requires 0 <= i < |blocks| => DataOps(c, blocks[i].data))
  }

  function ReplayBacklog(contents: map<string, seq<Block>>): Backlog {
    map c | c in contents :: Replayed(c, contents[c])
  }

  function Saved(contents: map<string, seq<Block>>, c: string): seq<Block> {
    if c in contents then contents[c] else []
  }

  /** A block that creates tokens does nothing else. */
  predicate CreatesAlone(ops: Program) {
    (forall i :: 0 <= i < |ops| ==> ops[i].CreateOp?) || NoCreates(ops)
  }

  ghost predicate CreateBlocksAlone(contents: map<string, seq<Block>>) {
    forall c, i :: c in contents && 0 <= i < |contents[c]| ==> CreatesAlone(DataOps(c, contents[c][i].data))
  }

  // ---------------------------------------------------------------- blocks that create tokens

  lemma {:induction false} CreatesEnabled(w: World, v: World, ops: Program)
    requires w.ledger.created == v.ledger.created && Run(v, ops).Some?
    requires forall i :: 0 <= i < |ops| ==> ops[i].CreateOp?
    ensures Run(w, ops).Some?
    decreases |ops|
  {
    hide NewToken;
    if ops != [] {
      CreatesEnabled(Step(w, ops[0]).value, Step(v, ops[0]).value, ops[1..]);
    }
  }

  lemma {:induction false} TokensCreateNothing(w: World, ops: Program, c: string)
    requires OfChain(ops, c) && c != MATCH_CHAIN && Run(w, ops).Some?
    ensures Run(w, ops).value.ledger.created == w.ledger.created
    decreases |ops|
  {
    hide Apply;
    if ops != [] {
      assert ChainOf(ops[0]) == c;
      TokensCreateNothing(Step(w, ops[0]).value, ops[1..], c);
    }
  }

  /** When the next block of the MATCH chain only creates tokens, it can be replayed at once. */
  lemma {:induction false} CreateBlockReady(w: World, b: Backlog, order: seq<string>, end: World)
    requires WellFormedBacklog(b) && Completes(w, b, order, end) && Pending(b, MATCH_CHAIN)
    requires forall i :: 0 <= i < |b[MATCH_CHAIN][0]| ==> b[MATCH_CHAIN][0][i].CreateOp?
    ensures Run(w, b[MATCH_CHAIN][0]).Some?
    decreases |order|
  {
    hide Run, OfChain;
    var d := order[0];
    if d != MATCH_CHAIN {
      var v := BlockStep(w, d, b[d][0]).value;
      BacklogHead(b, d);
      CreateBlockReady(v, Advance(b, d), order[1..], end);
      TokensCreateNothing(w, b[d][0], d);
      CreatesEnabled(w, v, b[MATCH_CHAIN][0]);
    }
  }

  // ---------------------------------------------------------------- no cancellations

  predicate NoCancels(ops: Program) {
    forall i :: 0 <= i < |ops| ==> !ops[i].CancelOp?
  }

  lemma {:induction false} RunsCancelNothing(w: World, ops: Program)
    requires Run(w, ops).Some?
    ensures NoCancels(ops)
    decreases |ops|
  {
    hide Step;
    if ops != [] {
      NeverCancels(w, ops[0]);
      RunsCancelNothing(Step(w, ops[0]).value, ops[1..]);
      assert forall i :: 0 < i < |ops| ==> ops[i] == ops[1..][i - 1];
    }
  }

  /** A backlog that can be completed holds no cancellation. */
  lemma {:induction false} CompletedCancelNothing(w: World, b: Backlog, order: seq<string>, end: World, c: string)
    requires Completes(w, b, order, end) && Pending(b, c)
    ensures NoCancels(b[c][0])
    decreases |order|
  {
    hide Run, NoCancels;
    var d := order[0];
    if d == c {
      RunsCancelNothing(w, b[c][0]);
    } else {
      CompletedCancelNothing(BlockStep(w, d, b[d][0]).value, Advance(b, d), order[1..], end, c);
    }
  }


  // ---------------------------------------------------------------- what a block creates

  lemma RunNext(w: World, ops: Program, n: nat)
    requires n < |ops|
    ensures Run(w, ops[..n + 1]) == (match Run(w, ops[..n]) case None => None case Some(v) => Step(v, ops[n]))
    ensures Run(w, ops[..n + 1]).None? ==> Run(w, ops).None?
    ensures Run(w, ops[..0]) == Some(w) && ops[..|ops|] == ops
  {
    hide Step;
    assert ops[..n + 1] == ops[..n] + [ops[n]];
    RunConcat(w, ops[..n], [ops[n]]);
    if Run(w, ops[..n]).Some? {
      RunOne(Run(w, ops[..n]).value, ops[n], []);
      assert [ops[n]] + [] == [ops[n]];
    }
    assert ops == ops[..n + 1] + ops[n + 1..];
    RunConcat(w, ops[..n + 1], ops[n + 1..]);
  }

  lemma RunSome(w: World, ops: Program, n: nat)
    requires n <= |ops| && AllWellFormed(ops) && Inv(w) && Run(w, ops[..n]).Some?
    ensures Inv(Run(w, ops[..n]).value)
  {
    hide Inv, Run, WellFormed;
    RunInv(w, ops[..n]);
  }

  function CreatedBy(op: Op): set<string> {
    if op.CreateOp? then {op.create.info.symbol} else {}
  }

  lemma NothingRun(w: World, ops: Program)
    ensures Run(w, ops[..0]) == Some(w) && ops[..0] == [] && ops[0..] == ops && ops[..|ops|] == ops
  {}

  lemma CreateSteps(w: World, c: CreateToken)
    requires Inv(w) && c.info.symbol != MATCH_CHAIN
    ensures Step(w, CreateOp(c)).Some? <==> Ledgers.AddCreateToken(w.ledger, c).Some?
    ensures Step(w, CreateOp(c)).Some? ==> Ledgers.AddCreateToken(w.ledger, c) == Some(Step(w, CreateOp(c)).value.ledger)
    ensures Step(w, CreateOp(c)).Some? ==> c.info.symbol !in w.ledger.tokens
  {
    hide NewToken, TokenInv;
  }

  /** How many of the transactions are accepted before one is refused. */
  function Accepted(w: World, ops: Program): (n: nat)
    ensures n <= |ops|
    decreases |ops|
  {
    if ops == [] || Step(w, ops[0]).None? then 0 else 1 + Accepted(Step(w, ops[0]).value, ops[1..])
  }

  function CreatedIn(ops: Program): set<string> {
    set i | 0 <= i < |ops| && ops[i].CreateOp? :: ops[i].create.info.symbol
  }

  lemma StepKeys(w: World, op: Op)
    requires Step(w, op).Some?
    ensures Step(w, op).value.ledger.tokens.Keys == w.ledger.tokens.Keys + CreatedBy(op)
  {
    hide Apply, Accepts, ApplySide, NewToken;
  }

  /** The tokens that a block creates are new. */
  lemma {:induction false} CreatedAreNew(w: World, ops: Program, n: nat)
    requires Inv(w) && n <= |ops| && AllWellFormed(ops) && Run(w, ops[..n]).Some?
    ensures CreatedIn(ops[..n]) !! w.ledger.tokens.Keys
    ensures w.ledger.tokens.Keys <= Run(w, ops[..n]).value.ledger.tokens.Keys
    decreases n
  {
    hide Inv, Run, WellFormed, Step;
    if n == 0 {
      NothingRun(w, ops);
    } else {
      RunNext(w, ops, n - 1);
      CreatedAreNew(w, ops, n - 1);
      RunSome(w, ops, n - 1);
      var v := Run(w, ops[..n - 1]).value;
      StepKeys(v, ops[n - 1]);
      NewInStep(v, ops[n - 1]);
      forall s | s in CreatedIn(ops[..n]) ensures s !in w.ledger.tokens {
        var i :| 0 <= i < n && ops[..n][i].CreateOp? && ops[..n][i].create.info.symbol == s;
        if i < n - 1 {
          assert ops[..n - 1][i] == ops[..n][i];
        }
      }
    }
  }

  lemma NewInStep(w: World, op: Op)
    requires Inv(w) && WellFormed(op) && Step(w, op).Some?
    ensures CreatedBy(op) !! w.ledger.tokens.Keys
  {
    if op.CreateOp? {
      CreateSteps(w, op.create);
    }
    hide *;
  }

  lemma {:induction false} AcceptedRuns(w: World, ops: Program)
    ensures Run(w, ops[..Accepted(w, ops)]).Some?
    decreases |ops|
  {
    hide Step;
    if ops != [] && Step(w, ops[0]).Some? {
      var n := Accepted(w, ops);
      AcceptedRuns(Step(w, ops[0]).value, ops[1..]);
      assert ops[..n][1..] == ops[1..][..n - 1];
    } else {
      assert ops[..0] == [];
    }
  }

  // ---------------------------------------------------------------- visits

  /** Those of the tokens that have blocks in store. */
  function StoredOf(contents: map<string, seq<Block>>, tokens: set<string>): set<string> {
    set s | s in tokens && Saved(contents, s) != []
  }

  /** How far a replay has come: the world, what is left to replay and what is in store, the chains whose
      blocks have been replayed, the chains that were lost, and what had been replayed when the first was. */
  datatype Progress = Progress(world: World, left: Backlog, contents: map<string, seq<Block>>,
                               history: seq<string>, lost: set<string>, refusal: seq<string>)

  function Begin(saved: map<string, seq<Block>>): Progress {
    Progress(GENESIS, ReplayBacklog(saved), saved, [], {}, [])
  }

  function Head(b: Backlog, c: string): Program {
    if Pending(b, c) then b[c][0] else []
  }

  /** The next block of the chain can be replayed. */
  predicate Ready(w: World, b: Backlog, c: string) {
    Pending(b, c) && BlockStep(w, c, b[c][0]).Some?
  }

  function Replay(p: Progress, c: string): Progress
    requires Ready(p.world, p.left, c)
  {
    p.(world := BlockStep(p.world, c, p.left[c][0]).value, left := Advance(p.left, c), history := p.history + [c])
  }

  /** The tokens that the next block of the chain has created when it is refused. */
  function Uncreated(p: Progress, c: string): set<string> {
    var ops := Head(p.left, c);
    CreatedIn(ops[..Accepted(p.world, ops)])
  }

  function Refuse(p: Progress, c: string): Progress {
    var loss := StoredOf(p.contents, Uncreated(p, c));
    p.(left := p.left - loss, contents := p.contents - Uncreated(p, c),
       lost := p.lost + loss, refusal := if p.lost == {} then p.history else p.refusal)
  }

  /** Replay the blocks of a chain until there are no more or one is refused. */
  function Visit(p: Progress, c: string): Progress
    decreases |Queue(p.left, c)|
  {
    if !Pending(p.left, c) then p
    else if !Ready(p.world, p.left, c) then Refuse(p, c)
    else Visit(Replay(p, c), c)
  }

  function VisitAll(p: Progress, visits: seq<string>): Progress
    decreases |visits|
  {
    if visits == [] then p else Visit(VisitAll(p, visits[..|visits| - 1]), visits[|visits| - 1])
  }

  /** One pass visits chains that are open, and all that were open when it began. */
  ghost predicate Pass(p: Progress, visits: seq<string>) {
    && (forall c :: c in p.world.ledger.tokens ==> c in visits)
    && (forall i :: 0 <= i < |visits| ==> visits[i] in VisitAll(p, visits[..i]).world.ledger.tokens)
  }

  function AfterPasses(p: Progress, passes: seq<seq<string>>): Progress
    decreases |passes|
  {
    if passes == [] then p else VisitAll(AfterPasses(p, passes[..|passes| - 1]), passes[|passes| - 1])
  }

  /** The passes of one execution: whatever the order in which the chains come up. */
  ghost predicate Execution(saved: map<string, seq<Block>>, passes: seq<seq<string>>) {
    forall i :: 0 <= i < |passes| ==> Pass(AfterPasses(Begin(saved), passes[..i]), passes[i])
  }

  /** Every open chain has been replayed. */
  ghost predicate Finished(p: Progress) {
    forall c :: c in p.world.ledger.tokens ==> !Pending(p.left, c)
  }

  // ---------------------------------------------------------------- what a replay keeps

  /** The world after some blocks, and what is left then. */
  function Leads(w: World, b: Backlog, order: seq<string>): Option<(World, Backlog)>
    decreases |order|
  {
    if order == [] then Some((w, b))
    else if !Ready(w, b, order[0]) then None
    else Leads(BlockStep(w, order[0], b[order[0]][0]).value, Advance(b, order[0]), order[1..])
  }

  lemma {:induction false} LeadsOn(w: World, b: Backlog, order: seq<string>, c: string)
    requires Leads(w, b, order).Some?
    requires var (v, a) := Leads(w, b, order).value; Ready(v, a, c)
    ensures var (v, a) := Leads(w, b, order).value;
      Leads(w, b, order + [c]) == Some((BlockStep(v, c, a[c][0]).value, Advance(a, c)))
    decreases |order|
  {
    hide BlockStep;
    if order == [] {
      assert order + [c] == [c] && [c][1..] == [];
    } else {
      var d := order[0];
      LeadsOn(BlockStep(w, d, b[d][0]).value, Advance(b, d), order[1..], c);
      assert (order + [c])[1..] == order[1..] + [c];
    }
  }

  /** Blocks in this order lead to a block of the MATCH chain that is refused after it created tokens whose
      chains are in store. */
  ghost predicate LosesAfter(saved: map<string, seq<Block>>, order: seq<string>) {
    && Leads(GENESIS, ReplayBacklog(saved), order).Some?
    && var (w, b) := Leads(GENESIS, ReplayBacklog(saved), order).value;
    && Pending(b, MATCH_CHAIN) && !Ready(w, b, MATCH_CHAIN)
    && StoredOf(saved, CreatedIn(b[MATCH_CHAIN][0][..Accepted(w, b[MATCH_CHAIN][0])])) != {}
  }

  /** What is lost is out of store and everything else is as it was; until something is lost, the world is
      what the history leads to. */
  ghost predicate Logged(saved: map<string, seq<Block>>, p: Progress) {
    && Inv(p.world) && WellFormedBacklog(p.left)
    && (forall s :: s in p.lost ==> Saved(saved, s) != [] && Saved(p.contents, s) == [])
    && (forall s :: s !in p.lost ==> Saved(p.contents, s) == Saved(saved, s))
    && (p.lost == {} ==> Leads(GENESIS, ReplayBacklog(saved), p.history) == Some((p.world, p.left)))
    && (p.lost != {} ==> LosesAfter(saved, p.refusal))
  }

  lemma ReplayLogged(saved: map<string, seq<Block>>, p: Progress, c: string)
    requires Logged(saved, p) && Ready(p.world, p.left, c)
    ensures Logged(saved, Replay(p, c))
  {
    hide Inv, OfChain, Run, LosesAfter, Leads, ReplayBacklog;
    BacklogHead(p.left, c);
    BlockStepInv(p.world, c, p.left[c][0]);
    if p.lost == {} {
      LeadsOn(GENESIS, ReplayBacklog(saved), p.history, c);
    }
  }

  lemma RefuseLogged(saved: map<string, seq<Block>>, p: Progress, c: string)
    requires Logged(saved, p) && Pending(p.left, c) && !Ready(p.world, p.left, c)
    ensures Logged(saved, Refuse(p, c))
  {
    hide Inv, OfChain, Run, Leads, ReplayBacklog, BlockStep;
    var q := Refuse(p, c);
    var loss := StoredOf(p.contents, Uncreated(p, c));
    forall s ensures s in q.lost ==> Saved(saved, s) != [] && Saved(q.contents, s) == []
             ensures s !in q.lost ==> Saved(q.contents, s) == Saved(saved, s) {}
    if loss == {} {
      assert p.left - loss == p.left;
    } else if p.lost == {} {
      var s :| s in loss;
      BacklogHead(p.left, c);
      CreatesOnMatch(p.left[c][0], c, Accepted(p.world, p.left[c][0]), s);
      assert StoredOf(saved, Uncreated(p, c)) == loss;
    }
  }

  lemma CreatesOnMatch(ops: Program, c: string, n: nat, s: string)
    requires OfChain(ops, c) && n <= |ops| && s in CreatedIn(ops[..n])
    ensures c == MATCH_CHAIN
  {
    var i :| 0 <= i < n && ops[..n][i].CreateOp? && ops[..n][i].create.info.symbol == s;
    assert ChainOf(ops[i]) == c;
  }

  lemma {:induction false} VisitLogged(saved: map<string, seq<Block>>, p: Progress, c: string)
    requires Logged(saved, p)
    ensures Logged(saved, Visit(p, c)) && p.lost <= Visit(p, c).lost && !Ready(Visit(p, c).world, Visit(p, c).left, c)
    decreases |Queue(p.left, c)|
  {
    hide Logged, Refuse;
    if Pending(p.left, c) {
      if Ready(p.world, p.left, c) {
        ReplayLogged(saved, p, c);
        VisitLogged(saved, Replay(p, c), c);
      } else {
        RefuseLogged(saved, p, c);
        RefuseLoses(p, c);
      }
    }
  }

  lemma RefuseLoses(p: Progress, c: string)
    requires Pending(p.left, c) && !Ready(p.world, p.left, c)
    ensures var q := Refuse(p, c);
      && p.lost <= q.lost && q.world == p.world && q.history == p.history && !Ready(q.world, q.left, c)
      && (q.lost == {} ==> q.left == p.left)
  {
    hide BlockStep, Uncreated;
    var loss := StoredOf(p.contents, Uncreated(p, c));
    if loss == {} {
      assert p.left - loss == p.left;
    }
  }

  lemma {:induction false} VisitsLogged(saved: map<string, seq<Block>>, p: Progress, visits: seq<string>)
    requires Logged(saved, p)
    ensures Logged(saved, VisitAll(p, visits)) && p.lost <= VisitAll(p, visits).lost
    decreases |visits|
  {
    hide Logged, Visit;
    if visits != [] {
      var n := |visits| - 1;
      VisitsLogged(saved, p, visits[..n]);
      VisitLogged(saved, VisitAll(p, visits[..n]), visits[n]);
    }
  }

  lemma BeginLogged(saved: map<string, seq<Block>>)
    requires WellFormedBacklog(ReplayBacklog(saved))
    ensures Logged(saved, Begin(saved))
  {
    GenesisInv();
    hide Inv, WellFormedBacklog, ReplayBacklog;
  }

  /** Whatever the order of the visits, a replay stays logged, and what is lost stays lost. */
  lemma {:induction false} PassesLogged(saved: map<string, seq<Block>>, p: Progress, passes: seq<seq<string>>)
    requires Logged(saved, p)
    ensures Logged(saved, AfterPasses(p, passes)) && p.lost <= AfterPasses(p, passes).lost
    decreases |passes|
  {
    hide Logged, VisitAll;
    if passes != [] {
      var n := |passes| - 1;
      PassesLogged(saved, p, passes[..n]);
      VisitsLogged(saved, AfterPasses(p, passes[..n]), passes[n]);
    }
  }

  /** A visit changes nothing of what is left of the other open chains, and creates tokens only if it replays
      blocks of the MATCH chain. */
  lemma {:induction false} VisitElsewhere(p: Progress, d: string)
    requires Inv(p.world) && WellFormedBacklog(p.left)
    ensures var q := Visit(p, d);
      && p.world.ledger.tokens.Keys <= q.world.ledger.tokens.Keys
      && (forall c :: c in p.world.ledger.tokens && c != d ==> Queue(q.left, c) == Queue(p.left, c))
      && (q.world.ledger.tokens.Keys == p.world.ledger.tokens.Keys || |Queue(q.left, MATCH_CHAIN)| < |Queue(p.left, MATCH_CHAIN)|)
      && |Queue(q.left, MATCH_CHAIN)| <= |Queue(p.left, MATCH_CHAIN)|
    decreases |Queue(p.left, d)|
  {
    hide Inv, Run, OfChain, WellFormedBacklog, CreatedIn;
    if Ready(p.world, p.left, d) {
      var ops := p.left[d][0];
      BacklogHead(p.left, d);
      BlockStepInv(p.world, d, ops);
      OfOneChain(ops, "", d);
      forall c | c in p.world.ledger.tokens ensures c in Replay(p, d).world.ledger.tokens {
        TokensStay(p.world, ops, c);
      }
      if d != MATCH_CHAIN {
        TokensCreateNothing(p.world, ops, d);
        KeysOfInv(p.world, Replay(p, d).world);
      }
      VisitElsewhere(Replay(p, d), d);
    } else if Pending(p.left, d) {
      BacklogHead(p.left, d);
      OfOneChain(p.left[d][0], "", d);
      AcceptedRuns(p.world, p.left[d][0]);
      CreatedAreNew(p.world, p.left[d][0], Accepted(p.world, p.left[d][0]));
      MatchIsOpen(p.world);
    }
  }

  lemma MatchIsOpen(w: World)
    requires Inv(w)
    ensures MATCH_CHAIN in w.ledger.tokens
  {}

  lemma KeysOfInv(w: World, v: World)
    requires Inv(w) && Inv(v) && w.ledger.created == v.ledger.created
    ensures w.ledger.tokens.Keys == v.ledger.tokens.Keys
  {}

  // ---------------------------------------------------------------- every pass makes progress

  /** No block can be replayed any more. */
  ghost predicate Halted(p: Progress) {
    forall c :: !Ready(p.world, p.left, c)
  }

  /** Nothing has been replayed from p to q. */
  ghost predicate Idle(p: Progress, q: Progress) {
    q.history == p.history && q.world == p.world && q.left == p.left
  }

  /** A visit makes progress exactly if the next block can be replayed. */
  lemma {:induction false} VisitProgress(p: Progress, c: string)
    ensures |Visit(p, c).history| >= |p.history| && p.lost <= Visit(p, c).lost
    ensures Ready(p.world, p.left, c) ==> |Visit(p, c).history| > |p.history|
    ensures !Ready(p.world, p.left, c) && Visit(p, c).lost == {} ==> Idle(p, Visit(p, c))
    decreases |Queue(p.left, c)|
  {
    hide Refuse, BlockStep;
    if Ready(p.world, p.left, c) {
      VisitProgress(Replay(p, c), c);
    } else if Pending(p.left, c) {
      RefuseLoses(p, c);
    }
  }

  lemma {:induction false} VisitsProgress(p: Progress, visits: seq<string>)
    requires VisitAll(p, visits).lost == {}
    ensures p.lost == {} && |VisitAll(p, visits).history| >= |p.history|
    ensures |VisitAll(p, visits).history| == |p.history| ==>
      Idle(p, VisitAll(p, visits)) && forall c :: c in visits ==> !Ready(p.world, p.left, c)
    ensures Halted(p) ==> Idle(p, VisitAll(p, visits))
    decreases |visits|
  {
    hide Ready, Visit;
    if visits != [] {
      var n := |visits| - 1;
      var q := VisitAll(p, visits[..n]);
      VisitProgress(q, visits[n]);
      VisitsProgress(p, visits[..n]);
      assert forall c :: c in visits ==> c in visits[..n] || c == visits[n];
    }
  }

  lemma PassProgress(p: Progress, visits: seq<string>)
    requires Pass(p, visits) && VisitAll(p, visits).lost == {}
    ensures |VisitAll(p, visits).history| > |p.history| || (Idle(p, VisitAll(p, visits)) && Halted(p))
    ensures |VisitAll(p, visits).history| >= |p.history| && p.lost == {}
    ensures Halted(p) ==> Idle(p, VisitAll(p, visits))
  {
    hide VisitAll, Run;
    VisitsProgress(p, visits);
    forall c | |VisitAll(p, visits).history| == |p.history| ensures !Ready(p.world, p.left, c) {
      if c in p.world.ledger.tokens {
        assert c in visits;
      }
    }
  }

  /** As long as nothing is lost, every pass replays a block, until no block can be replayed any more. */
  lemma {:induction false} ExecutionProgress(saved: map<string, seq<Block>>, passes: seq<seq<string>>)
    requires Execution(saved, passes) && AfterPasses(Begin(saved), passes).lost == {}
    ensures var p := AfterPasses(Begin(saved), passes);
      |p.history| >= |passes| || (Halted(p) && Idle(AfterPasses(Begin(saved), passes[..|passes| - 1]), p))
    decreases |passes|
  {
    hide Begin, Pass, VisitAll, Halted;
    if passes != [] {
      var n := |passes| - 1;
      var p := AfterPasses(Begin(saved), passes[..n]);
      EarlierPasses(saved, passes);
      PassProgress(p, passes[n]);
      ExecutionProgress(saved, passes[..n]);
      IdleHalted(p, VisitAll(p, passes[n]));
    }
  }

  lemma EarlierPasses(saved: map<string, seq<Block>>, passes: seq<seq<string>>)
    requires Execution(saved, passes) && passes != []
    ensures var n := |passes| - 1; Execution(saved, passes[..n]) && Pass(AfterPasses(Begin(saved), passes[..n]), passes[n])
  {
    hide Pass, AfterPasses, Begin;
    var n := |passes| - 1;
    forall i | 0 <= i < n ensures Pass(AfterPasses(Begin(saved), passes[..n][..i]), passes[..n][i]) {
      assert passes[..n][..i] == passes[..i];
    }
  }

  lemma IdleHalted(p: Progress, q: Progress)
    ensures Idle(p, q) ==> (Halted(p) <==> Halted(q))
  {
    hide Ready;
  }

  // ---------------------------------------------------------------- replays that can be completed

  /** What has been replayed is the beginning of a schedule for everything. */
  lemma {:induction false} Remaining(w: World, b: Backlog, history: seq<string>, order: seq<string>, end: World)
    returns (rest: seq<string>)
    requires Inv(w) && WellFormedBacklog(b) && Completes(w, b, order, end) && Leads(w, b, history).Some?
    ensures var (v, a) := Leads(w, b, history).value;
      Completes(v, a, rest, end) && |rest| + |history| == |order| && Inv(v) && WellFormedBacklog(a)
    decreases |history|
  {
    hide Inv, BlockStep, OfChain;
    rest := order;
    if history != [] {
      var c := history[0];
      BacklogHead(b, c);
      BlockStepInv(w, c, b[c][0]);
      rest := ReplayFirst(w, b, order, end, c);
      rest := Remaining(BlockStep(w, c, b[c][0]).value, Advance(b, c), history[1..], rest, end);
    }
  }

  lemma NoneLeft(w: World, b: Backlog, order: seq<string>, end: World)
    requires Completes(w, b, order, end) && forall c :: !Ready(w, b, c)
    ensures w == end && forall c :: !Pending(b, c)
  {
    hide BlockStep;
    if order != [] && !Ready(w, b, order[0]) {
      assert false;
    }
  }

  /** A replay that lost nothing and has run for long enough is complete, if any schedule is. */
  lemma LongEnough(saved: map<string, seq<Block>>, passes: seq<seq<string>>, order: seq<string>, end: World)
    requires WellFormedBacklog(ReplayBacklog(saved)) && Completes(GENESIS, ReplayBacklog(saved), order, end)
    requires Execution(saved, passes) && |passes| > |order| && AfterPasses(Begin(saved), passes).lost == {}
    ensures var p := AfterPasses(Begin(saved), passes);
      && p.world == end && (forall c :: !Pending(p.left, c))
      && Idle(AfterPasses(Begin(saved), passes[..|passes| - 1]), p)
  {
    hide Inv, AfterPasses, Begin, Leads, Completes, WellFormedBacklog, ReplayBacklog, Ready, Execution;
    var p := AfterPasses(Begin(saved), passes);
    BeginLogged(saved);
    PassesLogged(saved, Begin(saved), passes);
    ExecutionProgress(saved, passes);
    GenesisInv();
    var rest := Remaining(GENESIS, ReplayBacklog(saved), p.history, order, end);
    NoneLeft(p.world, p.left, rest, end);
  }

  /** A replay that lost nothing and has nothing left is a schedule. */
  lemma {:induction false} LeadsCompletes(w: World, b: Backlog, order: seq<string>)
    requires Leads(w, b, order).Some? && forall c :: !Pending(Leads(w, b, order).value.1, c)
    ensures Completes(w, b, order, Leads(w, b, order).value.0)
    decreases |order|
  {
    hide BlockStep;
    if order != [] {
      var c := order[0];
      LeadsCompletes(BlockStep(w, c, b[c][0]).value, Advance(b, c), order[1..]);
    }
  }

  // ---------------------------------------------------------------- when nothing can be lost

  ghost predicate AloneIn(b: Backlog) {
    forall c, i :: c in b && 0 <= i < |b[c]| ==> CreatesAlone(b[c][i])
  }

  lemma {:induction false} LeadsAlone(w: World, b: Backlog, order: seq<string>)
    requires AloneIn(b) && Leads(w, b, order).Some?
    ensures AloneIn(Leads(w, b, order).value.1)
    decreases |order|
  {
    hide BlockStep, CreatesAlone;
    if order != [] {
      var c := order[0];
      LeadsAlone(BlockStep(w, c, b[c][0]).value, Advance(b, c), order[1..]);
    }
  }

  /** When stored blocks that create tokens do nothing else and the store can be replayed at all, no replay of
      it loses anything. */
  lemma NothingLost(saved: map<string, seq<Block>>, p: Progress, order: seq<string>, end: World)
    requires WellFormedBacklog(ReplayBacklog(saved)) && Completes(GENESIS, ReplayBacklog(saved), order, end)
    requires AloneIn(ReplayBacklog(saved)) && Logged(saved, p)
    ensures p.lost == {}
  {
    hide Inv, Leads, Completes, WellFormedBacklog, ReplayBacklog, AloneIn;
    if p.lost != {} {
      GenesisInv();
      var rest := Remaining(GENESIS, ReplayBacklog(saved), p.refusal, order, end);
      LeadsAlone(GENESIS, ReplayBacklog(saved), p.refusal);
      var (w, b) := Leads(GENESIS, ReplayBacklog(saved), p.refusal).value;
      AloneIsReady(saved, w, b, rest, end);
    }
  }

  lemma AloneIsReady(saved: map<string, seq<Block>>, w: World, b: Backlog, order: seq<string>, end: World)
    requires Inv(w) && WellFormedBacklog(b) && AloneIn(b) && Completes(w, b, order, end) && Pending(b, MATCH_CHAIN)
    requires StoredOf(saved, CreatedIn(b[MATCH_CHAIN][0][..Accepted(w, b[MATCH_CHAIN][0])])) != {}
    ensures Ready(w, b, MATCH_CHAIN)
  {
    hide Completes, WellFormedBacklog, Run, Accepted;
    var ops := b[MATCH_CHAIN][0];
    assert CreatesAlone(ops);
    var n := Accepted(w, ops);
    var s :| s in StoredOf(saved, CreatedIn(ops[..n]));
    assert exists i :: 0 <= i < n && ops[..n][i].CreateOp?;
    CreateBlockReady(w, b, order, end);
  }

  // ---------------------------------------------------------------- when something is always lost

  /** What the first visit loses: at first only the MATCH chain is open. */
  function FirstLoss(saved: map<string, seq<Block>>): set<string> {
    Visit(Begin(saved), MATCH_CHAIN).lost
  }

  /** The first visit of any execution is to the MATCH chain, so that what it loses is always lost. */
  lemma FirstLossIsLost(saved: map<string, seq<Block>>, passes: seq<seq<string>>)
    requires WellFormedBacklog(ReplayBacklog(saved)) && Execution(saved, passes) && passes != []
    ensures FirstLoss(saved) <= AfterPasses(Begin(saved), passes).lost
  {
    hide Visit, Logged, WellFormedBacklog, ReplayBacklog;
    var p, visits := Begin(saved), passes[0];
    BeginLogged(saved);
    assert passes[..0] == [] && Pass(AfterPasses(p, passes[..0]), passes[0]);
    assert MATCH_CHAIN in visits;
    assert visits[..0] == [] && visits[0] in VisitAll(p, visits[..0]).world.ledger.tokens;
    FirstOf(saved, p, visits);
    PassesFrom(saved, p, passes, 1);
    assert passes[..1][..0] == [];
  }

  lemma {:induction false} FirstOf(saved: map<string, seq<Block>>, p: Progress, visits: seq<string>)
    requires Logged(saved, p) && visits != []
    ensures Visit(p, visits[0]).lost <= VisitAll(p, visits).lost
    decreases |visits|
  {
    hide Logged, Visit;
    var n := |visits| - 1;
    if n == 0 {
      assert visits[..0] == [];
    } else {
      FirstOf(saved, p, visits[..n]);
      VisitsLogged(saved, p, visits[..n]);
      VisitLogged(saved, VisitAll(p, visits[..n]), visits[n]);
    }
  }

  lemma {:induction false} PassesFrom(saved: map<string, seq<Block>>, p: Progress, passes: seq<seq<string>>, k: nat)
    requires Logged(saved, p) && k <= |passes|
    ensures AfterPasses(p, passes[..k]).lost <= AfterPasses(p, passes).lost
    decreases |passes|
  {
    hide Logged, VisitAll;
    var n := |passes| - 1;
    if k <= n {
      PassesFrom(saved, p, passes[..n], k);
      assert passes[..n][..k] == passes[..k];
      PassesLogged(saved, p, passes[..n]);
      VisitsLogged(saved, AfterPasses(p, passes[..n]), passes[n]);
    } else {
      assert passes[..k] == passes;
    }
  }

  /** No order is open. */
  ghost predicate NoOrders(w: World) {
    forall s :: s in w.ledger.tokens ==> w.ledger.tokens[s].open == map[]
  }

  predicate OnlyCreates(ops: Program) {
    forall i :: 0 <= i < |ops| ==> ops[i].CreateOp?
  }

  lemma {:induction false} CreatesOpenNothing(w: World, ops: Program)
    requires NoOrders(w) && OnlyCreates(ops) && Run(w, ops).Some?
    ensures NoOrders(Run(w, ops).value)
    decreases |ops|
  {
    if ops != [] {
      CreatesOpenNothing(Step(w, ops[0]).value, ops[1..]);
    }
  }

  lemma {:induction false} AcceptedUpTo(w: World, ops: Program, n: nat)
    requires n < |ops| && Run(w, ops[..n]).Some? && Step(Run(w, ops[..n]).value, ops[n]).None?
    ensures Accepted(w, ops) == n && Run(w, ops).None?
    decreases |ops|
  {
    hide Step;
    if n > 0 {
      assert ops[..n][0] == ops[0] && ops[..n][1..] == ops[1..][..n - 1];
      AcceptedUpTo(Step(w, ops[0]).value, ops[1..], n - 1);
    } else {
      assert ops[..0] == [];
    }
  }

  /** Without open orders no match is accepted. */
  lemma NoMatchWithoutOrders(w: World, m: Match)
    requires NoOrders(w)
    ensures Step(w, MatchOp(m)).None?
  {}

  /** The MATCH chain begins with k blocks that only create tokens, and then comes one that creates tokens and
      makes a match. */
  ghost predicate MixedAfter(blocks: seq<Program>, k: nat, n: nat) {
    && k < |blocks| && (forall i :: 0 <= i < k ==> OnlyCreates(blocks[i]))
    && n < |blocks[k]| && OnlyCreates(blocks[k][..n]) && blocks[k][n].MatchOp?
  }

  lemma {:induction false} MixedIsRefused(p: Progress, k: nat, n: nat)
    requires NoOrders(p.world) && MATCH_CHAIN in p.world.ledger.tokens && Inv(p.world)
    requires MixedAfter(Queue(p.left, MATCH_CHAIN), k, n)
    requires WellFormedBacklog(p.left)
    requires var q := Queue(p.left, MATCH_CHAIN); Run(p.world, Joined(q[..k]) + q[k][..n]).Some?
    ensures StoredOf(p.contents, CreatedIn(Queue(p.left, MATCH_CHAIN)[k][..n])) <= Visit(p, MATCH_CHAIN).lost
    decreases k
  {
    hide Inv, Run, Step, OnlyCreates, OfChain, NoOrders;
    var q: seq<Program> := Queue(p.left, MATCH_CHAIN);
    if k == 0 {
      assert q[..0] == [];
      assert [] + q[0][..n] == q[0][..n];
      CreatesOpenNothing(p.world, q[0][..n]);
      NoMatchWithoutOrders(Run(p.world, q[0][..n]).value, q[0][n].m);
      AcceptedUpTo(p.world, q[0], n);
    } else {
      var rest := Joined(q[1..k]) + q[k][..n];
      assert q[..k][0] == q[0] && q[..k][1..] == q[1..k];
      assert Joined(q[..k]) + q[k][..n] == q[0] + rest;
      RunConcat(p.world, q[0], rest);
      CreatesOpenNothing(p.world, q[0]);
      BacklogHead(p.left, MATCH_CHAIN);
      BlockStepInv(p.world, MATCH_CHAIN, q[0]);
      OfOneChain(q[0], "", MATCH_CHAIN);
      TokensStay(p.world, q[0], MATCH_CHAIN);
      assert q[1..][..k - 1] == q[1..k] && q[1..][k - 1] == q[k];
      MixedIsRefused(Replay(p, MATCH_CHAIN), k - 1, n);
    }
  }

  /** When the first block of the MATCH chain that makes a match also creates tokens, every restart loses the
      chains of those tokens. */
  lemma MixedBlockLoses(saved: map<string, seq<Block>>, passes: seq<seq<string>>, k: nat, n: nat)
    requires WellFormedBacklog(ReplayBacklog(saved)) && Execution(saved, passes) && passes != []
    requires MixedAfter(Replayed(MATCH_CHAIN, Saved(saved, MATCH_CHAIN)), k, n)
    requires var q := Replayed(MATCH_CHAIN, Saved(saved, MATCH_CHAIN)); Run(GENESIS, Joined(q[..k]) + q[k][..n]).Some?
    ensures var q := Replayed(MATCH_CHAIN, Saved(saved, MATCH_CHAIN));
      StoredOf(saved, CreatedIn(q[k][..n])) <= AfterPasses(Begin(saved), passes).lost
  {
    hide AfterPasses, Execution, Visit, Run, MixedAfter, Joined, CreatedIn, StoredOf, DataOps;
    GenesisInv();
    hide Inv;
    assert Queue(ReplayBacklog(saved), MATCH_CHAIN) == Replayed(MATCH_CHAIN, Saved(saved, MATCH_CHAIN));
    MixedIsRefused(Begin(saved), k, n);
    FirstLossIsLost(saved, passes);
  }
}
