/** How far the MATCH chain has to be rolled back before an order can be: the count that the ledger keeps
    for an order is the number of matches on the MATCH chain that name it. */
module Cascade {
  import opened Amounts
  import opened Transactions
  import opened TokenLedger
  import opened Ledgers
  import opened Commutation
  import opened Schedules
  import opened Timelines
  import opened OrderHistory

  /** How many of the transactions are matches that name the order. */
  function NameCount(ops: seq<Op>, s: string, id: u64): nat
    decreases |ops|
  {
    if ops == [] then 0
    else
      var o := ops[|ops| - 1];
      NameCount(ops[..|ops| - 1], s, id) + (if o.MatchOp? && Names(o.m, s, id) then 1 else 0)
  }

  function NamesIn(blocks: seq<Program>, s: string, id: u64): nat
    decreases |blocks|
  {
    if blocks == [] then 0
    else NamesIn(blocks[..|blocks| - 1], s, id) + NameCount(blocks[|blocks| - 1], s, id)
  }

  lemma {:induction false} FillsAreNames(ops: seq<Op>, w: World, s: string, id: u64)
    requires AllWellFormed(ops) && Run(GENESIS, ops) == Some(w)
    ensures LifeOf(ops, s, id).fills == NameCount(ops, s, id)
    decreases |ops|
  {
    hide Inv, WellFormed, Step, AgreesIn;
    if ops != [] {
      var n := |ops| - 1;
      RunSnoc(GENESIS, ops);
      var before := Run(GENESIS, ops[..n]).value;
      FillsAreNames(ops[..n], before, s, id);
      LedgerAgrees(ops[..n], before, s, id);
      var o := ops[n];
      if o.TokenOp? && o.symbol == s && o.tx.Place? && o.tx.order.id == id {
        NewOrderUnknown(before, o, s, id, LifeOf(ops[..n], s, id));
      }
    }
  }

  /** An order that can be placed has had no life before. */
  lemma NewOrderUnknown(w: World, op: Op, s: string, id: u64, h: Life)
    requires AgreesIn(w, s, id, h) && Step(w, op).Some?
    requires op.TokenOp? && op.symbol == s && op.tx.Place? && op.tx.order.id == id
    ensures h == UNKNOWN
  {}

  lemma {:induction false} NamesConcat(a: seq<Op>, b: seq<Op>, s: string, id: u64)
    ensures NameCount(a + b, s, id) == NameCount(a, s, id) + NameCount(b, s, id)
    decreases |b|
  {
    if b == [] {
      assert a + b == a;
    } else {
      assert (a + b)[..|a + b| - 1] == a + b[..|b| - 1];
      NamesConcat(a, b[..|b| - 1], s, id);
    }
  }

  lemma {:induction false} OnlyMatchesName(ops: seq<Op>, c: string, s: string, id: u64)
    requires OfChain(ops, c) && c != MATCH_CHAIN
    ensures NameCount(ops, s, id) == 0
    decreases |ops|
  {
    if ops != [] {
      OnlyMatchesName(ops[..|ops| - 1], c, s, id);
    }
  }

  lemma {:induction false} NamesOfTimeline(t: Timeline, s: string, id: u64)
    requires WellFormedTimeline(t)
    ensures NameCount(Flat(t), s, id) == NamesIn(BlocksOf(t, MATCH_CHAIN), s, id)
    decreases |t|
  {
    if t != [] {
      var n := |t| - 1;
      NamesOfTimeline(t[..n], s, id);
      NamesConcat(Flat(t[..n]), t[n].ops, s, id);
      if t[n].chain == MATCH_CHAIN {
        var b := BlocksOf(t[..n], MATCH_CHAIN);
        assert (b + [t[n].ops])[..|b|] == b;
      } else {
        OnlyMatchesName(t[n].ops, t[n].chain, s, id);
        assert BlocksOf(t, MATCH_CHAIN) == BlocksOf(t[..n], MATCH_CHAIN);
      }
    }
  }

  /** The count that the ledger keeps for an order is the number of matches on the MATCH chain that
      name it. */
  lemma CountIsNames(t: Timeline, w: World, s: string, id: u64)
    requires Replays(t, w) && s in w.ledger.tokens
    ensures Count(w.ledger.tokens[s], id) == NamesIn(BlocksOf(t, MATCH_CHAIN), s, id)
  {
    hide Run, Flat, BlocksOf, NameCount, LifeOf, Worth;
    FlatWellFormed(t);
    LedgerAgrees(Flat(t), w, s, id);
    FillsAreNames(Flat(t), w, s, id);
    NamesOfTimeline(t, s, id);
    ReplayInv(t, w);
  }

  lemma NamesSnoc(blocks: seq<Program>, ops: Program, s: string, id: u64)
    ensures NamesIn(blocks + [ops], s, id) == NamesIn(blocks, s, id) + NameCount(ops, s, id)
  {
    assert (blocks + [ops])[..|blocks|] == blocks;
  }

  /** When the first n blocks name an order and the first n - 1 do not, it is the n-th that does. */
  lemma LastNames(blocks: seq<Program>, n: nat, s: string, id: u64)
    requires 0 < n <= |blocks| && NamesIn(blocks[..n], s, id) > 0 && NamesIn(blocks[..n - 1], s, id) == 0
    ensures NameCount(blocks[n - 1], s, id) > 0
  {
    assert blocks[..n] == blocks[..n - 1] + [blocks[n - 1]];
    NamesSnoc(blocks[..n - 1], blocks[n - 1], s, id);
  }
}
