/** The matches of all books together.  A search visits the books one after the other and takes the matches
    of each from the book alone; the ledger accepts them all in a row. */
module Findings {
  import opened Amounts
  import opened Transactions
  import opened Ledgers
  import opened Commutation
  import opened Timelines
  import opened Orderbooks
  import opened Agreement

  /** The two symbols of a book, the base symbol first. */
  datatype Pair = Pair(base: string, quote: string)

  ghost predicate Canonical(p: Pair) {
    p.base != p.quote && GetBaseQuote(p.base, p.quote) == (p.base, p.quote)
  }

  /** The matches that were found in one book. */
  datatype Finding = Finding(pair: Pair, matches: seq<Match>)

  function ImpliedBook(l: Ledger, p: Pair): Book {
    BookOf(l, p.base, p.quote)
  }

  ghost predicate FoundIn(l: Ledger, f: Finding) {
    Canonical(f.pair) && AllFitting(ImpliedBook(l, f.pair), f.matches, f.pair.base, f.pair.quote)
  }

  ghost predicate OneEach(fs: seq<Finding>) {
    forall i, j :: 0 <= i < j < |fs| ==> fs[i].pair != fs[j].pair
  }

  function MatchesOf(fs: seq<Finding>): seq<Match> {
    if fs == [] then [] else MatchesOf(fs[..|fs| - 1]) + fs[|fs| - 1].matches
  }

  // ---------------------------------------------------------------- one book leaves the others alone

  lemma OtherBookStays(v: World, a: Book, m: Match, p: Pair, q: Pair)
    requires Inv(v) && AllPositive(v.ledger) && Canonical(p) && Canonical(q) && p != q
    requires ImpliedBook(v.ledger, p) == LiveBook(a) && Fitting(a, m, p.base, p.quote) && m.matchId !in v.ledger.usedMatches
    ensures Step(v, MatchOp(m)).Some?
    ensures ImpliedBook(Step(v, MatchOp(m)).value.ledger, q) == ImpliedBook(v.ledger, q)
  {
    hide Inv, AllPositive, Fitting, BookOf, LiveBook, ValidMatch, GetBaseQuote, AddMatch;
    OnlyLiveMatters(a, m, p.base, p.quote);
    FittingNames(a, m, p.base, p.quote);
    FittingIsValid(v, m, p.base, p.quote);
    MatchSteps(v, m);
    OtherBooks(v, m, q.base, q.quote);
  }

  /** The matches of one book leave every other book as it was. */
  lemma {:induction false} OtherBooksStay(w: World, ms: seq<Match>, p: Pair, q: Pair)
    requires Inv(w) && AllPositive(w.ledger) && FoundIn(w.ledger, Finding(p, ms)) && FreshIds(w.ledger, ms)
    requires Canonical(q) && p != q
    ensures Run(w, MatchOps(ms)).Some?
    ensures ImpliedBook(Run(w, MatchOps(ms)).value.ledger, q) == ImpliedBook(w.ledger, q)
    decreases |ms|
  {
    hide Inv, AllPositive, Run, BookOf, LiveBook, MatchOps, AllFitting, Fitting, After, FreshIds, GetBaseQuote;
    var b := ImpliedBook(w.ledger, p);
    if ms == [] {
      NoMatches(w, b, p.base, p.quote);
    } else {
      var n := |ms| - 1;
      FittingPrefix(b, ms, n, p.base, p.quote);
      FreshPrefix(w.ledger, ms, n);
      FinderRefinesValidator(w, b, ms[..n], p.base, p.quote);
      OtherBooksStay(w, ms[..n], p, q);
      var v := Run(w, MatchOps(ms[..n])).value;
      OtherBookStays(v, After(b, ms[..n]), ms[n], p, q);
      RunMatches(w, v, ms, n);
    }
  }

  // ---------------------------------------------------------------- all books

  lemma FreshParts(l: Ledger, a: seq<Match>, b: seq<Match>, used: set<u64>)
    requires FreshIds(l, a + b) && used == l.usedMatches + IdsOf(a)
    ensures FreshIds(l, a)
    ensures forall l': Ledger :: l'.usedMatches == used ==> FreshIds(l', b)
    ensures IdsOf(a + b) == IdsOf(a) + IdsOf(b)
  {
    forall i | 0 <= i < |a| ensures (a + b)[i] == a[i] {}
    forall i | 0 <= i < |b| ensures (a + b)[|a| + i] == b[i] {}
    assert forall id :: id in IdsOf(a + b) ==> id in IdsOf(a) || id in IdsOf(b);
    forall id | id in IdsOf(b) ensures id in IdsOf(a + b) {
      var i :| 0 <= i < |b| && b[i].matchId == id;
      assert (a + b)[|a| + i].matchId == id;
    }
    forall id | id in IdsOf(a) ensures id in IdsOf(a + b) {
      var i :| 0 <= i < |a| && a[i].matchId == id;
      assert (a + b)[i].matchId == id;
    }
  }

  /** What the findings make of the book of a pair. */
  function BookAfter(l: Ledger, fs: seq<Finding>, p: Pair): Book {
    if fs == [] then ImpliedBook(l, p)
    else
      var f := fs[|fs| - 1];
      if f.pair == p then LiveBook(After(ImpliedBook(l, p), f.matches)) else BookAfter(l, fs[..|fs| - 1], p)
  }

  lemma {:induction false} NotYetFound(l: Ledger, fs: seq<Finding>, p: Pair)
    requires forall i :: 0 <= i < |fs| ==> fs[i].pair != p
    ensures BookAfter(l, fs, p) == ImpliedBook(l, p)
    decreases |fs|
  {
    if fs != [] {
      NotYetFound(l, fs[..|fs| - 1], p);
    }
  }

  lemma MatchOpsConcat(a: seq<Match>, b: seq<Match>)
    ensures MatchOps(a + b) == MatchOps(a) + MatchOps(b)
  {}

  /** The findings in any books, taken one book after the other, are accepted in sequence, and each book is
      what its own findings make of it. */
  lemma {:induction false} AllFindingsAccepted(w: World, fs: seq<Finding>)
    requires Inv(w) && AllPositive(w.ledger) && OneEach(fs) && FreshIds(w.ledger, MatchesOf(fs))
    requires forall i :: 0 <= i < |fs| ==> FoundIn(w.ledger, fs[i])
    ensures Run(w, MatchOps(MatchesOf(fs))).Some?
    ensures var w' := Run(w, MatchOps(MatchesOf(fs))).value;
      && Inv(w') && AllPositive(w'.ledger) && w'.ledger.usedMatches == w.ledger.usedMatches + IdsOf(MatchesOf(fs))
      && forall p :: Canonical(p) ==> ImpliedBook(w'.ledger, p) == BookAfter(w.ledger, fs, p)
    decreases |fs|
  {
    hide Inv, AllPositive, Run, MatchOps, ImpliedBook, FoundIn, FreshIds, Canonical, LiveBook, After, IdsOf;
    if fs == [] {
      NothingFound(w);
    } else {
      var n := |fs| - 1;
      var init, f := fs[..n], fs[n];
      var before := MatchesOf(init);
      FreshParts(w.ledger, before, f.matches, w.ledger.usedMatches + IdsOf(before));
      AllFindingsAccepted(w, init);
      var v := Run(w, MatchOps(before)).value;
      FoundParts(w.ledger, f);
      NotYetFound(w.ledger, init, f.pair);
      assert ImpliedBook(v.ledger, f.pair) == ImpliedBook(w.ledger, f.pair);
      StillFound(w.ledger, v.ledger, f);
      NextFinding(v, f);
      MatchOpsConcat(before, f.matches);
      RunConcat(w, MatchOps(before), MatchOps(f.matches));
      var w' := Run(v, MatchOps(f.matches)).value;
      forall p | Canonical(p) ensures ImpliedBook(w'.ledger, p) == BookAfter(w.ledger, fs, p) {
        if p != f.pair {
          OtherBooksStay(v, f.matches, f.pair, p);
        }
      }
    }
  }

  lemma NothingFound(w: World)
    ensures Run(w, MatchOps([])) == Some(w) && IdsOf([]) == {}
  {}

  lemma FoundParts(l: Ledger, f: Finding)
    requires FoundIn(l, f)
    ensures Canonical(f.pair)
  {}

  lemma StillFound(l: Ledger, l': Ledger, f: Finding)
    requires FoundIn(l, f) && ImpliedBook(l', f.pair) == ImpliedBook(l, f.pair)
    ensures FoundIn(l', f) && f == Finding(f.pair, f.matches)
  {}

  lemma NextFinding(v: World, f: Finding)
    requires Inv(v) && AllPositive(v.ledger) && FoundIn(v.ledger, f) && FreshIds(v.ledger, f.matches)
    ensures Run(v, MatchOps(f.matches)).Some?
    ensures var w' := Run(v, MatchOps(f.matches)).value;
      && Inv(w') && AllPositive(w'.ledger) && w'.ledger.usedMatches == v.ledger.usedMatches + IdsOf(f.matches)
      && ImpliedBook(w'.ledger, f.pair) == LiveBook(After(ImpliedBook(v.ledger, f.pair), f.matches))
  {
    hide Inv, AllPositive, Run, MatchOps, BookOf, AllFitting, FreshIds, GetBaseQuote, LiveBook, After, IdsOf;
    FinderRefinesValidator(v, ImpliedBook(v.ledger, f.pair), f.matches, f.pair.base, f.pair.quote);
  }
}
