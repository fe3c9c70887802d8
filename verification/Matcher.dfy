/** The matcher keeps one order book for every pair of symbols that it has seen, under the greater symbol
    and then the smaller one. */
module Matchers {
  import opened Amounts
  import opened Transactions
  import opened Fills
  import opened TokenLedger
  import opened Ledgers
  import opened OrderQueues
  import opened Orderbooks
  import opened Findings

  lemma PairNames(a: string, b: string)
    requires Precedes(b, a)
    ensures GetBaseQuote(a, b) == (a, b) && GetBaseQuote(b, a) == (a, b)
  {
    OneWayOnly(a, b);
  }

  lemma BaseIsGreater(a: string, b: string)
    requires a != b
    ensures var (base, quote) := GetBaseQuote(a, b); Precedes(quote, base) && {base, quote} == {a, b}
  {
    OneWayOnly(a, b);
  }

  // ---------------------------------------------------------------- books that share nothing

  type Books = map<Pair, Orderbook>

  /** All objects of the books. */
  ghost function Footprint(books: Books): set<object>
    reads *
  {
    set p, o: object | p in books && o in books[p].Repr() :: o
  }

  /** Every book is in order and is the book of its pair, and no two share an object. */
  ghost predicate InOrder(books: Books)
    reads *
  {
    && (forall p :: p in books ==> books[p].Open() && books[p].BaseSymbol == p.base && books[p].QuoteSymbol == p.quote)
    && (forall p, q :: p in books && q in books && p != q ==> books[p].Repr() !! books[q].Repr())
  }

  const NO_ORDERS: Book := Book(map[], map[])

  ghost function OrdersOf(books: Books, p: Pair): Book
    reads *
  {
    if p in books then books[p].Orders() else NO_ORDERS
  }

  /** Nothing of the books has changed. */
  twostate lemma BooksStill(books: Books)
    requires Untouched(old(Footprint(books))) && old(InOrder(books))
    ensures InOrder(books) && Footprint(books) == old(Footprint(books))
    ensures forall p :: OrdersOf(books, p) == old(OrdersOf(books, p))
    ensures forall p :: p in books ==> books[p].Dirty == old(books[p].Dirty) && books[p].Repr() == old(books[p].Repr())
  {
    hide Orderbook.Open, Orderbook.Orders, Orderbook.Repr;
    forall p | p in books
      ensures books[p].Open() && books[p].Orders() == old(books[p].Orders()) && books[p].Repr() == old(books[p].Repr())
      ensures books[p].Dirty == old(books[p].Dirty)
    {
      InFootprint(books, p);
      books[p].StillWhenUnchanged();
      books[p].StillMeans();
    }
  }

  twostate lemma FootprintAllocated(books: Books)
    ensures forall o :: o in old(Footprint(books)) ==> old(allocated(o))
  {
    hide Orderbook.Repr;
    forall p | p in books ensures forall o :: o in old(books[p].Repr()) ==> old(allocated(o)) {
      books[p].ReprAllocated();
    }
  }

  twostate lemma InFootprint(books: Books, new p: Pair)
    requires p in books
    ensures old(books[p].Repr()) <= old(Footprint(books))
  {
    hide Orderbook.Repr;
  }

  twostate lemma UntouchedPart(new part: set<object>, new objects: set<object>)
    requires part <= objects && Untouched(objects)
    ensures Untouched(part)
  {}

  /** One book has changed, and the others have not. */
  twostate lemma OneBook(books: Books, new p: Pair, new extra: set<object>)
    requires p in books && Untouched(old(Footprint(books)) - old(books[p].Repr()))
    requires fresh(books[p].Repr() - old(books[p].Repr()) - extra) && extra !! old(Footprint(books))
    requires old(InOrder(books)) && books[p].Open()
    ensures InOrder(books)
    ensures forall q :: q != p ==> OrdersOf(books, q) == old(OrdersOf(books, q))
    ensures forall q :: q in books && q != p ==> books[q].Dirty == old(books[q].Dirty)
    ensures fresh(Footprint(books) - old(Footprint(books)) - extra)
  {
    hide Orderbook.Open, Orderbook.Orders, Orderbook.Repr;
    forall q | q in books && q != p
      ensures books[q].Open() && books[q].Orders() == old(books[q].Orders()) && books[q].Repr() == old(books[q].Repr())
      ensures books[q].Dirty == old(books[q].Dirty)
    {
      InFootprint(books, q);
      UntouchedPart(old(books[q].Repr()), old(Footprint(books)) - old(books[p].Repr()));
      books[q].StillWhenUnchanged();
      books[q].StillMeans();
    }
    InFootprint(books, p);
    forall q | q in books ensures forall o :: o in old(books[q].Repr()) ==> old(allocated(o)) {
      books[q].ReprAllocated();
    }
    forall q, r | q in books && r in books && q != r ensures books[q].Repr() !! books[r].Repr() {
      if q == p {
        InFootprint(books, r);
      } else if r == p {
        InFootprint(books, q);
      }
    }
  }

  /** One book more, without orders and with objects of its own. */
  lemma BookMore(books: Books, p: Pair, book: Orderbook)
    requires InOrder(books) && p !in books && book.Blank() && book.BaseSymbol == p.base && book.QuoteSymbol == p.quote
    requires book.Repr() !! Footprint(books)
    ensures InOrder(books[p := book]) && Footprint(books[p := book]) == Footprint(books) + book.Repr()
    ensures forall q :: OrdersOf(books[p := book], q) == OrdersOf(books, q)
  {
    hide Orderbook.Open, Orderbook.Orders, Orderbook.Repr, Orderbook.Blank;
    book.BlankIsOpen();
    forall q | q in books ensures books[q].Repr() <= Footprint(books) {}
  }

  // ---------------------------------------------------------------- the nested maps of books

  function BooksIn(orderbooks: map<string, map<string, Orderbook>>): Books {
    map a, b | a in orderbooks && b in orderbooks[a] :: Pair(a, b) := orderbooks[a][b]
  }

  lemma BookPut(orderbooks: map<string, map<string, Orderbook>>, a: string, b: string, book: Orderbook)
    requires a in orderbooks
    ensures BooksIn(orderbooks[a := orderbooks[a][b := book]]) == BooksIn(orderbooks)[Pair(a, b) := book]
  {}

  lemma NoBooksOf(orderbooks: map<string, map<string, Orderbook>>, a: string)
    requires a !in orderbooks
    ensures BooksIn(orderbooks[a := map[]]) == BooksIn(orderbooks)
  {
    hide BooksIn;
    var after := orderbooks[a := map[]];
    forall p ensures p in BooksIn(after) <==> p in BooksIn(orderbooks) {
      BookAt(after, p);
      BookAt(orderbooks, p);
    }
    forall p | p in BooksIn(orderbooks) ensures BooksIn(after)[p] == BooksIn(orderbooks)[p] {
      BookAt(after, p);
      BookAt(orderbooks, p);
    }
  }

  lemma BookAt(orderbooks: map<string, map<string, Orderbook>>, p: Pair)
    ensures p in BooksIn(orderbooks) <==> p.base in orderbooks && p.quote in orderbooks[p.base]
    ensures p in BooksIn(orderbooks) ==> BooksIn(orderbooks)[p] == orderbooks[p.base][p.quote]
  {
    if p.base in orderbooks && p.quote in orderbooks[p.base] {
      assert p == Pair(p.base, p.quote);
    }
  }

  /** All pairs of these symbols. */
  function PairsOf(symbols: set<string>): set<Pair> {
    set a, b | a in symbols && b in symbols && Precedes(b, a) :: Pair(a, b)
  }

  function PairOf(symbol1: string, symbol2: string): Pair {
    var names := GetBaseQuote(symbol1, symbol2);
    Pair(names.0, names.1)
  }

  function PairsWith(newSymbol: string, others: set<string>): set<Pair> {
    set s | s in others :: PairOf(newSymbol, s)
  }

  lemma PairsMore(symbols: set<string>, newSymbol: string)
    requires newSymbol !in symbols
    ensures PairsOf(symbols + {newSymbol}) == PairsOf(symbols) + PairsWith(newSymbol, symbols)
  {
    hide Precedes;
    forall a, b | a in symbols + {newSymbol} && b in symbols + {newSymbol} && Precedes(b, a)
      ensures Pair(a, b) in PairsOf(symbols) + PairsWith(newSymbol, symbols)
    {
      PairNames(a, b);
      OneWayOnly(a, b);
      if a == newSymbol {
        assert PairOf(newSymbol, b) in PairsWith(newSymbol, symbols);
      } else if b == newSymbol {
        assert PairOf(newSymbol, a) in PairsWith(newSymbol, symbols);
      }
    }
    forall s | s in symbols ensures PairOf(newSymbol, s) in PairsOf(symbols + {newSymbol}) {
      BaseIsGreater(newSymbol, s);
    }
  }

  lemma NoPairs(newSymbol: string)
    ensures PairsWith(newSymbol, {}) == {}
  {}

  lemma PairsWithMore(newSymbol: string, done: set<string>, s: string, known: set<string>)
    requires s !in done && newSymbol !in known && s in known && done <= known
    ensures PairsWith(newSymbol, done + {s}) == PairsWith(newSymbol, done) + {PairOf(newSymbol, s)}
    ensures PairOf(newSymbol, s) !in PairsOf(known) + PairsWith(newSymbol, done)
  {
    hide Precedes;
    BaseIsGreater(newSymbol, s);
    forall d | d in done ensures PairOf(newSymbol, d) != PairOf(newSymbol, s) {
      BaseIsGreater(newSymbol, d);
      hide GetBaseQuote;
      var p, q := PairOf(newSymbol, d), PairOf(newSymbol, s);
      assert {p.base, p.quote} == {newSymbol, d} && {q.base, q.quote} == {newSymbol, s};
      assert s in {q.base, q.quote} && s !in {p.base, p.quote};
    }
  }

  class Matcher {
    var orderbooks: map<string, map<string, Orderbook>>
    var symbols: set<string>

    ghost function Books(): Books
      reads this`orderbooks
    {
      BooksIn(orderbooks)
    }

    /** There is a book for any two known symbols, and there are no others. */
    ghost predicate Wired()
      reads this
    {
      orderbooks.Keys == symbols && Books().Keys == PairsOf(symbols)
    }

    ghost predicate Sound()
      reads *
    {
      Wired() && Tidy(symbols)
    }

    /** ... while a symbol is being added. */
    ghost predicate Tidy(known: set<string>)
      reads *
    {
      orderbooks.Keys == known && InOrder(Books()) && this !in Footprint(Books())
    }

    /** The orders in the book of a pair; a pair without a book has none. */
    ghost function OrdersAt(p: Pair): Book
      reads *
    {
      OrdersOf(Books(), p)
    }

    ghost function Objects(): set<object>
      reads *
    {
      Footprint(Books())
    }

    /** The pairs whose books have changed since they were searched last. */
    ghost function DirtyPairs(): set<Pair>
      reads *
    {
      set p | p in Books() && Books()[p].Dirty
    }

    constructor ()
      ensures Sound() && symbols == {} && DirtyPairs() == {} && Books() == map[]
    {
      orderbooks := map[];
      symbols := {};
    }

    /** The orders are what they were, no book has been replaced, and the same books are dirty. */
    twostate predicate KeepsOrders()
      reads *
    {
      && (forall p :: OrdersAt(p) == old(OrdersAt(p))) && DirtyPairs() == old(DirtyPairs())
      && (forall p :: p in old(Books()) ==> p in Books() && Books()[p] == old(Books())[p])
      && (forall o :: o in Objects() ==> o in old(Objects()) || fresh(o))
    }

    lemma SoundParts()
      requires Sound()
      ensures Tidy(orderbooks.Keys) && orderbooks.Keys == symbols && Books().Keys == PairsOf(symbols)
    {}

    lemma SoundWhole()
      requires Tidy(symbols) && Books().Keys == PairsOf(symbols)
      ensures Sound()
    {}

    lemma TidyParts(known: set<string>)
      requires Tidy(known)
      ensures orderbooks.Keys == known && this !in Objects()
    {}

    method addBook(newSymbol: string, oldSymbol: string, ghost known: set<string>)
      requires Tidy(known) && newSymbol in known && oldSymbol in known && newSymbol != oldSymbol
      requires PairOf(newSymbol, oldSymbol) !in Books()
      modifies this`orderbooks
      ensures Tidy(known) && KeepsOrders()
      ensures Books().Keys == old(Books()).Keys + {PairOf(newSymbol, oldSymbol)}
      ensures fresh(Books()[PairOf(newSymbol, oldSymbol)].Repr())
    {
      hide Precedes, GetBaseQuote, Orderbook.Open, Orderbook.Orders, Orderbook.Repr, Orderbook.Blank, BooksIn, InOrder, Footprint;
      ghost var p := PairOf(newSymbol, oldSymbol);
      var (base, quote) := GetBaseQuote(newSymbol, oldSymbol);
      BaseIsGreater(newSymbol, oldSymbol);
      PairNames(base, quote);
      var book := new Orderbook(base, quote);
      BookPut(orderbooks, base, quote, book);
      orderbooks := orderbooks[base := orderbooks[base][quote := book]];
      FootprintAllocated(old(Books()));
      BooksStill(old(Books()));
      BookMore(old(Books()), p, book);
      SameMarks(p, book);
    }

    twostate lemma SameMarks(new p: Pair, new book: Orderbook)
      requires Books() == old(Books())[p := book] && p !in old(Books()) && !book.Dirty
      requires forall q :: q in old(Books()) ==> old(Books())[q].Dirty == old(Books()[q].Dirty)
      ensures DirtyPairs() == old(DirtyPairs())
    {
      hide BooksIn;
    }
  
    /** Nothing has changed but the symbols and the keys of the nested maps. */
    twostate lemma StillTidy(new known: set<string>)
      requires Books() == old(Books()) && orderbooks.Keys == known && Untouched(old(Objects()))
      requires old(Tidy(orderbooks.Keys))
      ensures Tidy(known) && KeepsOrders() && Objects() == old(Objects())
    {
      hide InOrder, OrdersOf, Footprint, BooksIn;
      BooksStill(Books());
      assert DirtyPairs() == old(DirtyPairs());
    }

    /** Make the books of a new symbol, whose map is there already. */
    method addBooks(newSymbol: string)
      requires newSymbol !in symbols && Tidy(symbols + {newSymbol}) && Books().Keys == PairsOf(symbols)
      modifies this`orderbooks
      ensures Tidy(symbols + {newSymbol}) && KeepsOrders()
      ensures Books().Keys == PairsOf(symbols) + PairsWith(newSymbol, symbols)
    {
      hide Precedes, GetBaseQuote, PairsOf, PairsWith, BooksIn, InOrder, Footprint, OrdersOf, PairOf, OrdersAt, Objects, Tidy,
           Sound, Wired;
      var todo := symbols;
      NoPairs(newSymbol);
      assert symbols - todo == {};
      while todo != {}
        invariant todo <= symbols
        invariant Tidy(symbols + {newSymbol}) && KeepsOrders()
        invariant Books().Keys == PairsOf(symbols) + PairsWith(newSymbol, symbols - todo)
        decreases todo
      {
        var oldSymbol := AnySymbol(todo);
        PairsWithMore(newSymbol, symbols - todo, oldSymbol, symbols);
        assert symbols - todo + {oldSymbol} == symbols - (todo - {oldSymbol});
        todo := todo - {oldSymbol};
        addBook(newSymbol, oldSymbol, symbols + {newSymbol});
      }
      assert symbols - todo == symbols;
    }

    /** A new symbol gets an empty book with every symbol known before. */
    method addSymbol(newSymbol: string)
      requires Sound() && newSymbol !in symbols
      modifies this
      ensures Sound() && KeepsOrders() && symbols == old(symbols) + {newSymbol}
    {
      hide Precedes, GetBaseQuote, PairsOf, PairsWith, BooksIn, InOrder, Footprint, OrdersOf, PairOf, OrdersAt, Objects, Tidy,
           Sound, Wired;
      SoundParts();
      TidyParts(symbols);
      NoBooksOf(orderbooks, newSymbol);
      orderbooks := orderbooks[newSymbol := map[]];
      StillTidy(symbols + {newSymbol});
      addBooks(newSymbol);
      PairsMore(symbols, newSymbol);
      TidyParts(symbols + {newSymbol});
      label L:
      symbols := symbols + {newSymbol};
      StillTidy@L(symbols);
      SoundWhole();
    }
  
    /** The book of a pair of symbols, made if one of them is new.  The order in which they are named does
        not matter. */
    method getOrderbook(symbol1: string, symbol2: string) returns (book: Orderbook)
      requires Sound() && symbol1 != symbol2
      modifies this
      ensures Sound() && KeepsOrders() && symbols == old(symbols) + {symbol1, symbol2}
      ensures var p := PairOf(symbol1, symbol2); p in Books() && book == Books()[p] && p == PairOf(symbol2, symbol1)
    {
      hide Precedes, GetBaseQuote, PairsOf, BooksIn, InOrder, Footprint, OrdersOf, OrdersAt, Objects, Tidy, Sound, Wired;
      AllTheSame();
      if symbol1 !in symbols {
        addSymbol(symbol1);
      }
      if symbol2 !in symbols {
        addSymbol(symbol2);
      }
      var (base, quote) := GetBaseQuote(symbol1, symbol2);
      KnownPair(symbol1, symbol2);
      book := orderbooks[base][quote];
    }

    twostate lemma AllTheSame()
      requires unchanged(this) && Objects() == old(Objects()) && DirtyPairs() == old(DirtyPairs())
      requires forall p :: OrdersAt(p) == old(OrdersAt(p))
      ensures KeepsOrders()
    {
      hide Objects, OrdersAt, BooksIn, DirtyPairs;
    }

    lemma KnownPair(symbol1: string, symbol2: string)
      requires Sound() && symbol1 in symbols && symbol2 in symbols && symbol1 != symbol2
      ensures var p := PairOf(symbol1, symbol2);
        && p == PairOf(symbol2, symbol1)
        && p.base in orderbooks && p.quote in orderbooks[p.base] && p in Books() && Books()[p] == orderbooks[p.base][p.quote]
    {
      hide Precedes, GetBaseQuote, InOrder, Footprint, BooksIn;
      BaseIsGreater(symbol1, symbol2);
      SameBook(symbol1, symbol2);
      BookAt(orderbooks, PairOf(symbol1, symbol2));
    }
  
    // -------------------------------------------------------------- one book at a time

    /** One book has changed. */
    twostate lemma Operated(new p: Pair, new extra: set<object>)
      requires old(Sound()) && unchanged(this) && p in Books() && this !in extra && extra !! old(Objects())
      requires Untouched(old(Objects()) - old(Books()[p].Repr()))
      requires forall o :: o in Books()[p].Repr() ==> o in old(Books()[p].Repr()) || fresh(o) || o in extra
      requires Books()[p].Open()
      ensures Sound() && OrdersAt(p) == Books()[p].Orders()
      ensures forall q :: q != p ==> OrdersAt(q) == old(OrdersAt(q))
      ensures forall q :: q in Books() && q != p ==> Books()[q].Dirty == old(Books()[q].Dirty)
      ensures DirtyPairs() == if Books()[p].Dirty then old(DirtyPairs()) + {p} else old(DirtyPairs()) - {p}
      ensures forall o :: o in Objects() ==> o in old(Objects()) || fresh(o) || o in extra
    {
      hide InOrder, Footprint, BooksIn, Orderbook.Open, Orderbook.Repr, Orderbook.Orders, PairsOf;
      OneBook(Books(), p, extra);
    }

    /** The book of a pair, seen from the book. */
    lemma BookOfPair(p: Pair)
      requires Sound() && p in Books()
      ensures var book := Books()[p];
        && book.Open() && book.BaseSymbol == p.base && book.QuoteSymbol == p.quote && OrdersAt(p) == book.Orders()
        && book.Repr() <= Objects() && this !in book.Repr() && (book.Dirty <==> p in DirtyPairs())
    {
      hide Footprint, BooksIn, Orderbook.Open, Orderbook.Repr, Orderbook.Orders, PairsOf;
      assert forall o :: o in Books()[p].Repr() ==> o in Objects() by {
        MoreObjects(p);
      }
    }

    lemma MoreObjects(p: Pair)
      requires p in Books()
      ensures Books()[p].Repr() <= Objects()
    {
      hide Orderbook.Repr;
    }

    // -------------------------------------------------------------- what has been found already

    /** In every book that is not dirty, the matches that were found in it leave nothing that crosses. */
    ghost predicate Answered(found: Proposals)
      reads *
    {
      && found.Keys <= Books().Keys
      && forall p :: p in Books() && p !in DirtyPairs() ==> Complete(OrdersAt(p), Finding(p, Proposed(found, p)))
    }

    /** A change of one book that makes it dirty leaves that as it is. */
    twostate lemma StillAnswered(new p: Pair, new found: Proposals)
      requires old(Answered(found)) && old(Books()).Keys <= Books().Keys && DirtyPairs() == old(DirtyPairs()) + {p}
      requires forall q :: q != p ==> OrdersAt(q) == old(OrdersAt(q))
      ensures Answered(found)
    {
      hide BooksIn, Complete, DirtyPairs, Orderbook.Orders;
      forall q | q in Books() && q !in DirtyPairs() ensures Complete(OrdersAt(q), Finding(q, Proposed(found, q))) {
        if q !in old(Books()) {
          NothingToFind(q);
        }
      }
    }

    /** The removal of an order, which leaves the mark of its book, does so exactly if the book is dirty or none
        of those matches names the order. */
    twostate lemma AnsweredWithout(new p: Pair, new found: Proposals, new id: u64, new bid: bool)
      requires old(Answered(found)) && old(Books()).Keys <= Books().Keys && DirtyPairs() == old(DirtyPairs())
      requires OrdersAt(p) == WithoutOrder(old(OrdersAt(p)), id, bid) && forall q :: q != p ==> OrdersAt(q) == old(OrdersAt(q))
      requires p in Books()
      ensures Answered(found) <==> p in DirtyPairs() || Unnamed(Proposed(found, p), id, bid)
    {
      hide BooksIn, Complete, DirtyPairs, Orderbook.Orders, WithoutOrder;
      forall q | q in Books() && q != p && q !in DirtyPairs() ensures Complete(OrdersAt(q), Finding(q, Proposed(found, q))) {
        if q !in old(Books()) {
          NothingToFind(q);
        }
      }
      if p !in old(Books()) {
        NothingToFind(p);
        CompleteWithout(NO_ORDERS, Finding(p, []), id, bid);
      } else if p !in DirtyPairs() {
        CompleteWithout(old(OrdersAt(p)), Finding(p, Proposed(found, p)), id, bid);
      }
    }

    /** A search answers for the books that were dirty. */
    twostate lemma AnsweredAgain(new found: Proposals, new fs: seq<Finding>)
      requires old(Answered(found)) && unchanged(this) && DirtyPairs() == {} && forall p :: OrdersAt(p) == old(OrdersAt(p))
      requires OneEach(fs) && PairsFound(fs) == old(DirtyPairs())
      requires forall i :: 0 <= i < |fs| ==> fs[i].pair in Books() && Complete(OrdersAt(fs[i].pair), fs[i])
      ensures Answered(Merged(found, fs))
      ensures forall p :: p in Books() ==> Complete(OrdersAt(p), Finding(p, Proposed(Merged(found, fs), p)))
    {
      hide BooksIn, Complete, DirtyPairs, Orderbook.Orders, MatchesFor;
      var found' := Merged(found, fs);
      forall p | p in Books() ensures Complete(OrdersAt(p), Finding(p, Proposed(found', p))) {
        if p in PairsFound(fs) {
          var i :| 0 <= i < |fs| && fs[i].pair == p;
          OneFinding(fs, i);
          assert fs[i] == Finding(p, fs[i].matches);
        }
      }
    }

    /** An order that was mined joins the book of its two symbols. */
    method AddOrder(order: Order, sellSymbol: string)
      requires Sound() && order.buySymbol != sellSymbol && Positive(order)
      modifies this, Objects()
      ensures Sound()
      ensures var p := PairOf(order.buySymbol, sellSymbol);
        && OrdersAt(p) == WithOrder(old(OrdersAt(p)), order, sellSymbol == p.base)
        && forall q :: q != p ==> OrdersAt(q) == old(OrdersAt(q))
      ensures var p := PairOf(order.buySymbol, sellSymbol);
        p in Books() && Books()[p].Dirty && DirtyPairs() == old(DirtyPairs()) + {p} && old(Books()).Keys <= Books().Keys
      ensures forall o :: o in Objects() ==> o in old(Objects()) || fresh(o)
    {
      hide DirtyPairs, Precedes, GetBaseQuote, PairsOf, BooksIn, InOrder, Footprint, OrdersOf, OrdersAt, Objects, Tidy, Sound, Wired,
           Orderbook.Open, Orderbook.Repr, Orderbook.Orders, WithOrder, Plus, PairOf, Complete, Answered, OrderRef.View, Positive;
      var ref := new OrderRef(order);
      StillSound();
      var book := getOrderbook(order.buySymbol, sellSymbol);
      ghost var p := PairOf(order.buySymbol, sellSymbol);
      BookOfPair(p);
      PairSymbols(order.buySymbol, sellSymbol);
      book.InRepr();
      assert ref !in Objects();
      label L:
      book.Add(ref, sellSymbol);
      Operated@L(p, {ref});
    }

    /** An order whose block was rolled back leaves the book of its two symbols. */
    method RemoveOrder(order: Order, sellSymbol: string)
      requires Sound() && order.buySymbol != sellSymbol
      modifies this, Objects()
      ensures Sound()
      ensures var p := PairOf(order.buySymbol, sellSymbol);
        && OrdersAt(p) == WithoutOrder(old(OrdersAt(p)), order.id, sellSymbol == p.base)
        && forall q :: q != p ==> OrdersAt(q) == old(OrdersAt(q))
      ensures PairOf(order.buySymbol, sellSymbol) in Books()
      ensures DirtyPairs() == old(DirtyPairs()) && old(Books()).Keys <= Books().Keys
      ensures forall o :: o in Objects() ==> o in old(Objects()) || fresh(o)
    {
      hide DirtyPairs, Precedes, GetBaseQuote, PairsOf, BooksIn, InOrder, Footprint, OrdersOf, OrdersAt, Objects, Tidy, Sound, Wired,
           Orderbook.Open, Orderbook.Repr, Orderbook.Orders, WithoutOrder;
      var ref := new OrderRef(order);
      StillSound();
      var book := getOrderbook(order.buySymbol, sellSymbol);
      ghost var p := PairOf(order.buySymbol, sellSymbol);
      BookOfPair(p);
      PairSymbols(order.buySymbol, sellSymbol);
      book.InRepr();
      label L:
      book.Cancel(ref, sellSymbol);
      Operated@L(p, {});
    }

    /** A match that was mined fills two orders of the book of its symbols; the program panics when one is
        missing. */
    method AddMatch(m: Match) returns (panicked: bool)
      requires Sound() && m.buySymbol != m.sellSymbol
      requires var b := OrdersAt(PairOf(m.buySymbol, m.sellSymbol));
        m.buyOrderId in b.bids && m.sellOrderId in b.asks ==> Payable(m, b.bids[m.buyOrderId], b.asks[m.sellOrderId])
      modifies this, Objects()
      ensures Sound()
      ensures var p := PairOf(m.buySymbol, m.sellSymbol);
        && (panicked <==> m.buyOrderId !in old(OrdersAt(p)).bids || m.sellOrderId !in old(OrdersAt(p)).asks)
        && OrdersAt(p) == (if panicked then old(OrdersAt(p)) else LiveBook(Filled(old(OrdersAt(p)), m)))
        && forall q :: q != p ==> OrdersAt(q) == old(OrdersAt(q))
      ensures var p := PairOf(m.buySymbol, m.sellSymbol);
        p in Books() && Books()[p].Dirty && DirtyPairs() == old(DirtyPairs()) + {p} && old(Books()).Keys <= Books().Keys
      ensures forall o :: o in Objects() ==> o in old(Objects()) || fresh(o)
    {
      hide DirtyPairs, Precedes, GetBaseQuote, PairsOf, PairOf, BooksIn, InOrder, Footprint, OrdersOf, OrdersAt, Objects, Tidy, Sound, Wired,
           Orderbook.Open, Orderbook.Repr, Orderbook.Orders, LiveBook, Filled, Payable;
      var book := getOrderbook(m.buySymbol, m.sellSymbol);
      ghost var p := PairOf(m.buySymbol, m.sellSymbol);
      BookOfPair(p);
      book.InRepr();
      label L:
      panicked := book.ApplyMatch(m);
      Operated@L(p, {});
    }

    /** A match whose block was rolled back gives its two orders back what they gave.  The program hands
        copies of the orders along, for those that the match had used up. */
    method RemoveMatch(m: Match, buyOrder: Order, sellOrder: Order)
      requires Sound() && m.buySymbol != m.sellSymbol
      requires buyOrder.id == m.buyOrderId && buyOrder.buySymbol == PairOf(m.buySymbol, m.sellSymbol).quote
      requires sellOrder.id == m.sellOrderId && sellOrder.buySymbol == PairOf(m.buySymbol, m.sellSymbol).base
      requires Current(OrdersAt(PairOf(m.buySymbol, m.sellSymbol)), buyOrder, sellOrder) && Returnable(m, buyOrder, sellOrder)
      modifies this, Objects()
      ensures Sound()
      ensures var p := PairOf(m.buySymbol, m.sellSymbol);
        && OrdersAt(p) == Unfilled(old(OrdersAt(p)), m, buyOrder, sellOrder)
        && forall q :: q != p ==> OrdersAt(q) == old(OrdersAt(q))
      ensures var p := PairOf(m.buySymbol, m.sellSymbol);
        p in Books() && Books()[p].Dirty && DirtyPairs() == old(DirtyPairs()) + {p} && old(Books()).Keys <= Books().Keys
      ensures forall o :: o in Objects() ==> o in old(Objects()) || fresh(o)
    {
      hide DirtyPairs, Precedes, GetBaseQuote, PairsOf, BooksIn, InOrder, Footprint, OrdersOf, OrdersAt, Objects, Tidy, Sound, Wired,
           Orderbook.Open, Orderbook.Repr, Orderbook.Orders, Unfilled, OrderRef.View, Current, Returnable;
      var buyCopy := new OrderRef(buyOrder);
      var sellCopy := new OrderRef(sellOrder);
      StillSound();
      var book := getOrderbook(m.buySymbol, m.sellSymbol);
      ghost var p := PairOf(m.buySymbol, m.sellSymbol);
      BookOfPair(p);
      unapplyOn(book, m, buyCopy, sellCopy, p);
    }

    method unapplyOn(book: Orderbook, m: Match, buyCopy: OrderRef, sellCopy: OrderRef, ghost p: Pair)
      requires Sound() && p in Books() && book == Books()[p]
      requires buyCopy !in Objects() && sellCopy !in Objects()
      requires buyCopy.id == m.buyOrderId && buyCopy.buySymbol == p.quote
      requires sellCopy.id == m.sellOrderId && sellCopy.buySymbol == p.base
      requires Current(OrdersAt(p), buyCopy.View(), sellCopy.View()) && Returnable(m, buyCopy.View(), sellCopy.View())
      modifies Objects(), buyCopy, sellCopy
      ensures Sound() && OrdersAt(p) == Unfilled(old(OrdersAt(p)), m, old(buyCopy.View()), old(sellCopy.View()))
      ensures forall q :: q != p ==> OrdersAt(q) == old(OrdersAt(q))
      ensures unchanged(this) && Books()[p].Dirty && DirtyPairs() == old(DirtyPairs()) + {p}
      ensures forall o :: o in Objects() ==> o in old(Objects()) || fresh(o) || o == buyCopy || o == sellCopy
    {
      hide PairsOf, BooksIn, InOrder, Footprint, OrdersOf, OrdersAt, Objects, Tidy, Sound, Wired,
           Orderbook.Open, Orderbook.Repr, Orderbook.Orders, Unfilled, Orderbook.Backups, OrderRef.View;
      BookOfPair(p);
      book.InRepr();
      CopyIds(buyCopy);
      CopyIds(sellCopy);
      ghost var buy, sell := Meant(book.QuoteQueue, buyCopy), Meant(book.BaseQueue, sellCopy);
      book.CopiesAreBackups(m, buyCopy, sellCopy);
      book.UnapplyMatch(m, buyCopy, sellCopy, buy, sell);
      Operated(p, {buyCopy, sellCopy});
    }

    lemma CopyIds(copy: OrderRef)
      ensures copy.View().id == copy.id
    {}

    // -------------------------------------------------------------- the search

    /** Find the matches of one book, which is up to date then. */
    method searchDirty(book: Orderbook, ghost p: Pair) returns (matches: seq<Match>)
      requires Sound() && p in Books() && book == Books()[p]
      modifies Objects()
      ensures unchanged(this) && Sound() && !book.Dirty && forall q :: OrdersAt(q) == old(OrdersAt(q))
      ensures forall q :: q in Books() && q != p ==> Books()[q].Dirty == old(Books()[q].Dirty)
      ensures Complete(OrdersAt(p), Finding(p, matches))
      ensures forall o :: o in Objects() ==> o in old(Objects()) || fresh(o)
    {
      hide PairsOf, BooksIn, InOrder, Footprint, OrdersOf, OrdersAt, Objects, Tidy, Sound, Wired,
           Orderbook.Open, Orderbook.Repr, Orderbook.Orders, AllFitting, AllPriceFirst, Uncrossed, After;
      BookOfPair(p);
      book.InRepr();
      book.Dirty := false;
      book.OnlyMarked();
      book.InRepr();
      matches := book.FindAllMatches();
      Operated(p, {});
    }

    /** Some books have been searched: those that were dirty have a finding each, and are so no longer. */
    ghost predicate Searched(was: map<Pair, Book>, dirty: set<Pair>, visited: set<Pair>, matches: seq<Match>, fs: seq<Finding>)
      reads *
    {
      && Sound() && Books().Keys == was.Keys && visited <= was.Keys && dirty <= was.Keys
      && (forall p :: p in was ==> OrdersAt(p) == was[p] && (Books()[p].Dirty <==> p in dirty && p !in visited))
      && matches == MatchesOf(fs) && OneEach(fs) && PairsFound(fs) == dirty * visited
      && (forall i :: 0 <= i < |fs| ==> fs[i].pair in was && Complete(was[fs[i].pair], fs[i]))
    }

    /** Search one book, if it is dirty. */
    method searchBook(book: Orderbook, matches: seq<Match>, ghost p: Pair, ghost was: map<Pair, Book>, ghost dirty: set<Pair>,
                      ghost visited: set<Pair>, ghost fs: seq<Finding>)
      returns (matches': seq<Match>, ghost fs': seq<Finding>)
      requires Searched(was, dirty, visited, matches, fs) && p in Books() && book == Books()[p] && p !in visited
      modifies Objects()
      ensures unchanged(this) && Searched(was, dirty, visited + {p}, matches', fs')
      ensures forall o :: o in Objects() ==> o in old(Objects()) || fresh(o)
    {
      hide PairsOf, BooksIn, InOrder, Footprint, OrdersOf, OrdersAt, Objects, Tidy, Sound, Wired, Complete, OneEach, MatchesOf;
      matches', fs' := matches, fs;
      if book.Dirty {
        var more := searchDirty(book, p);
        matches', fs' := matches + more, fs + [Finding(p, more)];
        FoundMore(fs, Finding(p, more));
        assert dirty * (visited + {p}) == dirty * visited + {p};
      } else {
        assert dirty * (visited + {p}) == dirty * visited;
      }
    }

    /** Search the books with one base symbol. */
    method searchBase(base: string, matches: seq<Match>, ghost was: map<Pair, Book>, ghost dirty: set<Pair>,
                      ghost visited: set<Pair>, ghost fs: seq<Finding>)
      returns (matches': seq<Match>, ghost fs': seq<Finding>)
      requires Searched(was, dirty, visited, matches, fs) && base in orderbooks && forall p :: p in visited ==> p.base != base
      modifies Objects()
      ensures unchanged(this) && Searched(was, dirty, visited + WithBase(was.Keys, base), matches', fs')
      ensures forall o :: o in Objects() ==> o in old(Objects()) || fresh(o)
    {
      hide *;
      matches', fs' := matches, fs;
      var quotes := orderbooks[base].Keys;
      ghost var seen := visited;
      SearchParts(was, dirty, visited, matches, fs);
      AllOfBase(base, quotes);
      NoneOfBase(base, quotes, visited);
      while quotes != {}
        invariant unchanged(this) && quotes <= orderbooks[base].Keys
        invariant Searched(was, dirty, seen, matches', fs')
        invariant visited + WithBase(was.Keys, base) == seen + WithQuotes(base, quotes) && seen !! WithQuotes(base, quotes)
        invariant forall o :: o in Objects() ==> o in old(Objects()) || fresh(o)
        decreases quotes
      {
        var quote := AnySymbol(quotes);
        OneQuote(base, quotes, quote, seen);
        SearchParts(was, dirty, seen, matches', fs');
        BookAt(orderbooks, Pair(base, quote));
        BooksAre();
        quotes := quotes - {quote};
        matches', fs' := searchBook(orderbooks[base][quote], matches', Pair(base, quote), was, dirty, seen, fs');
        seen := seen + {Pair(base, quote)};
      }
      NoneOfBase(base, {}, {});
    }

    /** Find all matches of all books that have changed since they were searched last.  The books hold what
        they held; every book that was dirty has one finding, with as many matches as leave nothing that
        crosses, and no book is dirty any more. */
    method FindAllMatches() returns (matches: seq<Match>, ghost fs: seq<Finding>)
      requires Sound()
      modifies Objects()
      ensures unchanged(this) && Sound() && forall p :: OrdersAt(p) == old(OrdersAt(p))
      ensures forall p :: p in Books() ==> !Books()[p].Dirty
      ensures matches == MatchesOf(fs) && OneEach(fs)
      ensures forall i :: 0 <= i < |fs| ==> fs[i].pair in Books() && Complete(OrdersAt(fs[i].pair), fs[i])
      ensures forall p :: p in PairsFound(fs) <==> p in Books() && old(Books()[p].Dirty)
      ensures PairsFound(fs) == old(DirtyPairs()) && DirtyPairs() == {}
      ensures forall o :: o in Objects() ==> o in old(Objects()) || fresh(o)
    {
      hide *;
      matches, fs := [], [];
      ghost var was, dirty := Snapshot(), DirtyPairs();
      var todo := orderbooks.Keys;
      ghost var seen: set<Pair> := {};
      NothingSearched();
      while todo != {}
        invariant unchanged(this) && todo <= orderbooks.Keys
        invariant Searched(was, dirty, seen, matches, fs)
        invariant seen == WithoutBases(was.Keys, todo)
        invariant forall o :: o in Objects() ==> o in old(Objects()) || fresh(o)
        decreases todo
      {
        var base := AnySymbol(todo);
        OneBase(was.Keys, todo, base);
        todo := todo - {base};
        matches, fs := searchBase(base, matches, was, dirty, seen, fs);
        seen := seen + WithBase(was.Keys, base);
      }
      AllSearched(was, dirty, matches, fs);
    }

    lemma SearchParts(was: map<Pair, Book>, dirty: set<Pair>, visited: set<Pair>, matches: seq<Match>, fs: seq<Finding>)
      requires Searched(was, dirty, visited, matches, fs)
      ensures Sound() && Books().Keys == was.Keys && orderbooks.Keys == symbols
    {}

    lemma BooksAre()
      ensures Books() == BooksIn(orderbooks)
    {}

    lemma AllOfBase(base: string, quotes: set<string>)
      requires base in orderbooks && quotes == orderbooks[base].Keys
      ensures WithBase(Books().Keys, base) == WithQuotes(base, quotes)
    {
      hide BooksIn;
      forall p ensures p in WithBase(Books().Keys, base) <==> p in WithQuotes(base, quotes) {
        BookAt(orderbooks, p);
      }
    }

    ghost function Snapshot(): map<Pair, Book>
      reads *
    {
      map p | p in Books() :: OrdersAt(p)
    }

    lemma NothingSearched()
      requires Sound()
      ensures Searched(Snapshot(), DirtyPairs(), {}, [], []) && WithoutBases(Snapshot().Keys, orderbooks.Keys) == {}
    {
      hide InOrder, Footprint, OrdersOf, BooksIn, PairsOf;
      forall p | p in Books() ensures p.base in orderbooks {
        BookAt(orderbooks, p);
      }
    }

    twostate lemma AllSearched(new was: map<Pair, Book>, new dirty: set<Pair>, new matches: seq<Match>, new fs: seq<Finding>)
      requires was == old(Snapshot()) && dirty == old(DirtyPairs()) && unchanged(this)
      requires Searched(was, dirty, WithoutBases(was.Keys, {}), matches, fs)
      ensures Sound() && forall p :: OrdersAt(p) == old(OrdersAt(p))
      ensures forall p :: p in Books() ==> !Books()[p].Dirty
      ensures matches == MatchesOf(fs) && OneEach(fs)
      ensures forall i :: 0 <= i < |fs| ==> fs[i].pair in Books() && Complete(OrdersAt(fs[i].pair), fs[i])
      ensures forall p :: p in PairsFound(fs) <==> p in Books() && old(Books()[p].Dirty)
      ensures PairsFound(fs) == old(DirtyPairs()) && DirtyPairs() == {}
    {
      hide InOrder, Footprint, BooksIn, PairsOf, Complete, OneEach, MatchesOf, Orderbook.Orders, PairsFound;
      assert WithoutBases(was.Keys, {}) == was.Keys;
      assert dirty * was.Keys == dirty;
    }

    twostate lemma StillSound()
      requires old(Sound()) && unchanged(this) && Untouched(old(Objects()))
      ensures Sound() && Objects() == old(Objects()) && forall p :: OrdersAt(p) == old(OrdersAt(p))
      ensures DirtyPairs() == old(DirtyPairs())
      ensures forall o :: o in Objects() ==> old(allocated(o))
    {
      FootprintAllocated(Books());
      hide InOrder, Footprint, BooksIn, PairsOf;
      BooksStill(Books());
    }
  }

  /** The matches fit the book, each what the ones before it leave and with price priority in that, and leave
      nothing that crosses. */
  ghost predicate Complete(b: Book, f: Finding) {
    && AllFitting(b, f.matches, f.pair.base, f.pair.quote) && AllPriceFirst(b, f.matches)
    && Uncrossed(After(b, f.matches))
  }

  /** For each book, the matches that were found in it when it was searched last. */
  type Proposals = map<Pair, seq<Match>>

  function Proposed(found: Proposals, p: Pair): seq<Match> {
    if p in found then found[p] else []
  }

  function MatchesFor(fs: seq<Finding>, p: Pair): seq<Match> {
    if fs == [] then [] else if fs[|fs| - 1].pair == p then fs[|fs| - 1].matches else MatchesFor(fs[..|fs| - 1], p)
  }

  /** What has been found, once these books have been searched again. */
  function Merged(found: Proposals, fs: seq<Finding>): Proposals {
    map p | p in found.Keys + PairsFound(fs) :: if p in PairsFound(fs) then MatchesFor(fs, p) else found[p]
  }

  lemma {:induction false} OneFinding(fs: seq<Finding>, i: nat)
    requires OneEach(fs) && i < |fs|
    ensures MatchesFor(fs, fs[i].pair) == fs[i].matches && fs[i].pair in PairsFound(fs)
    decreases |fs|
  {
    if i < |fs| - 1 {
      assert fs[..|fs| - 1][i] == fs[i];
      OneFinding(fs[..|fs| - 1], i);
    }
  }

  /** Nothing is found in a book without orders, and nothing has to be. */
  lemma NothingToFind(p: Pair)
    ensures Complete(NO_ORDERS, Finding(p, []))
  {}

  // ---------------------------------------------------------------- an order less

  /** No match names the order on its side of the book. */
  ghost predicate Unnamed(ms: seq<Match>, id: u64, bid: bool) {
    forall i :: 0 <= i < |ms| ==> (if bid then ms[i].buyOrderId else ms[i].sellOrderId) != id
  }

  lemma FilledWithout(b: Book, m: Match, id: u64, bid: bool)
    requires (if bid then m.buyOrderId else m.sellOrderId) != id
    ensures Filled(WithoutOrder(b, id, bid), m) == WithoutOrder(Filled(b, m), id, bid)
  {
    hide Residual;
    if m.buyOrderId in b.bids && m.sellOrderId in b.asks {
      var x, y := Residual(b.bids[m.buyOrderId], m.buyerLoss, m.transferAmt), Residual(b.asks[m.sellOrderId], m.transferAmt, m.sellerGain);
      if bid {
        assert (b.bids - {id})[m.buyOrderId := x] == b.bids[m.buyOrderId := x] - {id};
      } else {
        assert (b.asks - {id})[m.sellOrderId := y] == b.asks[m.sellOrderId := y] - {id};
      }
    }
  }

  lemma {:induction false} AfterWithout(b: Book, ms: seq<Match>, id: u64, bid: bool)
    requires Unnamed(ms, id, bid)
    ensures After(WithoutOrder(b, id, bid), ms) == WithoutOrder(After(b, ms), id, bid)
    decreases |ms|
  {
    hide Filled, WithoutOrder;
    if ms != [] {
      var n := |ms| - 1;
      AfterWithout(b, ms[..n], id, bid);
      FilledWithout(After(b, ms[..n]), ms[n], id, bid);
    }
  }

  lemma FitsWithout(b: Book, m: Match, base: string, quote: string, id: u64, bid: bool)
    requires (if bid then m.buyOrderId else m.sellOrderId) != id
    ensures Fitting(b, m, base, quote) ==> Fitting(WithoutOrder(b, id, bid), m, base, quote)
    ensures PriceFirst(b, m) ==> PriceFirst(WithoutOrder(b, id, bid), m)
  {
    hide FillOf, OffersMore, WantsLess;
  }

  lemma UncrossedWithout(b: Book, id: u64, bid: bool)
    requires Uncrossed(b)
    ensures Uncrossed(WithoutOrder(b, id, bid))
  {
    hide Crosses;
  }

  /** When an order goes that a match names, that match no longer fits. */
  lemma {:induction false} NeverReturns(b: Book, ms: seq<Match>, id: u64, bid: bool)
    requires id !in (if bid then b.bids else b.asks)
    ensures id !in (if bid then After(b, ms).bids else After(b, ms).asks)
    decreases |ms|
  {
    hide Residual;
    if ms != [] {
      NeverReturns(b, ms[..|ms| - 1], id, bid);
    }
  }

  /** When an order goes, the matches that were found are still complete exactly if none of them names it. */
  lemma CompleteWithout(b: Book, f: Finding, id: u64, bid: bool)
    requires Complete(b, f)
    ensures Complete(WithoutOrder(b, id, bid), f) <==> Unnamed(f.matches, id, bid)
  {
    hide After, Fitting, PriceFirst, Uncrossed, WithoutOrder;
    var b' := WithoutOrder(b, id, bid);
    if Unnamed(f.matches, id, bid) {
      forall i | 0 <= i < |f.matches|
        ensures Fitting(After(b', f.matches[..i]), f.matches[i], f.pair.base, f.pair.quote)
        ensures PriceFirst(After(b', f.matches[..i]), f.matches[i])
      {
        AfterWithout(b, f.matches[..i], id, bid);
        FitsWithout(After(b, f.matches[..i]), f.matches[i], f.pair.base, f.pair.quote, id, bid);
      }
      AfterWithout(b, f.matches, id, bid);
      UncrossedWithout(After(b, f.matches), id, bid);
    } else {
      var i :| 0 <= i < |f.matches| && (if bid then f.matches[i].buyOrderId else f.matches[i].sellOrderId) == id;
      GoneWithout(b, id, bid);
      NeverReturns(b', f.matches[..i], id, bid);
      NamesLive(After(b', f.matches[..i]), f.matches[i], f.pair.base, f.pair.quote);
    }
  }

  lemma GoneWithout(b: Book, id: u64, bid: bool)
    ensures id !in (if bid then WithoutOrder(b, id, bid).bids else WithoutOrder(b, id, bid).asks)
  {}

  lemma NamesLive(b: Book, m: Match, base: string, quote: string)
    ensures Fitting(b, m, base, quote) ==> m.buyOrderId in b.bids && m.sellOrderId in b.asks
  {
    hide FillOf;
  }

  function PairsFound(fs: seq<Finding>): set<Pair> {
    set i | 0 <= i < |fs| :: fs[i].pair
  }

  function WithBase(pairs: set<Pair>, base: string): set<Pair> {
    set p | p in pairs && p.base == base
  }

  function WithQuotes(base: string, quotes: set<string>): set<Pair> {
    set q | q in quotes :: Pair(base, q)
  }

  function WithoutBases(pairs: set<Pair>, bases: set<string>): set<Pair> {
    set p | p in pairs && p.base !in bases
  }

  lemma NoneOfBase(base: string, quotes: set<string>, seen: set<Pair>)
    requires forall p :: p in seen ==> p.base != base
    ensures seen !! WithQuotes(base, quotes) && WithQuotes(base, {}) == {}
    ensures forall s: set<Pair> :: s + WithQuotes(base, {}) == s
  {}

  lemma OneQuote(base: string, quotes: set<string>, quote: string, seen: set<Pair>)
    requires quote in quotes && seen !! WithQuotes(base, quotes)
    ensures seen + WithQuotes(base, quotes) == seen + {Pair(base, quote)} + WithQuotes(base, quotes - {quote})
    ensures Pair(base, quote) !in seen && seen + {Pair(base, quote)} !! WithQuotes(base, quotes - {quote})
  {
    assert Pair(base, quote) in WithQuotes(base, quotes);
    assert WithQuotes(base, quotes) == {Pair(base, quote)} + WithQuotes(base, quotes - {quote});
  }

  lemma OneBase(pairs: set<Pair>, todo: set<string>, base: string)
    requires base in todo
    ensures WithoutBases(pairs, todo - {base}) == WithoutBases(pairs, todo) + WithBase(pairs, base)
    ensures forall p :: p in WithoutBases(pairs, todo) ==> p.base != base
  {}

  lemma FoundMore(fs: seq<Finding>, f: Finding)
    requires OneEach(fs) && f.pair !in PairsFound(fs)
    ensures OneEach(fs + [f]) && PairsFound(fs + [f]) == PairsFound(fs) + {f.pair}
    ensures MatchesOf(fs + [f]) == MatchesOf(fs) + f.matches
  {
    var more := fs + [f];
    assert more[..|fs|] == fs && more[|fs|] == f;
    forall i | 0 <= i < |fs| ensures fs[i].pair in PairsFound(more) {
      assert more[i] == fs[i];
    }
    assert more[|fs|].pair in PairsFound(more);
  }

  /** The copies are what the book has, if it has the orders. */
  predicate Current(b: Book, buyOrder: Order, sellOrder: Order) {
    && (buyOrder.id in b.bids ==> b.bids[buyOrder.id] == buyOrder)
    && (sellOrder.id in b.asks ==> b.asks[sellOrder.id] == sellOrder)
  }

  lemma PairSymbols(a: string, b: string)
    requires a != b
    ensures var p := PairOf(a, b); (p == Pair(a, b) || p == Pair(b, a)) && p.base != p.quote
  {
    hide Precedes;
  }
}
