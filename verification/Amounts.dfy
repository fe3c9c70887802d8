/** Amounts, addresses and the maps of funds that every token ledger keeps.

    Go reads a missing map key as zero, so a fund map is taken in its canonical form: addresses that
    hold nothing are not keys.  Additions and subtractions wrap at 64 bits, as they do in the program. */
module Amounts {

  const WORD: int := 0x1_0000_0000_0000_0000

  type u64 = x: int | 0 <= x < 0x1_0000_0000_0000_0000

  datatype Address = Address(key: string)

  datatype Option<+T> = None | Some(value: T)

  function Add64(a: u64, b: u64): u64 {
    if a + b < WORD then a + b else a + b - WORD
  }

  function Sub64(a: u64, b: u64): u64 {
    if b <= a then a - b else a - b + WORD
  }

  // ---------------------------------------------------------------- funds

  /** A canonical map of amounts. */
  type Bag<!K> = m: map<K, u64> | forall a :: a in m ==> m[a] != 0

  type Funds = Bag<Address>

  function Get<K>(m: map<K, u64>, a: K): u64 {
    if a in m then m[a] else 0
  }

  function Put<K>(m: Bag<K>, a: K, v: u64): Bag<K> {
    if v == 0 then m - {a} else m[a := v]
  }

  function Credit<K>(m: Bag<K>, a: K, v: u64): Bag<K> {
    Put(m, a, Add64(Get(m, a), v))
  }

  function Debit<K>(m: Bag<K>, a: K, v: u64): Bag<K> {
    Put(m, a, Sub64(Get(m, a), v))
  }

  /** The canonical form of a Go map. */
  function Norm<K>(raw: map<K, u64>): Bag<K> {
    map a | a in raw && raw[a] != 0 :: raw[a]
  }

  /** Pointwise addition, the effect of the loop that releases a block's frozen funds. */
  function Merge<K>(m: Bag<K>, f: Bag<K>): Bag<K> {
    map a | a in m.Keys + f.Keys && Add64(Get(m, a), Get(f, a)) != 0 :: Add64(Get(m, a), Get(f, a))
  }

  function Unmerge<K>(m: Bag<K>, f: Bag<K>): Bag<K> {
    map a | a in m.Keys + f.Keys && Sub64(Get(m, a), Get(f, a)) != 0 :: Sub64(Get(m, a), Get(f, a))
  }

  lemma SameBag<K(!new)>(m: Bag<K>, n: Bag<K>)
    requires forall a :: Get(m, a) == Get(n, a)
    ensures m == n
  {
    forall a ensures a in m <==> a in n {
      assert Get(m, a) == Get(n, a);
    }
    forall a | a in m ensures m[a] == n[a] {
      assert Get(m, a) == Get(n, a);
    }
  }

  lemma CreditThenDebit<K(!new)>(m: Bag<K>, a: K, v: u64)
    ensures Debit(Credit(m, a, v), a, v) == m
    ensures Credit(Debit(m, a, v), a, v) == m
  {
    SameBag(Debit(Credit(m, a, v), a, v), m);
    SameBag(Credit(Debit(m, a, v), a, v), m);
  }

  lemma PutsCommute<K(!new)>(m: Bag<K>, a: K, v: u64, b: K, w: u64)
    requires a != b
    ensures Put(Put(m, a, v), b, w) == Put(Put(m, b, w), a, v)
  {
    SameBag(Put(Put(m, a, v), b, w), Put(Put(m, b, w), a, v));
  }

  lemma PutTwice<K(!new)>(m: Bag<K>, a: K, v: u64, w: u64)
    ensures Put(Put(m, a, v), a, w) == Put(m, a, w)
    ensures Get(Put(m, a, v), a) == v
  {
    SameBag(Put(Put(m, a, v), a, w), Put(m, a, w));
  }

  lemma CreditsCommute<K(!new)>(m: Bag<K>, a: K, v: u64, b: K, w: u64)
    ensures Credit(Credit(m, a, v), b, w) == Credit(Credit(m, b, w), a, v)
  {
    if a == b {
      PutTwice(m, a, Add64(Get(m, a), v), Add64(Add64(Get(m, a), v), w));
      PutTwice(m, a, Add64(Get(m, a), w), Add64(Add64(Get(m, a), w), v));
    } else {
      PutsCommute(m, a, Add64(Get(m, a), v), b, Add64(Get(m, b), w));
    }
  }

  lemma DebitCreditCommute<K(!new)>(m: Bag<K>, a: K, v: u64, b: K, w: u64)
    ensures Debit(Credit(m, a, v), b, w) == Credit(Debit(m, b, w), a, v)
  {
    if a == b {
      PutTwice(m, a, Add64(Get(m, a), v), Sub64(Add64(Get(m, a), v), w));
      PutTwice(m, a, Sub64(Get(m, a), w), Add64(Sub64(Get(m, a), w), v));
    } else {
      PutsCommute(m, a, Add64(Get(m, a), v), b, Sub64(Get(m, b), w));
    }
  }

  lemma DebitsCommute<K(!new)>(m: Bag<K>, a: K, v: u64, b: K, w: u64)
    ensures Debit(Debit(m, a, v), b, w) == Debit(Debit(m, b, w), a, v)
  {
    if a == b {
      PutTwice(m, a, Sub64(Get(m, a), v), Sub64(Sub64(Get(m, a), v), w));
      PutTwice(m, a, Sub64(Get(m, a), w), Sub64(Sub64(Get(m, a), w), v));
    } else {
      PutsCommute(m, a, Sub64(Get(m, a), v), b, Sub64(Get(m, b), w));
    }
  }

  lemma MergeThenUnmerge<K(!new)>(m: Bag<K>, f: Bag<K>)
    ensures Unmerge(Merge(m, f), f) == m
  {
    SameBag(Unmerge(Merge(m, f), f), m);
  }

  lemma MergeNothing<K(!new)>(m: Bag<K>)
    ensures Merge(m, map[]) == m
  {
    SameBag(Merge(m, map[]), m);
  }

  lemma UnmergeNothing<K(!new)>(m: Bag<K>)
    ensures Unmerge(m, map[]) == m
  {
    SameBag(Unmerge(m, map[]), m);
  }

  // ---------------------------------------------------------------- totals

  /** The sum of the values of a finite map. */
  ghost function Sum<K(!new)>(m: map<K, nat>): nat
    decreases |m|
  {
    if m == map[] then 0 else
      var k := Pick(m.Keys);
      m[k] + Sum(m - {k})
  }

  ghost function Pick<K(!new)>(s: set<K>): (k: K)
    requires s != {}
    ensures k in s
  {
    var k :| k in s;
    k
  }

  lemma {:induction false} SumRemove<K(!new)>(m: map<K, nat>, k: K)
    requires k in m
    ensures Sum(m) == m[k] + Sum(m - {k})
    decreases |m|
  {
    var j := Pick(m.Keys);
    if j != k {
      var mj, mk := m - {j}, m - {k};
      SumRemove(mj, k);
      SumRemove(mk, j);
      assert mj - {k} == mk - {j};
    }
  }

  lemma {:induction false} SumPut<K(!new)>(m: map<K, nat>, k: K, v: nat)
    ensures Sum(m[k := v]) == Sum(m) - (if k in m then m[k] else 0) + v
  {
    var n := m[k := v];
    SumRemove(n, k);
    assert n - {k} == m - {k};
    if k in m {
      SumRemove(m, k);
    } else {
      assert m - {k} == m;
    }
  }

  lemma SumNothing<K(!new)>()
    ensures Sum<K>(map[]) == 0
  {}

  ghost function Total<K(!new)>(m: Bag<K>): nat {
    Sum(m)
  }

  lemma TotalPut<K(!new)>(m: Bag<K>, a: K, v: u64)
    ensures Total(Put(m, a, v)) == Total(m) - Get(m, a) + v
    ensures Get(m, a) <= Total(m)
  {
    if a in m {
      SumRemove(m, a);
    } else {
      assert m - {a} == m;
    }
    SumPut(m, a, v);
  }

  lemma TotalCredit<K(!new)>(m: Bag<K>, a: K, v: u64)
    requires Total(m) + v < WORD
    ensures Total(Credit(m, a, v)) == Total(m) + v
  {
    TotalPut(m, a, Add64(Get(m, a), v));
  }

  lemma TotalDebit<K(!new)>(m: Bag<K>, a: K, v: u64)
    requires v <= Get(m, a)
    ensures Total(Debit(m, a, v)) == Total(m) - v
  {
    TotalPut(m, a, Sub64(Get(m, a), v));
  }

  lemma MergeOne<K(!new)>(m: Bag<K>, f: Bag<K>, a: K)
    requires a in f
    ensures Merge(m, f) == Merge(Credit(m, a, f[a]), f - {a})
  {
    var g: Bag<K> := f - {a};
    forall b ensures Get(Merge(m, f), b) == Get(Merge(Credit(m, a, f[a]), g), b) {
      if b == a {
        PutTwice(m, a, Add64(Get(m, a), f[a]), 0);
      }
    }
    SameBag(Merge(m, f), Merge(Credit(m, a, f[a]), g));
  }

  lemma {:induction false} TotalMerge<K(!new)>(m: Bag<K>, f: Bag<K>)
    requires Total(m) + Total(f) < WORD
    ensures Total(Merge(m, f)) == Total(m) + Total(f)
    decreases |f|
  {
    if f == map[] {
      MergeNothing(m);
    } else {
      var a := Pick(f.Keys);
      var g: Bag<K> := f - {a};
      SumRemove(f, a);
      TotalCredit(m, a, f[a]);
      TotalMerge(Credit(m, a, f[a]), g);
      MergeOne(m, f, a);
    }
  }
}
