/** One stored chain: a bucket of blocks by hash, the hash of the last block, and the cached tip, height
    and list of hashes.  Hashes are ideal: the hash of a block is what is hashed. */
module Chains {
  import opened Transactions

  datatype Hash = NoHash | Digest(prev: Hash, data: BlockData, nonce: int)

  datatype Block = Block(prev: Hash, data: BlockData, nonce: int, hash: Hash)

  /** The block carries its own hash. */
  predicate Sealed(b: Block) {
    b.hash == Digest(b.prev, b.data, b.nonce)
  }

  function TipOf(blocks: seq<Block>): Hash {
    if blocks == [] then NoHash else blocks[|blocks| - 1].hash
  }

  /** Oldest first; every block names the one before it. */
  ghost predicate Linked(blocks: seq<Block>) {
    forall i :: 0 <= i < |blocks| ==> Sealed(blocks[i]) && blocks[i].prev == TipOf(blocks[..i])
  }

  function Depth(h: Hash): nat {
    match h
    case NoHash => 0
    case Digest(prev, _, _) => Depth(prev) + 1
  }

  /** The n-th block of a chain has a hash of depth n, so that no two blocks have the same hash. */
  lemma {:induction false} DepthOfBlock(blocks: seq<Block>, i: nat)
    requires Linked(blocks) && i < |blocks|
    ensures Depth(blocks[i].hash) == i + 1
  {
    if i > 0 {
      DepthOfBlock(blocks, i - 1);
      assert TipOf(blocks[..i]) == blocks[i - 1].hash;
    } else {
      assert TipOf(blocks[..i]) == NoHash;
    }
  }

  /** Two chains that have a block hash in common agree up to that block. */
  lemma {:induction false} SameHashSamePrefix(a: seq<Block>, b: seq<Block>, i: nat, j: nat)
    requires Linked(a) && Linked(b) && i < |a| && j < |b| && a[i].hash == b[j].hash
    ensures i == j && a[..i + 1] == b[..i + 1]
  {
    DepthOfBlock(a, i);
    DepthOfBlock(b, j);
    assert a[i] == b[i];
    if i > 0 {
      assert TipOf(a[..i]) == a[i - 1].hash && TipOf(b[..i]) == b[i - 1].hash;
      SameHashSamePrefix(a, b, i - 1, i - 1);
    }
    assert a[..i + 1] == a[..i] + [a[i]] && b[..i + 1] == b[..i] + [b[i]];
  }

  lemma LinkedPrefix(blocks: seq<Block>, n: nat)
    requires Linked(blocks) && n <= |blocks|
    ensures Linked(blocks[..n])
  {
    forall i | 0 <= i < n ensures blocks[..n][..i] == blocks[..i] {}
  }

  lemma LinkedAppend(blocks: seq<Block>, b: Block)
    requires Linked(blocks) && Sealed(b) && b.prev == TipOf(blocks)
    ensures Linked(blocks + [b])
  {
    forall i | 0 <= i < |blocks| + 1 ensures (blocks + [b])[..i] == blocks[..i] {}
    assert blocks[..|blocks|] == blocks;
  }

  /** Newest first. */
  function HashesOf(blocks: seq<Block>): seq<Hash> {
    seq(|blocks|, i requires 0 <= i < |blocks| => blocks[|blocks| - 1 - i].hash)
  }

  /** The bucket holds exactly these blocks, each under its hash. */
  ghost predicate Stores(store: map<Hash, Block>, blocks: seq<Block>) {
    && (forall i :: 0 <= i < |blocks| ==> blocks[i].hash in store && store[blocks[i].hash] == blocks[i])
    && (forall h :: h in store ==> 1 <= Depth(h) <= |blocks| && blocks[Depth(h) - 1].hash == h)
  }

  lemma DepthsOfBlocks(blocks: seq<Block>)
    requires Linked(blocks)
    ensures forall i :: 0 <= i < |blocks| ==> Depth(blocks[i].hash) == i + 1
  {
    forall i | 0 <= i < |blocks| ensures Depth(blocks[i].hash) == i + 1 { DepthOfBlock(blocks, i); }
  }

  lemma StoreWith(store: map<Hash, Block>, blocks: seq<Block>, b: Block)
    requires Linked(blocks) && Stores(store, blocks) && Sealed(b) && b.prev == TipOf(blocks)
    ensures Stores(store[b.hash := b], blocks + [b])
  {
    LinkedAppend(blocks, b);
    DepthsOfBlocks(blocks + [b]);
    AppendDepths(blocks, b);
    hide Linked, Depth, Sealed;
  }

  lemma AppendDepths(blocks: seq<Block>, b: Block)
    requires forall i :: 0 <= i < |blocks| + 1 ==> Depth((blocks + [b])[i].hash) == i + 1
    ensures Depth(b.hash) == |blocks| + 1
    ensures forall i :: 0 <= i < |blocks| ==> blocks[i].hash != b.hash
  {
    hide Depth;
    assert (blocks + [b])[|blocks|] == b;
    forall i | 0 <= i < |blocks| ensures blocks[i].hash != b.hash {
      assert (blocks + [b])[i] == blocks[i];
    }
  }

  lemma StoreWithout(store: map<Hash, Block>, blocks: seq<Block>)
    requires Linked(blocks) && Stores(store, blocks) && blocks != []
    ensures Stores(store - {TipOf(blocks)}, blocks[..|blocks| - 1])
  {
    DepthsOfBlocks(blocks);
    hide Linked, Depth, Sealed;
    var n := |blocks| - 1;
    var tip, fewer := blocks[n].hash, blocks[..n];
    assert Depth(tip) == n + 1;
    forall i | 0 <= i < |fewer| ensures fewer[i].hash in store - {tip} && (store - {tip})[fewer[i].hash] == fewer[i] {
      assert Depth(blocks[i].hash) == i + 1;
      assert fewer[i] == blocks[i] && blocks[i].hash != tip;
    }
    forall h | h in store - {tip} ensures 1 <= Depth(h) <= |fewer| && fewer[Depth(h) - 1].hash == h {
      var d := Depth(h) - 1;
      assert h in store && h != tip && blocks[d].hash == h;
      assert d != n && fewer[d] == blocks[d];
    }
    assert TipOf(blocks) == tip;
  }

  lemma HashesAppend(blocks: seq<Block>, b: Block)
    ensures HashesOf(blocks + [b]) == [b.hash] + HashesOf(blocks)
    ensures TipOf(blocks + [b]) == b.hash
  {}

  lemma HashesDrop(blocks: seq<Block>)
    requires blocks != []
    ensures |HashesOf(blocks)| == |blocks|
    ensures HashesOf(blocks)[1..] == HashesOf(blocks[..|blocks| - 1])
  {}

  lemma TipStored(store: map<Hash, Block>, blocks: seq<Block>, n: nat)
    requires Linked(blocks) && Stores(store, blocks) && n <= |blocks|
    ensures var h := TipOf(blocks[..n]);
      && (h in store <==> n > 0)
      && (n > 0 ==> store[h] == blocks[n - 1] && store[h].prev == TipOf(blocks[..n - 1]))
  {
    if n == 0 {
      assert Depth(TipOf(blocks[..n])) == 0;
    } else {
      assert TipOf(blocks[..n]) == blocks[n - 1].hash;
    }
  }

  class Blockchain {
    var tipHash: Hash
    var height: nat
    var blockhashes: seq<Hash>
    var store: map<Hash, Block>
    var last: Hash
    ghost var blocks: seq<Block>

    ghost predicate Bucket()
      reads this
    {
      Linked(blocks) && Stores(store, blocks) && last == TipOf(blocks) && tipHash == last
    }

    /** The bucket, its last hash and the cached tip and hashes describe one list of linked blocks. */
    ghost predicate Stored()
      reads this
    {
      Bucket() && blockhashes == HashesOf(blocks)
    }

    /** ... and so does the height. */
    ghost predicate Valid()
      reads this
    {
      Stored() && height == |blocks|
    }

    /** Open a bucket.  The height is not read back: it stays zero until the chain is replayed. */
    constructor (store: map<Hash, Block>, last: Hash, ghost blocks: seq<Block>)
      requires Linked(blocks) && Stores(store, blocks) && last == TipOf(blocks)
      ensures Stored() && this.blocks == blocks && height == 0
      ensures this.store == store && this.last == last
    {
      hide Linked, Stores, HashesOf;
      this.store, this.last, this.blocks := store, last, blocks;
      tipHash := last;
      height := 0;
      blockhashes := [];
      new;
      blockhashes := getBlockhashes();
    }

    /** Recall the height once the hashes have been counted. */
    method SetHeight(height: nat)
      requires Stored() && height == |blocks|
      modifies this`height
      ensures Valid()
    {
      this.height := height;
    }

    method AddBlock(block: Block)
      requires Valid() && Sealed(block) && block.prev == tipHash
      modifies this
      ensures Valid()
      ensures blocks == old(blocks) + [block] && height == old(height) + 1
    {
      hide Linked, Stores, HashesOf, Sealed, TipOf;
      StoreWith(store, blocks, block);
      LinkedAppend(blocks, block);
      HashesAppend(blocks, block);
      store := store[block.hash := block];
      last := block.hash;
      tipHash := block.hash;
      height := height + 1;
      blockhashes := [block.hash] + blockhashes;
      blocks := blocks + [block];
    }

    method RemoveLastBlock() returns (data: BlockData)
      requires Valid() && blocks != []
      modifies this
      ensures Valid()
      ensures blocks == old(blocks)[..|old(blocks)| - 1]
      ensures data == old(blocks)[|old(blocks)| - 1].data
    {
      hide Linked, Stores, HashesOf, TipOf;
      StoreWithout(store, blocks);
      LinkedPrefix(blocks, |blocks| - 1);
      HashesDrop(blocks);
      var bci := new BlockchainIterator(this);
      var _, lastBlock := bci.Prev(|blocks|);
      store := store - {last};
      last := lastBlock.prev;
      tipHash := lastBlock.prev;
      height := height - 1;
      blockhashes := blockhashes[1..];
      blocks := blocks[..|blocks| - 1];
      data := lastBlock.data;
    }

    /** Walk back from the tip until a hash is not in the bucket. */
    method getBlockhashes() returns (hashes: seq<Hash>)
      requires Bucket()
      ensures hashes == HashesOf(blocks)
    {
      hide Linked, Stores, TipOf;
      hashes := [];
      var bci := new BlockchainIterator(this);
      ghost var n: nat := |blocks|;
      var found, block := bci.Prev(n);
      while found
        invariant Bucket() && unchanged(this)
        invariant |hashes| + n == |blocks| && (found <==> n > 0)
        invariant found ==> block == blocks[n - 1] && bci.At(n - 1)
        invariant forall i :: 0 <= i < |hashes| ==> hashes[i] == blocks[|blocks| - 1 - i].hash
        decreases n
      {
        hashes := hashes + [block.hash];
        n := n - 1;
        found, block := bci.Prev(n);
      }
    }

    method GetBlock(blockhash: Hash) returns (found: bool, block: Block)
      requires Valid()
      ensures found <==> exists i :: 0 <= i < |blocks| && blocks[i].hash == blockhash
      ensures found ==> block in blocks && block.hash == blockhash
    {
      hide Linked, Stores, HashesOf, TipOf;
      var bci := new BlockchainIterator(this);
      ghost var n: nat := |blocks|;
      found, block := bci.Prev(n);
      while found
        invariant Bucket() && n <= |blocks| && (found <==> n > 0)
        invariant found ==> block == blocks[n - 1] && bci.At(n - 1)
        invariant forall i :: n <= i < |blocks| ==> blocks[i].hash != blockhash
        decreases n
      {
        if block.hash == blockhash {
          return true, block;
        }
        n := n - 1;
        found, block := bci.Prev(n);
      }
    }
  }

  const NO_BLOCK: Block := Block(NoHash, MatchData([], [], []), 0, NoHash)

  /** Walks a chain from newest to oldest. */
  class BlockchainIterator {
    var currentHash: Hash
    const chain: Blockchain

    /** The first n blocks of the chain are still to come. */
    ghost predicate At(n: nat)
      reads this, chain
    {
      chain.Bucket() && n <= |chain.blocks| && currentHash == TipOf(chain.blocks[..n])
    }

    constructor (chain: Blockchain)
      requires chain.Bucket()
      ensures this.chain == chain && At(|chain.blocks|)
    {
      hide Linked, Stores;
      this.chain := chain;
      currentHash := chain.tipHash;
      assert chain.blocks[..|chain.blocks|] == chain.blocks;
    }

    /** The block with the current hash, if the bucket has it; then the hash of the one before it. */
    method Prev(ghost n: nat) returns (found: bool, block: Block)
      requires At(n)
      modifies this
      ensures found <==> n > 0
      ensures found ==> block == chain.blocks[n - 1] && block.prev == TipOf(chain.blocks[..n - 1]) && At(n - 1)
      ensures !found ==> At(n)
    {
      TipStored(chain.store, chain.blocks, n);
      hide Linked, Stores, TipOf;
      block := NO_BLOCK;
      found := currentHash in chain.store;
      if found {
        block := chain.store[currentHash];
        currentHash := block.prev;
      }
    }
  }

  /** Walks a chain from oldest to newest. */
  class BlockchainForwardIterator {
    const hashes: seq<Hash>
    var currentIndex: int
    const chain: Blockchain

    /** How many blocks have been delivered. */
    ghost predicate At(n: int)
      reads this, chain
    {
      && chain.Stored() && hashes == HashesOf(chain.blocks)
      && 0 <= n <= |chain.blocks| && currentIndex == |chain.blocks| - 1 - n
    }

    constructor (chain: Blockchain)
      requires chain.Stored()
      ensures this.chain == chain && At(0)
    {
      this.chain := chain;
      hashes := chain.blockhashes;
      currentIndex := |chain.blockhashes| - 1;
    }

    method Next(ghost n: int) returns (found: bool, block: Block)
      requires At(n)
      modifies this
      ensures found <==> n < |chain.blocks|
      ensures found ==> block == chain.blocks[n] && At(n + 1)
      ensures !found ==> At(n)
    {
      block := NO_BLOCK;
      if currentIndex < 0 {
        return false, block;
      }
      found := hashes[currentIndex] in chain.store;
      if found {
        block := chain.store[hashes[currentIndex]];
        currentIndex := currentIndex - 1;
      }
    }

    method Undo(ghost n: int)
      requires At(n) && n > 0
      modifies this
      ensures At(n - 1)
    {
      currentIndex := currentIndex + 1;
    }
  }
}
