/** A map that is the union of disjoint parts, one part per height. */
module PartUnion {
  ghost predicate IsUnion<K(!new), V(!new)>(whole: map<K, V>, parts: map<nat, map<K, V>>) {
    && (forall h, d :: h in parts && d in parts[h] ==> d in whole && whole[d] == parts[h][d])
    && (forall d :: d in whole ==> exists h :: h in parts && d in parts[h])
  }

  ghost predicate Disjoint<K, V>(parts: map<nat, map<K, V>>) {
    forall h, k :: h in parts && k in parts && h != k ==> parts[h].Keys !! parts[k].Keys
  }

  lemma AddPart<K(!new), V(!new)>(whole: map<K, V>, parts: map<nat, map<K, V>>, h: nat, part: map<K, V>)
    requires IsUnion(whole, parts) && h !in parts && Disjoint(parts[h := part])
    ensures IsUnion(whole + part, parts[h := part])
  {
    var more, w := parts[h := part], whole + part;
    forall k, d | k in more && d in more[k] ensures d in w && w[d] == more[k][d] {
      if k != h {
        assert k in parts && more[k].Keys !! more[h].Keys;
      }
    }
    forall d | d in w ensures exists k :: k in more && d in more[k] {
      if d in part {
        assert h in more;
      } else {
        var k :| k in parts && d in parts[k];
        assert k in more;
      }
    }
  }

  lemma RemovePart<K(!new), V(!new)>(whole: map<K, V>, parts: map<nat, map<K, V>>, h: nat)
    requires IsUnion(whole, parts) && h in parts && Disjoint(parts)
    ensures IsUnion(whole - parts[h].Keys, parts - {h}) && Disjoint(parts - {h})
  {
    var less, w := parts - {h}, whole - parts[h].Keys;
    forall k, d | k in less && d in less[k] ensures d in w && w[d] == less[k][d] {
      assert k in parts && parts[k].Keys !! parts[h].Keys;
    }
    forall d | d in w ensures exists k :: k in less && d in less[k] {
      var k :| k in parts && d in parts[k];
      assert k in less;
    }
  }

  /** Removing one part's keys leaves every other part in place exactly when it shares none. */
  lemma RemovePartExactly<K(!new), V(!new)>(whole: map<K, V>, parts: map<nat, map<K, V>>, h: nat)
    requires h in parts && forall k, d :: k in parts && d in parts[k] ==> d in whole
    ensures (forall k, d :: k in parts && k != h && d in parts[k] ==> d in whole - parts[h].Keys)
            <==> (forall k :: k in parts && k != h ==> parts[h].Keys !! parts[k].Keys)
  {
    if forall k, d :: k in parts && k != h && d in parts[k] ==> d in whole - parts[h].Keys {
      forall k | k in parts && k != h ensures parts[h].Keys !! parts[k].Keys {
        forall d | d in parts[k] ensures d !in parts[h] {
          assert d in whole - parts[h].Keys;
        }
      }
    }
  }

  lemma UnionIsUnique<K(!new), V(!new)>(a: map<K, V>, b: map<K, V>, parts: map<nat, map<K, V>>)
    requires IsUnion(a, parts) && IsUnion(b, parts)
    ensures a == b
  {
    forall d | d in a ensures d in b && a[d] == b[d] {
      var h :| h in parts && d in parts[h];
    }
    forall d | d in b ensures d in a {
      var h :| h in parts && d in parts[h];
    }
  }
}

/** The explorer's block and transaction maps as one value: what indexing a block and pruning the
    oldest one do to them, and what it means for the five maps to describe the same blocks. */
module BlockMaps {
  import opened Common
  import opened PartUnion

  type Digest = nat
  type PublicKey = nat

  datatype Op = TransactionOp(digest: Digest, public: PublicKey, nonce: nat) | OtherOp(payload: nat)

  /** A block as it is handed to the index and to the database. */
  datatype Source = Source(height: nat, view: nat, digest: Digest, ops: seq<Op>, indexedAt: nat)

  datatype Block = Block(
    height: nat, view: nat, digest: Digest, parent: Option<Digest>,
    txHashes: seq<Digest>, txCount: nat, indexedAt: nat)

  datatype Tx = Tx(hash: Digest, blockHeight: nat, blockDigest: Digest, position: nat, public: PublicKey, nonce: nat)

  type TxMap = map<Digest, Tx>

  datatype Maps = Maps(
    blocks: map<nat, Block>,
    byHash: map<Digest, Block>,
    byHeight: map<nat, Digest>,
    txsByHash: TxMap,
    txsByHeight: map<nat, seq<Digest>>)

  const EMPTY := Maps(map[], map[], map[], map[], map[])

  const U32 := 0x1_0000_0000

  // ----- one block

  function TxDigests(ops: seq<Op>): seq<Digest>
    decreases |ops|
  {
    if ops == [] then []
    else
      var op := ops[|ops| - 1];
      if op.TransactionOp? then TxDigests(ops[..|ops| - 1]) + [op.digest] else TxDigests(ops[..|ops| - 1])
  }

  function TxOf(b: Source, op: Op, i: nat): Tx
    requires op.TransactionOp?
  {
    Tx(op.digest, b.height, b.digest, i % U32, op.public, op.nonce)
  }

  /** The transaction entries of the first n operations; a repeated digest keeps the last one. */
  function TxEntries(b: Source, n: nat): TxMap
    requires n <= |b.ops|
  {
    if n == 0 then map[]
    else
      var op := b.ops[n - 1];
      if op.TransactionOp? then TxEntries(b, n - 1)[op.digest := TxOf(b, op, n - 1)] else TxEntries(b, n - 1)
  }

  function Entries(b: Source): TxMap {
    TxEntries(b, |b.ops|)
  }

  function BlockOf(b: Source, parent: Option<Digest>): Block {
    var hashes := TxDigests(b.ops);
    Block(b.height, b.view, b.digest, parent, hashes, |hashes|, b.indexedAt)
  }

  // ----- operations

  function ParentOf(m: Maps, height: nat): Option<Digest> {
    if height > 0 && height - 1 in m.blocks then Some(m.blocks[height - 1].digest) else None
  }

  function Insert(m: Maps, b: Source): Maps {
    var block := BlockOf(b, ParentOf(m, b.height));
    Maps(m.blocks[b.height := block], m.byHash[b.digest := block], m.byHeight[b.height := b.digest],
         m.txsByHash + Entries(b), m.txsByHeight[b.height := TxDigests(b.ops)])
  }

  lemma LeastExists(s: set<nat>) returns (h: nat)
    requires s != {}
    ensures h in s && forall x :: x in s ==> h <= x
    decreases |s|
  {
    h :| h in s;
    var below := set x | x in s && x < h;
    if below != {} {
      SubsetSize(below, s - {h});
      h := LeastExists(below);
    }
    assert forall x :: x in s && x !in below ==> h <= x;
  }

  /** The smallest height. */
  function Least(s: set<nat>): (h: nat)
    requires s != {}
    ensures h in s && forall x :: x in s ==> h <= x
  {
    assert exists h :: h in s && forall x :: x in s ==> h <= x by {
      var w := LeastExists(s);
    }
    var h :| h in s && forall x :: x in s ==> h <= x;
    h
  }

  /** Removes one height from the five maps. */
  function Remove(m: Maps, h: nat): Maps {
    Maps(m.blocks - {h},
         if h in m.byHeight then m.byHash - {m.byHeight[h]} else m.byHash,
         m.byHeight - {h},
         if h in m.txsByHeight then m.txsByHash - (set d | d in m.txsByHeight[h]) else m.txsByHash,
         m.txsByHeight - {h})
  }

  function Prune(m: Maps, max: nat): Maps
    decreases |m.blocks|
  {
    if |m.blocks| <= max then m
    else
      RemovedKey(m.blocks, Least(m.blocks.Keys));
      Prune(Remove(m, Least(m.blocks.Keys)), max)
  }

  function ApplyBlock(m: Maps, b: Source, max: Option<nat>): Maps {
    if b.height in m.blocks then m
    else if max.None? then Insert(m, b)
    else Prune(Insert(m, b), max.value)
  }

  // ----- agreement

  function HashParts(blocks: map<nat, Block>): map<nat, map<Digest, Block>> {
    map h | h in blocks :: map[blocks[h].digest := blocks[h]]
  }

  function TxParts(kept: map<nat, Source>): map<nat, TxMap> {
    map h | h in kept :: Entries(kept[h])
  }

  /** Height by height, the maps keyed by height hold the kept block. */
  ghost predicate HeightsDescribe(m: Maps, kept: map<nat, Source>) {
    && m.blocks.Keys == kept.Keys == m.byHeight.Keys == m.txsByHeight.Keys
    && forall h :: h in kept ==>
         && kept[h].height == h
         && m.blocks[h] == BlockOf(kept[h], m.blocks[h].parent)
         && m.byHeight[h] == kept[h].digest
         && m.txsByHeight[h] == TxDigests(kept[h].ops)
  }

  /** The five maps describe exactly the blocks `kept`, whatever parent links they carry: a lookup
      by hash finds the kept block with that hash and a lookup of a transaction finds its entry in
      the kept block that holds it; neither finds anything else. */
  ghost predicate Describes(m: Maps, kept: map<nat, Source>) {
    && HeightsDescribe(m, kept)
    && IsUnion(m.byHash, HashParts(m.blocks))
    && IsUnion(m.txsByHash, TxParts(kept))
  }

  /** No block or transaction digest is used at two heights. */
  ghost predicate Apart(a: Source, b: Source) {
    a.height != b.height ==>
      && a.digest != b.digest
      && forall d :: d in TxDigests(a.ops) ==> d !in TxDigests(b.ops)
  }

  ghost predicate AllApart(kept: map<nat, Source>) {
    && (forall h :: h in kept ==> kept[h].height == h)
    && forall h, k {:trigger Apart(kept[h], kept[k])} :: h in kept && k in kept ==> Apart(kept[h], kept[k])
  }

  lemma EntriesKeys(b: Source)
    ensures Entries(b).Keys == set d | d in TxDigests(b.ops)
  {
    EntriesKeysUpTo(b, |b.ops|);
    assert b.ops[..|b.ops|] == b.ops;
  }

  lemma {:induction false} EntriesKeysUpTo(b: Source, n: nat)
    requires n <= |b.ops|
    ensures TxEntries(b, n).Keys == set d | d in TxDigests(b.ops[..n])
  {
    if n > 0 {
      EntriesKeysUpTo(b, n - 1);
      assert b.ops[..n][..n - 1] == b.ops[..n - 1];
    }
  }

  lemma TxPartsDisjoint(kept: map<nat, Source>)
    requires AllApart(kept)
    ensures Disjoint(TxParts(kept))
  {
    forall h, k | h in kept && k in kept && h != k ensures Entries(kept[h]).Keys !! Entries(kept[k]).Keys {
      EntriesKeys(kept[h]);
      EntriesKeys(kept[k]);
      assert Apart(kept[h], kept[k]);
    }
  }

  lemma HashPartsDisjoint(m: Maps, kept: map<nat, Source>)
    requires HeightsDescribe(m, kept) && AllApart(kept)
    ensures Disjoint(HashParts(m.blocks))
  {
    forall h, k | h in m.blocks && k in m.blocks && h != k ensures m.blocks[h].digest != m.blocks[k].digest {
      assert Apart(kept[h], kept[k]);
    }
  }

  // ----- what the operations keep

  lemma InsertHeights(m: Maps, kept: map<nat, Source>, b: Source)
    requires HeightsDescribe(m, kept) && b.height !in kept
    ensures HeightsDescribe(Insert(m, b), kept[b.height := b])
  {
  }

  lemma HashPartsAfter(blocks: map<nat, Block>, h: nat, block: Block)
    ensures HashParts(blocks[h := block]) == HashParts(blocks)[h := map[block.digest := block]]
  {
  }

  lemma HashPartsWithout(blocks: map<nat, Block>, h: nat)
    ensures HashParts(blocks - {h}) == HashParts(blocks) - {h}
  {
  }

  lemma TxPartsAfter(kept: map<nat, Source>, b: Source)
    ensures TxParts(kept[b.height := b]) == TxParts(kept)[b.height := Entries(b)]
  {
  }

  lemma TxPartsWithout(kept: map<nat, Source>, h: nat)
    ensures TxParts(kept - {h}) == TxParts(kept) - {h}
  {
  }

  lemma UpdateIsUnion(byHash: map<Digest, Block>, digest: Digest, block: Block)
    ensures byHash[digest := block] == byHash + map[digest := block]
  {
  }

  lemma AddHash(byHash: map<Digest, Block>, blocks: map<nat, Block>, h: nat, block: Block)
    requires IsUnion(byHash, HashParts(blocks)) && h !in blocks && Disjoint(HashParts(blocks[h := block]))
    ensures IsUnion(byHash[block.digest := block], HashParts(blocks[h := block]))
  {
    var part: map<Digest, Block> := map[block.digest := block];
    HashPartsAfter(blocks, h, block);
    AddPart(byHash, HashParts(blocks), h, part);
    UpdateIsUnion(byHash, block.digest, block);
  }

  lemma DropHash(byHash: map<Digest, Block>, blocks: map<nat, Block>, h: nat)
    requires IsUnion(byHash, HashParts(blocks)) && h in blocks && Disjoint(HashParts(blocks))
    ensures IsUnion(byHash - {blocks[h].digest}, HashParts(blocks - {h}))
  {
    HashPartsWithout(blocks, h);
    RemovePart(byHash, HashParts(blocks), h);
    assert HashParts(blocks)[h].Keys == {blocks[h].digest};
  }

  lemma InsertHashes(m: Maps, kept: map<nat, Source>, b: Source)
    requires HeightsDescribe(m, kept) && b.height !in kept && AllApart(kept[b.height := b])
    requires IsUnion(m.byHash, HashParts(m.blocks))
    ensures IsUnion(Insert(m, b).byHash, HashParts(Insert(m, b).blocks))
  {
    InsertHeights(m, kept, b);
    HashPartsDisjoint(Insert(m, b), kept[b.height := b]);
    AddHash(m.byHash, m.blocks, b.height, BlockOf(b, ParentOf(m, b.height)));
  }

  lemma InsertTxs(m: Maps, kept: map<nat, Source>, b: Source)
    requires b.height !in kept && AllApart(kept[b.height := b])
    requires IsUnion(m.txsByHash, TxParts(kept))
    ensures IsUnion(Insert(m, b).txsByHash, TxParts(kept[b.height := b]))
  {
    TxPartsDisjoint(kept[b.height := b]);
    TxPartsAfter(kept, b);
    AddPart(m.txsByHash, TxParts(kept), b.height, Entries(b));
  }

  lemma InsertDescribes(m: Maps, kept: map<nat, Source>, b: Source)
    requires Describes(m, kept) && b.height !in kept && AllApart(kept[b.height := b])
    ensures Describes(Insert(m, b), kept[b.height := b])
  {
    InsertHeights(m, kept, b);
    InsertHashes(m, kept, b);
    InsertTxs(m, kept, b);
  }

  lemma RemoveHeights(m: Maps, kept: map<nat, Source>, h: nat)
    requires HeightsDescribe(m, kept) && h in kept
    ensures HeightsDescribe(Remove(m, h), kept - {h})
  {
  }

  lemma RemovedTxs(m: Maps, kept: map<nat, Source>, h: nat)
    requires HeightsDescribe(m, kept) && h in kept
    ensures Remove(m, h).txsByHash == m.txsByHash - TxParts(kept)[h].Keys
  {
    EntriesKeys(kept[h]);
  }

  lemma RemoveHashes(m: Maps, kept: map<nat, Source>, h: nat)
    requires HeightsDescribe(m, kept) && AllApart(kept) && h in kept
    requires IsUnion(m.byHash, HashParts(m.blocks))
    ensures IsUnion(Remove(m, h).byHash, HashParts(Remove(m, h).blocks))
  {
    HashPartsDisjoint(m, kept);
    DropHash(m.byHash, m.blocks, h);
  }

  lemma RemoveTxs(m: Maps, kept: map<nat, Source>, h: nat)
    requires HeightsDescribe(m, kept) && AllApart(kept) && h in kept
    requires IsUnion(m.txsByHash, TxParts(kept))
    ensures IsUnion(Remove(m, h).txsByHash, TxParts(kept - {h}))
  {
    TxPartsDisjoint(kept);
    TxPartsWithout(kept, h);
    RemovedTxs(m, kept, h);
    RemovePart(m.txsByHash, TxParts(kept), h);
  }

  lemma RemoveDescribes(m: Maps, kept: map<nat, Source>, h: nat)
    requires Describes(m, kept) && AllApart(kept) && h in kept
    ensures Describes(Remove(m, h), kept - {h}) && AllApart(kept - {h})
  {
    RemoveHeights(m, kept, h);
    RemoveHashes(m, kept, h);
    RemoveTxs(m, kept, h);
  }

  /** The maps are determined by the kept blocks and the parent links. */
  lemma Determined(m: Maps, n: Maps, kept: map<nat, Source>)
    requires Describes(m, kept) && Describes(n, kept)
    requires forall h :: h in kept ==> m.blocks[h].parent == n.blocks[h].parent
    ensures m == n
  {
    hide TxDigests, Entries, IsUnion;
    assert m.blocks == n.blocks;
    assert m.byHeight == n.byHeight;
    assert m.txsByHeight == n.txsByHeight;
    UnionIsUnique(m.byHash, n.byHash, HashParts(m.blocks));
    UnionIsUnique(m.txsByHash, n.txsByHash, TxParts(kept));
  }

  /** With digests shared between heights: if every transaction of the kept blocks can be found,
      pruning height h leaves those of the other blocks findable exactly when none of them repeats
      a digest of the pruned one. */
  lemma PruneKeepsTxsExactly(m: Maps, kept: map<nat, Source>, h: nat)
    requires HeightsDescribe(m, kept) && h in kept
    requires forall k, d :: k in kept && d in Entries(kept[k]) ==> d in m.txsByHash
    ensures (forall k, d :: k in kept && k != h && d in Entries(kept[k]) ==> d in Remove(m, h).txsByHash)
            <==> (forall k :: k in kept && k != h ==> Entries(kept[h]).Keys !! Entries(kept[k]).Keys)
  {
    var parts := TxParts(kept);
    RemovedTxs(m, kept, h);
    RemovePartExactly(m.txsByHash, parts, h);
    assert forall k :: k in kept ==> parts[k] == Entries(kept[k]);
  }
}
