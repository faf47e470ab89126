/** What the index answers about a block and about a transaction, field by field, over any run. */
module BlockMeaning {
  import opened Common
  import opened BlockMaps
  import opened BlockRetention
  import opened TxLookup
  import opened Restart

  // ----- the entry of a transaction

  /** The i-th operation is the last of the first n that is a transaction with this digest. */
  ghost predicate LastWith(ops: seq<Op>, d: Digest, i: nat, n: nat)
    requires n <= |ops|
  {
    && i < n && ops[i].TransactionOp? && ops[i].digest == d
    && forall j :: i < j < n && ops[j].TransactionOp? ==> ops[j].digest != d
  }

  lemma {:induction false} EntryOf(b: Source, d: Digest, n: nat) returns (i: nat)
    requires n <= |b.ops| && d in TxEntries(b, n)
    ensures LastWith(b.ops, d, i, n)
    ensures TxEntries(b, n)[d] ==
            Tx(d, b.height, b.digest, i % 0x1_0000_0000, b.ops[i].public, b.ops[i].nonce)
  {
    var op := b.ops[n - 1];
    if op.TransactionOp? && op.digest == d {
      i := n - 1;
    } else {
      i := EntryOf(b, d, n - 1);
    }
  }

  lemma {:induction false} EntryThere(b: Source, d: Digest, i: nat, n: nat)
    requires n <= |b.ops| && i < n && b.ops[i].TransactionOp? && b.ops[i].digest == d
    ensures d in TxEntries(b, n)
  {
    if i < n - 1 {
      EntryThere(b, d, i, n - 1);
    }
  }

  /** In every run, a transaction that is found is found with its own digest, the height and digest of the block
      indexed last that lists it, the position of its last operation there, and that operation's key and nonce. */
  lemma FoundEntry(bs: seq<Source>, n: nat, max: Option<nat>, d: Digest) returns (k: nat, i: nat)
    requires n <= |bs| && d in IndexFirst(bs, n, max).txsByHash
    ensures k < n && bs[k].height !in KeepFirst(bs, k, max) && LastWith(bs[k].ops, d, i, |bs[k].ops|)
    ensures forall j, m ::
              (k < j < n && bs[j].height !in KeepFirst(bs, j, max) && 0 <= m < |bs[j].ops| &&
               bs[j].ops[m].TransactionOp?)
              ==> bs[j].ops[m].digest != d
    ensures IndexFirst(bs, n, max).txsByHash[d] ==
            Tx(d, bs[k].height, bs[k].digest, i % 0x1_0000_0000, bs[k].ops[i].public, bs[k].ops[i].nonce)
  {
    hide IndexFirst, KeepFirst, Prunes, TxEntries;
    FoundExactly(bs, n, max, d);
    k := LastIndexed(bs, n, max, d) - 1;
    i := EntryOf(bs[k], d, |bs[k].ops|);
    forall j, m | k < j < n && bs[j].height !in KeepFirst(bs, j, max) && 0 <= m < |bs[j].ops| &&
                  bs[j].ops[m].TransactionOp?
      ensures bs[j].ops[m].digest != d
    {
      assert !Indexes(bs, j, max, d);
      if bs[j].ops[m].digest == d {
        EntryThere(bs[j], d, m, |bs[j].ops|);
      }
    }
  }

  // ----- the digests a block lists

  ghost function TransactionsAmong(ops: seq<Op>, n: nat): set<nat>
    requires n <= |ops|
  {
    set j: nat | j < n && ops[j].TransactionOp?
  }

  /** How many of the first n operations are transactions. */
  ghost function Rank(ops: seq<Op>, n: nat): nat
    requires n <= |ops|
  {
    |TransactionsAmong(ops, n)|
  }

  lemma RankStep(ops: seq<Op>, n: nat)
    requires n < |ops|
    ensures Rank(ops, n + 1) == Rank(ops, n) + if ops[n].TransactionOp? then 1 else 0
  {
    var here, more := TransactionsAmong(ops, n), TransactionsAmong(ops, n + 1);
    if ops[n].TransactionOp? {
      assert more == here + {n};
    } else {
      assert more == here;
    }
  }

  lemma RankPrefix(ops: seq<Op>, m: nat, n: nat)
    requires n <= m <= |ops|
    ensures Rank(ops[..m], n) == Rank(ops, n)
  {
    assert TransactionsAmong(ops[..m], n) == TransactionsAmong(ops, n);
  }

  lemma NoRank(ops: seq<Op>)
    ensures Rank(ops, 0) == 0
  {
    assert TransactionsAmong(ops, 0) == {};
  }

  /** hashes are the digests of the transactions among the operations, one for each, in order. */
  ghost predicate ListsInOrder(hashes: seq<Digest>, ops: seq<Op>) {
    && |hashes| == Rank(ops, |ops|)
    && forall i :: 0 <= i < |ops| && ops[i].TransactionOp? ==>
         Rank(ops, i) < |hashes| && hashes[Rank(ops, i)] == ops[i].digest
  }

  lemma {:induction false} DigestsInOrder(ops: seq<Op>)
    ensures ListsInOrder(TxDigests(ops), ops)
    decreases |ops|
  {
    hide Rank;
    if ops == [] {
      NoRank(ops);
    } else {
      var last := |ops| - 1;
      DigestsInOrder(ops[..last]);
      RankStep(ops, last);
      RankPrefix(ops, last, last);
      forall i | 0 <= i < |ops| && ops[i].TransactionOp?
        ensures Rank(ops, i) < |TxDigests(ops)| && TxDigests(ops)[Rank(ops, i)] == ops[i].digest
      {
        if i < last {
          RankPrefix(ops, last, i);
          assert ops[..last][i] == ops[i];
        }
      }
    }
  }

  // ----- a retained block

  /** One call leaves the blocks that stay as they were and adds at most its own. */
  lemma ApplyKeeps(m: Maps, b: Source, max: Option<nat>, h: nat)
    requires h in ApplyBlock(m, b, max).blocks
    ensures
      var after := ApplyBlock(m, b, max).blocks[h];
      if h in m.blocks then after == m.blocks[h] else h == b.height && after == BlockOf(b, ParentOf(m, h))
  {
    hide Prune, BlockOf, ParentOf;
    if b.height !in m.blocks && max.Some? {
      PruneKeepsBlocks(Insert(m, b), max.value);
    }
  }

  /** A block stays as it was indexed while its height is retained. */
  lemma {:induction false} BlockStays(bs: seq<Source>, i: nat, n: nat, max: Option<nat>, h: nat)
    requires i < n <= |bs| && bs[i].height == h && h !in IndexFirst(bs, i, max).blocks
    requires h in IndexFirst(bs, n, max).blocks && forall j :: i < j < n ==> h in IndexFirst(bs, j, max).blocks
    ensures IndexFirst(bs, n, max).blocks[h] == BlockOf(bs[i], ParentOf(IndexFirst(bs, i, max), h))
  {
    hide BlockOf, ParentOf, ApplyBlock;
    ApplyKeeps(IndexFirst(bs, n - 1, max), bs[n - 1], max, h);
    if n > i + 1 {
      assert h in IndexFirst(bs, n - 1, max).blocks;
      BlockStays(bs, i, n - 1, max, h);
    }
  }

  /** The call that indexed a retained height; the height has been retained ever since. */
  lemma {:induction false} IndexedSince(bs: seq<Source>, n: nat, max: Option<nat>, h: nat) returns (i: nat)
    requires n <= |bs| && h in IndexFirst(bs, n, max).blocks
    ensures i < n && bs[i].height == h && h !in IndexFirst(bs, i, max).blocks
    ensures forall j :: i < j <= n ==> h in IndexFirst(bs, j, max).blocks
  {
    hide ApplyBlock;
    if n == 0 {
      assert false;
    }
    ApplyKeeps(IndexFirst(bs, n - 1, max), bs[n - 1], max, h);
    if h in IndexFirst(bs, n - 1, max).blocks {
      i := IndexedSince(bs, n - 1, max, h);
    } else {
      i := n - 1;
    }
  }

  /** In every run, a retained block is the one presented at the call that indexed it, with its transactions'
      digests in order and their number, linked to the block below it if that one was indexed at that call. */
  lemma RetainedBlock(bs: seq<Source>, n: nat, max: Option<nat>, h: nat) returns (i: nat)
    requires n <= |bs| && h in IndexFirst(bs, n, max).blocks
    ensures i < n && bs[i].height == h && h !in IndexFirst(bs, i, max).blocks
    ensures
      var b, before, source := IndexFirst(bs, n, max).blocks[h], IndexFirst(bs, i, max).blocks, bs[i];
      && b.height == h && b.view == source.view && b.digest == source.digest && b.indexedAt == source.indexedAt
      && ListsInOrder(b.txHashes, source.ops) && b.txCount == |b.txHashes|
      && b.parent == if h > 0 && h - 1 in before then Some(before[h - 1].digest) else None
  {
    hide IndexFirst, ListsInOrder;
    i := IndexedSince(bs, n, max, h);
    BlockStays(bs, i, n, max, h);
    DigestsInOrder(bs[i].ops);
  }
}
