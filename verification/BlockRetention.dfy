/** Indexing any sequence of blocks: what is retained, and that the five maps always agree. */
module BlockRetention {
  import opened Common
  import opened BlockMaps

  // ----- the blocks that should be kept

  /** Drops the lowest heights until at most max are left. */
  function Highest(kept: map<nat, Source>, max: nat): map<nat, Source>
    decreases |kept|
  {
    if |kept| <= max then kept
    else
      RemovedKey(kept, Least(kept.Keys));
      Highest(kept - {Least(kept.Keys)}, max)
  }

  function Keep(kept: map<nat, Source>, b: Source, max: Option<nat>): map<nat, Source> {
    if b.height in kept then kept
    else if max.None? then kept[b.height := b]
    else Highest(kept[b.height := b], max.value)
  }

  /** The blocks kept, and the maps, after the first n blocks were presented. */
  function KeepFirst(bs: seq<Source>, n: nat, max: Option<nat>): map<nat, Source>
    requires n <= |bs|
  {
    if n == 0 then map[] else Keep(KeepFirst(bs, n - 1, max), bs[n - 1], max)
  }

  function IndexFirst(bs: seq<Source>, n: nat, max: Option<nat>): Maps
    requires n <= |bs|
  {
    if n == 0 then EMPTY else ApplyBlock(IndexFirst(bs, n - 1, max), bs[n - 1], max)
  }

  function IndexAll(bs: seq<Source>, max: Option<nat>): Maps {
    IndexFirst(bs, |bs|, max)
  }

  function Heights(bs: seq<Source>, n: nat): (r: set<nat>)
    requires n <= |bs|
    ensures forall i :: 0 <= i < n ==> bs[i].height in r
    ensures forall h :: h in r ==> exists i :: 0 <= i < n && bs[i].height == h
  {
    if n == 0 then {} else Heights(bs, n - 1) + {bs[n - 1].height}
  }

  /** `top` are the max greatest of `all`, or all of them if there are fewer. */
  ghost predicate Greatest(top: set<nat>, all: set<nat>, max: nat) {
    && top <= all
    && |top| == Min(max, |all|)
    && forall h, x :: h in top && x in all && x !in top ==> x < h
  }

  // ----- pruning

  lemma {:induction false} PruneDescribes(m: Maps, kept: map<nat, Source>, max: nat)
    requires Describes(m, kept) && AllApart(kept)
    ensures Describes(Prune(m, max), Highest(kept, max)) && AllApart(Highest(kept, max))
    decreases |kept|
  {
    assert |m.blocks.Keys| == |kept.Keys|;
    if |kept| > max {
      var h := Least(kept.Keys);
      RemoveDescribes(m, kept, h);
      RemovedKey(kept, h);
      PruneDescribes(Remove(m, h), kept - {h}, max);
    }
  }

  lemma {:induction false} HighestOf(kept: map<nat, Source>, max: nat)
    ensures Greatest(Highest(kept, max).Keys, kept.Keys, max)
    ensures forall h :: h in Highest(kept, max) ==> h in kept && Highest(kept, max)[h] == kept[h]
    decreases |kept|
  {
    assert |kept.Keys| == |kept|;
    if |kept| > max {
      var h := Least(kept.Keys);
      RemovedKey(kept, h);
      HighestOf(kept - {h}, max);
      assert |(kept - {h}).Keys| == |kept| - 1;
    }
  }

  // ----- retained heights

  lemma GreatestAfter(top: set<nat>, all: set<nat>, max: nat, h: nat, next: set<nat>)
    requires Greatest(top, all, max) && Greatest(next, top + {h}, max)
    ensures Greatest(next, all + {h}, max)
  {
    forall k, x | k in next && x in all + {h} && x !in next ensures x < k {
      if x !in top && x != h {
        if k !in top {
          if |top| == |all| {
            SubsetSize(top, all);
            assert x in top;
          } else {
            assert |top| == max;
            GrowBeyond(top, h, next, max);
            var y :| y in top && y !in next;
            assert x < y < h;
          }
        }
      }
    }
    if |top| == |all| {
      SubsetSize(top, all);
    } else {
      SubsetSize(top, top + {h});
      SubsetSize(all, all + {h});
    }
  }

  lemma GrowBeyond(top: set<nat>, h: nat, next: set<nat>, max: nat)
    requires h !in top && |top| == max && h in next && next <= top + {h} && |next| == max
    ensures exists y :: y in top && y !in next
  {
    if top <= next {
      SubsetSize(top + {h}, next);
    }
  }

  lemma {:induction false} RetainedAreGreatest(bs: seq<Source>, n: nat, max: nat)
    requires n <= |bs|
    ensures Greatest(KeepFirst(bs, n, Some(max)).Keys, Heights(bs, n), max)
  {
    hide Highest, Greatest, Least;
    if n > 0 {
      RetainedAreGreatest(bs, n - 1, max);
      var kept, b := KeepFirst(bs, n - 1, Some(max)), bs[n - 1];
      if b.height in kept {
        SameHeights(bs, n, max);
      } else {
        HighestOf(kept[b.height := b], max);
        assert kept[b.height := b].Keys == kept.Keys + {b.height};
        GreatestAfter(kept.Keys, Heights(bs, n - 1), max, b.height, KeepFirst(bs, n, Some(max)).Keys);
      }
    } else {
      assert KeepFirst(bs, n, Some(max)).Keys == {};
      NoneIsGreatest(max);
    }
  }

  lemma NoneIsGreatest(max: nat)
    ensures Greatest({}, {}, max)
  {
  }

  lemma SameHeights(bs: seq<Source>, n: nat, max: nat)
    requires 0 < n <= |bs| && bs[n - 1].height in KeepFirst(bs, n - 1, Some(max))
    requires Greatest(KeepFirst(bs, n - 1, Some(max)).Keys, Heights(bs, n - 1), max)
    ensures Heights(bs, n) == Heights(bs, n - 1)
  {
  }

  /** A retained height is decided by the heights presented alone: it was presented, and fewer than
      max presented heights are above it. */
  lemma RetainedExactly(bs: seq<Source>, n: nat, max: nat, h: nat)
    requires n <= |bs|
    ensures h in KeepFirst(bs, n, Some(max)) <==>
            h in Heights(bs, n) && |(set x | x in Heights(bs, n) && x > h)| < max
  {
    RetainedAreGreatest(bs, n, max);
    var top, all := KeepFirst(bs, n, Some(max)).Keys, Heights(bs, n);
    GreatestExactly(top, all, max, h);
  }

  lemma GreatestExactly(top: set<nat>, all: set<nat>, max: nat, h: nat)
    requires Greatest(top, all, max)
    ensures h in top <==> h in all && |(set x | x in all && x > h)| < max
  {
    var above := set x | x in all && x > h;
    if h in top {
      SubsetSize(above, top - {h});
    } else if h in all {
      SubsetSize(top, above);
      SubsetSize(top, all);
    }
  }

  // ----- agreement over any run

  /** No digest is shared between two heights. */
  ghost predicate PairwiseApart(bs: seq<Source>) {
    forall i, j {:trigger Apart(bs[i], bs[j])} :: 0 <= i < |bs| && 0 <= j < |bs| ==> Apart(bs[i], bs[j])
  }

  lemma {:induction false} KeptWereGiven(bs: seq<Source>, n: nat, max: Option<nat>, h: nat) returns (i: nat)
    requires n <= |bs| && h in KeepFirst(bs, n, max)
    ensures i < n && KeepFirst(bs, n, max)[h] == bs[i] && bs[i].height == h
  {
    var kept, b := KeepFirst(bs, n - 1, max), bs[n - 1];
    if b.height !in kept && max.Some? {
      HighestOf(kept[b.height := b], max.value);
    }
    if h in kept && KeepFirst(bs, n, max)[h] == kept[h] {
      i := KeptWereGiven(bs, n - 1, max, h);
    } else {
      i := n - 1;
    }
  }

  lemma KeepApart(bs: seq<Source>, n: nat, max: Option<nat>)
    requires PairwiseApart(bs) && n < |bs| && bs[n].height !in KeepFirst(bs, n, max)
    ensures AllApart(KeepFirst(bs, n, max)[bs[n].height := bs[n]])
  {
    var more := KeepFirst(bs, n, max)[bs[n].height := bs[n]];
    forall h, k | h in more && k in more ensures more[h].height == h && Apart(more[h], more[k]) {
      var i, j := n, n;
      if h != bs[n].height {
        i := KeptWereGiven(bs, n, max, h);
      }
      if k != bs[n].height {
        j := KeptWereGiven(bs, n, max, k);
      }
      assert Apart(bs[i], bs[j]);
    }
  }

  /** Block index agreement: whatever blocks are presented, in whatever order and with whatever
      repetitions, as long as no digest is shared between two heights, the five maps describe
      exactly the retained blocks after every call. */
  lemma {:induction false} IndexAgrees(bs: seq<Source>, n: nat, max: Option<nat>)
    requires PairwiseApart(bs) && n <= |bs|
    ensures Describes(IndexFirst(bs, n, max), KeepFirst(bs, n, max)) && AllApart(KeepFirst(bs, n, max))
  {
    hide Describes, AllApart, Prune, Highest, Insert, Apart, PairwiseApart;
    if n > 0 {
      IndexAgrees(bs, n - 1, max);
      var kept, m, b := KeepFirst(bs, n - 1, max), IndexFirst(bs, n - 1, max), bs[n - 1];
      SameKeys(m, kept);
      if b.height !in kept {
        KeepApart(bs, n - 1, max);
        InsertDescribes(m, kept, b);
        if max.Some? {
          PruneDescribes(Insert(m, b), kept[b.height := b], max.value);
        }
      }
    } else {
      EmptyDescribes();
    }
  }

  lemma SameKeys(m: Maps, kept: map<nat, Source>)
    requires Describes(m, kept)
    ensures m.blocks.Keys == kept.Keys
  {
  }

  lemma EmptyDescribes()
    ensures Describes(EMPTY, map[]) && AllApart(map[])
  {
  }

  lemma IndexOne(bs: seq<Source>)
    requires bs != []
    ensures IndexFirst(bs, 1, Some(1)) == Insert(EMPTY, bs[0])
  {
    var m := Insert(EMPTY, bs[0]);
    assert m.blocks.Keys == {bs[0].height};
    assert |m.blocks.Keys| == 1;
    assert IndexFirst(bs, 0, Some(1)) == EMPTY;
  }

  lemma PruneOneOfTwo(m: Maps, low: nat, high: nat)
    requires low < high && m.blocks.Keys == {low, high}
    ensures Prune(m, 1) == Remove(m, low)
  {
    assert |m.blocks.Keys| == 2;
    assert Least(m.blocks.Keys) == low;
    assert Remove(m, low).blocks.Keys == {high};
    assert |Remove(m, low).blocks.Keys| == 1;
  }

  /** With a transaction digest at two heights the maps disagree: once the first block is pruned,
      the retained second block lists a transaction that cannot be found. */
  lemma SharedDigestIsLost(a: Source, b: Source, d: Digest)
    requires a.height < b.height && d in TxDigests(a.ops) && d in TxDigests(b.ops)
    ensures
      var m := IndexAll([a, b], Some(1));
      b.height in m.blocks && d in m.blocks[b.height].txHashes && d !in m.txsByHash
  {
    IndexOne([a, b]);
    var both := Insert(Insert(EMPTY, a), b);
    assert both.blocks.Keys == {a.height, b.height};
    PruneOneOfTwo(both, a.height, b.height);
    assert both.txsByHeight[a.height] == TxDigests(a.ops);
  }

  lemma {:induction false} IndexPrefix(bs: seq<Source>, cs: seq<Source>, n: nat, max: Option<nat>)
    requires n <= |bs| && n <= |cs| && forall i :: 0 <= i < n ==> bs[i] == cs[i]
    ensures IndexFirst(bs, n, max) == IndexFirst(cs, n, max)
  {
    hide ApplyBlock;
    if n > 0 {
      IndexPrefix(bs, cs, n - 1, max);
    }
  }

  // ----- the class

  lemma IndexOneMore(bs: seq<Source>, b: Source, max: Option<nat>)
    ensures IndexAll(bs + [b], max) == ApplyBlock(IndexAll(bs, max), b, max)
  {
    hide ApplyBlock;
    IndexPrefix(bs, bs + [b], |bs|, max);
  }

  class ExplorerIndex {
    const maxBlocks: Option<nat>
    var blocks: map<nat, Block>
    var byHash: map<Digest, Block>
    var byHeight: map<nat, Digest>
    var txsByHash: TxMap
    var txsByHeight: map<nat, seq<Digest>>
    /** The blocks presented so far. */
    ghost var presented: seq<Source>

    ghost function View(): Maps
      reads this
    {
      Maps(blocks, byHash, byHeight, txsByHash, txsByHeight)
    }

    ghost predicate Valid()
      reads this
    {
      View() == IndexAll(presented, maxBlocks)
    }

    constructor (maxBlocks: Option<nat>)
      ensures Valid() && presented == [] && this.maxBlocks == maxBlocks
    {
      this.maxBlocks := maxBlocks;
      blocks, byHash, byHeight, txsByHash, txsByHeight := map[], map[], map[], map[], map[];
      presented := [];
    }

    method EnforceBlockRetention()
      modifies this`blocks, this`byHash, this`byHeight, this`txsByHash, this`txsByHeight
      ensures View() == if maxBlocks.None? then old(View()) else Prune(old(View()), maxBlocks.value)
    {
      if maxBlocks.None? {
        return;
      }
      while |blocks| > maxBlocks.value
        invariant Prune(View(), maxBlocks.value) == Prune(old(View()), maxBlocks.value)
        decreases |blocks|
      {
        RemovedKey(blocks, Least(blocks.Keys));
        RemoveOldest();
      }
    }

    method RemoveOldest()
      requires blocks != map[]
      modifies this`blocks, this`byHash, this`byHeight, this`txsByHash, this`txsByHeight
      ensures View() == Remove(old(View()), Least(old(blocks.Keys)))
    {
      var removed := Least(blocks.Keys);
      blocks := blocks - {removed};
      if removed in byHeight {
        byHash := byHash - {byHeight[removed]};
        byHeight := byHeight - {removed};
      }
      if removed in txsByHeight {
        RemoveDigests(txsByHeight[removed]);
        txsByHeight := txsByHeight - {removed};
      }
    }

    method RemoveDigests(digests: seq<Digest>)
      modifies this`txsByHash
      ensures txsByHash == old(txsByHash) - (set d | d in digests)
    {
      for i := 0 to |digests|
        invariant txsByHash == old(txsByHash) - (set d | d in digests[..i])
      {
        txsByHash := txsByHash - {digests[i]};
        assert digests[..i + 1] == digests[..i] + [digests[i]];
      }
      assert digests[..|digests|] == digests;
    }

    /** Indexes the transactions of a block. */
    method IndexTransactions(b: Source) returns (digests: seq<Digest>)
      modifies this`txsByHash
      ensures digests == TxDigests(b.ops)
      ensures txsByHash == old(txsByHash) + Entries(b)
    {
      digests := [];
      for i := 0 to |b.ops|
        invariant digests == TxDigests(b.ops[..i])
        invariant txsByHash == old(txsByHash) + TxEntries(b, i)
      {
        assert b.ops[..i + 1][..i] == b.ops[..i];
        var op := b.ops[i];
        if op.TransactionOp? {
          digests := digests + [op.digest];
          txsByHash := txsByHash[op.digest := TxOf(b, op, i)];
        }
      }
      assert b.ops[..|b.ops|] == b.ops;
    }

    method ApplyBlockIndexing(b: Source) returns (applied: bool)
      requires Valid()
      modifies this
      ensures Valid() && presented == old(presented) + [b]
      ensures applied <==> b.height !in old(blocks)
      ensures !applied ==> View() == old(View())
    {
      hide Insert, Prune, IndexFirst;
      presented := presented + [b];
      IndexOneMore(old(presented), b, maxBlocks);
      if b.height in blocks {
        return false;
      }
      InsertBlock(b);
      EnforceBlockRetention();
      return true;
    }

    method InsertBlock(b: Source)
      modifies this`blocks, this`byHash, this`byHeight, this`txsByHash, this`txsByHeight
      ensures View() == Insert(old(View()), b)
    {
      hide TxDigests, Entries;
      var parent :=
        if b.height > 0 && b.height - 1 in blocks then Some(blocks[b.height - 1].digest) else None;
      var digests := IndexTransactions(b);
      var block := Block(b.height, b.view, b.digest, parent, digests, |digests|, b.indexedAt);
      byHash := byHash[b.digest := block];
      byHeight := byHeight[b.height := b.digest];
      txsByHeight := txsByHeight[b.height := digests];
      blocks := blocks[b.height := block];
    }
  }
}

/** Looking up a transaction after any run, with digests shared between heights or not. */
module TxLookup {
  import opened Common
  import opened BlockMaps
  import opened BlockRetention

  /** The blocks held while the j-th block is indexed, before pruning. */
  function Held(bs: seq<Source>, j: nat, max: Option<nat>): map<nat, Source>
    requires j < |bs|
  {
    var kept := KeepFirst(bs, j, max);
    if bs[j].height in kept then kept else kept[bs[j].height := bs[j]]
  }

  /** The j-th call indexes its block, and the block lists the digest. */
  predicate Indexes(bs: seq<Source>, j: nat, max: Option<nat>, d: Digest)
    requires j < |bs|
  {
    bs[j].height !in KeepFirst(bs, j, max) && d in Entries(bs[j])
  }

  /** The j-th call prunes a block that lists the digest. */
  ghost predicate Prunes(bs: seq<Source>, j: nat, max: Option<nat>, d: Digest)
    requires j < |bs|
  {
    Drops(Held(bs, j, max), KeepFirst(bs, j + 1, max), d)
  }

  ghost predicate Drops(held: map<nat, Source>, kept: map<nat, Source>, d: Digest) {
    exists h :: h in held && h !in kept && d in Entries(held[h])
  }

  /** One more than the last of the first n calls that indexed a block listing the digest; zero if none did. */
  function LastIndexed(bs: seq<Source>, n: nat, max: Option<nat>, d: Digest): (r: nat)
    requires n <= |bs|
    ensures r <= n && (r > 0 ==> Indexes(bs, r - 1, max, d))
    ensures forall j :: r <= j < n ==> !Indexes(bs, j, max, d)
  {
    hide KeepFirst, Entries;
    if n == 0 then 0 else if Indexes(bs, n - 1, max, d) then n else LastIndexed(bs, n - 1, max, d)
  }

  /** From the last call that indexed a block listing the digest on, no block listing it was pruned. */
  ghost predicate Standing(bs: seq<Source>, n: nat, max: Option<nat>, d: Digest)
    requires n <= |bs|
  {
    var r := LastIndexed(bs, n, max, d);
    r > 0 && forall j :: r - 1 <= j < n ==> !Prunes(bs, j, max, d)
  }

  function Lookup(m: TxMap, d: Digest): Option<Tx> {
    if d in m then Some(m[d]) else None
  }

  lemma InsertKeepsHeights(m: Maps, kept: map<nat, Source>, b: Source)
    requires HeightsDescribe(m, kept) && b.height !in kept
    ensures HeightsDescribe(Insert(m, b), kept[b.height := b])
    ensures forall d :: Lookup(Insert(m, b).txsByHash, d) ==
                        if d in Entries(b) then Some(Entries(b)[d]) else Lookup(m.txsByHash, d)
  {
    InsertHeights(m, kept, b);
  }

  /** Pruning makes exactly the transactions listed by a pruned block disappear. */
  lemma {:induction false} PruneLookup(m: Maps, kept: map<nat, Source>, max: nat, d: Digest)
    requires HeightsDescribe(m, kept)
    ensures HeightsDescribe(Prune(m, max), Highest(kept, max))
    ensures Lookup(Prune(m, max).txsByHash, d) ==
            if Drops(kept, Highest(kept, max), d) then None else Lookup(m.txsByHash, d)
    decreases |kept|
  {
    hide HeightsDescribe, Remove, Entries, Least;
    SameSize(m, kept);
    if |kept| > max {
      var h := Least(kept.Keys);
      RemoveHeights(m, kept, h);
      RemovedKey(kept, h);
      PruneLookup(Remove(m, h), kept - {h}, max, d);
      RemoveLookup(m, kept, h, d);
      DropsOneMore(kept, h, max, d);
    }
  }

  lemma SameSize(m: Maps, kept: map<nat, Source>)
    requires HeightsDescribe(m, kept)
    ensures m.blocks.Keys == kept.Keys && |m.blocks| == |kept|
  {
    assert |m.blocks.Keys| == |kept.Keys|;
  }

  lemma RemoveLookup(m: Maps, kept: map<nat, Source>, h: nat, d: Digest)
    requires HeightsDescribe(m, kept) && h in kept
    ensures Lookup(Remove(m, h).txsByHash, d) == if d in Entries(kept[h]) then None else Lookup(m.txsByHash, d)
  {
    RemovedTxs(m, kept, h);
  }

  lemma DropsOneMore(kept: map<nat, Source>, h: nat, max: nat, d: Digest)
    requires |kept| > max && h == Least(kept.Keys)
    ensures h in kept
    ensures Drops(kept, Highest(kept, max), d) <==> d in Entries(kept[h]) || Drops(kept - {h}, Highest(kept, max), d)
  {
    hide Entries;
    RemovedKey(kept, h);
    HighestOf(kept - {h}, max);
    var top := Highest(kept, max);
    assert top == Highest(kept - {h}, max) && h !in top;
    if Drops(kept, top, d) && d !in Entries(kept[h]) {
      var k :| k in kept && k !in top && d in Entries(kept[k]);
      assert k in kept - {h};
    }
    if Drops(kept - {h}, top, d) {
      var k :| k in kept - {h} && k !in top && d in Entries((kept - {h})[k]);
      assert k in kept;
    }
  }

  /** One call, in terms of what it indexes and prunes. */
  lemma ApplyLookup(bs: seq<Source>, n: nat, max: Option<nat>, d: Digest)
    requires n < |bs| && HeightsDescribe(IndexFirst(bs, n, max), KeepFirst(bs, n, max))
    ensures HeightsDescribe(IndexFirst(bs, n + 1, max), KeepFirst(bs, n + 1, max))
    ensures Lookup(IndexFirst(bs, n + 1, max).txsByHash, d) ==
            if Prunes(bs, n, max, d) then None
            else if Indexes(bs, n, max, d) then Some(Entries(bs[n])[d])
            else Lookup(IndexFirst(bs, n, max).txsByHash, d)
  {
    hide HeightsDescribe, Entries, Insert, Prune, Highest;
    var m, kept, b := IndexFirst(bs, n, max), KeepFirst(bs, n, max), bs[n];
    SameSize(m, kept);
    if b.height !in kept {
      InsertKeepsHeights(m, kept, b);
      if max.Some? {
        PruneLookup(Insert(m, b), kept[b.height := b], max.value, d);
      }
    }
  }

  /** In every run, whatever digests the blocks share: the keyed-by-height maps hold exactly the retained
      blocks, and a transaction is found if and only if some call indexed a block listing it and, from the
      last such call on, no block listing it was pruned; what is found is that last block's entry. */
  lemma {:induction false} FoundExactly(bs: seq<Source>, n: nat, max: Option<nat>, d: Digest)
    requires n <= |bs|
    ensures HeightsDescribe(IndexFirst(bs, n, max), KeepFirst(bs, n, max))
    ensures
      var r := LastIndexed(bs, n, max, d);
      Lookup(IndexFirst(bs, n, max).txsByHash, d) ==
      if Standing(bs, n, max, d) then Some(Entries(bs[r - 1])[d]) else None
  {
    hide HeightsDescribe, IndexFirst, KeepFirst, Entries, Prunes;
    if n == 0 {
      EmptyHeights(bs, max);
    } else {
      FoundExactly(bs, n - 1, max, d);
      ApplyLookup(bs, n - 1, max, d);
    }
  }

  lemma EmptyHeights(bs: seq<Source>, max: Option<nat>)
    ensures HeightsDescribe(IndexFirst(bs, 0, max), KeepFirst(bs, 0, max)) && IndexFirst(bs, 0, max).txsByHash == map[]
  {
  }

  /** A digest listed by a retained block can be found if and only if no block listing it was pruned since a
      block listing it was last indexed. */
  lemma RetainedFoundExactly(bs: seq<Source>, n: nat, max: Option<nat>, h: nat, d: Digest)
    requires n <= |bs| && h in KeepFirst(bs, n, max) && d in Entries(KeepFirst(bs, n, max)[h])
    ensures LastIndexed(bs, n, max, d) > 0
    ensures d in IndexFirst(bs, n, max).txsByHash <==>
            forall j :: LastIndexed(bs, n, max, d) - 1 <= j < n ==> !Prunes(bs, j, max, d)
  {
    hide IndexFirst, KeepFirst, Entries, Prunes, HeightsDescribe;
    var i := IndexedWhen(bs, n, max, h);
    assert Indexes(bs, i, max, d);
    FoundExactly(bs, n, max, d);
  }

  /** The call that indexed a retained block. */
  lemma {:induction false} IndexedWhen(bs: seq<Source>, n: nat, max: Option<nat>, h: nat) returns (i: nat)
    requires n <= |bs| && h in KeepFirst(bs, n, max)
    ensures i < n && bs[i].height == h && h !in KeepFirst(bs, i, max) && KeepFirst(bs, n, max)[h] == bs[i]
  {
    var kept, b := KeepFirst(bs, n - 1, max), bs[n - 1];
    if b.height !in kept && max.Some? {
      HighestOf(kept[b.height := b], max.value);
    }
    if h in kept {
      i := IndexedWhen(bs, n - 1, max, h);
    } else {
      i := n - 1;
    }
  }
}
