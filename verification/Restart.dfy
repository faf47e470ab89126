/** The persistence worker, and that a restart rebuilds the live index from what it left behind. */
module Restart {
  import opened Common
  import opened PartUnion
  import opened BlockMaps
  import opened BlockRetention
  import opened BlockTables
  import opened Chain

  /** The lowest height the worker keeps once `latest` is written. */
  function MinHeight(latest: nat, max: nat): nat {
    SaturatingSub(latest, SaturatingSub(max, 1))
  }

  /** Of the heights first..next, the oldest that stays in the database: with a limit, the last
      max(limit, 1) stay. */
  function OldestStored(first: nat, next: nat, max: Option<nat>): nat {
    if max.None? then first else Max(first, next - Max(max.value, 1))
  }

  /** Of the heights first..next, the oldest that stays in the live index. */
  function OldestLive(first: nat, next: nat, max: Option<nat>): nat {
    if max.None? then first else Max(first, next - max.value)
  }

  ghost predicate Stored(t: Tables, c: Chain, first: nat, next: nat, max: Option<nat>) {
    Holds(t, Window(c, OldestStored(first, next, max), next))
  }

  // ----- the worker

  class Database {
    var tables: Tables

    constructor ()
      ensures tables == NO_ROWS
    {
      tables := NO_ROWS;
    }

    method PersistBlocks(blocks: seq<Source>)
      modifies this
      ensures tables == WrittenFirst(old(tables), blocks, |blocks|)
    {
      for i := 0 to |blocks|
        invariant tables == WrittenFirst(old(tables), blocks, i)
      {
        var b := blocks[i];
        ghost var before := tables;
        tables := Tables(tables.rows[b.height := RowOf(b)],
                         map k | k in tables.ops && k.height != b.height :: tables.ops[k]);
        for j := 0 to |b.ops|
          invariant tables == Written(before, b, j)
        {
          tables := tables.(ops := tables.ops[OpKey(b.height, j) := b.ops[j]]);
        }
      }
    }

    method PruneToMinHeight(min: nat)
      modifies this
      ensures tables == Pruned(old(tables), min)
    {
      tables := Tables(map h | h in tables.rows && h >= min :: tables.rows[h],
                       map k | k in tables.ops && k.height >= min :: tables.ops[k]);
    }
  }

  method LatestHeight(batch: seq<Source>) returns (latest: nat)
    requires batch != []
    ensures exists b :: b in batch && b.height == latest
    ensures forall b :: b in batch ==> b.height <= latest
  {
    latest := batch[0].height;
    for i := 1 to |batch|
      invariant exists b :: b in batch && b.height == latest
      invariant forall j :: 0 <= j < i ==> batch[j].height <= latest
    {
      if batch[i].height > latest {
        latest := batch[i].height;
        assert batch[i] in batch;
      }
    }
  }

  /** The tables after writing the blocks of heights mid..high one by one. */
  function WrittenBetween(t: Tables, c: Chain, mid: nat, high: nat): Tables {
    if high <= mid then t
    else
      var b := At(c, high - 1);
      Written(WrittenBetween(t, c, mid, high - 1), b, |b.ops|)
  }

  lemma {:induction false} WrittenBlocks(t: Tables, c: Chain, bs: seq<Source>, mid: nat, n: nat)
    requires n <= |bs| && forall i :: 0 <= i < n ==> bs[i] == At(c, mid + i)
    ensures WrittenFirst(t, bs, n) == WrittenBetween(t, c, mid, mid + n)
  {
    hide Written;
    if n > 0 {
      WrittenBlocks(t, c, bs, mid, n - 1);
    }
  }

  lemma {:induction false} WriteWindow(t: Tables, c: Chain, low: nat, mid: nat, high: nat)
    requires low <= mid <= high && Holds(t, Window(c, low, mid))
    ensures Holds(WrittenBetween(t, c, mid, high), Window(c, low, high))
    decreases high
  {
    hide Holds, Written;
    if mid < high {
      WriteWindow(t, c, low, mid, high - 1);
      WrittenHolds(WrittenBetween(t, c, mid, high - 1), Window(c, low, high - 1), At(c, high - 1));
    }
  }

  lemma PruneWindow(t: Tables, c: Chain, low: nat, high: nat, min: nat)
    requires Holds(t, Window(c, low, high))
    ensures Holds(Pruned(t, min), Window(c, Max(low, min), high))
  {
    PrunedHolds(t, Window(c, low, high), min);
    WindowShrinks(c, low, high, min);
  }

  /** Writing the next blocks and pruning leaves the last max(limit, 1); the pruning does nothing
      when the pruning height has not moved. */
  lemma BatchKeeps(t: Tables, c: Chain, first: nat, mid: nat, next: nat, max: Option<nat>)
    requires first <= mid < next && Stored(t, c, first, mid, max)
    ensures
      var written := WrittenBetween(t, c, mid, next);
      if max.None? then Stored(written, c, first, next, max)
      else
        var min := MinHeight(next - 1, max.value);
        && Stored(Pruned(written, min), c, first, next, max)
        && (mid > first && min <= MinHeight(mid - 1, max.value) ==>
              Stored(written, c, first, next, max) && min == MinHeight(mid - 1, max.value))
  {
    hide Holds, Window, Pruned, Written;
    var low := OldestStored(first, mid, max);
    WriteWindow(t, c, low, mid, next);
    if max.Some? {
      StoredAdvance(first, mid, next, max.value);
      PruneWindow(WrittenBetween(t, c, mid, next), c, low, next, MinHeight(next - 1, max.value));
    }
  }

  lemma StoredAdvance(first: nat, mid: nat, next: nat, max: nat)
    requires first <= mid < next
    ensures
      var low, min := OldestStored(first, mid, Some(max)), MinHeight(next - 1, max);
      && Max(low, min) == OldestStored(first, next, Some(max))
      && (mid > first && min <= MinHeight(mid - 1, max) ==>
            low == OldestStored(first, next, Some(max)) && min == MinHeight(mid - 1, max))
  {
  }

  lemma BatchLatest(c: Chain, low: nat, high: nat, latest: nat)
    requires low < high
    requires exists b :: b in Blocks(c, low, high) && b.height == latest
    requires forall b :: b in Blocks(c, low, high) ==> b.height <= latest
    ensures latest == high - 1
  {
    var bs := Blocks(c, low, high);
    assert bs[|bs| - 1] in bs;
    var b :| b in bs && b.height == latest;
    var i :| 0 <= i < |bs| && bs[i] == b;
  }

  /** The worker loop.  Blocks of a chain arrive in order of height, from `start`; how many are ready
      when it looks decides each batch.  Whatever the batches, the database ends with exactly the
      last max(limit, 1) blocks of all those written since height `first`, by this run and the
      earlier ones. */
  method PersistenceWorker(db: Database, requests: seq<Source>, max: Option<nat>, batchSize: nat,
                           ghost c: Chain, ghost first: nat, ghost start: nat)
    requires first <= start && requests == Blocks(c, start, start + |requests|)
    requires Stored(db.tables, c, first, start, max)
    modifies db
    ensures Stored(db.tables, c, first, start + |requests|, max)
  {
    hide Holds, Window;
    var size := if batchSize < 1 then 1 else batchSize;
    var lastMin: Option<nat> := None;
    var next := 0;
    while next < |requests|
      invariant 0 <= next <= |requests|
      invariant Stored(db.tables, c, first, start + next, max)
      invariant max.Some? && lastMin.Some? ==>
                  next > 0 && lastMin.value == MinHeight(start + next - 1, max.value)
    {
      var batch, after := CollectBatch(requests, next, size);
      assert batch == Blocks(c, start + next, start + after);
      lastMin := ProcessBatch(db, batch, max, lastMin, c, first, start + next, start + after);
      next := after;
    }
  }

  /** Takes the next request and, while there is room, those that are ready. */
  method CollectBatch(requests: seq<Source>, next: nat, size: nat) returns (batch: seq<Source>, after: nat)
    requires next < |requests|
    ensures next < after <= |requests| && batch == requests[next..after]
    ensures |batch| <= Max(size, 1)
  {
    batch, after := [requests[next]], next + 1;
    while |batch| < size && after < |requests|
      invariant next < after <= |requests| && batch == requests[next..after]
      invariant |batch| <= Max(size, 1)
    {
      if * {
        break;
      }
      batch, after := batch + [requests[after]], after + 1;
    }
  }

  /** Writes one batch and prunes, unless the pruning height has not moved. */
  method ProcessBatch(db: Database, batch: seq<Source>, max: Option<nat>, lastMin: Option<nat>,
                      ghost c: Chain, ghost first: nat, ghost mid: nat, ghost next: nat)
    returns (newMin: Option<nat>)
    requires first <= mid < next && batch == Blocks(c, mid, next)
    requires Stored(db.tables, c, first, mid, max)
    requires max.Some? && lastMin.Some? ==> mid > first && lastMin.value == MinHeight(mid - 1, max.value)
    modifies db
    ensures Stored(db.tables, c, first, next, max)
    ensures max.Some? ==> newMin == Some(MinHeight(next - 1, max.value))
  {
    hide Holds, Window, Pruned, Written;
    newMin := lastMin;
    BatchKeeps(db.tables, c, first, mid, next, max);
    WrittenBlocks(db.tables, c, batch, mid, |batch|);
    db.PersistBlocks(batch);
    if max.Some? {
      var latest := LatestHeight(batch);
      BatchLatest(c, mid, next, latest);
      var min := MinHeight(latest, max.value);
      if lastMin.None? || min > lastMin.value {
        db.PruneToMinHeight(min);
        newMin := Some(min);
      }
    }
  }

  // ----- loading

  /** The tables after the pruning that comes before loading, relative to the newest stored height. */
  function TablesForRestart(t: Tables, max: Option<nat>): Tables {
    var heights := StoredHeights(t);
    if max.Some? && heights != [] then Pruned(t, MinHeight(heights[|heights| - 1], max.value)) else t
  }

  /** What the loader reads. */
  function LoadForRestart(t: Tables, max: Option<nat>): seq<Source> {
    LoadBlocks(TablesForRestart(t, max), max)
  }

  /** After any run of the worker the loader reads back exactly the newest `limit` blocks. */
  lemma LoadsNewest(t: Tables, c: Chain, first: nat, next: nat, max: Option<nat>)
    requires first < next && Stored(t, c, first, next, max)
    ensures LoadForRestart(t, max) == Blocks(c, OldestLive(first, next, max), next)
  {
    var low, oldest := OldestStored(first, next, max), OldestLive(first, next, max);
    LoadedFrom(first, next, max);
    if max.Some? {
      LoadPrunes(t, c, low, next, max.value);
      LoadsPruned(t, c, low, next, MinHeight(next - 1, max.value), max, oldest);
    } else {
      LoadWindow(t, c, low, next, max, oldest);
    }
  }

  lemma LoadedFrom(first: nat, next: nat, max: Option<nat>)
    requires first < next
    ensures
      var low := OldestStored(first, next, max);
      && low < next && OldestLive(first, next, max) == low + Skipped(next - low, max)
      && (max.Some? ==> MinHeight(next - 1, max.value) <= low)
  {
  }

  lemma LoadPrunes(t: Tables, c: Chain, low: nat, next: nat, max: nat)
    requires low < next && Holds(t, Window(c, low, next))
    ensures TablesForRestart(t, Some(max)) == Pruned(t, MinHeight(next - 1, max))
  {
    StoredOrder(t, c, low, next);
  }

  lemma LoadsPruned(t: Tables, c: Chain, low: nat, next: nat, min: nat, max: Option<nat>, oldest: nat)
    requires min <= low <= next && Holds(t, Window(c, low, next)) && oldest == low + Skipped(next - low, max)
    ensures LoadBlocks(Pruned(t, min), max) == Blocks(c, oldest, next)
  {
    PruneWindow(t, c, low, next, min);
    assert Max(low, min) == low;
    LoadWindow(Pruned(t, min), c, low, next, max, oldest);
  }

  // ----- the live index of a chain

  lemma HighestWindow(c: Chain, low: nat, high: nat, max: nat)
    requires low < high && high - low <= max + 1
    ensures Highest(Window(c, low, high), max) == Window(c, if high - low == max + 1 then low + 1 else low, high)
  {
    var w := Window(c, low, high);
    WindowSize(c, low, high);
    if high - low == max + 1 {
      WindowIs(c, low, high);
      assert low in w.Keys && Least(w.Keys) == low;
      WindowLosesFirst(c, low, high);
      WindowSize(c, low + 1, high);
    }
  }

  lemma KeepNext(c: Chain, low: nat, next: nat, max: Option<nat>)
    requires low <= next && (max.Some? ==> next - low <= max.value)
    ensures Keep(Window(c, low, next), At(c, next), max) ==
            Window(c, if max.Some? && next - low == max.value then low + 1 else low, next + 1)
  {
    hide Highest;
    WindowIs(c, low, next);
    if max.Some? {
      HighestWindow(c, low, next + 1, max.value);
    }
  }

  /** The blocks kept, and the live index, after the heights first..next were indexed in order. */
  function LiveBlocks(c: Chain, first: nat, next: nat, max: Option<nat>): map<nat, Source> {
    if next <= first then map[] else Keep(LiveBlocks(c, first, next - 1, max), At(c, next - 1), max)
  }

  function LiveMaps(c: Chain, first: nat, next: nat, max: Option<nat>): Maps {
    if next <= first then EMPTY else ApplyBlock(LiveMaps(c, first, next - 1, max), At(c, next - 1), max)
  }

  lemma {:induction false} LiveIs(c: Chain, bs: seq<Source>, first: nat, n: nat, max: Option<nat>)
    requires n <= |bs| && forall i :: 0 <= i < n ==> bs[i] == At(c, first + i)
    ensures KeepFirst(bs, n, max) == LiveBlocks(c, first, first + n, max)
    ensures IndexFirst(bs, n, max) == LiveMaps(c, first, first + n, max)
  {
    hide ApplyBlock, Keep;
    if n > 0 {
      LiveIs(c, bs, first, n - 1, max);
    }
  }

  lemma LiveIndex(c: Chain, first: nat, next: nat, max: Option<nat>)
    requires first <= next
    ensures IndexAll(Blocks(c, first, next), max) == LiveMaps(c, first, next, max)
  {
    hide IndexFirst, KeepFirst, LiveMaps, LiveBlocks;
    LiveIs(c, Blocks(c, first, next), first, next - first, max);
  }

  lemma {:induction false} LiveWindow(c: Chain, first: nat, next: nat, max: Option<nat>)
    requires first <= next
    ensures LiveBlocks(c, first, next, max) == Window(c, OldestLive(first, next, max), next)
    decreases next
  {
    hide Keep;
    if first < next {
      LiveWindow(c, first, next - 1, max);
      KeepNext(c, OldestLive(first, next - 1, max), next - 1, max);
    }
  }

  ghost predicate ApartBetween(c: Chain, low: nat, high: nat) {
    forall h: nat, k: nat {:trigger Apart(At(c, h), At(c, k))} ::
      low <= h < high && low <= k < high ==> Apart(At(c, h), At(c, k))
  }

  /** The live index describes the last `limit` blocks. */
  lemma LiveDescribes(c: Chain, first: nat, next: nat, max: Option<nat>)
    requires first <= next && ApartBetween(c, first, next)
    ensures
      var kept := Window(c, OldestLive(first, next, max), next);
      Describes(LiveMaps(c, first, next, max), kept) && AllApart(kept)
  {
    hide Describes, AllApart, Apart, ApplyBlock, Keep;
    var bs := Blocks(c, first, next);
    forall i, j | 0 <= i < |bs| && 0 <= j < |bs| ensures Apart(bs[i], bs[j]) {
      assert Apart(At(c, first + i), At(c, first + j));
    }
    LiveWindow(c, first, next, max);
    LiveIs(c, bs, first, |bs|, max);
    IndexAgrees(bs, |bs|, max);
  }

  lemma LiveHeights(c: Chain, first: nat, next: nat, max: Option<nat>)
    requires first <= next && ApartBetween(c, first, next)
    ensures HeightsDescribe(LiveMaps(c, first, next, max), Window(c, OldestLive(first, next, max), next))
  {
    LiveDescribes(c, first, next, max);
  }

  lemma {:induction false} PruneKeepsBlocks(m: Maps, max: nat)
    ensures forall h :: h in Prune(m, max).blocks ==> h in m.blocks && Prune(m, max).blocks[h] == m.blocks[h]
    ensures max == 0 ==> Prune(m, max).blocks == map[]
    decreases |m.blocks|
  {
    if |m.blocks| > max {
      RemovedKey(m.blocks, Least(m.blocks.Keys));
      PruneKeepsBlocks(Remove(m, Least(m.blocks.Keys)), max);
    }
  }

  function LinkOf(c: Chain, first: nat, h: nat): Option<Digest> {
    if h <= first then None else Some(At(c, h - 1).digest)
  }

  ghost predicate Linked(m: Maps, c: Chain, first: nat) {
    forall h :: h in m.blocks ==> m.blocks[h].parent == LinkOf(c, first, h)
  }

  /** Unless the limit is zero, the next block links to the last one indexed. */
  lemma NextLink(m: Maps, c: Chain, first: nat, next: nat, max: Option<nat>)
    requires first <= next && max != Some(0)
    requires HeightsDescribe(m, Window(c, OldestLive(first, next, max), next))
    ensures next !in m.blocks && ParentOf(m, next) == LinkOf(c, first, next)
  {
    WindowIs(c, OldestLive(first, next, max), next);
  }

  lemma ApplyLinks(m: Maps, c: Chain, first: nat, next: nat, max: Option<nat>)
    requires first <= next && max != Some(0) && Linked(m, c, first)
    requires HeightsDescribe(m, Window(c, OldestLive(first, next, max), next))
    ensures Linked(ApplyBlock(m, At(c, next), max), c, first)
  {
    NextLink(m, c, first, next, max);
    if max.Some? {
      PruneKeepsBlocks(Insert(m, At(c, next)), max.value);
    }
  }

  /** Every live block links to the block below it, except the first one ever indexed. */
  lemma {:induction false} LiveLinks(c: Chain, first: nat, next: nat, max: Option<nat>)
    requires first <= next && ApartBetween(c, first, next) && max != Some(0)
    ensures Linked(LiveMaps(c, first, next, max), c, first)
    decreases next
  {
    hide ApplyBlock, HeightsDescribe, Window, Apart;
    if first < next {
      LiveLinks(c, first, next - 1, max);
      LiveHeights(c, first, next - 1, max);
      ApplyLinks(LiveMaps(c, first, next - 1, max), c, first, next - 1, max);
    }
  }

  // ----- restart equivalence

  /** The maps with the parent link of one block cleared. */
  function Unlink(m: Maps, h: nat): Maps
    requires h in m.blocks
  {
    var block := m.blocks[h].(parent := None);
    m.(blocks := m.blocks[h := block], byHash := m.byHash[block.digest := block])
  }

  lemma UnlinkDescribes(m: Maps, kept: map<nat, Source>, h: nat)
    requires Describes(m, kept) && AllApart(kept) && h in kept
    ensures Describes(Unlink(m, h), kept)
  {
    var block := m.blocks[h].(parent := None);
    var r := Unlink(m, h);
    assert HeightsDescribe(r, kept);
    HashPartsDisjoint(m, kept);
    HashPartsDisjoint(r, kept);
    ReplaceHash(m.byHash, m.blocks, h, block);
  }

  lemma ReplaceHash(byHash: map<Digest, Block>, blocks: map<nat, Block>, h: nat, block: Block)
    requires IsUnion(byHash, HashParts(blocks)) && h in blocks && block.digest == blocks[h].digest
    requires Disjoint(HashParts(blocks)) && Disjoint(HashParts(blocks[h := block]))
    ensures IsUnion(byHash[block.digest := block], HashParts(blocks[h := block]))
  {
    DropHash(byHash, blocks, h);
    UpdateRemoved(blocks, h, block);
    AddHash(byHash - {block.digest}, blocks - {h}, h, block);
    UpdateRemoved(byHash, block.digest, block);
  }

  /** Restart equivalence: the index rebuilt from the database equals the live one, except that the
      oldest retained block has lost its parent link. */
  lemma RestartEquivalence(t: Tables, c: Chain, first: nat, next: nat, max: Option<nat>)
    requires first < next && ApartBetween(c, first, next)
    requires Stored(t, c, first, next, max)
    ensures
      var live := IndexAll(Blocks(c, first, next), max);
      var rebuilt := IndexAll(LoadForRestart(t, max), max);
      if max == Some(0) then rebuilt == live == EMPTY
      else
        var oldest := OldestLive(first, next, max);
        && live.blocks.Keys == Range(oldest, next)
        && oldest in live.blocks
        && rebuilt == Unlink(live, oldest)
  {
    hide Holds, Describes, HeightsDescribe, ApplyBlock, Unlink, LoadForRestart, Apart, LiveMaps;
    var oldest := OldestLive(first, next, max);
    LoadsNewest(t, c, first, next, max);
    LiveIndex(c, first, next, max);
    LiveIndex(c, oldest, next, max);
    LiveHeights(c, first, next, max);
    WindowIs(c, oldest, next);
    if max != Some(0) {
      RebuiltIsUnlinked(c, first, next, max);
    } else {
      LiveDescribes(c, first, next, max);
      DescribesNothing(LiveMaps(c, first, next, max));
    }
  }

  lemma DescribesNothing(m: Maps)
    requires Describes(m, map[])
    ensures m == EMPTY
  {
    EmptyDescribes();
    Determined(m, EMPTY, map[]);
  }

  lemma LinksDiffer(live: Maps, rebuilt: Maps, c: Chain, first: nat, oldest: nat)
    requires Linked(live, c, first) && Linked(rebuilt, c, oldest) && first <= oldest && oldest in live.blocks
    requires live.blocks.Keys == rebuilt.blocks.Keys && forall h :: h in live.blocks ==> oldest <= h
    ensures forall h :: h in live.blocks ==> rebuilt.blocks[h].parent == Unlink(live, oldest).blocks[h].parent
  {
  }

  lemma RebuiltIsUnlinked(c: Chain, first: nat, next: nat, max: Option<nat>)
    requires first < next && ApartBetween(c, first, next) && max != Some(0)
    ensures
      var oldest := OldestLive(first, next, max);
      var live := LiveMaps(c, first, next, max);
      oldest in live.blocks && LiveMaps(c, oldest, next, max) == Unlink(live, oldest)
  {
    hide Describes, AllApart, Apart, ApplyBlock, Linked, LiveMaps, Unlink;
    var oldest := OldestLive(first, next, max);
    var live, rebuilt := LiveMaps(c, first, next, max), LiveMaps(c, oldest, next, max);
    var kept := Window(c, oldest, next);
    assert OldestLive(oldest, next, max) == oldest;
    LiveDescribes(c, first, next, max);
    LiveDescribes(c, oldest, next, max);
    LiveLinks(c, first, next, max);
    LiveLinks(c, oldest, next, max);
    WindowIs(c, oldest, next);
    SameKeys(live, kept);
    UnlinkedFrom(live, rebuilt, kept, c, first, oldest);
  }

  lemma UnlinkedFrom(live: Maps, rebuilt: Maps, kept: map<nat, Source>, c: Chain, first: nat, oldest: nat)
    requires Describes(live, kept) && Describes(rebuilt, kept) && AllApart(kept)
    requires Linked(live, c, first) && Linked(rebuilt, c, oldest)
    requires first <= oldest && oldest in kept && forall h :: h in kept ==> oldest <= h
    ensures rebuilt == Unlink(live, oldest)
  {
    UnlinkDescribes(live, kept, oldest);
    LinksDiffer(live, rebuilt, c, first, oldest);
    Determined(rebuilt, Unlink(live, oldest), kept);
  }

  /** When nothing has been pruned the rebuilt index is the live one. */
  lemma RestartIsExact(t: Tables, c: Chain, first: nat, next: nat, max: Option<nat>)
    requires first < next && Stored(t, c, first, next, max)
    requires max.None? || next - first <= max.value
    ensures IndexAll(LoadForRestart(t, max), max) == IndexAll(Blocks(c, first, next), max)
  {
    LoadsNewest(t, c, first, next, max);
  }
}
