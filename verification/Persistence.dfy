/** The explorer's database as two tables, what the write and prune statements do to them, and what
    reading them back yields. */
module BlockTables {
  import opened Common
  import opened BlockMaps

  datatype Row = Row(view: nat, digest: Digest, indexedAt: nat)

  /** `explorer_blocks` by height and `explorer_ops` by height and operation index. */
  datatype Tables = Tables(rows: map<nat, Row>, ops: map<OpKey, Op>)

  datatype OpKey = OpKey(height: nat, index: nat)

  const NO_ROWS := Tables(map[], map[])

  function RowOf(b: Source): Row {
    Row(b.view, b.digest, b.indexedAt)
  }

  // ----- statements

  /** Upserts the block row, deletes the height's operations, and inserts the first n of the block's. */
  function Written(t: Tables, b: Source, n: nat): Tables
    requires n <= |b.ops|
  {
    if n == 0
    then Tables(t.rows[b.height := RowOf(b)], map k | k in t.ops && k.height != b.height :: t.ops[k])
    else
      var w := Written(t, b, n - 1);
      w.(ops := w.ops[OpKey(b.height, n - 1) := b.ops[n - 1]])
  }

  /** The first n blocks written in order. */
  function WrittenFirst(t: Tables, bs: seq<Source>, n: nat): Tables
    requires n <= |bs|
  {
    if n == 0 then t else Written(WrittenFirst(t, bs, n - 1), bs[n - 1], |bs[n - 1].ops|)
  }

  function Pruned(t: Tables, min: nat): Tables {
    Tables(map h | h in t.rows && h >= min :: t.rows[h], map k | k in t.ops && k.height >= min :: t.ops[k])
  }

  // ----- meaning

  /** The tables hold exactly these blocks and their operations. */
  ghost predicate Holds(t: Tables, kept: map<nat, Source>) {
    && t.rows.Keys == kept.Keys
    && (forall h :: h in kept ==> kept[h].height == h && t.rows[h] == RowOf(kept[h]))
    && (forall k :: k in t.ops <==> k.height in kept && k.index < |kept[k.height].ops|)
    && (forall k :: k in t.ops ==> t.ops[k] == kept[k.height].ops[k.index])
  }

  lemma {:induction false} WrittenOps(t: Tables, b: Source, n: nat)
    requires n <= |b.ops|
    ensures Written(t, b, n).rows == t.rows[b.height := RowOf(b)]
    ensures forall k :: k in Written(t, b, n).ops <==> if k.height == b.height then k.index < n else k in t.ops
    ensures forall k :: k in Written(t, b, n).ops ==>
              Written(t, b, n).ops[k] == if k.height == b.height then b.ops[k.index] else t.ops[k]
  {
    if n > 0 {
      WrittenOps(t, b, n - 1);
    }
  }

  lemma WrittenHolds(t: Tables, kept: map<nat, Source>, b: Source)
    requires Holds(t, kept)
    ensures Holds(Written(t, b, |b.ops|), kept[b.height := b])
  {
    hide Written;
    WrittenOps(t, b, |b.ops|);
    var w, more := Written(t, b, |b.ops|), kept[b.height := b];
    forall k ensures k in w.ops <==> k.height in more && k.index < |more[k.height].ops| {
      assert k in t.ops <==> k.height in kept && k.index < |kept[k.height].ops|;
    }
  }

  lemma PrunedHolds(t: Tables, kept: map<nat, Source>, min: nat)
    requires Holds(t, kept)
    ensures Holds(Pruned(t, min), map h | h in kept && h >= min :: kept[h])
  {
  }

  // ----- reading back

  /** The members of a set in ascending order. */
  function Ordered(s: set<nat>): (r: seq<nat>)
    ensures forall x :: x in r <==> x in s
    decreases |s|
  {
    if s == {} then []
    else
      var h := Least(s);
      [h] + Ordered(s - {h})
  }

  function OpIndices(t: Tables, h: nat): set<nat> {
    set k | k in t.ops && k.height == h :: k.index
  }

  function LoadOps(t: Tables, h: nat): seq<Op> {
    var order := Ordered(OpIndices(t, h));
    seq(|order|, i requires 0 <= i < |order| =>
      assert order[i] in order && OpKey(h, order[i]) in t.ops; t.ops[OpKey(h, order[i])])
  }

  function LoadBlock(t: Tables, h: nat): Source
    requires h in t.rows
  {
    Source(h, t.rows[h].view, t.rows[h].digest, LoadOps(t, h), t.rows[h].indexedAt)
  }

  function LoadEach(t: Tables, heights: seq<nat>): (r: seq<Source>)
    requires forall i :: 0 <= i < |heights| ==> heights[i] in t.rows
    ensures |r| == |heights|
    ensures forall i :: 0 <= i < |heights| ==> r[i] == LoadBlock(t, heights[i])
  {
    seq(|heights|, i requires 0 <= i < |heights| => LoadBlock(t, heights[i]))
  }

  function StoredHeights(t: Tables): (r: seq<nat>)
    ensures forall i :: 0 <= i < |r| ==> r[i] in t.rows
  {
    var r := Ordered(t.rows.Keys);
    assert forall i :: 0 <= i < |r| ==> r[i] in r;
    r
  }

  /** How many of n rows a descending query with this limit leaves out. */
  function Skipped(n: nat, max: Option<nat>): (r: nat)
    ensures r <= n
  {
    if max.Some? then SaturatingSub(n, max.value) else 0
  }

  /** The newest `max` blocks, oldest first. */
  function LoadBlocks(t: Tables, max: Option<nat>): seq<Source> {
    var heights := StoredHeights(t);
    LoadEach(t, heights[Skipped(|heights|, max)..])
  }

  /** Inclusive-exclusive range of heights. */
  function Range(low: nat, high: nat): (r: set<nat>)
    ensures forall h :: h in r <==> low <= h < high
  {
    if high <= low then {} else Range(low, high - 1) + {high - 1}
  }

  lemma {:induction false} OrderedRange(low: nat, high: nat)
    requires low <= high
    ensures |Ordered(Range(low, high))| == high - low
    ensures forall i :: 0 <= i < high - low ==> Ordered(Range(low, high))[i] == low + i
    decreases high - low
  {
    hide Range;
    if low < high {
      RangeRest(low, high);
      OrderedRange(low + 1, high);
    }
  }

  lemma RangeRest(low: nat, high: nat)
    requires low < high
    ensures Range(low, high) != {} && Least(Range(low, high)) == low
    ensures Range(low, high) - {low} == Range(low + 1, high)
  {
    hide Range;
    assert low in Range(low, high);
  }

  lemma LoadOpsOf(t: Tables, kept: map<nat, Source>, h: nat)
    requires Holds(t, kept) && h in kept
    ensures LoadOps(t, h) == kept[h].ops
  {
    var n := |kept[h].ops|;
    var indices := OpIndices(t, h);
    forall i | 0 <= i < n ensures i in indices {
      assert OpKey(h, i) in t.ops;
    }
    assert indices == Range(0, n);
    OrderedRange(0, n);
  }

  lemma LoadBlockOf(t: Tables, kept: map<nat, Source>, h: nat)
    requires Holds(t, kept) && h in kept
    ensures h in t.rows && LoadBlock(t, h) == kept[h]
  {
    LoadOpsOf(t, kept, h);
  }
}

/** A chain has one block per height; its blocks are presented in consecutive stretches. */
module Chain {
  import opened Common
  import opened BlockMaps
  import opened BlockTables

  type Chain = c: map<nat, Source> | forall h :: h in c ==> c[h].height == h witness map[]

  /** The block at a height; heights the chain does not reach have an empty block. */
  function At(c: Chain, h: nat): (b: Source)
    ensures b.height == h
  {
    if h in c then c[h] else Source(h, 0, 0, [], 0)
  }

  /** The blocks of heights low..high in order. */
  function Blocks(c: Chain, low: nat, high: nat): (r: seq<Source>)
    ensures |r| == SaturatingSub(high, low)
    ensures forall i :: 0 <= i < |r| ==> r[i] == At(c, low + i)
  {
    seq(SaturatingSub(high, low), i requires 0 <= i < SaturatingSub(high, low) => At(c, low + i))
  }

  /** The blocks of heights low..high by height. */
  function Window(c: Chain, low: nat, high: nat): map<nat, Source> {
    if high <= low then map[] else Window(c, low, high - 1)[high - 1 := At(c, high - 1)]
  }

  lemma {:induction false} WindowIs(c: Chain, low: nat, high: nat)
    ensures Window(c, low, high).Keys == Range(low, high)
    ensures forall h :: h in Window(c, low, high) ==> Window(c, low, high)[h] == At(c, h)
    decreases high
  {
    if low < high {
      WindowIs(c, low, high - 1);
    }
  }

  lemma WindowLosesFirst(c: Chain, low: nat, high: nat)
    ensures Window(c, low, high) - {low} == Window(c, low + 1, high)
  {
    WindowIs(c, low, high);
    WindowIs(c, low + 1, high);
  }

  lemma WindowShrinks(c: Chain, low: nat, high: nat, min: nat)
    ensures (map h | h in Window(c, low, high) && h >= min :: Window(c, low, high)[h]) == Window(c, Max(low, min), high)
  {
    WindowIs(c, low, high);
    WindowIs(c, Max(low, min), high);
  }

  lemma {:induction false} WindowSize(c: Chain, low: nat, high: nat)
    requires low <= high
    ensures |Window(c, low, high)| == high - low
    decreases high
  {
    hide Range;
    if low < high {
      WindowSize(c, low, high - 1);
      WindowIs(c, low, high - 1);
      AddedKey(Window(c, low, high - 1), high - 1, At(c, high - 1));
    }
  }

  lemma StoredOrder(t: Tables, c: Chain, low: nat, high: nat)
    requires low <= high && Holds(t, Window(c, low, high))
    ensures |StoredHeights(t)| == high - low
    ensures forall i :: 0 <= i < high - low ==> StoredHeights(t)[i] == low + i
  {
    WindowIs(c, low, high);
    assert t.rows.Keys == Range(low, high);
    OrderedRange(low, high);
  }

  lemma LoadsAt(t: Tables, c: Chain, low: nat, high: nat, h: nat)
    requires low <= h < high && Holds(t, Window(c, low, high))
    ensures h in t.rows && LoadBlock(t, h) == At(c, h)
  {
    WindowIs(c, low, high);
    LoadBlockOf(t, Window(c, low, high), h);
  }

  lemma LoadsSlice(t: Tables, c: Chain, low: nat, high: nat, heights: seq<nat>, oldest: nat)
    requires low <= oldest && oldest + |heights| == high && Holds(t, Window(c, low, high))
    requires forall i :: 0 <= i < |heights| ==> heights[i] in t.rows && heights[i] == oldest + i
    ensures LoadEach(t, heights) == Blocks(c, oldest, high)
  {
    forall i | 0 <= i < |heights| ensures LoadBlock(t, heights[i]) == At(c, oldest + i) {
      LoadsAt(t, c, low, high, oldest + i);
    }
  }

  /** Reading back a window yields its newest `max` blocks in order. */
  lemma LoadWindow(t: Tables, c: Chain, low: nat, high: nat, max: Option<nat>, oldest: nat)
    requires low <= high && Holds(t, Window(c, low, high)) && oldest == low + Skipped(high - low, max)
    ensures LoadBlocks(t, max) == Blocks(c, oldest, high)
  {
    StoredOrder(t, c, low, high);
    var heights := StoredHeights(t)[Skipped(|StoredHeights(t)|, max)..];
    assert |heights| == high - oldest;
    LoadsSlice(t, c, low, high, heights, oldest);
  }
}
