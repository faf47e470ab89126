/** A node that indexes and persists a chain, batch by batch, and may restart between any two batches. */
module NodeRestarts {
  import opened Common
  import opened BlockMaps
  import opened BlockRetention
  import opened BlockTables
  import opened Chain
  import opened Restart

  /** The database, the live index, the next height, the worker's last pruning height, and the height from
      which the index was built when the node last started. */
  datatype Node = Node(tables: Tables, maps: Maps, next: nat, lastMin: Option<nat>, began: nat)

  datatype Step = Batch(size: nat) | Reboot

  function Start(first: nat): Node {
    Node(NO_ROWS, EMPTY, first, None, first)
  }

  /** The index after the blocks of heights mid..next were indexed in order. */
  function Resumed(m: Maps, c: Chain, mid: nat, next: nat, max: Option<nat>): Maps {
    if next <= mid then m else ApplyBlock(Resumed(m, c, mid, next - 1, max), At(c, next - 1), max)
  }

  function BatchStep(n: Node, c: Chain, next: nat, max: Option<nat>): Node
    requires n.next < next
  {
    var written := WrittenBetween(n.tables, c, n.next, next);
    var maps := Resumed(n.maps, c, n.next, next, max);
    if max.None? then Node(written, maps, next, n.lastMin, n.began)
    else
      var min := MinHeight(next - 1, max.value);
      if n.lastMin.None? || min > n.lastMin.value then Node(Pruned(written, min), maps, next, Some(min), n.began)
      else Node(written, maps, next, n.lastMin, n.began)
  }

  /** All that survives is the database; the index is rebuilt from it. */
  function RebootStep(n: Node, max: Option<nat>): Node {
    var loaded := LoadForRestart(n.tables, max);
    Node(TablesForRestart(n.tables, max), IndexAll(loaded, max), n.next, None,
         if loaded == [] then n.next else loaded[0].height)
  }

  function Next(n: Node, c: Chain, max: Option<nat>, step: Step): Node {
    match step
    case Batch(k) => if k == 0 then n else BatchStep(n, c, n.next + k, max)
    case Reboot => RebootStep(n, max)
  }

  function Run(c: Chain, first: nat, max: Option<nat>, steps: seq<Step>, n: nat): Node
    requires n <= |steps|
  {
    if n == 0 then Start(first) else Next(Run(c, first, max, steps, n - 1), c, max, steps[n - 1])
  }

  // ----- what every step keeps

  ghost predicate Persisted(n: Node, c: Chain, first: nat, max: Option<nat>) {
    && first <= n.next
    && Stored(n.tables, c, first, n.next, max)
    && (max.Some? && n.lastMin.Some? ==> n.next > first && n.lastMin.value == MinHeight(n.next - 1, max.value))
  }

  /** The index is that of the heights began..next, and nothing that is still retained came before them. */
  ghost predicate Indexed(n: Node, c: Chain, first: nat, max: Option<nat>) {
    && first <= n.began <= OldestLive(first, n.next, max)
    && n.began <= n.next
    && n.maps == LiveMaps(c, n.began, n.next, max)
  }

  lemma BatchPersists(n: Node, c: Chain, first: nat, next: nat, max: Option<nat>)
    requires Persisted(n, c, first, max) && n.next < next
    ensures Persisted(BatchStep(n, c, next, max), c, first, max)
  {
    hide Stored, WrittenBetween, Pruned;
    BatchKeeps(n.tables, c, first, n.next, next, max);
  }

  lemma {:induction false} ResumedLive(c: Chain, began: nat, mid: nat, next: nat, max: Option<nat>)
    requires began <= mid <= next
    ensures Resumed(LiveMaps(c, began, mid, max), c, mid, next, max) == LiveMaps(c, began, next, max)
    decreases next
  {
    hide ApplyBlock;
    if mid < next {
      ResumedLive(c, began, mid, next - 1, max);
    }
  }

  lemma BatchIndexes(n: Node, c: Chain, first: nat, next: nat, max: Option<nat>)
    requires Indexed(n, c, first, max) && first <= n.next < next
    ensures Indexed(BatchStep(n, c, next, max), c, first, max)
  {
    hide WrittenBetween, Pruned, LiveMaps, Resumed;
    ResumedLive(c, n.began, n.next, next, max);
  }

  /** The pruning at a restart removes nothing that the worker would have kept. */
  lemma RebootPersists(n: Node, c: Chain, first: nat, max: Option<nat>)
    requires Persisted(n, c, first, max)
    ensures Persisted(RebootStep(n, max), c, first, max)
  {
    hide LoadForRestart;
    var low := OldestStored(first, n.next, max);
    if first == n.next {
      NothingStored(n.tables, c, low, n.next);
    } else if max.Some? {
      LoadedFrom(first, n.next, max);
      LoadPrunes(n.tables, c, low, n.next, max.value);
      PruneWindow(n.tables, c, low, n.next, MinHeight(n.next - 1, max.value));
    }
  }

  lemma NothingStored(t: Tables, c: Chain, low: nat, next: nat)
    requires next <= low && Holds(t, Window(c, low, next))
    ensures StoredHeights(t) == [] && forall max :: LoadForRestart(t, max) == []
  {
    assert Window(c, low, next) == map[];
    assert t.rows.Keys == {};
    assert StoredHeights(t) == [];
  }

  lemma RebootIndexes(n: Node, c: Chain, first: nat, max: Option<nat>)
    requires Persisted(n, c, first, max)
    ensures Indexed(RebootStep(n, max), c, first, max)
    ensures RebootStep(n, max).began == OldestLive(first, n.next, max)
  {
    hide Holds, LiveMaps, LoadForRestart, IndexAll, TablesForRestart;
    var oldest := OldestLive(first, n.next, max);
    if first == n.next {
      NothingStored(n.tables, c, OldestStored(first, n.next, max), n.next);
    } else {
      LoadsNewest(n.tables, c, first, n.next, max);
    }
    assert LoadForRestart(n.tables, max) == Blocks(c, oldest, n.next);
    LiveIndex(c, oldest, n.next, max);
  }

  lemma {:induction false} RunKeeps(c: Chain, first: nat, max: Option<nat>, steps: seq<Step>, n: nat)
    requires n <= |steps|
    ensures
      var node := Run(c, first, max, steps, n);
      Persisted(node, c, first, max) && Indexed(node, c, first, max)
  {
    hide Persisted, Indexed, BatchStep, RebootStep;
    if n == 0 {
      StartKeeps(c, first, max);
    } else {
      RunKeeps(c, first, max, steps, n - 1);
      var node := Run(c, first, max, steps, n - 1);
      match steps[n - 1]
      case Batch(k) =>
        if k > 0 {
          BatchPersists(node, c, first, node.next + k, max);
          Reaches(node, c, first, max);
          BatchIndexes(node, c, first, node.next + k, max);
        }
      case Reboot =>
        RebootPersists(node, c, first, max);
        RebootIndexes(node, c, first, max);
    }
  }

  lemma Reaches(n: Node, c: Chain, first: nat, max: Option<nat>)
    requires Persisted(n, c, first, max)
    ensures first <= n.next
  {
  }

  lemma StartKeeps(c: Chain, first: nat, max: Option<nat>)
    ensures Persisted(Start(first), c, first, max) && Indexed(Start(first), c, first, max)
  {
    assert Window(c, OldestStored(first, first, max), first) == map[];
  }

  // ----- the index of a node that restarted, and of one that did not

  /** Indices of one chain that began at different heights, both below the oldest retained one, are equal. */
  lemma BeganEarlier(c: Chain, first: nat, began: nat, next: nat, max: Option<nat>)
    requires first <= began < OldestLive(first, next, max) && first < next && ApartBetween(c, first, next)
    requires max != Some(0)
    ensures LiveMaps(c, began, next, max) == LiveMaps(c, first, next, max)
  {
    hide Describes, AllApart, Apart, ApplyBlock, LiveMaps, Linked;
    var oldest := OldestLive(first, next, max);
    assert OldestLive(began, next, max) == oldest;
    LiveDescribes(c, first, next, max);
    LiveDescribes(c, began, next, max);
    LiveLinks(c, first, next, max);
    LiveLinks(c, began, next, max);
    SameLinks(LiveMaps(c, first, next, max), LiveMaps(c, began, next, max), c, first, began, oldest, next);
    Determined(LiveMaps(c, began, next, max), LiveMaps(c, first, next, max), Window(c, oldest, next));
  }

  lemma SameLinks(a: Maps, b: Maps, c: Chain, first: nat, began: nat, oldest: nat, next: nat)
    requires first <= began < oldest && Linked(a, c, first) && Linked(b, c, began)
    requires Describes(a, Window(c, oldest, next)) && Describes(b, Window(c, oldest, next))
    ensures a.blocks.Keys == b.blocks.Keys == Window(c, oldest, next).Keys
    ensures forall h :: h in Window(c, oldest, next) ==> b.blocks[h].parent == a.blocks[h].parent
  {
    WindowIs(c, oldest, next);
  }

  /** Any number of restarts, between any batches: the node's index is that of a node that never restarted, except
      that the oldest retained block has no parent link as long as it is the one the last restart began with. */
  lemma AnyRestarts(c: Chain, first: nat, max: Option<nat>, steps: seq<Step>, n: nat)
    requires n <= |steps|
    requires var node := Run(c, first, max, steps, n); first < node.next && ApartBetween(c, first, node.next)
    ensures
      var node := Run(c, first, max, steps, n);
      var live, oldest := IndexAll(Blocks(c, first, node.next), max), OldestLive(first, node.next, max);
      if max == Some(0) then node.maps == live == EMPTY
      else
        && live.blocks.Keys == Range(oldest, node.next) && oldest in live.blocks
        && node.began <= oldest
        && node.maps == if node.began == oldest then Unlink(live, oldest) else live
  {
    hide Run, Persisted, ApartBetween, LiveMaps, Unlink, IndexAll;
    RunKeeps(c, first, max, steps, n);
    var node := Run(c, first, max, steps, n);
    LiveIndex(c, first, node.next, max);
    IndexedAgain(c, first, node.began, node.next, max);
  }

  lemma IndexedAgain(c: Chain, first: nat, began: nat, next: nat, max: Option<nat>)
    requires first <= began <= OldestLive(first, next, max) && began <= next
    requires first < next && ApartBetween(c, first, next)
    ensures
      var live, oldest := LiveMaps(c, first, next, max), OldestLive(first, next, max);
      if max == Some(0) then LiveMaps(c, began, next, max) == live == EMPTY
      else
        && live.blocks.Keys == Range(oldest, next) && oldest in live.blocks
        && LiveMaps(c, began, next, max) == if began == oldest then Unlink(live, oldest) else live
  {
    hide LiveMaps, Unlink, Describes, AllApart, Apart;
    var oldest := OldestLive(first, next, max);
    LiveDescribes(c, first, next, max);
    WindowIs(c, oldest, next);
    SameKeys(LiveMaps(c, first, next, max), Window(c, oldest, next));
    if max == Some(0) {
      LiveDescribes(c, began, next, max);
      DescribesNothing(LiveMaps(c, first, next, max));
      DescribesNothing(LiveMaps(c, began, next, max));
    } else if began == oldest {
      RebuiltIsUnlinked(c, first, next, max);
    } else {
      BeganEarlier(c, first, began, next, max);
    }
  }
}
