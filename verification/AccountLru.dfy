/** What "least recently used" means, in terms of the touches made and nothing else. */
module Recency {
  import opened Common

  type PublicKey = nat

  type Times = map<PublicKey, nat>

  /** For every key touched, one plus the position of its last touch. */
  function LastTouches(history: seq<PublicKey>): (times: Times)
    decreases |history|
  {
    if history == [] then map[]
    else LastTouches(history[..|history| - 1])[history[|history| - 1] := |history|]
  }

  /** The keys touched after the last touch of k. */
  function TouchedSince(history: seq<PublicKey>, k: PublicKey): set<PublicKey>
    decreases |history|
  {
    if history == [] || history[|history| - 1] == k then {}
    else TouchedSince(history[..|history| - 1], k) + {history[|history| - 1]}
  }

  /** `kept` holds touched keys only, and each of them more recently touched than any key left out. */
  ghost predicate MoreRecent(times: Times, kept: set<PublicKey>) {
    && kept <= times.Keys
    && forall k, x :: k in kept && x in times && x !in kept ==> times[x] < times[k]
  }

  /** `kept` are the `max` most recently touched keys, or all of them if there are fewer. */
  ghost predicate MostRecent(times: Times, kept: set<PublicKey>, max: nat) {
    MoreRecent(times, kept) && |kept| == Min(max, |times|)
  }

  lemma LastTouchesAfter(history: seq<PublicKey>, key: PublicKey)
    ensures LastTouches(history + [key]) == LastTouches(history)[key := |history| + 1]
  {
    assert (history + [key])[..|history|] == history;
  }

  lemma {:induction false} LastTouchesRange(history: seq<PublicKey>)
    ensures forall k :: k in LastTouches(history) <==> k in history
    ensures forall k :: k in LastTouches(history) ==> LastTouches(history)[k] <= |history|
    decreases |history|
  {
    if history != [] {
      LastTouchesRange(history[..|history| - 1]);
      assert history == history[..|history| - 1] + [history[|history| - 1]];
    }
  }

  lemma {:induction false} TouchedSinceByTime(history: seq<PublicKey>, k: PublicKey)
    requires k in LastTouches(history)
    ensures TouchedSince(history, k) ==
            set x | x in LastTouches(history) && LastTouches(history)[x] > LastTouches(history)[k]
    decreases |history|
  {
    var init, last := history[..|history| - 1], history[|history| - 1];
    LastTouchesRange(init);
    if last != k {
      TouchedSinceByTime(init, k);
    }
  }

  /** The kept set is determined by the touches: a key is kept exactly when it was touched and fewer
      than max other keys were touched since its last touch. */
  lemma KeptExactly(history: seq<PublicKey>, kept: set<PublicKey>, max: nat, k: PublicKey)
    requires MostRecent(LastTouches(history), kept, max)
    ensures k in kept <==> k in history && |TouchedSince(history, k)| < max
  {
    var times := LastTouches(history);
    LastTouchesRange(history);
    if k in kept {
      TouchedSinceByTime(history, k);
      SubsetSize(TouchedSince(history, k), kept - {k});
    } else if k in history {
      TouchedSinceByTime(history, k);
      SubsetSize(kept, TouchedSince(history, k));
      SubsetSize(kept, times.Keys);
    }
  }
}

/** The explorer's account retention: a map bounded by lazily invalidated (key, token) entries. */
module AccountLru {
  import opened Common
  import opened Recency

  datatype Entry = Entry(key: PublicKey, token: nat)

  predicate IsLive(e: Entry, lastSeen: map<PublicKey, nat>) {
    e.key in lastSeen && lastSeen[e.key] == e.token
  }

  predicate Ascending(entries: seq<Entry>) {
    forall i, j :: 0 <= i < j < |entries| ==> entries[i].token < entries[j].token
  }

  /** Every tracked key has its current token in the queue. */
  ghost predicate Covered(queue: seq<Entry>, lastSeen: map<PublicKey, nat>) {
    forall k :: k in lastSeen ==> Entry(k, lastSeen[k]) in queue
  }

  /** Inserts an entry into a token-ordered list. */
  method InsertByToken(entries: seq<Entry>, e: Entry) returns (r: seq<Entry>)
    requires Ascending(entries)
    requires forall i :: 0 <= i < |entries| ==> entries[i].token != e.token
    ensures Ascending(r) && |r| == |entries| + 1
    ensures forall x :: x in r <==> x in entries || x == e
  {
    var i := |entries|;
    while i > 0 && entries[i - 1].token > e.token
      invariant 0 <= i <= |entries|
      invariant forall j :: i <= j < |entries| ==> entries[j].token > e.token
    {
      i := i - 1;
    }
    InsertedAscending(entries, i, e);
    InsertedMembers(entries, i, e);
    r := entries[..i] + [e] + entries[i..];
  }

  lemma InsertedAscending(entries: seq<Entry>, i: nat, e: Entry)
    requires Ascending(entries) && i <= |entries|
    requires i > 0 ==> entries[i - 1].token < e.token
    requires i < |entries| ==> e.token < entries[i].token
    ensures Ascending(entries[..i] + [e] + entries[i..])
  {
  }

  lemma InsertedMembers(entries: seq<Entry>, i: nat, e: Entry)
    requires i <= |entries|
    ensures forall x :: x in entries[..i] + [e] + entries[i..] <==> x in entries || x == e
  {
    assert entries == entries[..i] + entries[i..];
  }

  /** All (key, token) pairs of the map, visited in any order and sorted by token. */
  method SortByToken(lastSeen: map<PublicKey, nat>) returns (entries: seq<Entry>)
    requires forall k, k' :: k in lastSeen && k' in lastSeen && lastSeen[k] == lastSeen[k'] ==> k == k'
    ensures Ascending(entries) && |entries| == |lastSeen|
    ensures forall e :: e in entries <==> IsLive(e, lastSeen)
  {
    entries := [];
    var rest := lastSeen.Keys;
    while rest != {}
      invariant rest <= lastSeen.Keys
      invariant Ascending(entries) && |entries| + |rest| == |lastSeen|
      invariant forall e :: e in entries <==> IsLive(e, lastSeen) && e.key !in rest
      decreases |rest|
    {
      var k :| k in rest;
      assert forall i :: 0 <= i < |entries| ==> entries[i] in entries;
      entries := InsertByToken(entries, Entry(k, lastSeen[k]));
      rest := rest - {k};
    }
  }

  type Tokens = map<PublicKey, nat>

  /** The queue and the tokens describe the touches made: the queue is in token order, every
      tracked key's current token is in it, and that token is the time of its last touch. */
  ghost predicate Consistent(lastSeen: Tokens, queue: seq<Entry>, times: Times) {
    && Ascending(queue)
    && Covered(queue, lastSeen)
    && MoreRecent(times, lastSeen.Keys)
    && forall k :: k in lastSeen ==> lastSeen[k] == times[k]
  }

  /** No token is later than the last one handed out, and no two keys share one. */
  ghost predicate Dated(queue: seq<Entry>, times: Times, clock: nat) {
    && (forall e :: e in queue ==> e.token <= clock)
    && (forall k :: k in times ==> times[k] <= clock)
    && (forall k, x :: k in times && x in times && times[k] == times[x] ==> k == x)
  }

  /** Popping the front loses the coverage of no key but its own. */
  lemma PopCovers(lastSeen: Tokens, queue: seq<Entry>)
    requires queue != [] && Covered(queue, lastSeen)
    ensures forall k :: k in lastSeen && Entry(k, lastSeen[k]) != queue[0] ==> Entry(k, lastSeen[k]) in queue[1..]
  {
    assert queue == [queue[0]] + queue[1..];
  }

  lemma PopStale(lastSeen: Tokens, queue: seq<Entry>, times: Times)
    requires Consistent(lastSeen, queue, times) && queue != [] && !IsLive(queue[0], lastSeen)
    ensures Consistent(lastSeen, queue[1..], times)
  {
    PopCovers(lastSeen, queue);
  }

  /** The front of the queue, when it is not stale, is the least recently touched tracked key. */
  lemma FrontIsOldest(lastSeen: Tokens, queue: seq<Entry>, times: Times, k: PublicKey)
    requires Consistent(lastSeen, queue, times) && queue != [] && IsLive(queue[0], lastSeen)
    requires k in lastSeen && k != queue[0].key
    ensures times[queue[0].key] < times[k]
  {
    var i :| 0 <= i < |queue| && queue[i] == Entry(k, lastSeen[k]);
  }

  lemma PopLive(lastSeen: Tokens, queue: seq<Entry>, times: Times)
    requires Consistent(lastSeen, queue, times) && queue != [] && IsLive(queue[0], lastSeen)
    ensures Consistent(lastSeen - {queue[0].key}, queue[1..], times)
  {
    var key := queue[0].key;
    var rest := lastSeen - {key};
    assert MoreRecent(times, rest.Keys) by {
      forall k, x | k in rest.Keys && x in times && x !in rest.Keys ensures times[x] < times[k] {
        if x == key {
          FrontIsOldest(lastSeen, queue, times, k);
        }
      }
    }
    assert Covered(queue[1..], rest) by {
      PopCovers(lastSeen, queue);
    }
  }

  /** Pushing a fresh token for a touched key. */
  lemma PushKeeps(lastSeen: Tokens, queue: seq<Entry>, times: Times, clock: nat, key: PublicKey)
    requires Consistent(lastSeen, queue, times) && Dated(queue, times, clock)
    ensures Consistent(lastSeen[key := clock + 1], queue + [Entry(key, clock + 1)], times[key := clock + 1])
    ensures Dated(queue + [Entry(key, clock + 1)], times[key := clock + 1], clock + 1)
  {
    var entry := Entry(key, clock + 1);
    var longer := queue + [entry];
    assert Ascending(longer) by {
      assert forall i :: 0 <= i < |queue| ==> queue[i] in queue;
    }
    assert Covered(longer, lastSeen[key := clock + 1]) by {
      assert longer[|queue|] == entry;
    }
  }

  lemma CompactKeeps(lastSeen: Tokens, queue: seq<Entry>, times: Times, clock: nat, entries: seq<Entry>)
    requires Consistent(lastSeen, queue, times) && Dated(queue, times, clock)
    requires Ascending(entries) && forall e :: e in entries <==> IsLive(e, lastSeen)
    ensures Consistent(lastSeen, entries, times) && Dated(entries, times, clock)
  {
  }

  lemma SizeAfter(accounts: map<PublicKey, nat>, times: Times, key: PublicKey, height: nat, token: nat, max: nat)
    requires accounts.Keys <= times.Keys && |accounts| == Min(max, |times|)
    ensures |accounts[key := height]| >= Min(max, |times[key := token]|)
  {
    var kept, touched := accounts.Keys, times.Keys;
    assert |kept| == |accounts| && |touched| == |times|;
    assert accounts[key := height].Keys == kept + {key};
    assert times[key := token].Keys == touched + {key};
    if |kept| == |touched| {
      SubsetSize(kept, touched);
    } else {
      SubsetSize(kept, kept + {key});
    }
  }

  // ----- the index as a value

  datatype Index = Index(accounts: map<PublicKey, nat>, lastSeen: Tokens, queue: seq<Entry>, counter: U64)

  const EMPTY := Index(map[], map[], [], 0)

  function QueueLimit(max: nat): nat {
    Max(Min(2 * max, U64_MAX), 1)
  }

  /** The counter wraps around. */
  function NextToken(counter: U64): U64 {
    if counter == U64_MAX then 0 else counter + 1
  }

  function Push(x: Index, key: PublicKey, height: nat): Index {
    var token := NextToken(x.counter);
    Index(x.accounts[key := height], x.lastSeen[key := token], x.queue + [Entry(key, token)], token)
  }

  /** Pops one entry; only an entry that is not stale evicts its key. */
  function Pop(x: Index): Index
    requires x.queue != []
  {
    var e := x.queue[0];
    if IsLive(e, x.lastSeen)
    then x.(accounts := x.accounts - {e.key}, lastSeen := x.lastSeen - {e.key}, queue := x.queue[1..])
    else x.(queue := x.queue[1..])
  }

  function Evict(x: Index, max: nat): Index
    decreases |x.queue|
  {
    if |x.accounts| > max && x.queue != [] then Evict(Pop(x), max) else x
  }

  /** y is x with its queue rebuilt from the live tokens, if that queue was over the limit. */
  ghost predicate Compacted(x: Index, max: nat, y: Index) {
    if |x.queue| <= QueueLimit(max) then y == x
    else
      && y == x.(queue := y.queue)
      && Ascending(y.queue) && |y.queue| == |x.lastSeen|
      && forall e :: e in y.queue <==> IsLive(e, x.lastSeen)
  }

  /** y is what a touch of `key` makes of x. */
  ghost predicate Touches(x: Index, max: nat, key: PublicKey, height: nat, y: Index) {
    Compacted(Evict(Push(x, key, height), max), max, y)
  }

  // ----- what touches keep

  ghost predicate Sound(x: Index, times: Times) {
    && x.accounts.Keys == x.lastSeen.Keys
    && Consistent(x.lastSeen, x.queue, times)
    && Dated(x.queue, times, x.counter)
  }

  lemma PopKeeps(x: Index, times: Times)
    requires x.queue != [] && Sound(x, times)
    ensures Sound(Pop(x), times)
    ensures |Pop(x).accounts| >= |x.accounts| - 1
    ensures Pop(x).accounts.Items <= x.accounts.Items
  {
    if IsLive(x.queue[0], x.lastSeen) {
      PopLive(x.lastSeen, x.queue, times);
      RemovedKey(x.accounts, x.queue[0].key);
    } else {
      PopStale(x.lastSeen, x.queue, times);
    }
  }

  lemma {:induction false} EvictKeeps(x: Index, times: Times, max: nat)
    requires Sound(x, times) && |x.accounts| >= Min(max, |times|)
    ensures Sound(Evict(x, max), times)
    ensures |Evict(x, max).accounts| == Min(max, |times|)
    ensures Evict(x, max).accounts.Items <= x.accounts.Items
    ensures Evict(x, max).counter == x.counter
    decreases |x.queue|
  {
    hide Sound;
    if |x.accounts| > max && x.queue != [] {
      PopKeeps(x, times);
      EvictKeeps(Pop(x), times, max);
    } else {
      NothingToEvict(x, times);
    }
  }

  lemma NothingToEvict(x: Index, times: Times)
    requires Sound(x, times)
    ensures |x.accounts| <= |times| && (x.queue == [] ==> |x.accounts| == 0)
  {
    SubsetSize(x.accounts.Keys, times.Keys);
    assert |x.accounts.Keys| == |x.accounts|;
    if x.queue == [] {
      assert x.accounts.Keys == {};
    }
  }

  lemma PushSound(x: Index, times: Times, key: PublicKey, height: nat)
    requires Sound(x, times) && x.counter < U64_MAX
    ensures Sound(Push(x, key, height), times[key := x.counter + 1])
  {
    hide Consistent, Dated;
    PushKeeps(x.lastSeen, x.queue, times, x.counter, key);
  }

  lemma CompactSound(x: Index, times: Times, max: nat, y: Index)
    requires Sound(x, times) && |x.accounts| <= max <= U64_MAX && Compacted(x, max, y)
    ensures Sound(y, times) && y.accounts == x.accounts && y.counter == x.counter
    ensures |y.queue| <= QueueLimit(max)
  {
    if |x.queue| > QueueLimit(max) {
      assert |x.accounts.Keys| == |x.lastSeen.Keys|;
      CompactKeeps(x.lastSeen, x.queue, times, x.counter, y.queue);
    }
  }

  /** One touch: the tracked accounts stay the most recently touched ones, tokens stay in order, the
      queue stays within its limit, and no other account's activity changes. */
  lemma TouchKeeps(x: Index, times: Times, max: nat, key: PublicKey, height: nat, y: Index)
    requires Sound(x, times) && MostRecent(times, x.accounts.Keys, max)
    requires x.counter < U64_MAX && max <= U64_MAX
    requires Touches(x, max, key, height, y)
    ensures
      var now := times[key := x.counter + 1];
      && Sound(y, now) && MostRecent(now, y.accounts.Keys, max)
      && y.counter == x.counter + 1
      && |y.queue| <= QueueLimit(max)
      && y.accounts.Items <= x.accounts[key := height].Items
  {
    hide Dated, Evict, Compacted;
    var now := times[key := x.counter + 1];
    var pushed := Push(x, key, height);
    PushSound(x, times, key, height);
    SizeAfter(x.accounts, times, key, height, x.counter + 1, max);
    EvictKeeps(pushed, now, max);
    CompactSound(Evict(pushed, max), now, max, y);
  }

  /** x is the index of these touches. */
  ghost predicate Tracks(x: Index, history: seq<PublicKey>, max: nat) {
    && x.counter == |history|
    && |x.queue| <= QueueLimit(max)
    && Sound(x, LastTouches(history))
    && MostRecent(LastTouches(history), x.accounts.Keys, max)
  }

  lemma TouchTracks(x: Index, history: seq<PublicKey>, max: nat, key: PublicKey, height: nat, y: Index)
    requires Tracks(x, history, max) && |history| < U64_MAX && max <= U64_MAX
    requires Touches(x, max, key, height, y)
    ensures Tracks(y, history + [key], max)
    ensures y.accounts.Items <= x.accounts[key := height].Items
  {
    TouchKeeps(x, LastTouches(history), max, key, height, y);
    LastTouchesAfter(history, key);
  }

  lemma PushedTokensDistinct(x: Index, times: Times, key: PublicKey, height: nat, max: nat)
    requires Sound(x, times) && MostRecent(times, x.accounts.Keys, max)
    requires x.counter < U64_MAX
    ensures
      var tokens := Evict(Push(x, key, height), max).lastSeen;
      forall k, k' :: k in tokens && k' in tokens && tokens[k] == tokens[k'] ==> k == k'
  {
    PushSound(x, times, key, height);
    SizeAfter(x.accounts, times, key, height, x.counter + 1, max);
    EvictKeeps(Push(x, key, height), times[key := x.counter + 1], max);
  }
}

/** Whole runs of touches, and the class that performs them in place. */
module AccountActivity {
  import opened Common
  import opened Recency
  import opened AccountLru

  datatype Touch = Touch(key: PublicKey, height: nat)

  function KeysOf(touches: seq<Touch>): (r: seq<PublicKey>)
    ensures |r| == |touches|
  {
    seq(|touches|, i requires 0 <= i < |touches| => touches[i].key)
  }

  /** `states` are the indices before and after each touch of a run that starts empty. */
  ghost predicate IsRun(touches: seq<Touch>, max: nat, states: seq<Index>) {
    && |states| == |touches| + 1
    && states[0] == EMPTY
    && forall i :: 0 <= i < |touches| ==> Touches(states[i], max, touches[i].key, touches[i].height, states[i + 1])
  }

  lemma TracksNothing(max: nat)
    ensures Tracks(EMPTY, [], max)
  {
  }

  lemma {:induction false} RunTracks(touches: seq<Touch>, max: nat, states: seq<Index>, n: nat)
    requires IsRun(touches, max, states) && n <= |touches| <= U64_MAX && max <= U64_MAX
    ensures Tracks(states[n], KeysOf(touches[..n]), max)
    decreases n
  {
    hide Tracks, Touches;
    if n == 0 {
      TracksNothing(max);
      assert touches[..0] == [] && KeysOf(touches[..0]) == [];
    } else {
      var t := touches[n - 1];
      RunTracks(touches, max, states, n - 1);
      TouchTracks(states[n - 1], KeysOf(touches[..n - 1]), max, t.key, t.height, states[n]);
      assert KeysOf(touches[..n]) == KeysOf(touches[..n - 1]) + [t.key];
    }
  }

  /** The lazy-token index refines true LRU.  After every run of touches from empty, an account is
      tracked exactly when fewer than max other accounts were touched since its last touch; its
      current token is in the queue, which is in token order and never longer than
      max(2 * max, 1). */
  lemma RefinesTrueLru(touches: seq<Touch>, max: nat, states: seq<Index>)
    requires IsRun(touches, max, states) && |touches| <= U64_MAX && max <= U64_MAX
    ensures
      var last := states[|touches|];
      var history := KeysOf(touches);
      && (forall k :: k in last.accounts <==> k in history && |TouchedSince(history, k)| < max)
      && last.accounts.Keys == last.lastSeen.Keys
      && Covered(last.queue, last.lastSeen)
      && Ascending(last.queue)
      && |last.queue| <= Max(2 * max, 1)
  {
    RunTracks(touches, max, states, |touches|);
    assert touches[..|touches|] == touches;
    var last := states[|touches|];
    var history := KeysOf(touches);
    forall k ensures k in last.accounts <==> k in history && |TouchedSince(history, k)| < max {
      KeptExactly(history, last.accounts.Keys, max, k);
    }
  }

  // ----- the class

  class AccountIndex {
    const maxAccounts: Option<nat>
    /** The retained activity; only its last-updated height is modelled. */
    var accounts: map<PublicKey, nat>
    var lastSeen: Tokens
    var queue: seq<Entry>
    var counter: U64
    /** The keys touched so far, oldest first. */
    ghost var history: seq<PublicKey>

    ghost function View(): Index
      reads this
    {
      Index(accounts, lastSeen, queue, counter)
    }

    ghost predicate Valid()
      reads this
    {
      if maxAccounts.None? then accounts.Keys == LastTouches(history).Keys
      else Tracks(View(), history, maxAccounts.value)
    }

    constructor (maxAccounts: Option<nat>)
      ensures Valid() && history == [] && View() == EMPTY && this.maxAccounts == maxAccounts
    {
      this.maxAccounts := maxAccounts;
      accounts, lastSeen, queue, counter, history := map[], map[], [], 0, [];
    }

    method EnforceRetention(max: nat)
      modifies this`accounts, this`lastSeen, this`queue
      ensures View() == Evict(old(View()), max)
    {
      while |accounts| > max && queue != []
        invariant Evict(View(), max) == Evict(old(View()), max)
        decreases |queue|
      {
        var e := queue[0];
        ghost var x := View();
        queue := queue[1..];
        if e.key in lastSeen && lastSeen[e.key] == e.token {
          lastSeen := lastSeen - {e.key};
          accounts := accounts - {e.key};
        }
        assert View() == Pop(x);
      }
    }

    method Compact(max: nat)
      requires forall k, k' :: k in lastSeen && k' in lastSeen && lastSeen[k] == lastSeen[k'] ==> k == k'
      modifies this`queue
      ensures Compacted(old(View()), max, View())
    {
      var maxQueue := Max(Min(2 * max, U64_MAX), 1);
      if |queue| <= maxQueue {
        return;
      }
      queue := SortByToken(lastSeen);
    }

    /** Records activity of an account and makes it the most recently used one. */
    method TouchAccount(key: PublicKey, height: nat)
      requires Valid() && |history| < U64_MAX && (maxAccounts.Some? ==> maxAccounts.value <= U64_MAX)
      modifies this
      ensures Valid() && history == old(history) + [key]
      ensures maxAccounts.Some? ==> Touches(old(View()), maxAccounts.value, key, height, View())
      ensures maxAccounts.None? ==> accounts == old(accounts)[key := height]
    {
      ghost var x := View();
      ghost var touched := history;
      history := history + [key];
      if maxAccounts.None? {
        LastTouchesAfter(touched, key);
        accounts := accounts[key := height];
        return;
      }
      Record(key, height);
      PushedTokensDistinct(x, LastTouches(touched), key, height, maxAccounts.value);
      EnforceRetention(maxAccounts.value);
      Compact(maxAccounts.value);
      TouchTracks(x, touched, maxAccounts.value, key, height, View());
    }

    method Record(key: PublicKey, height: nat)
      modifies this`accounts, this`counter, this`lastSeen, this`queue
      ensures View() == Push(old(View()), key, height)
    {
      accounts := accounts[key := height];
      counter := NextToken(counter);
      lastSeen := lastSeen[key := counter];
      queue := queue + [Entry(key, counter)];
    }
  }
}
