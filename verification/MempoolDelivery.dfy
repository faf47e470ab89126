/** When a subscriber is given an entry twice: over every continuation of a subscription. */
module MempoolRepeats {
  import opened Common
  import opened MempoolSteps
  import opened MempoolRuns

  /** The state after the first n further steps. */
  function Continue(s: State, steps: seq<Step>, n: nat): State
    requires n <= |steps|
  {
    if n == 0 then s else Next(Continue(s, steps, n - 1), steps[n - 1])
  }

  ghost predicate NoRepeats(delivered: seq<Entry>) {
    forall i, j :: 0 <= i < j < |delivered| ==> delivered[i] != delivered[j]
  }

  /** Some buffered entry that is not stale has a number above that of the last buffered one. */
  ghost predicate Outnumbered(s: State) {
    exists i :: 0 <= i < |s.buffer| && !Expired(s.buffer[i], s.now, s.window)
                && s.buffer[i].seqNo > s.buffer[|s.buffer| - 1].seqNo
  }

  /** u continues the subscription t: every live delivery was not stale, and above the last number seen,
      when the subscription began. */
  ghost predicate Continues(t: State, u: State) {
    && u.subscribed && u.replay == t.replay && u.window == t.window
    && t.now <= u.now && t.lastSeen <= u.lastSeen
    && forall i :: u.replayIndex <= i < |u.delivered| ==>
         u.delivered[i].seqNo > t.lastSeen && !Expired(u.delivered[i], t.now, t.window)
  }

  lemma NextContinues(t: State, u: State, step: Step)
    requires Continues(t, u) && LiveRises(u)
    ensures Continues(t, Next(u, step))
  {
    hide DropCount;
  }

  lemma {:induction false} ContinueKeeps(t: State, steps: seq<Step>, n: nat)
    requires n <= |steps| && Regular(t) && Continues(t, t)
    ensures Regular(Continue(t, steps, n)) && Continues(t, Continue(t, steps, n))
  {
    hide Continues, Next, Buffered, Numbered, Distinct, LiveRises, Watchful;
    if n > 0 {
      ContinueKeeps(t, steps, n - 1);
      var u := Continue(t, steps, n - 1);
      NextRegular(u, steps[n - 1]);
      NextContinues(t, u, steps[n - 1]);
    }
  }

  /** Replayed entries differ, live ones rise, and no live one was replayed. */
  lemma NeverTwice(t: State, u: State)
    requires Continues(t, u) && LiveRises(u) && Distinct(t) && Buffered(t)
    requires t.replay == t.buffer && !Outnumbered(t)
    requires t.buffer != [] ==> t.lastSeen == t.buffer[|t.buffer| - 1].seqNo
    ensures NoRepeats(u.delivered)
  {
    forall i, j | 0 <= i < j < |u.delivered| ensures u.delivered[i] != u.delivered[j] {
      if j < u.replayIndex {
        assert t.buffer[i] == t.entered[t.trimmed + i] && t.buffer[j] == t.entered[t.trimmed + j];
      } else if i < u.replayIndex {
        assert u.delivered[i] == t.buffer[i];
      }
    }
  }

  /** Receiving k times at first gives the first k replayed entries. */
  lemma {:induction false} ReplayedFirst(t: State, steps: seq<Step>, k: nat)
    requires t.subscribed && t.phase.Active? && t.replayIndex == 0 && t.delivered == []
    requires k <= |steps| && k <= |t.replay| && forall i :: 0 <= i < k ==> steps[i] == Recv
    ensures Continue(t, steps, k) == t.(replayIndex := k, delivered := t.replay[..k])
  {
    if k > 0 {
      ReplayedFirst(t, steps, k - 1);
      assert t.replay[..k] == t.replay[..k - 1] + [t.replay[k - 1]];
      assert steps[k - 1] == Recv;
    }
  }

  /** Receiving once more than was replayed repeats an entry. */
  lemma RepeatsIfOutnumbered(t: State) returns (steps: seq<Step>)
    requires t.subscribed && t.phase.Active? && t.replayIndex == 0 && t.delivered == []
    requires t.replay == t.buffer && Outnumbered(t) && t.lastSeen == t.buffer[|t.buffer| - 1].seqNo
    ensures !NoRepeats(Continue(t, steps, |steps|).delivered)
  {
    var k := |t.replay|;
    steps := seq(k + 1, i => Recv);
    ReplayedFirst(t, steps, k);
    var u := Continue(t, steps, k);
    assert u.delivered == t.replay;
    var found := Scan(u.buffer, u.lastSeen, Cutoff(u.now, u.window), 0);
    assert found.Some?;
    var last := Continue(t, steps, k + 1);
    assert last.delivered == t.replay + [t.buffer[found.value]];
    assert last.delivered[found.value] == last.delivered[k];
  }

  lemma JustSubscribed(s: State)
    requires Regular(s) && !s.subscribed
    ensures
      var t := Next(s, Subscribe);
      && Regular(t) && Continues(t, t) && t.subscribed && t.phase.Active? && t.replayIndex == 0 && t.delivered == []
      && t.replay == t.buffer && (t.buffer != [] ==> t.lastSeen == t.buffer[|t.buffer| - 1].seqNo)
  {
    NextRegular(s, Subscribe);
  }

  /** Whatever happened before a subscription, and in whatever order submissions enter: no continuation of it
      delivers an entry twice if and only if, when it began, no buffered entry that was not stale had a
      number above that of the last buffered one. */
  lemma RepeatsExactly(window: nat, maxSize: nat, steps: seq<Step>, n: nat)
    requires n <= |steps| && !Run(window, maxSize, steps, n).subscribed
    ensures
      var t := Next(Run(window, maxSize, steps, n), Subscribe);
      (forall more :: NoRepeats(Continue(t, more, |more|).delivered)) <==> !Outnumbered(t)
  {
    hide Next, Run, Regular, Continues, Outnumbered, NoRepeats;
    RunKeeps(window, maxSize, steps, n);
    var s := Run(window, maxSize, steps, n);
    var t := Next(s, Subscribe);
    JustSubscribed(s);
    if Outnumbered(t) {
      OutnumberedBuffer(t);
      var more := RepeatsIfOutnumbered(t);
    } else {
      forall more ensures NoRepeats(Continue(t, more, |more|).delivered) {
        ContinueKeeps(t, more, |more|);
        RegularParts(t);
        RegularParts(Continue(t, more, |more|));
        NeverTwice(t, Continue(t, more, |more|));
      }
    }
  }

  // ----- in order

  /** Numbers strictly rise. */
  ghost predicate Rising(entries: seq<Entry>) {
    forall i, j :: 0 <= i < j < |entries| ==> entries[i].seqNo < entries[j].seqNo
  }

  lemma AlwaysRising(t: State, u: State)
    requires Continues(t, u) && LiveRises(u) && t.replay == t.buffer && Rising(t.buffer)
    requires t.buffer != [] ==> t.lastSeen == t.buffer[|t.buffer| - 1].seqNo
    ensures Rising(u.delivered)
  {
    forall i, j | 0 <= i < j < |u.delivered| ensures u.delivered[i].seqNo < u.delivered[j].seqNo {
      if i < u.replayIndex {
        assert u.delivered[i] == t.buffer[i] && t.buffer[i].seqNo <= t.lastSeen;
      }
    }
  }

  /** Receiving what is replayed, and no more. */
  lemma ReplaysBuffer(t: State) returns (steps: seq<Step>)
    requires t.subscribed && t.phase.Active? && t.replayIndex == 0 && t.delivered == []
    ensures Continue(t, steps, |steps|).delivered == t.replay
  {
    steps := seq(|t.replay|, i => Recv);
    ReplayedFirst(t, steps, |steps|);
    assert t.replay[..|t.replay|] == t.replay;
  }

  /** Whatever happened before a subscription, and in whatever order submissions enter: every continuation of it
      delivers in strictly rising order of number if and only if the buffer was in that order when it began. */
  lemma InOrderExactly(window: nat, maxSize: nat, steps: seq<Step>, n: nat)
    requires n <= |steps| && !Run(window, maxSize, steps, n).subscribed
    ensures
      var t := Next(Run(window, maxSize, steps, n), Subscribe);
      (forall more :: Rising(Continue(t, more, |more|).delivered)) <==> Rising(t.buffer)
  {
    hide Next, Run, Regular, Continues, Rising;
    RunKeeps(window, maxSize, steps, n);
    var t := Next(Run(window, maxSize, steps, n), Subscribe);
    JustSubscribed(Run(window, maxSize, steps, n));
    if Rising(t.buffer) {
      forall more ensures Rising(Continue(t, more, |more|).delivered) {
        ContinueKeeps(t, more, |more|);
        RegularParts(Continue(t, more, |more|));
        AlwaysRising(t, Continue(t, more, |more|));
      }
    } else {
      var more := ReplaysBuffer(t);
    }
  }

  lemma OutnumberedBuffer(s: State)
    requires Outnumbered(s)
    ensures s.buffer != []
  {
  }

  lemma RegularParts(s: State)
    requires Regular(s)
    ensures Buffered(s) && Numbered(s) && Distinct(s) && LiveRises(s) && Watchful(s)
  {
  }
}

/** When a subscriber is never given an entry, in any order of submissions. */
module MempoolGaps {
  import opened Common
  import opened MempoolSteps
  import opened MempoolRuns
  import opened MempoolRepeats

  // ----- positions of what entered

  predicate DeliveredLive(s: State, e: Entry) {
    exists i :: s.replayIndex <= i < |s.delivered| && s.delivered[i] == e
  }

  /** The positions delivered live. */
  ghost function Live(s: State): set<nat> {
    set p: nat | p < |s.entered| && DeliveredLive(s, s.entered[p])
  }

  /** The positions whose numbers the subscriber has seen: those delivered live, and the last one buffered
      when it subscribed. */
  ghost function Seen(s: State): set<nat> {
    Live(s) + if s.replay != [] && 0 < s.replayed <= |s.entered| then {s.replayed - 1} else {}
  }

  /** The positions that can no longer be delivered. */
  ghost function Gone(s: State): set<nat> {
    set p: nat | p < |s.entered| && Lost(s, p)
  }

  // ----- what deliveries keep, on values

  /** An entry that was passed over has a larger number before it, seen already. */
  ghost predicate Explained(entered: seq<Entry>, replayed: nat, live: set<nat>, seen: set<nat>, gone: set<nat>,
                            lastSeen: nat)
    requires forall p :: p in seen ==> p < |entered|
  {
    forall j :: replayed <= j < |entered| && j !in gone && j !in live && entered[j].seqNo <= lastSeen ==>
      exists p :: p in seen && p < j && entered[p].seqNo > entered[j].seqNo
  }

  /** Nothing seen before an entry that was delivered live has a larger number. */
  ghost predicate Respected(entered: seq<Entry>, replayed: nat, live: set<nat>, seen: set<nat>)
    requires forall p :: p in seen || p in live ==> p < |entered|
  {
    forall j, p :: j in live && replayed <= j && p in seen && p < j ==> entered[p].seqNo < entered[j].seqNo
  }

  /** Nothing that can still be delivered before an entry that was delivered live has a larger number. */
  ghost predicate Skipless(entered: seq<Entry>, live: set<nat>, gone: set<nat>)
    requires forall p :: p in live ==> p < |entered|
  {
    forall j, q: nat :: j in live && q < j && q !in gone ==> entered[q].seqNo < entered[j].seqNo
  }

  /** The last number seen is the largest number seen. */
  ghost predicate Largest(entered: seq<Entry>, seen: set<nat>, lastSeen: nat)
    requires forall p :: p in seen ==> p < |entered|
  {
    && (forall p :: p in seen ==> entered[p].seqNo <= lastSeen)
    && (lastSeen == 0 || exists p :: p in seen && entered[p].seqNo == lastSeen)
  }

  ghost predicate Passing(entered: seq<Entry>, replayed: nat, live: set<nat>, seen: set<nat>, gone: set<nat>,
                          lastSeen: nat)
  {
    && (forall p :: p in seen ==> p < |entered|)
    && live <= seen
    && Explained(entered, replayed, live, seen, gone, lastSeen)
    && Respected(entered, replayed, live, seen)
    && Skipless(entered, live, gone)
    && Largest(entered, seen, lastSeen)
  }

  lemma LosingKeeps(entered: seq<Entry>, replayed: nat, live: set<nat>, seen: set<nat>, gone: set<nat>, lastSeen: nat,
                    more: set<nat>)
    requires Passing(entered, replayed, live, seen, gone, lastSeen) && gone <= more
    ensures Passing(entered, replayed, live, seen, more, lastSeen)
  {
  }

  lemma EnteringKeeps(entered: seq<Entry>, replayed: nat, live: set<nat>, seen: set<nat>, gone: set<nat>, lastSeen: nat,
                      e: Entry)
    requires Passing(entered, replayed, live, seen, gone, lastSeen) && e.seqNo > 0
    requires forall i :: 0 <= i < |entered| ==> entered[i].seqNo != e.seqNo
    ensures Passing(entered + [e], replayed, live, seen, gone, lastSeen)
  {
    var longer := entered + [e];
    forall j | replayed <= j < |longer| && j !in gone && j !in live && longer[j].seqNo <= lastSeen
      ensures exists p :: p in seen && p < j && longer[p].seqNo > longer[j].seqNo
    {
      if j == |entered| {
        var p :| p in seen && entered[p].seqNo == lastSeen;
        assert longer[p].seqNo > longer[j].seqNo;
      } else {
        var p :| p in seen && p < j && entered[p].seqNo > entered[j].seqNo;
        assert longer[p].seqNo > longer[j].seqNo;
      }
    }
    if lastSeen != 0 {
      var p :| p in seen && entered[p].seqNo == lastSeen;
      assert longer[p].seqNo == lastSeen;
    }
  }

  /** Delivering the first entry that can still be delivered and has a number above the last one seen. */
  lemma DeliveringKeeps(entered: seq<Entry>, replayed: nat, live: set<nat>, seen: set<nat>, gone: set<nat>,
                        lastSeen: nat, q: nat)
    requires Passing(entered, replayed, live, seen, gone, lastSeen)
    requires forall i, j :: 0 <= i < j < |entered| ==> entered[i].seqNo != entered[j].seqNo
    requires q < |entered| && q !in gone && entered[q].seqNo > lastSeen
    requires forall p: nat :: p < q && p !in gone ==> entered[p].seqNo <= lastSeen
    ensures Passing(entered, replayed, live + {q}, seen + {q}, gone, entered[q].seqNo)
  {
    DeliveringExplains(entered, replayed, live, seen, gone, lastSeen, q);
    DeliveringRespects(entered, replayed, live, seen, gone, lastSeen, q);
  }

  lemma DeliveringExplains(entered: seq<Entry>, replayed: nat, live: set<nat>, seen: set<nat>, gone: set<nat>,
                           lastSeen: nat, q: nat)
    requires (forall p :: p in seen ==> p < |entered|) && Explained(entered, replayed, live, seen, gone, lastSeen)
    requires forall i, j :: 0 <= i < j < |entered| ==> entered[i].seqNo != entered[j].seqNo
    requires q < |entered| && forall p: nat :: p < q && p !in gone ==> entered[p].seqNo <= lastSeen
    ensures Explained(entered, replayed, live + {q}, seen + {q}, gone, entered[q].seqNo)
  {
    forall j | replayed <= j < |entered| && j !in gone && j !in live + {q} && entered[j].seqNo <= entered[q].seqNo
      ensures exists p :: p in seen + {q} && p < j && entered[p].seqNo > entered[j].seqNo
    {
      if entered[j].seqNo <= lastSeen {
        var p :| p in seen && p < j && entered[p].seqNo > entered[j].seqNo;
        assert p in seen + {q};
      } else {
        assert q in seen + {q} && q < j;
      }
    }
  }

  lemma DeliveringRespects(entered: seq<Entry>, replayed: nat, live: set<nat>, seen: set<nat>, gone: set<nat>,
                           lastSeen: nat, q: nat)
    requires Passing(entered, replayed, live, seen, gone, lastSeen)
    requires q < |entered| && q !in gone && entered[q].seqNo > lastSeen
    requires forall p: nat :: p < q && p !in gone ==> entered[p].seqNo <= lastSeen
    ensures Respected(entered, replayed, live + {q}, seen + {q}) && Skipless(entered, live + {q}, gone)
    ensures Largest(entered, seen + {q}, entered[q].seqNo)
  {
    hide Explained;
    assert q in seen + {q};
  }

  // ----- the same of a state

  /** Live deliveries are entries that entered. */
  ghost predicate Sourced(s: State) {
    forall i :: s.replayIndex <= i < |s.delivered| ==> s.delivered[i] in s.entered
  }

  ghost predicate Orderly(s: State) {
    && Sourced(s) && s.replayed <= |s.entered|
    && Passing(s.entered, s.replayed, Live(s), Seen(s), Gone(s), s.lastSeen)
  }

  lemma SubscribeOrderly(s: State)
    requires Regular(s) && !s.subscribed
    ensures Orderly(Next(s, Subscribe))
  {
    hide Watchful, Numbered, Distinct;
    var t := Next(s, Subscribe);
    assert Live(t) == {};
    if t.replay != [] {
      assert t.buffer[|t.buffer| - 1] == t.entered[t.replayed - 1];
      assert t.replayed - 1 in Seen(t);
    }
  }

  /** A step that delivers nothing live and lets nothing enter. */
  lemma QuietOrderly(s: State, t: State)
    requires Orderly(s) && t.entered == s.entered && t.replayed == s.replayed && t.lastSeen == s.lastSeen
    requires t.replay == s.replay && Gone(s) <= Gone(t)
    requires forall e :: DeliveredLive(t, e) <==> DeliveredLive(s, e)
    ensures Orderly(t)
  {
    assert Live(t) == Live(s);
    assert Seen(t) == Seen(s);
    LosingKeeps(s.entered, s.replayed, Live(s), Seen(s), Gone(s), s.lastSeen, Gone(t));
    forall i | t.replayIndex <= i < |t.delivered| ensures t.delivered[i] in t.entered {
      assert DeliveredLive(t, t.delivered[i]);
      var k :| s.replayIndex <= k < |s.delivered| && s.delivered[k] == t.delivered[i];
    }
  }

  lemma EnterOrderly(s: State, n: nat)
    requires Regular(s) && Orderly(s) && n in s.pending
    ensures Orderly(Next(s, Enter(n)))
  {
    hide Watchful, Passing, DropCount, LiveRises;
    var e, t := s.pending[n], Next(s, Enter(n));
    NewNumber(s, n);
    EnteringKeeps(s.entered, s.replayed, Live(s), Seen(s), Gone(s), s.lastSeen, e);
    SameLive(s, t, e);
    GoneGrows(s, t);
    LosingKeeps(t.entered, s.replayed, Live(s), Seen(s), Gone(s), s.lastSeen, Gone(t));
  }

  lemma NewNumber(s: State, n: nat)
    requires Numbered(s) && Distinct(s) && n in s.pending
    ensures s.pending[n].seqNo == n > 0 && forall i :: 0 <= i < |s.entered| ==> s.entered[i].seqNo != n
  {
  }

  lemma SameLive(s: State, t: State, e: Entry)
    requires Sourced(s) && s.replayed <= |s.entered| && t.entered == s.entered + [e]
    requires forall i :: 0 <= i < |s.entered| ==> s.entered[i].seqNo != e.seqNo
    requires t.delivered == s.delivered && t.replayIndex == s.replayIndex
    requires t.replay == s.replay && t.replayed == s.replayed
    ensures Live(t) == Live(s) && Seen(t) == Seen(s) && Sourced(t)
  {
    forall x ensures DeliveredLive(t, x) <==> DeliveredLive(s, x) {
    }
    assert !DeliveredLive(s, e);
    forall p | p in Live(t) ensures p in Live(s) {
    }
    forall i | t.replayIndex <= i < |t.delivered| ensures t.delivered[i] in t.entered {
      assert s.delivered[i] in s.entered;
    }
  }

  lemma GoneGrows(s: State, t: State)
    requires s.entered <= t.entered && s.trimmed <= t.trimmed && s.now <= t.now && s.window == t.window
    ensures Gone(s) <= Gone(t)
  {
  }

  lemma DeliverOrderly(s: State, i: nat)
    requires Buffered(s) && Distinct(s) && LiveRises(s) && Orderly(s)
    requires s.replayIndex >= |s.replay| && Scan(s.buffer, s.lastSeen, Cutoff(s.now, s.window), 0) == Some(i)
    ensures Orderly(s.(lastSeen := s.buffer[i].seqNo, delivered := s.delivered + [s.buffer[i]]))
  {
    hide Passing, Scan;
    var t := s.(lastSeen := s.buffer[i].seqNo, delivered := s.delivered + [s.buffer[i]]);
    var q := s.trimmed + i;
    assert s.buffer[i] == s.entered[q];
    FirstFound(s, i);
    DeliveringKeeps(s.entered, s.replayed, Live(s), Seen(s), Gone(s), s.lastSeen, q);
    OneMoreLive(s, t, q);
    assert Gone(t) == Gone(s);
  }

  lemma FirstFound(s: State, i: nat)
    requires Buffered(s) && Scan(s.buffer, s.lastSeen, Cutoff(s.now, s.window), 0) == Some(i)
    ensures
      var q := s.trimmed + i;
      && q < |s.entered| && q !in Gone(s) && s.entered[q].seqNo > s.lastSeen
      && forall p: nat :: p < q && p !in Gone(s) ==> s.entered[p].seqNo <= s.lastSeen
  {
    hide Scan;
    var q := s.trimmed + i;
    assert s.buffer[i] == s.entered[q];
    forall p: nat | p < q && p !in Gone(s) ensures s.entered[p].seqNo <= s.lastSeen {
      assert !Lost(s, p);
      assert s.buffer[p - s.trimmed] == s.entered[p];
    }
  }

  lemma OneMoreLive(s: State, t: State, q: nat)
    requires Sourced(s) && Distinct(s) && q < |s.entered| && s.replayIndex <= |s.delivered|
    requires t == s.(lastSeen := s.entered[q].seqNo, delivered := s.delivered + [s.entered[q]])
    ensures Live(t) == Live(s) + {q} && Seen(t) == Seen(s) + {q} && Sourced(t)
  {
    forall p: nat | p < |s.entered|
      ensures DeliveredLive(t, s.entered[p]) <==> DeliveredLive(s, s.entered[p]) || p == q
    {
      if DeliveredLive(s, s.entered[p]) {
        var i :| s.replayIndex <= i < |s.delivered| && s.delivered[i] == s.entered[p];
        assert t.delivered[i] == s.entered[p];
      } else if p == q {
        assert t.delivered[|s.delivered|] == s.entered[p];
      }
    }
    forall i | t.replayIndex <= i < |t.delivered| ensures t.delivered[i] in t.entered {
      if i < |s.delivered| {
        assert s.delivered[i] in s.entered;
      }
    }
  }

  lemma NextOrderly(s: State, step: Step)
    requires Regular(s) && (s.subscribed ==> Orderly(s))
    ensures Next(s, step).subscribed ==> Orderly(Next(s, step))
  {
    hide Orderly, Buffered, Numbered, Distinct, Watchful, Scan, DropCount, LiveRises, Gone;
    var t := Next(s, step);
    NextBuffered(s, step);
    if s.subscribed {
      if step.Enter? && step.seqNo in s.pending {
        EnterOrderly(s, step.seqNo);
      } else if step.Recv? && s.phase.Active? && s.replayIndex >= |s.replay|
                && Scan(s.buffer, s.lastSeen, Cutoff(s.now, s.window), 0).Some? {
        DeliverOrderly(s, Scan(s.buffer, s.lastSeen, Cutoff(s.now, s.window), 0).value);
      } else {
        GoneGrows(s, t);
        if step.Recv? && s.phase.Active? && s.replayIndex < |s.replay| {
          StillReplaying(s);
        }
        QuietOrderly(s, t);
      }
    } else if step.Subscribe? {
      SubscribeOrderly(s);
    }
  }

  lemma StillReplaying(s: State)
    requires LiveRises(s) && s.replayIndex < |s.replay|
    ensures forall e :: !DeliveredLive(s, e) && !DeliveredLive(RecvStep(s), e)
  {
    assert |s.delivered| == s.replayIndex;
  }

  lemma {:induction false} RunOrderly(window: nat, maxSize: nat, steps: seq<Step>, n: nat)
    requires n <= |steps|
    ensures var s := Run(window, maxSize, steps, n); s.subscribed ==> Orderly(s)
  {
    hide Orderly, Regular, Next;
    if n > 0 {
      RunOrderly(window, maxSize, steps, n - 1);
      RunKeeps(window, maxSize, steps, n - 1);
      NextOrderly(Run(window, maxSize, steps, n - 1), steps[n - 1]);
    }
  }

  // ----- exactly which entries are passed over

  /** A receive would find nothing. */
  predicate Exhausted(s: State) {
    s.subscribed && s.replayIndex == |s.replay| && RecvStep(s).delivered == s.delivered
  }

  /** A larger number was seen from an earlier position. */
  ghost predicate Overtaken(s: State, j: nat)
    requires j < |s.entered|
  {
    exists p :: p in Seen(s) && p < j && s.entered[p].seqNo > s.entered[j].seqNo
  }

  /** In every run, in whatever order submissions enter: when a receive would find nothing, an entry that
      entered after the subscription and can still be delivered was not delivered if and only if a larger
      number was seen from an earlier position. */
  lemma PassedOverExactly(window: nat, maxSize: nat, steps: seq<Step>, n: nat, j: nat)
    requires n <= |steps|
    requires
      var s := Run(window, maxSize, steps, n);
      Exhausted(s) && s.replayed <= j < |s.entered| && !Lost(s, j)
    ensures
      var s := Run(window, maxSize, steps, n);
      s.entered[j] !in s.delivered <==> Overtaken(s, j)
  {
    hide Run, Next, Regular, Orderly, Scan;
    var s := Run(window, maxSize, steps, n);
    RunKeeps(window, maxSize, steps, n);
    RunOrderly(window, maxSize, steps, n);
    RunReplay(window, maxSize, steps, n);
    PassedOverIn(s, j);
  }

  /** What is replayed entered before the subscription. */
  ghost predicate Replays(s: State) {
    && s.start + |s.replay| == s.replayed <= |s.entered|
    && forall i :: 0 <= i < |s.replay| ==> s.replay[i] == s.entered[s.start + i]
  }

  lemma NextReplays(s: State, step: Step)
    requires Buffered(s) && (s.subscribed ==> Replays(s))
    ensures Next(s, step).subscribed ==> Replays(Next(s, step))
  {
    hide DropCount, Scan;
  }

  lemma {:induction false} RunReplay(window: nat, maxSize: nat, steps: seq<Step>, n: nat)
    requires n <= |steps|
    ensures var s := Run(window, maxSize, steps, n); s.subscribed ==> Replays(s)
  {
    hide Replays, Regular, Next;
    if n > 0 {
      RunReplay(window, maxSize, steps, n - 1);
      RunKeeps(window, maxSize, steps, n - 1);
      RegularParts(Run(window, maxSize, steps, n - 1));
      NextReplays(Run(window, maxSize, steps, n - 1), steps[n - 1]);
    }
  }

  /** Entries that entered after the subscription are delivered live or not at all. */
  lemma DeliveredIsLive(s: State, j: nat)
    requires Replays(s) && Distinct(s) && LiveRises(s) && s.replayed <= j < |s.entered|
    ensures s.entered[j] in s.delivered <==> j in Live(s)
  {
    if s.entered[j] in s.delivered {
      var i :| 0 <= i < |s.delivered| && s.delivered[i] == s.entered[j];
      if i < s.replayIndex {
        assert false;
      }
    }
  }

  lemma PassedOverIn(s: State, j: nat)
    requires Regular(s) && Orderly(s) && Replays(s) && Exhausted(s)
    requires s.replayed <= j < |s.entered| && !Lost(s, j)
    ensures s.entered[j] !in s.delivered <==> Overtaken(s, j)
  {
    hide Scan, Passing, Live, Seen, Numbered, Watchful;
    DeliveredIsLive(s, j);
    assert s.buffer[j - s.trimmed] == s.entered[j];
    assert j !in Gone(s);
    ExplainedExactly(s.entered, s.replayed, Live(s), Seen(s), Gone(s), s.lastSeen, j);
  }

  lemma ExplainedExactly(entered: seq<Entry>, replayed: nat, live: set<nat>, seen: set<nat>, gone: set<nat>,
                         lastSeen: nat, j: nat)
    requires Passing(entered, replayed, live, seen, gone, lastSeen)
    requires replayed <= j < |entered| && j !in gone && entered[j].seqNo <= lastSeen
    ensures (forall p :: p in seen ==> p < |entered|)
    ensures j !in live <==> exists p :: p in seen && p < j && entered[p].seqNo > entered[j].seqNo
  {
    hide Skipless, Largest;
  }

  /** In order, when a receive would find nothing, every entry buffered at subscription or later was
      delivered, or was trimmed or has expired. */
  lemma NothingLeft(window: nat, maxSize: nat, steps: seq<Step>, n: nat, j: nat)
    requires n <= |steps| && InOrder(Run(window, maxSize, steps, n))
    requires
      var s := Run(window, maxSize, steps, n);
      Exhausted(s) && s.start <= j < |s.entered|
    ensures
      var s := Run(window, maxSize, steps, n);
      s.entered[j] in s.delivered || Lost(s, j)
  {
    hide Run, Next, Scan, Orderly, Watchful, Lost;
    var s := Run(window, maxSize, steps, n);
    RunKeeps(window, maxSize, steps, n);
    RunReplay(window, maxSize, steps, n);
    if j < s.replayed {
      assert s.replay[j - s.start] == s.entered[j];
      assert s.delivered[j - s.start] == s.entered[j];
    } else if !Lost(s, j) {
      PassedOverExactly(window, maxSize, steps, n, j);
    }
  }

  // ----- what is kept, and so delivered

  /** Whatever was trimmed is older than the window or has at least maxSize entries after it. */
  ghost predicate TrimmedFairly(s: State) {
    && s.trimmed <= |s.entered|
    && forall j :: 0 <= j < s.trimmed ==>
         Expired(s.entered[j], s.now, s.window) || |s.entered| - 1 - j >= s.maxSize
  }

  lemma EnterFairly(s: State, e: Entry)
    requires Buffered(s) && TrimmedFairly(s)
    ensures TrimmedFairly(EnterStep(s, e))
  {
    hide OldCount;
    var t, longer := EnterStep(s, e), s.buffer + [e];
    forall j | 0 <= j < t.trimmed ensures Expired(t.entered[j], t.now, t.window) || |t.entered| - 1 - j >= t.maxSize {
      if j >= s.trimmed {
        assert longer[j - s.trimmed] == t.entered[j];
      } else {
        assert t.entered[j] == s.entered[j];
      }
    }
  }

  lemma NextFairly(s: State, step: Step)
    requires Buffered(s) && TrimmedFairly(s)
    ensures TrimmedFairly(Next(s, step))
  {
    hide EnterStep, Scan;
    if step.Enter? && step.seqNo in s.pending {
      EnterFairly(s, s.pending[step.seqNo]);
    }
  }

  lemma {:induction false} RunFairly(window: nat, maxSize: nat, steps: seq<Step>, n: nat)
    requires n <= |steps|
    ensures var s := Run(window, maxSize, steps, n); TrimmedFairly(s) && s.window == window && s.maxSize == maxSize
  {
    hide Next, TrimmedFairly, Regular;
    if n > 0 {
      RunFairly(window, maxSize, steps, n - 1);
      RunKeeps(window, maxSize, steps, n - 1);
      RegularParts(Run(window, maxSize, steps, n - 1));
      NextFairly(Run(window, maxSize, steps, n - 1), steps[n - 1]);
      SameLimits(Run(window, maxSize, steps, n - 1), steps[n - 1]);
    } else {
      InitFairly(window, maxSize);
    }
  }

  lemma SameLimits(s: State, step: Step)
    ensures Next(s, step).window == s.window && Next(s, step).maxSize == s.maxSize
  {
  }

  lemma InitFairly(window: nat, maxSize: nat)
    ensures TrimmedFairly(Init(window, maxSize))
  {
  }

  /** In every run, an entry that is not older than the window and has fewer than maxSize entries after it is
      still buffered. */
  lemma KeptWhileRecent(window: nat, maxSize: nat, steps: seq<Step>, n: nat, j: nat)
    requires n <= |steps|
    requires
      var s := Run(window, maxSize, steps, n);
      j < |s.entered| && s.now <= s.entered[j].timestamp + window && |s.entered| - 1 - j < maxSize
    ensures
      var s := Run(window, maxSize, steps, n);
      s.entered[j] in s.buffer && !Lost(s, j)
  {
    hide Run, Numbered, Distinct, LiveRises, Watchful;
    RunFairly(window, maxSize, steps, n);
    RunKeeps(window, maxSize, steps, n);
    var s := Run(window, maxSize, steps, n);
    assert s.trimmed <= j && s.buffer[j - s.trimmed] == s.entered[j];
  }

  /** If submissions enter in number order: once a receive finds nothing, every entry since the subscription that
      is not older than the window and has fewer than maxSize entries after it has been delivered. */
  lemma RecentIsDelivered(window: nat, maxSize: nat, steps: seq<Step>, n: nat, j: nat)
    requires n <= |steps| && InOrder(Run(window, maxSize, steps, n))
    requires
      var s := Run(window, maxSize, steps, n);
      && Exhausted(s) && s.start <= j < |s.entered|
      && s.now <= s.entered[j].timestamp + window && |s.entered| - 1 - j < maxSize
    ensures
      var s := Run(window, maxSize, steps, n);
      s.entered[j] in s.delivered
  {
    hide Run, Exhausted, Lost, InOrder;
    KeptWhileRecent(window, maxSize, steps, n, j);
    NothingLeft(window, maxSize, steps, n, j);
  }

  /** It happens: number 2 enters and is delivered before number 1 enters; number 1 is then buffered, not
      stale, and passed over. */
  lemma GapOutOfOrder(window: nat, maxSize: nat)
    requires maxSize >= 2
    ensures
      var s1 := Next(Init(window, maxSize), TakeNumber(10));
      var s2 := Next(s1, TakeNumber(20));
      var s3 := Next(s2, Subscribe);
      var s4 := Next(s3, Enter(2));
      var s5 := Next(s4, Recv);
      var s6 := Next(s5, Enter(1));
      var s7 := Next(s6, Recv);
      && s7.delivered == [Entry(2, 0, 20)] && s7.buffer == [Entry(2, 0, 20), Entry(1, 0, 10)]
      && s7.phase.Scanned? && s7.now == 0
  {
    hide EnterStep, RecvStep;
    var a, b := Entry(1, 0, 10), Entry(2, 0, 20);
    var s2 := TwoTaken(window, maxSize);
    var s3 := Next(s2, Subscribe);
    EntersWhole(s3, b);
    var s4 := Next(s3, Enter(2));
    assert s4.buffer == [b] && s4.pending[1] == a;
    ReceivesLive(s4, 0);
    var s5 := Next(s4, Recv);
    assert s5.delivered == [b];
    EntersWhole(s5, a);
    var s6 := Next(s5, Enter(1));
    assert s6.buffer == [b, a];
    ReceivesNothing(s6);
  }
}
