/** The buffered mempool as interleaved steps: a submission takes its sequence number, reads the clock, later
    enters the buffer under the write lock, and later still notifies; a subscriber replays what was buffered
    when it subscribed, then scans the buffer and waits. */
module MempoolSteps {
  import opened Common

  datatype Entry = Entry(seqNo: nat, timestamp: nat, payload: nat)

  datatype Phase = Active | Scanned | Waiting

  /** The buffer and clock, the submissions between taking a number and entering, the notifications
      still to be sent, the subscriber, and a record of the run: everything that ever entered the
      buffer, how much of that has been trimmed, what was delivered, and the positions at
      subscription, at the last fruitless scan and at the last wait. */
  datatype State = State(
    window: nat, maxSize: nat,
    now: nat, counter: nat, pending: map<nat, Entry>, notices: nat, buffer: seq<Entry>,
    subscribed: bool, replay: seq<Entry>, replayIndex: nat, lastSeen: nat, phase: Phase,
    entered: seq<Entry>, trimmed: nat, delivered: seq<Entry>,
    start: nat, replayed: nat, scanMark: nat, waitMark: nat)

  datatype Step =
    | Tick(elapsed: nat)
    | TakeNumber(payload: nat)
    | Stamp(seqNo: nat)       // the clock is read after the number is taken
    | Enter(seqNo: nat)
    | Notify
    | Subscribe
    | Recv
    | Wait

  function Init(window: nat, maxSize: nat): State {
    State(window, maxSize, 0, 0, map[], 0, [], false, [], 0, 0, Active, [], 0, [], 0, 0, 0, 0)
  }

  // ----- buffer operations

  /** The entry is older than the window. */
  predicate Expired(e: Entry, now: nat, window: nat) {
    e.timestamp + window < now
  }

  /** How many entries at the front, from the i-th on, are older than the cutoff. */
  function OldCount(buffer: seq<Entry>, cutoff: nat, i: nat): (r: nat)
    requires i <= |buffer|
    ensures i <= r <= |buffer|
    ensures forall j :: i <= j < r ==> buffer[j].timestamp < cutoff
    ensures r < |buffer| ==> buffer[r].timestamp >= cutoff
    decreases |buffer| - i
  {
    if i == |buffer| || buffer[i].timestamp >= cutoff then i else OldCount(buffer, cutoff, i + 1)
  }

  /** How many entries a submission drops: the old ones at the front, and then the excess. */
  function DropCount(buffer: seq<Entry>, cutoff: nat, maxSize: nat): (r: nat)
    ensures r <= |buffer|
  {
    Max(OldCount(buffer, cutoff, 0), |buffer| - maxSize)
  }

  function Cutoff(now: nat, window: nat): nat {
    SaturatingSub(now, window)
  }

  /** The first entry, not stale, with a number above the last one seen. */
  function Scan(buffer: seq<Entry>, lastSeen: nat, cutoff: nat, i: nat): (r: Option<nat>)
    requires i <= |buffer|
    ensures r.Some? ==>
              && i <= r.value < |buffer|
              && buffer[r.value].timestamp >= cutoff && buffer[r.value].seqNo > lastSeen
    ensures forall j :: i <= j < (if r.Some? then r.value else |buffer|) ==>
              buffer[j].timestamp < cutoff || buffer[j].seqNo <= lastSeen
    decreases |buffer| - i
  {
    if i == |buffer| then None
    else if buffer[i].timestamp >= cutoff && buffer[i].seqNo > lastSeen then Some(i)
    else Scan(buffer, lastSeen, cutoff, i + 1)
  }

  // ----- steps

  function EnterStep(s: State, e: Entry): State {
    var longer := s.buffer + [e];
    var drop := DropCount(longer, Cutoff(s.now, s.window), s.maxSize);
    s.(buffer := longer[drop..], pending := s.pending - {e.seqNo}, notices := s.notices + 1,
       entered := s.entered + [e], trimmed := s.trimmed + drop)
  }

  function RecvStep(s: State): State {
    if s.replayIndex < |s.replay| then
      s.(replayIndex := s.replayIndex + 1, delivered := s.delivered + [s.replay[s.replayIndex]])
    else
      match Scan(s.buffer, s.lastSeen, Cutoff(s.now, s.window), 0)
      case Some(i) =>
        s.(lastSeen := s.buffer[i].seqNo, delivered := s.delivered + [s.buffer[i]])
      case None => s.(phase := Scanned, scanMark := |s.entered|)
  }

  /** A step that cannot be taken now leaves the state alone. */
  function Next(s: State, step: Step): State {
    match step
    case Tick(d) => s.(now := s.now + d)
    case TakeNumber(p) =>
      var n := s.counter + 1;
      s.(counter := n, pending := s.pending[n := Entry(n, s.now, p)])
    case Stamp(n) =>
      if n in s.pending then s.(pending := s.pending[n := s.pending[n].(timestamp := s.now)]) else s
    case Enter(n) => if n in s.pending then EnterStep(s, s.pending[n]) else s
    case Notify =>
      if s.notices == 0 then s
      else s.(notices := s.notices - 1, phase := if s.phase.Waiting? then Active else s.phase)
    case Subscribe =>
      if s.subscribed then s
      else s.(subscribed := true, replay := s.buffer,
              lastSeen := if s.buffer == [] then 0 else s.buffer[|s.buffer| - 1].seqNo,
              start := s.trimmed, replayed := |s.entered|)
    case Recv => if s.subscribed && s.phase.Active? then RecvStep(s) else s
    case Wait => if s.phase.Scanned? then s.(phase := Waiting, waitMark := |s.entered|) else s
  }

  function Run(window: nat, maxSize: nat, steps: seq<Step>, n: nat): State
    requires n <= |steps|
  {
    if n == 0 then Init(window, maxSize) else Next(Run(window, maxSize, steps, n - 1), steps[n - 1])
  }

  // ----- what every step keeps, in any order

  /** The buffer is the tail of what entered. */
  ghost predicate Buffered(s: State) {
    && s.trimmed + |s.buffer| == |s.entered|
    && (forall i :: 0 <= i < |s.buffer| ==> s.buffer[i] == s.entered[s.trimmed + i])
  }

  /** Numbers are handed out once, and each waits to enter under its own number. */
  ghost predicate Numbered(s: State) {
    && (forall n :: n in s.pending ==> 1 <= n <= s.counter && s.pending[n].seqNo == n)
    && (forall i :: 0 <= i < |s.entered| ==> 1 <= s.entered[i].seqNo <= s.counter)
  }

  /** No number enters twice. */
  ghost predicate Distinct(s: State) {
    && (forall i, j :: 0 <= i < j < |s.entered| ==> s.entered[i].seqNo != s.entered[j].seqNo)
    && (forall i :: 0 <= i < |s.entered| ==> s.entered[i].seqNo !in s.pending)
  }

  /** Once subscribed: what was replayed is the buffer at subscription, and the live deliveries rise
      strictly to the last number seen. */
  ghost predicate LiveRises(s: State) {
    && (!s.subscribed ==> s.delivered == [] && s.replay == [] && s.replayIndex == 0)
    && s.replayIndex <= |s.replay| && s.replayIndex <= |s.delivered|
    && (forall i :: 0 <= i < s.replayIndex ==> s.delivered[i] == s.replay[i])
    && (s.replayIndex < |s.replay| ==> |s.delivered| == s.replayIndex)
    && (forall i :: s.replayIndex <= i < |s.delivered| ==> s.delivered[i].seqNo <= s.lastSeen)
    && (forall i, j :: s.replayIndex <= i < j < |s.delivered| ==> s.delivered[i].seqNo < s.delivered[j].seqNo)
  }

  lemma NextBuffered(s: State, step: Step)
    requires Buffered(s)
    ensures Buffered(Next(s, step))
    ensures s.entered <= Next(s, step).entered && s.trimmed <= Next(s, step).trimmed && s.now <= Next(s, step).now
  {
    if step.Enter? && step.seqNo in s.pending {
      EnterBuffered(s, s.pending[step.seqNo]);
    }
  }

  lemma EnterBuffered(s: State, e: Entry)
    requires Buffered(s)
    ensures Buffered(EnterStep(s, e))
  {
    hide OldCount, DropCount;
    var longer := s.buffer + [e];
    var t := EnterStep(s, e);
    assert forall i :: 0 <= i < |longer| ==> longer[i] == t.entered[s.trimmed + i];
  }

  lemma NextNumbered(s: State, step: Step)
    requires Numbered(s)
    ensures Numbered(Next(s, step))
  {
  }

  lemma NextDistinct(s: State, step: Step)
    requires Numbered(s) && Distinct(s)
    ensures Distinct(Next(s, step))
  {
    hide DropCount, Scan;
  }

  lemma NextRises(s: State, step: Step)
    requires LiveRises(s)
    ensures LiveRises(Next(s, step))
  {
  }

  // ----- waiting

  predicate Undelivered(s: State, i: nat)
    requires i < |s.buffer|
  {
    !Expired(s.buffer[i], s.now, s.window) && s.buffer[i].seqNo > s.lastSeen
  }

  /** What a subscriber that found nothing could now find entered after it looked; what entered after
      it began to wait still has a notification to come. */
  ghost predicate Watchful(s: State) {
    && s.scanMark <= |s.entered| && s.waitMark <= |s.entered|
    && (!s.phase.Active? ==>
          forall i :: 0 <= i < |s.buffer| && Undelivered(s, i) ==> s.scanMark <= s.trimmed + i)
    && (s.phase.Waiting? ==> |s.entered| - s.waitMark <= s.notices)
    && (!s.phase.Active? ==> s.subscribed)
  }

  lemma EnterWatchful(s: State, e: Entry)
    requires Watchful(s) && Buffered(s) && Buffered(EnterStep(s, e))
    ensures Watchful(EnterStep(s, e))
  {
    var t := EnterStep(s, e);
    if !s.phase.Active? {
      forall i | 0 <= i < |t.buffer| && Undelivered(t, i) ensures t.scanMark <= t.trimmed + i {
        var p := t.trimmed + i;
        assert t.buffer[i] == t.entered[p];
        if p < |s.entered| {
          assert s.trimmed <= t.trimmed;
          assert s.buffer[p - s.trimmed] == s.entered[p] == t.entered[p];
          assert Undelivered(s, p - s.trimmed);
        }
      }
    }
  }

  lemma NextWatchful(s: State, step: Step)
    requires Watchful(s) && Buffered(s)
    ensures Watchful(Next(s, step))
  {
    NextBuffered(s, step);
    if step.Enter? && step.seqNo in s.pending {
      EnterWatchful(s, s.pending[step.seqNo]);
    } else if step.Tick? {
      var t := Next(s, step);
      assert forall i :: 0 <= i < |s.buffer| && Undelivered(t, i) ==> Undelivered(s, i);
    } else if !step.Recv? {
      var t := Next(s, step);
      assert !t.phase.Active? ==> forall i :: 0 <= i < |s.buffer| ==> Undelivered(t, i) == Undelivered(s, i);
    }
  }

  /** What every step keeps, in any order of steps. */
  ghost predicate Regular(s: State) {
    Buffered(s) && Numbered(s) && Distinct(s) && LiveRises(s) && Watchful(s)
  }

  lemma NextRegular(s: State, step: Step)
    requires Regular(s)
    ensures Regular(Next(s, step))
  {
    hide Buffered, Numbered, Distinct, LiveRises, Watchful, Next;
    NextBuffered(s, step);
    NextNumbered(s, step);
    NextDistinct(s, step);
    NextRises(s, step);
    NextWatchful(s, step);
  }

  // ----- submissions that enter in the order of their numbers

  ghost predicate InOrder(s: State) {
    forall i :: 0 <= i < |s.entered| ==> s.entered[i].seqNo == i + 1
  }

  /** Everything before this position of what entered has been passed by the subscriber. */
  function Reached(s: State): nat {
    if s.lastSeen == 0 then s.start else s.lastSeen
  }

  /** An entry at this position can no longer be delivered: trimmed or expired. */
  predicate Lost(s: State, j: nat)
    requires j < |s.entered|
  {
    j < s.trimmed || Expired(s.entered[j], s.now, s.window)
  }

  ghost predicate Seam(s: State) {
    && s.start <= s.replayed <= Reached(s) <= |s.entered|
    && s.start <= s.trimmed
    && |s.replay| == s.replayed - s.start
    && (forall i :: 0 <= i < |s.replay| ==> s.replay[i] == s.entered[s.start + i])
    && (s.replayIndex < |s.replay| ==> Reached(s) == s.replayed)
  }

  /** Live deliveries come from positions after the replay. */
  ghost predicate LiveAfterReplay(s: State) {
    forall i :: s.replayIndex <= i < |s.delivered| ==>
      && s.replayed < s.delivered[i].seqNo <= Reached(s)
      && s.delivered[i].seqNo <= |s.entered|
      && s.delivered[i] == s.entered[s.delivered[i].seqNo - 1]
  }

  /** Whatever was passed without being delivered is lost. */
  ghost predicate PassedOrLost(s: State) {
    Reached(s) <= |s.entered| &&
    forall j :: s.replayed <= j < Reached(s) ==> s.entered[j] in s.delivered || Lost(s, j)
  }

  /** What the subscriber was given so far: first the replay, then live entries from later positions,
      and whatever it passed without delivering is lost. */
  ghost predicate Caught(s: State) {
    Seam(s) && LiveAfterReplay(s) && PassedOrLost(s)
  }

  /** An entry delivered from a scan is the next one that is not lost. */
  lemma DeliverCaught(s: State, i: nat)
    requires Buffered(s) && InOrder(s) && Caught(s) && LiveRises(s) && s.subscribed
    requires s.replayIndex == |s.replay| && Scan(s.buffer, s.lastSeen, Cutoff(s.now, s.window), 0) == Some(i)
    ensures Caught(s.(lastSeen := s.buffer[i].seqNo, delivered := s.delivered + [s.buffer[i]]))
  {
    hide Scan, LiveAfterReplay, PassedOrLost;
    DeliverLive(s, i);
    DeliverPasses(s, i);
    assert s.buffer[i] == s.entered[s.trimmed + i];
  }

  lemma DeliverLive(s: State, i: nat)
    requires Buffered(s) && InOrder(s) && Seam(s) && LiveAfterReplay(s)
    requires Scan(s.buffer, s.lastSeen, Cutoff(s.now, s.window), 0) == Some(i)
    ensures LiveAfterReplay(s.(lastSeen := s.buffer[i].seqNo, delivered := s.delivered + [s.buffer[i]]))
  {
    hide Scan;
    assert s.buffer[i] == s.entered[s.trimmed + i];
  }

  lemma DeliverPasses(s: State, i: nat)
    requires Buffered(s) && InOrder(s) && Seam(s) && PassedOrLost(s)
    requires Scan(s.buffer, s.lastSeen, Cutoff(s.now, s.window), 0) == Some(i)
    ensures PassedOrLost(s.(lastSeen := s.buffer[i].seqNo, delivered := s.delivered + [s.buffer[i]]))
  {
    hide Scan;
    var t := s.(lastSeen := s.buffer[i].seqNo, delivered := s.delivered + [s.buffer[i]]);
    assert s.buffer[i] == s.entered[s.trimmed + i];
    forall j | t.replayed <= j < Reached(t) ensures t.entered[j] in t.delivered || Lost(t, j) {
      PassedInScan(s, i, j);
    }
  }

  /** Every position up to the one found by the scan was delivered before, is it, or is lost. */
  lemma PassedInScan(s: State, i: nat, j: nat)
    requires Buffered(s) && InOrder(s) && Seam(s) && PassedOrLost(s)
    requires Scan(s.buffer, s.lastSeen, Cutoff(s.now, s.window), 0) == Some(i)
    requires s.replayed <= j < s.buffer[i].seqNo
    ensures j < |s.entered| && (s.entered[j] in s.delivered + [s.buffer[i]] || Lost(s, j))
  {
    assert s.buffer[i] == s.entered[s.trimmed + i];
    if j == s.trimmed + i {
      assert (s.delivered + [s.buffer[i]])[|s.delivered|] == s.entered[j];
    } else if j < Reached(s) {
      assert s.entered[j] in s.delivered || Lost(s, j);
    } else if j >= s.trimmed {
      assert s.buffer[j - s.trimmed] == s.entered[j];
    }
  }

  lemma ReplayCaught(s: State)
    requires Caught(s) && LiveRises(s) && s.replayIndex < |s.replay|
    ensures Caught(RecvStep(s))
  {
    assert |s.delivered| == s.replayIndex;
  }

  lemma SubscribeCaught(s: State)
    requires Buffered(s) && InOrder(s) && LiveRises(s) && !s.subscribed
    ensures Caught(Next(s, Subscribe))
  {
  }

  /** Trimming and the clock only move forward, so what was lost stays lost. */
  lemma LaterCaught(s: State, t: State)
    requires Caught(s) && s.entered <= t.entered && s.trimmed <= t.trimmed <= |t.entered| && s.now <= t.now
    requires t == s.(now := t.now, counter := t.counter, pending := t.pending, notices := t.notices, buffer := t.buffer,
                     phase := t.phase, entered := t.entered, trimmed := t.trimmed,
                     scanMark := t.scanMark, waitMark := t.waitMark)
    ensures Caught(t)
  {
    forall j | t.replayed <= j < Reached(t) ensures t.entered[j] in t.delivered || Lost(t, j) {
      assert s.entered[j] in s.delivered || Lost(s, j);
      assert s.entered[j] == t.entered[j];
    }
  }
}

/** What holds over every run of the mempool with one subscriber. */
module MempoolRuns {
  import opened Common
  import opened MempoolSteps

  lemma {:induction false} RunKeeps(window: nat, maxSize: nat, steps: seq<Step>, n: nat)
    requires n <= |steps|
    ensures Regular(Run(window, maxSize, steps, n))
  {
    hide Regular, Next;
    if n > 0 {
      RunKeeps(window, maxSize, steps, n - 1);
      NextRegular(Run(window, maxSize, steps, n - 1), steps[n - 1]);
    } else {
      Initially(window, maxSize);
    }
  }

  lemma Initially(window: nat, maxSize: nat)
    ensures Regular(Init(window, maxSize))
  {
  }

  /** Live deliveries strictly increase in sequence number, under any interleaving. */
  lemma LiveDeliveriesRise(window: nat, maxSize: nat, steps: seq<Step>, n: nat, i: nat, j: nat)
    requires n <= |steps|
    requires
      var s := Run(window, maxSize, steps, n);
      s.replayIndex <= i < j < |s.delivered|
    ensures
      var s := Run(window, maxSize, steps, n);
      s.delivered[i].seqNo < s.delivered[j].seqNo
  {
    RunKeeps(window, maxSize, steps, n);
  }

  // ----- in order

  lemma NextCaught(s: State, step: Step)
    requires Buffered(s) && LiveRises(s) && InOrder(s) && InOrder(Next(s, step))
    requires s.subscribed ==> Caught(s)
    ensures Next(s, step).subscribed ==> Caught(Next(s, step))
  {
    hide Buffered, LiveRises, InOrder, Caught;
    NextBuffered(s, step);
    var t := Next(s, step);
    if step.Subscribe? && !s.subscribed {
      SubscribeCaught(s);
    } else if s.subscribed && step.Recv? && s.phase.Active? && s.replayIndex < |s.replay| {
      ReplayCaught(s);
    } else if s.subscribed && step.Recv? && s.phase.Active?
              && Scan(s.buffer, s.lastSeen, Cutoff(s.now, s.window), 0).Some? {
      ReplayDone(s);
      DeliverCaught(s, Scan(s.buffer, s.lastSeen, Cutoff(s.now, s.window), 0).value);
    } else if s.subscribed {
      TrimmedWithin(t);
      LaterCaught(s, t);
    }
  }

  lemma ReplayDone(s: State)
    requires LiveRises(s) && !(s.replayIndex < |s.replay|)
    ensures s.replayIndex == |s.replay|
  {
  }

  lemma TrimmedWithin(s: State)
    requires Buffered(s)
    ensures s.trimmed <= |s.entered|
  {
  }

  lemma InOrderBefore(s: State, t: State)
    requires InOrder(t) && s.entered <= t.entered
    ensures InOrder(s)
  {
  }

  lemma {:induction false} RunCaught(window: nat, maxSize: nat, steps: seq<Step>, n: nat)
    requires n <= |steps| && InOrder(Run(window, maxSize, steps, n))
    ensures var s := Run(window, maxSize, steps, n); s.subscribed ==> Caught(s)
  {
    hide Buffered, Numbered, LiveRises, Watchful, Caught, InOrder, Next;
    if n > 0 {
      var s := Run(window, maxSize, steps, n - 1);
      RunKeeps(window, maxSize, steps, n - 1);
      NextBuffered(s, steps[n - 1]);
      InOrderBefore(s, Run(window, maxSize, steps, n));
      RunCaught(window, maxSize, steps, n - 1);
      NextCaught(s, steps[n - 1]);
    }
  }

  /** Exactly once, in order: if submissions entered the buffer in the order of their numbers, the
      deliveries, replayed and live together, strictly increase in number and are entries as they
      were submitted. */
  lemma DeliveredInOrder(window: nat, maxSize: nat, steps: seq<Step>, n: nat)
    requires n <= |steps| && InOrder(Run(window, maxSize, steps, n))
    ensures
      var s := Run(window, maxSize, steps, n);
      && (forall i, j :: 0 <= i < j < |s.delivered| ==> s.delivered[i].seqNo < s.delivered[j].seqNo)
      && (forall i :: 0 <= i < |s.delivered| ==>
            1 <= s.delivered[i].seqNo <= |s.entered| && s.delivered[i] == s.entered[s.delivered[i].seqNo - 1])
  {
    hide Watchful, Run, Next, Caught, LiveRises, InOrder, Buffered, Numbered;
    RunKeeps(window, maxSize, steps, n);
    RunCaught(window, maxSize, steps, n);
    DeliveriesFrom(Run(window, maxSize, steps, n));
  }

  lemma DeliveriesFrom(s: State)
    requires InOrder(s) && LiveRises(s) && (s.subscribed ==> Caught(s))
    ensures
      && (forall i, j :: 0 <= i < j < |s.delivered| ==> s.delivered[i].seqNo < s.delivered[j].seqNo)
      && (forall i :: 0 <= i < |s.delivered| ==>
            1 <= s.delivered[i].seqNo <= |s.entered| && s.delivered[i] == s.entered[s.delivered[i].seqNo - 1])
  {
    hide PassedOrLost;
    if s.subscribed {
      forall i | 0 <= i < |s.delivered|
        ensures s.start < s.delivered[i].seqNo <= |s.entered| && s.delivered[i] == s.entered[s.delivered[i].seqNo - 1]
        ensures i < s.replayIndex ==> s.delivered[i].seqNo == s.start + i + 1
      {
        if i < s.replayIndex {
          assert s.delivered[i] == s.replay[i] == s.entered[s.start + i];
        }
      }
    }
  }

  /** No gap: among the entries buffered at subscription or later, every one up to the last delivered
      was delivered, unless it has been trimmed or has expired. */
  lemma NoGap(window: nat, maxSize: nat, steps: seq<Step>, n: nat, j: nat)
    requires n <= |steps| && InOrder(Run(window, maxSize, steps, n))
    requires
      var s := Run(window, maxSize, steps, n);
      s.subscribed && s.delivered != [] && s.start <= j < s.delivered[|s.delivered| - 1].seqNo
    ensures
      var s := Run(window, maxSize, steps, n);
      j < |s.entered| && (s.entered[j] in s.delivered || Lost(s, j))
  {
    hide Watchful, Run, Next, Caught, LiveRises, InOrder, Buffered, Numbered;
    RunKeeps(window, maxSize, steps, n);
    RunCaught(window, maxSize, steps, n);
    DeliveredOrLost(Run(window, maxSize, steps, n), j);
  }

  lemma DeliveredOrLost(s: State, j: nat)
    requires InOrder(s) && LiveRises(s) && Caught(s) && s.subscribed
    requires s.delivered != [] && s.start <= j < s.delivered[|s.delivered| - 1].seqNo
    ensures j < |s.entered| && (s.entered[j] in s.delivered || Lost(s, j))
  {
    hide Lost;
    var last := |s.delivered| - 1;
    if last < s.replayIndex {
      assert s.delivered[last] == s.replay[last] == s.entered[s.start + last];
    }
    if j < s.replayed {
      var i := j - s.start;
      assert i < s.replayIndex;
      assert s.delivered[i] == s.replay[i] == s.entered[j];
    }
  }

  // ----- out of order

  /** Entering out of order can deliver an entry twice: number 2 is replayed, and since the last
      replayed entry is number 1, scanned again. */
  lemma DuplicateOutOfOrder(window: nat, maxSize: nat)
    requires maxSize >= 2
    ensures
      var s1 := Next(Init(window, maxSize), TakeNumber(10));
      var s2 := Next(s1, TakeNumber(20));
      var s3 := Next(s2, Enter(2));
      var s4 := Next(s3, Enter(1));
      var s5 := Next(s4, Subscribe);
      var s6 := Next(s5, Recv);
      var s7 := Next(s6, Recv);
      var s8 := Next(s7, Recv);
      s8.delivered == [Entry(2, 0, 20), Entry(1, 0, 10), Entry(2, 0, 20)]
  {
    hide EnterStep, RecvStep;
    var a, b := Entry(1, 0, 10), Entry(2, 0, 20);
    var s2 := TwoTaken(window, maxSize);
    EntersWhole(s2, b);
    var s3 := Next(s2, Enter(2));
    assert s3.buffer == [b] && s3.pending[1] == a;
    EntersWhole(s3, a);
    var s4 := Next(s3, Enter(1));
    assert s4.buffer == [b, a];
    var s5 := Next(s4, Subscribe);
    ReceivesReplayed(s5);
    var s6 := Next(s5, Recv);
    ReceivesReplayed(s6);
    var s7 := Next(s6, Recv);
    assert s7.delivered == [b, a];
    ReceivesLive(s7, 0);
  }

  /** Numbers 1 and 2 are taken. */
  lemma TwoTaken(window: nat, maxSize: nat) returns (s: State)
    ensures s == Next(Next(Init(window, maxSize), TakeNumber(10)), TakeNumber(20))
    ensures s == Init(window, maxSize).(counter := 2, pending := map[1 := Entry(1, 0, 10), 2 := Entry(2, 0, 20)])
  {
    s := Next(Next(Init(window, maxSize), TakeNumber(10)), TakeNumber(20));
  }

  /** With room in the buffer and the clock at zero, entering only appends. */
  lemma EntersWhole(s: State, e: Entry)
    requires |s.buffer| < s.maxSize && s.now == 0
    ensures EnterStep(s, e) == s.(buffer := s.buffer + [e], pending := s.pending - {e.seqNo}, notices := s.notices + 1,
                                  entered := s.entered + [e])
  {
    var longer := s.buffer + [e];
    assert OldCount(longer, 0, 0) == 0;
    assert longer[0..] == longer;
  }

  lemma ReceivesReplayed(s: State)
    requires s.replayIndex < |s.replay|
    ensures RecvStep(s) == s.(replayIndex := s.replayIndex + 1, delivered := s.delivered + [s.replay[s.replayIndex]])
  {
  }

  /** With the clock at zero, the first entry with a number above the last one seen is delivered. */
  lemma ReceivesLive(s: State, i: nat)
    requires s.replayIndex >= |s.replay| && s.now == 0 && i < |s.buffer| && s.buffer[i].seqNo > s.lastSeen
    requires forall j :: 0 <= j < i ==> s.buffer[j].seqNo <= s.lastSeen
    ensures RecvStep(s) == s.(lastSeen := s.buffer[i].seqNo, delivered := s.delivered + [s.buffer[i]])
  {
    hide Scan;
  }

  lemma ReceivesNothing(s: State)
    requires s.replayIndex >= |s.replay| && forall j :: 0 <= j < |s.buffer| ==> s.buffer[j].seqNo <= s.lastSeen
    ensures RecvStep(s) == s.(phase := Scanned, scanMark := |s.entered|)
  {
    hide Scan;
  }

  // ----- wakeups

  /** A waiting subscriber to whom no notification is on its way has an entry to receive if and only if one
      that can still be delivered and has a number above the last one seen came in between its last look at
      the buffer and the start of its wait. */
  lemma MissedExactly(window: nat, maxSize: nat, steps: seq<Step>, n: nat)
    requires n <= |steps|
    requires var s := Run(window, maxSize, steps, n); s.phase.Waiting? && s.notices == 0
    ensures
      var s := Run(window, maxSize, steps, n);
      (exists i :: 0 <= i < |s.buffer| && Undelivered(s, i)) <==>
      exists p :: s.scanMark <= p < s.waitMark && p < |s.entered| && !Lost(s, p) && s.entered[p].seqNo > s.lastSeen
  {
    hide Run, Numbered, Distinct, LiveRises;
    RunKeeps(window, maxSize, steps, n);
    MissedBetween(Run(window, maxSize, steps, n));
  }

  lemma MissedBetween(s: State)
    requires Buffered(s) && Watchful(s) && s.phase.Waiting? && s.notices == 0
    ensures (exists i :: 0 <= i < |s.buffer| && Undelivered(s, i)) <==>
            exists p :: s.scanMark <= p < s.waitMark && p < |s.entered| && !Lost(s, p)
                        && s.entered[p].seqNo > s.lastSeen
  {
    if i :| 0 <= i < |s.buffer| && Undelivered(s, i) {
      assert !Lost(s, s.trimmed + i);
    }
    if p :| s.scanMark <= p < s.waitMark && p < |s.entered| && !Lost(s, p) && s.entered[p].seqNo > s.lastSeen {
      assert Undelivered(s, p - s.trimmed);
    }
  }

  /** Such an entry can exist: it enters and its notification is sent between the look and the wait. */
  lemma WakeupCanBeMissed(window: nat, maxSize: nat)
    requires maxSize >= 1
    ensures
      var s1 := Next(Init(window, maxSize), Subscribe);
      var s2 := Next(s1, Recv);
      var s3 := Next(s2, TakeNumber(7));
      var s4 := Next(s3, Enter(1));
      var s5 := Next(s4, Notify);
      var s6 := Next(s5, Wait);
      s6.phase.Waiting? && s6.notices == 0 && s6.buffer == [Entry(1, 0, 7)] && Undelivered(s6, 0)
  {
    hide EnterStep, RecvStep;
    var e := Entry(1, 0, 7);
    var s1 := Next(Init(window, maxSize), Subscribe);
    ReceivesNothing(s1);
    var s2 := Next(s1, Recv);
    var s3 := Next(s2, TakeNumber(7));
    assert s3.pending[1] == e;
    EntersWhole(s3, e);
    var s4 := Next(s3, Enter(1));
    assert s4.buffer == [e] && s4.notices == 1 && s4.phase == Scanned;
  }
}

/** The mempool and its subscriber as objects whose operations run without interference. */
module Mempool {
  import opened Common
  import opened MempoolSteps

  /** It and all before it are older than the window. */
  ghost predicate AllExpired(buffer: seq<Entry>, i: nat, now: nat, window: nat)
    requires i < |buffer|
  {
    forall j :: 0 <= j <= i ==> Expired(buffer[j], now, window)
  }

  /** left is what is left of the buffer: entries leave from the front only, and one leaves exactly if it and all
      before it are older than the window, or at least maxSize entries follow it. */
  ghost predicate TrimmedFrom(buffer: seq<Entry>, left: seq<Entry>, now: nat, window: nat, maxSize: nat) {
    && |left| <= |buffer| && left == buffer[|buffer| - |left|..]
    && forall i :: 0 <= i < |buffer| ==>
         (i < |buffer| - |left| <==> AllExpired(buffer, i, now, window) || |buffer| - 1 - i >= maxSize)
  }

  lemma DropExactly(buffer: seq<Entry>, now: nat, window: nat, maxSize: nat)
    ensures TrimmedFrom(buffer, buffer[DropCount(buffer, Cutoff(now, window), maxSize)..], now, window, maxSize)
  {
    hide OldCount;
    var stale := OldCount(buffer, Cutoff(now, window), 0);
    assert stale < |buffer| ==> !Expired(buffer[stale], now, window);
  }

  /** The i-th entry is the first that is not older than the window and not seen yet. */
  ghost predicate FirstUnseen(buffer: seq<Entry>, lastSeen: nat, now: nat, window: nat, i: nat) {
    && i < |buffer| && !Expired(buffer[i], now, window) && buffer[i].seqNo > lastSeen
    && forall j :: 0 <= j < i ==> Expired(buffer[j], now, window) || buffer[j].seqNo <= lastSeen
  }

  class BufferedMempool {
    const window: nat
    const maxSize: nat
    var buffer: seq<Entry>
    var sequence: nat

    constructor (window: nat, maxSize: nat)
      ensures this.window == window && this.maxSize == maxSize && buffer == [] && sequence == 0
    {
      this.window, this.maxSize, buffer, sequence := window, maxSize, [], 0;
    }

    /** Appends the entry, then trims by age and by size from the front. */
    method Submit(payload: nat, timestamp: nat, now: nat)
      modifies this
      ensures sequence == old(sequence) + 1
      ensures
        var longer := old(buffer) + [Entry(sequence, timestamp, payload)];
        && buffer == longer[DropCount(longer, Cutoff(now, window), maxSize)..]
        && TrimmedFrom(longer, buffer, now, window, maxSize)
      ensures |buffer| <= maxSize
    {
      hide OldCount;
      sequence := sequence + 1;
      buffer := buffer + [Entry(sequence, timestamp, payload)];
      ghost var longer := buffer;
      TrimOld(SaturatingSub(now, window));
      TrimExcess();
      DropSplits(longer, Cutoff(now, window), maxSize);
      DropExactly(longer, now, window, maxSize);
    }

    /** Pops the front entry while it is older than the cutoff. */
    method TrimOld(cutoff: nat)
      modifies this`buffer
      ensures buffer == old(buffer)[OldCount(old(buffer), cutoff, 0)..]
    {
      ghost var k := 0;
      while buffer != [] && buffer[0].timestamp < cutoff
        invariant k <= |old(buffer)| && buffer == old(buffer)[k..]
        invariant OldCount(old(buffer), cutoff, k) == OldCount(old(buffer), cutoff, 0)
        decreases |buffer|
      {
        buffer := buffer[1..];
        k := k + 1;
      }
    }

    /** Pops the front entry while there are too many. */
    method TrimExcess()
      modifies this`buffer
      ensures buffer == old(buffer)[Max(0, |old(buffer)| - maxSize)..]
    {
      ghost var k := 0;
      while |buffer| > maxSize
        invariant 0 <= k <= Max(0, |old(buffer)| - maxSize) && buffer == old(buffer)[k..]
        decreases |buffer|
      {
        buffer := buffer[1..];
        k := k + 1;
      }
    }

    method Subscribe() returns (s: Subscriber)
      ensures fresh(s) && s.replay == buffer && s.replayIndex == 0
      ensures s.lastSeen == if buffer == [] then 0 else buffer[|buffer| - 1].seqNo
    {
      s := new Subscriber(buffer, if buffer == [] then 0 else buffer[|buffer| - 1].seqNo);
    }
  }

  /** Dropping the old entries and then the excess is dropping that many in one. */
  lemma DropSplits(buffer: seq<Entry>, cutoff: nat, maxSize: nat)
    ensures
      var fresher := buffer[OldCount(buffer, cutoff, 0)..];
      fresher[Max(0, |fresher| - maxSize)..] == buffer[DropCount(buffer, cutoff, maxSize)..]
  {
    hide OldCount;
  }

  class Subscriber {
    var replay: seq<Entry>
    var replayIndex: nat
    var lastSeen: nat

    constructor (replay: seq<Entry>, lastSeen: nat)
      ensures this.replay == replay && replayIndex == 0 && this.lastSeen == lastSeen
    {
      this.replay, replayIndex, this.lastSeen := replay, 0, lastSeen;
    }

    /** One attempt to receive: the next replayed entry, or else the first buffered one that is not
        stale and not yet seen; nothing if the caller has to wait. */
    method TryRecv(buffer: seq<Entry>, now: nat, window: nat) returns (r: Option<Entry>)
      modifies this
      ensures old(replayIndex) < |old(replay)| ==>
                r == Some(old(replay)[old(replayIndex)]) && replayIndex == old(replayIndex) + 1
                && replay == old(replay) && lastSeen == old(lastSeen)
      ensures old(replayIndex) >= |old(replay)| ==>
                var found := Scan(buffer, old(lastSeen), Cutoff(now, window), 0);
                && r == (if found.Some? then Some(buffer[found.value]) else None)
                && lastSeen == (if found.Some? then buffer[found.value].seqNo else old(lastSeen))
                && replay == [] && replayIndex == old(replayIndex)
      ensures old(replayIndex) >= |old(replay)| && r.Some? ==>
                exists i: nat :: FirstUnseen(buffer, old(lastSeen), now, window, i) && r.value == buffer[i]
                            && lastSeen == buffer[i].seqNo
      ensures old(replayIndex) >= |old(replay)| && r.None? ==>
                forall i :: 0 <= i < |buffer| ==> Expired(buffer[i], now, window) || buffer[i].seqNo <= old(lastSeen)
    {
      if replayIndex < |replay| {
        r := Some(replay[replayIndex]);
        replayIndex := replayIndex + 1;
        return;
      }
      replay := [];
      var cutoff := SaturatingSub(now, window);
      for i := 0 to |buffer|
        invariant Scan(buffer, lastSeen, cutoff, i) == Scan(buffer, lastSeen, cutoff, 0)
        invariant lastSeen == old(lastSeen) && replay == [] && replayIndex == old(replayIndex)
      {
        if buffer[i].timestamp < cutoff {
          continue;
        }
        if buffer[i].seqNo > lastSeen {
          lastSeen := buffer[i].seqNo;
          assert FirstUnseen(buffer, old(lastSeen), now, window, i);
          return Some(buffer[i]);
        }
      }
      return None;
    }
  }
}
