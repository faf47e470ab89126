/** The lossy event channel at the grain of its atomic sections: each lock scope, atomic load or
    store and waker operation is one step, and the steps of any number of senders and the one
    receiver interleave freely. */
module LossySteps {
  import opened Common

  type Item = nat
  type Sender = nat

  /** What a sender has done and still has to do. */
  datatype SenderAt =
    | Admitted(item: Item)   // saw the channel open, has not queued the item
    | Queued                 // queued the item, has not woken the receiver
    | Closing                // closed the channel, has not woken the receiver

  /** Where the receiver is in `poll_recv`. */
  datatype ReceiverAt =
    | Resting
    | SawEmpty               // first pop found nothing
    | SawOpen                // first load found the channel open
    | Registered             // waker registered
    | SawEmptyAgain          // second pop found nothing
    | Parked                 // answered pending
    | Got(item: Item)        // answered an item
    | Ended                  // answered end of stream

  datatype Fate = Received | Dropped

  /** The shared state, the two sides' positions, and a record of the run: everything ever queued,
      what became of the items that left the queue, and how many had been queued when the receiver
      last found the queue empty. */
  datatype State = State(
    capacity: nat, queue: seq<Item>, closed: bool, waker: bool, woken: bool,
    senders: map<Sender, SenderAt>, receiver: ReceiverAt,
    pushed: seq<Item>, fates: seq<Fate>, mark: nat)

  datatype Step =
    | Admit(sender: Sender, item: Item)
    | Enqueue(sender: Sender)
    | StoreClosed(sender: Sender)
    | Wake(sender: Sender)
    | Poll

  function Init(capacity: nat): State {
    State(capacity, [], false, false, false, map[], Resting, [], [], 0)
  }

  // ----- atomic sections

  function Enqueued(queue: seq<Item>, capacity: nat, item: Item): seq<Item> {
    (if |queue| == capacity && queue != [] then queue[1..] else queue) + [item]
  }

  function PopInto(s: State, empty: ReceiverAt): State {
    if s.queue == [] then s.(receiver := empty, mark := |s.pushed|)
    else s.(queue := s.queue[1..], receiver := Got(s.queue[0]), fates := s.fates + [Received])
  }

  /** The next step of the receiver; from any answer it starts a new poll. */
  function PollStep(s: State): State {
    match s.receiver
    case SawEmpty => s.(receiver := if s.closed then Ended else SawOpen)
    case SawOpen => s.(receiver := Registered, waker := true)
    case Registered => PopInto(s, SawEmptyAgain)
    case SawEmptyAgain => s.(receiver := if s.closed then Ended else Parked)
    case _ => PopInto(s.(woken := false), SawEmpty)
  }

  predicate Owes(at: SenderAt) {
    at.Queued? || at.Closing?
  }

  /** A step that its process cannot take now leaves the state alone. */
  function Next(s: State, step: Step): State {
    match step
    case Admit(k, item) =>
      if k in s.senders || s.closed then s else s.(senders := s.senders[k := Admitted(item)])
    case Enqueue(k) =>
      if k in s.senders && s.senders[k].Admitted? then
        var full := |s.queue| == s.capacity && s.queue != [];
        s.(queue := Enqueued(s.queue, s.capacity, s.senders[k].item),
           senders := s.senders[k := Queued],
           pushed := s.pushed + [s.senders[k].item],
           fates := if full then s.fates + [Dropped] else s.fates)
      else s
    case StoreClosed(k) =>
      if k in s.senders then s else s.(closed := true, senders := s.senders[k := Closing])
    case Wake(k) =>
      if k in s.senders && Owes(s.senders[k])
      then s.(senders := s.senders - {k}, waker := false, woken := s.woken || s.waker)
      else s
    case Poll => PollStep(s)
  }

  /** The state after the first n steps of a run. */
  function Run(capacity: nat, steps: seq<Step>, n: nat): State
    requires n <= |steps|
  {
    if n == 0 then Init(capacity) else Next(Run(capacity, steps, n - 1), steps[n - 1])
  }

  // ----- what every step keeps

  /** The items that met this fate, in the order they were queued. */
  function Selected(items: seq<Item>, fates: seq<Fate>, fate: Fate, n: nat): seq<Item>
    requires n <= |items| && n <= |fates|
  {
    if n == 0 then []
    else Selected(items, fates, fate, n - 1) + (if fates[n - 1] == fate then [items[n - 1]] else [])
  }

  /** The queue is the tail of what was queued, after the items whose fate is decided. */
  ghost predicate Conserved(s: State) {
    && |s.fates| + |s.queue| == |s.pushed|
    && (forall i :: 0 <= i < |s.queue| ==> s.queue[i] == s.pushed[|s.fates| + i])
    && (s.capacity >= 1 ==> |s.queue| <= s.capacity)
  }

  ghost predicate NoneOwes(s: State) {
    forall k :: k in s.senders ==> !Owes(s.senders[k])
  }

  /** While a registered waker has not been used, whatever the receiver missed is owed a wake. */
  ghost predicate Attentive(s: State) {
    && ((s.receiver.Registered? || s.receiver.SawEmptyAgain? || s.receiver.Parked?) && !s.woken ==> s.waker)
    && ((s.receiver.SawEmptyAgain? || s.receiver.Parked?) && s.waker && s.queue != [] ==> !NoneOwes(s))
    && (s.receiver.Parked? && s.waker && s.closed ==> !NoneOwes(s))
  }

  predicate FoundEmpty(r: ReceiverAt) {
    r.SawEmpty? || r.SawOpen? || r.Registered? || r.SawEmptyAgain? || r.Parked? || r.Ended?
  }

  /** Since the receiver last found the queue empty, only pushes have changed it. */
  ghost predicate Marked(s: State) {
    && s.mark <= |s.pushed|
    && (FoundEmpty(s.receiver) ==> (s.queue == [] <==> |s.pushed| == s.mark))
    && (s.receiver.Ended? ==> s.closed)
  }

  lemma NextConserves(s: State, step: Step)
    requires Conserved(s)
    ensures Conserved(Next(s, step)) && Next(s, step).capacity == s.capacity
  {
    hide Conserved, PollStep, Enqueued;
    if step.Enqueue? && step.sender in s.senders && s.senders[step.sender].Admitted? {
      EnqueueConserves(s, step.sender);
    } else if step.Poll? {
      PollConserves(s);
    } else {
      SameQueueConserves(s, Next(s, step));
    }
  }

  lemma PollConserves(s: State)
    requires Conserved(s)
    ensures Conserved(PollStep(s)) && PollStep(s).capacity == s.capacity
  {
    hide Conserved, PopInto;
    if s.receiver.Registered? {
      PopConserves(s, SawEmptyAgain);
    } else if s.receiver.SawEmpty? || s.receiver.SawOpen? || s.receiver.SawEmptyAgain? {
      SameQueueConserves(s, PollStep(s));
    } else {
      SameQueueConserves(s, s.(woken := false));
      PopConserves(s.(woken := false), SawEmpty);
    }
  }

  lemma SameQueueConserves(s: State, t: State)
    requires Conserved(s) && t.capacity == s.capacity
    requires t.queue == s.queue && t.pushed == s.pushed && t.fates == s.fates
    ensures Conserved(t)
  {
  }

  lemma EnqueueConserves(s: State, k: Sender)
    requires Conserved(s) && k in s.senders && s.senders[k].Admitted?
    ensures Conserved(Next(s, Enqueue(k)))
  {
    var t := Next(s, Enqueue(k));
    forall i | 0 <= i < |t.queue| ensures t.queue[i] == t.pushed[|t.fates| + i] {
    }
  }

  lemma PopConserves(s: State, empty: ReceiverAt)
    requires Conserved(s)
    ensures Conserved(PopInto(s, empty)) && PopInto(s, empty).capacity == s.capacity
  {
    var t := PopInto(s, empty);
    forall i | 0 <= i < |t.queue| ensures t.queue[i] == t.pushed[|t.fates| + i] {
    }
  }

  lemma NextAttends(s: State, step: Step)
    requires Attentive(s)
    ensures Attentive(Next(s, step))
  {
    match step
    case Admit(k, item) =>
      if k !in s.senders {
        KeepsOwing(s, k, Admitted(item));
      }
    case Enqueue(k) =>
      if k in s.senders && s.senders[k].Admitted? {
        var t := Next(s, step);
        assert k in t.senders && Owes(t.senders[k]);
      }
    case StoreClosed(k) =>
      if k !in s.senders {
        var t := Next(s, step);
        assert k in t.senders && Owes(t.senders[k]);
      }
    case Wake(k) =>
    case Poll =>
      assert Next(s, step).senders == s.senders;
      assert NoneOwes(Next(s, step)) == NoneOwes(s);
  }

  /** A sender that starts does not change who owes a wake. */
  lemma KeepsOwing(s: State, k: Sender, at: SenderAt)
    requires k !in s.senders
    ensures !NoneOwes(s) ==> !NoneOwes(s.(senders := s.senders[k := at]))
  {
    if !NoneOwes(s) {
      var j :| j in s.senders && Owes(s.senders[j]);
      assert j in s.senders[k := at];
    }
  }

  lemma NextMarks(s: State, step: Step)
    requires Marked(s) && Conserved(s)
    ensures Marked(Next(s, step))
  {
    if step.Poll? {
      PollMarks(s);
    }
  }

  lemma PollMarks(s: State)
    requires Marked(s)
    ensures Marked(PollStep(s))
  {
  }
}

/** What holds over every run of the channel. */
module LossyRuns {
  import opened Common
  import opened LossySteps

  lemma {:induction false} RunKeeps(capacity: nat, steps: seq<Step>, n: nat)
    requires n <= |steps|
    ensures var s := Run(capacity, steps, n); Conserved(s) && Attentive(s) && Marked(s) && s.capacity == capacity
  {
    hide Conserved, Attentive, Marked, Next;
    if n > 0 {
      RunKeeps(capacity, steps, n - 1);
      var s := Run(capacity, steps, n - 1);
      NextConserves(s, steps[n - 1]);
      NextAttends(s, steps[n - 1]);
      NextMarks(s, steps[n - 1]);
    } else {
      Initially(capacity);
    }
  }

  lemma Initially(capacity: nat)
    ensures var s := Init(capacity); Conserved(s) && Attentive(s) && Marked(s)
  {
  }

  /** No lost wakeup: in every interleaving, a receiver that answered pending and has not been woken,
      with no wake still owed by any sender, has nothing to receive and an open channel. */
  lemma NoLostWakeup(capacity: nat, steps: seq<Step>, n: nat)
    requires n <= |steps|
    ensures
      var s := Run(capacity, steps, n);
      s.receiver.Parked? && !s.woken && NoneOwes(s) ==> s.queue == [] && !s.closed
  {
    RunKeeps(capacity, steps, n);
  }

  /** Conservation: everything queued is, in order, an item received, an item dropped, or still
      queued; the queue is the tail of what was queued. */
  lemma QueueConservation(capacity: nat, steps: seq<Step>, n: nat)
    requires n <= |steps|
    ensures
      var s := Run(capacity, steps, n);
      && |s.fates| <= |s.pushed|
      && s.queue == s.pushed[|s.fates|..]
      && |Selected(s.pushed, s.fates, Received, |s.fates|)| +
         |Selected(s.pushed, s.fates, Dropped, |s.fates|)| + |s.queue| == |s.pushed|
      && (capacity >= 1 ==> |s.queue| <= capacity)
  {
    hide Attentive, Marked, Run;
    RunKeeps(capacity, steps, n);
    var s := Run(capacity, steps, n);
    SplitByFate(s.pushed, s.fates, |s.fates|);
  }

  lemma {:induction false} SplitByFate(items: seq<Item>, fates: seq<Fate>, n: nat)
    requires n <= |items| && n <= |fates|
    ensures |Selected(items, fates, Received, n)| + |Selected(items, fates, Dropped, n)| == n
  {
    if n > 0 {
      SplitByFate(items, fates, n - 1);
    }
  }

  // ----- what the receiver has been given

  /** The items answered by the first n steps. */
  function Answers(capacity: nat, steps: seq<Step>, n: nat): seq<Item>
    requires n <= |steps|
  {
    if n == 0 then []
    else
      var before, after := Run(capacity, steps, n - 1), Run(capacity, steps, n);
      Answers(capacity, steps, n - 1) +
      (if steps[n - 1].Poll? && after.receiver.Got? then [after.receiver.item] else [])
  }

  lemma {:induction false} SelectedPrefix(a: seq<Item>, b: seq<Item>, f: seq<Fate>, g: seq<Fate>, fate: Fate, n: nat)
    requires n <= |a| && n <= |b| && n <= |f| && n <= |g|
    requires forall i :: 0 <= i < n ==> a[i] == b[i] && f[i] == g[i]
    ensures Selected(a, f, fate, n) == Selected(b, g, fate, n)
  {
    if n > 0 {
      SelectedPrefix(a, b, f, g, fate, n - 1);
    }
  }

  lemma SelectedAfter(s: State, step: Step)
    requires Conserved(s)
    ensures
      var t := Next(s, step);
      && |t.fates| <= |t.pushed|
      && Selected(t.pushed, t.fates, Received, |t.fates|) ==
         Selected(s.pushed, s.fates, Received, |s.fates|) +
         (if step.Poll? && t.receiver.Got? then [t.receiver.item] else [])
  {
    hide Selected, Conserved;
    var t := Next(s, step);
    NextConserves(s, step);
    HistoryGrows(s, step);
    SelectedPrefix(s.pushed, t.pushed, s.fates, t.fates, Received, |s.fates|);
    if |t.fates| > |s.fates| {
      SelectedLast(t.pushed, t.fates, Received, |t.fates|);
    }
  }

  /** A step decides the fate of at most one item, and receives it exactly when it answers it. */
  lemma HistoryGrows(s: State, step: Step)
    requires Conserved(s)
    ensures
      var t := Next(s, step);
      && |s.fates| <= |s.pushed| && |s.fates| <= |t.fates| <= |t.pushed| && |t.fates| <= |s.fates| + 1
      && (forall i :: 0 <= i < |s.fates| ==> s.pushed[i] == t.pushed[i] && s.fates[i] == t.fates[i])
      && (step.Poll? && t.receiver.Got? <==> |t.fates| == |s.fates| + 1 && t.fates[|s.fates|].Received?)
      && (step.Poll? && t.receiver.Got? ==> t.receiver.item == t.pushed[|s.fates|])
  {
    hide PollStep, Enqueued;
    NextConserves(s, step);
    PollGrows(s);
  }

  lemma PollGrows(s: State)
    requires Conserved(s)
    ensures
      var t := PollStep(s);
      && t.pushed == s.pushed && |s.fates| <= |s.pushed|
      && (t.receiver.Got? ==> s.queue != [] && t.receiver.item == s.pushed[|s.fates|])
      && t.fates == if t.receiver.Got? then s.fates + [Received] else s.fates
  {
  }

  lemma SelectedLast(items: seq<Item>, fates: seq<Fate>, fate: Fate, n: nat)
    requires 0 < n <= |items| && n <= |fates|
    ensures Selected(items, fates, fate, n) ==
            Selected(items, fates, fate, n - 1) + (if fates[n - 1] == fate then [items[n - 1]] else [])
  {
  }

  /** The items the receiver is given are exactly the queued ones that were not dropped or left, in
      the order they were queued. */
  lemma {:induction false} AnswersKeepOrder(capacity: nat, steps: seq<Step>, n: nat)
    requires n <= |steps|
    ensures
      var s := Run(capacity, steps, n);
      && |s.fates| <= |s.pushed|
      && Answers(capacity, steps, n) == Selected(s.pushed, s.fates, Received, |s.fates|)
  {
    hide Next, Selected, Attentive, Marked;
    RunKeeps(capacity, steps, n);
    if n > 0 {
      AnswersKeepOrder(capacity, steps, n - 1);
      RunKeeps(capacity, steps, n - 1);
      SelectedAfter(Run(capacity, steps, n - 1), steps[n - 1]);
    } else {
      NothingSelected(capacity);
    }
  }

  lemma NothingSelected(capacity: nat)
    ensures Selected(Init(capacity).pushed, Init(capacity).fates, Received, 0) == []
  {
  }

  // ----- end of stream

  /** End of stream is answered only once the channel is closed; the queue is then drained exactly
      when nothing was queued since the receiver last looked. */
  lemma EndOfStreamExactly(capacity: nat, steps: seq<Step>, n: nat)
    requires n <= |steps|
    ensures
      var s := Run(capacity, steps, n);
      s.receiver.Ended? ==> s.closed && (s.queue == [] <==> |s.pushed| == s.mark)
  {
    RunKeeps(capacity, steps, n);
  }

  /** It can be answered too early: a sender that pushes and then closes between the receiver's pop and its
      load leaves the item behind. */
  lemma EndBeforeDrained(capacity: nat, item: Item)
    ensures
      var steps := [Poll, Admit(0, item), Enqueue(0), Wake(0), StoreClosed(0), Poll];
      var s := Run(capacity, steps, |steps|);
      s.receiver.Ended? && s.queue == [item]
  {
    var steps := [Poll, Admit(0, item), Enqueue(0), Wake(0), StoreClosed(0), Poll];
    assert Run(capacity, steps, 1) == Init(capacity).(receiver := SawEmpty);
    assert Run(capacity, steps, 2).senders == map[0 := Admitted(item)];
    assert Run(capacity, steps, 3).queue == [item];
    assert Run(capacity, steps, 4).senders == map[];
    assert Run(capacity, steps, 5).closed && Run(capacity, steps, 5).receiver == SawEmpty;
  }

  /** The receiver's whole poll, with nothing in between. */
  function PollWhole(s: State): State {
    var a := PollStep(s);
    if !a.receiver.SawEmpty? then a
    else
      var b := PollStep(a);
      if b.receiver.Ended? then b else PollStep(PollStep(PollStep(b)))
  }

  predicate AtRest(s: State) {
    s.receiver.Resting? || s.receiver.Parked? || s.receiver.Got? || s.receiver.Ended?
  }

  /** A sender's whole push and whole close, with nothing in between. */
  function PushWhole(s: State, k: Sender, item: Item): State {
    Next(Next(Next(s, Admit(k, item)), Enqueue(k)), Wake(k))
  }

  function CloseWhole(s: State, k: Sender): State {
    Next(Next(s, StoreClosed(k)), Wake(k))
  }

  /** When a poll is not interrupted it answers the front item, or end of stream on a drained closed
      channel, or pending on an empty open one with the waker registered. */
  lemma WholePoll(s: State)
    requires AtRest(s)
    ensures
      var t := PollWhole(s);
      if s.queue != [] then t.receiver == Got(s.queue[0]) && t.queue == s.queue[1..]
      else if s.closed then t.receiver.Ended? && t.queue == []
      else t.receiver.Parked? && t.queue == [] && t.waker && !t.closed
  {
  }

  // ----- what is dropped

  /** The step queues an item while the queue is full. */
  ghost predicate Overflows(s: State, step: Step) {
    && step.Enqueue? && step.sender in s.senders && s.senders[step.sender].Admitted?
    && |s.queue| == s.capacity >= 1
  }

  /** A step decides that an item is dropped exactly if it queues one while exactly `capacity` are queued; the
      item is the oldest queued. */
  lemma DropsExactly(s: State, step: Step)
    requires Conserved(s)
    ensures
      var t := Next(s, step);
      && (t.fates == s.fates + [Dropped] <==> Overflows(s, step))
      && (Overflows(s, step) ==> |s.fates| < |s.pushed| && s.pushed[|s.fates|] == s.queue[0])
      && (!Overflows(s, step) ==> t.fates == s.fates || t.fates == s.fates + [Received])
  {
    hide Enqueued, PollStep;
    PollFates(s);
    FatesDiffer(s.fates);
  }

  lemma PollFates(s: State)
    ensures PollStep(s).fates == s.fates || PollStep(s).fates == s.fates + [Received]
  {
  }

  lemma FatesDiffer(fates: seq<Fate>)
    ensures fates != fates + [Dropped] && fates + [Dropped] != fates + [Received]
  {
    assert (fates + [Dropped])[|fates|] != (fates + [Received])[|fates|];
  }

  /** The same over a run: nothing was dropped if no step queued an item into a full queue. */
  lemma {:induction false} NothingOverflowed(capacity: nat, steps: seq<Step>, n: nat)
    requires n <= |steps| && forall k :: 0 <= k < n ==> !Overflows(Run(capacity, steps, k), steps[k])
    ensures var s := Run(capacity, steps, n); Dropped !in s.fates
  {
    hide Next, Conserved, Overflows;
    if n > 0 {
      NothingOverflowed(capacity, steps, n - 1);
      RunKeeps(capacity, steps, n - 1);
      DropsExactly(Run(capacity, steps, n - 1), steps[n - 1]);
    }
  }

  /** How many items were pushed and not received. */
  ghost function Unreceived(s: State): int
    requires |s.fates| <= |s.pushed|
  {
    |s.pushed| - |Selected(s.pushed, s.fates, Received, |s.fates|)|
  }

  lemma {:induction false} AllReceived(items: seq<Item>, fates: seq<Fate>, n: nat)
    requires n <= |items| && n <= |fates| && forall i :: 0 <= i < n ==> fates[i] == Received
    ensures |Selected(items, fates, Received, n)| == n
  {
    if n > 0 {
      AllReceived(items, fates, n - 1);
    }
  }

  /** Nothing is dropped in a run in which never more than `capacity` pushed items were unreceived. */
  lemma {:induction false} NothingDropped(capacity: nat, steps: seq<Step>, n: nat)
    requires n <= |steps|
    requires forall k :: 0 <= k <= n ==>
               var s := Run(capacity, steps, k); |s.fates| <= |s.pushed| && Unreceived(s) <= capacity
    ensures Dropped !in Run(capacity, steps, n).fates
  {
    hide Next, Overflows;
    if n > 0 {
      NothingDropped(capacity, steps, n - 1);
      var s, t := Run(capacity, steps, n - 1), Run(capacity, steps, n);
      RunKeeps(capacity, steps, n - 1);
      DropsExactly(s, steps[n - 1]);
      if Overflows(s, steps[n - 1]) {
        FullIsUnreceived(s, steps[n - 1]);
      }
    }
  }

  lemma FullIsUnreceived(s: State, step: Step)
    requires Conserved(s) && Dropped !in s.fates && Overflows(s, step)
    ensures
      var t := Next(s, step);
      |t.fates| <= |t.pushed| && Unreceived(t) == s.capacity + 1
  {
    hide Enqueued;
    var t := Next(s, step);
    AllReceived(s.pushed, s.fates, |s.fates|);
    SelectedPrefix(s.pushed, t.pushed, s.fates, t.fates, Received, |s.fates|);
    SelectedLast(t.pushed, t.fates, Received, |t.fates|);
  }

  // ----- capacity zero

  /** n items pushed by n senders, none received. */
  function Pushes(n: nat): (steps: seq<Step>)
    ensures |steps| == 2 * n && PushesOnly(steps, n)
  {
    seq(2 * n, i requires 0 <= i < 2 * n => if i % 2 == 0 then Admit(i / 2, 0) else Enqueue(i / 2))
  }

  ghost predicate PushesOnly(steps: seq<Step>, n: nat) {
    2 * n <= |steps| &&
    forall i :: 0 <= i < 2 * n ==> steps[i] == if i % 2 == 0 then Admit(i / 2, 0) else Enqueue(i / 2)
  }

  /** Open, of capacity zero, and sender k and those after it have not started. */
  ghost predicate OpenAtZero(s: State, k: nat) {
    |s.queue| == k && !s.closed && s.capacity == 0 && forall j :: j in s.senders ==> j < k
  }

  lemma {:induction false} UnboundedAtZero(steps: seq<Step>, n: nat)
    requires PushesOnly(steps, n)
    ensures OpenAtZero(Run(0, steps, 2 * n), n)
  {
    hide OpenAtZero, Next;
    if n > 0 {
      LastPush(steps, n);
      UnboundedAtZero(steps, n - 1);
      OnePush(Run(0, steps, 2 * n - 2), n - 1);
    } else {
      NothingAtZero();
    }
  }

  lemma NothingAtZero()
    ensures OpenAtZero(Init(0), 0)
  {
  }

  lemma LastPush(steps: seq<Step>, n: nat)
    requires n > 0 && PushesOnly(steps, n)
    ensures PushesOnly(steps, n - 1) && steps[2 * n - 2] == Admit(n - 1, 0) && steps[2 * n - 1] == Enqueue(n - 1)
  {
  }

  lemma OnePush(s: State, k: nat)
    requires OpenAtZero(s, k)
    ensures OpenAtZero(Next(Next(s, Admit(k, 0)), Enqueue(k)), k + 1)
  {
    assert Next(s, Admit(k, 0)) == s.(senders := s.senders[k := Admitted(0)]);
  }

  /** The queue stays within its capacity in every run exactly when the capacity is not zero. */
  lemma BoundedExactly(capacity: nat)
    ensures (forall steps :: |Run(capacity, steps, |steps|).queue| <= capacity) <==> capacity >= 1
  {
    if capacity == 0 {
      UnboundedAtZero(Pushes(1), 1);
      assert Run(0, Pushes(1), 2).queue != [];
      assert |Run(capacity, Pushes(1), |Pushes(1)|).queue| == 1;
    } else {
      forall steps ensures |Run(capacity, steps, |steps|).queue| <= capacity {
        RunKeeps(capacity, steps, |steps|);
      }
    }
  }
}

/** The channel as an object whose operations run without interference. */
module LossyChannel {
  import opened Common
  import opened LossySteps
  import LossyRuns

  datatype PollAnswer = Pending | Ready(item: Option<Item>)

  const DEFAULT_CHANNEL_CAPACITY := 1024

  function CapacityOrDefault(capacity: nat): (r: nat)
    ensures r >= 1 && (capacity >= 1 ==> r == capacity)
  {
    if capacity == 0 then DEFAULT_CHANNEL_CAPACITY else capacity
  }

  /** What the receiver answers where a poll ends. */
  function AnswerOf(at: ReceiverAt): PollAnswer {
    match at
    case Got(item) => Ready(Some(item))
    case Ended => Ready(None)
    case _ => Pending
  }

  class Channel {
    const capacity: nat
    var queue: seq<Item>
    var closed: bool
    var waker: bool
    var woken: bool

    /** The channel as a state of the interleaving model with nobody in the middle of an operation. */
    ghost function View(): State
      reads this
    {
      Init(capacity).(queue := queue, closed := closed, waker := waker, woken := woken)
    }

    /** The shared fields are those of this state. */
    ghost predicate Shows(s: State)
      reads this
    {
      queue == s.queue && closed == s.closed && waker == s.waker && woken == s.woken
    }

    constructor (capacity: nat)
      ensures this.capacity == capacity && queue == [] && !closed && !waker && !woken
    {
      this.capacity := capacity;
      queue, closed, waker, woken := [], false, false, false;
    }

    method Wake()
      modifies this`waker, this`woken
      ensures !waker && woken == (old(woken) || old(waker))
    {
      if waker {
        waker, woken := false, true;
      }
    }

    /** Queues the item, dropping the oldest when full; refuses once closed. */
    method Push(item: Item) returns (accepted: bool)
      modifies this
      ensures accepted == !old(closed) && closed == old(closed)
      ensures queue == if accepted then Enqueued(old(queue), capacity, item) else old(queue)
      ensures accepted && |old(queue)| < capacity ==> queue == old(queue) + [item]
      ensures accepted && |old(queue)| == capacity >= 1 ==> queue == old(queue)[1..] + [item]
      ensures accepted ==> !waker && woken == (old(woken) || old(waker))
      ensures 1 <= capacity && |old(queue)| <= capacity ==> |queue| <= capacity
      ensures Shows(LossyRuns.PushWhole(old(View()), 0, item))
    {
      if closed {
        return false;
      }
      if |queue| == capacity && queue != [] {
        queue := queue[1..];
      }
      queue := queue + [item];
      Wake();
      return true;
    }

    method Close()
      modifies this
      ensures closed && queue == old(queue) && !waker && woken == (old(woken) || old(waker))
      ensures Shows(LossyRuns.CloseWhole(old(View()), 0))
    {
      closed := true;
      Wake();
    }

    method PopFront() returns (r: Option<Item>)
      modifies this`queue
      ensures if old(queue) == [] then r == None && queue == []
              else r == Some(old(queue)[0]) && queue == old(queue)[1..]
    {
      if queue == [] {
        return None;
      }
      r := Some(queue[0]);
      queue := queue[1..];
    }

    /** One poll, which uses up the wake that led to it. */
    method PollRecv() returns (r: PollAnswer)
      modifies this
      ensures closed == old(closed)
      ensures if old(queue) != [] then r == Ready(Some(old(queue)[0])) && queue == old(queue)[1..]
              else queue == [] && r == (if closed then Ready(None) else Pending)
      ensures waker == (r.Pending? || old(waker))
      ensures
        var whole := LossyRuns.PollWhole(old(View()));
        Shows(whole) && r == AnswerOf(whole.receiver)
    {
      woken := false;
      var item := PopFront();
      if item.Some? {
        return Ready(item);
      }
      if closed {
        return Ready(None);
      }
      waker := true;
      item := PopFront();
      if item.Some? {
        return Ready(item);
      }
      if closed {
        return Ready(None);
      }
      return Pending;
    }
  }
}
