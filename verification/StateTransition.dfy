/** Block execution over two durable stores that are committed one after the other.

    `Layer::execute`, the store roots and the number of operations the key/value store writes
    are unknown pure functions, carried by `Env`.  A commit is atomic; whatever was not
    committed is gone after a restart. */
module Stores {
  import opened Common

  type Key = nat
  type PublicKey = nat
  type Digest = nat

  datatype Output =
    | Event(payload: nat)
    | Transaction(id: nat)
    | CommitMark(height: U64, start: nat)

  datatype Value = Data(payload: nat) | CommitInfo(height: U64, start: nat)

  datatype Status = Update(value: Value) | Delete

  datatype Change = Change(key: Key, status: Status)

  datatype Block = Block(seed: nat, transactions: seq<nat>)

  datatype Execution = Execution(
    outputs: seq<Output>, nonces: map<PublicKey, U64>, changes: seq<Change>)

  /** One operation of the append-only events log. */
  datatype EventOp = Append(output: Output) | CommitOp(metadata: Option<Output>)

  type EventLog = seq<EventOp>

  datatype StateStore = StateStore(kv: map<Key, Value>, metadata: Option<Value>, opCount: nat)

  datatype Env = Env(
    execute: (map<Key, Value>, Block) -> Option<Execution>,
    writeOps: (StateStore, Change) -> nat,
    commitOps: StateStore -> nat,
    stateRoot: StateStore -> Digest,
    eventsRoot: EventLog -> Digest)

  // ----- key/value store

  function Write(env: Env, s: StateStore, c: Change): StateStore {
    StateStore(
      if c.status.Update? then s.kv[c.key := c.status.value] else s.kv - {c.key},
      s.metadata,
      s.opCount + env.writeOps(s, c))
  }

  function WriteAll(env: Env, s: StateStore, cs: seq<Change>): StateStore
    decreases |cs|
  {
    if cs == [] then s else Write(env, WriteAll(env, s, cs[..|cs| - 1]), cs[|cs| - 1])
  }

  /** No later change has the key of the i-th. */
  ghost predicate IsLast(changes: seq<Change>, i: nat)
    requires i < |changes|
  {
    forall j :: i < j < |changes| ==> changes[j].key != changes[i].key
  }

  ghost predicate Untouched(changes: seq<Change>, key: Key) {
    forall i :: 0 <= i < |changes| ==> changes[i].key != key
  }

  /** Each key is decided by its last change: an update gives its value, a delete leaves it absent, and a key
      with no change is as before. */
  ghost predicate Applied(before: map<Key, Value>, changes: seq<Change>, after: map<Key, Value>) {
    && (forall i :: 0 <= i < |changes| && IsLast(changes, i) ==>
          match changes[i].status
          case Update(v) => changes[i].key in after && after[changes[i].key] == v
          case Delete => changes[i].key !in after)
    && (forall key :: Untouched(changes, key) ==>
          (key in after <==> key in before) && (key in before ==> after[key] == before[key]))
  }

  lemma {:induction false} WriteAllApplied(env: Env, s: StateStore, cs: seq<Change>)
    ensures Applied(s.kv, cs, WriteAll(env, s, cs).kv) && WriteAll(env, s, cs).metadata == s.metadata
    decreases |cs|
  {
    hide Applied, Write;
    if cs == [] {
      NothingApplied(s.kv);
    } else {
      var init, c := cs[..|cs| - 1], cs[|cs| - 1];
      WriteAllApplied(env, s, init);
      OneMoreApplied(env, s.kv, init, WriteAll(env, s, init), c);
      assert init + [c] == cs;
    }
  }

  lemma NothingApplied(kv: map<Key, Value>)
    ensures Applied(kv, [], kv)
  {
  }

  lemma OneMoreApplied(env: Env, before: map<Key, Value>, cs: seq<Change>, s: StateStore, c: Change)
    requires Applied(before, cs, s.kv)
    ensures Applied(before, cs + [c], Write(env, s, c).kv) && Write(env, s, c).metadata == s.metadata
  {
    var more, after := cs + [c], Write(env, s, c).kv;
    forall i | 0 <= i < |more| && IsLast(more, i)
      ensures match more[i].status
              case Update(v) => more[i].key in after && after[more[i].key] == v
              case Delete => more[i].key !in after
    {
      if i < |cs| {
        assert more[|cs|].key != more[i].key;
        assert forall j :: i < j < |cs| ==> cs[j] == more[j];
        assert IsLast(cs, i);
      }
    }
    forall key | Untouched(more, key) ensures Untouched(cs, key) && key != c.key {
      assert more[|cs|] == c;
      assert forall i :: 0 <= i < |cs| ==> cs[i] == more[i];
    }
  }

  function Seal(env: Env, s: StateStore, info: Value): StateStore {
    StateStore(s.kv, Some(info), s.opCount + env.commitOps(s))
  }

  function StateHeight(s: StateStore): U64 {
    if s.metadata.Some? && s.metadata.value.CommitInfo? then s.metadata.value.height else 0
  }

  // ----- events log

  /** The location of the last commit operation. */
  function LastCommit(log: EventLog): (r: Option<nat>)
    ensures r.Some? ==> r.value < |log| && log[r.value].CommitOp?
    ensures r.Some? ==> forall i :: r.value < i < |log| ==> log[i].Append?
    ensures r.None? ==> forall i :: 0 <= i < |log| ==> log[i].Append?
    decreases |log|
  {
    if log == [] then None
    else if log[|log| - 1].CommitOp? then Some(|log| - 1)
    else LastCommit(log[..|log| - 1])
  }

  function Metadata(log: EventLog): Option<Output> {
    var loc := LastCommit(log);
    if loc.Some? then log[loc.value].metadata else None
  }

  function Get(log: EventLog, loc: nat): Option<Output> {
    if loc >= |log| then None
    else if log[loc].Append? then Some(log[loc].output)
    else log[loc].metadata
  }

  function Appended(outputs: seq<Output>): (ops: EventLog)
    ensures |ops| == |outputs|
    ensures forall i :: 0 <= i < |ops| ==> ops[i] == Append(outputs[i])
  {
    seq(|outputs|, i requires 0 <= i < |outputs| => Append(outputs[i]))
  }

  /** The key/value database: what is in memory and what a restart would find. */
  class StateDb {
    var working: StateStore
    var durable: StateStore

    constructor (s: StateStore)
      ensures working == durable == s
    {
      working, durable := s, s;
    }

    method Apply(env: Env, changes: seq<Change>)
      modifies this`working
      ensures working == WriteAll(env, old(working), changes)
      ensures Applied(old(working).kv, changes, working.kv)
    {
      ghost var before := working;
      for i := 0 to |changes|
        invariant working == WriteAll(env, old(working), changes[..i])
      {
        working := Write(env, working, changes[i]);
        assert changes[..i + 1][..i] == changes[..i];
      }
      assert changes[..|changes|] == changes;
      WriteAllApplied(env, before, changes);
    }

    method Commit(env: Env, info: Value)
      modifies this
      ensures working == durable == Seal(env, old(working), info)
    {
      working := Seal(env, working, info);
      durable := working;
    }

    method Restart()
      modifies this`working
      ensures working == durable
    {
      working := durable;
    }
  }

  /** The events database: its log, and how much of it is committed. */
  class EventsDb {
    var log: EventLog
    var committed: nat

    ghost predicate Valid()
      reads this
    {
      committed <= |log|
    }

    constructor (genesis: EventLog)
      ensures log == genesis && committed == |genesis|
    {
      log, committed := genesis, |genesis|;
    }

    method AppendOutput(output: Output)
      modifies this`log
      ensures log == old(log) + [Append(output)]
    {
      log := log + [Append(output)];
    }

    method Commit(metadata: Option<Output>)
      modifies this
      ensures log == old(log) + [CommitOp(metadata)]
      ensures committed == |log|
    {
      log := log + [CommitOp(metadata)];
      committed := |log|;
    }

    method Restart()
      requires Valid()
      modifies this`log
      ensures Valid()
      ensures log == old(log)[..committed]
    {
      log := log[..committed];
    }
  }
}

/** `execute_state_transition`: the method, the plan of store operations it carries out, and the
    meaning of stopping it after any number of them. */
module StateTransition {
  import opened Common
  import opened Stores

  datatype Error =
    | UnexpectedEventsMetadata
    | NonSequentialHeight
    | ExecutionFailed
    | MissingCommitLocation
    | OpCountMismatch
    | StartBeyondCommit
    | OutputCountMismatch
    | MissingOutput(loc: nat)
    | OutputMismatch(loc: nat)
    | HeightMismatch

  datatype TransitionResult = TransitionResult(
    stateRoot: Digest, stateStartOp: nat, stateEndOp: nat,
    eventsRoot: Digest, eventsStartOp: nat, eventsEndOp: nat,
    executedTransactions: nat, processedNonces: map<PublicKey, U64>)

  /** Both stores, each with what is committed. */
  datatype Disk = Disk(state: StateStore, stateDurable: StateStore, log: EventLog, committed: nat)

  datatype Micro =
    | AppendEvent(output: Output)
    | CommitEvents(mark: Output)
    | ApplyChange(change: Change)
    | CommitState(info: Value)

  datatype Plan =
    | Skip
    | Refuse(error: Error)
    | Perform(ops: seq<Micro>, stateStart: nat, eventsStart: nat, execution: Execution)

  // ----- micro-steps

  function Step(env: Env, d: Disk, m: Micro): Disk {
    match m
    case AppendEvent(o) => d.(log := d.log + [Append(o)])
    case CommitEvents(o) =>
      var log := d.log + [CommitOp(Some(o))];
      d.(log := log, committed := |log|)
    case ApplyChange(c) => d.(state := Write(env, d.state, c))
    case CommitState(v) =>
      var s := Seal(env, d.state, v);
      d.(state := s, stateDurable := s)
  }

  function Steps(env: Env, d: Disk, ms: seq<Micro>): (r: Disk)
    ensures d.committed <= |d.log| ==> r.committed <= |r.log|
    decreases |ms|
  {
    if ms == [] then d else Step(env, Steps(env, d, ms[..|ms| - 1]), ms[|ms| - 1])
  }

  /** What a restart finds. */
  function Crash(d: Disk): Disk
    requires d.committed <= |d.log|
  {
    Disk(d.stateDurable, d.stateDurable, d.log[..d.committed], d.committed)
  }

  function Appends(outputs: seq<Output>): (ms: seq<Micro>)
    ensures |ms| == |outputs|
    ensures forall i :: 0 <= i < |ms| ==> ms[i] == AppendEvent(outputs[i])
  {
    seq(|outputs|, i requires 0 <= i < |outputs| => AppendEvent(outputs[i]))
  }

  function Applies(changes: seq<Change>): (ms: seq<Micro>)
    ensures |ms| == |changes|
    ensures forall i :: 0 <= i < |ms| ==> ms[i] == ApplyChange(changes[i])
  {
    seq(|changes|, i requires 0 <= i < |changes| => ApplyChange(changes[i]))
  }

  function EventPart(x: Execution, height: U64, start: nat): seq<Micro> {
    Appends(x.outputs) + [CommitEvents(CommitMark(height, start))]
  }

  function StatePart(x: Execution, height: U64, start: nat): seq<Micro> {
    Applies(x.changes) + [CommitState(CommitInfo(height, start))]
  }

  // ----- the decision taken before anything is written

  /** The first output of the re-execution that is not the logged one. */
  function FirstDifference(log: EventLog, start: nat, outputs: seq<Output>, i: nat): (r: Option<Error>)
    requires i <= |outputs|
    ensures r.None? <==> forall j :: i <= j < |outputs| ==> Get(log, start + j) == Some(outputs[j])
    ensures r.Some? ==>
              && (r.value.MissingOutput? || r.value.OutputMismatch?)
              && start + i <= r.value.loc < start + |outputs|
              && (forall j :: i <= j < r.value.loc - start ==> Get(log, start + j) == Some(outputs[j]))
              && Get(log, r.value.loc) != Some(outputs[r.value.loc - start])
              && (r.value.MissingOutput? <==> Get(log, r.value.loc).None?)
    decreases |outputs| - i
  {
    if i == |outputs| then None
    else
      match Get(log, start + i)
      case None => assert Get(log, start + i) != Some(outputs[i]); Some(MissingOutput(start + i))
      case Some(o) =>
        if o != outputs[i] then Some(OutputMismatch(start + i))
        else FirstDifference(log, start, outputs, i + 1)
  }

  function RecoveryPlan(env: Env, d: Disk, height: U64, block: Block, start: nat): Plan {
    var loc := LastCommit(d.log);
    if loc.None? then Refuse(MissingCommitLocation)
    else if |d.log| != loc.value + 1 then Refuse(OpCountMismatch)
    else if loc.value < start then Refuse(StartBeyondCommit)
    else
      match env.execute(d.state.kv, block)
      case None => Refuse(ExecutionFailed)
      case Some(x) =>
        if |x.outputs| != loc.value - start then Refuse(OutputCountMismatch)
        else
          var diff := FirstDifference(d.log, start, x.outputs, 0);
          if diff.Some? then Refuse(diff.value)
          else Perform(StatePart(x, height, d.state.opCount), d.state.opCount, start, x)
  }

  function PlanFor(env: Env, d: Disk, height: U64, block: Block): Plan {
    var stateHeight := StateHeight(d.state);
    var metadata := Metadata(d.log);
    if metadata.Some? && !metadata.value.CommitMark? then Refuse(UnexpectedEventsMetadata)
    else
      var eventsHeight := if metadata.Some? then metadata.value.height else 0;
      if height <= stateHeight then Skip
      else if height != SaturatingAdd(stateHeight, 1) then Refuse(NonSequentialHeight)
      else if eventsHeight == stateHeight then
        match env.execute(d.state.kv, block)
        case None => Refuse(ExecutionFailed)
        case Some(x) =>
          Perform(EventPart(x, height, |d.log|) + StatePart(x, height, d.state.opCount),
                  d.state.opCount, |d.log|, x)
      else if eventsHeight == height then
        RecoveryPlan(env, d, height, block, metadata.value.start)
      else Refuse(HeightMismatch)
  }

  function TransactionCount(outputs: seq<Output>): nat
    decreases |outputs|
  {
    if outputs == [] then 0
    else TransactionCount(outputs[..|outputs| - 1]) + (if outputs[|outputs| - 1].Transaction? then 1 else 0)
  }

  /** The positions of the transactions. */
  ghost function TransactionsIn(outputs: seq<Output>): set<nat> {
    set i: nat | i < |outputs| && outputs[i].Transaction?
  }

  lemma {:induction false} CountIsCardinality(outputs: seq<Output>)
    ensures TransactionCount(outputs) == |TransactionsIn(outputs)|
    decreases |outputs|
  {
    if outputs != [] {
      var last := |outputs| - 1;
      CountIsCardinality(outputs[..last]);
      if outputs[last].Transaction? {
        assert TransactionsIn(outputs) == TransactionsIn(outputs[..last]) + {last};
      } else {
        assert TransactionsIn(outputs) == TransactionsIn(outputs[..last]);
      }
    }
  }

  function Summary(env: Env, d: Disk, stateStart: nat, eventsStart: nat,
                   executed: nat, nonces: map<PublicKey, U64>): TransitionResult {
    TransitionResult(env.stateRoot(d.state), stateStart, d.state.opCount,
                     env.eventsRoot(d.log), eventsStart, |d.log|, executed, nonces)
  }

  /** The stores and the answer after an uninterrupted call. */
  function Outcome(env: Env, d: Disk, height: U64, block: Block): (Disk, Result<TransitionResult, Error>) {
    match PlanFor(env, d, height, block)
    case Skip => (d, Ok(Summary(env, d, d.state.opCount, |d.log|, 0, map[])))
    case Refuse(e) => (d, Err(e))
    case Perform(ops, stateStart, eventsStart, x) =>
      var d' := Steps(env, d, ops);
      (d', Ok(Summary(env, d', stateStart, eventsStart, TransactionCount(x.outputs), x.nonces)))
  }

  lemma {:induction false} StepsConcat(env: Env, d: Disk, a: seq<Micro>, b: seq<Micro>)
    ensures Steps(env, d, a + b) == Steps(env, Steps(env, d, a), b)
    decreases |b|
  {
    if b == [] {
      assert a + b == a;
    } else {
      assert (a + b)[..|a + b| - 1] == a + b[..|b| - 1];
      StepsConcat(env, d, a, b[..|b| - 1]);
    }
  }

  lemma {:induction false} AppendsSteps(env: Env, d: Disk, outputs: seq<Output>)
    ensures Steps(env, d, Appends(outputs)) == d.(log := d.log + Appended(outputs))
    decreases |outputs|
  {
    if outputs == [] {
      assert d.log + Appended(outputs) == d.log;
    } else {
      var init := outputs[..|outputs| - 1];
      assert Appends(outputs)[..|outputs| - 1] == Appends(init);
      AppendsSteps(env, d, init);
      assert Appended(init) + [Append(outputs[|outputs| - 1])] == Appended(outputs);
    }
  }

  lemma {:induction false} AppliesSteps(env: Env, d: Disk, changes: seq<Change>)
    ensures Steps(env, d, Applies(changes)) == d.(state := WriteAll(env, d.state, changes))
    decreases |changes|
  {
    if changes != [] {
      assert Applies(changes)[..|changes| - 1] == Applies(changes[..|changes| - 1]);
      AppliesSteps(env, d, changes[..|changes| - 1]);
    }
  }

  lemma EventPartSteps(env: Env, d: Disk, x: Execution, height: U64, start: nat)
    ensures
      var log := d.log + Appended(x.outputs) + [CommitOp(Some(CommitMark(height, start)))];
      Steps(env, d, EventPart(x, height, start)) == d.(log := log, committed := |log|)
  {
    AppendsSteps(env, d, x.outputs);
    assert EventPart(x, height, start)[..|x.outputs|] == Appends(x.outputs);
  }

  lemma StatePartSteps(env: Env, d: Disk, x: Execution, height: U64, start: nat)
    ensures
      var s := Seal(env, WriteAll(env, d.state, x.changes), CommitInfo(height, start));
      Steps(env, d, StatePart(x, height, start)) == d.(state := s, stateDurable := s)
  {
    AppliesSteps(env, d, x.changes);
    assert StatePart(x, height, start)[..|x.changes|] == Applies(x.changes);
  }

  // ----- the method

  ghost function View(state: StateDb, events: EventsDb): Disk
    reads state, events
  {
    Disk(state.working, state.durable, events.log, events.committed)
  }

  /** Both stores come back as a crash leaves them. */
  method RestartStores(state: StateDb, events: EventsDb)
    requires events.Valid()
    modifies state, events
    ensures View(state, events) == Crash(old(View(state, events)))
  {
    state.Restart();
    events.Restart();
  }

  method CountTransactions(outputs: seq<Output>) returns (n: nat)
    ensures n == TransactionCount(outputs)
    ensures n == |set i: nat | i < |outputs| && outputs[i].Transaction?|
  {
    n := 0;
    for i := 0 to |outputs|
      invariant n == TransactionCount(outputs[..i])
    {
      assert outputs[..i + 1][..i] == outputs[..i];
      if outputs[i].Transaction? {
        n := n + 1;
      }
    }
    assert outputs[..|outputs|] == outputs;
    CountIsCardinality(outputs);
    assert TransactionsIn(outputs) == set i: nat | i < |outputs| && outputs[i].Transaction?;
  }

  /** Compares the re-executed outputs with the logged ones. */
  method CheckOutputs(log: EventLog, start: nat, outputs: seq<Output>) returns (r: Option<Error>)
    ensures r == FirstDifference(log, start, outputs, 0)
  {
    for i := 0 to |outputs|
      invariant FirstDifference(log, start, outputs, 0) == FirstDifference(log, start, outputs, i)
    {
      var existing := Get(log, start + i);
      if existing.None? {
        return Some(MissingOutput(start + i));
      }
      if existing.value != outputs[i] {
        return Some(OutputMismatch(start + i));
      }
    }
    return None;
  }

  method WriteEvents(env: Env, state: StateDb, events: EventsDb, x: Execution, height: U64, start: nat)
    modifies events
    ensures View(state, events) == Steps(env, old(View(state, events)), EventPart(x, height, start))
  {
    ghost var before := View(state, events);
    for i := 0 to |x.outputs|
      invariant events.committed == before.committed
      invariant events.log == before.log + Appended(x.outputs[..i])
    {
      events.AppendOutput(x.outputs[i]);
      assert Appended(x.outputs[..i]) + [Append(x.outputs[i])] == Appended(x.outputs[..i + 1]);
    }
    assert x.outputs[..|x.outputs|] == x.outputs;
    events.Commit(Some(CommitMark(height, start)));
    EventPartSteps(env, before, x, height, start);
  }

  method WriteState(env: Env, state: StateDb, events: EventsDb, x: Execution, height: U64, start: nat)
    modifies state
    ensures View(state, events) == Steps(env, old(View(state, events)), StatePart(x, height, start))
  {
    ghost var before := View(state, events);
    state.Apply(env, x.changes);
    state.Commit(env, CommitInfo(height, start));
    StatePartSteps(env, before, x, height, start);
  }

  method ExecuteStateTransition(env: Env, state: StateDb, events: EventsDb, height: U64, block: Block)
    returns (r: Result<TransitionResult, Error>)
    modifies state, events
    ensures (View(state, events), r) == Outcome(env, old(View(state, events)), height, block)
  {
    ghost var before := View(state, events);
    var stateHeight := StateHeight(state.working);
    var metadata := Metadata(events.log);
    var eventsHeight, commitStart, commitLoc: Option<nat> := 0, 0, None;
    if metadata.Some? {
      if !metadata.value.CommitMark? {
        return Err(UnexpectedEventsMetadata);
      }
      eventsHeight, commitStart, commitLoc :=
        metadata.value.height, metadata.value.start, LastCommit(events.log);
    }

    if height <= stateHeight {
      return Ok(Summary(env, Disk(state.working, state.durable, events.log, events.committed),
                        state.working.opCount, |events.log|, 0, map[]));
    }
    if height != SaturatingAdd(stateHeight, 1) {
      return Err(NonSequentialHeight);
    }
    assert height == stateHeight + 1;

    var stateStart := state.working.opCount;
    var eventsStart := |events.log|;
    var execution: Option<Execution>;
    if eventsHeight == stateHeight {
      execution := env.execute(state.working.kv, block);
      if execution.None? {
        return Err(ExecutionFailed);
      }
      WriteEvents(env, state, events, execution.value, height, eventsStart);
      WriteState(env, state, events, execution.value, height, stateStart);
      StepsConcat(env, before, EventPart(execution.value, height, eventsStart),
                  StatePart(execution.value, height, stateStart));
    } else if eventsHeight == height {
      if commitLoc.None? {
        return Err(MissingCommitLocation);
      }
      if |events.log| != commitLoc.value + 1 {
        return Err(OpCountMismatch);
      }
      eventsStart := commitStart;
      if commitLoc.value < eventsStart {
        return Err(StartBeyondCommit);
      }
      execution := env.execute(state.working.kv, block);
      if execution.None? {
        return Err(ExecutionFailed);
      }
      if |execution.value.outputs| != commitLoc.value - eventsStart {
        return Err(OutputCountMismatch);
      }
      var difference := CheckOutputs(events.log, eventsStart, execution.value.outputs);
      if difference.Some? {
        return Err(difference.value);
      }
      WriteState(env, state, events, execution.value, height, stateStart);
    } else {
      return Err(HeightMismatch);
    }

    var executed := CountTransactions(execution.value.outputs);
    r := Ok(Summary(env, Disk(state.working, state.durable, events.log, events.committed),
                    stateStart, eventsStart, executed, execution.value.nonces));
  }
}
