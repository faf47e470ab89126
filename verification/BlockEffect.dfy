/** What one call does to the two stores and what it answers, in terms of the block's outputs and changes and
    of nothing the call is built from. */
module BlockEffect {
  import opened Common
  import opened Stores
  import opened StateTransition
  import opened CrashRecovery

  /** Nothing was executed: both ranges are empty and sit at the end of the stores. */
  ghost predicate Idle(env: Env, d: Disk, a: TransitionResult) {
    && a.stateRoot == env.stateRoot(d.state) && a.eventsRoot == env.eventsRoot(d.log)
    && a.stateStartOp == a.stateEndOp == d.state.opCount
    && a.eventsStartOp == a.eventsEndOp == |d.log|
    && a.executedTransactions == 0 && a.processedNonces == map[]
  }

  /** The state holds the changes of the block and a commit record of its height and of where its writes began. */
  ghost predicate StateHolds(d: Disk, x: Execution, height: U64, s: StateStore) {
    && Applied(d.state.kv, x.changes, s.kv)
    && s.metadata == Some(CommitInfo(height, d.state.opCount))
  }

  /** The answer for a block executed from d to r, whose events begin at start. */
  ghost predicate Answers(env: Env, d: Disk, r: Disk, start: nat, x: Execution, a: TransitionResult) {
    && a.stateRoot == env.stateRoot(r.state) && a.eventsRoot == env.eventsRoot(r.log)
    && a.stateStartOp == d.state.opCount && a.stateEndOp == r.state.opCount
    && a.eventsStartOp == start && a.eventsEndOp == |r.log|
    && a.executedTransactions == |TransactionsIn(x.outputs)| && a.processedNonces == x.nonces
  }

  /** The log is the old one, the outputs in order, and one commit of the height and of where they begin. */
  ghost predicate LogHolds(base: EventLog, x: Execution, height: U64, log: EventLog) {
    && |log| == |base| + |x.outputs| + 1
    && (forall i :: 0 <= i < |base| ==> log[i] == base[i])
    && (forall i :: 0 <= i < |x.outputs| ==> log[|base| + i] == Append(x.outputs[i]))
    && log[|log| - 1] == CommitOp(Some(CommitMark(height, |base|)))
  }

  /** Both stores are durable. */
  ghost predicate Durable(r: Disk) {
    r.stateDurable == r.state && r.committed == |r.log|
  }

  lemma NextStateHolds(env: Env, d: Disk, x: Execution, height: U64)
    ensures StateHolds(d, x, height, NextState(env, d.state, x, height))
  {
    WriteAllApplied(env, d.state, x.changes);
  }

  /** The op count after a block is the one before plus the operations of each change, written one after the other,
      and those of the commit. */
  lemma OperationsAddUp(env: Env, s: StateStore, x: Execution, height: U64, i: nat)
    requires i < |x.changes|
    ensures WriteAll(env, s, []) == s
    ensures
      var before, after := WriteAll(env, s, x.changes[..i]), WriteAll(env, s, x.changes[..i + 1]);
      after.opCount == before.opCount + env.writeOps(before, x.changes[i])
    ensures
      var written := WriteAll(env, s, x.changes);
      NextState(env, s, x, height).opCount == written.opCount + env.commitOps(written)
  {
    assert x.changes[..i + 1][..i] == x.changes[..i];
  }

  lemma NextLogHolds(log: EventLog, x: Execution, height: U64)
    ensures LogHolds(log, x, height, NextLog(log, x, height))
  {
  }

  /** At or below the state height nothing happens and the answer is idle, whatever the disk. */
  lemma NoopAnswer(env: Env, d: Disk, height: U64, block: Block)
    requires height <= StateHeight(d.state) && (Metadata(d.log).Some? ==> Metadata(d.log).value.CommitMark?)
    ensures
      var (r, answer) := Outcome(env, d, height, block);
      r == d && answer.Ok? && Idle(env, d, answer.value)
  {
  }

  /** The next block from a disk whose stores are level: it is executed, both stores are written and committed,
      and the answer says where; if it cannot be executed nothing changes. */
  lemma ExecutedAnswer(env: Env, d: Disk, genesis: EventLog, height: U64, block: Block)
    requires Sound(d, genesis) && height == StateHeight(d.state) + 1 && EventsHeight(d.log) == StateHeight(d.state)
    ensures
      var (r, answer) := Outcome(env, d, height, block);
      var x := env.execute(d.state.kv, block);
      if x.None? then r == d && answer == Err(ExecutionFailed)
      else
        && Durable(r) && LogHolds(d.log, x.value, height, r.log) && StateHolds(d, x.value, height, r.state)
        && answer.Ok? && Answers(env, d, r, |d.log|, x.value, answer.value)
  {
    hide Steps, WriteAll, LogHolds, StateHolds, TransactionCount;
    var x := env.execute(d.state.kv, block);
    if x.Some? {
      FullPlanSteps(env, d, x.value, height);
      NextStateHolds(env, d, x.value, height);
      NextLogHolds(d.log, x.value, height);
      CountIsCardinality(x.value.outputs);
    }
  }

  /** The same block again when its events are already committed: only the state is written, and the answer is
      about the range that is there; an output that is not the logged one is named by its location. */
  lemma RecoveredAnswer(env: Env, d: Disk, genesis: EventLog, height: U64, block: Block)
    requires Sound(d, genesis) && height == StateHeight(d.state) + 1 == EventsHeight(d.log)
    ensures Metadata(d.log).Some? && Metadata(d.log).value.CommitMark? && Metadata(d.log).value.start < |d.log|
    ensures
      var (r, answer) := Outcome(env, d, height, block);
      var x, start := env.execute(d.state.kv, block), Metadata(d.log).value.start;
      if x.None? then r == d && answer == Err(ExecutionFailed)
      else if |x.value.outputs| != |d.log| - 1 - start then r == d && answer == Err(OutputCountMismatch)
      else if forall i :: 0 <= i < |x.value.outputs| ==> d.log[start + i] == Append(x.value.outputs[i]) then
        && Durable(r) && r.log == d.log && StateHolds(d, x.value, height, r.state)
        && answer.Ok? && Answers(env, d, r, start, x.value, answer.value)
      else
        && r == d && answer.Err? && answer.error.OutputMismatch?
        && var i := answer.error.loc - start;
        && 0 <= i < |x.value.outputs| && d.log[start + i] != Append(x.value.outputs[i])
        && forall j :: 0 <= j < i ==> d.log[start + j] == Append(x.value.outputs[j])
  {
    hide Steps, WriteAll, StateHolds, FirstDifference, TransactionCount;
    var x, start := env.execute(d.state.kv, block), Metadata(d.log).value.start;
    assert forall i :: start <= i < |d.log| - 1 ==> d.log[i].Append?;
    if x.Some? && |x.value.outputs| == |d.log| - 1 - start {
      Logged(d.log, start, x.value.outputs);
      StatePartSteps(env, d, x.value, height, d.state.opCount);
      NextStateHolds(env, d, x.value, height);
      CountIsCardinality(x.value.outputs);
    }
  }

  lemma Logged(log: EventLog, start: nat, outputs: seq<Output>)
    requires start + |outputs| <= |log| && forall i :: start <= i < start + |outputs| ==> log[i].Append?
    ensures forall i :: 0 <= i < |outputs| ==>
              (Get(log, start + i) == Some(outputs[i]) <==> log[start + i] == Append(outputs[i]))
    ensures forall i :: start <= i < start + |outputs| ==> Get(log, i).Some?
  {
  }

  /** A disk that no run reaches is refused and left alone: a last commit that is not a mark, and events that are
      neither level with the state nor one block ahead. */
  lemma UnsoundRefused(env: Env, d: Disk, height: U64, block: Block)
    ensures
      var (r, answer) := Outcome(env, d, height, block);
      var mark := Metadata(d.log);
      && (mark.Some? && !mark.value.CommitMark? ==> r == d && answer == Err(UnexpectedEventsMetadata))
      && ((mark.Some? ==> mark.value.CommitMark?) && height == StateHeight(d.state) + 1
          && EventsHeight(d.log) != StateHeight(d.state) && EventsHeight(d.log) != height ==>
            r == d && answer == Err(HeightMismatch))
      && ((mark.Some? ==> mark.value.CommitMark?) && height > StateHeight(d.state) + 1 ==>
            r == d && answer == Err(NonSequentialHeight))
  {
  }

  // ----- counting in the log

  /** The positions of logged transactions in a range of the log. */
  ghost function TransactionsBetween(log: EventLog, start: nat, end: nat): set<nat> {
    set i: nat | start <= i < end && i < |log| && log[i].Append? && log[i].output.Transaction?
  }

  lemma OneMoreBetween(log: EventLog, start: nat, end: nat)
    requires start <= end < |log|
    ensures |TransactionsBetween(log, start, end + 1)| ==
            |TransactionsBetween(log, start, end)| + if log[end].Append? && log[end].output.Transaction? then 1 else 0
  {
    var here, more := TransactionsBetween(log, start, end), TransactionsBetween(log, start, end + 1);
    assert end !in here;
    if log[end].Append? && log[end].output.Transaction? {
      assert more == here + {end};
    } else {
      assert more == here;
    }
  }

  lemma {:induction false} ShiftedCount(log: EventLog, start: nat, outputs: seq<Output>)
    requires start + |outputs| <= |log| && forall i :: 0 <= i < |outputs| ==> log[start + i] == Append(outputs[i])
    ensures |TransactionsBetween(log, start, start + |outputs|)| == TransactionCount(outputs)
    decreases |outputs|
  {
    hide TransactionsBetween;
    if outputs != [] {
      var last := |outputs| - 1;
      assert log[start + last] == Append(outputs[last]);
      ShiftedCount(log, start, outputs[..last]);
      OneMoreBetween(log, start, start + last);
    } else {
      NoneBetween(log, start);
    }
  }

  lemma NoneBetween(log: EventLog, start: nat)
    ensures TransactionsBetween(log, start, start) == {}
  {
  }

  /** In the log of any later height, the number answered for a height is the number of transactions in the
      answered range. */
  lemma AnswersCountTheLog(env: Env, chain: U64 -> Block, s0: StateStore, genesis: EventLog, h: U64, n: U64)
    requires 0 < h <= n && Clean(env, chain, s0, genesis, n).Some?
    ensures Clean(env, chain, s0, genesis, h).Some?
    ensures
      var log, answer := Clean(env, chain, s0, genesis, n).value.1, CleanAnswer(env, chain, s0, genesis, h);
      answer.executedTransactions == |TransactionsBetween(log, answer.eventsStartOp, answer.eventsEndOp)|
  {
    hide Clean;
    AnswersTileTheLog(env, chain, s0, genesis, h, n);
    var log, answer := Clean(env, chain, s0, genesis, n).value.1, CleanAnswer(env, chain, s0, genesis, h);
    var x := env.execute(Clean(env, chain, s0, genesis, h - 1).value.0.kv, chain(h)).value;
    CountsRange(log, answer.eventsStartOp, answer.eventsEndOp, x.outputs, h);
  }

  lemma CountsRange(log: EventLog, start: nat, end: nat, outputs: seq<Output>, h: U64)
    requires start <= end <= |log| && log[start..end] == Appended(outputs) + [CommitOp(Some(CommitMark(h, start)))]
    ensures TransactionCount(outputs) == |TransactionsBetween(log, start, end)|
  {
    hide TransactionCount, TransactionsBetween;
    RangeOf(log, start, end, outputs, h);
    ShiftedCount(log, start, outputs);
    OneMoreBetween(log, start, end - 1);
  }

  lemma RangeOf(log: EventLog, start: nat, end: nat, outputs: seq<Output>, h: U64)
    requires start <= end <= |log| && log[start..end] == Appended(outputs) + [CommitOp(Some(CommitMark(h, start)))]
    ensures end == start + |outputs| + 1 && log[end - 1].CommitOp?
    ensures forall i :: 0 <= i < |outputs| ==> log[start + i] == Append(outputs[i])
  {
    var range := log[start..end];
    assert range[|outputs|] == log[end - 1];
    forall i | 0 <= i < |outputs| ensures log[start + i] == Append(outputs[i]) {
      assert range[i] == log[start + i];
    }
  }
}
