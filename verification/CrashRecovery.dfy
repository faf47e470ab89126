/** Safety of `execute_state_transition` over every schedule of calls and crashes. */
module CrashRecovery {
  import opened Common
  import opened Stores
  import opened StateTransition

  /** A call, and after how many store operations (if any) the process dies in it. */
  datatype Call = Call(height: U64, block: Block, crash: Option<nat>)

  function AtRest(s: StateStore, log: EventLog): Disk {
    Disk(s, s, log, |log|)
  }

  function After(env: Env, d: Disk, c: Call): (r: Disk)
    requires d.committed <= |d.log|
    ensures r.committed <= |r.log|
  {
    var plan := PlanFor(env, d, c.height, c.block);
    var ops := if plan.Perform? then plan.ops else [];
    if c.crash.None? then Steps(env, d, ops)
    else Crash(Steps(env, d, ops[..Min(c.crash.value, |ops|)]))
  }

  function Run(env: Env, d: Disk, calls: seq<Call>): (r: Disk)
    requires d.committed <= |d.log|
    ensures r.committed <= |r.log|
    decreases |calls|
  {
    if calls == [] then d
    else After(env, Run(env, d, calls[..|calls| - 1]), calls[|calls| - 1])
  }

  /** The heights of the calls that changed the durable state, in order. */
  function AppliedHeights(env: Env, d: Disk, calls: seq<Call>): seq<nat>
    requires d.committed <= |d.log|
    decreases |calls|
  {
    if calls == [] then []
    else
      var init := calls[..|calls| - 1];
      var before := Run(env, d, init);
      var c := calls[|calls| - 1];
      AppliedHeights(env, d, init) +
      (if After(env, before, c).stateDurable != before.stateDurable then [c.height] else [])
  }

  // ----- what one block adds

  function NextLog(log: EventLog, x: Execution, height: U64): EventLog {
    log + Appended(x.outputs) + [CommitOp(Some(CommitMark(height, |log|)))]
  }

  function NextState(env: Env, s: StateStore, x: Execution, height: U64): StateStore {
    Seal(env, WriteAll(env, s, x.changes), CommitInfo(height, s.opCount))
  }

  // ----- shape of a reachable disk

  /** The log is `genesis` followed by one range per height 1..h: that block's outputs and one
      commit naming the height and the location where the range starts. */
  ghost predicate Tiled(log: EventLog, genesis: EventLog, h: nat)
    decreases h
  {
    if h == 0 then log == genesis
    else
      && log != []
      && log[|log| - 1].CommitOp?
      && log[|log| - 1].metadata.Some?
      && log[|log| - 1].metadata.value.CommitMark?
      && var mark := log[|log| - 1].metadata.value;
      && mark.height == h
      && mark.start < |log|
      && (forall i :: mark.start <= i < |log| - 1 ==> log[i].Append?)
      && Tiled(log[..mark.start], genesis, h - 1)
  }

  function EventsHeight(log: EventLog): U64 {
    var m := Metadata(log);
    if m.Some? && m.value.CommitMark? then m.value.height else 0
  }

  /** Nothing is in flight, the log is tiled, and events are at most one block ahead of state. */
  ghost predicate Sound(d: Disk, genesis: EventLog) {
    && Metadata(genesis).None?
    && d == AtRest(d.state, d.log)
    && Tiled(d.log, genesis, EventsHeight(d.log))
    && (EventsHeight(d.log) == StateHeight(d.state) || EventsHeight(d.log) == StateHeight(d.state) + 1)
  }

  lemma NextLogTiled(log: EventLog, genesis: EventLog, x: Execution, height: U64)
    requires height > 0 && Tiled(log, genesis, height - 1)
    ensures Tiled(NextLog(log, x, height), genesis, height)
    ensures EventsHeight(NextLog(log, x, height)) == height
  {
    assert NextLog(log, x, height)[..|log|] == log;
  }

  // ----- dying part way through a plan

  lemma {:induction false} AppendingIsVolatile(env: Env, d: Disk, ms: seq<Micro>)
    requires d.committed <= |d.log|
    requires forall m :: m in ms ==> m.AppendEvent?
    ensures Crash(Steps(env, d, ms)) == Crash(d)
    decreases |ms|
  {
    if ms != [] {
      var last := ms[|ms| - 1];
      assert last in ms && last.AppendEvent?;
      AppendingIsVolatile(env, d, ms[..|ms| - 1]);
    }
  }

  lemma {:induction false} ApplyingIsVolatile(env: Env, d: Disk, ms: seq<Micro>)
    requires d.committed <= |d.log|
    requires forall m :: m in ms ==> m.ApplyChange?
    ensures Crash(Steps(env, d, ms)) == Crash(d)
    decreases |ms|
  {
    if ms != [] {
      var last := ms[|ms| - 1];
      assert last in ms && last.ApplyChange?;
      ApplyingIsVolatile(env, d, ms[..|ms| - 1]);
    }
  }

  lemma CrashInStatePart(env: Env, d: Disk, x: Execution, height: U64, k: nat)
    requires d == AtRest(d.state, d.log)
    requires k <= |StatePart(x, height, d.state.opCount)|
    ensures
      var ops := StatePart(x, height, d.state.opCount);
      Crash(Steps(env, d, ops[..k])) ==
      if k < |ops| then d else AtRest(NextState(env, d.state, x, height), d.log)
  {
    var ops := StatePart(x, height, d.state.opCount);
    if k < |ops| {
      ApplyingIsVolatile(env, d, ops[..k]);
    } else {
      assert ops[..k] == ops;
      StatePartSteps(env, d, x, height, d.state.opCount);
    }
  }

  lemma CrashInFullPlan(env: Env, d: Disk, x: Execution, height: U64, k: nat)
    requires d == AtRest(d.state, d.log)
    requires k <= |EventPart(x, height, |d.log|)| + |StatePart(x, height, d.state.opCount)|
    ensures
      var ops := EventPart(x, height, |d.log|) + StatePart(x, height, d.state.opCount);
      Crash(Steps(env, d, ops[..k])) ==
      if k <= |x.outputs| then d
      else if k < |ops| then AtRest(d.state, NextLog(d.log, x, height))
      else AtRest(NextState(env, d.state, x, height), NextLog(d.log, x, height))
  {
    hide Steps;
    var first := EventPart(x, height, |d.log|);
    var second := StatePart(x, height, d.state.opCount);
    if k <= |x.outputs| {
      assert (first + second)[..k] == Appends(x.outputs)[..k];
      AppendingIsVolatile(env, d, (first + second)[..k]);
    } else {
      assert (first + second)[..k] == first + second[..k - |first|];
      StepsConcat(env, d, first, second[..k - |first|]);
      EventPartSteps(env, d, x, height, |d.log|);
      CrashInStatePart(env, AtRest(d.state, NextLog(d.log, x, height)), x, height, k - |first|);
    }
  }

  // ----- one call from a sound disk

  /** In a sound disk whose log is ahead, the plan is to write the state exactly when re-executing
      the block yields the logged range; otherwise the call is refused. */
  lemma RecoveryAcceptance(env: Env, d: Disk, genesis: EventLog, height: U64, block: Block)
    requires Sound(d, genesis)
    requires height == StateHeight(d.state) + 1 == EventsHeight(d.log)
    ensures
      var plan := PlanFor(env, d, height, block);
      var x := env.execute(d.state.kv, block);
      var start := Metadata(d.log).value.start;
      if x.Some? && LogAgrees(d.log, x.value, height)
      then plan == Perform(StatePart(x.value, height, d.state.opCount), d.state.opCount, start, x.value)
      else plan.Refuse? && (if x.None? then plan.error == ExecutionFailed
                            else plan.error.OutputCountMismatch? || plan.error.OutputMismatch?)
  {
    hide StatePart, FirstDifference, NextLog;
    var mark := Metadata(d.log).value;
    var execution := env.execute(d.state.kv, block);
    if execution.Some? {
      LoggedExactly(d.log, mark.start, execution.value, height);
    }
  }

  /** A log that ends in a commit of this height and start ends in what `x` would have written exactly if there
      are as many outputs and none is different. */
  lemma LoggedExactly(log: EventLog, start: nat, x: Execution, height: U64)
    requires start < |log| && (forall i :: start <= i < |log| - 1 ==> log[i].Append?)
    requires log[|log| - 1] == CommitOp(Some(CommitMark(height, start)))
    ensures log == NextLog(log[..start], x, height) <==>
            |x.outputs| == |log| - 1 - start && FirstDifference(log, start, x.outputs, 0).None?
    ensures |x.outputs| == |log| - 1 - start ==>
              var diff := FirstDifference(log, start, x.outputs, 0); diff.Some? ==> diff.value.OutputMismatch?
  {
    hide FirstDifference;
    var written := NextLog(log[..start], x, height);
    if |x.outputs| == |log| - 1 - start {
      var diff := FirstDifference(log, start, x.outputs, 0);
      assert |written| == |log|;
      forall j | 0 <= j < |x.outputs| ensures written[start + j] == Append(x.outputs[j]) {
      }
      if diff.None? {
        forall i | 0 <= i < |log| ensures log[i] == written[i] {
          if start <= i < |log| - 1 {
            assert Get(log, start + (i - start)) == Some(x.outputs[i - start]);
          }
        }
      } else {
        assert log[diff.value.loc].Append?;
      }
    }
  }

  /** Everything one call can do to a sound disk, wherever it dies. */
  ghost predicate Effect(env: Env, d: Disk, c: Call, r: Disk) {
    var x := env.execute(d.state.kv, c.block);
    if c.height != StateHeight(d.state) + 1 || x.None? then r == d
    else
      var s := NextState(env, d.state, x.value, c.height);
      var log := NextLog(d.log, x.value, c.height);
      if EventsHeight(d.log) == StateHeight(d.state) then
        || r == AtRest(s, log)
        || (c.crash.Some? && (r == d || r == AtRest(d.state, log)))
      else if LogAgrees(d.log, x.value, c.height) then
        || r == AtRest(s, d.log)
        || (c.crash.Some? && r == d)
      else r == d
  }

  /** The last range of the log is what executing to `x` at `height` would have written. */
  ghost predicate LogAgrees(log: EventLog, x: Execution, height: U64) {
    && Metadata(log).Some? && Metadata(log).value.CommitMark?
    && Metadata(log).value.start <= |log|
    && log == NextLog(log[..Metadata(log).value.start], x, height)
  }

  lemma CallEffect(env: Env, d: Disk, genesis: EventLog, c: Call)
    requires Sound(d, genesis)
    ensures Effect(env, d, c, After(env, d, c))
  {
    var plan := PlanFor(env, d, c.height, c.block);
    if c.height == StateHeight(d.state) + 1 && EventsHeight(d.log) == c.height {
      RecoveryAcceptance(env, d, genesis, c.height, c.block);
    }
    if plan.Perform? {
      var ops := plan.ops;
      var k := if c.crash.None? then |ops| else Min(c.crash.value, |ops|);
      assert ops[..|ops|] == ops;
      var x := plan.execution;
      if EventsHeight(d.log) == c.height {
        CrashInStatePart(env, d, x, c.height, k);
        StatePartSteps(env, d, x, c.height, d.state.opCount);
      } else {
        CrashInFullPlan(env, d, x, c.height, k);
        FullPlanSteps(env, d, x, c.height);
      }
    }
  }

  lemma FullPlanSteps(env: Env, d: Disk, x: Execution, height: U64)
    requires d == AtRest(d.state, d.log)
    ensures Steps(env, d, EventPart(x, height, |d.log|) + StatePart(x, height, d.state.opCount)) ==
            AtRest(NextState(env, d.state, x, height), NextLog(d.log, x, height))
  {
    StepsConcat(env, d, EventPart(x, height, |d.log|), StatePart(x, height, d.state.opCount));
    EventPartSteps(env, d, x, height, |d.log|);
    StatePartSteps(env, AtRest(d.state, NextLog(d.log, x, height)), x, height, d.state.opCount);
  }

  /** Whatever block is presented and wherever the call dies: the disk stays sound, the log only
      grows, and the durable state changes only by moving to the next height. */
  lemma EffectKeepsSound(env: Env, d: Disk, genesis: EventLog, c: Call, r: Disk)
    requires Sound(d, genesis)
    requires Effect(env, d, c, r)
    ensures Sound(r, genesis)
    ensures d.log <= r.log
    ensures c.height <= StateHeight(d.state) ==> r == d
    ensures StateHeight(r.stateDurable) ==
            if r.stateDurable == d.stateDurable then StateHeight(d.stateDurable) else c.height
    ensures r.stateDurable != d.stateDurable ==> c.height == StateHeight(d.stateDurable) + 1
  {
    var x := env.execute(d.state.kv, c.block);
    if r != d && EventsHeight(d.log) == StateHeight(d.state) {
      NextLogTiled(d.log, genesis, x.value, c.height);
    }
  }

  /** Height safety over every run: soundness is never lost, and the heights applied to the
      durable state are 1, 2, 3, ... with none skipped and none applied twice. */
  lemma {:induction false} HeightSafety(env: Env, s0: StateStore, genesis: EventLog, calls: seq<Call>)
    requires Metadata(genesis).None? && StateHeight(s0) == 0
    ensures
      var r := Run(env, AtRest(s0, genesis), calls);
      var applied := AppliedHeights(env, AtRest(s0, genesis), calls);
      && Sound(r, genesis)
      && |applied| == StateHeight(r.stateDurable)
      && forall i :: 0 <= i < |applied| ==> applied[i] == i + 1
    decreases |calls|
  {
    if calls != [] {
      var init := calls[..|calls| - 1];
      HeightSafety(env, s0, genesis, init);
      var before := Run(env, AtRest(s0, genesis), init);
      var c := calls[|calls| - 1];
      CallEffect(env, before, genesis, c);
      EffectKeepsSound(env, before, genesis, c, After(env, before, c));
    }
  }

  /** In a sound disk a call is refused only for a height gap, a failing execution, or a block
      whose outputs are not the logged ones; and no refusal touches either store. */
  lemma Refusals(env: Env, d: Disk, genesis: EventLog, height: U64, block: Block)
    requires Sound(d, genesis)
    ensures
      var (r, answer) := Outcome(env, d, height, block);
      var x := env.execute(d.state.kv, block);
      && (answer.Err? ==> r == d)
      && (answer.Err? <==>
            || height > StateHeight(d.state) + 1
            || (height == StateHeight(d.state) + 1 && x.None?)
            || (height == StateHeight(d.state) + 1 == EventsHeight(d.log) &&
                !LogAgrees(d.log, x.value, height)))
      && (answer.Err? ==> answer.error in {NonSequentialHeight, ExecutionFailed, OutputCountMismatch}
                          || answer.error.OutputMismatch?)
  {
    if height == StateHeight(d.state) + 1 && EventsHeight(d.log) == height {
      RecoveryAcceptance(env, d, genesis, height, block);
    }
  }

  // ----- convergence to the crash-free run

  /** The stores after blocks 1..h, executed one after the other and never interrupted. */
  function Clean(env: Env, chain: U64 -> Block, s0: StateStore, genesis: EventLog, h: U64)
    : Option<(StateStore, EventLog)>
    decreases h
  {
    if h == 0 then Some((s0, genesis))
    else
      match Clean(env, chain, s0, genesis, h - 1)
      case None => None
      case Some((s, log)) =>
        match env.execute(s.kv, chain(h))
        case None => None
        case Some(x) => Some((NextState(env, s, x, h), NextLog(log, x, h)))
  }

  lemma {:induction false} CleanShape(env: Env, chain: U64 -> Block, s0: StateStore, genesis: EventLog, h: U64)
    requires Metadata(genesis).None? && StateHeight(s0) == 0
    requires Clean(env, chain, s0, genesis, h).Some?
    ensures
      var (s, log) := Clean(env, chain, s0, genesis, h).value;
      StateHeight(s) == h && EventsHeight(log) == h && Tiled(log, genesis, h)
    decreases h
  {
    if h > 0 {
      CleanShape(env, chain, s0, genesis, h - 1);
      var (s, log) := Clean(env, chain, s0, genesis, h - 1).value;
      NextLogTiled(log, genesis, env.execute(s.kv, chain(h)).value, h);
    }
  }

  /** The durable stores are those of the crash-free run at some height h, or its state at h with
      its log at h + 1. */
  ghost predicate Converged(env: Env, chain: U64 -> Block, s0: StateStore, genesis: EventLog, d: Disk) {
    var h := StateHeight(d.state);
    var clean := Clean(env, chain, s0, genesis, h);
    && d == AtRest(d.state, d.log)
    && clean.Some? && clean.value.0 == d.state
    && (|| d.log == clean.value.1
        || (h < U64_MAX && Clean(env, chain, s0, genesis, h + 1).Some?
            && Clean(env, chain, s0, genesis, h + 1).value.1 == d.log))
  }

  lemma ConvergedIsSound(env: Env, chain: U64 -> Block, s0: StateStore, genesis: EventLog, d: Disk)
    requires Metadata(genesis).None? && StateHeight(s0) == 0
    requires Converged(env, chain, s0, genesis, d)
    ensures Sound(d, genesis)
    ensures
      var h := StateHeight(d.state);
      if EventsHeight(d.log) == h then d.log == Clean(env, chain, s0, genesis, h).value.1
      else
        var log := Clean(env, chain, s0, genesis, h).value.1;
        var x := env.execute(d.state.kv, chain(h + 1));
        && x.Some? && d.log == NextLog(log, x.value, h + 1)
        && d.log[..Metadata(d.log).value.start] == log
  {
    var h := StateHeight(d.state);
    CleanShape(env, chain, s0, genesis, h);
    if d.log != Clean(env, chain, s0, genesis, h).value.1 {
      CleanShape(env, chain, s0, genesis, h + 1);
      var log := Clean(env, chain, s0, genesis, h).value.1;
      assert NextLog(log, env.execute(d.state.kv, chain(h + 1)).value, h + 1)[..|log|] == log;
    }
  }

  lemma EffectConverges(env: Env, chain: U64 -> Block, s0: StateStore, genesis: EventLog,
                        d: Disk, c: Call, r: Disk)
    requires Metadata(genesis).None? && StateHeight(s0) == 0
    requires Converged(env, chain, s0, genesis, d)
    requires c.block == chain(c.height) && Effect(env, d, c, r)
    ensures Converged(env, chain, s0, genesis, r)
  {
    hide Tiled, LastCommit, WriteAll;
    ConvergedIsSound(env, chain, s0, genesis, d);
    if r != d {
      var h := StateHeight(d.state);
      var x := env.execute(d.state.kv, chain(h + 1)).value;
      var log := Clean(env, chain, s0, genesis, h).value.1;
      assert Clean(env, chain, s0, genesis, h + 1) == Some((NextState(env, d.state, x, h + 1), NextLog(log, x, h + 1)));
      NextHeight(env, d.state, x, h + 1);
      hide NextState, NextLog;
    }
  }

  lemma NextHeight(env: Env, s: StateStore, x: Execution, height: U64)
    ensures StateHeight(NextState(env, s, x, height)) == height
  {
  }

  /** Crash convergence: for every schedule of calls and crashes that presents the same block at
      each height, the durable pair is always one of the crash-free run's. */
  lemma {:induction false} CrashConvergence(env: Env, chain: U64 -> Block, s0: StateStore, genesis: EventLog,
                                            calls: seq<Call>)
    requires Metadata(genesis).None? && StateHeight(s0) == 0
    requires forall c :: c in calls ==> c.block == chain(c.height)
    ensures Converged(env, chain, s0, genesis, Run(env, AtRest(s0, genesis), calls))
    decreases |calls|
  {
    hide After, Effect, Sound;
    if calls != [] {
      CrashConvergence(env, chain, s0, genesis, calls[..|calls| - 1]);
      var before := Run(env, AtRest(s0, genesis), calls[..|calls| - 1]);
      var c := calls[|calls| - 1];
      ConvergedIsSound(env, chain, s0, genesis, before);
      CallEffect(env, before, genesis, c);
      EffectConverges(env, chain, s0, genesis, before, c, After(env, before, c));
    }
  }

  /** What the crash-free run answers for height h. */
  function CleanAnswer(env: Env, chain: U64 -> Block, s0: StateStore, genesis: EventLog, h: U64)
    : TransitionResult
    requires h > 0 && Clean(env, chain, s0, genesis, h).Some?
  {
    var (s, log) := Clean(env, chain, s0, genesis, h - 1).value;
    var (s', log') := Clean(env, chain, s0, genesis, h).value;
    var x := env.execute(s.kv, chain(h)).value;
    TransitionResult(env.stateRoot(s'), s.opCount, s'.opCount,
                     env.eventsRoot(log'), |log|, |log'|, TransactionCount(x.outputs), x.nonces)
  }

  lemma NextCallFromConverged(env: Env, chain: U64 -> Block, s0: StateStore, genesis: EventLog, d: Disk, height: U64)
    requires Metadata(genesis).None? && StateHeight(s0) == 0
    requires Converged(env, chain, s0, genesis, d)
    requires height == StateHeight(d.state) + 1
    ensures
      var clean := Clean(env, chain, s0, genesis, height);
      Outcome(env, d, height, chain(height)) ==
      if clean.Some?
      then (AtRest(clean.value.0, clean.value.1), Ok(CleanAnswer(env, chain, s0, genesis, height)))
      else (d, Err(ExecutionFailed))
  {
    hide Tiled, Steps, WriteAll, LastCommit;
    ConvergedIsSound(env, chain, s0, genesis, d);
    var x := env.execute(d.state.kv, chain(height));
    if EventsHeight(d.log) == height {
      RecoveryAcceptance(env, d, genesis, height, chain(height));
      StatePartSteps(env, d, x.value, height, d.state.opCount);
    } else if x.Some? {
      FullPlanSteps(env, d, x.value, height);
    }
  }

  /** Recovery is indistinguishable from clean execution: after any schedule, the call for the
      next height leaves the crash-free stores and gives the crash-free answer, whether or not the
      events had already been committed; it fails only if executing that block fails. */
  lemma RecoveryIsIndistinguishable(env: Env, chain: U64 -> Block, s0: StateStore, genesis: EventLog,
                                    calls: seq<Call>, height: U64)
    requires Metadata(genesis).None? && StateHeight(s0) == 0
    requires forall c :: c in calls ==> c.block == chain(c.height)
    requires height == StateHeight(Run(env, AtRest(s0, genesis), calls).state) + 1
    ensures
      var d := Run(env, AtRest(s0, genesis), calls);
      var clean := Clean(env, chain, s0, genesis, height);
      Outcome(env, d, height, chain(height)) ==
      if clean.Some?
      then (AtRest(clean.value.0, clean.value.1), Ok(CleanAnswer(env, chain, s0, genesis, height)))
      else (d, Err(ExecutionFailed))
  {
    hide Outcome, Converged, Run, Clean, CleanAnswer;
    CrashConvergence(env, chain, s0, genesis, calls);
    NextCallFromConverged(env, chain, s0, genesis, Run(env, AtRest(s0, genesis), calls), height);
  }

  /** The calls for heights low + 1 .. high, none of which dies. */
  function Uncrashed(chain: U64 -> Block, low: U64, high: U64): seq<Call>
    requires low <= high
    decreases high
  {
    if low == high then [] else Uncrashed(chain, low, high - 1) + [Call(high, chain(high), None)]
  }

  /** Re-running converges: from any reached disk, presenting the remaining blocks up to n in order
      ends at exactly the crash-free stores of height n. */
  lemma {:induction false} CatchUp(env: Env, chain: U64 -> Block, s0: StateStore, genesis: EventLog,
                                   d: Disk, n: U64)
    requires Metadata(genesis).None? && StateHeight(s0) == 0
    requires Converged(env, chain, s0, genesis, d)
    requires StateHeight(d.state) < n && Clean(env, chain, s0, genesis, n).Some?
    ensures
      var (s, log) := Clean(env, chain, s0, genesis, n).value;
      Run(env, d, Uncrashed(chain, StateHeight(d.state), n)) == AtRest(s, log)
    decreases n
  {
    hide PlanFor, Steps, Tiled, LastCommit, CleanAnswer, WriteAll;
    var h := StateHeight(d.state);
    var calls := Uncrashed(chain, h, n);
    assert calls[..|calls| - 1] == Uncrashed(chain, h, n - 1);
    if n == h + 1 {
      NextCallFromConverged(env, chain, s0, genesis, d, n);
    } else {
      CatchUp(env, chain, s0, genesis, d, n - 1);
      CleanShape(env, chain, s0, genesis, n - 1);
      var (s, log) := Clean(env, chain, s0, genesis, n - 1).value;
      NextCallFromConverged(env, chain, s0, genesis, AtRest(s, log), n);
    }
  }

  /** The answered ranges tile the log: in the log of any later height n, the range answered for h
      holds that block's outputs and one commit, and starts where the range of h - 1 ended. */
  lemma {:induction false} AnswersTileTheLog(env: Env, chain: U64 -> Block, s0: StateStore, genesis: EventLog,
                                             h: U64, n: U64)
    requires 0 < h <= n && Clean(env, chain, s0, genesis, n).Some?
    ensures Clean(env, chain, s0, genesis, h).Some? && Clean(env, chain, s0, genesis, h - 1).Some?
    ensures env.execute(Clean(env, chain, s0, genesis, h - 1).value.0.kv, chain(h)).Some?
    ensures
      var log := Clean(env, chain, s0, genesis, n).value.1;
      var answer := CleanAnswer(env, chain, s0, genesis, h);
      var x := env.execute(Clean(env, chain, s0, genesis, h - 1).value.0.kv, chain(h)).value;
      && answer.eventsStartOp <= answer.eventsEndOp <= |log|
      && answer.eventsStartOp ==
         (if h == 1 then |genesis| else CleanAnswer(env, chain, s0, genesis, h - 1).eventsEndOp)
      && log[answer.eventsStartOp..answer.eventsEndOp] ==
         Appended(x.outputs) + [CommitOp(Some(CommitMark(h, answer.eventsStartOp)))]
    decreases n
  {
    if h < n {
      AnswersTileTheLog(env, chain, s0, genesis, h, n - 1);
      var answer := CleanAnswer(env, chain, s0, genesis, h);
      var (s, log) := Clean(env, chain, s0, genesis, n - 1).value;
      var log' := NextLog(log, env.execute(s.kv, chain(n)).value, n);
      assert log'[answer.eventsStartOp..answer.eventsEndOp] == log[answer.eventsStartOp..answer.eventsEndOp];
    }
  }
}
