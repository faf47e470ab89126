/** The timed phase machine of a global-table round. */
module RoundScheduler {
  import opened Common

  datatype Phase = Betting | Locked | Rolling | Payout | Cooldown

  datatype PhaseConfig = PhaseConfig(bettingMs: U64, lockMs: U64, payoutMs: U64, cooldownMs: U64)

  datatype Transition = NoTransition | TransitionTo(phase: Phase, endsAt: U64)

  const MS_PER_VIEW := 1_000

  function DurationFor(cfg: PhaseConfig, phase: Phase): U64 {
    match phase
    case Betting => cfg.bettingMs
    case Locked => cfg.lockMs
    case Rolling => 0
    case Payout => cfg.payoutMs
    case Cooldown => cfg.cooldownMs
  }

  function TotalRoundDuration(cfg: PhaseConfig): U64 {
    SaturatingAdd(SaturatingAdd(SaturatingAdd(cfg.bettingMs, cfg.lockMs), cfg.payoutMs), cfg.cooldownMs)
  }

  function NextPhase(phase: Phase): Option<Phase> {
    match phase
    case Betting => Some(Locked)
    case Locked => Some(Rolling)
    case Rolling => Some(Payout)
    case Payout => Some(Cooldown)
    case Cooldown => None
  }

  function CheckTransition(cfg: PhaseConfig, phase: Phase, endsAt: U64, now: U64): Transition {
    if now < endsAt then NoTransition
    else
      match NextPhase(phase)
      case None => NoTransition
      case Some(next) => TransitionTo(next, SaturatingAdd(now, DurationFor(cfg, next)))
  }

  predicate IsBettingOpen(phase: Phase, endsAt: U64, now: U64) {
    phase.Betting? && now < endsAt
  }

  predicate CanStartNewRound(roundId: U64, phase: Phase, endsAt: U64, now: U64) {
    roundId == 0 || (phase.Cooldown? && now >= endsAt)
  }

  predicate CanLock(phase: Phase, endsAt: U64, now: U64) {
    phase.Betting? && now >= endsAt
  }

  predicate CanReveal(phase: Phase, endsAt: U64, now: U64) {
    phase.Locked? && now >= endsAt
  }

  predicate CanFinalize(phase: Phase, endsAt: U64, now: U64) {
    phase.Payout? && now >= endsAt
  }

  function NewRoundTiming(cfg: PhaseConfig, now: U64): U64 {
    SaturatingAdd(now, cfg.bettingMs)
  }

  function LockedPhaseTiming(cfg: PhaseConfig, now: U64): U64 {
    SaturatingAdd(now, cfg.lockMs)
  }

  function PayoutPhaseTiming(cfg: PhaseConfig, now: U64): U64 {
    SaturatingAdd(now, cfg.payoutMs)
  }

  function CooldownPhaseTiming(cfg: PhaseConfig, now: U64): U64 {
    SaturatingAdd(now, cfg.cooldownMs)
  }

  function ViewToMs(view: U64): U64 {
    if view * MS_PER_VIEW <= U64_MAX then view * MS_PER_VIEW else U64_MAX
  }

  function MsToView(ms: U64): U64 {
    ms / MS_PER_VIEW
  }

  /** A view survives the trip through milliseconds exactly when its product does not saturate. */
  lemma ViewRoundTrip(view: U64)
    ensures MsToView(ViewToMs(view)) == view <==> view <= U64_MAX / MS_PER_VIEW
  {
  }

  /** A view is a second, up to the largest number of milliseconds. */
  lemma ViewIsSecond(view: U64, ms: U64)
    ensures ViewToMs(view) == Min(U64_MAX, 1000 * view)
    ensures 1000 * MsToView(ms) <= ms < 1000 * MsToView(ms) + 1000
  {
  }

  // ----- the table and its two drivers

  datatype Table = Table(roundId: U64, phase: Phase, endsAt: U64)

  datatype Action = OpenRound | Lock | Reveal | Finalize

  predicate Enabled(t: Table, a: Action, now: U64) {
    match a
    case OpenRound => CanStartNewRound(t.roundId, t.phase, t.endsAt, now)
    case Lock => CanLock(t.phase, t.endsAt, now)
    case Reveal => CanReveal(t.phase, t.endsAt, now)
    case Finalize => CanFinalize(t.phase, t.endsAt, now)
  }

  /** The explicit step: its guard, its target phase and its own timing function. */
  function Perform(cfg: PhaseConfig, t: Table, a: Action, now: U64): Table {
    match a
    case OpenRound => Table(SaturatingAdd(t.roundId, 1), Betting, NewRoundTiming(cfg, now))
    case Lock => t.(phase := Locked, endsAt := LockedPhaseTiming(cfg, now))
    case Reveal => t.(phase := Payout, endsAt := PayoutPhaseTiming(cfg, now))
    case Finalize => t.(phase := Cooldown, endsAt := CooldownPhaseTiming(cfg, now))
  }

  /** One automatic transition, if due. */
  function Advance(cfg: PhaseConfig, t: Table, now: U64): Table {
    match CheckTransition(cfg, t.phase, t.endsAt, now)
    case NoTransition => t
    case TransitionTo(phase, endsAt) => t.(phase := phase, endsAt := endsAt)
  }

  /** The automatic transitions refine the explicit steps: one check does what Lock or Finalize
      does, and does it exactly when that step is enabled; the reveal step is two checks at the same
      instant, the first of which enters and the second leaves the instantaneous Rolling phase. */
  lemma ChecksRefineSteps(cfg: PhaseConfig, t: Table, now: U64)
    ensures t.phase.Betting? ==>
              Advance(cfg, t, now) == if Enabled(t, Lock, now) then Perform(cfg, t, Lock, now) else t
    ensures t.phase.Locked? ==>
              Advance(cfg, Advance(cfg, t, now), now) ==
              if Enabled(t, Reveal, now) then Perform(cfg, t, Reveal, now) else t
    ensures t.phase.Payout? ==>
              Advance(cfg, t, now) == if Enabled(t, Finalize, now) then Perform(cfg, t, Finalize, now) else t
    ensures t.phase.Cooldown? ==> Advance(cfg, t, now) == t
    ensures t.phase.Locked? && Enabled(t, Reveal, now) ==>
              Advance(cfg, t, now).phase.Rolling? && Advance(cfg, t, now).endsAt == now
  {
  }

  /** In a started round at most one of betting and the four steps is possible at any instant. */
  lemma AtMostOneEnabled(t: Table, a: Action, b: Action, now: U64)
    requires t.roundId != 0 && Enabled(t, a, now)
    ensures !IsBettingOpen(t.phase, t.endsAt, now)
    ensures Enabled(t, b, now) ==> a == b
  {
  }

  /** What is possible in a started round, phase by phase: before its end only betting, in Betting; from its end
      on, in each phase but the instantaneous Rolling, the one step that leaves it. */
  lemma PossibleExactly(t: Table, a: Action, now: U64)
    requires t.roundId != 0
    ensures IsBettingOpen(t.phase, t.endsAt, now) <==> t.phase == Betting && now < t.endsAt
    ensures now < t.endsAt ==> !Enabled(t, a, now)
    ensures now >= t.endsAt ==>
              (Enabled(t, a, now) <==>
                 match t.phase
                 case Betting => a == Lock
                 case Locked => a == Reveal
                 case Rolling => false
                 case Payout => a == Finalize
                 case Cooldown => a == OpenRound)
  {
  }

  /** Before any round has started, one can always be opened. */
  lemma FirstRound(phase: Phase, endsAt: U64, now: U64)
    ensures Enabled(Table(0, phase, endsAt), OpenRound, now)
  {
  }

  /** The step that leaves each phase enters the next one for that phase's configured time. */
  lemma StepTimes(cfg: PhaseConfig, t: Table, now: U64)
    ensures Perform(cfg, t, OpenRound, now) ==
            Table(Min(U64_MAX, t.roundId + 1), Betting, Min(U64_MAX, now + cfg.bettingMs))
    ensures Perform(cfg, t, Lock, now) == Table(t.roundId, Locked, Min(U64_MAX, now + cfg.lockMs))
    ensures Perform(cfg, t, Reveal, now) == Table(t.roundId, Payout, Min(U64_MAX, now + cfg.payoutMs))
    ensures Perform(cfg, t, Finalize, now) == Table(t.roundId, Cooldown, Min(U64_MAX, now + cfg.cooldownMs))
    ensures TotalRoundDuration(cfg) == Min(U64_MAX, cfg.bettingMs + cfg.lockMs + cfg.payoutMs + cfg.cooldownMs)
  {
  }

  // ----- a polled table

  /** One poll: open the next round if possible, otherwise advance if due. */
  function Poll(cfg: PhaseConfig, t: Table, now: U64): Table {
    if Enabled(t, OpenRound, now) then Perform(cfg, t, OpenRound, now) else Advance(cfg, t, now)
  }

  function Polled(cfg: PhaseConfig, t: Table, times: seq<U64>, n: nat): Table
    requires n <= |times|
  {
    if n == 0 then t else Poll(cfg, Polled(cfg, t, times, n - 1), times[n - 1])
  }

  /** How many transitions, and how long at least, from the start of a round to a phase of it. */
  function Rank(phase: Phase): nat {
    match phase
    case Betting => 0
    case Locked => 1
    case Rolling => 2
    case Payout => 3
    case Cooldown => 4
  }

  function TimeBefore(cfg: PhaseConfig, phase: Phase): nat {
    match phase
    case Betting => 0
    case Locked => cfg.bettingMs
    case Rolling => cfg.bettingMs + cfg.lockMs
    case Payout => cfg.bettingMs + cfg.lockMs
    case Cooldown => cfg.bettingMs + cfg.lockMs + cfg.payoutMs
  }

  /** A table polled at `last` in the round `id` that began at `began`: when its phase was entered, and
      that the phase was not over at `last` unless it was entered just then. */
  ghost predicate OnTime(cfg: PhaseConfig, t: Table, id: U64, began: nat, interval: nat, last: nat) {
    var entered := t.endsAt - DurationFor(cfg, t.phase);
    && t.roundId == id
    && began + TimeBefore(cfg, t.phase) <= entered <= began + TimeBefore(cfg, t.phase) + Rank(t.phase) * interval
    && entered <= last
    && (last < t.endsAt || last == entered)
  }

  ghost predicate Unsaturated(cfg: PhaseConfig, now: nat) {
    now + cfg.bettingMs + cfg.lockMs + cfg.payoutMs + cfg.cooldownMs <= U64_MAX
  }

  lemma PollOnTime(cfg: PhaseConfig, t: Table, id: U64, began: nat, interval: nat, last: nat, now: U64)
    requires 0 < id < U64_MAX && OnTime(cfg, t, id, began, interval, last)
    requires last <= now <= last + interval && Unsaturated(cfg, now)
    ensures
      var u := Poll(cfg, t, now);
      if t.phase.Cooldown? && now >= t.endsAt
      then u == Table(id + 1, Betting, now + cfg.bettingMs) &&
           TotalRoundDuration(cfg) <= now - began <= TotalRoundDuration(cfg) + 5 * interval
      else OnTime(cfg, u, id, began, interval, now) && (u.phase == t.phase || Some(u.phase) == NextPhase(t.phase))
  {
    hide OnTime;
    if t.phase.Cooldown? && now >= t.endsAt {
      PollEnds(cfg, t, id, began, interval, last, now);
    } else if now < t.endsAt {
      PollStays(cfg, t, id, began, interval, last, now);
    } else {
      PollMovesOn(cfg, t, id, began, interval, last, now);
    }
  }

  lemma PollEnds(cfg: PhaseConfig, t: Table, id: U64, began: nat, interval: nat, last: nat, now: U64)
    requires 0 < id < U64_MAX && OnTime(cfg, t, id, began, interval, last)
    requires last <= now <= last + interval && Unsaturated(cfg, now) && t.phase.Cooldown? && now >= t.endsAt
    ensures Poll(cfg, t, now) == Table(id + 1, Betting, now + cfg.bettingMs)
    ensures TotalRoundDuration(cfg) <= now - began <= TotalRoundDuration(cfg) + 5 * interval
  {
  }

  lemma PollStays(cfg: PhaseConfig, t: Table, id: U64, began: nat, interval: nat, last: nat, now: U64)
    requires 0 < id && OnTime(cfg, t, id, began, interval, last) && last <= now < t.endsAt
    ensures Poll(cfg, t, now) == t && OnTime(cfg, t, id, began, interval, now)
  {
  }

  lemma PollMovesOn(cfg: PhaseConfig, t: Table, id: U64, began: nat, interval: nat, last: nat, now: U64)
    requires 0 < id && OnTime(cfg, t, id, began, interval, last)
    requires last <= now <= last + interval && Unsaturated(cfg, now) && !t.phase.Cooldown? && now >= t.endsAt
    ensures
      var u := Poll(cfg, t, now);
      OnTime(cfg, u, id, began, interval, now) && Some(u.phase) == NextPhase(t.phase)
  {
  }

  /** A round is polled at these times, at most `interval` apart, starting when it began. */
  ghost predicate PolledRound(cfg: PhaseConfig, began: U64, interval: nat, times: seq<U64>) {
    && (forall i :: 0 <= i < |times| ==>
          (if i == 0 then began else times[i - 1]) <= times[i] <= (if i == 0 then began else times[i - 1]) + interval)
    && (forall i :: 0 <= i < |times| ==> Unsaturated(cfg, times[i]))
  }

  lemma {:induction false} RoundStaysOnTime(cfg: PhaseConfig, id: U64, began: U64, interval: nat, times: seq<U64>,
                                            n: nat)
    requires 0 < id < U64_MAX && Unsaturated(cfg, began)
    requires PolledRound(cfg, began, interval, times) && n <= |times|
    requires
      var start := Table(id, Betting, began + cfg.bettingMs);
      forall k :: 0 <= k <= n ==> Polled(cfg, start, times, k).roundId == id
    ensures
      var start := Table(id, Betting, began + cfg.bettingMs);
      OnTime(cfg, Polled(cfg, start, times, n), id, began, interval, if n == 0 then began else times[n - 1])
  {
    hide Poll;
    if n > 0 {
      RoundStaysOnTime(cfg, id, began, interval, times, n - 1);
      var t := Polled(cfg, Table(id, Betting, began + cfg.bettingMs), times, n - 1);
      PollOnTime(cfg, t, id, began, interval, if n == 1 then began else times[n - 2], times[n - 1]);
      assert Polled(cfg, Table(id, Betting, began + cfg.bettingMs), times, n).roundId == id;
    }
  }

  /** The length of a round: if the table is still in round `id` after n polls and the next poll opens
      round `id + 1`, that poll comes no sooner than the configured total after the round began and
      no later than that plus one polling interval for each of its five transitions. */
  lemma RoundDuration(cfg: PhaseConfig, id: U64, began: U64, interval: nat, times: seq<U64>, n: nat)
    requires 0 < id < U64_MAX && Unsaturated(cfg, began)
    requires PolledRound(cfg, began, interval, times) && n < |times|
    requires
      var start := Table(id, Betting, began + cfg.bettingMs);
      && (forall k :: 0 <= k <= n ==> Polled(cfg, start, times, k).roundId == id)
      && Polled(cfg, start, times, n + 1).roundId != id
    ensures TotalRoundDuration(cfg) <= times[n] - began <= TotalRoundDuration(cfg) + 5 * interval
  {
    RoundStaysOnTime(cfg, id, began, interval, times, n);
    var t := Polled(cfg, Table(id, Betting, began + cfg.bettingMs), times, n);
    PollOnTime(cfg, t, id, began, interval, if n == 0 then began else times[n - 1], times[n]);
  }

  /** A round cannot stall: polled long enough, it gives way to the next one. */
  lemma RoundEnds(cfg: PhaseConfig, id: U64, began: U64, interval: nat, times: seq<U64>, n: nat)
    requires 0 < id < U64_MAX && Unsaturated(cfg, began)
    requires PolledRound(cfg, began, interval, times) && 0 < n <= |times|
    requires times[n - 1] - began > TotalRoundDuration(cfg) + 5 * interval
    ensures
      var start := Table(id, Betting, began + cfg.bettingMs);
      exists k :: 0 <= k <= n && Polled(cfg, start, times, k).roundId != id
  {
    var start := Table(id, Betting, began + cfg.bettingMs);
    if forall k :: 0 <= k <= n ==> Polled(cfg, start, times, k).roundId == id {
      RoundStaysOnTime(cfg, id, began, interval, times, n);
    }
  }
}
