/** Every field of a replayed round, and exactly when a replay fails, in terms of the events alone. */
module ReplayFields {
  import opened Common
  import opened RoundScheduler
  import opened RoundEvents
  import opened RoundReplay

  datatype Mark = LockMark | OutcomeMark | FinalMark

  function MarkOf(e: Event): Option<Mark> {
    match e
    case RoundLocked(_, _, _) => Some(LockMark)
    case Outcome(_) => Some(OutcomeMark)
    case Finalized(_, _) => Some(FinalMark)
    case _ => None
  }

  /** The round of the last opening among the first n events; the one replayed from if there is none. */
  function Opening(r: Round, events: seq<Event>, n: nat): Round
    requires n <= |events|
  {
    if n == 0 then r else if events[n - 1].RoundOpened? then events[n - 1].round else Opening(r, events, n - 1)
  }

  /** The position just after the last such mark since the last opening; zero if there is none. */
  function LastMark(events: seq<Event>, marks: set<Mark>, n: nat): (at: nat)
    requires n <= |events|
    ensures at <= n
    ensures at > 0 ==> MarkOf(events[at - 1]).Some? && MarkOf(events[at - 1]).value in marks
  {
    if n == 0 || events[n - 1].RoundOpened? then 0
    else if MarkOf(events[n - 1]).Some? && MarkOf(events[n - 1]).value in marks then n
    else LastMark(events, marks, n - 1)
  }

  /** What the last lock, outcome or finalization since the opening says of the phase. */
  function PhaseAfter(r: Round, events: seq<Event>, n: nat): Phase
    requires n <= |events|
  {
    var at := LastMark(events, {LockMark, OutcomeMark, FinalMark}, n);
    if at == 0 then Opening(r, events, n).phase
    else
      match events[at - 1]
      case RoundLocked(_, _, _) => Locked
      case Outcome(o) => o.phase
      case _ => Cooldown
  }

  /** What the last lock or outcome since the opening says of the end time. */
  function EndsAfter(r: Round, events: seq<Event>, n: nat): U64
    requires n <= |events|
  {
    var at := LastMark(events, {LockMark, OutcomeMark}, n);
    if at == 0 then Opening(r, events, n).endsAt
    else
      match events[at - 1]
      case RoundLocked(_, _, endsAt) => endsAt
      case Outcome(o) => o.endsAt
      case _ => 0
  }

  /** The round reported by the last outcome since the opening; the opening if there was none. */
  function Reported(r: Round, events: seq<Event>, n: nat): Round
    requires n <= |events|
  {
    var at := LastMark(events, {OutcomeMark}, n);
    if at == 0 then Opening(r, events, n) else events[at - 1].round
  }

  /** The phase and end time are those of the last marks, dice, seed and points those of the last outcome, and the
      rest is as opened. */
  ghost predicate FieldsAre(r: Round, events: seq<Event>, n: nat, t: Round)
    requires n <= |events|
  {
    var opening, reported := Opening(r, events, n), Reported(r, events, n);
    && t.phase == PhaseAfter(r, events, n) && t.endsAt == EndsAfter(r, events, n)
    && t.d1 == reported.d1 && t.d2 == reported.d2 && t.rollSeed == reported.rollSeed
    && t.mainPoint == reported.mainPoint && t.madePointsMask == reported.madePointsMask
    && t.epochPointEstablished == reported.epochPointEstablished
    && t.game == opening.game && t.roundId == opening.roundId
    && t.rngCommit == opening.rngCommit && t.fieldPaytable == opening.fieldPaytable
  }

  lemma PhaseStep(r: Round, events: seq<Event>, n: nat)
    requires n < |events|
    ensures PhaseAfter(r, events, n + 1) ==
            match events[n]
            case RoundOpened(round) => round.phase
            case RoundLocked(_, _, _) => Locked
            case Outcome(o) => o.phase
            case Finalized(_, _) => Cooldown
            case _ => PhaseAfter(r, events, n)
  {
  }

  lemma EndsStep(r: Round, events: seq<Event>, n: nat)
    requires n < |events|
    ensures EndsAfter(r, events, n + 1) ==
            match events[n]
            case RoundOpened(round) => round.endsAt
            case RoundLocked(_, _, endsAt) => endsAt
            case Outcome(o) => o.endsAt
            case _ => EndsAfter(r, events, n)
  {
  }

  lemma ReportedStep(r: Round, events: seq<Event>, n: nat)
    requires n < |events|
    ensures Reported(r, events, n + 1) ==
            match events[n]
            case RoundOpened(round) => round
            case Outcome(o) => o
            case _ => Reported(r, events, n)
  {
  }

  lemma FieldsStep(r: Round, events: seq<Event>, n: nat, t: Round)
    requires n < |events| && FieldsAre(r, events, n, t) && ApplyEvent(t, events[n]).Ok?
    ensures FieldsAre(r, events, n + 1, ApplyEvent(t, events[n]).value)
  {
    hide PhaseAfter, EndsAfter, Reported, AccumulateFirst;
    PhaseStep(r, events, n);
    EndsStep(r, events, n);
    ReportedStep(r, events, n);
  }

  /** In every replay that succeeds, each field of the round is what the last event that speaks of it says. */
  lemma {:induction false} ReplayedFields(r: Round, events: seq<Event>, n: nat)
    requires n <= |events| && ReplayFirst(r, events, n).Ok?
    ensures FieldsAre(r, events, n, ReplayFirst(r, events, n).value)
  {
    hide FieldsAre, ApplyEvent;
    if n == 0 {
      FieldsAtFirst(r, events);
    } else {
      ReplayedFields(r, events, n - 1);
      FieldsStep(r, events, n - 1, ReplayFirst(r, events, n - 1).value);
    }
  }

  lemma FieldsAtFirst(r: Round, events: seq<Event>)
    ensures FieldsAre(r, events, 0, r)
  {
  }

  // ----- when a replay fails

  /** The round id an event is about, if it has to be that of the round. */
  function IdOf(e: Event): Option<U64> {
    match e
    case BetAccepted(_, id, _, _) => Some(id)
    case RoundLocked(_, id, _) => Some(id)
    case Outcome(o) => Some(o.roundId)
    case PlayerSettled(_, id, _, _, _) => Some(id)
    case Finalized(_, id) => Some(id)
    case _ => None
  }

  /** The game an event is about, if it has to be that of the round. */
  function GameIn(e: Event): Option<GameType> {
    match e
    case RoundLocked(game, _, _) => Some(game)
    case Outcome(o) => Some(o.game)
    case Finalized(game, _) => Some(game)
    case _ => None
  }

  /** The event is about the round that is open. */
  predicate Fits(e: Event, open: Round) {
    (IdOf(e).Some? ==> IdOf(e).value == open.roundId) && (GameIn(e).Some? ==> GameIn(e).value == open.game)
  }

  /** What is wrong with an event that does not fit. */
  function Misfit(e: Event, open: Round): ReplayError
    requires !Fits(e, open)
  {
    if IdOf(e).Some? && IdOf(e).value != open.roundId then RoundMismatch(open.roundId, IdOf(e).value)
    else GameTypeMismatch(open.game, GameIn(e).value)
  }

  lemma AppliesExactly(t: Round, e: Event)
    ensures ApplyEvent(t, e).Ok? <==> Fits(e, t)
    ensures !Fits(e, t) ==> ApplyEvent(t, e) == Err(Misfit(e, t))
  {
    hide AccumulateFirst;
  }

  /** The first of the first n events that is not about the round opened last before it; n if all are. */
  function FirstMisfit(r: Round, events: seq<Event>, n: nat): (i: nat)
    requires n <= |events|
    ensures i <= n && (i < n ==> !Fits(events[i], Opening(r, events, i)))
    ensures forall j :: 0 <= j < i ==> Fits(events[j], Opening(r, events, j))
  {
    hide Fits, Opening;
    if n == 0 then 0
    else
      var i := FirstMisfit(r, events, n - 1);
      if i < n - 1 then i else if Fits(events[n - 1], Opening(r, events, n - 1)) then n else n - 1
  }

  /** A replay succeeds if and only if every event is about the round opened last before it; otherwise it fails with
      what is wrong with the first event that is not. */
  lemma {:induction false} ReplaysExactly(r: Round, events: seq<Event>, n: nat)
    requires n <= |events|
    ensures
      var i := FirstMisfit(r, events, n);
      if i == n then ReplayFirst(r, events, n).Ok?
      else ReplayFirst(r, events, n) == Err(Misfit(events[i], Opening(r, events, i)))
  {
    hide ApplyEvent, Fits, Misfit, Opening;
    if n > 0 {
      ReplaysExactly(r, events, n - 1);
      if FirstMisfit(r, events, n - 1) == n - 1 {
        var t := ReplayFirst(r, events, n - 1).value;
        ReplayedFields(r, events, n - 1);
        AppliesExactly(t, events[n - 1]);
        SameFit(t, Opening(r, events, n - 1), events[n - 1]);
      }
    }
  }

  lemma SameFit(t: Round, open: Round, e: Event)
    requires t.game == open.game && t.roundId == open.roundId
    ensures Fits(e, t) <==> Fits(e, open)
    ensures !Fits(e, t) ==> Misfit(e, t) == Misfit(e, open)
  {
  }
}
