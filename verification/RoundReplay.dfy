/** Events of global-table rounds and the running totals of their bets. */
module RoundEvents {
  import opened Common
  import opened Sums
  import opened RoundScheduler

  type GameType = nat
  type PublicKey = nat
  type Balances = nat

  datatype Bet = Bet(betType: nat, target: nat, amount: U64)

  datatype Total = Total(betType: nat, target: nat, amount: U64)

  datatype Round = Round(
    game: GameType, roundId: U64, phase: Phase, endsAt: U64,
    mainPoint: nat, d1: nat, d2: nat, madePointsMask: nat, epochPointEstablished: bool, fieldPaytable: nat,
    rngCommit: seq<nat>, rollSeed: seq<nat>, totals: seq<Total>)

  datatype Event =
    | RoundOpened(round: Round)
    | BetAccepted(player: PublicKey, roundId: U64, bets: seq<Bet>, balances: Balances)
    | BetRejected(player: PublicKey, roundId: U64)
    | RoundLocked(game: GameType, roundId: U64, endsAt: U64)
    | Outcome(round: Round)
    | PlayerSettled(player: PublicKey, roundId: U64, payout: int, balances: Balances, myBets: seq<Bet>)
    | Finalized(game: GameType, roundId: U64)
    | OtherEvent(payload: nat)

  // ----- totals by (bet type, target)

  datatype BetKey = BetKey(betType: nat, target: nat)

  function KeyOf(b: Bet): BetKey {
    BetKey(b.betType, b.target)
  }

  function TotalKey(t: Total): BetKey {
    BetKey(t.betType, t.target)
  }

  /** The first total of this key, from the i-th on. */
  function Find(totals: seq<Total>, key: BetKey, i: nat): (r: Option<nat>)
    requires i <= |totals|
    ensures r.Some? ==> i <= r.value < |totals| && TotalKey(totals[r.value]) == key
    ensures r.None? ==> forall j :: i <= j < |totals| ==> TotalKey(totals[j]) != key
    decreases |totals| - i
  {
    if i == |totals| then None else if TotalKey(totals[i]) == key then Some(i) else Find(totals, key, i + 1)
  }

  function Accumulate(totals: seq<Total>, b: Bet): seq<Total> {
    match Find(totals, KeyOf(b), 0)
    case Some(i) => totals[i := totals[i].(amount := SaturatingAdd(totals[i].amount, b.amount))]
    case None => totals + [Total(b.betType, b.target, b.amount)]
  }

  /** The first n bets added to the totals. */
  function AccumulateFirst(totals: seq<Total>, bets: seq<Bet>, n: nat): seq<Total>
    requires n <= |bets|
  {
    if n == 0 then totals else Accumulate(AccumulateFirst(totals, bets, n - 1), bets[n - 1])
  }

  method AccumulateBets(totals: seq<Total>, bets: seq<Bet>) returns (r: seq<Total>)
    ensures r == AccumulateFirst(totals, bets, |bets|)
  {
    r := totals;
    for n := 0 to |bets|
      invariant r == AccumulateFirst(totals, bets, n)
    {
      var i := 0;
      while i < |r| && !(r[i].betType == bets[n].betType && r[i].target == bets[n].target)
        invariant 0 <= i <= |r| && Find(r, KeyOf(bets[n]), i) == Find(r, KeyOf(bets[n]), 0)
      {
        i := i + 1;
      }
      if i < |r| {
        r := r[i := r[i].(amount := SaturatingAdd(r[i].amount, bets[n].amount))];
      } else {
        r := r + [Total(bets[n].betType, bets[n].target, bets[n].amount)];
      }
    }
  }

  // ----- what the totals hold

  ghost predicate EachKeyOnce(totals: seq<Total>) {
    forall i, j :: 0 <= i < j < |totals| ==> TotalKey(totals[i]) != TotalKey(totals[j])
  }

  /** The amount recorded for a key; zero if there is none. */
  function AmountFor(totals: seq<Total>, key: BetKey): nat {
    match Find(totals, key, 0)
    case Some(i) => totals[i].amount
    case None => 0
  }

  predicate HasKey(totals: seq<Total>, key: BetKey) {
    Find(totals, key, 0).Some?
  }

  /** What a bet adds to a key. */
  function AmountOn(key: BetKey): Bet -> nat {
    (b: Bet) => if KeyOf(b) == key then b.amount else 0
  }

  predicate BetOn(bets: seq<Bet>, key: BetKey, n: nat)
    requires n <= |bets|
  {
    exists i :: 0 <= i < n && KeyOf(bets[i]) == key
  }

  lemma FindUnique(totals: seq<Total>, key: BetKey, i: nat)
    requires EachKeyOnce(totals) && i < |totals| && TotalKey(totals[i]) == key
    ensures Find(totals, key, 0) == Some(i)
  {
    hide Find;
    var r := Find(totals, key, 0);
    assert r.Some?;
  }

  lemma AccumulateOne(totals: seq<Total>, b: Bet, key: BetKey)
    requires EachKeyOnce(totals)
    ensures EachKeyOnce(Accumulate(totals, b))
    ensures AmountFor(Accumulate(totals, b), key) ==
            if KeyOf(b) == key then SaturatingAdd(AmountFor(totals, key), b.amount) else AmountFor(totals, key)
    ensures HasKey(Accumulate(totals, b), key) <==> HasKey(totals, key) || KeyOf(b) == key
  {
    hide Find;
    var r := Accumulate(totals, b);
    assert EachKeyOnce(r);
    var at := Find(totals, key, 0);
    if at.Some? {
      assert TotalKey(r[at.value]) == key;
      FindUnique(r, key, at.value);
    } else if KeyOf(b) == key {
      assert TotalKey(r[|totals|]) == key;
      FindUnique(r, key, |totals|);
    }
  }

  /** The totals hold each key at most once, a key exactly when it was there or was bet on, and for
      each key the sum of what was there and all bets on it, saturated once. */
  lemma {:induction false} TotalsAreSums(totals: seq<Total>, bets: seq<Bet>, n: nat, key: BetKey)
    requires EachKeyOnce(totals) && n <= |bets|
    ensures
      var r := AccumulateFirst(totals, bets, n);
      && EachKeyOnce(r)
      && AmountFor(r, key) == Min(U64_MAX, AmountFor(totals, key) + Sum(bets, AmountOn(key), n))
      && (HasKey(r, key) <==> HasKey(totals, key) || BetOn(bets, key, n))
  {
    hide Accumulate, EachKeyOnce, AmountFor, HasKey;
    AmountBound(totals, key);
    if n > 0 {
      TotalsAreSums(totals, bets, n - 1, key);
      AccumulateOne(AccumulateFirst(totals, bets, n - 1), bets[n - 1], key);
      if BetOn(bets, key, n) && !BetOn(bets, key, n - 1) {
        assert KeyOf(bets[n - 1]) == key;
      }
      if KeyOf(bets[n - 1]) == key {
        assert BetOn(bets, key, n);
      }
    }
  }

  /** How many bets it took until the key was bet on. */
  ghost function FirstBet(bets: seq<Bet>, key: BetKey, n: nat): (r: nat)
    requires n <= |bets|
    ensures r <= n
  {
    if n == 0 then 0 else if BetOn(bets, key, n - 1) then FirstBet(bets, key, n - 1) else n
  }

  /** The keys that were there keep their places, and the new ones follow in the order in which they were first
      bet on. */
  ghost predicate KeysInOrder(totals: seq<Total>, bets: seq<Bet>, n: nat, r: seq<Total>)
    requires n <= |bets|
  {
    && |totals| <= |r|
    && (forall i :: 0 <= i < |totals| ==> TotalKey(r[i]) == TotalKey(totals[i]))
    && (forall i :: |totals| <= i < |r| ==> BetOn(bets, TotalKey(r[i]), n))
    && (forall i, j :: |totals| <= i < j < |r| ==>
          FirstBet(bets, TotalKey(r[i]), n) < FirstBet(bets, TotalKey(r[j]), n))
  }

  lemma AccumulateKeys(totals: seq<Total>, b: Bet)
    ensures
      var r := Accumulate(totals, b);
      && |totals| <= |r| <= |totals| + 1
      && (forall i :: 0 <= i < |totals| ==> TotalKey(r[i]) == TotalKey(totals[i]))
      && (|r| > |totals| ==> TotalKey(r[|totals|]) == KeyOf(b) && !HasKey(totals, KeyOf(b)))
  {
    hide Find;
  }

  lemma {:induction false} TotalsInOrder(totals: seq<Total>, bets: seq<Bet>, n: nat)
    requires EachKeyOnce(totals) && n <= |bets|
    ensures KeysInOrder(totals, bets, n, AccumulateFirst(totals, bets, n))
  {
    hide Accumulate, HasKey, EachKeyOnce, BetOn;
    if n > 0 {
      TotalsInOrder(totals, bets, n - 1);
      var before, r := AccumulateFirst(totals, bets, n - 1), AccumulateFirst(totals, bets, n);
      AccumulateKeys(before, bets[n - 1]);
      forall i | |totals| <= i < |r|
        ensures BetOn(bets, TotalKey(r[i]), n)
        ensures FirstBet(bets, TotalKey(r[i]), n) ==
                if i < |before| then FirstBet(bets, TotalKey(before[i]), n - 1) else n
      {
        TotalsAreSums(totals, bets, n - 1, TotalKey(r[i]));
        BetOnLater(bets, TotalKey(r[i]), n);
      }
    }
  }

  lemma BetOnLater(bets: seq<Bet>, key: BetKey, n: nat)
    requires 0 < n <= |bets|
    ensures BetOn(bets, key, n) <==> BetOn(bets, key, n - 1) || KeyOf(bets[n - 1]) == key
  {
  }

  lemma AmountBound(totals: seq<Total>, key: BetKey)
    ensures AmountFor(totals, key) <= U64_MAX
  {
  }

  // ----- the order of bets does not matter

  lemma MembersAgree(a: seq<Bet>, b: seq<Bet>, key: BetKey)
    requires multiset(a) == multiset(b)
    ensures BetOn(a, key, |a|) <==> BetOn(b, key, |b|)
  {
    if BetOn(a, key, |a|) {
      var i :| 0 <= i < |a| && KeyOf(a[i]) == key;
      assert a[i] in multiset(b);
    }
    if BetOn(b, key, |b|) {
      var i :| 0 <= i < |b| && KeyOf(b[i]) == key;
      assert b[i] in multiset(a);
    }
  }

  /** Bets accepted in any order leave the same amount for every key. */
  lemma TotalsIgnoreOrder(totals: seq<Total>, a: seq<Bet>, b: seq<Bet>, key: BetKey)
    requires EachKeyOnce(totals) && multiset(a) == multiset(b)
    ensures AmountFor(AccumulateFirst(totals, a, |a|), key) == AmountFor(AccumulateFirst(totals, b, |b|), key)
    ensures HasKey(AccumulateFirst(totals, a, |a|), key) == HasKey(AccumulateFirst(totals, b, |b|), key)
  {
    hide AmountFor, HasKey, AccumulateFirst, EachKeyOnce;
    TotalsAreSums(totals, a, |a|, key);
    TotalsAreSums(totals, b, |b|, key);
    SumByMultiset(a, b, AmountOn(key));
    MembersAgree(a, b, key);
  }

  // ----- the grand total

  function TotalAmount(): Total -> nat {
    (t: Total) => t.amount
  }

  function BetAmount(): Bet -> nat {
    (b: Bet) => b.amount
  }

  function TotalWagered(totals: seq<Total>): nat {
    Sum(totals, TotalAmount(), |totals|)
  }

  function BetSum(bets: seq<Bet>): nat {
    Sum(bets, BetAmount(), |bets|)
  }

  lemma WageredAccumulate(totals: seq<Total>, b: Bet)
    requires TotalWagered(totals) + b.amount <= U64_MAX
    ensures
      var r := Accumulate(totals, b);
      TotalWagered(r) == TotalWagered(totals) + b.amount
  {
    hide Find;
    var at := Find(totals, KeyOf(b), 0);
    if at.Some? {
      var i := at.value;
      SumUpdate(totals, i, totals[i].(amount := SaturatingAdd(totals[i].amount, b.amount)), TotalAmount(), |totals|);
    } else {
      SumPrefix(totals, totals + [Total(b.betType, b.target, b.amount)], TotalAmount(), |totals|);
    }
  }

  /** Without saturation the grand total grows by exactly what was bet. */
  lemma {:induction false} WageredIsConserved(totals: seq<Total>, bets: seq<Bet>, n: nat)
    requires n <= |bets| && TotalWagered(totals) + Sum(bets, BetAmount(), n) <= U64_MAX
    ensures
      var r := AccumulateFirst(totals, bets, n);
      TotalWagered(r) == TotalWagered(totals) + Sum(bets, BetAmount(), n)
  {
    hide Accumulate;
    if n > 0 {
      WageredIsConserved(totals, bets, n - 1);
      WageredAccumulate(AccumulateFirst(totals, bets, n - 1), bets[n - 1]);
    }
  }
}

/** Snapshots, replay from them, and the filter that picks one round out of a log. */
module RoundReplay {
  import opened Common
  import opened Picking
  import opened RoundScheduler
  import opened RoundEvents

  datatype ReplayError =
    | RoundMismatch(expected: U64, got: U64)
    | GameTypeMismatch(expectedGame: GameType, gotGame: GameType)
    | InvalidCommitLength(length: nat)
    | InvalidSeedLength(length: nat)

  datatype RoundSnapshot = RoundSnapshot(
    game: GameType, roundId: U64, phase: Phase, endsAt: U64,
    mainPoint: nat, d1: nat, d2: nat, madePointsMask: nat, epochPointEstablished: bool, fieldPaytable: nat,
    rngCommit: seq<nat>, rollSeed: seq<nat>, totals: seq<Total>)

  function FromRound(r: Round): RoundSnapshot {
    RoundSnapshot(r.game, r.roundId, r.phase, r.endsAt, r.mainPoint, r.d1, r.d2, r.madePointsMask,
                  r.epochPointEstablished, r.fieldPaytable, r.rngCommit, r.rollSeed, r.totals)
  }

  function ToRound(s: RoundSnapshot): Round {
    Round(s.game, s.roundId, s.phase, s.endsAt, s.mainPoint, s.d1, s.d2, s.madePointsMask,
          s.epochPointEstablished, s.fieldPaytable, s.rngCommit, s.rollSeed, s.totals)
  }

  predicate LengthOk(bytes: seq<nat>) {
    |bytes| == 0 || |bytes| == 32
  }

  function Validate(s: RoundSnapshot): Option<ReplayError> {
    if !LengthOk(s.rngCommit) then Some(InvalidCommitLength(|s.rngCommit|))
    else if !LengthOk(s.rollSeed) then Some(InvalidSeedLength(|s.rollSeed|))
    else None
  }

  function ApplyEvent(r: Round, e: Event): Result<Round, ReplayError> {
    match e
    case RoundOpened(round) => Ok(round)
    case BetAccepted(_, id, bets, _) =>
      if id != r.roundId then Err(RoundMismatch(r.roundId, id))
      else Ok(r.(totals := AccumulateFirst(r.totals, bets, |bets|)))
    case RoundLocked(game, id, endsAt) =>
      if id != r.roundId then Err(RoundMismatch(r.roundId, id))
      else if game != r.game then Err(GameTypeMismatch(r.game, game))
      else Ok(r.(phase := Locked, endsAt := endsAt))
    case Outcome(o) =>
      if o.roundId != r.roundId then Err(RoundMismatch(r.roundId, o.roundId))
      else if o.game != r.game then Err(GameTypeMismatch(r.game, o.game))
      else Ok(r.(phase := o.phase, endsAt := o.endsAt, rollSeed := o.rollSeed, d1 := o.d1, d2 := o.d2,
                 mainPoint := o.mainPoint, madePointsMask := o.madePointsMask,
                 epochPointEstablished := o.epochPointEstablished))
    case PlayerSettled(_, id, _, _, _) =>
      if id != r.roundId then Err(RoundMismatch(r.roundId, id)) else Ok(r)
    case Finalized(game, id) =>
      if id != r.roundId then Err(RoundMismatch(r.roundId, id))
      else if game != r.game then Err(GameTypeMismatch(r.game, game))
      else Ok(r.(phase := Cooldown))
    case BetRejected(_, _) => Ok(r)
    case OtherEvent(_) => Ok(r)
  }

  /** The round after the first n events, or the first error. */
  function ReplayFirst(r: Round, events: seq<Event>, n: nat): Result<Round, ReplayError>
    requires n <= |events|
  {
    if n == 0 then Ok(r)
    else
      match ReplayFirst(r, events, n - 1)
      case Err(e) => Err(e)
      case Ok(r') => ApplyEvent(r', events[n - 1])
  }

  function Replay(s: RoundSnapshot, events: seq<Event>): Result<Round, ReplayError> {
    var invalid := Validate(s);
    if invalid.Some? then Err(invalid.value) else ReplayFirst(ToRound(s), events, |events|)
  }

  method ReplayRoundFromEvents(s: RoundSnapshot, events: seq<Event>) returns (result: Result<Round, ReplayError>)
    ensures result == Replay(s, events)
  {
    var invalid := Validate(s);
    if invalid.Some? {
      return Err(invalid.value);
    }
    var round := ToRound(s);
    for n := 0 to |events|
      invariant ReplayFirst(ToRound(s), events, n) == Ok(round)
    {
      var next := ApplyEvent(round, events[n]);
      if next.Err? {
        ErrorPersists(ToRound(s), events, n + 1, |events|);
        return next;
      }
      round := next.value;
    }
    return Ok(round);
  }

  lemma {:induction false} ErrorPersists(r: Round, events: seq<Event>, n: nat, m: nat)
    requires n <= m <= |events| && ReplayFirst(r, events, n).Err?
    ensures ReplayFirst(r, events, m) == ReplayFirst(r, events, n)
    decreases m
  {
    if n < m {
      ErrorPersists(r, events, n, m - 1);
    }
  }

  lemma SnapshotRoundTrip(r: Round, s: RoundSnapshot)
    ensures ToRound(FromRound(r)) == r && FromRound(ToRound(s)) == s
  {
  }

  // ----- compositionality

  lemma {:induction false} ReplayPrefix(r: Round, a: seq<Event>, b: seq<Event>, n: nat)
    requires n <= |a| && n <= |b| && forall i :: 0 <= i < n ==> a[i] == b[i]
    ensures ReplayFirst(r, a, n) == ReplayFirst(r, b, n)
  {
    hide ApplyEvent;
    if n > 0 {
      ReplayPrefix(r, a, b, n - 1);
    }
  }

  /** A snapshot holds each field of the round under its own name. */
  lemma SnapshotFields(r: Round)
    ensures
      var s := FromRound(r);
      && s.game == r.game && s.roundId == r.roundId && s.phase == r.phase && s.endsAt == r.endsAt
      && s.mainPoint == r.mainPoint && s.d1 == r.d1 && s.d2 == r.d2 && s.madePointsMask == r.madePointsMask
      && s.epochPointEstablished == r.epochPointEstablished && s.fieldPaytable == r.fieldPaytable
      && s.rngCommit == r.rngCommit && s.rollSeed == r.rollSeed && s.totals == r.totals
  {
  }

  /** Replaying a list is replaying its head and then its tail from where the head left off. */
  lemma {:induction false} ReplaySplit(r: Round, a: seq<Event>, b: seq<Event>, n: nat)
    requires n <= |b|
    ensures
      ReplayFirst(r, a + b, |a| + n) ==
      match ReplayFirst(r, a, |a|) { case Err(e) => Err(e) case Ok(r') => ReplayFirst(r', b, n) }
  {
    hide ApplyEvent;
    if n == 0 {
      ReplayPrefix(r, a + b, a, |a|);
    } else {
      ReplaySplit(r, a, b, n - 1);
      assert (a + b)[|a| + n - 1] == b[n - 1];
    }
  }

  /** Replay in two parts, through a snapshot of the middle. */
  function ReplayInTwo(s: RoundSnapshot, a: seq<Event>, b: seq<Event>): Result<Round, ReplayError> {
    match Replay(s, a)
    case Err(e) => Err(e)
    case Ok(r) => Replay(FromRound(r), b)
  }

  lemma {:induction false} ReplayErrorsAreMismatches(r: Round, events: seq<Event>, n: nat)
    requires n <= |events|
    ensures
      var result := ReplayFirst(r, events, n);
      result.Err? ==> result.error.RoundMismatch? || result.error.GameTypeMismatch?
  {
    if n > 0 {
      ReplayErrorsAreMismatches(r, events, n - 1);
    }
  }

  /** Snapshot compositionality, exactly: cutting a replay at a snapshot changes nothing, not even the
      error, if and only if the replay fails before the cut or the round at the cut carries a commit
      and a seed of 0 or 32 bytes. */
  lemma SnapshotsCompose(s: RoundSnapshot, a: seq<Event>, b: seq<Event>)
    ensures ReplayInTwo(s, a, b) == Replay(s, a + b) <==>
            Replay(s, a).Err? || (LengthOk(Replay(s, a).value.rngCommit) && LengthOk(Replay(s, a).value.rollSeed))
  {
    hide ReplayFirst;
    ReplaySplit(ToRound(s), a, b, |b|);
    if Replay(s, a).Ok? {
      var r := Replay(s, a).value;
      SnapshotRoundTrip(r, s);
      ReplayErrorsAreMismatches(r, b, |b|);
    }
  }

  /** A cut that does harm: the log opens a round with a commit of one byte.  Replayed whole it succeeds; the
      snapshot after the opening is refused. */
  lemma SnapshotCutFails(s: RoundSnapshot, r: Round, byte: nat)
    requires Validate(s).None? && r.rngCommit == [byte]
    ensures
      var opening := [RoundOpened(r)];
      Replay(s, opening + []) == Ok(r) && ReplayInTwo(s, opening, []) == Err(InvalidCommitLength(1))
  {
    var opening := [RoundOpened(r)];
    assert opening + [] == opening;
    assert ReplayFirst(ToRound(s), opening, 0) == Ok(ToRound(s));
    assert Replay(s, opening) == Ok(r);
    assert |FromRound(r).rngCommit| == 1;
  }

  /** Rounds in the events carry well-formed commits and seeds. */
  ghost predicate WellFormed(events: seq<Event>) {
    forall i :: 0 <= i < |events| ==>
      && (events[i].RoundOpened? ==> LengthOk(events[i].round.rngCommit) && LengthOk(events[i].round.rollSeed))
      && (events[i].Outcome? ==> LengthOk(events[i].round.rollSeed))
  }

  /** With well-formed events every cut is harmless. */
  lemma WellFormedCompose(s: RoundSnapshot, a: seq<Event>, b: seq<Event>)
    requires WellFormed(a)
    ensures ReplayInTwo(s, a, b) == Replay(s, a + b)
  {
    hide ReplayFirst;
    SnapshotsCompose(s, a, b);
    if Replay(s, a).Ok? {
      KeepsLengths(ToRound(s), a, |a|);
    }
  }

  lemma {:induction false} KeepsLengths(r: Round, events: seq<Event>, n: nat)
    requires n <= |events| && WellFormed(events) && LengthOk(r.rngCommit) && LengthOk(r.rollSeed)
    ensures
      var result := ReplayFirst(r, events, n);
      result.Ok? ==> LengthOk(result.value.rngCommit) && LengthOk(result.value.rollSeed)
  {
    if n > 0 {
      KeepsLengths(r, events, n - 1);
      assert events[n - 1].RoundOpened? ==> LengthOk(events[n - 1].round.rngCommit);
    }
  }

  // ----- filtering

  predicate Matches(e: Event, game: GameType, id: U64) {
    match e
    case RoundOpened(round) => round.game == game && round.roundId == id
    case BetAccepted(_, rid, _, _) => rid == id
    case BetRejected(_, rid) => rid == id
    case RoundLocked(g, rid, _) => g == game && rid == id
    case Outcome(round) => round.game == game && round.roundId == id
    case PlayerSettled(_, rid, _, _, _) => rid == id
    case Finalized(g, rid) => g == game && rid == id
    case OtherEvent(_) => false
  }

  function FilterFirst(events: seq<Event>, game: GameType, id: U64, n: nat): (r: seq<Event>)
    requires n <= |events|
    ensures forall i :: 0 <= i < |r| ==> Matches(r[i], game, id)
  {
    if n == 0 then []
    else
      var init := FilterFirst(events, game, id, n - 1);
      if Matches(events[n - 1], game, id) then init + [events[n - 1]] else init
  }

  /** The event speaks of this round id, and of no other game. */
  predicate SpeaksOf(e: Event, game: GameType, id: U64) {
    && (match e
        case RoundOpened(r) => r.roundId == id
        case Outcome(r) => r.roundId == id
        case OtherEvent(_) => false
        case BetAccepted(_, i, _, _) => i == id
        case BetRejected(_, i) => i == id
        case PlayerSettled(_, i, _, _, _) => i == id
        case RoundLocked(_, i, _) => i == id
        case Finalized(_, i) => i == id)
    && (e.RoundOpened? || e.Outcome? ==> e.round.game == game)
    && (e.RoundLocked? || e.Finalized? ==> e.game == game)
  }

  function SpeakingOf(game: GameType, id: U64): Event -> bool {
    (e: Event) => SpeaksOf(e, game, id)
  }

  /** The filter keeps exactly the events that speak of the round, in order. */
  lemma {:induction false} FilterExactly(events: seq<Event>, game: GameType, id: U64, n: nat) returns (at: seq<nat>)
    requires n <= |events|
    ensures Picks(events, SpeakingOf(game, id), n, FilterFirst(events, game, id, n), at)
  {
    hide Picks, SpeaksOf, Matches;
    if n == 0 {
      at := [];
      PickNothing(events, SpeakingOf(game, id));
    } else {
      at := FilterExactly(events, game, id, n - 1);
      MatchesSpeaks(events[n - 1], game, id);
      if Matches(events[n - 1], game, id) {
        PickNext(events, SpeakingOf(game, id), n - 1, FilterFirst(events, game, id, n - 1), at);
        at := at + [n - 1];
      } else {
        SkipNext(events, SpeakingOf(game, id), n - 1, FilterFirst(events, game, id, n - 1), at);
      }
    }
  }

  lemma MatchesSpeaks(e: Event, game: GameType, id: U64)
    ensures Matches(e, game, id) <==> SpeaksOf(e, game, id)
  {
  }

  function FilterRoundEvents(events: seq<Event>, game: GameType, id: U64): seq<Event> {
    FilterFirst(events, game, id, |events|)
  }

  lemma {:induction false} MatchingNeverFails(r: Round, events: seq<Event>, game: GameType, id: U64, n: nat)
    requires n <= |events| && r.game == game && r.roundId == id
    requires forall i :: 0 <= i < |events| ==> Matches(events[i], game, id)
    ensures
      var result := ReplayFirst(r, events, n);
      result.Ok? && result.value.game == game && result.value.roundId == id
  {
    if n > 0 {
      MatchingNeverFails(r, events, game, id, n - 1);
      assert Matches(events[n - 1], game, id);
    }
  }

  /** Filtered replay never fails: from a valid snapshot of the round, replaying any log filtered for
      that round succeeds and stays in it. */
  lemma FilteredReplaySucceeds(s: RoundSnapshot, events: seq<Event>)
    requires Validate(s).None?
    ensures
      var result := Replay(s, FilterRoundEvents(events, s.game, s.roundId));
      result.Ok? && result.value.game == s.game && result.value.roundId == s.roundId
  {
    var filtered := FilterRoundEvents(events, s.game, s.roundId);
    MatchingNeverFails(ToRound(s), filtered, s.game, s.roundId, |filtered|);
  }

  // ----- non-interference

  /** The round id an event speaks of. */
  function RoundIdOf(e: Event): Option<U64> {
    match e
    case RoundOpened(round) => Some(round.roundId)
    case BetAccepted(_, rid, _, _) => Some(rid)
    case BetRejected(_, rid) => Some(rid)
    case RoundLocked(_, rid, _) => Some(rid)
    case Outcome(round) => Some(round.roundId)
    case PlayerSettled(_, rid, _, _, _) => Some(rid)
    case Finalized(_, rid) => Some(rid)
    case OtherEvent(_) => None
  }

  /** The events of one round id, of whatever game. */
  function OfRound(events: seq<Event>, id: U64, n: nat): seq<Event>
    requires n <= |events|
  {
    if n == 0 then []
    else if RoundIdOf(events[n - 1]) == Some(id) then OfRound(events, id, n - 1) + [events[n - 1]]
    else OfRound(events, id, n - 1)
  }

  lemma {:induction false} FilterPrefix(a: seq<Event>, b: seq<Event>, game: GameType, id: U64, n: nat)
    requires n <= |a| && n <= |b| && forall i :: 0 <= i < n ==> a[i] == b[i]
    ensures FilterFirst(a, game, id, n) == FilterFirst(b, game, id, n)
  {
    hide Matches;
    if n > 0 {
      FilterPrefix(a, b, game, id, n - 1);
    }
  }

  lemma FilterAppend(a: seq<Event>, e: Event, game: GameType, id: U64)
    ensures FilterRoundEvents(a + [e], game, id) ==
            FilterRoundEvents(a, game, id) + (if Matches(e, game, id) then [e] else [])
  {
    hide Matches;
    FilterPrefix(a + [e], a, game, id, |a|);
  }

  lemma {:induction false} FilterSeesOwnRound(events: seq<Event>, game: GameType, id: U64, n: nat)
    requires n <= |events|
    ensures FilterFirst(events, game, id, n) == FilterRoundEvents(OfRound(events, id, n), game, id)
  {
    hide FilterRoundEvents;
    if n > 0 {
      FilterSeesOwnRound(events, game, id, n - 1);
      FilterAppend(OfRound(events, id, n - 1), events[n - 1], game, id);
    } else {
      FilterNothing(game, id);
    }
  }

  lemma FilterNothing(game: GameType, id: U64)
    ensures FilterRoundEvents([], game, id) == []
  {
  }

  /** Filtered replay is non-interfering: two logs with the same events of this round id, interleaved
      with whatever events of other rounds, replay to the same result. */
  lemma FilteredReplayNonInterfering(s: RoundSnapshot, a: seq<Event>, b: seq<Event>, game: GameType, id: U64)
    requires OfRound(a, id, |a|) == OfRound(b, id, |b|)
    ensures Replay(s, FilterRoundEvents(a, game, id)) == Replay(s, FilterRoundEvents(b, game, id))
  {
    hide Replay;
    FilterSeesOwnRound(a, game, id, |a|);
    FilterSeesOwnRound(b, game, id, |b|);
  }
}

/** The totals of a replayed round, key by key, whatever the order of the events that placed the bets. */
module RoundTotals {
  import opened Common
  import opened Sums
  import opened RoundEvents
  import opened RoundReplay

  /** The bets accepted by the first n events since the last opening among them, in order. */
  function BetsOf(events: seq<Event>, n: nat): seq<Bet>
    requires n <= |events|
  {
    if n == 0 || events[n - 1].RoundOpened? then []
    else if events[n - 1].BetAccepted? then BetsOf(events, n - 1) + events[n - 1].bets
    else BetsOf(events, n - 1)
  }

  /** The totals of the last opening among the first n events; those of the round replayed from if there is none. */
  function OpeningTotals(r: Round, events: seq<Event>, n: nat): seq<Total>
    requires n <= |events|
  {
    if n == 0 then r.totals
    else if events[n - 1].RoundOpened? then events[n - 1].round.totals
    else OpeningTotals(r, events, n - 1)
  }

  /** Adding one list of bets and then another is adding both in one. */
  lemma {:induction false} AccumulateConcat(totals: seq<Total>, a: seq<Bet>, b: seq<Bet>, n: nat)
    requires n <= |b|
    ensures AccumulateFirst(totals, a + b, |a| + n) == AccumulateFirst(AccumulateFirst(totals, a, |a|), b, n)
  {
    hide Accumulate;
    if n > 0 {
      AccumulateConcat(totals, a, b, n - 1);
      assert (a + b)[|a| + n - 1] == b[n - 1];
    } else {
      AccumulatePrefix(totals, a + b, a, |a|);
    }
  }

  lemma {:induction false} AccumulatePrefix(totals: seq<Total>, a: seq<Bet>, b: seq<Bet>, n: nat)
    requires n <= |a| && n <= |b| && forall i :: 0 <= i < n ==> a[i] == b[i]
    ensures AccumulateFirst(totals, a, n) == AccumulateFirst(totals, b, n)
  {
    hide Accumulate;
    if n > 0 {
      AccumulatePrefix(totals, a, b, n - 1);
    }
  }

  /** Whatever else a log does, the totals of a replay that succeeds are those of the last opening with all bets
      accepted since added in order. */
  lemma {:induction false} ReplayAccumulates(r: Round, events: seq<Event>, n: nat)
    requires n <= |events| && ReplayFirst(r, events, n).Ok?
    ensures
      var bets := BetsOf(events, n);
      ReplayFirst(r, events, n).value.totals == AccumulateFirst(OpeningTotals(r, events, n), bets, |bets|)
  {
    hide AccumulateFirst;
    if n > 0 {
      ReplayAccumulates(r, events, n - 1);
      var opening, bets := OpeningTotals(r, events, n - 1), BetsOf(events, n - 1);
      match events[n - 1]
      case BetAccepted(_, _, more, _) => AccumulateConcat(opening, bets, more, |more|);
      case RoundOpened(round) => NothingAdded(round.totals);
      case _ =>
    } else {
      NothingAdded(r.totals);
    }
  }

  lemma NothingAdded(totals: seq<Total>)
    ensures AccumulateFirst(totals, [], 0) == totals
  {
  }

  /** Replayed totals hold each key at most once, a key exactly when the opening had it or it was bet on since,
      and for each key the sum of what the opening had and all bets on it, saturated once. */
  lemma ReplayedAreSums(r: Round, events: seq<Event>, n: nat, key: BetKey)
    requires n <= |events| && ReplayFirst(r, events, n).Ok? && EachKeyOnce(OpeningTotals(r, events, n))
    ensures
      var totals, opening := ReplayFirst(r, events, n).value.totals, OpeningTotals(r, events, n);
      var bets := BetsOf(events, n);
      && EachKeyOnce(totals)
      && AmountFor(totals, key) == Min(U64_MAX, AmountFor(opening, key) + Sum(bets, AmountOn(key), |bets|))
      && (HasKey(totals, key) <==> HasKey(opening, key) || BetOn(bets, key, |bets|))
  {
    hide ReplayFirst, EachKeyOnce, AmountFor, HasKey, BetOn, AccumulateFirst, BetsOf, OpeningTotals;
    ReplayAccumulates(r, events, n);
    TotalsAreSums(OpeningTotals(r, events, n), BetsOf(events, n), |BetsOf(events, n)|, key);
  }

  /** Two logs of a round that open it with the same totals and accept the same bets, in whatever order and from
      whatever players, replay from a valid snapshot to the same amount, and the same presence, of every key. */
  lemma ReplayedIgnoreOrder(s: RoundSnapshot, a: seq<Event>, b: seq<Event>, key: BetKey)
    requires Validate(s).None?
    requires
      var left, right := FilterRoundEvents(a, s.game, s.roundId), FilterRoundEvents(b, s.game, s.roundId);
      && EachKeyOnce(OpeningTotals(ToRound(s), left, |left|))
      && OpeningTotals(ToRound(s), left, |left|) == OpeningTotals(ToRound(s), right, |right|)
      && multiset(BetsOf(left, |left|)) == multiset(BetsOf(right, |right|))
    ensures
      var left := Replay(s, FilterRoundEvents(a, s.game, s.roundId));
      var right := Replay(s, FilterRoundEvents(b, s.game, s.roundId));
      && left.Ok? && right.Ok?
      && AmountFor(left.value.totals, key) == AmountFor(right.value.totals, key)
      && (HasKey(left.value.totals, key) <==> HasKey(right.value.totals, key))
  {
    hide ReplayFirst, EachKeyOnce, AmountFor, HasKey, AccumulateFirst, BetsOf, OpeningTotals, FilterFirst;
    var left, right := FilterRoundEvents(a, s.game, s.roundId), FilterRoundEvents(b, s.game, s.roundId);
    FilteredReplaySucceeds(s, a);
    FilteredReplaySucceeds(s, b);
    ReplayAccumulates(ToRound(s), left, |left|);
    ReplayAccumulates(ToRound(s), right, |right|);
    TotalsIgnoreOrder(OpeningTotals(ToRound(s), left, |left|), BetsOf(left, |left|), BetsOf(right, |right|), key);
  }
}
