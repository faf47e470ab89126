/** The explorer's index of global-table rounds with their bets and payouts. */
module RoundIndexing {
  import opened Common
  import opened Sums
  import opened RoundScheduler
  import opened RoundEvents
  import BlockMaps

  /** A game, or "Unknown" for bets and payouts of a round that is not indexed. */
  datatype GameName = Known(game: GameType) | Unknown

  datatype RoundKey = RoundKey(name: GameName, id: U64)

  datatype IndexedPhase = InPhase(phase: Phase) | FinalizedPhase

  datatype IndexedRound = IndexedRound(
    phase: IndexedPhase, openedAt: nat, lockedAt: Option<nat>, outcomeAt: Option<nat>, finalizedAt: Option<nat>,
    d1: nat, d2: nat, totalBet: nat, totalPayout: int, betCount: nat, playerCount: nat)

  datatype IndexedBet = IndexedBet(player: PublicKey, betType: nat, target: nat, amount: nat, height: nat)

  datatype IndexedPayout = IndexedPayout(player: PublicKey, payout: int, height: nat)

  datatype Index = Index(
    rounds: map<RoundKey, IndexedRound>,
    bets: map<RoundKey, seq<IndexedBet>>,
    payouts: map<RoundKey, seq<IndexedPayout>>,
    byHeight: map<nat, seq<RoundKey>>)

  const EMPTY := Index(map[], map[], map[], map[])

  datatype Logged = Logged(event: Event, height: nat)

  // ----- parts

  function BetsAt(x: Index, k: RoundKey): seq<IndexedBet> {
    if k in x.bets then x.bets[k] else []
  }

  function PayoutsAt(x: Index, k: RoundKey): seq<IndexedPayout> {
    if k in x.payouts then x.payouts[k] else []
  }

  function PlayersOf(bets: seq<IndexedBet>): set<PublicKey> {
    set b | b in bets :: b.player
  }

  function Amount(): IndexedBet -> nat {
    (b: IndexedBet) => b.amount
  }

  function PayoutSum(ps: seq<IndexedPayout>, n: nat): int
    requires n <= |ps|
  {
    if n == 0 then 0 else PayoutSum(ps, n - 1) + ps[n - 1].payout
  }

  function Indexed(player: PublicKey, bets: seq<Bet>, height: nat): (r: seq<IndexedBet>)
    ensures |r| == |bets|
    ensures forall i :: 0 <= i < |r| ==>
              r[i] == IndexedBet(player, bets[i].betType, bets[i].target, bets[i].amount, height)
  {
    seq(|bets|, i requires 0 <= i < |bets| =>
      IndexedBet(player, bets[i].betType, bets[i].target, bets[i].amount, height))
  }

  function GamesWith(rounds: map<RoundKey, IndexedRound>, id: U64): set<GameType> {
    set k | k in rounds && k.id == id && k.name.Known? :: k.name.game
  }

  /** The first indexed game with this round id, in key order. */
  function GameOf(rounds: map<RoundKey, IndexedRound>, id: U64): (r: GameName)
    ensures r.Known? ==> RoundKey(r, id) in rounds
    ensures r.Unknown? ==> forall g :: RoundKey(Known(g), id) !in rounds
  {
    var games := GamesWith(rounds, id);
    if games == {} then
      assert forall g :: RoundKey(Known(g), id) in rounds ==> g in games;
      Unknown
    else Known(BlockMaps.Least(games))
  }

  // ----- events

  function Forget(x: Index, keys: set<RoundKey>): Index {
    x.(rounds := x.rounds - keys, bets := x.bets - keys, payouts := x.payouts - keys)
  }

  function DropLowest(x: Index): (y: Index)
    requires x.byHeight != map[]
    ensures |y.byHeight| < |x.byHeight|
  {
    var h := BlockMaps.Least(x.byHeight.Keys);
    RemovedKey(x.byHeight, h);
    Forget(x, set k | k in x.byHeight[h]).(byHeight := x.byHeight - {h})
  }

  /** Drops the rounds of the lowest heights until at most max are left. */
  function EnforceRounds(x: Index, max: nat): Index
    decreases |x.byHeight|
  {
    if |x.rounds| <= max || x.byHeight == map[] then x else EnforceRounds(DropLowest(x), max)
  }

  function Opened(x: Index, r: Round, height: nat): Index {
    var k := RoundKey(Known(r.game), r.roundId);
    var round := IndexedRound(InPhase(r.phase), height, None, None, None, r.d1, r.d2, TotalWagered(r.totals), 0, 0, 0);
    var listed := if height in x.byHeight then x.byHeight[height] else [];
    x.(rounds := x.rounds[k := round], byHeight := x.byHeight[height := listed + [k]])
  }

  function BetsTaken(x: Index, player: PublicKey, id: U64, bets: seq<Bet>, height: nat): Index {
    var k := RoundKey(GameOf(x.rounds, id), id);
    var y := if bets == [] then x else x.(bets := x.bets[k := BetsAt(x, k) + Indexed(player, bets, height)]);
    if k !in x.rounds then y
    else
      var r := x.rounds[k];
      y.(rounds := x.rounds[k := r.(totalBet := r.totalBet + BetSum(bets), betCount := r.betCount + |bets|,
                                    playerCount := |PlayersOf(BetsAt(y, k))|)])
  }

  function Settled(x: Index, player: PublicKey, id: U64, payout: int, height: nat): Index {
    var k := RoundKey(GameOf(x.rounds, id), id);
    var y := x.(payouts := x.payouts[k := PayoutsAt(x, k) + [IndexedPayout(player, payout, height)]]);
    if k !in x.rounds then y
    else y.(rounds := x.rounds[k := x.rounds[k].(totalPayout := x.rounds[k].totalPayout + payout)])
  }

  /** The effect of one event on the rounds, bets and payouts. */
  function Record(x: Index, e: Event, height: nat, max: Option<nat>): Index {
    match e
    case RoundOpened(r) =>
      var y := Opened(x, r, height);
      if max.None? then y else EnforceRounds(y, max.value)
    case RoundLocked(g, id, _) =>
      var k := RoundKey(Known(g), id);
      if k !in x.rounds then x
      else x.(rounds := x.rounds[k := x.rounds[k].(phase := InPhase(Locked), lockedAt := Some(height))])
    case Outcome(r) =>
      var k := RoundKey(Known(r.game), r.roundId);
      if k !in x.rounds then x
      else x.(rounds := x.rounds[k := x.rounds[k].(phase := InPhase(r.phase), outcomeAt := Some(height),
                                                   d1 := r.d1, d2 := r.d2)])
    case Finalized(g, id) =>
      var k := RoundKey(Known(g), id);
      if k !in x.rounds then x
      else x.(rounds := x.rounds[k := x.rounds[k].(phase := FinalizedPhase, finalizedAt := Some(height))])
    case BetAccepted(player, id, bets, _) => BetsTaken(x, player, id, bets, height)
    case PlayerSettled(player, id, payout, _, _) => Settled(x, player, id, payout, height)
    case BetRejected(_, _) => x
    case OtherEvent(_) => x
  }

  function RecordFirst(log: seq<Logged>, max: Option<nat>, n: nat): Index
    requires n <= |log|
  {
    if n == 0 then EMPTY else Record(RecordFirst(log, max, n - 1), log[n - 1].event, log[n - 1].height, max)
  }

  // ----- agreement of counters and stored entries

  /** The counters of an indexed round are those of its stored bets and payouts; `opening` is what the
      round had wagered when it opened. */
  ghost predicate Agrees(x: Index, k: RoundKey, opening: nat)
    requires k in x.rounds
  {
    var r, bets, payouts := x.rounds[k], BetsAt(x, k), PayoutsAt(x, k);
    && r.betCount == |bets|
    && r.playerCount == |PlayersOf(bets)|
    && r.totalBet == opening + Sum(bets, Amount(), |bets|)
    && r.totalPayout == PayoutSum(payouts, |payouts|)
  }

  /** How many more bets are stored than counted. */
  ghost function BetDrift(x: Index, k: RoundKey): int
    requires k in x.rounds
  {
    |BetsAt(x, k)| - x.rounds[k].betCount
  }

  /** How much more is paid out in the stored payouts than in the counter. */
  ghost function PayoutDrift(x: Index, k: RoundKey): int
    requires k in x.rounds
  {
    PayoutSum(PayoutsAt(x, k), |PayoutsAt(x, k)|) - x.rounds[k].totalPayout
  }

  lemma {:induction false} IndexedSum(player: PublicKey, bets: seq<Bet>, height: nat, n: nat)
    requires n <= |bets|
    ensures Sum(Indexed(player, bets, height), Amount(), n) == Sum(bets, BetAmount(), n)
  {
    if n > 0 {
      IndexedSum(player, bets, height, n - 1);
    }
  }

  lemma {:induction false} PayoutPrefix(a: seq<IndexedPayout>, b: seq<IndexedPayout>, n: nat)
    requires n <= |a| && n <= |b| && forall i :: 0 <= i < n ==> a[i] == b[i]
    ensures PayoutSum(a, n) == PayoutSum(b, n)
  {
    if n > 0 {
      PayoutPrefix(a, b, n - 1);
    }
  }

  lemma NoBets(bets: seq<Bet>)
    requires bets == []
    ensures BetSum(bets) == 0
  {
  }

  /** y has the counters and entries of round k moved on from x without a new disagreement. */
  ghost predicate InStep(x: Index, y: Index, k: RoundKey)
    requires k in x.rounds
  {
    && k in y.rounds
    && BetDrift(y, k) == BetDrift(x, k)
    && PayoutDrift(y, k) == PayoutDrift(x, k)
    && forall opening: nat :: Agrees(x, k, opening) ==> Agrees(y, k, opening)
  }

  lemma BetsInStep(x: Index, player: PublicKey, id: U64, bets: seq<Bet>, height: nat, k: RoundKey)
    requires k in x.rounds
    ensures InStep(x, BetsTaken(x, player, id, bets, height), k)
  {
    hide GameOf, PlayersOf, Sum, BetSum, PayoutSum;
    if k == RoundKey(GameOf(x.rounds, id), id) {
      var taken := Indexed(player, bets, height);
      SumConcat(BetsAt(x, k), taken, Amount(), |taken|);
      SumOfTaken(player, bets, height);
      if bets == [] {
        NoBets(bets);
      }
    }
  }

  lemma SumOfTaken(player: PublicKey, bets: seq<Bet>, height: nat)
    ensures Sum(Indexed(player, bets, height), Amount(), |bets|) == BetSum(bets)
  {
    IndexedSum(player, bets, height, |bets|);
  }

  lemma SettlementInStep(x: Index, player: PublicKey, id: U64, payout: int, height: nat, k: RoundKey)
    requires k in x.rounds
    ensures InStep(x, Settled(x, player, id, payout, height), k)
  {
    hide GameOf, PlayersOf, Sum;
    var paid := PayoutsAt(x, k) + [IndexedPayout(player, payout, height)];
    PayoutPrefix(paid, PayoutsAt(x, k), |PayoutsAt(x, k)|);
  }

  /** Every event other than an opening moves every indexed round in step with its stored entries. */
  lemma EventInStep(x: Index, e: Event, height: nat, max: Option<nat>, k: RoundKey)
    requires !e.RoundOpened? && k in x.rounds
    ensures InStep(x, Record(x, e, height, max), k)
  {
    hide GameOf, PlayersOf, Sum, PayoutSum, BetsTaken, Settled;
    match e
    case BetAccepted(player, id, bets, _) => BetsInStep(x, player, id, bets, height, k);
    case PlayerSettled(player, id, payout, _, _) => SettlementInStep(x, player, id, payout, height, k);
    case _ =>
  }

  /** An opening resets the counters but not the stored entries, so the opened round agrees exactly
      when no bets are stored for it and what was paid out for it cancels. */
  lemma OpeningAgreesExactly(x: Index, r: Round, height: nat)
    ensures
      var k := RoundKey(Known(r.game), r.roundId);
      var y := Opened(x, r, height);
      && BetDrift(y, k) == |BetsAt(x, k)|
      && PayoutDrift(y, k) == PayoutSum(PayoutsAt(x, k), |PayoutsAt(x, k)|)
      && (Agrees(y, k, TotalWagered(r.totals)) <==> BetDrift(y, k) == 0 && PayoutDrift(y, k) == 0)
  {
    hide TotalWagered;
    var k := RoundKey(Known(r.game), r.roundId);
    if BetsAt(x, k) == [] {
      assert PlayersOf([]) == {};
    }
  }

  lemma OpeningInStep(x: Index, r: Round, height: nat, k: RoundKey)
    requires k in x.rounds && k != RoundKey(Known(r.game), r.roundId)
    ensures InStep(x, Opened(x, r, height), k)
  {
    hide PlayersOf, Sum, PayoutSum, TotalWagered;
  }

  // ----- retention

  /** y keeps some of the rounds of x, each as it was. */
  ghost predicate Shrunk(x: Index, y: Index) {
    && y.bets.Keys <= x.bets.Keys && y.payouts.Keys <= x.payouts.Keys
    && forall k :: k in y.rounds ==>
         && k in x.rounds && y.rounds[k] == x.rounds[k]
         && BetsAt(y, k) == BetsAt(x, k) && PayoutsAt(y, k) == PayoutsAt(x, k)
  }

  lemma ShrunkInStep(x: Index, y: Index, k: RoundKey)
    requires Shrunk(x, y) && k in y.rounds
    ensures InStep(x, y, k)
  {
    hide PlayersOf, Sum, PayoutSum;
  }

  lemma DropShrinks(x: Index)
    requires x.byHeight != map[]
    ensures Shrunk(x, DropLowest(x))
  {
  }

  lemma ShrunkTrans(x: Index, y: Index, z: Index)
    requires Shrunk(x, y) && Shrunk(y, z)
    ensures Shrunk(x, z)
  {
  }

  lemma {:induction false} EnforceShrinks(x: Index, max: nat)
    ensures Shrunk(x, EnforceRounds(x, max))
    decreases |x.byHeight|
  {
    if |x.rounds| > max && x.byHeight != map[] {
      hide Shrunk, DropLowest;
      EnforceShrinks(DropLowest(x), max);
      DropShrinks(x);
      ShrunkTrans(x, DropLowest(x), EnforceRounds(x, max));
    }
  }

  /** Every indexed round is listed at some height. */
  ghost predicate AllListed(rounds: set<RoundKey>, byHeight: map<nat, seq<RoundKey>>) {
    forall k :: k in rounds ==> exists h :: h in byHeight && k in byHeight[h]
  }

  lemma DropListed(x: Index)
    requires AllListed(x.rounds.Keys, x.byHeight) && x.byHeight != map[]
    ensures AllListed(DropLowest(x).rounds.Keys, DropLowest(x).byHeight)
  {
    var y := DropLowest(x);
    forall k | k in y.rounds ensures exists j :: j in y.byHeight && k in y.byHeight[j] {
      var j :| j in x.byHeight && k in x.byHeight[j];
      assert j in y.byHeight;
    }
  }

  lemma {:induction false} EnforceBounds(x: Index, max: nat)
    requires AllListed(x.rounds.Keys, x.byHeight)
    ensures
      var y := EnforceRounds(x, max);
      AllListed(y.rounds.Keys, y.byHeight) && |y.rounds| <= max
    decreases |x.byHeight|
  {
    hide AllListed, DropLowest;
    if |x.rounds| > max {
      if x.byHeight == map[] {
        NothingListed(x);
      } else {
        DropListed(x);
        EnforceBounds(DropLowest(x), max);
      }
    }
  }

  lemma NothingListed(x: Index)
    requires AllListed(x.rounds.Keys, x.byHeight) && x.byHeight == map[]
    ensures |x.rounds| == 0
  {
    assert x.rounds.Keys == {};
  }

  /** The rounds listed at no height below the cut. */
  ghost function Survivors(x: Index, cut: nat): set<RoundKey> {
    set k | k in x.rounds && forall h :: h in x.byHeight && h < cut ==> k !in x.byHeight[h]
  }

  /** y is x without the heights below the cut and the rounds listed there. */
  ghost predicate CutBelow(x: Index, y: Index, cut: nat) {
    && y.byHeight == (map h | h in x.byHeight && cut <= h :: x.byHeight[h])
    && y.rounds.Keys == Survivors(x, cut)
  }

  /** No earlier cut leaves few enough. */
  ghost predicate CutNeeded(x: Index, cut: nat, max: nat) {
    forall h :: h in x.byHeight && h < cut ==> |Survivors(x, h)| > max
  }

  lemma NoneBelow(x: Index, cut: nat)
    requires forall h :: h in x.byHeight ==> cut <= h
    ensures Survivors(x, cut) == x.rounds.Keys && CutBelow(x, x, cut)
  {
    assert Survivors(x, cut) == x.rounds.Keys;
  }

  lemma SurvivorsAfter(x: Index, cut: nat)
    requires x.byHeight != map[] && BlockMaps.Least(x.byHeight.Keys) < cut
    ensures Survivors(DropLowest(x), cut) == Survivors(x, cut)
  {
    var least, y := BlockMaps.Least(x.byHeight.Keys), DropLowest(x);
    assert least in x.byHeight;
    forall k | k in Survivors(y, cut) ensures k in Survivors(x, cut) {
      forall h | h in x.byHeight && h < cut ensures k !in x.byHeight[h] {
        if h != least {
          assert h in y.byHeight;
        }
      }
    }
    forall k | k in Survivors(x, cut) ensures k in Survivors(y, cut) {
      assert k !in x.byHeight[least];
      assert k in y.rounds;
    }
  }

  lemma CutFurther(x: Index, y: Index, cut: nat)
    requires x.byHeight != map[] && BlockMaps.Least(x.byHeight.Keys) < cut && CutBelow(DropLowest(x), y, cut)
    ensures CutBelow(x, y, cut)
  {
    SurvivorsAfter(x, cut);
  }

  lemma NeededFurther(x: Index, cut: nat, max: nat)
    requires x.byHeight != map[] && |x.rounds| > max && CutNeeded(DropLowest(x), cut, max)
    ensures CutNeeded(x, cut, max)
  {
    hide Survivors;
    var least := BlockMaps.Least(x.byHeight.Keys);
    forall h | h in x.byHeight && h < cut ensures |Survivors(x, h)| > max {
      if h == least {
        NoneBelow(x, h);
      } else {
        assert h in DropLowest(x).byHeight;
        SurvivorsAfter(x, h);
      }
    }
  }

  /** Retention drops the heights below a cut, with every round listed there and no other, and stops at the
      first cut that leaves few enough. */
  lemma {:induction false} EnforceExactly(x: Index, max: nat) returns (cut: nat)
    ensures CutBelow(x, EnforceRounds(x, max), cut) && CutNeeded(x, cut, max)
    ensures |EnforceRounds(x, max).rounds| <= max || EnforceRounds(x, max).byHeight == map[]
    decreases |x.byHeight|
  {
    hide Survivors, CutBelow, CutNeeded, DropLowest;
    if |x.rounds| > max && x.byHeight != map[] {
      var least := BlockMaps.Least(x.byHeight.Keys);
      AboveLeast(x);
      cut := EnforceExactly(DropLowest(x), max);
      cut := RaiseCut(DropLowest(x), EnforceRounds(x, max), least, cut, max);
      CutFurther(x, EnforceRounds(x, max), cut);
      NeededFurther(x, cut, max);
    } else {
      cut := 0;
      NoneBelow(x, 0);
      NothingNeeded(x, max);
    }
  }

  lemma AboveLeast(x: Index)
    requires x.byHeight != map[]
    ensures forall h :: h in DropLowest(x).byHeight ==> BlockMaps.Least(x.byHeight.Keys) < h
  {
  }

  lemma NothingNeeded(x: Index, max: nat)
    ensures CutNeeded(x, 0, max)
  {
  }

  /** A cut below every height may as well be just above a lower height. */
  lemma RaiseCut(x: Index, y: Index, low: nat, cut: nat, max: nat) returns (raised: nat)
    requires CutBelow(x, y, cut) && CutNeeded(x, cut, max) && forall h :: h in x.byHeight ==> low < h
    ensures low < raised && CutBelow(x, y, raised) && CutNeeded(x, raised, max)
  {
    hide Survivors;
    raised := Max(cut, low + 1);
    if cut <= low {
      NoneBelow(x, cut);
      NoneBelow(x, raised);
    }
  }

  lemma OpenedListed(x: Index, r: Round, height: nat)
    requires AllListed(x.rounds.Keys, x.byHeight)
    ensures
      var y := Opened(x, r, height);
      AllListed(y.rounds.Keys, y.byHeight)
  {
    hide TotalWagered;
    var y := Opened(x, r, height);
    forall k | k in y.rounds ensures exists h :: h in y.byHeight && k in y.byHeight[h] {
      if k == RoundKey(Known(r.game), r.roundId) {
        assert height in y.byHeight && y.byHeight[height][|y.byHeight[height]| - 1] == k;
      } else {
        var h :| h in x.byHeight && k in x.byHeight[h];
        assert h in y.byHeight;
      }
    }
  }

  /** Only an opening changes which rounds are indexed. */
  lemma OthersKeepRounds(x: Index, e: Event, height: nat, max: Option<nat>)
    requires !e.RoundOpened?
    ensures
      var y := Record(x, e, height, max);
      y.rounds.Keys == x.rounds.Keys && |y.rounds| == |x.rounds| && y.byHeight == x.byHeight
  {
    hide GameOf, PlayersOf, Indexed, BetSum;
    var y := Record(x, e, height, max);
    assert |y.rounds| == |y.rounds.Keys| && |x.rounds| == |x.rounds.Keys|;
  }
}

/** Runs of the round index over a log of events. */
module RoundIndexRuns {
  import opened Common
  import opened Sums
  import opened RoundEvents
  import opened RoundIndexing

  predicate OpensAt(log: seq<Logged>, i: nat, k: RoundKey)
    requires i < |log|
  {
    log[i].event.RoundOpened? && RoundKey(Known(log[i].event.round.game), log[i].event.round.roundId) == k
  }

  ghost predicate WasOpened(log: seq<Logged>, k: RoundKey, n: nat)
    requires n <= |log|
  {
    exists i: nat :: i < n && OpensAt(log, i, k)
  }

  /** No round is opened twice. */
  ghost predicate OpenedOnce(log: seq<Logged>) {
    forall i: nat, j: nat, k :: i < j < |log| && OpensAt(log, i, k) ==> !OpensAt(log, j, k)
  }

  // ----- retention

  /** From an empty index, at most max rounds are indexed after every event. */
  lemma {:induction false} RoundsStayBounded(log: seq<Logged>, max: Option<nat>, n: nat)
    requires n <= |log|
    ensures
      var x := RecordFirst(log, max, n);
      AllListed(x.rounds.Keys, x.byHeight) && (max.Some? ==> |x.rounds| <= max.value)
  {
    hide AllListed, GameOf, BetsTaken, Settled, EnforceRounds, Opened;
    if n == 0 {
      EmptyListed();
    } else {
      RoundsStayBounded(log, max, n - 1);
      var x, e, height := RecordFirst(log, max, n - 1), log[n - 1].event, log[n - 1].height;
      if e.RoundOpened? {
        OpenedListed(x, e.round, height);
        if max.Some? {
          EnforceBounds(Opened(x, e.round, height), max.value);
        }
      } else {
        OthersKeepRounds(x, e, height, max);
      }
    }
  }

  lemma EmptyListed()
    ensures AllListed(EMPTY.rounds.Keys, EMPTY.byHeight)
  {
  }

  // ----- one round over a run

  /** A round that is indexed and was not opened by this event was indexed before and stays in step. */
  lemma StepInStep(x: Index, e: Event, height: nat, max: Option<nat>, k: RoundKey)
    requires k in Record(x, e, height, max).rounds
    requires e.RoundOpened? ==> k != RoundKey(Known(e.round.game), e.round.roundId)
    ensures k in x.rounds && InStep(x, Record(x, e, height, max), k)
  {
    hide InStep, EnforceRounds, GameOf, BetsTaken, Settled, TotalWagered, Shrunk;
    var y := Record(x, e, height, max);
    if e.RoundOpened? {
      var z := Opened(x, e.round, height);
      RetainedShrinks(z, max, y);
      RetainedBefore(z, y, k);
      OpeningInStep(x, e.round, height, k);
      ShrunkInStep(z, y, k);
      InStepTrans(x, z, y, k);
    } else {
      OthersKeepRounds(x, e, height, max);
      EventInStep(x, e, height, max, k);
    }
  }

  lemma RetainedShrinks(z: Index, max: Option<nat>, y: Index)
    requires y == if max.None? then z else EnforceRounds(z, max.value)
    ensures Shrunk(z, y)
  {
    if max.Some? {
      EnforceShrinks(z, max.value);
    }
  }

  lemma RetainedBefore(z: Index, y: Index, k: RoundKey)
    requires Shrunk(z, y) && k in y.rounds
    ensures k in z.rounds
  {
  }

  lemma InStepTrans(x: Index, z: Index, y: Index, k: RoundKey)
    requires k in x.rounds && InStep(x, z, k) && InStep(z, y, k)
    ensures InStep(x, y, k)
  {
    hide Agrees, BetDrift, PayoutDrift;
  }

  /** What round k had wagered when it last opened. */
  function Opening(log: seq<Logged>, k: RoundKey, n: nat): nat
    requires n <= |log|
  {
    if n == 0 then 0
    else if OpensAt(log, n - 1, k) then TotalWagered(log[n - 1].event.round.totals)
    else Opening(log, k, n - 1)
  }

  lemma JustOpened(log: seq<Logged>, max: Option<nat>, i: nat, k: RoundKey)
    requires i < |log| && OpensAt(log, i, k) && k in RecordFirst(log, max, i + 1).rounds
    ensures
      var x, y := RecordFirst(log, max, i), RecordFirst(log, max, i + 1);
      && BetDrift(y, k) == |BetsAt(x, k)|
      && PayoutDrift(y, k) == PayoutSum(PayoutsAt(x, k), |PayoutsAt(x, k)|)
      && (Agrees(y, k, Opening(log, k, i + 1)) <==> BetDrift(y, k) == 0 && PayoutDrift(y, k) == 0)
  {
    hide GameOf, BetsTaken, Settled, TotalWagered, PayoutSum, Shrunk, Agrees, EnforceRounds;
    var x, y := RecordFirst(log, max, i), RecordFirst(log, max, i + 1);
    var z := Opened(x, log[i].event.round, log[i].height);
    OpeningAgreesExactly(x, log[i].event.round, log[i].height);
    RetainedShrinks(z, max, y);
    SameAgreement(z, y, k, Opening(log, k, i + 1));
  }

  lemma SameAgreement(z: Index, y: Index, k: RoundKey, opening: nat)
    requires Shrunk(z, y) && k in y.rounds
    ensures k in z.rounds && BetDrift(y, k) == BetDrift(z, k) && PayoutDrift(y, k) == PayoutDrift(z, k)
    ensures Agrees(y, k, opening) <==> Agrees(z, k, opening)
  {
    hide PlayersOf, Sum, PayoutSum;
  }

  /** While a round stays indexed after its last opening, its counters agree with its stored bets and
      payouts exactly when that opening found no stored bets, and stored payouts that cancel. */
  lemma {:induction false} AgreementExactly(log: seq<Logged>, max: Option<nat>, i: nat, k: RoundKey, n: nat)
    requires i < n <= |log| && OpensAt(log, i, k) && forall j :: i < j < n ==> !OpensAt(log, j, k)
    requires k in RecordFirst(log, max, n).rounds
    ensures
      var x, y := RecordFirst(log, max, i), RecordFirst(log, max, n);
      && BetDrift(y, k) == |BetsAt(x, k)|
      && PayoutDrift(y, k) == PayoutSum(PayoutsAt(x, k), |PayoutsAt(x, k)|)
      && (Agrees(y, k, Opening(log, k, n)) <==> BetDrift(y, k) == 0 && PayoutDrift(y, k) == 0)
  {
    hide Record, Agrees, PayoutSum;
    if n == i + 1 {
      JustOpened(log, max, i, k);
    } else {
      assert !OpensAt(log, n - 1, k);
      StepInStep(RecordFirst(log, max, n - 1), log[n - 1].event, log[n - 1].height, max, k);
      AgreementExactly(log, max, i, k, n - 1);
      if Agrees(RecordFirst(log, max, n), k, Opening(log, k, n)) {
        AgreesNoDrift(RecordFirst(log, max, n), k, Opening(log, k, n));
      }
    }
  }

  lemma AgreesNoDrift(x: Index, k: RoundKey, opening: nat)
    requires k in x.rounds && Agrees(x, k, opening)
    ensures BetDrift(x, k) == 0 && PayoutDrift(x, k) == 0
  {
  }

  // ----- rounds opened once

  ghost predicate Missing(x: Index, k: RoundKey) {
    k !in x.rounds && k !in x.bets && k !in x.payouts
  }

  /** Nothing is stored for a round of a known game before it opens. */
  lemma {:induction false} StoredWereOpened(log: seq<Logged>, max: Option<nat>, k: RoundKey, n: nat)
    requires n <= |log| && k.name.Known? && !WasOpened(log, k, n)
    ensures Missing(RecordFirst(log, max, n), k)
  {
    hide Record;
    if n > 0 {
      assert !WasOpened(log, k, n - 1);
      StoredWereOpened(log, max, k, n - 1);
      assert !OpensAt(log, n - 1, k);
      MissingStep(RecordFirst(log, max, n - 1), log[n - 1], max, k);
    }
  }

  lemma MissingStep(x: Index, e: Logged, max: Option<nat>, k: RoundKey)
    requires Missing(x, k) && k.name.Known?
    requires e.event.RoundOpened? ==> k != RoundKey(Known(e.event.round.game), e.event.round.roundId)
    ensures Missing(Record(x, e.event, e.height, max), k)
  {
    hide GameOf, EnforceRounds, Shrunk, TotalWagered, BetSum, PlayersOf, Indexed;
    if e.event.RoundOpened? {
      var z := Opened(x, e.event.round, e.height);
      RetainedShrinks(z, max, Record(x, e.event, e.height, max));
      StillMissing(z, Record(x, e.event, e.height, max), k);
    }
  }

  lemma StillMissing(z: Index, y: Index, k: RoundKey)
    requires Shrunk(z, y) && Missing(z, k)
    ensures Missing(y, k)
  {
  }

  /** An indexed round was opened, and no later than it was last seen opening. */
  lemma {:induction false} IndexedWasOpened(log: seq<Logged>, max: Option<nat>, k: RoundKey, n: nat) returns (i: nat)
    requires n <= |log| && k in RecordFirst(log, max, n).rounds
    ensures i < n && OpensAt(log, i, k) && forall j :: i < j < n ==> !OpensAt(log, j, k)
  {
    hide Record, InStep;
    if n == 0 {
      assert false;
    } else if OpensAt(log, n - 1, k) {
      i := n - 1;
    } else {
      StepInStep(RecordFirst(log, max, n - 1), log[n - 1].event, log[n - 1].height, max, k);
      i := IndexedWasOpened(log, max, k, n - 1);
    }
  }

  /** With each round opened once, the counters of every indexed round agree with its stored bets and
      payouts at every point of the run. */
  lemma CountersAgree(log: seq<Logged>, max: Option<nat>, k: RoundKey, n: nat)
    requires n <= |log| && OpenedOnce(log) && k in RecordFirst(log, max, n).rounds
    ensures Agrees(RecordFirst(log, max, n), k, Opening(log, k, n))
  {
    hide Record, Agrees;
    var i := IndexedWasOpened(log, max, k, n);
    assert !WasOpened(log, k, i);
    StoredWereOpened(log, max, k, i);
    AgreementExactly(log, max, i, k, n);
  }

  // ----- stored entries and the raw events

  /** The bets of this round id accepted since round k last opened. */
  function BetsSince(log: seq<Logged>, k: RoundKey, n: nat): seq<IndexedBet>
    requires n <= |log|
  {
    if n == 0 || OpensAt(log, n - 1, k) then []
    else
      var before := BetsSince(log, k, n - 1);
      match log[n - 1].event
      case BetAccepted(player, id, bets, _) =>
        if id == k.id then before + Indexed(player, bets, log[n - 1].height) else before
      case _ => before
  }

  /** The payouts of this round id settled since round k last opened. */
  function PayoutsSince(log: seq<Logged>, k: RoundKey, n: nat): seq<IndexedPayout>
    requires n <= |log|
  {
    if n == 0 || OpensAt(log, n - 1, k) then []
    else
      var before := PayoutsSince(log, k, n - 1);
      match log[n - 1].event
      case PlayerSettled(player, id, payout, _, _) =>
        if id == k.id then before + [IndexedPayout(player, payout, log[n - 1].height)] else before
      case _ => before
  }

  /** The i-th event carries entries of k's round id that the index files under another game. */
  predicate Misfiled(log: seq<Logged>, max: Option<nat>, k: RoundKey, i: nat)
    requires i < |log|
  {
    Carries(log[i].event, k.id) && GameOf(RecordFirst(log, max, i).rounds, k.id) != k.name
  }

  /** The event carries bets or a payout of this round id. */
  predicate Carries(e: Event, id: U64) {
    match e
    case BetAccepted(_, i, bets, _) => i == id && bets != []
    case PlayerSettled(_, i, _, _, _) => i == id
    case _ => false
  }

  /** A game earlier in key order has a round of k's id indexed. */
  ghost predicate Outranked(rounds: map<RoundKey, IndexedRound>, k: RoundKey)
    requires k.name.Known?
  {
    exists g: GameType :: g < k.name.game && RoundKey(Known(g), k.id) in rounds
  }

  /** The first game found for an indexed round's id is another one exactly if an earlier game has that id. */
  lemma GameOfExactly(rounds: map<RoundKey, IndexedRound>, k: RoundKey)
    requires k.name.Known? && k in rounds
    ensures GameOf(rounds, k.id) != k.name <==> Outranked(rounds, k)
  {
    var games := GamesWith(rounds, k.id);
    assert k.name.game in games;
    if g: GameType :| g < k.name.game && RoundKey(Known(g), k.id) in rounds {
      assert RoundKey(Known(g), k.id).name.game in games;
    }
  }

  /** How many entries of k's round id were filed elsewhere since k last opened. */
  function Elsewhere(log: seq<Logged>, max: Option<nat>, k: RoundKey, n: nat): nat
    requires n <= |log|
  {
    if n == 0 || OpensAt(log, n - 1, k) then 0
    else
      Elsewhere(log, max, k, n - 1) +
      if !Misfiled(log, max, k, n - 1) then 0
      else if log[n - 1].event.BetAccepted? then |log[n - 1].event.bets| else 1
  }

  ghost predicate FiledApart(x: Index, bets: seq<IndexedBet>, payouts: seq<IndexedPayout>, elsewhere: nat,
                             k: RoundKey)
  {
    && |BetsAt(x, k)| + |PayoutsAt(x, k)| + elsewhere == |bets| + |payouts|
    && (elsewhere == 0 ==> BetsAt(x, k) == bets && PayoutsAt(x, k) == payouts)
  }

  lemma FiledBets(x: Index, bets: seq<IndexedBet>, payouts: seq<IndexedPayout>, elsewhere: nat, k: RoundKey,
                  player: PublicKey, id: U64, taken: seq<Bet>, height: nat)
    requires FiledApart(x, bets, payouts, elsewhere, k)
    ensures
      var mine := id == k.id;
      FiledApart(BetsTaken(x, player, id, taken, height),
                 if mine then bets + Indexed(player, taken, height) else bets, payouts,
                 elsewhere + if mine && GameOf(x.rounds, id) != k.name then |taken| else 0, k)
  {
    hide GameOf, PlayersOf, BetSum;
    if taken == [] {
      assert bets + Indexed(player, taken, height) == bets;
    }
  }

  lemma FiledPayout(x: Index, bets: seq<IndexedBet>, payouts: seq<IndexedPayout>, elsewhere: nat, k: RoundKey,
                    player: PublicKey, id: U64, payout: int, height: nat)
    requires FiledApart(x, bets, payouts, elsewhere, k)
    ensures
      var mine := id == k.id;
      FiledApart(Settled(x, player, id, payout, height),
                 bets, if mine then payouts + [IndexedPayout(player, payout, height)] else payouts,
                 elsewhere + if mine && GameOf(x.rounds, id) != k.name then 1 else 0, k)
  {
    hide GameOf;
  }

  lemma FiledStep(log: seq<Logged>, max: Option<nat>, k: RoundKey, n: nat)
    requires 0 < n <= |log| && !log[n - 1].event.RoundOpened?
    requires FiledApart(RecordFirst(log, max, n - 1), BetsSince(log, k, n - 1), PayoutsSince(log, k, n - 1),
                        Elsewhere(log, max, k, n - 1), k)
    ensures FiledApart(RecordFirst(log, max, n), BetsSince(log, k, n), PayoutsSince(log, k, n),
                       Elsewhere(log, max, k, n), k)
  {
    hide GameOf, BetsTaken, Settled, EnforceRounds, Opened;
    var x, height := RecordFirst(log, max, n - 1), log[n - 1].height;
    var bets, payouts := BetsSince(log, k, n - 1), PayoutsSince(log, k, n - 1);
    var elsewhere := Elsewhere(log, max, k, n - 1);
    match log[n - 1].event
    case BetAccepted(player, id, taken, _) =>
      FiledBets(x, bets, payouts, elsewhere, k, player, id, taken, height);
    case PlayerSettled(player, id, payout, _, _) =>
      FiledPayout(x, bets, payouts, elsewhere, k, player, id, payout, height);
    case _ =>
  }

  lemma {:induction false} FiledSince(log: seq<Logged>, max: Option<nat>, k: RoundKey, n: nat)
    requires n <= |log| && OpenedOnce(log) && k in RecordFirst(log, max, n).rounds && k.name.Known?
    ensures FiledApart(RecordFirst(log, max, n), BetsSince(log, k, n), PayoutsSince(log, k, n),
                       Elsewhere(log, max, k, n), k)
  {
    hide EnforceRounds, Shrunk, InStep, BetsTaken, Settled, Record;
    if n == 0 {
      assert false;
    } else if OpensAt(log, n - 1, k) {
      assert !WasOpened(log, k, n - 1);
      StoredWereOpened(log, max, k, n - 1);
      OpeningFiles(RecordFirst(log, max, n - 1), log[n - 1], max, k);
    } else {
      StepInStep(RecordFirst(log, max, n - 1), log[n - 1].event, log[n - 1].height, max, k);
      FiledSince(log, max, k, n - 1);
      if log[n - 1].event.RoundOpened? {
        OpeningFiles(RecordFirst(log, max, n - 1), log[n - 1], max, k);
      } else {
        FiledStep(log, max, k, n);
      }
    }
  }

  /** An opening leaves what is stored for the rounds that stay. */
  lemma OpeningFiles(x: Index, e: Logged, max: Option<nat>, k: RoundKey)
    requires e.event.RoundOpened? && k in Record(x, e.event, e.height, max).rounds
    ensures
      var y := Record(x, e.event, e.height, max);
      BetsAt(y, k) == BetsAt(x, k) && PayoutsAt(y, k) == PayoutsAt(x, k)
  {
    hide EnforceRounds, TotalWagered;
    RetainedShrinks(Opened(x, e.event.round, e.height), max, Record(x, e.event, e.height, max));
  }

  /** Nothing was filed elsewhere exactly when no event since the opening was misfiled. */
  lemma {:induction false} NothingElsewhere(log: seq<Logged>, max: Option<nat>, i: nat, k: RoundKey, n: nat)
    requires i < n <= |log| && OpensAt(log, i, k) && forall j :: i < j < n ==> !OpensAt(log, j, k)
    ensures Elsewhere(log, max, k, n) == 0 <==> forall j :: i < j < n ==> !Misfiled(log, max, k, j)
  {
    hide GameOf, RecordFirst;
    if n > i + 1 {
      NothingElsewhere(log, max, i, k, n - 1);
    }
  }

  /** With each round opened once, the stored bets and payouts of an indexed round are those of its id
      since it opened, in order, exactly when none of them came while the index held a round of the same
      id of a game that is earlier in key order. */
  lemma StoredIsRawExactly(log: seq<Logged>, max: Option<nat>, k: RoundKey, n: nat) returns (i: nat)
    requires n <= |log| && OpenedOnce(log) && k.name.Known? && k in RecordFirst(log, max, n).rounds
    ensures i < n && OpensAt(log, i, k) && forall j :: i < j < n ==> !OpensAt(log, j, k)
    ensures
      var x := RecordFirst(log, max, n);
      BetsAt(x, k) == BetsSince(log, k, n) && PayoutsAt(x, k) == PayoutsSince(log, k, n) <==>
      forall j :: i < j < n && Carries(log[j].event, k.id) ==> !Outranked(RecordFirst(log, max, j).rounds, k)
  {
    hide RecordFirst, Carries, GameOf, Outranked;
    i := IndexedWasOpened(log, max, k, n);
    FiledSince(log, max, k, n);
    NothingElsewhere(log, max, i, k, n);
    forall j | i < j < n
      ensures Misfiled(log, max, k, j) <==> Carries(log[j].event, k.id) && Outranked(RecordFirst(log, max, j).rounds, k)
    {
      StaysIndexed(log, max, k, j, n);
      GameOfExactly(RecordFirst(log, max, j).rounds, k);
    }
  }

  /** While two games have indexed rounds of one id, bets and payouts of that id never reach the round of
      the game later in key order, whichever game they were for. */
  lemma SharedIdIsMisfiled(x: Index, first: GameType, second: GameType, e: Logged, max: Option<nat>)
    requires e.event.BetAccepted? || e.event.PlayerSettled?
    requires first < second
    requires RoundKey(Known(first), e.event.roundId) in x.rounds && RoundKey(Known(second), e.event.roundId) in x.rounds
    ensures
      var k, y := RoundKey(Known(second), e.event.roundId), Record(x, e.event, e.height, max);
      && k in y.rounds && y.rounds[k] == x.rounds[k]
      && BetsAt(y, k) == BetsAt(x, k) && PayoutsAt(y, k) == PayoutsAt(x, k)
  {
    hide PlayersOf, BetSum, Indexed;
    assert RoundKey(Known(first), e.event.roundId).name.game in GamesWith(x.rounds, e.event.roundId);
  }

  /** No two games open rounds of the same id. */
  ghost predicate IdsNotShared(log: seq<Logged>) {
    forall i: nat, j: nat, k, l ::
      i < |log| && j < |log| && OpensAt(log, i, k) && OpensAt(log, j, l) && k.id == l.id ==> k == l
  }

  /** With each round opened once and round ids not shared between games, the counters of every indexed
      round are the counts and sums over the raw events of the round since it opened. */
  lemma RoundIndexIsRaw(log: seq<Logged>, max: Option<nat>, k: RoundKey, n: nat)
    requires n <= |log| && OpenedOnce(log) && IdsNotShared(log) && k.name.Known? && k in RecordFirst(log, max, n).rounds
    ensures
      var r, bets, payouts := RecordFirst(log, max, n).rounds[k], BetsSince(log, k, n), PayoutsSince(log, k, n);
      && r.betCount == |bets|
      && r.playerCount == |PlayersOf(bets)|
      && r.totalBet == Opening(log, k, n) + Sum(bets, Amount(), |bets|)
      && r.totalPayout == PayoutSum(payouts, |payouts|)
  {
    hide Record, PlayersOf, Sum, PayoutSum, OpenedOnce, IdsNotShared, BetsSince, PayoutsSince;
    CountersAgree(log, max, k, n);
    var i := StoredIsRawExactly(log, max, k, n);
    forall j | i < j < n ensures !Outranked(RecordFirst(log, max, j).rounds, k) {
      NeverOutranked(log, max, k, j, n);
    }
  }

  lemma {:induction false} StaysIndexed(log: seq<Logged>, max: Option<nat>, k: RoundKey, j: nat, n: nat)
    requires j <= n <= |log| && k in RecordFirst(log, max, n).rounds
    requires forall m :: j <= m < n ==> !OpensAt(log, m, k)
    ensures k in RecordFirst(log, max, j).rounds
  {
    hide Record, InStep;
    if j < n {
      assert !OpensAt(log, n - 1, k);
      StepInStep(RecordFirst(log, max, n - 1), log[n - 1].event, log[n - 1].height, max, k);
      StaysIndexed(log, max, k, j, n - 1);
    }
  }

  lemma NeverOutranked(log: seq<Logged>, max: Option<nat>, k: RoundKey, j: nat, n: nat)
    requires j <= n <= |log| && IdsNotShared(log) && k.name.Known? && k in RecordFirst(log, max, n).rounds
    ensures !Outranked(RecordFirst(log, max, j).rounds, k)
  {
    hide RecordFirst;
    if g: GameType :| g < k.name.game && RoundKey(Known(g), k.id) in RecordFirst(log, max, j).rounds {
      var a := IndexedWasOpened(log, max, k, n);
      var b := IndexedWasOpened(log, max, RoundKey(Known(g), k.id), j);
      assert false;
    }
  }
}

/** Which bets and payouts the index stores, and runs in which its counters or its filing go wrong. */
module RoundStorage {
  import opened Common
  import opened RoundEvents
  import opened RoundIndexing
  import opened RoundIndexRuns

  /** Rounds are indexed and listed under known games, and what is stored for a known game is stored for an
      indexed round. */
  ghost predicate Filed(x: Index) {
    && (forall k :: k in x.rounds ==> k.name.Known?)
    && (forall h, k :: h in x.byHeight && k in x.byHeight[h] ==> k.name.Known?)
    && (forall k :: k in x.bets || k in x.payouts ==> k.name.Unknown? || k in x.rounds)
  }

  /** The same is stored under this key. */
  ghost predicate SameEntries(x: Index, y: Index, k: RoundKey) {
    BetsAt(y, k) == BetsAt(x, k) && PayoutsAt(y, k) == PayoutsAt(x, k)
  }

  lemma DropFiled(x: Index)
    requires Filed(x) && x.byHeight != map[]
    ensures Filed(DropLowest(x))
  {
    var y := DropLowest(x);
    assert y.byHeight.Keys <= x.byHeight.Keys && y.rounds.Keys <= x.rounds.Keys;
  }

  lemma DropEntries(x: Index, k: RoundKey)
    requires Filed(x) && x.byHeight != map[] && k.name.Unknown?
    ensures SameEntries(x, DropLowest(x), k)
  {
  }

  lemma {:induction false} EnforceFiled(x: Index, max: nat, k: RoundKey)
    requires Filed(x) && k.name.Unknown?
    ensures Filed(EnforceRounds(x, max)) && SameEntries(x, EnforceRounds(x, max), k)
    decreases |x.byHeight|
  {
    if |x.rounds| > max && x.byHeight != map[] {
      hide Filed, DropLowest;
      DropFiled(x);
      DropEntries(x, k);
      EnforceFiled(DropLowest(x), max, k);
    }
  }

  lemma OpenedFiled(x: Index, r: Round, height: nat, max: Option<nat>, k: RoundKey)
    requires Filed(x) && k.name.Unknown?
    ensures
      var y := Record(x, RoundOpened(r), height, max);
      Filed(y) && SameEntries(x, y, k)
  {
    hide TotalWagered, EnforceRounds;
    var y := Opened(x, r, height);
    assert Filed(y) && SameEntries(x, y, k);
    if max.Some? {
      EnforceFiled(y, max.value, k);
    }
  }

  ghost predicate NotIndexed(x: Index, id: U64) {
    forall g :: RoundKey(Known(g), id) !in x.rounds
  }

  lemma GameOfUnknown(x: Index, id: U64)
    requires Filed(x)
    ensures GameOf(x.rounds, id).Unknown? <==> NotIndexed(x, id)
  {
  }

  lemma BetsFiled(x: Index, player: PublicKey, id: U64, bets: seq<Bet>, height: nat, other: U64)
    requires Filed(x)
    ensures
      var y, k := BetsTaken(x, player, id, bets, height), RoundKey(Unknown, other);
      && Filed(y) && PayoutsAt(y, k) == PayoutsAt(x, k)
      && BetsAt(y, k) == BetsAt(x, k) + if other == id && NotIndexed(x, id) then Indexed(player, bets, height) else []
  {
    hide GameOf, PlayersOf, BetSum;
    GameOfUnknown(x, id);
  }

  lemma SettlementFiled(x: Index, player: PublicKey, id: U64, payout: int, height: nat, other: U64)
    requires Filed(x)
    ensures
      var y, k := Settled(x, player, id, payout, height), RoundKey(Unknown, other);
      && Filed(y) && BetsAt(y, k) == BetsAt(x, k)
      && PayoutsAt(y, k) ==
         PayoutsAt(x, k) + if other == id && NotIndexed(x, id) then [IndexedPayout(player, payout, height)] else []
  {
    hide GameOf;
    GameOfUnknown(x, id);
  }

  /** One event: what is stored under no game changes only by the bets and payouts of ids with no indexed
      round, which are added at the end. */
  lemma UnknownStep(x: Index, e: Logged, max: Option<nat>, id: U64)
    requires Filed(x)
    ensures
      var y, k := Record(x, e.event, e.height, max), RoundKey(Unknown, id);
      && Filed(y)
      && BetsAt(y, k) ==
         BetsAt(x, k) + (if e.event.BetAccepted? && e.event.roundId == id && NotIndexed(x, id)
                         then Indexed(e.event.player, e.event.bets, e.height) else [])
      && PayoutsAt(y, k) ==
         PayoutsAt(x, k) + (if e.event.PlayerSettled? && e.event.roundId == id && NotIndexed(x, id)
                            then [IndexedPayout(e.event.player, e.event.payout, e.height)] else [])
  {
    hide EnforceRounds, Opened, BetsTaken, Settled, Filed, NotIndexed, BetsAt, PayoutsAt, Indexed;
    match e.event
    case RoundOpened(r) => OpenedFiled(x, r, e.height, max, RoundKey(Unknown, id));
    case BetAccepted(player, i, bets, _) => BetsFiled(x, player, i, bets, e.height, id);
    case PlayerSettled(player, i, payout, _, _) => SettlementFiled(x, player, i, payout, e.height, id);
    case _ => MarkFiled(x, e, max, RoundKey(Unknown, id));
  }

  lemma MarkFiled(x: Index, e: Logged, max: Option<nat>, k: RoundKey)
    requires Filed(x) && !e.event.RoundOpened? && !e.event.BetAccepted? && !e.event.PlayerSettled?
    ensures
      var y := Record(x, e.event, e.height, max);
      Filed(y) && SameEntries(x, y, k)
  {
    hide Filed, EnforceRounds, Opened, BetsTaken, Settled;
    OthersKeepRounds(x, e.event, e.height, max);
    SameKeysFiled(x, Record(x, e.event, e.height, max));
  }

  lemma SameKeysFiled(x: Index, y: Index)
    requires Filed(x) && y.rounds.Keys == x.rounds.Keys && y.byHeight == x.byHeight
    requires y.bets.Keys == x.bets.Keys && y.payouts.Keys == x.payouts.Keys
    ensures Filed(y)
  {
  }

  /** In every run the keys of the stored bets and payouts are indexed rounds, or ids under no game. */
  lemma {:induction false} StoredKeys(log: seq<Logged>, max: Option<nat>, n: nat)
    requires n <= |log|
    ensures
      var x := RecordFirst(log, max, n);
      Filed(x) && forall k :: k in x.bets || k in x.payouts ==> k in x.rounds || k.name.Unknown?
  {
    hide Record;
    if n > 0 {
      StoredKeys(log, max, n - 1);
      UnknownStep(RecordFirst(log, max, n - 1), log[n - 1], max, 0);
    }
  }

  /** Retention never removes them: what is stored under no game is a prefix of what is stored there later. */
  lemma {:induction false} UnknownOnlyGrows(log: seq<Logged>, max: Option<nat>, id: U64, n: nat, m: nat)
    requires n <= m <= |log|
    ensures
      var x, y, k := RecordFirst(log, max, n), RecordFirst(log, max, m), RoundKey(Unknown, id);
      BetsAt(x, k) <= BetsAt(y, k) && PayoutsAt(x, k) <= PayoutsAt(y, k)
    decreases m
  {
    hide Record, Filed, NotIndexed, BetsAt, PayoutsAt;
    if n < m {
      UnknownOnlyGrows(log, max, id, n, m - 1);
      StoredKeys(log, max, m - 1);
      UnknownStep(RecordFirst(log, max, m - 1), log[m - 1], max, id);
    }
  }

  // ----- runs that go wrong

  /** The first n events are bets, one each, of this round id. */
  ghost predicate OneBetEach(log: seq<Logged>, id: U64, n: nat)
    requires n <= |log|
  {
    forall i :: 0 <= i < n ==>
      log[i].event.BetAccepted? && log[i].event.roundId == id && |log[i].event.bets| == 1
  }

  /** Retention does not bound what is stored: n bets of an id that never opens leave no round, whatever the
      limit, and n stored bets. */
  lemma {:induction false} UnknownUnbounded(log: seq<Logged>, max: Option<nat>, id: U64, n: nat)
    requires n <= |log| && OneBetEach(log, id, n)
    ensures
      var x := RecordFirst(log, max, n);
      x.rounds == map[] && |BetsAt(x, RoundKey(Unknown, id))| == n
  {
    hide Record, Filed, BetsAt;
    if n > 0 {
      UnknownUnbounded(log, max, id, n - 1);
      var x := RecordFirst(log, max, n - 1);
      StoredKeys(log, max, n - 1);
      UnknownStep(x, log[n - 1], max, id);
      OthersKeepRounds(x, log[n - 1].event, log[n - 1].height, max);
    } else {
      NothingStored(id);
    }
  }

  lemma NothingStored(id: U64)
    ensures BetsAt(EMPTY, RoundKey(Unknown, id)) == []
  {
  }

  /** Such a log of any length. */
  function BetsLog(id: U64, bet: Bet, player: PublicKey, balances: Balances, n: nat): (log: seq<Logged>)
    ensures |log| == n && OneBetEach(log, id, n)
  {
    seq(n, i requires 0 <= i < n => Logged(BetAccepted(player, id, [bet], balances), i))
  }

  /** The index after a round was opened, and after bets for it were taken. */
  lemma OpenThenBet(x: Index, r: Round, player: PublicKey, bets: seq<Bet>, height: nat)
    requires BetsAt(x, RoundKey(Known(r.game), r.roundId)) == [] && bets != []
    requires RoundKey(Known(r.game), r.roundId) in x.rounds && GameOf(x.rounds, r.roundId) == Known(r.game)
    ensures BetsAt(BetsTaken(x, player, r.roundId, bets, height), RoundKey(Known(r.game), r.roundId)) ==
            Indexed(player, bets, height)
  {
    hide GameOf, PlayersOf, BetSum;
  }

  /** A round that is opened, bet on and opened again counts no bets and stores them all. */
  lemma ReopenedDisagrees(r: Round, player: PublicKey, bets: seq<Bet>, balances: Balances)
    requires bets != []
    ensures
      var log := [Logged(RoundOpened(r), 0), Logged(BetAccepted(player, r.roundId, bets, balances), 1),
                  Logged(RoundOpened(r), 2)];
      var x, k := RecordFirst(log, None, 3), RoundKey(Known(r.game), r.roundId);
      k in x.rounds && BetDrift(x, k) == |bets| && !Agrees(x, k, Opening(log, k, 3))
  {
    hide TotalWagered, BetSum, PlayersOf, GameOf, Agrees, Opening, BetsTaken;
    var log := [Logged(RoundOpened(r), 0), Logged(BetAccepted(player, r.roundId, bets, balances), 1),
                Logged(RoundOpened(r), 2)];
    var k := RoundKey(Known(r.game), r.roundId);
    assert RecordFirst(log, None, 0) == EMPTY;
    var x := RecordFirst(log, None, 1);
    assert x == Opened(EMPTY, r, 0) && x.rounds.Keys == {k};
    GameOfExactly(x.rounds, k);
    OpenThenBet(x, r, player, bets, 1);
    assert RecordFirst(log, None, 2) == BetsTaken(x, player, r.roundId, bets, 1);
    assert RecordFirst(log, None, 3) == Opened(RecordFirst(log, None, 2), r, 2);
    AgreementExactly(log, None, 2, k, 3);
  }

  /** With one id opened in two games, a bet lands in the round of the game earlier in key order; the later
      game's round has none, whichever game it was for. */
  lemma SharedIdRun(r: Round, s: Round, player: PublicKey, bets: seq<Bet>, balances: Balances)
    requires r.roundId == s.roundId && r.game < s.game && bets != []
    ensures
      var log := [Logged(RoundOpened(r), 0), Logged(RoundOpened(s), 1),
                  Logged(BetAccepted(player, s.roundId, bets, balances), 2)];
      var x := RecordFirst(log, None, 3);
      var first, second := RoundKey(Known(r.game), r.roundId), RoundKey(Known(s.game), s.roundId);
      && second in x.rounds && BetsAt(x, second) == [] && BetsSince(log, second, 3) == Indexed(player, bets, 2)
      && BetsAt(x, first) == Indexed(player, bets, 2)
  {
    hide TotalWagered, BetSum, PlayersOf, GameOf, BetsTaken;
    var log := [Logged(RoundOpened(r), 0), Logged(RoundOpened(s), 1),
                Logged(BetAccepted(player, s.roundId, bets, balances), 2)];
    var first, second := RoundKey(Known(r.game), r.roundId), RoundKey(Known(s.game), s.roundId);
    assert RecordFirst(log, None, 0) == EMPTY;
    assert RecordFirst(log, None, 1) == Opened(EMPTY, r, 0);
    var x := RecordFirst(log, None, 2);
    assert x == Opened(Opened(EMPTY, r, 0), s, 1) && x.rounds.Keys == {first, second};
    GameOfExactly(x.rounds, first);
    OpenThenBet(x, r, player, bets, 2);
    assert RecordFirst(log, None, 3) == BetsTaken(x, player, s.roundId, bets, 2);
    SharedIdIsMisfiled(x, r.game, s.game, log[2], None);
    assert BetsSince(log, second, 2) == [];
  }
}

/** The phase and the heights of an indexed round over a run. */
module RoundStatus {
  import opened Common
  import opened RoundEvents
  import opened RoundIndexing
  import opened RoundIndexRuns
  import RoundScheduler

  datatype Mark = LockMark | OutcomeMark | FinalMark

  /** The mark an event leaves on round k. */
  function MarkOf(e: Event, k: RoundKey): Option<Mark> {
    match e
    case RoundLocked(g, id, _) => if k == RoundKey(Known(g), id) then Some(LockMark) else None
    case Outcome(r) => if k == RoundKey(Known(r.game), r.roundId) then Some(OutcomeMark) else None
    case Finalized(g, id) => if k == RoundKey(Known(g), id) then Some(FinalMark) else None
    case _ => None
  }

  /** The position just after the last such mark on k since it opened; zero if there is none. */
  function LastMark(log: seq<Logged>, k: RoundKey, marks: set<Mark>, n: nat): (r: nat)
    requires n <= |log|
    ensures r <= n
    ensures r > 0 ==> MarkOf(log[r - 1].event, k).Some? && MarkOf(log[r - 1].event, k).value in marks
  {
    if n == 0 || OpensAt(log, n - 1, k) then 0
    else if MarkOf(log[n - 1].event, k).Some? && MarkOf(log[n - 1].event, k).value in marks then n
    else LastMark(log, k, marks, n - 1)
  }

  /** The height of the last such mark. */
  function MarkHeight(log: seq<Logged>, k: RoundKey, mark: Mark, n: nat): Option<nat>
    requires n <= |log|
  {
    var at := LastMark(log, k, {mark}, n);
    if at == 0 then None else Some(log[at - 1].height)
  }

  /** What the last mark of any kind says of the phase of a round opened in `opening`. */
  function PhaseAfter(log: seq<Logged>, k: RoundKey, opening: RoundScheduler.Phase, n: nat): IndexedPhase
    requires n <= |log|
  {
    var at := LastMark(log, k, {LockMark, OutcomeMark, FinalMark}, n);
    if at == 0 then InPhase(opening)
    else
      match log[at - 1].event
      case RoundLocked(_, _, _) => InPhase(RoundScheduler.Locked)
      case Outcome(r) => InPhase(r.phase)
      case _ => FinalizedPhase
  }

  /** The round as the last outcome of k reported it; as it opened if there was none. */
  function Reported(log: seq<Logged>, k: RoundKey, opening: Round, n: nat): Round
    requires n <= |log|
  {
    var at := LastMark(log, k, {OutcomeMark}, n);
    if at == 0 then opening else log[at - 1].event.round
  }

  ghost predicate StatusIs(log: seq<Logged>, k: RoundKey, i: nat, n: nat, r: IndexedRound)
    requires i < n <= |log| && OpensAt(log, i, k)
  {
    && r.openedAt == log[i].height
    && r.lockedAt == MarkHeight(log, k, LockMark, n)
    && r.outcomeAt == MarkHeight(log, k, OutcomeMark, n)
    && r.finalizedAt == MarkHeight(log, k, FinalMark, n)
    && r.phase == PhaseAfter(log, k, log[i].event.round.phase, n)
    && r.d1 == Reported(log, k, log[i].event.round, n).d1
    && r.d2 == Reported(log, k, log[i].event.round, n).d2
  }

  /** r becomes t by the mark, if any, that the event leaves on round k. */
  ghost predicate MarkedBy(r: IndexedRound, t: IndexedRound, e: Logged, k: RoundKey) {
    var mark, now := MarkOf(e.event, k), Some(e.height);
    && t.openedAt == r.openedAt
    && t.lockedAt == (if mark == Some(LockMark) then now else r.lockedAt)
    && t.outcomeAt == (if mark == Some(OutcomeMark) then now else r.outcomeAt)
    && t.finalizedAt == (if mark == Some(FinalMark) then now else r.finalizedAt)
    && t.d1 == (if mark == Some(OutcomeMark) then e.event.round.d1 else r.d1)
    && t.d2 == (if mark == Some(OutcomeMark) then e.event.round.d2 else r.d2)
    && t.phase == if mark == Some(LockMark) then InPhase(RoundScheduler.Locked)
                  else if mark == Some(OutcomeMark) then InPhase(e.event.round.phase)
                  else if mark == Some(FinalMark) then FinalizedPhase
                  else r.phase
  }

  /** A round that stays indexed changes its phase and heights only by a mark on it. */
  lemma MarkStep(x: Index, e: Logged, max: Option<nat>, k: RoundKey)
    requires k in x.rounds && k in Record(x, e.event, e.height, max).rounds
    requires e.event.RoundOpened? ==> k != RoundKey(Known(e.event.round.game), e.event.round.roundId)
    ensures MarkedBy(x.rounds[k], Record(x, e.event, e.height, max).rounds[k], e, k)
  {
    hide EnforceRounds, Opened, BetsTaken, Settled;
    match e.event
    case RoundOpened(r) => OtherOpening(x, r, e.height, max, k);
    case BetAccepted(player, id, bets, _) => EntriesLeaveStatus(x, player, id, bets, 0, e.height, k);
    case PlayerSettled(player, id, payout, _, _) => EntriesLeaveStatus(x, player, id, [], payout, e.height, k);
    case _ =>
  }

  lemma OtherOpening(x: Index, r: Round, height: nat, max: Option<nat>, k: RoundKey)
    requires k in x.rounds && k in Record(x, RoundOpened(r), height, max).rounds
    requires k != RoundKey(Known(r.game), r.roundId)
    ensures Record(x, RoundOpened(r), height, max).rounds[k] == x.rounds[k]
  {
    hide EnforceRounds, TotalWagered;
    RetainedShrinks(Opened(x, r, height), max, Record(x, RoundOpened(r), height, max));
  }

  ghost predicate SameStatus(r: IndexedRound, t: IndexedRound) {
    t == r.(totalBet := t.totalBet, totalPayout := t.totalPayout, betCount := t.betCount, playerCount := t.playerCount)
  }

  lemma EntriesLeaveStatus(x: Index, player: PublicKey, id: U64, bets: seq<Bet>, payout: int, height: nat, k: RoundKey)
    requires k in x.rounds
    ensures
      var y, z := BetsTaken(x, player, id, bets, height), Settled(x, player, id, payout, height);
      && k in y.rounds && SameStatus(x.rounds[k], y.rounds[k])
      && k in z.rounds && SameStatus(x.rounds[k], z.rounds[k])
  {
    hide GameOf, BetSum, PlayersOf, Indexed;
  }

  lemma StatusStep(log: seq<Logged>, k: RoundKey, i: nat, n: nat, r: IndexedRound, t: IndexedRound)
    requires i < n < |log| && OpensAt(log, i, k) && !OpensAt(log, n, k)
    requires StatusIs(log, k, i, n, r) && MarkedBy(r, t, log[n], k)
    ensures StatusIs(log, k, i, n + 1, t)
  {
    hide MarkHeight, PhaseAfter, Reported;
    HeightStep(log, k, LockMark, n);
    HeightStep(log, k, OutcomeMark, n);
    HeightStep(log, k, FinalMark, n);
    PhaseStep(log, k, log[i].event.round.phase, n);
    ReportedStep(log, k, log[i].event.round, n);
  }

  lemma HeightStep(log: seq<Logged>, k: RoundKey, mark: Mark, n: nat)
    requires n < |log| && !OpensAt(log, n, k)
    ensures MarkHeight(log, k, mark, n + 1) ==
            if MarkOf(log[n].event, k) == Some(mark) then Some(log[n].height) else MarkHeight(log, k, mark, n)
  {
    hide OpensAt, MarkOf;
  }

  lemma PhaseStep(log: seq<Logged>, k: RoundKey, opening: RoundScheduler.Phase, n: nat)
    requires n < |log| && !OpensAt(log, n, k)
    ensures
      var mark := MarkOf(log[n].event, k);
      PhaseAfter(log, k, opening, n + 1) ==
      if mark == Some(LockMark) then InPhase(RoundScheduler.Locked)
      else if mark == Some(OutcomeMark) then InPhase(log[n].event.round.phase)
      else if mark == Some(FinalMark) then FinalizedPhase
      else PhaseAfter(log, k, opening, n)
  {
    hide OpensAt;
  }

  lemma ReportedStep(log: seq<Logged>, k: RoundKey, opening: Round, n: nat)
    requires n < |log| && !OpensAt(log, n, k)
    ensures Reported(log, k, opening, n + 1) ==
            if MarkOf(log[n].event, k) == Some(OutcomeMark) then log[n].event.round else Reported(log, k, opening, n)
  {
    hide OpensAt;
  }

  lemma OpenedStatus(log: seq<Logged>, max: Option<nat>, k: RoundKey, i: nat)
    requires i < |log| && OpensAt(log, i, k) && k in RecordFirst(log, max, i + 1).rounds
    ensures StatusIs(log, k, i, i + 1, RecordFirst(log, max, i + 1).rounds[k])
  {
    hide EnforceRounds, TotalWagered, GameOf;
    var x := RecordFirst(log, max, i);
    RetainedShrinks(Opened(x, log[i].event.round, log[i].height), max, RecordFirst(log, max, i + 1));
  }

  /** In every run, the heights of an indexed round are those of its last opening and of the last lock,
      outcome and finalization of it since, its phase is what the last of these says, and its dice are
      those of the last outcome. */
  lemma {:induction false} StatusIsRaw(log: seq<Logged>, max: Option<nat>, k: RoundKey, n: nat) returns (i: nat)
    requires n <= |log| && k in RecordFirst(log, max, n).rounds
    ensures i < n && OpensAt(log, i, k) && forall j :: i < j < n ==> !OpensAt(log, j, k)
    ensures StatusIs(log, k, i, n, RecordFirst(log, max, n).rounds[k])
  {
    hide Record, InStep, StatusIs, MarkedBy;
    if n == 0 {
      assert false;
    } else if OpensAt(log, n - 1, k) {
      i := n - 1;
      OpenedStatus(log, max, k, i);
    } else {
      var x, e, height := RecordFirst(log, max, n - 1), log[n - 1].event, log[n - 1].height;
      StepInStep(x, e, height, max, k);
      i := StatusIsRaw(log, max, k, n - 1);
      MarkStep(x, log[n - 1], max, k);
      StatusStep(log, k, i, n - 1, x.rounds[k], RecordFirst(log, max, n).rounds[k]);
    }
  }
}

/** The explorer's round maps, updated in place. */
module RoundIndex {
  import opened Common
  import opened RoundEvents
  import opened RoundIndexing
  import BlockMaps

  class ExplorerRounds {
    var rounds: map<RoundKey, IndexedRound>
    var bets: map<RoundKey, seq<IndexedBet>>
    var payouts: map<RoundKey, seq<IndexedPayout>>
    var byHeight: map<nat, seq<RoundKey>>
    const maxRounds: Option<nat>

    function View(): Index
      reads this
    {
      Index(rounds, bets, payouts, byHeight)
    }

    constructor (maxRounds: Option<nat>)
      ensures View() == EMPTY && this.maxRounds == maxRounds
    {
      this.maxRounds := maxRounds;
      rounds, bets, payouts, byHeight := map[], map[], map[], map[];
    }

    method RemoveRounds(keys: seq<RoundKey>)
      modifies this
      ensures View() == Forget(old(View()), set k | k in keys)
    {
      ghost var gone := {};
      for i := 0 to |keys|
        invariant gone == set k | k in keys[..i]
        invariant View() == Forget(old(View()), gone)
      {
        assert keys[..i + 1] == keys[..i] + [keys[i]];
        gone := gone + {keys[i]};
        rounds := rounds - {keys[i]};
        bets := bets - {keys[i]};
        payouts := payouts - {keys[i]};
      }
      assert keys[..|keys|] == keys;
    }

    method EnforceRoundRetention()
      modifies this
      ensures View() == if maxRounds.None? then old(View()) else EnforceRounds(old(View()), maxRounds.value)
    {
      if maxRounds.None? {
        return;
      }
      while |rounds| > maxRounds.value && byHeight != map[]
        invariant EnforceRounds(View(), maxRounds.value) == EnforceRounds(old(View()), maxRounds.value)
        decreases |byHeight|
      {
        var h := BlockMaps.Least(byHeight.Keys);
        var keys := byHeight[h];
        RemovedKey(byHeight, h);
        byHeight := byHeight - {h};
        RemoveRounds(keys);
      }
    }

    method StoreBets(k: RoundKey, player: PublicKey, accepted: seq<Bet>, height: nat)
      modifies this
      ensures
        var stored := BetsAt(old(View()), k) + Indexed(player, accepted, height);
        View() == old(View()).(bets := if accepted == [] then old(bets) else old(bets)[k := stored])
    {
      var stored := if k in bets then bets[k] else [];
      ghost var taken := Indexed(player, accepted, height);
      for i := 0 to |accepted|
        invariant rounds == old(rounds) && payouts == old(payouts) && byHeight == old(byHeight)
        invariant |stored| >= i && stored == BetsAt(old(View()), k) + taken[..i]
        invariant bets == if i == 0 then old(bets) else old(bets)[k := stored]
      {
        var bet := accepted[i];
        stored := stored + [IndexedBet(player, bet.betType, bet.target, bet.amount, height)];
        bets := bets[k := stored];
      }
      assert taken[..|accepted|] == taken;
    }

    method RecordBets(player: PublicKey, id: U64, accepted: seq<Bet>, height: nat)
      modifies this
      ensures View() == BetsTaken(old(View()), player, id, accepted, height)
    {
      hide GameOf, PlayersOf, BetSum, Indexed;
      var k := RoundKey(GameOf(rounds, id), id);
      StoreBets(k, player, accepted, height);
      if k in rounds {
        var r := rounds[k];
        var players := if k in bets then PlayersOf(bets[k]) else {};
        NoPlayers();
        rounds := rounds[k := r.(totalBet := r.totalBet + BetSum(accepted), betCount := r.betCount + |accepted|,
                                 playerCount := |players|)];
      }
    }

    method RecordEvent(e: Event, height: nat)
      modifies this
      ensures View() == Record(old(View()), e, height, maxRounds)
    {
      hide EnforceRounds, GameOf, BetsTaken, TotalWagered;
      match e
      case RoundOpened(r) =>
        var k := RoundKey(Known(r.game), r.roundId);
        rounds := rounds[k := IndexedRound(InPhase(r.phase), height, None, None, None, r.d1, r.d2,
                                           TotalWagered(r.totals), 0, 0, 0)];
        var listed := if height in byHeight then byHeight[height] else [];
        byHeight := byHeight[height := listed + [k]];
        EnforceRoundRetention();
      case RoundLocked(g, id, _) =>
        var k := RoundKey(Known(g), id);
        if k in rounds {
          rounds := rounds[k := rounds[k].(phase := InPhase(RoundScheduler.Locked), lockedAt := Some(height))];
        }
      case Outcome(r) =>
        var k := RoundKey(Known(r.game), r.roundId);
        if k in rounds {
          rounds := rounds[k := rounds[k].(phase := InPhase(r.phase), outcomeAt := Some(height),
                                           d1 := r.d1, d2 := r.d2)];
        }
      case Finalized(g, id) =>
        var k := RoundKey(Known(g), id);
        if k in rounds {
          rounds := rounds[k := rounds[k].(phase := FinalizedPhase, finalizedAt := Some(height))];
        }
      case BetAccepted(player, id, accepted, _) =>
        RecordBets(player, id, accepted, height);
      case PlayerSettled(player, id, payout, _, _) =>
        var k := RoundKey(GameOf(rounds, id), id);
        var stored := if k in payouts then payouts[k] else [];
        payouts := payouts[k := stored + [IndexedPayout(player, payout, height)]];
        if k in rounds {
          rounds := rounds[k := rounds[k].(totalPayout := rounds[k].totalPayout + payout)];
        }
      case BetRejected(_, _) =>
      case OtherEvent(_) =>
    }
  }

  lemma NoPlayers()
    ensures PlayersOf([]) == {}
  {
  }
}

/** Totals over the finalized rounds, overall and per game. */
module RoundStats {
  import opened Common
  import opened Sums
  import opened RoundEvents
  import opened RoundIndexing

  datatype Stats = Stats(volume: nat, payouts: int, rounds: nat, bets: nat, profitable: nat, players: set<PublicKey>) {
    function Plus(other: Stats): Stats {
      Stats(volume + other.volume, payouts + other.payouts, rounds + other.rounds, bets + other.bets,
            profitable + other.profitable, players + other.players)
    }
  }

  const NOTHING := Stats(0, 0, 0, 0, 0, {})

  datatype Query = Query(game: Option<GameName>, lowest: Option<nat>, highest: Option<nat>)

  predicate Selects(q: Query, k: RoundKey, r: IndexedRound) {
    && (q.game.Some? ==> k.name == q.game.value)
    && (q.lowest.Some? ==> q.lowest.value <= r.openedAt)
    && (q.highest.Some? ==> r.openedAt <= q.highest.value)
    && r.phase.FinalizedPhase?
  }

  function Share(x: Index, k: RoundKey): Stats
    requires k in x.rounds
  {
    var r := x.rounds[k];
    var profitable := if r.totalPayout > r.totalBet then 1 else 0;
    Stats(r.totalBet, r.totalPayout, 1, r.betCount, profitable, PlayersOf(BetsAt(x, k)))
  }

  /** keys lists the indexed rounds, each once. */
  ghost predicate Enumerates(keys: seq<RoundKey>, x: Index) {
    && (forall k :: k in keys <==> k in x.rounds)
    && forall i, j :: 0 <= i < j < |keys| ==> keys[i] != keys[j]
  }

  function StatsFirst(x: Index, keys: seq<RoundKey>, q: Query, n: nat): Stats
    requires n <= |keys| && forall k :: k in keys ==> k in x.rounds
  {
    if n == 0 then NOTHING
    else
      var before := StatsFirst(x, keys, q, n - 1);
      if Selects(q, keys[n - 1], x.rounds[keys[n - 1]]) then before.Plus(Share(x, keys[n - 1])) else before
  }

  method ComputeAggregatedStats(x: Index, keys: seq<RoundKey>, q: Query) returns (s: Stats)
    requires Enumerates(keys, x)
    ensures s == StatsFirst(x, keys, q, |keys|)
  {
    var volume, payouts, rounds, bets, profitable, players := 0, 0, 0, 0, 0, {};
    for i := 0 to |keys|
      invariant volume >= 0 && rounds >= 0 && bets >= 0 && profitable >= 0
      invariant StatsFirst(x, keys, q, i) == Stats(volume, payouts, rounds, bets, profitable, players)
    {
      var k := keys[i];
      var r := x.rounds[k];
      if Selects(q, k, r) {
        volume := volume + r.totalBet;
        payouts := payouts + r.totalPayout;
        rounds := rounds + 1;
        bets := bets + r.betCount;
        if r.totalPayout > r.totalBet {
          profitable := profitable + 1;
        }
        players := CollectPlayers(players, BetsAt(x, k));
      }
    }
    s := Stats(volume, payouts, rounds, bets, profitable, players);
  }

  method CollectPlayers(players: set<PublicKey>, bets: seq<IndexedBet>) returns (all: set<PublicKey>)
    ensures all == players + PlayersOf(bets)
  {
    all := players;
    for i := 0 to |bets|
      invariant all == players + PlayersOf(bets[..i])
    {
      assert bets[..i + 1] == bets[..i] + [bets[i]];
      all := all + {bets[i].player};
    }
    assert bets[..|bets|] == bets;
  }

  /** The totals of the first m games, those without rounds left out. */
  function BreakdownSum(x: Index, keys: seq<RoundKey>, games: seq<GameName>, q: Query, n: nat, m: nat): Stats
    requires n <= |keys| && (forall k :: k in keys ==> k in x.rounds) && m <= |games|
  {
    if m == 0 then NOTHING
    else
      var before := BreakdownSum(x, keys, games, q, n, m - 1);
      var s := StatsFirst(x, keys, q.(game := Some(games[m - 1])), n);
      if s.rounds > 0 then before.Plus(s) else before
  }

  lemma {:induction false} NoRoundsNothing(x: Index, keys: seq<RoundKey>, q: Query, n: nat)
    requires n <= |keys| && forall k :: k in keys ==> k in x.rounds
    ensures StatsFirst(x, keys, q, n).rounds == 0 ==> StatsFirst(x, keys, q, n) == NOTHING
  {
    if n > 0 {
      NoRoundsNothing(x, keys, q, n - 1);
    }
  }

  lemma {:induction false} NoKeysNothing(x: Index, keys: seq<RoundKey>, games: seq<GameName>, q: Query, m: nat)
    requires (forall k :: k in keys ==> k in x.rounds) && m <= |games|
    ensures BreakdownSum(x, keys, games, q, 0, m) == NOTHING
  {
    if m > 0 {
      NoKeysNothing(x, keys, games, q, m - 1);
    }
  }

  lemma PlusNothing(a: Stats)
    ensures a.Plus(NOTHING) == a
  {
  }

  lemma PlusMiddle(a: Stats, b: Stats, c: Stats)
    ensures a.Plus(b.Plus(c)) == a.Plus(b).Plus(c)
    ensures a.Plus(c).Plus(b) == a.Plus(b).Plus(c)
  {
    assert a.players + (b.players + c.players) == a.players + b.players + c.players;
    assert a.players + c.players + b.players == a.players + b.players + c.players;
  }

  predicate Among(name: GameName, games: seq<GameName>, m: nat)
    requires m <= |games|
  {
    exists i :: 0 <= i < m && games[i] == name
  }

  /** One more round changes the total of its own game and no other. */
  lemma {:induction false} OneMoreRound(x: Index, keys: seq<RoundKey>, games: seq<GameName>, q: Query, n: nat, m: nat)
    requires 0 < n <= |keys| && (forall k :: k in keys ==> k in x.rounds) && m <= |games| && q.game.None?
    requires forall i, j :: 0 <= i < j < |games| ==> games[i] != games[j]
    ensures
      var k := keys[n - 1];
      var before, after := BreakdownSum(x, keys, games, q, n - 1, m), BreakdownSum(x, keys, games, q, n, m);
      after == if Among(k.name, games, m) && Selects(q, k, x.rounds[k]) then before.Plus(Share(x, k)) else before
  {
    hide Share, Stats.Plus, StatsFirst, Selects;
    if m > 0 {
      OneMoreRound(x, keys, games, q, n, m - 1);
      hide BreakdownSum;
      var k, own := keys[n - 1], q.(game := Some(games[m - 1]));
      OwnStats(x, keys, q, games[m - 1], n);
      assert Among(k.name, games, m) <==> Among(k.name, games, m - 1) || k.name == games[m - 1];
      AddListed(x, keys, games, q, n - 1, m);
      AddListed(x, keys, games, q, n, m);
      PlusMiddle(BreakdownSum(x, keys, games, q, n - 1, m - 1), StatsFirst(x, keys, own, n - 1), Share(x, k));
    }
  }

  lemma OwnStats(x: Index, keys: seq<RoundKey>, q: Query, g: GameName, n: nat)
    requires 0 < n <= |keys| && (forall k :: k in keys ==> k in x.rounds) && q.game.None?
    ensures
      var k, own := keys[n - 1], q.(game := Some(g));
      StatsFirst(x, keys, own, n) ==
      if k.name == g && Selects(q, k, x.rounds[k]) then StatsFirst(x, keys, own, n - 1).Plus(Share(x, k))
      else StatsFirst(x, keys, own, n - 1)
  {
    hide Share, Stats.Plus;
  }

  /** Leaving out a game without rounds changes nothing. */
  lemma AddListed(x: Index, keys: seq<RoundKey>, games: seq<GameName>, q: Query, n: nat, m: nat)
    requires n <= |keys| && (forall k :: k in keys ==> k in x.rounds) && 0 < m <= |games|
    ensures BreakdownSum(x, keys, games, q, n, m) ==
            BreakdownSum(x, keys, games, q, n, m - 1).Plus(StatsFirst(x, keys, q.(game := Some(games[m - 1])), n))
  {
    NoRoundsNothing(x, keys, q.(game := Some(games[m - 1])), n);
    PlusNothing(BreakdownSum(x, keys, games, q, n, m - 1));
  }

  /** The overall totals are those of the per-game breakdown added up. */
  lemma {:induction false} BreakdownAddsUp(x: Index, keys: seq<RoundKey>, games: seq<GameName>, q: Query, n: nat)
    requires n <= |keys| && (forall k :: k in keys ==> k in x.rounds) && q.game.None?
    requires forall i, j :: 0 <= i < j < |games| ==> games[i] != games[j]
    requires forall k :: k in x.rounds ==> k.name in games
    ensures StatsFirst(x, keys, q, n) == BreakdownSum(x, keys, games, q, n, |games|)
  {
    hide Share, Selects;
    if n == 0 {
      NoKeysNothing(x, keys, games, q, |games|);
    } else {
      BreakdownAddsUp(x, keys, games, q, n - 1);
      OneMoreRound(x, keys, games, q, n, |games|);
      assert Among(keys[n - 1].name, games, |games|);
    }
  }
}

/** The aggregated totals as sums over the rounds that count. */
module StatsMeaning {
  import opened Common
  import opened Sums
  import opened RoundEvents
  import opened RoundIndexing
  import opened RoundStats

  /** The selected rounds among the first n keys. */
  function Chosen(x: Index, keys: seq<RoundKey>, q: Query, n: nat): seq<RoundKey>
    requires n <= |keys| && forall k :: k in keys ==> k in x.rounds
  {
    if n == 0 then []
    else
      var before := Chosen(x, keys, q, n - 1);
      if Selects(q, keys[n - 1], x.rounds[keys[n - 1]]) then before + [keys[n - 1]] else before
  }

  /** The round is finalized, of the game asked for, and was opened within the heights asked for. */
  ghost predicate Counts(x: Index, q: Query, k: RoundKey) {
    && k in x.rounds && x.rounds[k].phase == FinalizedPhase
    && (q.game.None? || q.game.value == k.name)
    && (q.lowest.None? || x.rounds[k].openedAt >= q.lowest.value)
    && (q.highest.None? || x.rounds[k].openedAt <= q.highest.value)
  }

  lemma {:induction false} ChosenAmong(x: Index, keys: seq<RoundKey>, q: Query, n: nat)
    requires n <= |keys| && (forall k :: k in keys ==> k in x.rounds)
    requires forall i, j :: 0 <= i < j < |keys| ==> keys[i] != keys[j]
    ensures
      var c := Chosen(x, keys, q, n);
      && (forall k :: k in c <==> Counts(x, q, k) && exists i :: 0 <= i < n && keys[i] == k)
      && forall i, j :: 0 <= i < j < |c| ==> c[i] != c[j]
  {
    if n > 0 {
      ChosenAmong(x, keys, q, n - 1);
      var before, c := Chosen(x, keys, q, n - 1), Chosen(x, keys, q, n);
      assert forall i :: 0 <= i < n - 1 ==> keys[i] != keys[n - 1];
      assert keys[n - 1] !in before;
      forall k ensures k in c <==> k in before || (k == keys[n - 1] && Counts(x, q, k)) {
      }
    }
  }

  /** The rounds that count are chosen, each once. */
  lemma ChosenExactly(x: Index, keys: seq<RoundKey>, q: Query)
    requires Enumerates(keys, x)
    ensures
      var c := Chosen(x, keys, q, |keys|);
      (forall k :: k in c <==> Counts(x, q, k)) && forall i, j :: 0 <= i < j < |c| ==> c[i] != c[j]
  {
    hide Chosen;
    ChosenAmong(x, keys, q, |keys|);
    forall k | Counts(x, q, k) ensures exists i :: 0 <= i < |keys| && keys[i] == k {
      assert k in keys;
    }
  }

  function BetIn(x: Index): RoundKey -> nat {
    (k: RoundKey) => if k in x.rounds then x.rounds[k].totalBet else 0
  }

  function CountIn(x: Index): RoundKey -> nat {
    (k: RoundKey) => if k in x.rounds then x.rounds[k].betCount else 0
  }

  function PaidIn(x: Index, c: seq<RoundKey>, n: nat): int
    requires n <= |c|
  {
    if n == 0 then 0 else PaidIn(x, c, n - 1) + if c[n - 1] in x.rounds then x.rounds[c[n - 1]].totalPayout else 0
  }

  function ProfitIn(x: Index): RoundKey -> nat {
    (k: RoundKey) => if k in x.rounds && x.rounds[k].totalPayout > x.rounds[k].totalBet then 1 else 0
  }

  /** Everyone with a stored bet in one of the rounds. */
  ghost function PlayersIn(x: Index, c: seq<RoundKey>): set<PublicKey> {
    set k, b | k in c && b in BetsAt(x, k) :: b.player
  }

  ghost predicate SumsOver(x: Index, c: seq<RoundKey>, s: Stats) {
    && s.rounds == |c|
    && s.volume == Sum(c, BetIn(x), |c|) && s.bets == Sum(c, CountIn(x), |c|)
    && s.payouts == PaidIn(x, c, |c|) && s.profitable == Sum(c, ProfitIn(x), |c|)
    && s.players == PlayersIn(x, c)
  }

  lemma {:induction false} PaidPrefix(x: Index, a: seq<RoundKey>, b: seq<RoundKey>, n: nat)
    requires n <= |a| && n <= |b| && forall i :: 0 <= i < n ==> a[i] == b[i]
    ensures PaidIn(x, a, n) == PaidIn(x, b, n)
  {
    if n > 0 {
      PaidPrefix(x, a, b, n - 1);
    }
  }

  lemma OneMoreSum(x: Index, c: seq<RoundKey>, k: RoundKey, s: Stats)
    requires SumsOver(x, c, s) && k in x.rounds
    ensures SumsOver(x, c + [k], s.Plus(Share(x, k)))
  {
    var more := c + [k];
    SumPrefix(c, more, BetIn(x), |c|);
    SumPrefix(c, more, CountIn(x), |c|);
    SumPrefix(c, more, ProfitIn(x), |c|);
    PaidPrefix(x, c, more, |c|);
    assert PlayersIn(x, more) == PlayersIn(x, c) + PlayersOf(BetsAt(x, k));
  }

  /** The totals are the sums over the rounds that count, and the players are those with a bet in one of them. */
  lemma {:induction false} StatsAreSums(x: Index, keys: seq<RoundKey>, q: Query, n: nat)
    requires n <= |keys| && forall k :: k in keys ==> k in x.rounds
    ensures SumsOver(x, Chosen(x, keys, q, n), StatsFirst(x, keys, q, n))
  {
    hide SumsOver, Share, Selects, Stats.Plus;
    if n == 0 {
      NoSums(x);
    } else {
      StatsAreSums(x, keys, q, n - 1);
      if Selects(q, keys[n - 1], x.rounds[keys[n - 1]]) {
        OneMoreSum(x, Chosen(x, keys, q, n - 1), keys[n - 1], StatsFirst(x, keys, q, n - 1));
      }
    }
  }

  lemma NoSums(x: Index)
    ensures SumsOver(x, [], NOTHING)
  {
    assert PlayersIn(x, []) == {};
  }
}
