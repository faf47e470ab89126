/** Player bet histories read from the event log, and their agreement with the replayed totals. */
module RoundQuery {
  import opened Common
  import opened Sums
  import opened Picking
  import opened RoundEvents
  import opened RoundReplay

  datatype BetRecord = BetRecord(roundId: U64, bets: seq<Bet>, balanceAfter: Balances, payout: Option<int>)

  /** The first record of this round, from the i-th on. */
  function FindRecord(records: seq<BetRecord>, id: U64, i: nat): (r: Option<nat>)
    requires i <= |records|
    ensures r.Some? ==> i <= r.value < |records| && records[r.value].roundId == id
    ensures r.None? ==> forall j :: i <= j < |records| ==> records[j].roundId != id
    decreases |records| - i
  {
    if i == |records| then None else if records[i].roundId == id then Some(i) else FindRecord(records, id, i + 1)
  }

  /** What one event adds to a player's records. */
  function Note(records: seq<BetRecord>, e: Event, player: PublicKey): seq<BetRecord> {
    if e.BetAccepted? && e.player == player then
      match FindRecord(records, e.roundId, 0)
      case Some(i) =>
        records[i := records[i].(bets := records[i].bets + e.bets, balanceAfter := e.balances)]
      case None => records + [BetRecord(e.roundId, e.bets, e.balances, None)]
    else if e.PlayerSettled? && e.player == player then
      match FindRecord(records, e.roundId, 0)
      case Some(i) => records[i := records[i].(payout := Some(e.payout), balanceAfter := e.balances)]
      case None => records + [BetRecord(e.roundId, e.myBets, e.balances, Some(e.payout))]
    else records
  }

  function RecordsFirst(events: seq<Event>, player: PublicKey, n: nat): seq<BetRecord>
    requires n <= |events|
  {
    if n == 0 then [] else Note(RecordsFirst(events, player, n - 1), events[n - 1], player)
  }

  function WageredFirst(records: seq<BetRecord>, n: nat): nat
    requires n <= |records|
  {
    if n == 0 then 0 else WageredFirst(records, n - 1) + BetSum(records[n - 1].bets)
  }

  function NetFirst(records: seq<BetRecord>, n: nat): int
    requires n <= |records|
  {
    if n == 0 then 0
    else NetFirst(records, n - 1) + (if records[n - 1].payout.Some? then records[n - 1].payout.value else 0)
  }

  datatype PlayerHistory = PlayerHistory(
    player: PublicKey, game: GameType, records: seq<BetRecord>, totalWagered: nat, netResult: int)

  function HistoryOf(player: PublicKey, game: GameType, records: seq<BetRecord>): PlayerHistory {
    PlayerHistory(player, game, records, WageredFirst(records, |records|), NetFirst(records, |records|))
  }

  method SumRecords(records: seq<BetRecord>) returns (wagered: nat, net: int)
    ensures wagered == WageredFirst(records, |records|) && net == NetFirst(records, |records|)
  {
    wagered, net := 0, 0;
    for n := 0 to |records|
      invariant wagered == WageredFirst(records, n) && net == NetFirst(records, n)
    {
      var bets := records[n].bets;
      var sum := 0;
      for k := 0 to |bets|
        invariant sum == Sum(bets, BetAmount(), k)
      {
        sum := sum + bets[k].amount;
      }
      wagered := wagered + sum;
      if records[n].payout.Some? {
        net := net + records[n].payout.value;
      }
    }
  }

  method QueryPlayerHistory(events: seq<Event>, game: GameType, player: PublicKey) returns (h: PlayerHistory)
    ensures h == HistoryOf(player, game, RecordsFirst(events, player, |events|))
    ensures h.player == player && h.game == game
  {
    var records: seq<BetRecord> := [];
    for n := 0 to |events|
      invariant records == RecordsFirst(events, player, n)
    {
      var e := events[n];
      if e.BetAccepted? && e.player == player {
        var at := FindRecord(records, e.roundId, 0);
        if at.Some? {
          var found := records[at.value];
          records := records[at.value := found.(bets := found.bets + e.bets, balanceAfter := e.balances)];
        } else {
          records := records + [BetRecord(e.roundId, e.bets, e.balances, None)];
        }
      } else if e.PlayerSettled? && e.player == player {
        var at := FindRecord(records, e.roundId, 0);
        if at.Some? {
          records := records[at.value := records[at.value].(payout := Some(e.payout), balanceAfter := e.balances)];
        } else {
          records := records + [BetRecord(e.roundId, e.myBets, e.balances, Some(e.payout))];
        }
      }
    }
    var wagered, net := SumRecords(records);
    h := PlayerHistory(player, game, records, wagered, net);
  }

  // ----- ranges of rounds

  function Within(records: seq<BetRecord>, low: U64, high: U64, n: nat): seq<BetRecord>
    requires n <= |records|
  {
    if n == 0 then []
    else
      var init := Within(records, low, high, n - 1);
      if low <= records[n - 1].roundId <= high then init + [records[n - 1]] else init
  }

  method QueryPlayerHistoryRange(events: seq<Event>, game: GameType, player: PublicKey, low: U64, high: U64)
    returns (h: PlayerHistory)
    ensures
      var records := RecordsFirst(events, player, |events|);
      h == HistoryOf(player, game, Within(records, low, high, |records|))
    ensures h.player == player && h.game == game
  {
    var whole := QueryPlayerHistory(events, game, player);
    var kept: seq<BetRecord> := [];
    for n := 0 to |whole.records|
      invariant kept == Within(whole.records, low, high, n)
    {
      if low <= whole.records[n].roundId && whole.records[n].roundId <= high {
        kept := kept + [whole.records[n]];
      }
    }
    var wagered, net := SumRecords(kept);
    h := whole.(records := kept, totalWagered := wagered, netResult := net);
  }

  lemma {:induction false} SumsPrefix(a: seq<BetRecord>, b: seq<BetRecord>, n: nat)
    requires n <= |a| && n <= |b| && forall i :: 0 <= i < n ==> a[i] == b[i]
    ensures WageredFirst(a, n) == WageredFirst(b, n) && NetFirst(a, n) == NetFirst(b, n)
  {
    if n > 0 {
      SumsPrefix(a, b, n - 1);
    }
  }

  lemma SumsAppend(a: seq<BetRecord>, r: BetRecord)
    ensures WageredFirst(a + [r], |a| + 1) == WageredFirst(a, |a|) + BetSum(r.bets)
    ensures NetFirst(a + [r], |a| + 1) == NetFirst(a, |a|) + (if r.payout.Some? then r.payout.value else 0)
  {
    SumsPrefix(a + [r], a, |a|);
  }

  /** Adjacent ranges add up: no round is counted twice or left out. */
  lemma {:induction false} RangesAddUp(records: seq<BetRecord>, low: U64, mid: U64, high: U64, n: nat)
    requires n <= |records| && low <= mid < high
    ensures
      var whole := Within(records, low, high, n);
      var lower, upper := Within(records, low, mid, n), Within(records, mid + 1, high, n);
      && WageredFirst(whole, |whole|) == WageredFirst(lower, |lower|) + WageredFirst(upper, |upper|)
      && NetFirst(whole, |whole|) == NetFirst(lower, |lower|) + NetFirst(upper, |upper|)
  {
    hide WageredFirst, NetFirst;
    if n > 0 {
      RangesAddUp(records, low, mid, high, n - 1);
      SumsAppend(Within(records, low, high, n - 1), records[n - 1]);
      SumsAppend(Within(records, low, mid, n - 1), records[n - 1]);
      SumsAppend(Within(records, mid + 1, high, n - 1), records[n - 1]);
    } else {
      NoSums();
    }
  }

  lemma NoSums()
    ensures WageredFirst([], 0) == 0 && NetFirst([], 0) == 0
  {
  }

  // ----- one round of one player

  ghost predicate EachRoundOnce(records: seq<BetRecord>) {
    forall i, j :: 0 <= i < j < |records| ==> records[i].roundId != records[j].roundId
  }

  /** What the records say was bet in a round. */
  function RecordedIn(records: seq<BetRecord>, id: U64): nat {
    match FindRecord(records, id, 0)
    case Some(i) => BetSum(records[i].bets)
    case None => 0
  }

  /** What the first n events say this player bet in a round. */
  function PlacedFirst(events: seq<Event>, player: PublicKey, id: U64, n: nat): nat
    requires n <= |events|
  {
    if n == 0 then 0
    else
      var e := events[n - 1];
      PlacedFirst(events, player, id, n - 1) +
      (if e.BetAccepted? && e.player == player && e.roundId == id then BetSum(e.bets) else 0)
  }

  predicate HasRecord(records: seq<BetRecord>, id: U64) {
    FindRecord(records, id, 0).Some?
  }

  predicate HasBet(events: seq<Event>, player: PublicKey, id: U64, n: nat)
    requires n <= |events|
  {
    exists i :: 0 <= i < n && events[i].BetAccepted? && events[i].player == player && events[i].roundId == id
  }

  /** Every settlement of this player in this round comes after a bet. */
  ghost predicate BetsComeFirst(events: seq<Event>, player: PublicKey, id: U64) {
    forall n :: 0 <= n < |events| && events[n].PlayerSettled? && events[n].player == player && events[n].roundId == id
      ==> HasBet(events, player, id, n)
  }

  lemma FindRecordUnique(records: seq<BetRecord>, id: U64, i: nat)
    requires EachRoundOnce(records) && i < |records| && records[i].roundId == id
    ensures FindRecord(records, id, 0) == Some(i)
  {
    hide FindRecord;
    assert FindRecord(records, id, 0).Some?;
  }

  /** What one event does to the record of a round. */
  lemma NoteRound(records: seq<BetRecord>, e: Event, player: PublicKey, id: U64)
    requires EachRoundOnce(records)
    ensures
      var r := Note(records, e, player);
      var mine := (e.BetAccepted? || e.PlayerSettled?) && e.player == player && e.roundId == id;
      && EachRoundOnce(r)
      && (HasRecord(r, id) <==> HasRecord(records, id) || mine)
      && RecordedIn(r, id) ==
         RecordedIn(records, id) +
         (if mine && e.BetAccepted? then BetSum(e.bets)
          else if mine && !HasRecord(records, id) then BetSum(e.myBets) else 0)
  {
    hide FindRecord, Sum;
    var r := Note(records, e, player);
    assert EachRoundOnce(r);
    var at := FindRecord(records, id, 0);
    if at.Some? {
      assert r[at.value].roundId == id;
      FindRecordUnique(r, id, at.value);
      if e.BetAccepted? {
        SumConcat(records[at.value].bets, e.bets, BetAmount(), |e.bets|);
      }
    } else if |r| > |records| && r[|records|].roundId == id {
      FindRecordUnique(r, id, |records|);
    }
  }

  predicate IsOwn(e: Event, player: PublicKey, id: U64) {
    (e.BetAccepted? || e.PlayerSettled?) && e.player == player && e.roundId == id
  }

  predicate HasOwn(events: seq<Event>, player: PublicKey, id: U64, n: nat)
    requires n <= |events|
  {
    exists i :: 0 <= i < n && IsOwn(events[i], player, id)
  }

  /** The bets listed by a settlement that is the first this player's history sees of the round. */
  function Unplaced(events: seq<Event>, player: PublicKey, id: U64, n: nat): nat
    requires n <= |events|
  {
    if n == 0 then 0
    else
      var e := events[n - 1];
      if IsOwn(e, player, id) && e.PlayerSettled? && !HasOwn(events, player, id, n - 1)
      then BetSum(e.myBets)
      else Unplaced(events, player, id, n - 1)
  }

  /** A player's history records each round once, and what it records as bet in a round is what the
      log says the player bet in it plus what an early settlement lists; so the two are equal exactly
      when no settlement that lists bets comes before the player's first bet in the round. */
  lemma {:induction false} HistoryRecordsExactly(events: seq<Event>, player: PublicKey, id: U64, n: nat)
    requires n <= |events|
    ensures
      var records := RecordsFirst(events, player, n);
      && EachRoundOnce(records)
      && RecordedIn(records, id) == PlacedFirst(events, player, id, n) + Unplaced(events, player, id, n)
      && (HasOwn(events, player, id, n) <==> HasRecord(records, id))
      && (!HasOwn(events, player, id, n) ==> Unplaced(events, player, id, n) == 0)
  {
    hide EachRoundOnce, RecordedIn, HasRecord, Note, BetSum;
    if n > 0 {
      HistoryRecordsExactly(events, player, id, n - 1);
      var e := events[n - 1];
      NoteRound(RecordsFirst(events, player, n - 1), e, player, id);
      if HasOwn(events, player, id, n) && !HasOwn(events, player, id, n - 1) {
        assert IsOwn(e, player, id);
      }
      if HasOwn(events, player, id, n - 1) {
        var i :| 0 <= i < n - 1 && IsOwn(events[i], player, id);
        assert HasOwn(events, player, id, n);
      }
      if IsOwn(e, player, id) {
        assert HasOwn(events, player, id, n);
      }
    } else {
      NoRecords(id);
    }
  }

  lemma {:induction false} NothingUnplaced(events: seq<Event>, player: PublicKey, id: U64, n: nat)
    requires n <= |events| && BetsComeFirst(events, player, id)
    ensures Unplaced(events, player, id, n) == 0
  {
    if n > 0 {
      NothingUnplaced(events, player, id, n - 1);
      var e := events[n - 1];
      if IsOwn(e, player, id) && e.PlayerSettled? {
        assert HasBet(events, player, id, n - 1);
        var i :| 0 <= i < n - 1 && events[i].BetAccepted? && events[i].player == player && events[i].roundId == id;
        assert IsOwn(events[i], player, id);
      }
    }
  }

  lemma HistoryRecordsBets(events: seq<Event>, player: PublicKey, id: U64, n: nat)
    requires n <= |events| && BetsComeFirst(events, player, id)
    ensures RecordedIn(RecordsFirst(events, player, n), id) == PlacedFirst(events, player, id, n)
  {
    HistoryRecordsExactly(events, player, id, n);
    NothingUnplaced(events, player, id, n);
  }

  lemma NoRecords(id: U64)
    ensures EachRoundOnce([]) && RecordedIn([], id) == 0 && !HasRecord([], id)
  {
  }

  // ----- the record of a round, field by field

  /** The bets a player's own events of a round list: those accepted, after those of a settlement that comes before
      any other event of the player in the round. */
  function OwnBets(events: seq<Event>, player: PublicKey, id: U64, n: nat): seq<Bet>
    requires n <= |events|
  {
    if n == 0 then []
    else
      var e, before := events[n - 1], OwnBets(events, player, id, n - 1);
      if !IsOwn(e, player, id) then before
      else if e.BetAccepted? then before + e.bets
      else if HasOwn(events, player, id, n - 1) then before
      else e.myBets
  }

  /** The payout of the player's last settlement in the round. */
  function LastPayout(events: seq<Event>, player: PublicKey, id: U64, n: nat): Option<int>
    requires n <= |events|
  {
    if n == 0 then None
    else if IsOwn(events[n - 1], player, id) && events[n - 1].PlayerSettled? then Some(events[n - 1].payout)
    else LastPayout(events, player, id, n - 1)
  }

  /** The balances of the player's last event in the round. */
  function LastBalances(events: seq<Event>, player: PublicKey, id: U64, n: nat): Option<Balances>
    requires n <= |events|
  {
    if n == 0 then None
    else if IsOwn(events[n - 1], player, id) then Some(events[n - 1].balances)
    else LastBalances(events, player, id, n - 1)
  }

  ghost predicate RecordIs(records: seq<BetRecord>, id: U64, bets: seq<Bet>, payout: Option<int>,
                           balances: Option<Balances>)
  {
    match FindRecord(records, id, 0)
    case None => bets == [] && payout == None && balances == None
    case Some(i) => records[i].bets == bets && records[i].payout == payout && Some(records[i].balanceAfter) == balances
  }

  lemma NoteRecord(records: seq<BetRecord>, e: Event, player: PublicKey, id: U64, bets: seq<Bet>, payout: Option<int>,
                   balances: Option<Balances>)
    requires EachRoundOnce(records) && RecordIs(records, id, bets, payout, balances)
    ensures
      var own := IsOwn(e, player, id);
      RecordIs(Note(records, e, player), id,
               if own && e.BetAccepted? then bets + e.bets
               else if own && !HasRecord(records, id) then e.myBets else bets,
               if own && e.PlayerSettled? then Some(e.payout) else payout,
               if own then Some(e.balances) else balances)
  {
    hide FindRecord;
    NoteRound(records, e, player, id);
    var r, at := Note(records, e, player), FindRecord(records, id, 0);
    if at.Some? {
      assert r[at.value].roundId == id;
      FindRecordUnique(r, id, at.value);
    } else if |r| > |records| && r[|records|].roundId == id {
      FindRecordUnique(r, id, |records|);
    }
  }

  /** A player's record of a round holds the bets of the player's own events there, the payout of the last
      settlement, and the balances of the last event; there is none exactly if there is no such event. */
  lemma {:induction false} RecordExactly(events: seq<Event>, player: PublicKey, id: U64, n: nat)
    requires n <= |events|
    ensures
      var records := RecordsFirst(events, player, n);
      && EachRoundOnce(records)
      && (HasRecord(records, id) <==> HasOwn(events, player, id, n))
      && RecordIs(records, id, OwnBets(events, player, id, n), LastPayout(events, player, id, n),
                  LastBalances(events, player, id, n))
  {
    hide EachRoundOnce, RecordIs, HasRecord, Note, HasOwn;
    HistoryRecordsExactly(events, player, id, n);
    if n > 0 {
      RecordExactly(events, player, id, n - 1);
      NoteRecord(RecordsFirst(events, player, n - 1), events[n - 1], player, id, OwnBets(events, player, id, n - 1),
                 LastPayout(events, player, id, n - 1), LastBalances(events, player, id, n - 1));
    } else {
      NothingRecorded(id);
    }
  }

  lemma NothingRecorded(id: U64)
    ensures RecordIs([], id, [], None, None)
  {
  }

  /** How many events it took until the player had one in the round. */
  ghost function FirstOwn(events: seq<Event>, player: PublicKey, id: U64, n: nat): (r: nat)
    requires n <= |events|
    ensures r <= n
  {
    if n == 0 then 0 else if HasOwn(events, player, id, n - 1) then FirstOwn(events, player, id, n - 1) else n
  }

  /** The records are in the order in which the rounds are first mentioned. */
  ghost predicate InFirstOrder(events: seq<Event>, player: PublicKey, n: nat, records: seq<BetRecord>)
    requires n <= |events|
  {
    forall i, j :: 0 <= i < j < |records| ==>
      FirstOwn(events, player, records[i].roundId, n) < FirstOwn(events, player, records[j].roundId, n)
  }

  lemma NoteIds(records: seq<BetRecord>, e: Event, player: PublicKey)
    ensures
      var r := Note(records, e, player);
      && |records| <= |r| <= |records| + 1
      && (forall i :: 0 <= i < |records| ==> r[i].roundId == records[i].roundId)
      && (|r| > |records| ==> IsOwn(e, player, r[|records|].roundId) && !HasRecord(records, r[|records|].roundId))
  {
    hide FindRecord;
  }

  /** A history lists its rounds in the order of the player's first event in each. */
  lemma {:induction false} RecordsInOrder(events: seq<Event>, player: PublicKey, n: nat)
    requires n <= |events|
    ensures InFirstOrder(events, player, n, RecordsFirst(events, player, n))
  {
    hide Note, HasOwn, HasRecord;
    if n > 0 {
      RecordsInOrder(events, player, n - 1);
      var before, records := RecordsFirst(events, player, n - 1), RecordsFirst(events, player, n);
      NoteIds(before, events[n - 1], player);
      forall i | 0 <= i < |records|
        ensures FirstOwn(events, player, records[i].roundId, n) ==
                if i < |before| then FirstOwn(events, player, before[i].roundId, n - 1) else n
      {
        HistoryRecordsExactly(events, player, records[i].roundId, n - 1);
        if i < |before| {
          RecordThere(before, i);
        }
      }
    }
  }

  lemma RecordThere(records: seq<BetRecord>, i: nat)
    requires i < |records|
    ensures HasRecord(records, records[i].roundId)
  {
    hide FindRecord;
  }

  // ----- the records of a range

  function InRange(low: U64, high: U64): BetRecord -> bool {
    (r: BetRecord) => low <= r.roundId && r.roundId <= high
  }

  /** A range keeps exactly the records of the rounds in it, in order. */
  lemma {:induction false} WithinExactly(records: seq<BetRecord>, low: U64, high: U64, n: nat) returns (at: seq<nat>)
    requires n <= |records|
    ensures Picks(records, InRange(low, high), n, Within(records, low, high, n), at)
  {
    hide Picks;
    if n == 0 {
      at := [];
      PickNothing(records, InRange(low, high));
    } else {
      at := WithinExactly(records, low, high, n - 1);
      if InRange(low, high)(records[n - 1]) {
        PickNext(records, InRange(low, high), n - 1, Within(records, low, high, n - 1), at);
        at := at + [n - 1];
      } else {
        SkipNext(records, InRange(low, high), n - 1, Within(records, low, high, n - 1), at);
      }
    }
  }

  // ----- all players of a round

  /** What the first n events say was bet in a round by anyone. */
  function PlacedByAll(events: seq<Event>, id: U64, n: nat): nat
    requires n <= |events|
  {
    if n == 0 then 0
    else
      var e := events[n - 1];
      PlacedByAll(events, id, n - 1) +
      (if e.BetAccepted? && e.roundId == id then BetSum(e.bets) else 0)
  }

  function PlacedBySome(events: seq<Event>, players: seq<PublicKey>, id: U64, n: nat, m: nat): nat
    requires n <= |events| && m <= |players|
  {
    if m == 0 then 0 else PlacedBySome(events, players, id, n, m - 1) + PlacedFirst(events, players[m - 1], id, n)
  }

  ghost predicate Distinct(players: seq<PublicKey>) {
    forall i, j :: 0 <= i < j < |players| ==> players[i] != players[j]
  }

  /** One more event adds its bets to the sum over players once, if its player is among them. */
  lemma {:induction false} OneMoreEvent(events: seq<Event>, players: seq<PublicKey>, id: U64, n: nat, m: nat)
    requires 0 < n <= |events| && m <= |players| && Distinct(players)
    ensures
      var e := events[n - 1];
      PlacedBySome(events, players, id, n, m) ==
      PlacedBySome(events, players, id, n - 1, m) +
      (if e.BetAccepted? && e.roundId == id && e.player in players[..m] then BetSum(e.bets) else 0)
  {
    hide BetSum;
    if m > 0 {
      OneMoreEvent(events, players, id, n, m - 1);
      assert players[..m] == players[..m - 1] + [players[m - 1]];
    }
  }

  lemma {:induction false} PlayersAddUp(events: seq<Event>, players: seq<PublicKey>, id: U64, n: nat)
    requires n <= |events| && Distinct(players)
    requires forall i :: 0 <= i < |events| && events[i].BetAccepted? && events[i].roundId == id ==>
               events[i].player in players
    ensures PlacedBySome(events, players, id, n, |players|) == PlacedByAll(events, id, n)
  {
    if n > 0 {
      PlayersAddUp(events, players, id, n - 1);
      OneMoreEvent(events, players, id, n, |players|);
      assert players[..|players|] == players;
    } else {
      NothingPlaced(events, players, id, |players|);
    }
  }

  lemma {:induction false} NothingPlaced(events: seq<Event>, players: seq<PublicKey>, id: U64, m: nat)
    requires m <= |players|
    ensures PlacedBySome(events, players, id, 0, m) == 0
  {
    if m > 0 {
      NothingPlaced(events, players, id, m - 1);
    }
  }

  // ----- the replayed totals

  /** The log opens the round once, before anything else of it. */
  ghost predicate OpenedOnce(filtered: seq<Event>) {
    && filtered != [] && filtered[0].RoundOpened?
    && forall i :: 1 <= i < |filtered| ==> !filtered[i].RoundOpened?
  }

  /** What the opened round brings along from the rounds before it. */
  ghost function Carried(filtered: seq<Event>): nat
    requires OpenedOnce(filtered)
  {
    TotalWagered(filtered[0].round.totals)
  }

  /** After n > 0 events of the round the totals add up to what the opening carried and those events placed. */
  lemma {:induction false} ReplayedTotals(r: Round, filtered: seq<Event>, game: GameType, id: U64, n: nat)
    requires OpenedOnce(filtered) && 0 < n <= |filtered|
    requires forall i :: 0 <= i < |filtered| ==> Matches(filtered[i], game, id)
    requires Carried(filtered) + PlacedByAll(filtered, id, n) <= U64_MAX
    ensures
      var result := ReplayFirst(r, filtered, n);
      && result.Ok? && result.value.game == game && result.value.roundId == id
      && TotalWagered(result.value.totals) == Carried(filtered) + PlacedByAll(filtered, id, n)
  {
    assert Matches(filtered[n - 1], game, id);
    if n == 1 {
      assert ReplayFirst(r, filtered, 0) == Ok(r);
      assert PlacedByAll(filtered, id, 0) == 0;
    } else {
      ReplayedTotals(r, filtered, game, id, n - 1);
      var before := ReplayFirst(r, filtered, n - 1).value;
      ApplyTotals(before, filtered[n - 1], game, id);
    }
  }

  lemma ApplyTotals(r: Round, e: Event, game: GameType, id: U64)
    requires r.game == game && r.roundId == id && Matches(e, game, id) && !e.RoundOpened?
    requires e.BetAccepted? ==> TotalWagered(r.totals) + BetSum(e.bets) <= U64_MAX
    ensures
      var result := ApplyEvent(r, e);
      && result.Ok? && result.value.game == game && result.value.roundId == id
      && TotalWagered(result.value.totals) ==
         TotalWagered(r.totals) + (if e.BetAccepted? then BetSum(e.bets) else 0)
  {
    hide TotalWagered, AccumulateFirst, Sum;
    if e.BetAccepted? {
      WageredIsConserved(r.totals, e.bets, |e.bets|);
    }
  }

  lemma {:induction false} PlacedPrefix(a: seq<Event>, b: seq<Event>, id: U64, n: nat)
    requires n <= |a| && n <= |b| && forall i :: 0 <= i < n ==> a[i] == b[i]
    ensures PlacedByAll(a, id, n) == PlacedByAll(b, id, n)
  {
    if n > 0 {
      PlacedPrefix(a, b, id, n - 1);
    }
  }

  /** Filtering for a round keeps all its bets. */
  lemma {:induction false} FilterKeepsBets(events: seq<Event>, game: GameType, id: U64, n: nat)
    requires n <= |events|
    ensures
      var filtered := FilterFirst(events, game, id, n);
      PlacedByAll(filtered, id, |filtered|) == PlacedByAll(events, id, n)
  {
    hide BetSum;
    if n > 0 {
      FilterKeepsBets(events, game, id, n - 1);
      var init := FilterFirst(events, game, id, n - 1);
      PlacedPrefix(init + [events[n - 1]], init, id, |init|);
    }
  }

  function HistoriesSum(events: seq<Event>, players: seq<PublicKey>, id: U64, m: nat): nat
    requires m <= |players|
  {
    if m == 0 then 0
    else HistoriesSum(events, players, id, m - 1) + RecordedIn(RecordsFirst(events, players[m - 1], |events|), id)
  }

  lemma {:induction false} HistoriesArePlaced(events: seq<Event>, players: seq<PublicKey>, id: U64, m: nat)
    requires m <= |players| && forall p :: p in players ==> BetsComeFirst(events, p, id)
    ensures HistoriesSum(events, players, id, m) == PlacedBySome(events, players, id, |events|, m)
  {
    hide BetsComeFirst, RecordedIn, RecordsFirst, PlacedFirst;
    if m > 0 {
      HistoriesArePlaced(events, players, id, m - 1);
      HistoryRecordsBets(events, players[m - 1], id, |events|);
    }
  }

  /** Wager conservation across modules: for a round opened once, with bets before settlements and a sum
      that does not saturate, replaying its filtered events succeeds, and the replayed totals add up to what
      the opening carried and the bets that the histories of all its players record for it. */
  lemma WagerConservation(s: RoundSnapshot, events: seq<Event>, game: GameType, id: U64, players: seq<PublicKey>)
    requires Validate(s).None? && OpenedOnce(FilterRoundEvents(events, game, id)) && Distinct(players)
    requires forall i :: 0 <= i < |events| && events[i].BetAccepted? && events[i].roundId == id ==>
               events[i].player in players
    requires forall p :: p in players ==> BetsComeFirst(events, p, id)
    requires Carried(FilterRoundEvents(events, game, id)) + PlacedByAll(events, id, |events|) <= U64_MAX
    ensures
      var filtered := FilterRoundEvents(events, game, id);
      var result := Replay(s, filtered);
      && result.Ok? && result.value.game == game && result.value.roundId == id
      && TotalWagered(result.value.totals) == Carried(filtered) + HistoriesSum(events, players, id, |players|)
  {
    hide BetsComeFirst, OpenedOnce, Carried, FilterFirst, PlacedByAll, TotalWagered, HistoriesSum, PlacedBySome;
    hide ReplayFirst, Distinct;
    var filtered := FilterRoundEvents(events, game, id);
    assert filtered != [] by { NotEmpty(filtered); }
    FilterKeepsBets(events, game, id, |events|);
    ReplayedTotals(ToRound(s), filtered, game, id, |filtered|);
    HistoriesArePlaced(events, players, id, |players|);
    PlayersAddUp(events, players, id, |events|);
  }

  lemma NotEmpty(filtered: seq<Event>)
    requires OpenedOnce(filtered)
    ensures filtered != []
  {
  }
}
