/** What happens once the token counter has wrapped around: a run from an empty index, three touches past
    the last token, after which the index tracks the wrong accounts. */
module AccountWrap {
  import opened Common
  import opened Recency
  import opened AccountLru
  import opened AccountActivity

  /** How many entries the queue has, beyond one, after n touches of one account: every fifth is compacted away. */
  function Spare(n: nat): nat
    requires n > 0
  {
    (n - 1) % 4
  }

  function Tail(n: nat): (queue: seq<Entry>)
    requires n > 0
    ensures |queue| == Spare(n) + 1
    ensures forall i :: 0 <= i <= Spare(n) ==> queue[i] == Entry(0, n - Spare(n) + i)
  {
    seq(Spare(n) + 1, i requires 0 <= i <= Spare(n) => Entry(0, n - Spare(n) + i))
  }

  /** The index after n touches of account 0. */
  function Repeated(n: U64): Index {
    if n == 0 then EMPTY else Index(map[0 := 0], map[0 := n], Tail(n), n)
  }

  lemma FewAccounts(x: Index)
    requires |x.accounts| <= 2
    ensures Evict(x, 2) == x
  {
  }

  /** One more touch lengthens the queue, or leaves its own entry only. */
  lemma TailStep(n: nat)
    requires n > 0
    ensures Tail(n + 1) == if Spare(n) < 3 then Tail(n) + [Entry(0, n + 1)] else [Entry(0, n + 1)]
  {
  }

  lemma RepeatedStep(n: U64)
    requires n < U64_MAX
    ensures Touches(Repeated(n), 2, 0, 0, Repeated(n + 1))
  {
    hide Tail, Evict;
    var pushed := Push(Repeated(n), 0, 0);
    assert pushed.accounts == map[0 := 0] && pushed.lastSeen == map[0 := n + 1];
    assert |pushed.accounts| == 1;
    FewAccounts(pushed);
    if n == 0 {
      assert Tail(1) == [Entry(0, 1)];
    } else {
      TailStep(n);
    }
  }

  /** Touch account 1 twice, past the last token of account 0; the second touch compacts the queue and puts
      the older account last. */
  const FULL: Index := Repeated(U64_MAX)
  const ONCE: Index := Index(map[0 := 0, 1 := 0], map[0 := U64_MAX, 1 := 0], Tail(U64_MAX) + [Entry(1, 0)], 0)
  const TWICE: Index :=
    Index(map[0 := 0, 1 := 0], map[0 := U64_MAX, 1 := 1], [Entry(1, 1), Entry(0, U64_MAX)], 1)
  const AFTER: Index :=
    Index(map[0 := 0, 2 := 0], map[0 := U64_MAX, 2 := 2], [Entry(0, U64_MAX), Entry(2, 2)], 2)

  lemma TwoAccounts(x: Index)
    requires x.accounts.Keys == {0, 1}
    ensures Evict(x, 2) == x
  {
    assert |x.accounts| == |x.accounts.Keys| == 2;
  }

  lemma TouchOnce()
    ensures Touches(FULL, 2, 1, 0, ONCE)
  {
    var pushed := Push(FULL, 1, 0);
    assert pushed == ONCE;
    TwoAccounts(pushed);
  }

  lemma TouchTwice()
    ensures Touches(ONCE, 2, 1, 0, TWICE)
  {
    var pushed := Push(ONCE, 1, 0);
    assert pushed.accounts == TWICE.accounts && pushed.lastSeen == TWICE.lastSeen && |pushed.queue| == 5;
    TwoAccounts(pushed);
    assert |pushed.lastSeen| == 2 by {
      assert pushed.lastSeen.Keys == {0, 1};
      assert |pushed.lastSeen.Keys| == 2;
    }
    forall e ensures e in TWICE.queue <==> IsLive(e, pushed.lastSeen) {
      assert TWICE.queue[0] == Entry(1, 1) && TWICE.queue[1] == Entry(0, U64_MAX);
    }
  }

  lemma TouchAfter()
    ensures Touches(TWICE, 2, 2, 0, AFTER)
  {
    var pushed := Push(TWICE, 2, 0);
    assert pushed.accounts.Keys == {0, 1, 2};
    assert |pushed.accounts| == |pushed.accounts.Keys| == 3;
    assert pushed.queue == [Entry(1, 1), Entry(0, U64_MAX), Entry(2, 2)];
    var popped := Pop(pushed);
    assert popped == AFTER;
    assert popped.accounts.Keys == {0, 2};
    assert |popped.accounts| == |popped.accounts.Keys| == 2;
  }

  /** Past the last token the index is no longer LRU: after 2^64 - 1 touches of account 0, two of account 1 and
      one of account 2, with room for two, account 1 is gone although only account 2 was touched since. */
  lemma WrapBreaksLru() returns (touches: seq<Touch>, states: seq<Index>)
    ensures IsRun(touches, 2, states) && |touches| == U64_MAX + 3
    ensures
      var history, last := KeysOf(touches), states[|touches|];
      && 1 in history && |TouchedSince(history, 1)| < 2 && 1 !in last.accounts
      && 0 in history && |TouchedSince(history, 0)| == 2 && 0 in last.accounts
  {
    hide Touches, Repeated;
    var t0, t1, t2 := Touch(0, 0), Touch(1, 0), Touch(2, 0);
    var many, first := seq(U64_MAX, i => t0), seq(U64_MAX + 1, i requires 0 <= i <= U64_MAX => Repeated(i));
    touches := many + [t1, t1, t2];
    states := first + [ONCE, TWICE, AFTER];
    RunStarts();
    forall i | 0 <= i < |touches| ensures Touches(states[i], 2, touches[i].key, touches[i].height, states[i + 1]) {
      if i < U64_MAX {
        RepeatedStep(i);
      } else if i == U64_MAX {
        TouchOnce();
      } else if i == U64_MAX + 1 {
        TouchTwice();
      } else {
        TouchAfter();
      }
    }
    Since(KeysOf(touches));
  }

  lemma RunStarts()
    ensures Repeated(0) == EMPTY
  {
  }

  lemma Since(history: seq<PublicKey>)
    requires |history| == U64_MAX + 3
    requires history[U64_MAX - 1] == 0 && history[U64_MAX] == history[U64_MAX + 1] == 1 && history[U64_MAX + 2] == 2
    ensures TouchedSince(history, 1) == {2} && TouchedSince(history, 0) == {1, 2}
  {
    var a := history[..U64_MAX + 2];
    var b := a[..U64_MAX + 1];
    var c := b[..U64_MAX];
    assert TouchedSince(a, 1) == {};
    assert TouchedSince(c, 0) == {};
    assert TouchedSince(b, 0) == {1};
    assert TouchedSince(a, 0) == {1};
  }
}
