/** The eligibility snapshot: greedy per-address capping of bids, then pro-rata scaling to a pool. */
module Eligibility {
  import opened Common
  import opened Sums
  import opened Picking

  type Address = nat

  /** A bid as parsed: no address when it is malformed. */
  datatype Bid = Bid(address: Option<Address>, amount: int, successful: bool)

  datatype Claim = Claim(address: Address, amount: nat)

  type Credits = map<Address, int>

  const SCALE := 1_000_000

  // ----- capped claims

  /** No cap at all when there are no linked credits; otherwise the address's credits. */
  function CapFor(credits: Credits, a: Address): Option<int> {
    if |credits| == 0 then None else Some(if a in credits then credits[a] else 0)
  }

  function ClaimedOf(claimed: map<Address, nat>, a: Address): nat {
    if a in claimed then claimed[a] else 0
  }

  /** How much of a bid counts, given what its address has claimed; zero if the bid is skipped. */
  function Eligible(credits: Credits, prev: nat, b: Bid): nat {
    if b.address.None? || b.amount == 0 || !b.successful then 0
    else
      match CapFor(credits, b.address.value)
      case None => if b.amount <= 0 then 0 else b.amount
      case Some(cap) =>
        if prev >= cap then 0
        else
          var eligible := if b.amount > cap - prev then cap - prev else b.amount;
          if eligible <= 0 then 0 else eligible
  }

  function ClaimStep(claimed: map<Address, nat>, credits: Credits, b: Bid): map<Address, nat> {
    if b.address.None? then claimed
    else
      var a := b.address.value;
      var eligible := Eligible(credits, ClaimedOf(claimed, a), b);
      if eligible == 0 then claimed else claimed[a := ClaimedOf(claimed, a) + eligible]
  }

  function ClaimedFirst(credits: Credits, bids: seq<Bid>, n: nat): map<Address, nat>
    requires n <= |bids|
  {
    if n == 0 then map[] else ClaimStep(ClaimedFirst(credits, bids, n - 1), credits, bids[n - 1])
  }

  /** What a bid is worth to an address: its amount if it is this address's, positive and successful. */
  function Worth(a: Address): Bid -> nat {
    (b: Bid) => if b.address == Some(a) && b.amount > 0 && b.successful then b.amount else 0
  }

  function Capped(cap: Option<int>, sum: nat): nat {
    if cap.None? then sum else if cap.value <= 0 then 0 else Min(cap.value, sum)
  }

  /** Each address ends with the smaller of its cap and the sum of its valid bids, and is listed only
      if that is positive. */
  lemma {:induction false} ClaimIsCappedSum(credits: Credits, bids: seq<Bid>, n: nat, a: Address)
    requires n <= |bids|
    ensures
      var claimed := ClaimedFirst(credits, bids, n);
      && ClaimedOf(claimed, a) == Capped(CapFor(credits, a), Sum(bids, Worth(a), n))
      && (a in claimed <==> ClaimedOf(claimed, a) > 0)
  {
    if n > 0 {
      ClaimIsCappedSum(credits, bids, n - 1, a);
    }
  }

  /** Without linked credits an address claims all its valid bids; with them, no more than its own credits, and an
      address without credits nothing.  A bid is valid if it is successful and its amount positive. */
  lemma ClaimMeaning(credits: Credits, bids: seq<Bid>, a: Address)
    ensures
      var claim, valid := ClaimedOf(ClaimedFirst(credits, bids, |bids|), a), Sum(bids, Worth(a), |bids|);
      && (credits == map[] ==> claim == valid)
      && (credits != map[] && a !in credits ==> claim == 0)
      && (a in credits ==> claim == Min(Max(credits[a], 0), valid))
    ensures forall b :: Worth(a)(b) == if b.address == Some(a) && b.successful && b.amount > 0 then b.amount else 0
  {
    ClaimIsCappedSum(credits, bids, |bids|, a);
    if credits != map[] {
      var k :| k in credits;
      assert k in credits.Keys;
      assert |credits.Keys| == |credits| != 0;
    }
  }

  /** The claims do not depend on the order of the bids. */
  lemma ClaimsIgnoreOrder(credits: Credits, a: seq<Bid>, b: seq<Bid>)
    requires multiset(a) == multiset(b)
    ensures ClaimedFirst(credits, a, |a|) == ClaimedFirst(credits, b, |b|)
  {
    hide ClaimedFirst, Capped, CapFor;
    var x, y := ClaimedFirst(credits, a, |a|), ClaimedFirst(credits, b, |b|);
    forall k ensures ClaimedOf(x, k) == ClaimedOf(y, k) && (k in x <==> k in y) {
      ClaimIsCappedSum(credits, a, |a|, k);
      ClaimIsCappedSum(credits, b, |b|, k);
      SumByMultiset(a, b, Worth(k));
    }
    assert forall k :: k in x ==> k in y && ClaimedOf(x, k) == x[k] && ClaimedOf(y, k) == y[k];
  }

  /** The addresses that claim, each once. */
  ghost predicate Lists(order: seq<Address>, claimed: map<Address, nat>) {
    && (forall i, j :: 0 <= i < j < |order| ==> order[i] != order[j])
    && (forall i :: 0 <= i < |order| ==> order[i] in claimed)
    && (forall a :: a in claimed ==> a in order)
  }

  /** How many bids it took until the address claimed. */
  ghost function FirstClaim(credits: Credits, bids: seq<Bid>, a: Address, n: nat): (r: nat)
    requires n <= |bids|
    ensures r <= n
  {
    if n == 0 then 0
    else if a in ClaimedFirst(credits, bids, n - 1) then FirstClaim(credits, bids, a, n - 1)
    else n
  }

  /** The addresses are in the order in which they first claimed. */
  ghost predicate InFirstOrder(credits: Credits, bids: seq<Bid>, order: seq<Address>, n: nat)
    requires n <= |bids|
  {
    forall i, j :: 0 <= i < j < |order| ==>
      FirstClaim(credits, bids, order[i], n) < FirstClaim(credits, bids, order[j], n)
  }

  lemma OrderKept(credits: Credits, bids: seq<Bid>, order: seq<Address>, n: nat)
    requires n < |bids| && Lists(order, ClaimedFirst(credits, bids, n)) && InFirstOrder(credits, bids, order, n)
    ensures InFirstOrder(credits, bids, order, n + 1)
    ensures forall a :: a !in ClaimedFirst(credits, bids, n) ==> InFirstOrder(credits, bids, order + [a], n + 1)
  {
    hide ClaimedFirst;
    assert forall i :: 0 <= i < |order| ==>
             FirstClaim(credits, bids, order[i], n + 1) == FirstClaim(credits, bids, order[i], n);
    forall a | a !in ClaimedFirst(credits, bids, n) ensures InFirstOrder(credits, bids, order + [a], n + 1) {
      assert FirstClaim(credits, bids, a, n + 1) == n + 1;
      var longer := order + [a];
      forall i, j | 0 <= i < j < |longer|
        ensures FirstClaim(credits, bids, longer[i], n + 1) < FirstClaim(credits, bids, longer[j], n + 1)
      {
        assert longer[i] == order[i];
      }
    }
  }

  method CollectClaims(credits: Credits, bids: seq<Bid>) returns (claimed: map<Address, nat>, order: seq<Address>)
    ensures claimed == ClaimedFirst(credits, bids, |bids|)
    ensures Lists(order, claimed) && InFirstOrder(credits, bids, order, |bids|)
  {
    hide InFirstOrder;
    claimed, order := map[], [];
    NoneInOrder(credits, bids);
    for n := 0 to |bids|
      invariant claimed == ClaimedFirst(credits, bids, n)
      invariant Lists(order, claimed) && InFirstOrder(credits, bids, order, n)
    {
      OrderKept(credits, bids, order, n);
      var b := bids[n];
      if b.address.None? || b.amount == 0 || !b.successful {
        continue;
      }
      var a := b.address.value;
      var prev := if a in claimed then claimed[a] else 0;
      var eligible := b.amount;
      if |credits| > 0 {
        var cap := if a in credits then credits[a] else 0;
        if prev >= cap {
          continue;
        }
        var remaining := cap - prev;
        eligible := if b.amount > remaining then remaining else b.amount;
      }
      if eligible <= 0 {
        continue;
      }
      if a !in claimed {
        ListsOneMore(order, claimed, a, prev + eligible);
        order := order + [a];
      }
      claimed := claimed[a := prev + eligible];
    }
  }

  lemma NoneInOrder(credits: Credits, bids: seq<Bid>)
    ensures InFirstOrder(credits, bids, [], 0)
  {
  }

  lemma ListsOneMore(order: seq<Address>, claimed: map<Address, nat>, a: Address, amount: nat)
    requires Lists(order, claimed) && a !in claimed
    ensures Lists(order + [a], claimed[a := amount])
  {
    var longer := order + [a];
    assert longer[|order|] == a;
    forall k | k in claimed[a := amount] ensures k in longer {
      if k != a {
        var i :| 0 <= i < |order| && order[i] == k;
        assert longer[i] == k;
      }
    }
  }

  // ----- scaling to the pool

  function Amount(): Claim -> nat {
    (c: Claim) => c.amount
  }

  function Factor(pool: nat, total: nat): nat
    requires total > 0
  {
    (pool * SCALE) / total
  }

  function Scaled(c: Claim, factor: nat): Claim {
    Claim(c.address, (c.amount * factor) / SCALE)
  }

  /** The first n claims scaled, those that come to nothing left out. */
  function ScaledFirst(claims: seq<Claim>, factor: nat, n: nat): seq<Claim>
    requires n <= |claims|
  {
    if n == 0 then []
    else
      var c := Scaled(claims[n - 1], factor);
      ScaledFirst(claims, factor, n - 1) + (if c.amount > 0 then [c] else [])
  }

  function ScaleToPool(claims: seq<Claim>, pool: nat): seq<Claim> {
    var total := Sum(claims, Amount(), |claims|);
    if pool > 0 && total > pool then ScaledFirst(claims, Factor(pool, total), |claims|) else claims
  }

  lemma DivideBounds(x: nat, d: nat)
    requires d > 0
    ensures d * (x / d) <= x < d * (x / d) + d
  {
  }

  /** The factor is below one, and loses less than one part in `total`. */
  lemma FactorBounds(pool: nat, total: nat)
    requires 0 < pool < total
    ensures Factor(pool, total) < SCALE
    ensures pool * SCALE - total < total * Factor(pool, total) <= pool * SCALE
  {
    DivideBounds(pool * SCALE, total);
  }

  /** A scaled claim is never more than the original. */
  lemma ScaledIsLess(amount: nat, factor: nat)
    requires factor <= SCALE
    ensures (amount * factor) / SCALE <= amount
  {
    assert amount * factor <= amount * SCALE;
  }

  /** Scaling n claims loses, by rounding, less than one unit for each. */
  lemma {:induction false} ScaledSum(claims: seq<Claim>, factor: nat, n: nat)
    requires n <= |claims|
    ensures
      var r := ScaledFirst(claims, factor, n);
      var sum := Sum(r, Amount(), |r|);
      SCALE * sum <= Sum(claims, Amount(), n) * factor <= SCALE * sum + n * (SCALE - 1)
  {
    if n > 0 {
      ScaledSum(claims, factor, n - 1);
      var init := ScaledFirst(claims, factor, n - 1);
      var c := Scaled(claims[n - 1], factor);
      SumConcat(init, [c], Amount(), 1);
      assert Sum([c], Amount(), 1) == c.amount + Sum([c], Amount(), 0);
      assert init + [] == init;
      DivideBounds(claims[n - 1].amount * factor, SCALE);
      Distribute(Sum(claims, Amount(), n - 1), claims[n - 1].amount, factor);
    }
  }

  lemma Distribute(a: nat, b: nat, f: nat)
    ensures (a + b) * f == a * f + b * f
  {
  }

  /** Every kept claim is one of the originals scaled down to a positive amount no larger. */
  lemma {:induction false} ScaledFromOriginals(claims: seq<Claim>, factor: nat, n: nat, i: nat) returns (k: nat)
    requires n <= |claims| && factor <= SCALE && i < |ScaledFirst(claims, factor, n)|
    ensures k < n && ScaledFirst(claims, factor, n)[i] == Scaled(claims[k], factor)
    ensures 0 < ScaledFirst(claims, factor, n)[i].amount <= claims[k].amount
  {
    var init := ScaledFirst(claims, factor, n - 1);
    if i < |init| {
      k := ScaledFromOriginals(claims, factor, n - 1, i);
    } else {
      k := n - 1;
      ScaledIsLess(claims[k].amount, factor);
    }
  }

  function AllScaled(claims: seq<Claim>, factor: nat): (r: seq<Claim>)
    ensures |r| == |claims|
    ensures forall i :: 0 <= i < |r| ==> r[i].address == claims[i].address
    ensures forall i :: 0 <= i < |r| ==>
              SCALE * r[i].amount <= claims[i].amount * factor < SCALE * r[i].amount + SCALE
  {
    seq(|claims|, i requires 0 <= i < |claims| =>
      DivideBounds(claims[i].amount * factor, SCALE);
      Scaled(claims[i], factor))
  }

  function IsPositive(): Claim -> bool {
    (c: Claim) => c.amount > 0
  }

  /** What is left of the claims are those that are positive once scaled, each for its own address, in order. */
  lemma {:induction false} ScaledExactly(claims: seq<Claim>, factor: nat, n: nat) returns (at: seq<nat>)
    requires n <= |claims|
    ensures Picks(AllScaled(claims, factor), IsPositive(), n, ScaledFirst(claims, factor, n), at)
  {
    hide Picks;
    var scaled := AllScaled(claims, factor);
    if n == 0 {
      at := [];
      PickNothing(scaled, IsPositive());
    } else {
      at := ScaledExactly(claims, factor, n - 1);
      assert scaled[n - 1] == Scaled(claims[n - 1], factor);
      var before := ScaledFirst(claims, factor, n - 1);
      if scaled[n - 1].amount > 0 {
        PickNext(scaled, IsPositive(), n - 1, before, at);
        at := at + [n - 1];
      } else {
        SkipNext(scaled, IsPositive(), n - 1, before, at);
        assert before + [] == before;
      }
    }
  }

  /** Claim allocation bound: when n claims of total T exceed the pool, the scaled claims never exceed
      the pool together, and fall short of it by less than n + T / 1,000,000. */
  lemma PoolBound(claims: seq<Claim>, pool: nat)
    requires 0 < pool < Sum(claims, Amount(), |claims|)
    ensures
      var total := Sum(claims, Amount(), |claims|);
      var r := ScaleToPool(claims, pool);
      var sum := Sum(r, Amount(), |r|);
      && sum <= pool
      && (pool - sum) * SCALE < |claims| * SCALE + total
  {
    hide Sum, ScaledFirst, Factor;
    var total := Sum(claims, Amount(), |claims|);
    var factor := Factor(pool, total);
    FactorBounds(pool, total);
    ScaledSum(claims, factor, |claims|);
  }

  /** A larger claim is never scaled below a smaller one. */
  lemma ScalingKeepsOrder(a: Claim, b: Claim, factor: nat)
    requires a.amount <= b.amount
    ensures Scaled(a, factor).amount <= Scaled(b, factor).amount
  {
    assert a.amount * factor <= b.amount * factor;
    DivideBounds(a.amount * factor, SCALE);
    DivideBounds(b.amount * factor, SCALE);
  }

  function ClaimList(order: seq<Address>, claimed: map<Address, nat>): (r: seq<Claim>)
    requires forall i :: 0 <= i < |order| ==> order[i] in claimed
    ensures |r| == |order|
    ensures forall i :: 0 <= i < |r| ==> r[i] == Claim(order[i], claimed[order[i]])
  {
    seq(|order|, i requires 0 <= i < |order| => Claim(order[i], claimed[order[i]]))
  }

  /** The whole snapshot; nothing when no claim is left. */
  method BuildClaims(credits: Credits, bids: seq<Bid>, pool: nat)
    returns (r: Option<seq<Claim>>, ghost listed: seq<Address>)
    ensures Lists(listed, ClaimedFirst(credits, bids, |bids|)) && InFirstOrder(credits, bids, listed, |bids|)
    ensures
      var scaled := ScaleToPool(ClaimList(listed, ClaimedFirst(credits, bids, |bids|)), pool);
      r == if scaled == [] then None else Some(scaled)
    ensures
      var claims := ClaimList(listed, ClaimedFirst(credits, bids, |bids|));
      pool == 0 || Sum(claims, Amount(), |claims|) <= pool ==> r == if claims == [] then None else Some(claims)
    ensures r.Some? && pool > 0 ==> Sum(r.value, Amount(), |r.value|) <= pool
    ensures r.Some? ==> forall i :: 0 <= i < |r.value| ==>
              0 < r.value[i].amount <=
              Capped(CapFor(credits, r.value[i].address), Sum(bids, Worth(r.value[i].address), |bids|))
  {
    var claimed, order := CollectClaims(credits, bids);
    listed := order;
    var claims := ClaimList(order, claimed);
    forall i | 0 <= i < |claims|
      ensures 0 < claims[i].amount ==
              Capped(CapFor(credits, claims[i].address), Sum(bids, Worth(claims[i].address), |bids|))
    {
      ClaimIsCappedSum(credits, bids, |bids|, claims[i].address);
    }
    var scaled := ScaleToPool(claims, pool);
    ghost var total := Sum(claims, Amount(), |claims|);
    if pool > 0 && total > pool {
      PoolBound(claims, pool);
      FactorBounds(pool, total);
      forall i | 0 <= i < |scaled|
        ensures 0 < scaled[i].amount <=
                Capped(CapFor(credits, scaled[i].address), Sum(bids, Worth(scaled[i].address), |bids|))
      {
        var k := ScaledFromOriginals(claims, Factor(pool, total), |claims|, i);
      }
    }
    r := if scaled == [] then None else Some(scaled);
  }
}
