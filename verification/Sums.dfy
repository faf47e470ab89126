/** Sums over the first n elements of a sequence. */
module Sums {
  function Sum<T>(xs: seq<T>, f: T -> nat, n: nat): nat
    requires n <= |xs|
  {
    if n == 0 then 0 else Sum(xs, f, n - 1) + f(xs[n - 1])
  }

  lemma {:induction false} SumPrefix<T>(a: seq<T>, b: seq<T>, f: T -> nat, n: nat)
    requires n <= |a| && n <= |b| && forall i :: 0 <= i < n ==> a[i] == b[i]
    ensures Sum(a, f, n) == Sum(b, f, n)
  {
    if n > 0 {
      SumPrefix(a, b, f, n - 1);
    }
  }

  lemma {:induction false} SumConcat<T>(a: seq<T>, b: seq<T>, f: T -> nat, n: nat)
    requires n <= |b|
    ensures Sum(a + b, f, |a| + n) == Sum(a, f, |a|) + Sum(b, f, n)
  {
    if n > 0 {
      SumConcat(a, b, f, n - 1);
    } else {
      SumPrefix(a + b, a, f, |a|);
    }
  }

  lemma {:induction false} SumUpdate<T>(xs: seq<T>, i: nat, x: T, f: T -> nat, n: nat)
    requires i < n <= |xs|
    ensures f(xs[i]) <= Sum(xs, f, n)
    ensures Sum(xs[i := x], f, n) == Sum(xs, f, n) - f(xs[i]) + f(x)
  {
    if n == i + 1 {
      SumPrefix(xs, xs[i := x], f, i);
    } else {
      SumUpdate(xs, i, x, f, n - 1);
    }
  }

  lemma {:induction false} SumWithout<T>(xs: seq<T>, i: nat, f: T -> nat, n: nat)
    requires i < n <= |xs|
    ensures Sum(xs, f, n) == Sum(xs[..i] + xs[i + 1..], f, n - 1) + f(xs[i])
  {
    var rest := xs[..i] + xs[i + 1..];
    if n == i + 1 {
      SumPrefix(xs, rest, f, i);
    } else {
      SumWithout(xs, i, f, n - 1);
      assert rest[n - 2] == xs[n - 1];
    }
  }

  lemma RemoveOne<T>(a: seq<T>, b: seq<T>, i: nat)
    requires multiset(a) == multiset(b) && 0 < |a| && i < |b| && b[i] == a[|a| - 1]
    ensures multiset(a[..|a| - 1]) == multiset(b[..i] + b[i + 1..])
  {
    var x := b[i];
    assert a == a[..|a| - 1] + [x];
    assert b == b[..i] + [x] + b[i + 1..];
    calc {
      multiset(a[..|a| - 1]);
      multiset(a) - multiset{x};
      multiset(b) - multiset{x};
      multiset(b[..i]) + multiset(b[i + 1..]);
      multiset(b[..i] + b[i + 1..]);
    }
  }

  /** A sum does not depend on the order of its terms. */
  lemma {:induction false} SumByMultiset<T>(a: seq<T>, b: seq<T>, f: T -> nat)
    requires multiset(a) == multiset(b)
    ensures Sum(a, f, |a|) == Sum(b, f, |b|)
    decreases |a|
  {
    assert |a| == |multiset(a)| == |multiset(b)| == |b|;
    if |a| > 0 {
      var n := |a| - 1;
      assert a[n] in multiset(b);
      var i :| 0 <= i < |b| && b[i] == a[n];
      RemoveOne(a, b, i);
      SumByMultiset(a[..n], b[..i] + b[i + 1..], f);
      SumPrefix(a, a[..n], f, n);
      SumWithout(b, i, f, |b|);
    }
  }
}

/** Picking the elements that meet a condition, in order. */
module Picking {

  /** kept are the elements of the first n that meet p, in order; at are their positions, rising. */
  ghost predicate Picks<T(!new)>(xs: seq<T>, p: T -> bool, n: nat, kept: seq<T>, at: seq<nat>)
    requires n <= |xs|
  {
    && |kept| == |at|
    && (forall k :: 0 <= k < |at| ==> at[k] < n && kept[k] == xs[at[k]])
    && (forall k, l :: 0 <= k < l < |at| ==> at[k] < at[l])
    && (forall i: nat :: i < n ==> (i in at <==> p(xs[i])))
  }

  lemma PickNothing<T(!new)>(xs: seq<T>, p: T -> bool)
    ensures Picks(xs, p, 0, [], [])
  {
  }

  lemma PickNext<T(!new)>(xs: seq<T>, p: T -> bool, n: nat, kept: seq<T>, at: seq<nat>)
    requires n < |xs| && Picks(xs, p, n, kept, at) && p(xs[n])
    ensures Picks(xs, p, n + 1, kept + [xs[n]], at + [n])
  {
    var more := at + [n];
    assert more[|at|] == n;
    forall i: nat | i < n + 1 ensures i in more <==> p(xs[i]) {
      if i < n {
        assert i in more <==> i in at;
      }
    }
  }

  lemma SkipNext<T(!new)>(xs: seq<T>, p: T -> bool, n: nat, kept: seq<T>, at: seq<nat>)
    requires n < |xs| && Picks(xs, p, n, kept, at) && !p(xs[n])
    ensures Picks(xs, p, n + 1, kept, at)
  {
  }
}
