/** Facts about sequences that the solver needs spelled out. */
module Sequences {
  lemma Associate<T>(a: seq<T>, b: seq<T>, c: seq<T>)
    ensures (a + b) + c == a + (b + c)
  {
  }

  lemma NothingAdded<T>(a: seq<T>)
    ensures [] + a == a && a + [] == a
  {
  }

  lemma SplitLast<T>(a: seq<T>, b: seq<T>)
    requires b != []
    ensures a + b == (a + b[..|b| - 1]) + [b[|b| - 1]]
  {
  }

  lemma SameWithoutMore<T>(all: seq<T>, a: seq<T>, more: seq<T>)
    requires all == a + more && more == []
    ensures all == a
  {
  }

  lemma PrefixOfAppend<T>(a: seq<T>, x: T, i: nat)
    requires i <= |a|
    ensures (a + [x])[..i] == a[..i]
    ensures i < |a| ==> (a + [x])[i] == a[i]
  {
  }

  lemma JoinMore<T>(a: seq<T>, b: seq<T>, c: seq<T>, ab: seq<T>, bc: seq<T>, abc: seq<T>)
    requires ab == a + b && bc == b + c && abc == ab + c
    ensures abc == a + bc
  {
  }

  lemma SliceOfPrefix<T>(s: seq<T>, k: nat, a: nat, b: nat)
    requires a <= b <= k <= |s|
    ensures s[..k][a..b] == s[a..b]
  {
  }

  lemma SliceOfAppend<T>(s: seq<T>, more: seq<T>, a: nat, b: nat)
    requires a <= b <= |s|
    ensures (s + more)[a..b] == s[a..b]
  {
  }

  lemma SlicesJoin<T>(s: seq<T>, a: nat, b: nat, c: nat)
    requires a <= b <= c <= |s|
    ensures s[a..c] == s[a..b] + s[b..c]
  {
  }

  lemma InFirst<T>(s: T, x: T, rest: seq<T>)
    ensures s in [x] + rest <==> s == x || s in rest
  {
    if s in rest {
      var i :| 0 <= i < |rest| && rest[i] == s;
      assert ([x] + rest)[i + 1] == s;
    }
  }

  /** A list that starts with some elements equals one that starts with one when the parts do. */
  lemma SameFrom<T>(a: seq<T>, x: T, b: seq<T>, c: seq<T>)
    requires |a| >= 1 && |b| >= |c|
    ensures a + b == [x] + c <==> a == [x] && b == c
  {
    if a + b == [x] + c {
      assert |a| == 1 && (a + b)[0] == a[0];
      assert (a + b)[1..] == b && ([x] + c)[1..] == c;
    }
  }

  lemma Middle<T>(a: seq<T>, x: seq<T>, b: seq<T>, y: seq<T>)
    requires a + x + b == a + y + b
    ensures x == y
  {
    assert x == (a + x + b)[|a|..|a| + |x|];
    assert y == (a + y + b)[|a|..|a| + |y|];
  }

  // ---------------------------------------------------------------------------------------
  // Lists gathered from lists
  // ---------------------------------------------------------------------------------------

  function Gather<E, R>(emit: E -> seq<R>, events: seq<E>): seq<R> {
    if events == [] then []
    else Gather(emit, events[..|events| - 1]) + emit(events[|events| - 1])
  }

  lemma GatherLast<E, R>(emit: E -> seq<R>, events: seq<E>, e: E)
    ensures Gather(emit, events + [e]) == Gather(emit, events) + emit(e)
  {
    assert (events + [e])[..|events|] == events;
  }

  lemma {:induction false} GatherSplit<E, R>(emit: E -> seq<R>, a: seq<E>, b: seq<E>)
    ensures Gather(emit, a + b) == Gather(emit, a) + Gather(emit, b)
  {
    if b == [] {
      NothingAdded(a);
      NothingAdded(Gather(emit, a));
    } else {
      var init, last := b[..|b| - 1], b[|b| - 1];
      GatherSplit(emit, a, init);
      GatherLast(emit, a + init, last);
      SplitLast(a, b);
      Associate(Gather(emit, a), Gather(emit, init), emit(last));
    }
  }

  /** What is gathered from one element can be taken out. */
  lemma GatherMiddle<E, R>(emit: E -> seq<R>, a: seq<E>, x: E, b: seq<E>)
    ensures Gather(emit, a + [x] + b) == Gather(emit, a) + emit(x) + Gather(emit, b)
    ensures Gather(emit, a + b) == Gather(emit, a) + Gather(emit, b)
  {
    GatherSplit(emit, a, b);
    GatherSplit(emit, a + [x], b);
    GatherLast(emit, a, x);
  }

  lemma SplitAt<T>(s: seq<T>, i: nat)
    requires i < |s|
    ensures s == s[..i] + [s[i]] + s[i + 1..]
  {
  }

  lemma TakeOut<T>(a: seq<T>, x: T, b: seq<T>)
    ensures multiset(a + [x] + b) == multiset(a + b) + multiset{x}
  {
  }

  /** The first list is what is left of the second when some elements are dropped. */
  predicate Subsequence<T(==)>(a: seq<T>, b: seq<T>) {
    if a == [] then true
    else if b == [] then false
    else Subsequence(a, b[..|b| - 1]) || (a[|a| - 1] == b[|b| - 1] && Subsequence(a[..|a| - 1], b[..|b| - 1]))
  }

  lemma SubsequenceGrows<T>(a: seq<T>, b: seq<T>, x: T)
    requires Subsequence(a, b)
    ensures Subsequence(a, b + [x]) && Subsequence(a + [x], b + [x])
  {
    assert (b + [x])[..|b|] == b && (a + [x])[..|a|] == a;
  }

  /** Dropping an element leaves a subsequence. */
  lemma {:induction false} SubsequenceDrops<T>(a: seq<T>, x: T, b: seq<T>, all: seq<T>)
    requires Subsequence(a + [x] + b, all)
    ensures Subsequence(a + b, all)
    decreases |all|
  {
    var most, init := a + [x] + b, all[..|all| - 1];
    if Subsequence(most, init) {
      SubsequenceDrops(a, x, b, init);
      SubsequenceStays(a + b, all);
    } else if b == [] {
      assert most[..|most| - 1] == a;
      SubsequenceStays(a, all);
      NothingAdded(a);
    } else {
      var rest := b[..|b| - 1];
      assert most[..|most| - 1] == a + [x] + rest;
      SubsequenceDrops(a, x, rest, init);
      assert (a + b)[..|a + b| - 1] == a + rest;
    }
  }

  lemma SubsequenceStays<T>(a: seq<T>, b: seq<T>)
    requires b != [] && Subsequence(a, b[..|b| - 1])
    ensures Subsequence(a, b)
  {
  }
}
