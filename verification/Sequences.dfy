/** Sequences: order, removal and prefixes. */
module Sequences {
  ghost predicate Increasing(xs: seq<nat>)
  {
    forall i, j :: 0 <= i < j < |xs| ==> xs[i] < xs[j]
  }

  lemma LastIsMax(xs: seq<nat>, x: nat)
    requires Increasing(xs) && x in xs
    ensures x <= xs[|xs| - 1]
  {
  }

  lemma InitMembers(xs: seq<nat>, x: nat)
    requires Increasing(xs) && xs != []
    ensures x in xs[..|xs| - 1] <==> x in xs && x != xs[|xs| - 1]
  {
    assert xs == xs[..|xs| - 1] + [xs[|xs| - 1]];
  }

  lemma SameLast(a: seq<nat>, b: seq<nat>)
    requires Increasing(a) && Increasing(b) && a != [] && forall x :: x in a <==> x in b
    ensures b != [] && a[|a| - 1] == b[|b| - 1]
  {
    assert a[|a| - 1] in b;
    LastIsMax(b, a[|a| - 1]);
    assert b[|b| - 1] in b;
    LastIsMax(a, b[|b| - 1]);
  }

  /** An increasing sequence is determined by its members. */
  lemma {:induction false} IncreasingUnique(a: seq<nat>, b: seq<nat>)
    requires Increasing(a) && Increasing(b) && forall x :: x in a <==> x in b
    ensures a == b
    decreases |a|
  {
    if a != [] {
      SameLast(a, b);
      var init, init' := a[..|a| - 1], b[..|b| - 1];
      forall x
        ensures x in init <==> x in init'
      {
        InitMembers(a, x);
        InitMembers(b, x);
      }
      IncreasingUnique(init, init');
      assert a == init + [a[|a| - 1]];
      assert b == init' + [b[|b| - 1]];
    } else if b != [] {
      SameLast(b, a);
    }
  }

  function Without<T>(s: seq<T>, i: nat): seq<T>
    requires i < |s|
  {
    s[..i] + s[i + 1..]
  }

  lemma PrefixNext<T>(s: seq<T>, i: nat)
    requires i < |s|
    ensures s[..i + 1] == s[..i] + [s[i]]
  {
  }

  /** The first sequence is what is left of the second when some elements are dropped. */
  ghost predicate Subsequence<T>(a: seq<T>, b: seq<T>)
    decreases |b|
  {
    || a == []
    || (b != [] && Subsequence(a, b[..|b| - 1]))
    || (b != [] && a[|a| - 1] == b[|b| - 1] && Subsequence(a[..|a| - 1], b[..|b| - 1]))
  }

  lemma {:induction false} SubsequenceSkips<T>(a: seq<T>, b: seq<T>, s: seq<T>)
    requires Subsequence(a, b)
    ensures Subsequence(a, b + s)
    decreases |s|
  {
    if s == [] {
      assert b + s == b;
    } else {
      SubsequenceSkips(a, b, s[..|s| - 1]);
      assert (b + s)[..|b + s| - 1] == b + s[..|s| - 1];
    }
  }

  lemma SubsequenceOfPrefix<T>(a: seq<T>, s: seq<T>, k: nat)
    requires k <= |s| && Subsequence(a, s[..k])
    ensures Subsequence(a, s)
  {
    SubsequenceSkips(a, s[..k], s[k..]);
    assert s[..k] + s[k..] == s;
  }

  lemma {:induction false} SubsequenceKeeps<T>(a: seq<T>, b: seq<T>, s: seq<T>)
    requires Subsequence(a, b)
    ensures Subsequence(a + s, b + s)
    decreases |s|
  {
    if s == [] {
      assert a + s == a && b + s == b;
    } else {
      SubsequenceKeeps(a, b, s[..|s| - 1]);
      assert (a + s)[..|a + s| - 1] == a + s[..|s| - 1];
      assert (b + s)[..|b + s| - 1] == b + s[..|s| - 1];
    }
  }
}
