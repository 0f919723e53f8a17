/** Splitting a text at a separator and joining the pieces again. */
module TextSplit {
  import opened Options

  predicate Occurs(s: string, sep: string, i: nat)
  {
    i + |sep| <= |s| && s[i..i + |sep|] == sep
  }

  ghost predicate Free(s: string, sep: string)
  {
    forall i: nat :: !Occurs(s, sep, i)
  }

  /** A separator whose first character is unique in it, so that no two of its occurrences overlap. */
  ghost predicate Plain(sep: string)
  {
    sep != "" && forall k :: 0 < k < |sep| ==> sep[k] != sep[0]
  }

  /** The first occurrence at or after `from`. */
  function Find(s: string, sep: string, from: nat): (r: Option<nat>)
    ensures r.Some? ==> from <= r.value && Occurs(s, sep, r.value)
    ensures forall i :: from <= i && (r.Some? ==> i < r.value) ==> !Occurs(s, sep, i)
    decreases |s| - from
  {
    if from + |sep| > |s| then None
    else if Occurs(s, sep, from) then Some(from)
    else Find(s, sep, from + 1)
  }

  function Split(s: string, sep: string): (ps: seq<string>)
    requires sep != ""
    ensures ps != []
    decreases |s|
  {
    var at := Find(s, sep, 0);
    if at.None? then [s] else [s[..at.value]] + Split(s[at.value + |sep|..], sep)
  }

  function Join(ps: seq<string>, sep: string): string
    requires ps != []
  {
    if |ps| == 1 then ps[0] else ps[0] + (sep + Join(ps[1..], sep))
  }

  lemma {:induction false} JoinNext(ps: seq<string>, p: string, sep: string)
    requires ps != []
    ensures Join(ps + [p], sep) == Join(ps, sep) + (sep + p)
    decreases |ps|
  {
    if |ps| == 1 {
      assert (ps + [p])[1..] == [p];
    } else {
      JoinNext(ps[1..], p, sep);
      assert (ps + [p])[1..] == ps[1..] + [p];
      assert Join(ps + [p], sep) == ps[0] + (sep + (Join(ps[1..], sep) + (sep + p)));
    }
  }

  lemma {:induction false} JoinSplit(s: string, sep: string)
    requires sep != ""
    ensures Join(Split(s, sep), sep) == s
    decreases |s|
  {
    var at := Find(s, sep, 0);
    if at.Some? {
      var rest := s[at.value + |sep|..];
      JoinSplit(rest, sep);
      assert Split(s, sep)[1..] == Split(rest, sep);
      assert s == s[..at.value] + (s[at.value..at.value + |sep|] + rest);
    }
  }

  ghost predicate AllFree(ps: seq<string>, sep: string)
  {
    forall i :: 0 <= i < |ps| ==> Free(ps[i], sep)
  }

  lemma {:induction false} SplitFree(s: string, sep: string)
    requires sep != ""
    ensures AllFree(Split(s, sep), sep)
    decreases |s|
  {
    var at := Find(s, sep, 0);
    if at.Some? {
      SplitFree(s[at.value + |sep|..], sep);
      PrefixFree(s, sep, at.value);
    }
  }

  lemma PrefixFree(s: string, sep: string, n: nat)
    requires n <= |s| && forall i: nat :: i < n ==> !Occurs(s, sep, i)
    requires sep != ""
    ensures Free(s[..n], sep)
  {
    forall i: nat
      ensures !Occurs(s[..n], sep, i)
    {
      if i + |sep| <= n {
        assert s[..n][i..i + |sep|] == s[i..i + |sep|];
        assert !Occurs(s, sep, i);
      }
    }
  }

  lemma SliceFree(s: string, sep: string, from: nat)
    requires from <= |s| && Free(s, sep)
    ensures Free(s[from..], sep)
  {
    forall i: nat
      ensures !Occurs(s[from..], sep, i)
    {
      if i + |sep| <= |s[from..]| {
        assert s[from..][i..i + |sep|] == s[from + i..from + i + |sep|];
        assert !Occurs(s, sep, from + i);
      }
    }
  }

  /** Where the separator occurs in a free piece followed by the separator and anything else. */
  lemma OccursAfter(p: string, sep: string, rest: string, i: nat)
    requires Plain(sep) && Free(p, sep)
    ensures var s := p + (sep + rest);
            Occurs(s, sep, i) <==> i == |p| || (i >= |p| + |sep| && Occurs(rest, sep, i - |p| - |sep|))
  {
    var s := p + (sep + rest);
    if i < |p| {
      if i + |sep| <= |p| {
        assert s[i..i + |sep|] == p[i..i + |sep|];
        assert !Occurs(p, sep, i);
      } else if i + |sep| <= |s| {
        assert s[i..i + |sep|][|p| - i] == s[|p|] == sep[0];
      }
    } else if i == |p| {
      assert s[i..i + |sep|] == sep;
    } else if i < |p| + |sep| {
      if i + |sep| <= |s| {
        assert s[i..i + |sep|][0] == s[i] == sep[i - |p|];
      }
    } else if i + |sep| <= |s| {
      var k := i - |p| - |sep|;
      assert s[i..i + |sep|] == rest[k..k + |sep|];
    }
  }

  lemma FindIs(s: string, sep: string, at: nat)
    requires Occurs(s, sep, at) && forall i: nat :: i < at ==> !Occurs(s, sep, i)
    ensures Find(s, sep, 0) == Some(at)
  {
    var r := Find(s, sep, 0);
    assert r.Some? && r.value <= at;
    assert !(r.value < at);
  }

  /** Splitting undoes joining. */
  lemma {:induction false} SplitJoin(ps: seq<string>, sep: string)
    requires ps != [] && Plain(sep) && AllFree(ps, sep)
    ensures Split(Join(ps, sep), sep) == ps
    decreases |ps|
  {
    var s := Join(ps, sep);
    if |ps| == 1 {
      assert Free(ps[0], sep);
      assert Find(s, sep, 0).None?;
    } else {
      var p, rest := ps[0], Join(ps[1..], sep);
      assert Free(p, sep);
      forall i: nat | i <= |p|
        ensures Occurs(s, sep, i) <==> i == |p|
      {
        OccursAfter(p, sep, rest, i);
      }
      FindIs(s, sep, |p|);
      assert s[..|p|] == p && s[|p| + |sep|..] == rest;
      SplitJoin(ps[1..], sep);
    }
  }
}
