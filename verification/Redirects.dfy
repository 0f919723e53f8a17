/** Lines that hold a value or refer to another line, and how their redirects are resolved. */
module Redirects {
  import opened Options

  datatype Line<V> = Plain(value: V) | SameAs(target: nat)

  ghost predicate Closed<V>(lines: seq<Line<V>>)
  {
    forall i :: 0 <= i < |lines| && lines[i].SameAs? ==> lines[i].target < |lines|
  }

  /** The line reached from `i` by following `k` redirects, if there is one. */
  function After<V>(lines: seq<Line<V>>, i: nat, k: nat): (r: Option<nat>)
    ensures r.Some? ==> r.value < |lines|
    decreases k
  {
    if i >= |lines| then None
    else if k == 0 then Some(i)
    else if lines[i].Plain? then None
    else After(lines, lines[i].target, k - 1)
  }

  lemma {:induction false} AfterPlus<V>(lines: seq<Line<V>>, i: nat, j: nat, k: nat)
    ensures After(lines, i, j + k)
            == if After(lines, i, j).Some? then After(lines, After(lines, i, j).value, k) else None
    decreases j
  {
    if j > 0 && i < |lines| && lines[i].SameAs? {
      AfterPlus(lines, lines[i].target, j - 1, k);
    }
  }

  /** The lines passed on the way, without the first. */
  function Path<V>(lines: seq<Line<V>>, i: nat, k: nat): (p: seq<nat>)
    requires After(lines, i, k).Some?
    ensures |p| == k
    decreases k
  {
    if k == 0 then [] else [lines[i].target] + Path(lines, lines[i].target, k - 1)
  }

  lemma {:induction false} PathNext<V>(lines: seq<Line<V>>, i: nat, k: nat)
    requires After(lines, i, k + 1).Some?
    ensures After(lines, i, k).Some? && Path(lines, i, k + 1) == Path(lines, i, k) + [After(lines, i, k + 1).value]
    decreases k
  {
    if k > 0 {
      PathNext(lines, lines[i].target, k - 1);
    }
  }

  /** Following redirects from the line never ends. */
  ghost predicate Ring<V>(lines: seq<Line<V>>, i: nat)
  {
    forall k: nat :: After(lines, i, k).Some?
  }

  /** Following `link` from the line ends at a plain line with the given value. */
  ghost predicate Resolved<V>(lines: seq<Line<V>>, i: nat, link: seq<nat>, v: V)
  {
    var last := After(lines, i, |link|);
    last.Some? && lines[last.value] == Plain(v) && link == Path(lines, i, |link|)
  }

  /** A line resolves in one way at most, and not at all on a ring. */
  lemma ResolvedUnique<V>(lines: seq<Line<V>>, i: nat, link: seq<nat>, v: V)
    requires Resolved(lines, i, link, v)
    ensures !Ring(lines, i)
    ensures forall link', v' :: Resolved(lines, i, link', v') ==> link' == link && v' == v
  {
    AfterPlus(lines, i, |link|, 1);
    assert After(lines, i, |link| + 1) == None;
    forall link', v' | Resolved(lines, i, link', v')
      ensures link' == link && v' == v
    {
      if |link'| < |link| {
        AfterPlus(lines, i, |link'|, |link| - |link'|);
      } else if |link| < |link'| {
        AfterPlus(lines, i, |link|, |link'| - |link|);
      }
    }
  }

  /** A line that comes back to itself does so forever. */
  lemma {:induction false} CycleNeverEnds<V>(lines: seq<Line<V>>, v: nat, p: nat, m: nat)
    requires p > 0 && After(lines, v, p) == Some(v)
    ensures After(lines, v, m).Some?
    decreases m
  {
    if m < p {
      AfterPlus(lines, v, m, p - m);
    } else {
      AfterPlus(lines, v, p, m - p);
      CycleNeverEnds(lines, v, p, m - p);
    }
  }

  lemma RepeatIsRing<V>(lines: seq<Line<V>>, i: nat, j: nat, k: nat)
    requires j < k && After(lines, i, j).Some? && After(lines, i, k) == After(lines, i, j)
    ensures Ring(lines, i)
  {
    var v := After(lines, i, j).value;
    AfterPlus(lines, i, j, k - j);
    forall m: nat
      ensures After(lines, i, m).Some?
    {
      if m <= k {
        AfterPlus(lines, i, m, k - m);
      } else {
        AfterPlus(lines, i, j, m - j);
        CycleNeverEnds(lines, v, k - j, m - j);
      }
    }
  }

  ghost function Below(n: nat): (s: set<nat>)
    ensures forall k: nat :: k in s <==> k < n
  {
    if n == 0 then {} else Below(n - 1) + {n - 1}
  }

  /** Follows the redirects of one line until a plain line or a line seen before. */
  method Follow<V>(lines: seq<Line<V>>, i: nat) returns (link: Option<seq<nat>>, cur: nat)
    requires Closed(lines) && i < |lines|
    ensures cur < |lines|
    ensures link.None? <==> Ring(lines, i)
    ensures link.Some? ==> lines[cur].Plain? && Resolved(lines, i, link.value, lines[cur].value)
  {
    var path: seq<nat> := [];
    var visited: set<nat> := {};
    ghost var all := Below(|lines|);
    cur := i;
    while lines[cur].SameAs?
      invariant cur < |lines| && cur !in visited
      invariant After(lines, i, |path|) == Some(cur) && path == Path(lines, i, |path|)
      invariant forall v :: v in visited ==> v in all && exists j :: 0 <= j < |path| && After(lines, i, j) == Some(v)
      decreases all - visited
    {
      visited := visited + {cur};
      AfterPlus(lines, i, |path|, 1);
      PathNext(lines, i, |path|);
      path := path + [lines[cur].target];
      cur := lines[cur].target;
      if cur in visited {
        ghost var j :| 0 <= j < |path| && After(lines, i, j) == Some(cur);
        RepeatIsRing(lines, i, j, |path|);
        return None, cur;
      }
    }
    ResolvedUnique(lines, i, path, lines[cur].value);
    link := Some(path);
  }

  /** The redirects of all lines, resolved in index order while the values are being rewritten. */
  method BuildLinks<V>(lines: seq<Line<V>>, values: array<V>) returns (links: seq<Option<seq<nat>>>, rings: set<nat>)
    requires Closed(lines) && values.Length == |lines|
    requires forall i :: 0 <= i < |lines| && lines[i].Plain? ==> values[i] == lines[i].value
    modifies values
    ensures |links| == |lines|
    ensures forall i: nat :: i in rings <==> i < |lines| && Ring(lines, i)
    ensures forall i :: 0 <= i < |lines| ==> if i in rings then links[i].None?
                                            else links[i].Some? && Resolved(lines, i, links[i].value, values[i])
  {
    links := seq(|lines|, _ => Some([]));
    rings := {};
    for i := 0 to |lines|
      invariant |links| == |lines|
      invariant forall k: nat :: k in rings <==> k < i && Ring(lines, k)
      invariant forall k :: 0 <= k < |lines| && lines[k].Plain? ==> values[k] == lines[k].value
      invariant forall k :: i <= k < |lines| ==> links[k] == Some([])
      invariant forall k :: 0 <= k < i ==> if k in rings then links[k].None?
                                          else links[k].Some? && Resolved(lines, k, links[k].value, values[k])
    {
      if lines[i].Plain? {
        ResolvedUnique(lines, i, [], values[i]);
        continue;
      }
      var link, cur := Follow(lines, i);
      if link.None? {
        rings := rings + {i};
      }
      values[i] := values[cur];
      links := links[i := link];
    }
  }
}
