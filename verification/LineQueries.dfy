/** Choosing the lines to ask for, so that the answer lies in a truncated body, and cutting that body up. */
module LineQueries {
  import opened Sequences
  import opened Options
  import opened Redirects

  /** What the generator writes out. */
  datatype LineObj<V> = LineObj(lines: seq<Line<V>>, values: seq<V>, links: seq<Option<seq<nat>>>,
                                groups: map<nat, seq<nat>>)

  /** The lines with the given number of hops, in order; a plain line counts as one hop. */
  ghost predicate Group(links: seq<Option<seq<nat>>>, n: nat, h: nat, xs: seq<nat>)
    requires n <= |links|
  {
    && Increasing(xs)
    && forall i: nat :: i in xs <==> i < n && links[i].Some? && |links[i].value| + 1 == h
  }

  function Members(groups: map<nat, seq<nat>>, h: nat): seq<nat>
  {
    if h in groups then groups[h] else []
  }

  method GroupByHops(links: seq<Option<seq<nat>>>) returns (groups: map<nat, seq<nat>>)
    ensures forall h :: Group(links, |links|, h, Members(groups, h))
  {
    groups := map[];
    for i := 0 to |links|
      invariant forall h :: Group(links, i, h, Members(groups, h))
    {
      if links[i].None? {
        Regroup(links, i, groups, groups);
        continue;
      }
      var h := |links[i].value| + 1;
      var after := groups[h := Members(groups, h) + [i]];
      Regroup(links, i, groups, after);
      groups := after;
    }
  }

  lemma Regroup(links: seq<Option<seq<nat>>>, i: nat, groups: map<nat, seq<nat>>, after: map<nat, seq<nat>>)
    requires i < |links| && forall h :: Group(links, i, h, Members(groups, h))
    requires if links[i].None? then after == groups
             else var h := |links[i].value| + 1; after == groups[h := Members(groups, h) + [i]]
    ensures forall h :: Group(links, i + 1, h, Members(after, h))
  {
    var n := i + 1;
    forall h
      ensures Group(links, n, h, Members(after, h))
    {
      GroupNext(links, i, h, Members(groups, h));
    }
  }

  lemma GroupNext(links: seq<Option<seq<nat>>>, i: nat, h: nat, xs: seq<nat>)
    requires i < |links| && Group(links, i, h, xs)
    ensures Group(links, i + 1, h, if links[i].Some? && |links[i].value| + 1 == h then xs + [i] else xs)
  {
    assert forall k :: 0 <= k < |xs| ==> xs[k] in xs;
  }

  ghost predicate ValidObj<V>(obj: LineObj<V>)
  {
    && |obj.values| == |obj.links| == |obj.lines|
    && (forall i :: 0 <= i < |obj.lines| ==>
          if obj.links[i].None? then Ring(obj.lines, i)
          else Resolved(obj.lines, i, obj.links[i].value, obj.values[i]))
    && (forall h :: Group(obj.links, |obj.links|, h, Members(obj.groups, h)))
  }

  /** The generator's result: links resolved, values rewritten, lines grouped. */
  method Generate<V>(lines: seq<Line<V>>, values: array<V>) returns (obj: LineObj<V>)
    requires Closed(lines) && values.Length == |lines|
    requires forall i :: 0 <= i < |lines| && lines[i].Plain? ==> values[i] == lines[i].value
    modifies values
    ensures obj.lines == lines && obj.values == values[..] && ValidObj(obj)
  {
    var links, rings := BuildLinks(lines, values);
    var groups := GroupByHops(links);
    obj := LineObj(lines, values[..], links, groups);
  }

  function Body<T>(lines: seq<T>, src: nat): seq<T>
  {
    if src + 1 <= |lines| then lines[..src + 1] else lines
  }

  ghost predicate Within(link: seq<nat>, src: nat)
  {
    forall k :: 0 <= k < |link| ==> link[k] <= src
  }

  lemma {:induction false} PathIn<V>(lines: seq<Line<V>>, src: nat, i: nat, k: nat)
    requires i <= src && i < |lines| && After(lines, i, k).Some?
    ensures Within(Path(lines, i, k), src) ==> After(Body(lines, src), i, k) == After(lines, i, k)
                                               && Path(Body(lines, src), i, k) == Path(lines, i, k)
    ensures !Within(Path(lines, i, k), src) ==> After(Body(lines, src), i, k).None?
    decreases k
  {
    if k > 0 {
      var next, rest := lines[i].target, Path(lines, lines[i].target, k - 1);
      assert Path(lines, i, k)[0] == next;
      assert rest == Path(lines, i, k)[1..];
      if next <= src {
        PathIn(lines, src, next, k - 1);
        assert Within(Path(lines, i, k), src) <==> Within(rest, src);
      }
    }
  }

  /** A line can be answered from the first `src + 1` lines exactly if all lines on its way are among them. */
  lemma AnswerableIff<V>(lines: seq<Line<V>>, src: nat, i: nat, link: seq<nat>, v: V)
    requires i <= src && Resolved(lines, i, link, v)
    ensures Resolved(Body(lines, src), i, link, v) <==> Within(link, src)
  {
    PathIn(lines, src, i, |link|);
  }

  /** A line that may be asked for. */
  ghost predicate Eligible(links: seq<Option<seq<nat>>>, src: nat, q: nat)
  {
    q < |links| && links[q].Some? && q < src && Within(links[q].value, src)
  }

  method Inside(link: seq<nat>, src: nat) returns (inside: bool)
    ensures inside <==> Within(link, src)
  {
    for k := 0 to |link|
      invariant forall j :: 0 <= j < k ==> link[j] <= src
    {
      if link[k] > src {
        return false;
      }
    }
    inside := true;
  }

  method Candidates(links: seq<Option<seq<nat>>>, group: seq<nat>, src: nat) returns (qs: seq<nat>)
    requires forall k :: 0 <= k < |group| ==> group[k] < |links| && links[group[k]].Some?
    ensures forall q :: q in qs <==> q in group && Eligible(links, src, q)
    ensures Increasing(group) ==> Increasing(qs)
  {
    qs := [];
    for i := 0 to |group|
      invariant forall q :: q in qs <==> q in group[..i] && Eligible(links, src, q)
      invariant Increasing(group) ==> Increasing(qs)
    {
      var q := group[i];
      assert group[..i + 1] == group[..i] + [q];
      var inside := Inside(links[q].value, src);
      if inside && q < src {
        assert Increasing(group) ==> forall k :: 0 <= k < |qs| ==> qs[k] in qs && qs[k] < q;
        qs := qs + [q];
      }
    }
    assert group[..|group|] == group;
  }

  datatype Query<V> = Query(src: nat, dst: nat, parts: seq<seq<Line<V>>>, answer: V)

  /** A question that can be answered from its body: the way from the line asked for stays inside, has the
      wanted number of hops, and ends at the label; and the four parts are the body. */
  ghost predicate Fair<V>(obj: LineObj<V>, hops: nat, q: Query<V>)
  {
    && q.dst < |obj.links| && obj.links[q.dst].Some? && |obj.links[q.dst].value| + 1 == hops && q.dst < q.src
    && Resolved(Body(obj.lines, q.src), q.dst, obj.links[q.dst].value, q.answer)
    && |q.parts| == 4 && q.parts[0] + q.parts[1] + q.parts[2] + q.parts[3] == Body(obj.lines, q.src)
    && |q.parts[0]| == |q.parts[1]| == |q.parts[2]| == |Body(obj.lines, q.src)| / 4
  }

  /** Whether there is a line to ask for. */
  ghost predicate Askable<V>(obj: LineObj<V>, hops: nat, src: nat)
  {
    exists q: nat :: Eligible(obj.links, src, q) && |obj.links[q].value| + 1 == hops
  }

  /** All lines with the wanted number of hops that may be asked for, in order. */
  ghost predicate Eligibles<V>(obj: LineObj<V>, hops: nat, src: nat, qs: seq<nat>)
  {
    && Increasing(qs)
    && forall q: nat :: q in qs <==> Eligible(obj.links, src, q) && |obj.links[q].value| + 1 == hops
  }

  /** The position that many percent into a sequence. */
  function At(n: nat, percent: real): nat
    requires n > 0 && percent >= 0.0
  {
    var at := (n as real * percent).Floor;
    if at < n - 1 then at else n - 1
  }

  /** The position lies within the given share of so many. */
  ghost predicate Reaches(n: nat, percent: real, k: nat)
  {
    k as real <= n as real * percent
  }

  /** The last element within the given share of a sequence. */
  ghost predicate PercentInto(qs: seq<nat>, percent: real, x: nat)
  {
    exists k: nat :: k < |qs| && qs[k] == x && Reaches(|qs|, percent, k)
                     && forall l: nat :: k < l < |qs| ==> !Reaches(|qs|, percent, l)
  }

  lemma AtIsPercentInto(qs: seq<nat>, percent: real)
    requires qs != [] && percent >= 0.0
    ensures PercentInto(qs, percent, qs[At(|qs|, percent)])
  {
    var k := At(|qs|, percent);
    assert Reaches(|qs|, percent, k);
  }

  /** The line that many percent into the eligible ones; none if no line qualifies. */
  method Choose<V>(obj: LineObj<V>, hops: nat, src: nat, percent: real) returns (r: Option<nat>)
    requires ValidObj(obj) && percent >= 0.0
    ensures r.Some? <==> Askable(obj, hops, src)
    ensures forall qs :: r.Some? && Eligibles(obj, hops, src, qs) ==> PercentInto(qs, percent, r.value)
    ensures r.Some? ==> Eligible(obj.links, src, r.value) && |obj.links[r.value].value| + 1 == hops
  {
    var group := Members(obj.groups, hops);
    assert Group(obj.links, |obj.links|, hops, group);
    assert forall k :: 0 <= k < |group| ==> group[k] in group;
    var found := Candidates(obj.links, group, src);
    assert Eligibles(obj, hops, src, found);
    if found == [] {
      return None;
    }
    forall qs | Eligibles(obj, hops, src, qs)
      ensures qs == found
    {
      IncreasingUnique(qs, found);
    }
    assert found[At(|found|, percent)] in found;
    AtIsPercentInto(found, percent);
    r := Some(found[At(|found|, percent)]);
  }

  method Quarter<T>(body: seq<T>) returns (parts: seq<seq<T>>)
    ensures |parts| == 4 && parts[0] + parts[1] + parts[2] + parts[3] == body
    ensures |parts[0]| == |parts[1]| == |parts[2]| == |body| / 4
  {
    var n := |body| / 4;
    parts := [body[..n], body[n..2 * n], body[2 * n..3 * n], body[3 * n..]];
    assert parts[0] + parts[1] + parts[2] + parts[3] == body;
  }

  /** A fair question from that source about the line that many percent into the eligible ones. */
  ghost predicate Posed<V>(obj: LineObj<V>, hops: nat, src: nat, percent: real, q: Query<V>)
  {
    && q.src == src && Fair(obj, hops, q)
    && forall qs :: Eligibles(obj, hops, src, qs) ==> PercentInto(qs, percent, q.dst)
  }

  /** One question. */
  method Ask<V>(obj: LineObj<V>, hops: nat, src: nat, percent: real) returns (r: Option<Query<V>>)
    requires ValidObj(obj) && percent >= 0.0
    ensures r.Some? <==> Askable(obj, hops, src)
    ensures r.Some? ==> Posed(obj, hops, src, percent, r.value)
  {
    var dst := Choose(obj, hops, src, percent);
    if dst.None? {
      return None;
    }
    var link := obj.links[dst.value].value;
    AnswerableIff(obj.lines, src, dst.value, link, obj.values[dst.value]);
    var parts := Quarter(Body(obj.lines, src));
    r := Some(Query(src, dst.value, parts, obj.values[dst.value]));
  }

  /** Where the question for the `j`-th share of the `i`-th source stands. */
  function Slot(i: nat, j: nat, m: nat, n: nat): (k: nat)
    requires i < m && j < n
    ensures k < m * n
  {
    RowsBefore(i + 1, m, n);
    i * n + j
  }

  lemma RowsBefore(i: nat, m: nat, n: nat)
    requires i <= m
    ensures i * n <= m * n
  {
  }

  /** The questions of the first `m` sources. */
  ghost predicate PosedTo<V>(obj: LineObj<V>, hops: nat, srcs: seq<nat>, percents: seq<real>, m: nat, qs: seq<Query<V>>)
    requires m <= |srcs|
  {
    && |qs| == m * |percents|
    && forall i, j :: 0 <= i < m && 0 <= j < |percents| ==>
         Posed(obj, hops, srcs[i], percents[j], qs[Slot(i, j, m, |percents|)])
  }

  lemma PosedNext<V>(obj: LineObj<V>, hops: nat, srcs: seq<nat>, percents: seq<real>, m: nat, qs: seq<Query<V>>,
                     row: seq<Query<V>>)
    requires m < |srcs| && PosedTo(obj, hops, srcs, percents, m, qs) && |row| == |percents|
    requires forall j :: 0 <= j < |row| ==> Posed(obj, hops, srcs[m], percents[j], row[j])
    ensures PosedTo(obj, hops, srcs, percents, m + 1, qs + row)
  {
    hide Posed;
    var n, qs' := |percents|, qs + row;
    forall i, j | 0 <= i < m + 1 && 0 <= j < n
      ensures Posed(obj, hops, srcs[i], percents[j], qs'[Slot(i, j, m + 1, n)])
    {
      if i < m {
        assert qs'[Slot(i, j, m + 1, n)] == qs[Slot(i, j, m, n)];
      } else {
        assert qs'[Slot(i, j, m + 1, n)] == row[j];
      }
    }
  }

  /** All questions, source by source; an error if one of the sources has nothing to ask for. */
  method EvalModel<V>(obj: LineObj<V>, hops: nat, srcs: seq<nat>, percents: seq<real>) returns (r: Option<seq<Query<V>>>)
    requires ValidObj(obj) && forall p :: p in percents ==> p >= 0.0
    ensures r.Some? <==> percents == [] || forall src :: src in srcs ==> Askable(obj, hops, src)
    ensures r.Some? ==> PosedTo(obj, hops, srcs, percents, |srcs|, r.value)
  {
    hide Posed;
    hide ValidObj;
    var queries: seq<Query<V>> := [];
    for i := 0 to |srcs|
      invariant percents != [] ==> forall src :: src in srcs[..i] ==> Askable(obj, hops, src)
      invariant PosedTo(obj, hops, srcs, percents, i, queries)
    {
      ghost var before, row: seq<Query<V>> := queries, [];
      for j := 0 to |percents|
        invariant j > 0 ==> Askable(obj, hops, srcs[i])
        invariant queries == before + row && |row| == j
        invariant forall k :: 0 <= k < j ==> Posed(obj, hops, srcs[i], percents[k], row[k])
      {
        assert percents[j] in percents;
        var query := Ask(obj, hops, srcs[i], percents[j]);
        if query.None? {
          return None;
        }
        queries := queries + [query.value];
        row := row + [query.value];
      }
      PosedNext(obj, hops, srcs, percents, i, before, row);
      assert srcs[..i + 1] == srcs[..i] + [srcs[i]];
    }
    assert srcs[..|srcs|] == srcs;
    r := Some(queries);
  }

  // ----- the text of the body

  function Joined(lines: seq<string>): string
  {
    if lines == [] then "" else if |lines| == 1 then lines[0] else lines[0] + "\n" + Joined(lines[1..])
  }

  /** Each line ended by a line break. */
  function Unlines(lines: seq<string>): string
  {
    if lines == [] then "" else lines[0] + "\n" + Unlines(lines[1..])
  }

  lemma {:induction false} JoinedEnds(lines: seq<string>)
    ensures Joined(lines) + "\n" == (if lines == [] then "\n" else Unlines(lines))
    decreases |lines|
  {
    if |lines| > 1 {
      JoinedEnds(lines[1..]);
      assert Joined(lines) + "\n" == lines[0] + "\n" + (Joined(lines[1..]) + "\n");
    }
  }

  lemma {:induction false} UnlinesConcat(a: seq<string>, b: seq<string>)
    ensures Unlines(a + b) == Unlines(a) + Unlines(b)
    decreases |a|
  {
    if a == [] {
      assert a + b == b;
    } else {
      UnlinesConcat(a[1..], b);
      assert (a + b)[1..] == a[1..] + b;
    }
  }

  /** How a part stands in the prompt. */
  function Shown(part: seq<string>): string
  {
    Joined(part) + "\n"
  }

  lemma PartsConcat(a: seq<string>, b: seq<string>, c: seq<string>, d: seq<string>)
    requires a != [] && b != [] && c != [] && d != []
    ensures Shown(a) + (Shown(b) + (Shown(c) + Shown(d))) == Unlines(a + (b + (c + d)))
  {
    JoinedEnds(a);
    JoinedEnds(b);
    JoinedEnds(c);
    JoinedEnds(d);
    UnlinesConcat(c, d);
    UnlinesConcat(b, c + d);
    UnlinesConcat(a, b + (c + d));
  }

  /** The four parts of a body, one after the other in the prompt. */
  function Text(body: seq<string>, n: nat): string
    requires 3 * n <= |body|
  {
    Shown(body[..n]) + (Shown(body[n..2 * n]) + (Shown(body[2 * n..3 * n]) + Shown(body[3 * n..])))
  }

  lemma ShortText(body: seq<string>)
    requires body != []
    ensures Text(body, 0) == "\n" + ("\n" + ("\n" + Unlines(body)))
  {
    assert body[0..] == body && body[..0] == [] && body[0..0] == [];
    JoinedEnds(body);
    assert Shown([]) == "\n";
  }

  lemma LongText(body: seq<string>, n: nat)
    requires 0 < n && 3 * n < |body|
    ensures Text(body, n) == Unlines(body)
  {
    var m, k := 2 * n, 3 * n;
    PartsConcat(body[..n], body[n..m], body[m..k], body[k..]);
    Rejoined(body, m, k);
    Rejoined(body, n, m);
    Rejoined(body, 0, n);
    assert body[0..n] == body[..n] && body[0..] == body;
  }

  lemma Rejoined<T>(s: seq<T>, from: nat, to: nat)
    requires from <= to <= |s|
    ensures s[from..to] + s[to..] == s[from..]
  {
  }

  /** The prompt shows the four parts as one list of lines; a body of fewer than four lines is preceded by
      three empty ones. */
  lemma PartsReadAsBody(body: seq<string>)
    requires body != []
    ensures Text(body, |body| / 4)
            == if |body| < 4 then "\n" + ("\n" + ("\n" + Unlines(body))) else Unlines(body)
  {
    if |body| < 4 {
      ShortText(body);
    } else {
      LongText(body, |body| / 4);
    }
  }
}
