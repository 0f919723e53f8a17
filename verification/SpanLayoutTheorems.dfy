/** What the packing of spans guarantees over every run: no overlaps, no more lines than the busiest span
    needs, and with spans in order of their start exactly as many lines as spans are ever open at once. */
module SpanLayoutTheorems {
  import opened SpanLayout

  // ----- overlaps

  ghost predicate AllDisjoint(t: Track)
  {
    forall k :: 0 <= k < |t.lines| ==> Disjoint(t.lines[k])
  }

  ghost predicate AllProper(t: Track)
  {
    forall k :: 0 <= k < |t.lines| ==> Proper(t.lines[k]) && Sorted(t.lines[k])
  }

  /** A span without length that its room drops, unchecked, inside another span of the line. */
  ghost predicate Unchecked(t: Track, v: Visit)
  {
    !v.opens && v.x.start == v.x.end && t.current < |t.lines| && OverlapsSome(t.lines[t.current], v.x)
  }

  lemma ChosenLineIsFree(t: Track, v: Visit)
    requires AllDisjoint(t) && AllProper(t) && v.x.start <= v.x.end && (!v.opens ==> t.current < |t.lines|)
    ensures var k := FindLine(t, v);
            k < |t.lines| && !Unchecked(t, v) ==> !OverlapsSome(t.lines[k], v.x)
  {
    var k := FindLine(t, v);
    if k < |t.lines| {
      CheckOverlapIsScan(t.lines[k], v.x);
    }
  }

  lemma PlaceProper(t: Track, v: Visit)
    requires AllProper(t) && v.x.start <= v.x.end && (!v.opens ==> t.current < |t.lines|)
    ensures AllProper(Place(t, v))
  {
    var k := FindLine(t, v);
    var line := if k == |t.lines| then [] else t.lines[k];
    InsertHasMembers(line, v.x);
    InsertKeepsSorted(line, v.x);
    var line' := Insert(line, v.x);
    forall i | 0 <= i < |line'|
      ensures line'[i].start <= line'[i].end
    {
      assert line'[i] in line';
    }
  }

  /** A step keeps the lines free of overlaps exactly when it is not such an unchecked one. */
  lemma PlaceDisjointIff(t: Track, v: Visit)
    requires AllDisjoint(t) && AllProper(t) && v.x.start <= v.x.end && (!v.opens ==> t.current < |t.lines|)
    ensures AllDisjoint(Place(t, v)) <==> !Unchecked(t, v)
  {
    var k, t' := FindLine(t, v), Place(t, v);
    ChosenLineIsFree(t, v);
    if k < |t.lines| {
      InsertKeepsDisjointIff(t.lines[k], v.x);
      assert t'.lines[k] == Insert(t.lines[k], v.x);
      assert forall l :: 0 <= l < |t.lines| && l != k ==> t'.lines[l] == t.lines[l];
    } else {
      assert forall l :: 0 <= l < |t.lines| ==> t'.lines[l] == t.lines[l];
    }
  }

  /** Overlaps never go away again. */
  lemma OverlapsStay(t: Track, v: Visit)
    requires (!v.opens ==> t.current < |t.lines|) && AllDisjoint(Place(t, v))
    ensures AllDisjoint(t)
  {
    var k, t' := FindLine(t, v), Place(t, v);
    forall l | 0 <= l < |t.lines|
      ensures Disjoint(t.lines[l])
    {
      if l == k {
        assert t'.lines[k] == Insert(t.lines[k], v.x);
        RemovedIsDisjoint(t.lines[k], v.x);
      } else {
        assert t'.lines[l] == t.lines[l];
      }
    }
  }

  lemma RemovedIsDisjoint(line: seq<Interval>, x: Interval)
    requires Disjoint(Insert(line, x))
    ensures Disjoint(line)
  {
    var idx, r := InsertIndex(line, x), Insert(line, x);
    forall i, j | 0 <= i < j < |line|
      ensures !Overlap(line[i], line[j])
    {
      assert r[if i < idx then i else i + 1] == line[i] && r[if j < idx then j else j + 1] == line[j];
    }
  }

  lemma {:induction false} LayoutProper(vs: seq<Visit>)
    requires Starts(vs) && Spans(vs)
    ensures AllProper(Layout(vs))
    decreases |vs|
  {
    if vs != [] {
      LayoutProper(vs[..|vs| - 1]);
      PlaceProper(Layout(vs[..|vs| - 1]), vs[|vs| - 1]);
    }
  }

  /** No step of the run was an unchecked one. */
  ghost predicate AllChecked(vs: seq<Visit>)
    requires Starts(vs)
    decreases |vs|
  {
    vs != [] ==> AllChecked(vs[..|vs| - 1]) && !Unchecked(Layout(vs[..|vs| - 1]), vs[|vs| - 1])
  }

  /** Over every run of any number of rooms: the lines end up free of overlaps if and only if no span without
      length was ever dropped inside another span. */
  lemma {:induction false} LayoutDisjointIff(vs: seq<Visit>)
    requires Starts(vs) && Spans(vs)
    ensures AllDisjoint(Layout(vs)) <==> AllChecked(vs)
    decreases |vs|
  {
    if vs != [] {
      var init, v := vs[..|vs| - 1], vs[|vs| - 1];
      LayoutDisjointIff(init);
      LayoutProper(init);
      if AllDisjoint(Layout(init)) {
        PlaceDisjointIff(Layout(init), v);
      } else if AllDisjoint(Place(Layout(init), v)) {
        OverlapsStay(Layout(init), v);
      }
    }
  }

  lemma {:induction false} PositiveIsChecked(vs: seq<Visit>)
    requires Starts(vs) && Positive(vs)
    ensures AllChecked(vs)
    decreases |vs|
  {
    if vs != [] {
      PositiveIsChecked(vs[..|vs| - 1]);
    }
  }

  ghost predicate Positive(vs: seq<Visit>)
  {
    forall i :: 0 <= i < |vs| ==> vs[i].x.start < vs[i].x.end
  }

  /** With spans of positive length there are no overlaps ... */
  lemma PositiveSpansNeverOverlap(vs: seq<Visit>)
    requires Starts(vs) && Positive(vs)
    ensures AllDisjoint(Layout(vs)) && AllProper(Layout(vs))
  {
    PositiveIsChecked(vs);
    LayoutDisjointIff(vs);
    LayoutProper(vs);
  }

  /** ... and every check agrees with a full scan. */
  lemma ChecksAreScans(vs: seq<Visit>, k: nat, x: Interval)
    requires Starts(vs) && Positive(vs) && k < |Layout(vs).lines| && x.start <= x.end
    ensures CheckOverlap(Layout(vs).lines[k], x) <==> OverlapsSome(Layout(vs).lines[k], x)
  {
    var line := Layout(vs).lines[k];
    PositiveSpansNeverOverlap(vs);
    LayoutAccounted(vs);
    forall i | 0 <= i < |line|
      ensures line[i].start < line[i].end
    {
      assert line[i] in line;
    }
    CheckOverlapIsScan(line, x);
  }

  const LONG := Visit(true, Interval(0, 10))
  const POINT := Visit(false, Interval(5, 5))
  const SHORT := Visit(true, Interval(7, 8))

  lemma LongAlone()
    ensures Layout([LONG]) == Track([[LONG.x]], 0, [0])
  {
    assert [LONG][..0] == [];
    assert Layout([]) == Track([], 0, []);
    assert Insert([], LONG.x) == [LONG.x];
    assert [[]][0 := [LONG.x]] == [[LONG.x]];
  }

  lemma PointJoinsLong()
    ensures Layout([LONG, POINT]) == Track([[LONG.x, POINT.x]], 0, [0, 0])
  {
    LongAlone();
    assert [LONG, POINT][..1] == [LONG];
    assert InsertIndex([LONG.x][1..], POINT.x) == 0;
    assert Insert([LONG.x], POINT.x) == [LONG.x, POINT.x];
    assert [[LONG.x]][0 := [LONG.x, POINT.x]] == [[LONG.x, POINT.x]];
  }

  /** The run that goes wrong: a span without length inside (0, 10) hides it from the next room's check. */
  lemma UncheckedSpanHidesOverlap()
    ensures var vs := [LONG, POINT, SHORT];
            Starts(vs) && Spans(vs) && Layout(vs).placed == [0, 0, 0] && Overlap(vs[0].x, vs[2].x)
  {
    PointJoinsLong();
    var t := Layout([LONG, POINT]);
    assert [LONG, POINT, SHORT][..2] == [LONG, POINT];
    StartIndexIs([LONG.x, POINT.x], 7, 2);
    assert !CheckOverlap(t.lines[0], SHORT.x);
    assert FindLine(t, SHORT) == 0;
  }

  // ----- counting

  lemma {:induction false} InjectiveBound(s: set<nat>, f: seq<nat>, m: nat)
    requires forall i :: i in s ==> i < |f| && f[i] < m
    requires forall i, j :: i in s && j in s && i != j ==> f[i] != f[j]
    ensures |s| <= m
  {
    if m == 0 {
      assert forall i :: i !in s;
      assert s == {};
    } else if exists i :: i in s && f[i] == m - 1 {
      var i :| i in s && f[i] == m - 1;
      InjectiveBound(s - {i}, f, m - 1);
    } else {
      InjectiveBound(s, f, m - 1);
    }
  }

  ghost predicate Hits(s: set<nat>, f: seq<nat>, k: nat)
    requires forall i :: i in s ==> i < |f|
  {
    exists i :: i in s && f[i] == k
  }

  lemma {:induction false} SurjectiveBound(s: set<nat>, f: seq<nat>, n: nat)
    requires forall i :: i in s ==> i < |f|
    requires forall k :: 0 <= k < n ==> Hits(s, f, k)
    ensures |s| >= n
  {
    if n > 0 {
      assert Hits(s, f, n - 1);
      var i :| i in s && f[i] == n - 1;
      forall k | 0 <= k < n - 1
        ensures Hits(s - {i}, f, k)
      {
        assert Hits(s, f, k);
        var j :| j in s && f[j] == k;
        assert j in s - {i};
      }
      SurjectiveBound(s - {i}, f, n - 1);
    }
  }

  // ----- how many lines

  /** The spans open at an instant. */
  ghost function OpenAt(vs: seq<Visit>, instant: int): set<nat>
  {
    set i: nat | i < |vs| && vs[i].x.start <= instant < vs[i].x.end
  }

  /** The other spans that a span overlaps. */
  ghost function Neighbours(vs: seq<Visit>, j: nat): set<nat>
    requires j < |vs|
  {
    set i: nat | i < |vs| && i != j && Overlap(vs[i].x, vs[j].x)
  }

  /** An assignment of spans to `m` lines without overlaps. */
  ghost predicate OverlapFree(vs: seq<Visit>, f: seq<nat>, m: nat)
  {
    && |f| == |vs| && (forall i :: 0 <= i < |f| ==> f[i] < m)
    && forall i, j :: 0 <= i < j < |vs| && f[i] == f[j] ==> !Overlap(vs[i].x, vs[j].x)
  }

  /** No assignment uses fewer lines than spans are open at once. */
  lemma OpenSpansNeedLines(vs: seq<Visit>, f: seq<nat>, m: nat, instant: int)
    requires OverlapFree(vs, f, m)
    ensures |OpenAt(vs, instant)| <= m
  {
    var s := OpenAt(vs, instant);
    forall i, j | i in s && j in s && i != j
      ensures f[i] != f[j]
    {
      assert Overlap(vs[i].x, vs[j].x) && Overlap(vs[j].x, vs[i].x);
    }
    InjectiveBound(s, f, m);
  }

  /** When a span opens a new line, every line there was holds a span that it overlaps. */
  lemma NewLineIsBlocked(vs: seq<Visit>, v: Visit, k: nat)
    requires Starts(vs) && Positive(vs) && v.x.start < v.x.end && (vs == [] ==> v.opens)
    requires FindLine(Layout(vs), v) == |Layout(vs).lines| && k < |Layout(vs).lines|
    ensures exists i :: 0 <= i < |vs| && Layout(vs).placed[i] == k && Overlap(vs[i].x, v.x)
  {
    var t := Layout(vs);
    LayoutAccounted(vs);
    assert CheckOverlap(t.lines[k], v.x);
    ChecksAreScans(vs, k, v.x);
    var n :| 0 <= n < |t.lines[k]| && Overlap(t.lines[k][n], v.x);
    assert t.lines[k][n] in t.lines[k];
  }

  lemma ExtendedIsOverlapFree(vs: seq<Visit>, v: Visit, f: seq<nat>, m: nat, k: nat, m': nat)
    requires OverlapFree(vs, f, m) && m <= m' && k < m'
    requires forall i :: 0 <= i < |vs| && f[i] == k ==> !Overlap(vs[i].x, v.x)
    ensures OverlapFree(vs + [v], f + [k], m')
  {
  }

  /** The packing itself assigns without overlaps. */
  lemma {:induction false} LayoutIsOverlapFree(vs: seq<Visit>)
    requires Starts(vs) && Positive(vs)
    ensures OverlapFree(vs, Layout(vs).placed, |Layout(vs).lines|)
    decreases |vs|
  {
    if vs != [] {
      var init, v := vs[..|vs| - 1], vs[|vs| - 1];
      LayoutIsOverlapFree(init);
      var t, k := Layout(init), FindLine(Layout(init), v);
      ChosenLineIsApart(init, v);
      ExtendedIsOverlapFree(init, v, t.placed, |t.lines|, k, |Layout(vs).lines|);
      assert vs == init + [v];
    }
  }

  lemma ChosenLineIsApart(vs: seq<Visit>, v: Visit)
    requires Starts(vs) && Positive(vs) && v.x.start < v.x.end && (vs == [] ==> v.opens)
    ensures forall i :: 0 <= i < |vs| && Layout(vs).placed[i] == FindLine(Layout(vs), v) ==> !Overlap(vs[i].x, v.x)
  {
    var t := Layout(vs);
    PositiveSpansNeverOverlap(vs);
    LayoutAccounted(vs);
    ChosenLineIsFree(t, v);
    forall i | 0 <= i < |vs| && t.placed[i] == FindLine(t, v)
      ensures !Overlap(vs[i].x, v.x)
    {
      var n :| 0 <= n < |t.lines[t.placed[i]]| && t.lines[t.placed[i]][n] == vs[i].x;
    }
  }

  lemma SubsetCard(a: set<nat>, b: set<nat>)
    requires a <= b
    ensures |a| <= |b|
  {
    if a != {} {
      var x :| x in a;
      SubsetCard(a - {x}, b - {x});
    }
  }

  /** Some span overlaps so many others that `n` lines were needed. */
  ghost predicate Crowded(vs: seq<Visit>, n: nat)
  {
    n == 0 || exists j: nat :: j < |vs| && |Neighbours(vs, j)| + 1 >= n
  }

  /** In whatever order the spans come, there are at most as many lines as one more than the number of other
      spans that some span overlaps. */
  lemma {:induction false} LinesBoundedByNeighbours(vs: seq<Visit>)
    requires Starts(vs) && Positive(vs)
    ensures Crowded(vs, |Layout(vs).lines|)
    decreases |vs|
  {
    if vs != [] {
      var n := |vs| - 1;
      var init, v := vs[..n], vs[n];
      LinesBoundedByNeighbours(init);
      var t, k := Layout(init), FindLine(Layout(init), v);
      if k == |t.lines| {
        forall l | 0 <= l < |t.lines|
          ensures Hits(Neighbours(vs, n), t.placed + [k], l)
        {
          NewLineIsBlocked(init, v, l);
          var i :| 0 <= i < |init| && t.placed[i] == l && Overlap(init[i].x, v.x);
          assert i in Neighbours(vs, n) && (t.placed + [k])[i] == l;
        }
        SurjectiveBound(Neighbours(vs, n), t.placed + [k], |t.lines|);
      } else {
        var j: nat :| j < |init| && |Neighbours(init, j)| + 1 >= |t.lines|;
        SubsetCard(Neighbours(init, j), Neighbours(vs, j));
      }
    }
  }

  ghost predicate InStartOrder(vs: seq<Visit>)
  {
    forall i, j :: 0 <= i < j < |vs| ==> vs[i].x.start <= vs[j].x.start
  }

  ghost predicate OpenTogether(vs: seq<Visit>, n: nat)
  {
    n == 0 || exists instant :: |OpenAt(vs, instant)| >= n
  }

  lemma {:induction false} LinesAreOpenTogether(vs: seq<Visit>)
    requires Starts(vs) && Positive(vs) && InStartOrder(vs)
    ensures OpenTogether(vs, |Layout(vs).lines|)
    decreases |vs|
  {
    if vs != [] {
      var n := |vs| - 1;
      var init, v := vs[..n], vs[n];
      LinesAreOpenTogether(init);
      var t, k := Layout(init), FindLine(Layout(init), v);
      if k == |t.lines| {
        var open := OpenAt(vs, v.x.start);
        forall l | 0 <= l < |t.lines| + 1
          ensures Hits(open, t.placed + [k], l)
        {
          if l == k {
            assert n in open && (t.placed + [k])[n] == l;
          } else {
            NewLineIsBlocked(init, v, l);
            var i :| 0 <= i < |init| && t.placed[i] == l && Overlap(init[i].x, v.x);
            assert vs[i].x.start <= vs[n].x.start;
            assert i in open && (t.placed + [k])[i] == l;
          }
        }
        SurjectiveBound(open, t.placed + [k], |t.lines| + 1);
      } else {
        var instant :| |OpenAt(init, instant)| >= |t.lines|;
        SubsetCard(OpenAt(init, instant), OpenAt(vs, instant));
      }
    }
  }

  /** With spans in order of their start, the lines opened are exactly as many as spans are ever open at one
      instant, and no assignment without overlaps uses fewer. */
  lemma LineCountIsOptimal(vs: seq<Visit>, f: seq<nat>, m: nat)
    requires Starts(vs) && Positive(vs) && InStartOrder(vs)
    ensures forall instant :: |OpenAt(vs, instant)| <= |Layout(vs).lines|
    ensures vs != [] ==> exists instant :: |OpenAt(vs, instant)| == |Layout(vs).lines|
    ensures OverlapFree(vs, f, m) ==> |Layout(vs).lines| <= m
  {
    var t := Layout(vs);
    LayoutIsOverlapFree(vs);
    forall instant
      ensures |OpenAt(vs, instant)| <= |t.lines|
    {
      OpenSpansNeedLines(vs, t.placed, |t.lines|, instant);
    }
    LinesAreOpenTogether(vs);
    if vs != [] {
      var instant :| |OpenAt(vs, instant)| >= |t.lines|;
      if OverlapFree(vs, f, m) {
        OpenSpansNeedLines(vs, f, m, instant);
      }
      assert |OpenAt(vs, instant)| == |t.lines|;
    }
  }

  // ----- which line

  /** Every line is in order, without overlaps, and holds spans of positive length only. */
  ghost predicate Clean(lines: seq<seq<Interval>>)
  {
    forall l :: 0 <= l < |lines| ==> Sorted(lines[l]) && Disjoint(lines[l]) && Lengthy(lines[l])
  }

  ghost predicate Lengthy(line: seq<Interval>)
  {
    forall i :: 0 <= i < |line| ==> line[i].start < line[i].end
  }

  /** The line a room is on if nothing there overlaps the span; else the first line where nothing does. */
  ghost predicate StaysOrFirst(lines: seq<seq<Interval>>, opens: bool, current: nat, x: Interval, k: nat)
    requires !opens ==> current < |lines|
  {
    if !opens && !OverlapsSome(lines[current], x) then k == current
    else
      && k <= |lines| && (k < |lines| ==> !OverlapsSome(lines[k], x))
      && forall l :: 0 <= l < k ==> OverlapsSome(lines[l], x)
  }

  lemma FindLineMeans(t: Track, v: Visit)
    requires Clean(t.lines) && v.x.start < v.x.end && (!v.opens ==> t.current < |t.lines|)
    ensures StaysOrFirst(t.lines, v.opens, t.current, v.x, FindLine(t, v))
  {
    hide CheckOverlap;
    forall l | 0 <= l < |t.lines|
      ensures CheckOverlap(t.lines[l], v.x) <==> OverlapsSome(t.lines[l], v.x)
    {
      CheckOverlapIsScan(t.lines[l], v.x);
    }
  }

  lemma LayoutClean(vs: seq<Visit>)
    requires Starts(vs) && Positive(vs)
    ensures Clean(Layout(vs).lines)
  {
    var lines: seq<seq<Interval>> := Layout(vs).lines;
    PositiveSpansNeverOverlap(vs);
    LayoutAccounted(vs);
    forall l, i | 0 <= l < |lines| && 0 <= i < |lines[l]|
      ensures lines[l][i].start < lines[l][i].end
    {
      assert lines[l][i] in lines[l];
    }
  }

  /** One of the first `n` spans was put on the line and overlaps the given one. */
  ghost predicate Blocked(vs: seq<Visit>, placed: seq<nat>, n: nat, l: int, x: Interval)
    requires n <= |vs| && n <= |placed|
  {
    exists i :: 0 <= i < n && placed[i] == l && Overlap(vs[i].x, x)
  }

  lemma ScannedIsBlocked(vs: seq<Visit>, l: nat, x: Interval)
    requires Starts(vs)
    ensures Blocked(vs, Layout(vs).placed, |vs|, l, x) <==> l < |Layout(vs).lines| && OverlapsSome(Layout(vs).lines[l], x)
  {
    var t := Layout(vs);
    LayoutAccounted(vs);
    if i :| 0 <= i < |vs| && t.placed[i] == l && Overlap(vs[i].x, x) {
      var n :| 0 <= n < |t.lines[l]| && t.lines[l][n] == vs[i].x;
    }
    if l < |t.lines| && OverlapsSome(t.lines[l], x) {
      var n :| 0 <= n < |t.lines[l]| && Overlap(t.lines[l][n], x);
      assert t.lines[l][n] in t.lines[l];
    }
  }

  /** A later span does not move an earlier one, and the last one placed is on the current line. */
  lemma {:induction false} PlacedOnce(vs: seq<Visit>, n: nat)
    requires Starts(vs) && n <= |vs|
    ensures Layout(vs).placed[..n] == Layout(vs[..n]).placed
    ensures n > 0 ==> Layout(vs).placed[n - 1] == Layout(vs[..n]).current
    decreases |vs|
  {
    if n < |vs| {
      var init := vs[..|vs| - 1];
      PlacedOnce(init, n);
      assert init[..n] == vs[..n];
    } else {
      assert vs[..n] == vs;
    }
  }

  /** Where a span goes, whatever came before: a room stays on its line if no earlier span there overlaps the new one,
      and only then; else the span goes on the first line where none does. */
  ghost predicate Settled(vs: seq<Visit>, placed: seq<nat>, j: nat)
    requires Starts(vs) && j < |vs| && |placed| == |vs|
  {
    var x := vs[j].x;
    && (!vs[j].opens ==> j > 0 && (placed[j] == placed[j - 1] <==> !Blocked(vs, placed, j, placed[j - 1], x)))
    && (vs[j].opens || Blocked(vs, placed, j, placed[j - 1], x) ==>
          !Blocked(vs, placed, j, placed[j], x) && forall l :: 0 <= l < placed[j] ==> Blocked(vs, placed, j, l, x))
  }

  lemma RoomKeepsItsLine(vs: seq<Visit>, j: nat)
    requires Starts(vs) && Positive(vs) && j < |vs|
    ensures Settled(vs, Layout(vs).placed, j)
  {
    hide FindLine;
    hide Layout;
    hide OverlapsSome;
    var before, v, placed := vs[..j], vs[j], Layout(vs).placed;
    var t := Layout(before);
    LayoutClean(before);
    StepOf(vs, j);
    FindLineMeans(t, v);
    PlacedOnce(vs, j);
    forall l: nat
      ensures Blocked(vs, placed, j, l, v.x) <==> l < |t.lines| && OverlapsSome(t.lines[l], v.x)
    {
      ScannedIsBlocked(before, l, v.x);
      assert forall i :: 0 <= i < j ==> before[i] == vs[i] && t.placed[i] == placed[..j][i] == placed[i];
    }
  }

  lemma StepOf(vs: seq<Visit>, j: nat)
    requires Starts(vs) && j < |vs|
    ensures var t := Layout(vs[..j]);
            && (!vs[j].opens ==> j > 0 && t.current < |t.lines|)
            && Layout(vs).placed[j] == FindLine(t, vs[j])
  {
    PlacedOnce(vs, j + 1);
    assert vs[..j + 1][..j] == vs[..j];
  }

  /** A span without length stays on the line of its room, whatever is there. */
  lemma PointStays(vs: seq<Visit>, j: nat)
    requires Starts(vs) && j < |vs| && !vs[j].opens && vs[j].x.start == vs[j].x.end
    ensures j > 0 && Layout(vs).placed[j] == Layout(vs).placed[j - 1]
  {
    StepOf(vs, j);
    PlacedOnce(vs, j);
  }
}
