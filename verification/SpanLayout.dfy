/** Display lines of one process: spans are packed into lines so that no two spans on a line overlap.  A line
    keeps its intervals sorted and looks only at the two neighbours of a new one. */
module SpanLayout {

  datatype Interval = Interval(start: int, end: int)

  /** Lexicographic order, as tuples compare. */
  predicate Before(a: Interval, b: Interval)
  {
    a.start < b.start || (a.start == b.start && a.end <= b.end)
  }

  predicate Overlap(a: Interval, b: Interval)
  {
    a.start < b.end && b.start < a.end
  }

  ghost predicate Sorted(line: seq<Interval>)
  {
    forall i, j :: 0 <= i < j < |line| ==> Before(line[i], line[j])
  }

  ghost predicate Proper(line: seq<Interval>)
  {
    forall i :: 0 <= i < |line| ==> line[i].start <= line[i].end
  }

  ghost predicate Disjoint(line: seq<Interval>)
  {
    forall i, j :: 0 <= i < j < |line| ==> !Overlap(line[i], line[j])
  }

  /** The full scan that the two-neighbour check stands for. */
  ghost predicate OverlapsSome(line: seq<Interval>, x: Interval)
  {
    exists i :: 0 <= i < |line| && Overlap(line[i], x)
  }

  /** The first position whose interval does not start before `start`. */
  method BisectStart(line: seq<Interval>, start: int) returns (idx: nat)
    requires Sorted(line)
    ensures idx == StartIndex(line, start)
  {
    var lo, hi := 0, |line|;
    while lo < hi
      invariant 0 <= lo <= hi <= |line|
      invariant forall i :: 0 <= i < lo ==> line[i].start < start
      invariant forall i :: hi <= i < |line| ==> line[i].start >= start
    {
      var mid := (lo + hi) / 2;
      if line[mid].start < start {
        assert forall i :: 0 <= i < mid ==> Before(line[i], line[mid]);
        lo := mid + 1;
      } else {
        assert forall i :: mid < i < |line| ==> Before(line[mid], line[i]);
        hi := mid;
      }
    }
    StartIndexIs(line, start, lo);
    idx := lo;
  }

  function StartIndex(line: seq<Interval>, start: int): (idx: nat)
    ensures idx <= |line|
    ensures forall i :: 0 <= i < idx ==> line[i].start < start
    ensures idx < |line| ==> line[idx].start >= start
    decreases |line|
  {
    if line == [] || line[0].start >= start then 0 else 1 + StartIndex(line[1..], start)
  }

  lemma StartIndexIs(line: seq<Interval>, start: int, n: nat)
    requires n <= |line|
    requires forall i :: 0 <= i < n ==> line[i].start < start
    requires forall i :: n <= i < |line| ==> line[i].start >= start
    ensures StartIndex(line, start) == n
  {
    var idx := StartIndex(line, start);
    assert idx < |line| ==> line[idx].start >= start;
    assert n < |line| ==> line[n].start >= start;
  }

  /** On a line without overlaps every interval ends before the next one starts. */
  lemma EndsBeforeNext(line: seq<Interval>)
    requires Sorted(line) && Disjoint(line) && Proper(line)
    ensures forall i, j :: 0 <= i < j < |line| ==> line[i].end <= line[j].start
  {
    forall i, j | 0 <= i < j < |line|
      ensures line[i].end <= line[j].start
    {
      assert Before(line[i], line[j]) && !Overlap(line[i], line[j]);
    }
  }

  function CheckOverlap(line: seq<Interval>, x: Interval): bool
  {
    var idx := StartIndex(line, x.start);
    || (idx > 0 && line[idx - 1].end > x.start)
    || (idx < |line| && line[idx].start < x.end)
  }

  lemma OverlapIsNoticed(line: seq<Interval>, x: Interval, i: nat)
    requires Sorted(line) && Disjoint(line) && Proper(line) && i < |line| && Overlap(line[i], x)
    ensures CheckOverlap(line, x)
  {
    var idx := StartIndex(line, x.start);
    EndsBeforeNext(line);
    assert idx < i ==> Before(line[idx], line[i]);
  }

  lemma NoticedIsOverlap(line: seq<Interval>, x: Interval)
    requires Sorted(line) && Disjoint(line) && x.start <= x.end && CheckOverlap(line, x)
    requires forall i :: 0 <= i < |line| ==> line[i].start < line[i].end
    ensures OverlapsSome(line, x)
  {
    var idx := StartIndex(line, x.start);
    if idx < |line| && line[idx].start < x.end {
      assert Overlap(line[idx], x);
    } else {
      ScanFindsPrevious(line, x, idx - 1);
    }
  }

  /** Looking at two neighbours never misses an overlap, and with spans of positive length it never reports
      one that a full scan would not find. */
  lemma CheckOverlapIsScan(line: seq<Interval>, x: Interval)
    requires Sorted(line) && Disjoint(line) && Proper(line) && x.start <= x.end
    ensures OverlapsSome(line, x) ==> CheckOverlap(line, x)
    ensures (forall i :: 0 <= i < |line| ==> line[i].start < line[i].end) ==>
            (CheckOverlap(line, x) <==> OverlapsSome(line, x))
  {
    if OverlapsSome(line, x) {
      var i :| 0 <= i < |line| && Overlap(line[i], x);
      OverlapIsNoticed(line, x, i);
    } else if CheckOverlap(line, x) && (forall i :: 0 <= i < |line| ==> line[i].start < line[i].end) {
      NoticedIsOverlap(line, x);
    }
  }

  lemma ScanFindsPrevious(line: seq<Interval>, x: Interval, i: nat)
    requires i < |line| && line[i].start < x.start <= x.end && line[i].end > x.start
    ensures OverlapsSome(line, x)
  {
    assert Overlap(line[i], x);
  }

  // ----- insertion

  function InsertIndex(line: seq<Interval>, x: Interval): (idx: nat)
    ensures idx <= |line|
    ensures forall i :: 0 <= i < idx ==> !Before(x, line[i])
    ensures idx < |line| ==> Before(x, line[idx])
    decreases |line|
  {
    if line == [] || Before(x, line[0]) then 0 else 1 + InsertIndex(line[1..], x)
  }

  function Insert(line: seq<Interval>, x: Interval): (r: seq<Interval>)
  {
    var idx := InsertIndex(line, x);
    line[..idx] + [x] + line[idx..]
  }

  lemma InsertKeepsSorted(line: seq<Interval>, x: Interval)
    requires Sorted(line)
    ensures Sorted(Insert(line, x))
  {
    var idx, r := InsertIndex(line, x), Insert(line, x);
    forall i, j | 0 <= i < j < |r|
      ensures Before(r[i], r[j])
    {
      var a := if i < idx then i else i - 1;
      var b := if j < idx then j else j - 1;
      if i == idx {
        if b > idx { assert Before(line[idx], line[b]); }
      } else if j == idx {
        assert !Before(x, line[i]);
      } else {
        assert Before(line[a], line[b]);
      }
    }
  }

  lemma InsertHasMembers(line: seq<Interval>, x: Interval)
    ensures forall y :: y in Insert(line, x) <==> y == x || y in line
  {
    var idx := InsertIndex(line, x);
    assert line == line[..idx] + line[idx..];
  }

  /** An interval can be added exactly when nothing on the line overlaps it. */
  lemma InsertKeepsDisjointIff(line: seq<Interval>, x: Interval)
    requires Disjoint(line)
    ensures Disjoint(Insert(line, x)) <==> !OverlapsSome(line, x)
  {
    var idx, r := InsertIndex(line, x), Insert(line, x);
    if OverlapsSome(line, x) {
      var i :| 0 <= i < |line| && Overlap(line[i], x);
      assert r[if i < idx then i else i + 1] == line[i] && r[idx] == x;
      assert Overlap(x, line[i]);
    } else {
      forall i, j | 0 <= i < j < |r|
        ensures !Overlap(r[i], r[j])
      {
        var a := if i < idx then i else i - 1;
        var b := if j < idx then j else j - 1;
        if i == idx {
          assert !Overlap(line[b], x);
        } else if j == idx {
          assert !Overlap(line[a], x);
        }
      }
    }
  }

  // ----- one span after another

  /** A span of the process, and whether it is the first one of its room there. */
  datatype Visit = Visit(opens: bool, x: Interval)

  /** The lines of a process, the line last used by the present room, and the line of each span so far. */
  datatype Track = Track(lines: seq<seq<Interval>>, current: nat, placed: seq<nat>)

  function FirstFit(lines: seq<seq<Interval>>, x: Interval): (k: nat)
    ensures k <= |lines|
    ensures forall i :: 0 <= i < k ==> CheckOverlap(lines[i], x)
    ensures k < |lines| ==> !CheckOverlap(lines[k], x)
    decreases |lines|
  {
    if lines == [] || !CheckOverlap(lines[0], x) then 0 else 1 + FirstFit(lines[1..], x)
  }

  /** A room stays on its line if it can; a span without length stays there without being checked. */
  function FindLine(t: Track, v: Visit): (k: nat)
    requires !v.opens ==> t.current < |t.lines|
    ensures k <= |t.lines|
  {
    if !v.opens && (v.x.start == v.x.end || !CheckOverlap(t.lines[t.current], v.x)) then t.current
    else FirstFit(t.lines, v.x)
  }

  function Place(t: Track, v: Visit): Track
    requires !v.opens ==> t.current < |t.lines|
  {
    var k := FindLine(t, v);
    var lines := if k == |t.lines| then t.lines + [[]] else t.lines;
    Track(lines[k := Insert(lines[k], v.x)], k, t.placed + [k])
  }

  /** The first span of a process opens its room; later ones may continue. */
  ghost predicate Starts(vs: seq<Visit>)
  {
    vs != [] ==> vs[0].opens
  }

  ghost predicate Spans(vs: seq<Visit>)
  {
    forall i :: 0 <= i < |vs| ==> vs[i].x.start <= vs[i].x.end
  }

  function Layout(vs: seq<Visit>): (t: Track)
    requires Starts(vs)
    ensures |t.placed| == |vs| && (vs != [] ==> t.current < |t.lines|)
    decreases |vs|
  {
    if vs == [] then Track([], 0, []) else Place(Layout(vs[..|vs| - 1]), vs[|vs| - 1])
  }

  // ----- what every run keeps

  /** Every line is used, and holds exactly the spans placed on it. */
  ghost predicate Accounted(vs: seq<Visit>, t: Track)
  {
    && |t.placed| == |vs|
    && (forall i :: 0 <= i < |vs| ==> t.placed[i] < |t.lines| && vs[i].x in t.lines[t.placed[i]])
    && (forall k, y :: 0 <= k < |t.lines| && y in t.lines[k] ==> exists i :: 0 <= i < |vs| && t.placed[i] == k && vs[i].x == y)
    && (forall k :: 0 <= k < |t.lines| ==> t.lines[k] != [] && Sorted(t.lines[k]))
  }

  lemma {:induction false} LayoutAccounted(vs: seq<Visit>)
    requires Starts(vs)
    ensures Accounted(vs, Layout(vs))
    decreases |vs|
  {
    if vs != [] {
      var init, v := vs[..|vs| - 1], vs[|vs| - 1];
      LayoutAccounted(init);
      PlaceAccounted(init, Layout(init), v);
      assert vs == init + [v];
    }
  }

  /** The spans placed on one line, in the order they came. */
  function OnLine(vs: seq<Visit>, placed: seq<nat>, k: nat): seq<Interval>
    requires |placed| == |vs|
    decreases |vs|
  {
    if vs == [] then []
    else
      var last := |vs| - 1;
      OnLine(vs[..last], placed[..last], k) + if placed[last] == k then [vs[last].x] else []
  }

  lemma {:induction false} NothingOnLine(vs: seq<Visit>, placed: seq<nat>, k: nat)
    requires |placed| == |vs| && forall i :: 0 <= i < |vs| ==> placed[i] != k
    ensures OnLine(vs, placed, k) == []
    decreases |vs|
  {
    if vs != [] {
      NothingOnLine(vs[..|vs| - 1], placed[..|vs| - 1], k);
    }
  }

  /** Each span is on its line as often as it was placed there, and nothing else is. */
  lemma {:induction false} LineHoldsItsSpans(vs: seq<Visit>, k: nat)
    requires Starts(vs) && k < |Layout(vs).lines|
    ensures multiset(Layout(vs).lines[k]) == multiset(OnLine(vs, Layout(vs).placed, k))
    decreases |vs|
  {
    if vs != [] {
      var init, v := vs[..|vs| - 1], vs[|vs| - 1];
      var t := Layout(init);
      assert Layout(vs).placed[..|init|] == t.placed;
      if k < |t.lines| {
        LineHoldsItsSpans(init, k);
      } else {
        LayoutAccounted(init);
        NothingOnLine(init, t.placed, k);
      }
      InsertAddsOne(if k < |t.lines| then t.lines[k] else [], v.x);
    }
  }

  lemma InsertAddsOne(line: seq<Interval>, x: Interval)
    ensures multiset(Insert(line, x)) == multiset(line) + multiset{x}
  {
    var i := InsertIndex(line, x);
    assert line == line[..i] + line[i..];
  }

  lemma PlaceAccounted(vs: seq<Visit>, t: Track, v: Visit)
    requires Accounted(vs, t) && (!v.opens ==> t.current < |t.lines|)
    ensures Accounted(vs + [v], Place(t, v))
  {
    var k, t', ws := FindLine(t, v), Place(t, v), vs + [v];
    var line := if k == |t.lines| then [] else t.lines[k];
    InsertHasMembers(line, v.x);
    InsertKeepsSorted(line, v.x);
    forall l, y | 0 <= l < |t'.lines| && y in t'.lines[l]
      ensures exists i :: 0 <= i < |ws| && t'.placed[i] == l && ws[i].x == y
    {
      if l == k && y == v.x {
        assert t'.placed[|vs|] == l && ws[|vs|].x == y;
      } else {
        assert l < |t.lines| && y in t.lines[l];
        var i :| 0 <= i < |vs| && t.placed[i] == l && vs[i].x == y;
        assert t'.placed[i] == l && ws[i].x == y;
      }
    }
  }
}
