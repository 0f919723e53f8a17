/** The order in which spans are laid out: each room's spans by their start, and the rooms by their first start. */
module TraceOrder {
  import opened Sequences
  import opened SpanLayout
  import opened SpanLayoutTheorems
  import opened TraceLayout
  import opened TraceVisits

  // ----- a stable sort

  function InsertBy<T>(xs: seq<T>, key: T -> int, x: T): (r: seq<T>)
    ensures |r| == |xs| + 1
    decreases |xs|
  {
    if xs == [] || key(xs[|xs| - 1]) <= key(x) then xs + [x]
    else InsertBy(xs[..|xs| - 1], key, x) + [xs[|xs| - 1]]
  }

  function SortBy<T>(xs: seq<T>, key: T -> int): (r: seq<T>)
    ensures |r| == |xs|
    decreases |xs|
  {
    if xs == [] then [] else InsertBy(SortBy(xs[..|xs| - 1], key), key, xs[|xs| - 1])
  }

  ghost predicate Ordered<T>(xs: seq<T>, key: T -> int)
  {
    forall i, j :: 0 <= i < j < |xs| ==> key(xs[i]) <= key(xs[j])
  }

  /** The elements with one key, in their order. */
  function WithKey<T>(xs: seq<T>, key: T -> int, v: int): seq<T>
    decreases |xs|
  {
    if xs == [] then []
    else WithKey(xs[..|xs| - 1], key, v) + if key(xs[|xs| - 1]) == v then [xs[|xs| - 1]] else []
  }

  lemma {:induction false} InsertByMembers<T>(xs: seq<T>, key: T -> int, x: T, y: T)
    ensures y in InsertBy(xs, key, x) <==> y == x || y in xs
    decreases |xs|
  {
    if xs != [] && key(xs[|xs| - 1]) > key(x) {
      InsertByMembers(xs[..|xs| - 1], key, x, y);
      assert xs == xs[..|xs| - 1] + [xs[|xs| - 1]];
    }
  }

  lemma {:induction false} InsertByOrdered<T>(xs: seq<T>, key: T -> int, x: T)
    requires Ordered(xs, key)
    ensures Ordered(InsertBy(xs, key, x), key)
    decreases |xs|
  {
    if xs != [] && key(xs[|xs| - 1]) > key(x) {
      var init, last := xs[..|xs| - 1], xs[|xs| - 1];
      InsertByOrdered(init, key, x);
      var r := InsertBy(init, key, x);
      forall i | 0 <= i < |r|
        ensures key(r[i]) <= key(last)
      {
        InsertByMembers(init, key, x, r[i]);
        assert forall k :: 0 <= k < |init| ==> init[k] == xs[k];
      }
    }
  }

  lemma {:induction false} InsertByKeepsOrder<T>(xs: seq<T>, key: T -> int, x: T, v: int)
    requires Ordered(xs, key)
    ensures WithKey(InsertBy(xs, key, x), key, v) == WithKey(xs, key, v) + if key(x) == v then [x] else []
    decreases |xs|
  {
    if xs == [] || key(xs[|xs| - 1]) <= key(x) {
      assert (xs + [x])[..|xs|] == xs;
    } else {
      var init, last := xs[..|xs| - 1], xs[|xs| - 1];
      InsertByKeepsOrder(init, key, x, v);
      assert (InsertBy(init, key, x) + [last])[..|xs|] == InsertBy(init, key, x);
    }
  }

  /** The result is in order, and elements with the same key keep theirs; so none is lost or repeated. */
  lemma {:induction false} SortIsStable<T(!new)>(xs: seq<T>, key: T -> int)
    ensures Ordered(SortBy(xs, key), key)
    ensures forall v :: WithKey(SortBy(xs, key), key, v) == WithKey(xs, key, v)
    ensures forall x :: x in SortBy(xs, key) <==> x in xs
    decreases |xs|
  {
    if xs != [] {
      var init, last := xs[..|xs| - 1], xs[|xs| - 1];
      SortIsStable(init, key);
      InsertByOrdered(SortBy(init, key), key, last);
      forall v
        ensures WithKey(SortBy(xs, key), key, v) == WithKey(xs, key, v)
      {
        InsertByKeepsOrder(SortBy(init, key), key, last, v);
      }
      forall x
        ensures x in SortBy(xs, key) <==> x in xs
      {
        InsertByMembers(SortBy(init, key), key, last, x);
        assert xs == init + [last];
      }
    }
  }

  // ----- rooms

  function StartOf(s: Span): int
  {
    s.x.start
  }

  /** The start of a room's first span; a room without spans has none. */
  function FirstStart(room: seq<Span>): int
  {
    if room == [] then 0 else room[0].x.start
  }

  function SortRooms(rooms: seq<seq<Span>>): (r: seq<seq<Span>>)
    ensures |r| == |rooms| && forall i :: 0 <= i < |rooms| ==> r[i] == SortBy(rooms[i], StartOf)
  {
    seq(|rooms|, i requires 0 <= i < |rooms| => SortBy(rooms[i], StartOf))
  }

  function Arranged(rooms: seq<seq<Span>>): seq<seq<Span>>
  {
    SortBy(SortRooms(rooms), FirstStart)
  }

  /** Lays out a trace, or fails exactly if some room has no spans to sort it by. */
  method GenerateLayout(rooms: seq<seq<Span>>)
    returns (ok: bool, graph: LineGraph, slots: seq<(int, nat)>, tids: seq<seq<nat>>)
    ensures ok <==> [] !in rooms
    ensures ok ==>
            && graph.Valid() && SlotsShow(slots, graph.lines) && |tids| == |rooms|
            && (forall pid :: LinesShow(graph.lines, Visits(Arranged(rooms), pid), pid))
            && (forall i :: 0 <= i < |rooms| ==> TidsShow(tids[i], Arranged(rooms)[..i], Arranged(rooms)[i]))
            && SameShape(Arranged(rooms), tids)
            && forall r, j :: Within(Arranged(rooms), r, j) && PositiveIn(Arranged(rooms), Arranged(rooms)[r][j].pid) ==>
                 KeepsLine(Arranged(rooms), tids, r, j)
  {
    for i := 0 to |rooms|
      invariant [] !in rooms[..i]
    {
      if rooms[i] == [] {
        graph := new LineGraph();
        return false, graph, [], [];
      }
    }
    assert rooms[..|rooms|] == rooms;
    graph, slots, tids := LayoutTrace(Arranged(rooms));
    ok := true;
  }

  // ----- what the order is good for

  /** Where the spans of one process are in a room. */
  lemma {:induction false} VisitIndices(room: seq<Span>, pid: int) returns (idx: seq<nat>)
    ensures |idx| == |RoomVisits(room, pid)| && Increasing(idx)
    ensures forall k :: 0 <= k < |idx| ==> idx[k] < |room| && room[idx[k]].x == RoomVisits(room, pid)[k].x
    decreases |room|
  {
    idx := [];
    if room != [] {
      var last := |room| - 1;
      idx := VisitIndices(room[..last], pid);
      if room[last].pid == pid {
        idx := idx + [last];
      }
    }
  }

  /** The spans of one process in a sorted room are in order. */
  lemma RoomInOrder(room: seq<Span>, pid: int)
    requires Ordered(room, StartOf)
    ensures InStartOrder(RoomVisits(room, pid))
  {
    var vs := RoomVisits(room, pid);
    var idx := VisitIndices(room, pid);
    forall k, l | 0 <= k < l < |vs|
      ensures vs[k].x.start <= vs[l].x.start
    {
      assert StartOf(room[idx[k]]) <= StartOf(room[idx[l]]);
    }
  }

  /** The process has spans in one of these rooms only. */
  ghost predicate OnlyIn(rooms: seq<seq<Span>>, pid: int, r: nat)
  {
    r < |rooms| && forall i :: 0 <= i < |rooms| && i != r ==> RoomVisits(rooms[i], pid) == []
  }

  lemma {:induction false} VisitsOfOne(rooms: seq<seq<Span>>, pid: int, r: nat)
    requires OnlyIn(rooms, pid, r)
    ensures Visits(rooms, pid) == RoomVisits(rooms[r], pid)
    decreases |rooms|
  {
    var last := |rooms| - 1;
    if r < last {
      VisitsOfOne(rooms[..last], pid, r);
    } else {
      VisitsOfNone(rooms[..last], pid);
    }
  }

  lemma {:induction false} VisitsOfNone(rooms: seq<seq<Span>>, pid: int)
    requires forall i :: 0 <= i < |rooms| ==> RoomVisits(rooms[i], pid) == []
    ensures Visits(rooms, pid) == []
    decreases |rooms|
  {
    if rooms != [] {
      VisitsOfNone(rooms[..|rooms| - 1], pid);
    }
  }

  lemma ArrangedRoomIsSorted(rooms: seq<seq<Span>>, r: nat)
    requires r < |Arranged(rooms)|
    ensures Ordered(Arranged(rooms)[r], StartOf)
  {
    SortIsStable(SortRooms(rooms), FirstStart);
    var room := Arranged(rooms)[r];
    assert room in SortRooms(rooms);
    var i :| 0 <= i < |rooms| && SortRooms(rooms)[i] == room;
    SortIsStable(rooms[i], StartOf);
  }

  /** The rooms come in the order of their first spans, and the spans of a room in the order of their starts. */
  lemma ArrangedInOrder(rooms: seq<seq<Span>>)
    requires [] !in rooms
    ensures |Arranged(rooms)| == |rooms| && [] !in Arranged(rooms)
    ensures var rs := Arranged(rooms); forall q, r :: 0 <= q < r < |rs| ==> rs[q][0].x.start <= rs[r][0].x.start
    ensures var rs := Arranged(rooms);
            forall r, i, j :: 0 <= r < |rs| && 0 <= i < j < |rs[r]| ==> rs[r][i].x.start <= rs[r][j].x.start
  {
    var rs: seq<seq<Span>> := Arranged(rooms);
    SortIsStable(SortRooms(rooms), FirstStart);
    forall r | 0 <= r < |rs|
      ensures rs[r] != [] && FirstStart(rs[r]) == rs[r][0].x.start
    {
      assert rs[r] in SortRooms(rooms);
    }
    forall r, i, j | 0 <= r < |rs| && 0 <= i < j < |rs[r]|
      ensures rs[r][i].x.start <= rs[r][j].x.start
    {
      ArrangedRoomIsSorted(rooms, r);
      assert StartOf(rs[r][i]) <= StartOf(rs[r][j]);
    }
  }

  /** A process that serves one room is laid out on as few lines as possible: as many as spans are ever open at one
      instant. */
  lemma OneRoomIsOptimal(rooms: seq<seq<Span>>, pid: int, r: nat, f: seq<nat>, m: nat)
    requires OnlyIn(Arranged(rooms), pid, r) && Positive(Visits(Arranged(rooms), pid))
    ensures var vs := Visits(Arranged(rooms), pid);
            && InStartOrder(vs)
            && (forall instant :: |OpenAt(vs, instant)| <= |Layout(vs).lines|)
            && (vs != [] ==> exists instant :: |OpenAt(vs, instant)| == |Layout(vs).lines|)
            && (OverlapFree(vs, f, m) ==> |Layout(vs).lines| <= m)
  {
    VisitsOfOne(Arranged(rooms), pid, r);
    ArrangedRoomIsSorted(rooms, r);
    RoomInOrder(Arranged(rooms)[r], pid);
    LineCountIsOptimal(Visits(Arranged(rooms), pid), f, m);
  }
}
