/** The spans of each process in the order in which they are placed, and what their line numbers mean in terms of the
    rooms they come from. */
module TraceVisits {
  import opened SpanLayout
  import opened SpanLayoutTheorems

  datatype Span = Span(pid: int, x: Interval)

  /** The spans of a room that belong to a process.  The first of them opens the room there. */
  function RoomVisits(room: seq<Span>, pid: int): (vs: seq<Visit>)
    ensures vs != [] ==> vs[0].opens
    decreases |room|
  {
    if room == [] then []
    else
      var init, s := RoomVisits(room[..|room| - 1], pid), room[|room| - 1];
      if s.pid == pid then init + [Visit(init == [], s.x)] else init
  }

  /** All spans of a process, in the order in which they are placed. */
  function Visits(rooms: seq<seq<Span>>, pid: int): (vs: seq<Visit>)
    ensures Starts(vs)
    decreases |rooms|
  {
    if rooms == [] then [] else Visits(rooms[..|rooms| - 1], pid) + RoomVisits(rooms[|rooms| - 1], pid)
  }

  /** What has been placed of a process after the given rooms and part of the next one. */
  function Sofar(done: seq<seq<Span>>, part: seq<Span>, pid: int): (vs: seq<Visit>)
    ensures Starts(vs)
  {
    Visits(done, pid) + RoomVisits(part, pid)
  }

  lemma SofarNext(done: seq<seq<Span>>, part: seq<Span>, s: Span, pid: int)
    ensures Sofar(done, part + [s], pid)
            == Sofar(done, part, pid) + if s.pid == pid then [Visit(RoomVisits(part, pid) == [], s.x)] else []
  {
    assert (part + [s])[..|part|] == part;
  }

  lemma LayoutNext(vs: seq<Visit>, v: Visit)
    requires Starts(vs) && (vs == [] ==> v.opens)
    ensures Starts(vs + [v]) && Layout(vs + [v]) == Place(Layout(vs), v)
  {
    assert (vs + [v])[..|vs|] == vs;
  }

  ghost function LineIn(done: seq<seq<Span>>, room: seq<Span>, j: nat): nat
    requires j < |room|
  {
    Layout(Sofar(done, room[..j + 1], room[j].pid)).current + 1
  }

  /** The lines given to a room's spans are those of each process's own history. */
  ghost predicate TidsShow(lines: seq<nat>, done: seq<seq<Span>>, room: seq<Span>)
  {
    && |lines| == |room|
    && forall j :: 0 <= j < |room| ==> lines[j] == LineIn(done, room, j)
  }

  // ----- positions

  ghost predicate Within(rooms: seq<seq<Span>>, r: int, j: int)
  {
    0 <= r < |rooms| && 0 <= j < |rooms[r]|
  }

  ghost predicate SameShape(rooms: seq<seq<Span>>, tids: seq<seq<nat>>)
  {
    |tids| == |rooms| && forall i :: 0 <= i < |rooms| ==> |tids[i]| == |rooms[i]|
  }

  /** Room by room, and in a room from the first span to the last. */
  ghost predicate Precedes(q: int, i: int, r: int, j: int)
  {
    q < r || (q == r && i < j)
  }

  ghost predicate PositiveIn(rooms: seq<seq<Span>>, pid: int)
  {
    forall r, j :: Within(rooms, r, j) && rooms[r][j].pid == pid ==> rooms[r][j].x.start < rooms[r][j].x.end
  }

  /** An earlier span of the process is on the line and overlaps this one. */
  ghost predicate Taken(rooms: seq<seq<Span>>, tids: seq<seq<nat>>, r: int, j: int, line: int)
    requires SameShape(rooms, tids) && Within(rooms, r, j)
  {
    exists q, i :: Within(rooms, q, i) && TakenBy(rooms, tids, r, j, line, q, i)
  }

  ghost predicate TakenBy(rooms: seq<seq<Span>>, tids: seq<seq<nat>>, r: int, j: int, line: int, q: int, i: int)
    requires SameShape(rooms, tids) && Within(rooms, r, j) && Within(rooms, q, i)
  {
    && Precedes(q, i, r, j) && rooms[q][i].pid == rooms[r][j].pid
    && tids[q][i] == line && Overlap(rooms[q][i].x, rooms[r][j].x)
  }

  /** The previous span of the same process in a room. */
  ghost predicate Previous(room: seq<Span>, i: int, j: int)
    requires j < |room|
  {
    0 <= i < j && room[i].pid == room[j].pid && forall k :: i < k < j ==> room[k].pid != room[j].pid
  }

  /** A room stays on the line of its previous span in the process exactly if no earlier span there overlaps the new
      one; else, and for the first span, it is the first line where none does. */
  ghost predicate KeepsLine(rooms: seq<seq<Span>>, tids: seq<seq<nat>>, r: int, j: int)
    requires SameShape(rooms, tids) && Within(rooms, r, j)
  {
    && (forall i :: Previous(rooms[r], i, j) ==>
          (tids[r][j] == tids[r][i] <==> !Taken(rooms, tids, r, j, tids[r][i])))
    && ((forall i :: Previous(rooms[r], i, j) ==> Taken(rooms, tids, r, j, tids[r][i])) ==>
          && tids[r][j] >= 1 && !Taken(rooms, tids, r, j, tids[r][j])
          && forall line :: 1 <= line < tids[r][j] ==> Taken(rooms, tids, r, j, line))
  }

  /** What was placed of a process before a span. */
  ghost function History(rooms: seq<seq<Span>>, r: nat, j: nat, pid: int): (vs: seq<Visit>)
    requires r < |rooms| && j <= |rooms[r]|
    ensures Starts(vs)
  {
    Sofar(rooms[..r], rooms[r][..j], pid)
  }

  lemma HistoryNext(rooms: seq<seq<Span>>, r: nat, j: nat, pid: int)
    requires r < |rooms| && j < |rooms[r]|
    ensures var s := rooms[r][j];
            History(rooms, r, j + 1, pid)
            == History(rooms, r, j, pid) + if s.pid == pid then [Visit(RoomVisits(rooms[r][..j], pid) == [], s.x)] else []
  {
    SofarNext(rooms[..r], rooms[r][..j], rooms[r][j], pid);
    assert rooms[r][..j + 1] == rooms[r][..j] + [rooms[r][j]];
  }

  lemma HistoryFirst(rooms: seq<seq<Span>>, r: nat, pid: int)
    requires 0 < r < |rooms|
    ensures History(rooms, r, 0, pid) == History(rooms, r - 1, |rooms[r - 1]|, pid)
  {
    assert rooms[..r][..r - 1] == rooms[..r - 1];
    assert rooms[r - 1][..|rooms[r - 1]|] == rooms[r - 1];
  }

  /** The history only grows. */
  lemma {:induction false} HistoryGrows(rooms: seq<seq<Span>>, q: nat, i: nat, r: nat, j: nat, pid: int)
    requires r < |rooms| && j <= |rooms[r]| && q < |rooms| && i <= |rooms[q]| && (q < r || (q == r && i <= j))
    ensures History(rooms, q, i, pid) <= History(rooms, r, j, pid)
    decreases r, j
  {
    hide History;
    if q < r || i < j {
      if j > 0 {
        HistoryGrows(rooms, q, i, r, j - 1, pid);
        HistoryNext(rooms, r, j - 1, pid);
      } else {
        HistoryGrows(rooms, q, i, r - 1, |rooms[r - 1]|, pid);
        HistoryFirst(rooms, r, pid);
      }
    }
  }

  /** The spans before a span are those that the history holds. */
  lemma {:induction false} FoundBefore(rooms: seq<seq<Span>>, r: nat, j: nat, pid: int, n: nat) returns (q: nat, i: nat)
    requires r < |rooms| && j <= |rooms[r]| && n < |History(rooms, r, j, pid)|
    ensures Within(rooms, q, i) && Precedes(q, i, r, j) && rooms[q][i].pid == pid && |History(rooms, q, i, pid)| == n
    decreases r, j
  {
    hide History;
    q, i := 0, 0;
    if j > 0 {
      HistoryNext(rooms, r, j - 1, pid);
      if n < |History(rooms, r, j - 1, pid)| {
        q, i := FoundBefore(rooms, r, j - 1, pid, n);
      } else {
        q, i := r, j - 1;
      }
    } else if r == 0 {
      NothingBefore(rooms, pid);
    } else {
      HistoryFirst(rooms, r, pid);
      q, i := FoundBefore(rooms, r - 1, |rooms[r - 1]|, pid, n);
    }
  }

  lemma NothingBefore(rooms: seq<seq<Span>>, pid: int)
    requires rooms != []
    ensures History(rooms, 0, 0, pid) == []
  {
  }

  /** The history of a process up to and with a span, of which it is the last. */
  lemma VisitOf(rooms: seq<seq<Span>>, tids: seq<seq<nat>>, r: nat, j: nat, vs: seq<Visit>)
    requires SameShape(rooms, tids) && Within(rooms, r, j) && TidsShow(tids[r], rooms[..r], rooms[r])
    requires Starts(vs) && History(rooms, r, j + 1, rooms[r][j].pid) <= vs
    ensures var n := |History(rooms, r, j, rooms[r][j].pid)|;
            && n < |vs| && vs[n] == Visit(RoomVisits(rooms[r][..j], rooms[r][j].pid) == [], rooms[r][j].x)
            && tids[r][j] == Layout(vs).placed[n] + 1
  {
    hide RoomVisits;
    var pid := rooms[r][j].pid;
    var n, upto := |History(rooms, r, j, pid)|, History(rooms, r, j + 1, pid);
    HistoryNext(rooms, r, j, pid);
    PlacedOnce(vs, n + 1);
    assert vs[..n + 1] == upto && vs[n] == upto[n];
  }

  ghost predicate AllShown(rooms: seq<seq<Span>>, tids: seq<seq<nat>>)
  {
    SameShape(rooms, tids) && forall i :: 0 <= i < |rooms| ==> TidsShow(tids[i], rooms[..i], rooms[i])
  }

  /** An earlier span of the same process comes earlier in its history. */
  lemma EarlierVisit(rooms: seq<seq<Span>>, tids: seq<seq<nat>>, r: nat, j: nat, q: nat, i: nat, vs: seq<Visit>)
    requires AllShown(rooms, tids) && Within(rooms, r, j) && Within(rooms, q, i) && Precedes(q, i, r, j)
    requires rooms[q][i].pid == rooms[r][j].pid && Starts(vs) && History(rooms, r, j, rooms[r][j].pid) <= vs
    ensures var n := |History(rooms, q, i, rooms[r][j].pid)|;
            && n < |History(rooms, r, j, rooms[r][j].pid)| && vs[n].x == rooms[q][i].x
            && tids[q][i] == Layout(vs).placed[n] + 1
  {
    hide History;
    hide Layout;
    var pid := rooms[r][j].pid;
    HistoryGrows(rooms, q, i + 1, r, j, pid);
    HistoryNext(rooms, q, i, pid);
    VisitOf(rooms, tids, q, i, vs);
  }

  /** A line is taken exactly if the history of the process says so. */
  lemma TakenIffBlocked(rooms: seq<seq<Span>>, tids: seq<seq<nat>>, r: nat, j: nat, vs: seq<Visit>, line: int)
    requires AllShown(rooms, tids) && Within(rooms, r, j)
    requires Starts(vs) && History(rooms, r, j, rooms[r][j].pid) <= vs
    ensures var n := |History(rooms, r, j, rooms[r][j].pid)|;
            Taken(rooms, tids, r, j, line) <==> Blocked(vs, Layout(vs).placed, n, line - 1, rooms[r][j].x)
  {
    hide AllShown;
    hide History;
    hide Layout;
    var pid, x, placed := rooms[r][j].pid, rooms[r][j].x, Layout(vs).placed;
    var n := |History(rooms, r, j, pid)|;
    assert SameShape(rooms, tids) by {
      ShapeShown(rooms, tids);
    }
    if q: nat, i: nat :| Within(rooms, q, i) && TakenBy(rooms, tids, r, j, line, q, i) {
      EarlierVisit(rooms, tids, r, j, q, i, vs);
    }
    if m: nat :| m < n && placed[m] == line - 1 && Overlap(vs[m].x, x) {
      var q, i := FoundBefore(rooms, r, j, pid, m);
      EarlierVisit(rooms, tids, r, j, q, i, vs);
      assert TakenBy(rooms, tids, r, j, line, q, i);
    }
  }

  lemma ShapeShown(rooms: seq<seq<Span>>, tids: seq<seq<nat>>)
    requires AllShown(rooms, tids)
    ensures SameShape(rooms, tids)
  {
  }

  // ----- inside a room

  lemma {:induction false} NoneBetween(room: seq<Span>, pid: int, i: nat, j: nat)
    requires i <= j <= |room| && forall k :: i <= k < j ==> room[k].pid != pid
    ensures RoomVisits(room[..j], pid) == RoomVisits(room[..i], pid)
    decreases j
  {
    if i < j {
      NoneBetween(room, pid, i, j - 1);
      assert room[..j][..j - 1] == room[..j - 1];
    }
  }

  /** A room that has been in the process has a last span there. */
  lemma {:induction false} LastVisit(room: seq<Span>, j: nat, n: nat) returns (i: nat)
    requires n <= j < |room| && RoomVisits(room[..n], room[j].pid) != []
    requires forall k :: n <= k < j ==> room[k].pid != room[j].pid
    ensures Previous(room, i, j)
    decreases n
  {
    assert room[..n][..n - 1] == room[..n - 1];
    if room[n - 1].pid == room[j].pid {
      i := n - 1;
    } else {
      i := LastVisit(room, j, n - 1);
    }
  }

  /** After the previous span of the process, the history is as before this one. */
  lemma PreviousVisit(rooms: seq<seq<Span>>, r: nat, i: nat, j: nat)
    requires Within(rooms, r, j) && Previous(rooms[r], i, j)
    ensures var pid := rooms[r][j].pid;
            && History(rooms, r, i + 1, pid) == History(rooms, r, j, pid)
            && |History(rooms, r, i, pid)| + 1 == |History(rooms, r, j, pid)|
            && RoomVisits(rooms[r][..j], pid) != []
  {
    var room, pid := rooms[r], rooms[r][j].pid;
    NoneBetween(room, pid, i + 1, j);
    HistoryNext(rooms, r, i, pid);
    assert room[..i + 1][..i] == room[..i];
  }

  // ----- the line numbers

  lemma {:induction false} HistoryPositive(rooms: seq<seq<Span>>, r: nat, j: nat, pid: int)
    requires r < |rooms| && j <= |rooms[r]| && PositiveIn(rooms, pid)
    ensures Positive(History(rooms, r, j, pid))
    decreases r, j
  {
    hide History;
    if j > 0 {
      HistoryPositive(rooms, r, j - 1, pid);
      HistoryNext(rooms, r, j - 1, pid);
      assert Within(rooms, r, j - 1);
    } else if r > 0 {
      HistoryPositive(rooms, r - 1, |rooms[r - 1]|, pid);
      HistoryFirst(rooms, r, pid);
    } else {
      NothingBefore(rooms, pid);
    }
  }

  /** The line numbers of a trace, read from the rooms alone. */
  lemma TidsKeepLines(rooms: seq<seq<Span>>, tids: seq<seq<nat>>, r: nat, j: nat)
    requires AllShown(rooms, tids) && Within(rooms, r, j) && PositiveIn(rooms, rooms[r][j].pid)
    ensures KeepsLine(rooms, tids, r, j)
  {
    hide History;
    hide Layout;
    hide Blocked;
    hide Taken;
    hide Positive;
    var pid := rooms[r][j].pid;
    var vs, n := History(rooms, r, j + 1, pid), |History(rooms, r, j, pid)|;
    var placed := Layout(vs).placed;
    HistoryNext(rooms, r, j, pid);
    HistoryPositive(rooms, r, j + 1, pid);
    VisitOf(rooms, tids, r, j, vs);
    RoomKeepsItsLine(vs, n);
    forall line
      ensures Taken(rooms, tids, r, j, line) <==> Blocked(vs, placed, n, line - 1, rooms[r][j].x)
    {
      TakenIffBlocked(rooms, tids, r, j, vs, line);
    }
    forall i: nat | Previous(rooms[r], i, j)
      ensures !vs[n].opens && tids[r][i] == placed[n - 1] + 1
    {
      PreviousVisit(rooms, r, i, j);
      EarlierVisit(rooms, tids, r, j, r, i, vs);
    }
    if !vs[n].opens {
      var i := LastVisit(rooms[r], j, j);
    }
  }

  lemma AllKeepLines(rooms: seq<seq<Span>>, tids: seq<seq<nat>>)
    requires |tids| == |rooms| && forall i :: 0 <= i < |rooms| ==> TidsShow(tids[i], rooms[..i], rooms[i])
    ensures SameShape(rooms, tids)
    ensures forall r, j :: Within(rooms, r, j) && PositiveIn(rooms, rooms[r][j].pid) ==> KeepsLine(rooms, tids, r, j)
  {
    hide KeepsLine;
    hide PositiveIn;
    forall r, j | Within(rooms, r, j) && PositiveIn(rooms, rooms[r][j].pid)
      ensures SameShape(rooms, tids) && KeepsLine(rooms, tids, r, j)
    {
      TidsKeepLines(rooms, tids, r, j);
    }
  }
}
