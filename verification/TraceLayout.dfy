/** Laying out all rooms of a trace.  Rooms are taken one after another, each with its own record of which
    line it last used in which process; processes do not influence one another. */
module TraceLayout {
  import opened SpanLayout
  import opened SpanLayoutTheorems
  import opened TraceVisits

  /** The intervals on one line, kept in order. */
  class SpanLayoutContainer {
    var intervals: seq<Interval>

    /** The process and the line that it serves. */
    ghost const home: (int, nat)

    constructor (ghost pid: int, ghost line: nat)
      ensures intervals == [] && home == (pid, line)
    {
      intervals := [];
      home := (pid, line);
    }

    method CheckOverlap(x: Interval) returns (overlaps: bool)
      requires Sorted(intervals)
      ensures overlaps == SpanLayout.CheckOverlap(intervals, x)
    {
      var idx := BisectStart(intervals, x.start);
      if idx > 0 && intervals[idx - 1].end > x.start {
        return true;
      }
      if idx < |intervals| && intervals[idx].start < x.end {
        return true;
      }
      overlaps := false;
    }

    method InsertSpan(x: Interval)
      requires Sorted(intervals)
      modifies this
      ensures intervals == Insert(old(intervals), x) && Sorted(intervals)
    {
      InsertKeepsSorted(intervals, x);
      intervals := Insert(intervals, x);
    }
  }

  type Graph = map<int, seq<seq<Interval>>>
  type LineOf = map<int, nat>

  ghost predicate LinesShow(graph: Graph, vs: seq<Visit>, pid: int)
    requires Starts(vs)
  {
    if vs == [] then pid !in graph else pid in graph && graph[pid] == Layout(vs).lines
  }

  ghost predicate LineShows(status: LineOf, vs: seq<Visit>, inRoom: bool, pid: int)
    requires Starts(vs)
  {
    if inRoom then pid in status && status[pid] == Layout(vs).current + 1 else pid !in status
  }

  ghost predicate GraphShows(graph: Graph, done: seq<seq<Span>>, part: seq<Span>)
  {
    forall pid :: LinesShow(graph, Sofar(done, part, pid), pid)
  }

  ghost predicate StatusShows(status: LineOf, done: seq<seq<Span>>, part: seq<Span>)
  {
    forall pid :: LineShows(status, Sofar(done, part, pid), RoomVisits(part, pid) != [], pid)
  }

  ghost predicate NumberedFromOne(ns: seq<nat>, n: nat)
  {
    |ns| == n && forall i :: 0 <= i < n ==> ns[i] == i + 1
  }

  /** The slot records of a process are numbered from one without gaps, one for each of its lines. */
  ghost predicate SlotsShow(slots: seq<(int, nat)>, graph: Graph)
  {
    forall pid :: NumberedFromOne(SlotsOf(slots, pid), |LinesIn(graph, pid)|)
  }

  function SlotsOf(slots: seq<(int, nat)>, pid: int): (ns: seq<nat>)
    decreases |slots|
  {
    if slots == [] then []
    else SlotsOf(slots[..|slots| - 1], pid) + if slots[|slots| - 1].0 == pid then [slots[|slots| - 1].1] else []
  }

  lemma FirstFitIs(lines: seq<seq<Interval>>, x: Interval, k: nat)
    requires k <= |lines| && forall i :: 0 <= i < k ==> SpanLayout.CheckOverlap(lines[i], x)
    requires k < |lines| ==> !SpanLayout.CheckOverlap(lines[k], x)
    ensures FirstFit(lines, x) == k
  {
    var fit := FirstFit(lines, x);
    assert fit < |lines| ==> !SpanLayout.CheckOverlap(lines[fit], x);
    assert k < |lines| ==> !SpanLayout.CheckOverlap(lines[k], x);
  }

  // ----- the containers

  /** The containers of each process, in the order of their lines, and what they hold. */
  class LineGraph {
    var containers: map<int, seq<SpanLayoutContainer>>
    ghost var lines: Graph
    ghost var repr: set<SpanLayoutContainer>

    ghost predicate Valid()
      reads this, repr
    {
      && containers.Keys == lines.Keys
      && (forall pid :: pid in containers ==> |containers[pid]| == |lines[pid]|)
      && (forall pid, k :: pid in containers && 0 <= k < |containers[pid]| ==>
            containers[pid][k] in repr && Serves(containers[pid][k], pid, k))
    }

    ghost predicate Serves(c: SpanLayoutContainer, pid: int, k: nat)
      reads this, c
    {
      && c.home == (pid, k) && Sorted(c.intervals)
      && pid in lines && k < |lines[pid]| && c.intervals == lines[pid][k]
    }

    constructor ()
      ensures Valid() && lines == map[] && repr == {}
    {
      containers, lines, repr := map[], map[], {};
    }

    method FirstFreeLine(pid: int, x: Interval) returns (k: nat)
      requires Valid() && pid in containers
      ensures k == FirstFit(lines[pid], x)
    {
      var cs := containers[pid];
      k := 0;
      while k < |cs|
        invariant 0 <= k <= |cs|
        invariant forall i :: 0 <= i < k ==> SpanLayout.CheckOverlap(lines[pid][i], x)
      {
        assert Serves(cs[k], pid, k);
        var overlaps := cs[k].CheckOverlap(x);
        if !overlaps {
          break;
        }
        k := k + 1;
      }
      FirstFitIs(lines[pid], x, k);
    }

    /** The line of a span: the one its room last used in the process if that is free, else the first free one,
        else one past the last. */
    method FindLine(status: LineOf, s: Span) returns (k: nat)
      requires Valid() && (s.pid in status ==> s.pid in lines && 1 <= status[s.pid] <= |lines[s.pid]|)
      ensures k == Chosen(lines, status, s)
      ensures Clean(LinesIn(lines, s.pid)) && s.x.start < s.x.end ==>
                StaysOrFirst(LinesIn(lines, s.pid), s.pid !in status,
                             if s.pid in status then status[s.pid] - 1 else 0, s.x, k)
    {
      if Clean(LinesIn(lines, s.pid)) && s.x.start < s.x.end {
        FindLineMeans(TrackOf(lines, status, s.pid), Visit(s.pid !in status, s.x));
      }
      if s.pid in status {
        k := status[s.pid] - 1;
        if s.x.start == s.x.end {
          return;
        }
        assert Serves(containers[s.pid][k], s.pid, k);
        var overlaps := containers[s.pid][k].CheckOverlap(s.x);
        if !overlaps {
          return;
        }
      }
      if s.pid !in containers {
        return 0;
      }
      k := FirstFreeLine(s.pid, s.x);
    }

    /** Inserts a span into the container of its line, which is made if there is none yet. */
    method InsertAt(pid: int, k: nat, x: Interval)
      requires Valid() && k <= |LinesIn(lines, pid)|
      modifies this, repr
      ensures Valid() && fresh(repr - old(repr))
      ensures lines == old(lines)[pid := WithSpan(LinesIn(old(lines), pid), k, x)]
    {
      if k == (if pid in containers then |containers[pid]| else 0) {
        AddLine(pid);
      }
      InsertOld(pid, k, x);
      assert k < |LinesIn(old(lines), pid)| ||
             (LinesIn(old(lines), pid) + [[]])[k := Insert([], x)] == LinesIn(old(lines), pid) + [Insert([], x)];
    }

    method AddLine(pid: int)
      requires Valid()
      modifies this
      ensures Valid() && fresh(repr - old(repr)) && lines == old(lines)[pid := LinesIn(old(lines), pid) + [[]]]
    {
      var cs := if pid in containers then containers[pid] else [];
      assert forall p, i :: p in containers && 0 <= i < |containers[p]| ==> Serves(containers[p][i], p, i);
      var c := new SpanLayoutContainer(pid, |cs|);
      containers := containers[pid := cs + [c]];
      lines := lines[pid := LinesIn(lines, pid) + [[]]];
      repr := repr + {c};
    }

    method InsertOld(pid: int, k: nat, x: Interval)
      requires Valid() && pid in lines && k < |lines[pid]|
      modifies this, repr
      ensures Valid() && repr == old(repr)
      ensures lines == old(lines)[pid := old(lines)[pid][k := Insert(old(lines)[pid][k], x)]]
    {
      assert forall p, i :: p in containers && 0 <= i < |containers[p]| ==> Serves(containers[p][i], p, i);
      assert Serves(containers[pid][k], pid, k);
      containers[pid][k].InsertSpan(x);
      lines := lines[pid := lines[pid][k := Insert(lines[pid][k], x)]];
    }
  }

  /** The lines of a process with one more span on one of them, or on a new one. */
  function WithSpan(lines: seq<seq<Interval>>, k: nat, x: Interval): seq<seq<Interval>>
    requires k <= |lines|
  {
    if k == |lines| then lines + [Insert([], x)] else lines[k := Insert(lines[k], x)]
  }

  ghost function LinesIn(graph: Graph, pid: int): seq<seq<Interval>>
  {
    if pid in graph then graph[pid] else []
  }

  ghost function TrackOf(graph: Graph, status: LineOf, pid: int): Track
    requires pid in status ==> 1 <= status[pid]
  {
    Track(LinesIn(graph, pid), if pid in status then status[pid] - 1 else 0, [])
  }

  ghost function Chosen(graph: Graph, status: LineOf, s: Span): nat
    requires s.pid in status ==> s.pid in graph && 1 <= status[s.pid] <= |graph[s.pid]|
  {
    SpanLayout.FindLine(TrackOf(graph, status, s.pid), Visit(s.pid !in status, s.x))
  }

  /** Choosing a line from the graph and the room's record is choosing it in the process's own history. */
  lemma PlacedIn(done: seq<seq<Span>>, part: seq<Span>, s: Span, graph: Graph, status: LineOf)
    requires GraphShows(graph, done, part) && StatusShows(status, done, part)
    ensures s.pid in status ==> s.pid in graph && 1 <= status[s.pid] <= |graph[s.pid]|
    ensures var lines, k := LinesIn(graph, s.pid), Chosen(graph, status, s);
            var after := Layout(Sofar(done, part + [s], s.pid));
            && after.current == k <= |lines|
            && after.lines == (if k == |lines| then lines + [Insert([], s.x)] else lines[k := Insert(lines[k], s.x)])
  {
    hide Insert;
    hide SpanLayout.CheckOverlap;
    var vs, v := Sofar(done, part, s.pid), Visit(s.pid !in status, s.x);
    assert LinesShow(graph, vs, s.pid);
    assert LineShows(status, vs, RoomVisits(part, s.pid) != [], s.pid);
    SofarNext(done, part, s, s.pid);
    LayoutNext(vs, v);
    PlaceStep(Layout(vs), v, TrackOf(graph, status, s.pid));
  }

  /** Where a span goes depends on the lines and, inside a room, on the line the room is on. */
  lemma PlaceStep(t: Track, v: Visit, u: Track)
    requires !v.opens ==> t.current < |t.lines|
    requires u.lines == t.lines && (!v.opens ==> u.current == t.current)
    ensures SpanLayout.FindLine(u, v) == SpanLayout.FindLine(t, v)
    ensures var lines, k, after := t.lines, SpanLayout.FindLine(t, v), Place(t, v);
            && after.current == k
            && after.lines == if k == |lines| then lines + [Insert([], v.x)] else lines[k := Insert(lines[k], v.x)]
  {
    var lines, k := t.lines, SpanLayout.FindLine(t, v);
    if k == |lines| {
      assert (lines + [[]])[k := Insert([], v.x)] == lines + [Insert([], v.x)];
    }
  }

  lemma OthersKeep(done: seq<seq<Span>>, part: seq<Span>, s: Span, pid: int)
    requires pid != s.pid
    ensures Sofar(done, part + [s], pid) == Sofar(done, part, pid)
    ensures RoomVisits(part + [s], pid) == RoomVisits(part, pid)
  {
    SofarNext(done, part, s, pid);
    assert (part + [s])[..|part|] == part;
  }

  /** One span more, in its line's container, in the room's record and in the slot records. */
  method PlaceSpan(graph: LineGraph, status: LineOf, slots: seq<(int, nat)>, s: Span,
                   ghost done: seq<seq<Span>>, ghost part: seq<Span>)
    returns (line: nat, status': LineOf, slots': seq<(int, nat)>)
    requires graph.Valid() && SlotsShow(slots, graph.lines)
    requires GraphShows(graph.lines, done, part) && StatusShows(status, done, part)
    modifies graph, graph.repr
    ensures graph.Valid() && fresh(graph.repr - old(graph.repr)) && SlotsShow(slots', graph.lines)
    ensures GraphShows(graph.lines, done, part + [s]) && StatusShows(status', done, part + [s])
    ensures line == Layout(Sofar(done, part + [s], s.pid)).current + 1
  {
    hide GraphShows;
    hide StatusShows;
    hide SlotsShow;
    hide Chosen;
    hide WithSpan;
    hide StaysOrFirst;
    hide Clean;
    ghost var before := graph.lines;
    PlacedIn(done, part, s, before, status);
    var k := graph.FindLine(status, s);
    line := k + 1;
    slots' := slots;
    if k == (if s.pid in graph.containers then |graph.containers[s.pid]| else 0) {
      slots' := slots + [(s.pid, line)];
    }
    graph.InsertAt(s.pid, k, s.x);
    status' := status[s.pid := line];
    Placed(done, part, s, before, graph.lines, status, slots, slots', line);
  }

  /** What the records show after a span has been placed. */
  lemma Placed(done: seq<seq<Span>>, part: seq<Span>, s: Span, before: Graph, after: Graph, status: LineOf,
               slots: seq<(int, nat)>, slots': seq<(int, nat)>, line: nat)
    requires GraphShows(before, done, part) && StatusShows(status, done, part) && SlotsShow(slots, before)
    requires s.pid in status ==> s.pid in before && 1 <= status[s.pid] <= |before[s.pid]|
    requires line == Chosen(before, status, s) + 1 && line - 1 <= |LinesIn(before, s.pid)|
    requires after == before[s.pid := WithSpan(LinesIn(before, s.pid), line - 1, s.x)]
    requires slots' == if line == |LinesIn(before, s.pid)| + 1 then slots + [(s.pid, line)] else slots
    ensures GraphShows(after, done, part + [s]) && StatusShows(status[s.pid := line], done, part + [s])
    ensures SlotsShow(slots', after) && line == Layout(Sofar(done, part + [s], s.pid)).current + 1
  {
    hide GraphShows;
    hide StatusShows;
    hide Insert;
    PlacedIn(done, part, s, before, status);
    ShownNext(done, part, s, before, status, LinesIn(after, s.pid), line);
    SlotsNext(slots, slots', before, after, s.pid, line);
  }

  lemma ShownNext(done: seq<seq<Span>>, part: seq<Span>, s: Span, graph: Graph, status: LineOf,
                  lines: seq<seq<Interval>>, line: nat)
    requires GraphShows(graph, done, part) && StatusShows(status, done, part)
    requires lines == Layout(Sofar(done, part + [s], s.pid)).lines
    requires line == Layout(Sofar(done, part + [s], s.pid)).current + 1
    ensures GraphShows(graph[s.pid := lines], done, part + [s]) && StatusShows(status[s.pid := line], done, part + [s])
  {
    forall pid
      ensures LinesShow(graph[s.pid := lines], Sofar(done, part + [s], pid), pid)
      ensures LineShows(status[s.pid := line], Sofar(done, part + [s], pid), RoomVisits(part + [s], pid) != [], pid)
    {
      assert LinesShow(graph, Sofar(done, part, pid), pid);
      assert LineShows(status, Sofar(done, part, pid), RoomVisits(part, pid) != [], pid);
      if pid != s.pid {
        OthersKeep(done, part, s, pid);
      } else {
        SofarNext(done, part, s, pid);
        assert (part + [s])[..|part|] == part;
      }
    }
  }

  lemma SlotsNext(slots: seq<(int, nat)>, slots': seq<(int, nat)>, graph: Graph, graph': Graph, pid: int, line: nat)
    requires SlotsShow(slots, graph) && graph' == graph[pid := LinesIn(graph', pid)]
    requires var n := |LinesIn(graph, pid)|;
             if line == n + 1 then slots' == slots + [(pid, line)] && |LinesIn(graph', pid)| == n + 1
             else slots' == slots && |LinesIn(graph', pid)| == n
    ensures SlotsShow(slots', graph')
  {
    forall p
      ensures NumberedFromOne(SlotsOf(slots', p), |LinesIn(graph', p)|)
    {
      assert NumberedFromOne(SlotsOf(slots, p), |LinesIn(graph, p)|);
      if slots' != slots {
        assert slots'[..|slots|] == slots;
      }
    }
  }

  /** Places all spans, room by room; `tids` holds the line of each span. */
  method LayoutTrace(rooms: seq<seq<Span>>) returns (graph: LineGraph, slots: seq<(int, nat)>, tids: seq<seq<nat>>)
    ensures graph.Valid() && SlotsShow(slots, graph.lines)
    ensures forall pid :: LinesShow(graph.lines, Visits(rooms, pid), pid)
    ensures |tids| == |rooms| && forall i :: 0 <= i < |rooms| ==> TidsShow(tids[i], rooms[..i], rooms[i])
    ensures SameShape(rooms, tids)
    ensures forall r, j :: Within(rooms, r, j) && PositiveIn(rooms, rooms[r][j].pid) ==> KeepsLine(rooms, tids, r, j)
  {
    hide KeepsLine;
    hide PositiveIn;
    hide SlotsShow;
    hide GraphShows;
    hide TidsShow;
    graph := new LineGraph();
    NothingShown();
    slots, tids := [], [];
    for i := 0 to |rooms|
      invariant fresh(graph) && fresh(graph.repr) && graph.Valid()
      invariant GraphShows(graph.lines, rooms[..i], []) && SlotsShow(slots, graph.lines)
      invariant |tids| == i && forall k :: 0 <= k < i ==> TidsShow(tids[k], rooms[..k], rooms[k])
    {
      var ls;
      slots, ls := LayoutRoom(graph, slots, rooms[i], rooms[..i]);
      tids := tids + [ls];
      RoomDone(graph.lines, rooms, i);
    }
    AllRoomsDone(graph.lines, rooms);
    AllKeepLines(rooms, tids);
  }

  lemma NothingShown()
    ensures GraphShows(map[], [], []) && SlotsShow([], map[])
  {
  }

  lemma AllRoomsDone(graph: Graph, rooms: seq<seq<Span>>)
    requires GraphShows(graph, rooms[..|rooms|], [])
    ensures forall pid :: LinesShow(graph, Visits(rooms, pid), pid)
  {
    forall pid
      ensures LinesShow(graph, Visits(rooms, pid), pid)
    {
      assert LinesShow(graph, Sofar(rooms[..|rooms|], [], pid), pid);
      assert rooms[..|rooms|] == rooms && Sofar(rooms, [], pid) == Visits(rooms, pid);
    }
  }

  lemma RoomDone(graph: Graph, rooms: seq<seq<Span>>, i: nat)
    requires i < |rooms| && GraphShows(graph, rooms[..i], rooms[i])
    ensures GraphShows(graph, rooms[..i + 1], [])
  {
    var done := rooms[..i + 1];
    forall pid
      ensures LinesShow(graph, Sofar(done, [], pid), pid)
    {
      assert LinesShow(graph, Sofar(rooms[..i], rooms[i], pid), pid);
      assert rooms[..i + 1][..i] == rooms[..i];
      assert Sofar(rooms[..i + 1], [], pid) == Sofar(rooms[..i], rooms[i], pid);
    }
  }

  method LayoutRoom(graph: LineGraph, slots0: seq<(int, nat)>, room: seq<Span>, ghost done: seq<seq<Span>>)
    returns (slots: seq<(int, nat)>, ls: seq<nat>)
    requires graph.Valid() && GraphShows(graph.lines, done, []) && SlotsShow(slots0, graph.lines)
    modifies graph, graph.repr
    ensures graph.Valid() && fresh(graph.repr - old(graph.repr))
    ensures GraphShows(graph.lines, done, room) && SlotsShow(slots, graph.lines) && TidsShow(ls, done, room)
  {
    slots, ls := slots0, [];
    var status: LineOf := map[];
    for j := 0 to |room|
      invariant graph.Valid() && fresh(graph.repr - old(graph.repr))
      invariant GraphShows(graph.lines, done, room[..j]) && StatusShows(status, done, room[..j])
      invariant SlotsShow(slots, graph.lines) && |ls| == j
      invariant forall k :: 0 <= k < j ==> ls[k] == LineIn(done, room, k)
    {
      var line;
      assert room[..j + 1] == room[..j] + [room[j]];
      line, status, slots := PlaceSpan(graph, status, slots, room[j], done, room[..j]);
      ls := ls + [line];
    }
    assert room[..|room|] == room;
  }
}
