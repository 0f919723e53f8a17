/** Building the forest of spans of a trace and collecting the spans that are shown, three levels below the roots. */
module SpanForest {
  import opened Sequences
  import opened Options

  /** A span's own id and the id of its parent, which is empty for a root. */
  datatype Node = Node(id: string, parent: string)

  /** The span with the given id; the last one, should the id be used twice. */
  function IndexOf(spans: seq<Node>, id: string): (r: Option<nat>)
    ensures r.Some? ==> r.value < |spans| && spans[r.value].id == id
    ensures r.None? <==> forall i :: 0 <= i < |spans| ==> spans[i].id != id
    ensures r.Some? ==> forall i :: r.value < i < |spans| ==> spans[i].id != id
    decreases |spans|
  {
    if spans == [] then None
    else if spans[|spans| - 1].id == id then Some(|spans| - 1)
    else IndexOf(spans[..|spans| - 1], id)
  }

  function ParentOf(spans: seq<Node>, i: nat): Option<nat>
    requires i < |spans|
  {
    if spans[i].parent == "" then None else IndexOf(spans, spans[i].parent)
  }

  /** The roots among the first `n` spans, in order. */
  ghost predicate RootsOf(spans: seq<Node>, n: nat, xs: seq<nat>)
    requires n <= |spans|
  {
    Increasing(xs) && forall i: nat :: i in xs <==> i < n && spans[i].parent == ""
  }

  /** The children of a span among the first `n`, in order. */
  ghost predicate ChildrenOf(spans: seq<Node>, n: nat, p: nat, xs: seq<nat>)
    requires n <= |spans|
  {
    Increasing(xs) && forall i: nat :: i in xs <==> i < n && ParentOf(spans, i) == Some(p)
  }

  ghost predicate Family(spans: seq<Node>, n: nat, child: seq<seq<nat>>)
    requires n <= |spans|
  {
    |child| == |spans| && forall p :: 0 <= p < |child| ==> ChildrenOf(spans, n, p, child[p])
  }

  method BuildIdMap(spans: seq<Node>) returns (m: map<string, nat>)
    ensures forall id :: if id in m then IndexOf(spans, id) == Some(m[id]) else IndexOf(spans, id) == None
  {
    m := map[];
    for i := 0 to |spans|
      invariant forall id :: if id in m then IndexOf(spans[..i], id) == Some(m[id]) else IndexOf(spans[..i], id) == None
    {
      assert spans[..i + 1][..i] == spans[..i];
      m := m[spans[i].id := i];
    }
    assert spans[..|spans|] == spans;
  }

  lemma Appended(xs: seq<nat>, n: nat)
    requires Increasing(xs) && forall i :: i in xs ==> i < n
    ensures Increasing(xs + [n]) && forall i :: i in xs + [n] <==> i in xs || i == n
  {
    assert forall k :: 0 <= k < |xs| ==> xs[k] in xs;
  }

  /** Every span goes to the roots, to the child list of its parent, or, if its parent is unknown, nowhere. */
  method BuildTree(spans: seq<Node>) returns (roots: seq<nat>, child: seq<seq<nat>>)
    ensures RootsOf(spans, |spans|, roots) && Family(spans, |spans|, child)
  {
    var ids := BuildIdMap(spans);
    roots, child := [], seq(|spans|, _ => []);
    for n := 0 to |spans|
      invariant RootsOf(spans, n, roots) && Family(spans, n, child)
    {
      ghost var before := child;
      var parent := spans[n].parent;
      if parent == "" {
        Appended(roots, n);
        roots := roots + [n];
      } else if parent in ids {
        var p := ids[parent];
        assert ChildrenOf(spans, n, p, child[p]);
        Appended(child[p], n);
        child := child[p := child[p] + [n]];
      }
      FamilyNext(spans, n, before, child);
    }
  }

  lemma FamilyNext(spans: seq<Node>, n: nat, child: seq<seq<nat>>, child': seq<seq<nat>>)
    requires n < |spans| && Family(spans, n, child) && |child'| == |child|
    requires forall p :: 0 <= p < |child| ==>
               child'[p] == if ParentOf(spans, n) == Some(p) then child[p] + [n] else child[p]
    ensures Family(spans, n + 1, child')
  {
    var n' := n + 1;
    forall p | 0 <= p < |child'|
      ensures ChildrenOf(spans, n', p, child'[p])
    {
      assert ChildrenOf(spans, n, p, child[p]);
      Appended(child[p], n);
    }
  }

  // ----- collecting the spans

  function Kids(child: seq<seq<nat>>, xs: seq<nat>): seq<nat>
    decreases |xs|
  {
    if xs == [] then []
    else
      var last := xs[|xs| - 1];
      Kids(child, xs[..|xs| - 1]) + if last < |child| then child[last] else []
  }

  lemma {:induction false} KidsConcat(child: seq<seq<nat>>, xs: seq<nat>, ys: seq<nat>)
    ensures Kids(child, xs + ys) == Kids(child, xs) + Kids(child, ys)
    decreases |ys|
  {
    if ys == [] {
      assert xs + ys == xs;
    } else {
      KidsConcat(child, xs, ys[..|ys| - 1]);
      assert (xs + ys)[..|xs + ys| - 1] == xs + ys[..|ys| - 1];
    }
  }

  ghost predicate NoDup(xs: seq<nat>)
  {
    forall i, j :: 0 <= i < j < |xs| ==> xs[i] != xs[j]
  }

  /** The children of distinct spans, each once, are the spans whose parent is among them. */
  lemma {:induction false} KidsOnce(spans: seq<Node>, child: seq<seq<nat>>, xs: seq<nat>)
    requires Family(spans, |spans|, child) && NoDup(xs) && forall x :: x in xs ==> x < |spans|
    ensures NoDup(Kids(child, xs))
    ensures forall s: nat :: s in Kids(child, xs) <==> s < |spans| && ParentOf(spans, s).Some? && ParentOf(spans, s).value in xs
    decreases |xs|
  {
    if xs != [] {
      var init, last := xs[..|xs| - 1], xs[|xs| - 1];
      assert last in xs;
      assert forall x :: x in init ==> x in xs;
      KidsOnce(spans, child, init);
      var kids, mine := Kids(child, init), child[last];
      assert ChildrenOf(spans, |spans|, last, mine);
      assert forall i :: 0 <= i < |mine| ==> mine[i] in mine;
      assert forall i :: 0 <= i < |kids| ==> kids[i] in kids;
      assert last !in init;
      assert xs == init + [last];
    }
  }

  /** One span comes before another in a walk over the tree: the first place where their ways up, `d` steps long, differ
      decides. */
  ghost predicate Earlier(spans: seq<Node>, d: nat, s: nat, t: nat)
  {
    if d == 0 then s < t
    else
      && s < |spans| && t < |spans| && ParentOf(spans, s).Some? && ParentOf(spans, t).Some?
      && var p, q := ParentOf(spans, s).value, ParentOf(spans, t).value;
         if p == q then s < t else Earlier(spans, d - 1, p, q)
  }

  ghost predicate InTreeOrder(spans: seq<Node>, d: nat, xs: seq<nat>)
  {
    forall i, j :: 0 <= i < j < |xs| ==> Earlier(spans, d, xs[i], xs[j])
  }

  /** The children of spans in tree order are in tree order. */
  lemma {:induction false} KidsInTreeOrder(spans: seq<Node>, child: seq<seq<nat>>, d: nat, xs: seq<nat>)
    requires Family(spans, |spans|, child) && NoDup(xs) && (forall x :: x in xs ==> x < |spans|)
    requires InTreeOrder(spans, d, xs)
    ensures InTreeOrder(spans, d + 1, Kids(child, xs))
    decreases |xs|
  {
    if xs != [] {
      var init, last := xs[..|xs| - 1], xs[|xs| - 1];
      assert last in xs && forall x :: x in init ==> x in xs;
      KidsInTreeOrder(spans, child, d, init);
      KidsOnce(spans, child, init);
      var kids, mine := Kids(child, init), child[last];
      assert ChildrenOf(spans, |spans|, last, mine);
      assert forall i :: 0 <= i < |mine| ==> mine[i] in mine;
      forall i, j | 0 <= i < |kids| && 0 <= j < |mine|
        ensures Earlier(spans, d + 1, kids[i], mine[j])
      {
        assert kids[i] in kids;
        var p := ParentOf(spans, kids[i]).value;
        var k :| 0 <= k < |init| && init[k] == p;
        assert Earlier(spans, d, xs[k], xs[|xs| - 1]);
      }
    }
  }

  /** The spans of a room are collected request by request, in a request thread by thread, and in a thread in the order
      of the trace. */
  lemma RoomInTreeOrder(spans: seq<Node>, child: seq<seq<nat>>, root: nat)
    requires Family(spans, |spans|, child) && root < |spans|
    ensures InTreeOrder(spans, 2, Kids(child, Kids(child, child[root])))
  {
    var requests := child[root];
    assert ChildrenOf(spans, |spans|, root, requests);
    assert forall i :: 0 <= i < |requests| ==> requests[i] in requests;
    KidsInTreeOrder(spans, child, 0, requests);
    KidsOnce(spans, child, requests);
    KidsInTreeOrder(spans, child, 1, Kids(child, requests));
  }

  ghost predicate InRange(child: seq<seq<nat>>)
  {
    forall p, i :: 0 <= p < |child| && 0 <= i < |child[p]| ==> child[p][i] < |child|
  }

  lemma KidsNext(child: seq<seq<nat>>, xs: seq<nat>, i: nat)
    requires i < |xs| && xs[i] < |child|
    ensures Kids(child, xs[..i + 1]) == Kids(child, xs[..i]) + child[xs[i]]
  {
    assert xs[..i + 1][..i] == xs[..i];
  }

  method ThreadSpans(child: seq<seq<nat>>, threads: seq<nat>) returns (out: seq<nat>)
    requires forall i :: 0 <= i < |threads| ==> threads[i] < |child|
    ensures out == Kids(child, threads)
  {
    out := [];
    for j := 0 to |threads|
      invariant out == Kids(child, threads[..j])
    {
      KidsNext(child, threads, j);
      out := out + child[threads[j]];
    }
    assert threads[..|threads|] == threads;
  }

  /** The spans of a room: the children of the children of the root's children. */
  method RoomSpans(child: seq<seq<nat>>, root: nat) returns (out: seq<nat>)
    requires root < |child| && InRange(child)
    ensures out == Kids(child, Kids(child, child[root]))
  {
    out := [];
    var requests := child[root];
    for i := 0 to |requests|
      invariant out == Kids(child, Kids(child, requests[..i]))
    {
      var threads := child[requests[i]];
      var spans := ThreadSpans(child, threads);
      KidsNext(child, requests, i);
      KidsConcat(child, Kids(child, requests[..i]), threads);
      out := out + spans;
    }
    assert requests[..|requests|] == requests;
  }

  function Rooms(child: seq<seq<nat>>, roots: seq<nat>): (rs: seq<seq<nat>>)
    requires forall i :: 0 <= i < |roots| ==> roots[i] < |child|
    ensures |rs| == |roots| && forall i :: 0 <= i < |roots| ==> rs[i] == Kids(child, Kids(child, child[roots[i]]))
  {
    seq(|roots|, i requires 0 <= i < |roots| => Kids(child, Kids(child, child[roots[i]])))
  }

  function Flat(rs: seq<seq<nat>>): seq<nat>
    decreases |rs|
  {
    if rs == [] then [] else Flat(rs[..|rs| - 1]) + rs[|rs| - 1]
  }

  function Up(spans: seq<Node>, i: Option<nat>): (r: Option<nat>)
    ensures r.Some? ==> r.value < |spans|
  {
    if i.Some? && i.value < |spans| then ParentOf(spans, i.value) else None
  }

  function GreatGrandparent(spans: seq<Node>, s: nat): (r: Option<nat>)
    ensures r.Some? ==> r.value < |spans|
  {
    Up(spans, Up(spans, Up(spans, Some(s))))
  }

  /** Three generations up there is a root. */
  ghost predicate Shown(spans: seq<Node>, s: nat)
  {
    var r := GreatGrandparent(spans, s);
    r.Some? && spans[r.value].parent == ""
  }

  lemma {:induction false} FlatRooms(child: seq<seq<nat>>, roots: seq<nat>)
    requires forall i :: 0 <= i < |roots| ==> roots[i] < |child|
    ensures Flat(Rooms(child, roots)) == Kids(child, Kids(child, Kids(child, roots)))
    decreases |roots|
  {
    if roots != [] {
      var init, last := roots[..|roots| - 1], roots[|roots| - 1];
      FlatRooms(child, init);
      assert Rooms(child, roots)[..|roots| - 1] == Rooms(child, init);
      KidsConcat(child, Kids(child, init), child[last]);
      KidsConcat(child, Kids(child, Kids(child, init)), Kids(child, child[last]));
    }
  }

  ghost predicate In(o: Option<nat>, xs: seq<nat>)
  {
    o.Some? && o.value in xs
  }

  lemma OneDown(spans: seq<Node>, child: seq<seq<nat>>, xs: seq<nat>)
    requires Family(spans, |spans|, child) && NoDup(xs) && forall x :: x in xs ==> x < |spans|
    ensures var kids := Kids(child, xs);
            && NoDup(kids) && (forall x :: x in kids ==> x < |spans|)
            && forall o :: In(o, kids) <==> In(Up(spans, o), xs)
  {
    KidsOnce(spans, child, xs);
  }

  /** Three levels below some spans. */
  lemma ThreeDown(spans: seq<Node>, child: seq<seq<nat>>, xs: seq<nat>)
    requires Family(spans, |spans|, child) && NoDup(xs) && forall x :: x in xs ==> x < |spans|
    ensures var out := Kids(child, Kids(child, Kids(child, xs)));
            NoDup(out) && forall s: nat :: s in out <==> In(GreatGrandparent(spans, s), xs)
  {
    OneDown(spans, child, xs);
    OneDown(spans, child, Kids(child, xs));
    OneDown(spans, child, Kids(child, Kids(child, xs)));
    var out := Kids(child, Kids(child, Kids(child, xs)));
    forall s: nat
      ensures s in out <==> In(GreatGrandparent(spans, s), xs)
    {
      assert In(Some(s), out) <==> In(Up(spans, Some(s)), Kids(child, Kids(child, xs)));
    }
  }

  lemma ShownOnce(spans: seq<Node>, roots: seq<nat>, child: seq<seq<nat>>)
    requires RootsOf(spans, |spans|, roots) && Family(spans, |spans|, child)
    ensures forall i :: 0 <= i < |roots| ==> roots[i] < |child|
    ensures var out := Flat(Rooms(child, roots)); NoDup(out) && forall s: nat :: s in out <==> Shown(spans, s)
  {
    assert forall i :: 0 <= i < |roots| ==> roots[i] in roots;
    FlatRooms(child, roots);
    ThreeDown(spans, child, roots);
  }

  method CollectRooms(child: seq<seq<nat>>, roots: seq<nat>) returns (rooms: seq<seq<nat>>)
    requires (forall i :: 0 <= i < |roots| ==> roots[i] < |child|) && InRange(child)
    ensures rooms == Rooms(child, roots)
  {
    rooms := [];
    ghost var all := Rooms(child, roots);
    for i := 0 to |roots|
      invariant rooms == all[..i]
    {
      var room := RoomSpans(child, roots[i]);
      assert all[..i + 1] == all[..i] + [all[i]];
      rooms := rooms + [room];
    }
    assert all[..|roots|] == all;
  }

  /** Rooms are ordered by their first span, so that a room without spans is an error. */
  method GatherRooms(rooms: seq<seq<nat>>) returns (out: Option<seq<nat>>)
    ensures out.None? <==> exists i :: 0 <= i < |rooms| && |rooms[i]| == 0
    ensures out.Some? ==> out.value == Flat(rooms)
  {
    var spans := [];
    for i := 0 to |rooms|
      invariant spans == Flat(rooms[..i]) && forall k :: 0 <= k < i ==> |rooms[k]| > 0
    {
      if |rooms[i]| == 0 {
        return None;
      }
      FlatNext(rooms, i);
      spans := spans + rooms[i];
    }
    assert rooms[..|rooms|] == rooms;
    out := Some(spans);
  }

  lemma FlatNext(rs: seq<seq<nat>>, i: nat)
    requires i < |rs|
    ensures Flat(rs[..i + 1]) == Flat(rs[..i]) + rs[i]
  {
    assert rs[..i + 1][..i] == rs[..i];
  }

  lemma EmptyRoomIff(spans: seq<Node>, roots: seq<nat>, child: seq<seq<nat>>)
    requires RootsOf(spans, |spans|, roots) && Family(spans, |spans|, child)
    requires forall i :: 0 <= i < |roots| ==> roots[i] < |child|
    ensures (exists i :: 0 <= i < |roots| && |Rooms(child, roots)[i]| == 0)
            <==> exists root :: 0 <= root < |spans| && spans[root].parent == "" && NothingBelow(spans, root)
  {
    forall i | 0 <= i < |roots|
      ensures roots[i] in roots && (|Rooms(child, roots)[i]| == 0 <==> NothingBelow(spans, roots[i]))
    {
      BelowIff(spans, child, roots[i]);
    }
    if root :| 0 <= root < |spans| && spans[root].parent == "" && NothingBelow(spans, root) {
      assert root in roots;
      var i :| 0 <= i < |roots| && roots[i] == root;
      assert |Rooms(child, roots)[i]| == 0;
    }
  }

  /** The whole conversion, up to the order in which rooms and spans are sorted: it fails exactly if there is a
      root without a span to show, and otherwise shows each span three levels below a root once and no other,
      whatever the parent relation looks like. */
  method Convert(spans: seq<Node>) returns (r: Option<seq<nat>>)
    ensures r.None? <==> exists root :: 0 <= root < |spans| && spans[root].parent == "" && NothingBelow(spans, root)
    ensures r.Some? ==> NoDup(r.value) && forall s: nat :: s in r.value <==> Shown(spans, s)
  {
    var roots, child := BuildTree(spans);
    ShownOnce(spans, roots, child);
    ChildrenInRange(spans, child);
    var rooms := CollectRooms(child, roots);
    r := GatherRooms(rooms);
    EmptyRoomIff(spans, roots, child);
  }

  ghost predicate NothingBelow(spans: seq<Node>, root: nat)
  {
    forall s :: GreatGrandparent(spans, s) != Some(root)
  }

  lemma ChildrenInRange(spans: seq<Node>, child: seq<seq<nat>>)
    requires Family(spans, |spans|, child)
    ensures InRange(child)
  {
    forall p, i | 0 <= p < |child| && 0 <= i < |child[p]|
      ensures child[p][i] < |child|
    {
      assert ChildrenOf(spans, |spans|, p, child[p]) && child[p][i] in child[p];
    }
  }

  lemma BelowIff(spans: seq<Node>, child: seq<seq<nat>>, root: nat)
    requires Family(spans, |spans|, child) && root < |spans|
    ensures Kids(child, Kids(child, child[root])) == [] <==> NothingBelow(spans, root)
  {
    assert Kids(child, [root]) == child[root];
    ThreeDown(spans, child, [root]);
    var room := Kids(child, Kids(child, child[root]));
    assert forall s: nat :: s in room <==> GreatGrandparent(spans, s) == Some(root);
    assert room != [] ==> room[0] in room;
  }
}
