/** Cache slots that come in pages.  Freeing a slot frees its whole page, so that a rollback in the middle of a page
    gives back a page that still holds verified entries. */
module PagedSlots {
  import opened Arithmetic
  import KvSlots

  /** A request's pages: position `q` is in page number `q / size` of its row. */
  datatype Held = Held(len: nat, pages: seq<nat>)

  datatype Pool = Pool(size: nat, free: seq<nat>, held: seq<Held>)

  /** The steps; freed pages go to the front of the free list in the given order. */
  datatype Step =
    | Admit(len: nat)
    | Decode(i: nat)
    | Rollback(i: nat, count: nat, order: seq<nat>)
    | Release(i: nat, order: seq<nat>)

  /** How many pages so many positions take. */
  function PagesFor(len: nat, size: nat): nat
    requires size >= 1
  {
    if len % size == 0 then len / size else len / size + 1
  }

  ghost predicate Valid(p: Pool)
  {
    p.size >= 1 && forall i :: 0 <= i < |p.held| ==> |p.held[i].pages| == PagesFor(p.held[i].len, p.size)
  }

  /** The first position that a rollback frees. */
  function Start(p: Pool, i: nat, count: nat): nat
    requires i < |p.held| && count <= p.held[i].len
  {
    p.held[i].len - count
  }

  /** The pages from `a` on, in any order. */
  ghost predicate Reordered(order: seq<nat>, pages: seq<nat>, a: nat)
  {
    a <= |pages| && forall v :: KvSlots.Count(order, v) == KvSlots.Count(pages[a..], v)
  }

  ghost predicate Enabled(p: Pool, s: Step)
  {
    && Valid(p)
    && match s
       case Admit(n) => PagesFor(n, p.size) <= |p.free|
       case Decode(i) => i < |p.held| && (p.held[i].len % p.size == 0 ==> p.free != [])
       case Rollback(i, n, order) =>
         && i < |p.held| && 1 <= n < p.held[i].len
         && Reordered(order, p.held[i].pages, Start(p, i, n) / p.size)
       case Release(i, order) => i < |p.held| && Reordered(order, p.held[i].pages, 0)
  }

  /** A decode takes a new page only at a page boundary.  A rollback frees the pages of all freed positions and keeps
      those of all others. */
  function Next(p: Pool, s: Step): Pool
    requires Enabled(p, s)
  {
    match s
    case Admit(n) =>
      var c := PagesFor(n, p.size);
      p.(free := p.free[c..], held := p.held + [Held(n, p.free[..c])])
    case Decode(i) =>
      var h := p.held[i];
      if h.len % p.size == 0 then
        p.(free := p.free[1..], held := p.held[i := Held(h.len + 1, h.pages + [p.free[0]])])
      else p.(held := p.held[i := h.(len := h.len + 1)])
    case Rollback(i, n, order) =>
      var h, start := p.held[i], Start(p, i, n);
      KeptPages(start, h.len, p.size);
      p.(free := order + p.free, held := p.held[i := Held(start, h.pages[..PagesFor(start, p.size)])])
    case Release(i, order) =>
      p.(free := order + p.free, held := p.held[i := Held(0, [])])
  }

  lemma KeptPages(start: nat, len: nat, size: nat)
    requires size >= 1 && start <= len
    ensures start / size <= PagesFor(start, size) <= PagesFor(len, size)
    ensures start % size != 0 ==> start / size < PagesFor(start, size)
  {
    var a, b := start / size, len / size;
    assert start == a * size + start % size && len == b * size + len % size;
    if b < a {
      MulMonotone(b + 1, a, size);
    } else if a == b && len % size == 0 {
      assert start % size == 0;
    }
  }

  lemma OneMorePage(len: nat, size: nat)
    requires size >= 1
    ensures PagesFor(len + 1, size) == PagesFor(len, size) + if len % size == 0 then 1 else 0
  {
    var a, m := len / size, len % size;
    assert len == a * size + m;
    if m + 1 < size {
      DivUnique(len + 1, a, m + 1, size);
    } else {
      assert len + 1 == (a + 1) * size;
      DivUnique(len + 1, a + 1, 0, size);
      if size == 1 { assert m == 0; }
    }
  }

  // ----- where the pages are

  function Rows(hs: seq<Held>): (rows: seq<seq<nat>>)
    ensures |rows| == |hs| && forall i :: 0 <= i < |hs| ==> rows[i] == hs[i].pages
  {
    seq(|hs|, i requires 0 <= i < |hs| => hs[i].pages)
  }

  /** How often a page occurs, in the free list and in the rows. */
  function Total(p: Pool, v: nat): nat
  {
    KvSlots.Count(p.free, v) + KvSlots.CountAll(Rows(p.held), v)
  }

  /** No page is in two places. */
  ghost predicate Apart(p: Pool)
  {
    forall v :: Total(p, v) <= 1
  }

  /** What one request gains the free list loses, and the other way round. */
  lemma Exchanged(p: Pool, i: nat, h: Held, free: seq<nat>, v: nat)
    requires i < |p.held|
    ensures Total(p.(free := free, held := p.held[i := h]), v)
            + KvSlots.Count(p.free, v) + KvSlots.Count(p.held[i].pages, v)
            == Total(p, v) + KvSlots.Count(free, v) + KvSlots.Count(h.pages, v)
  {
    assert Rows(p.held[i := h]) == Rows(p.held)[i := h.pages];
    KvSlots.CountAllUpdate(Rows(p.held), i, h.pages, v);
  }

  // ----- single steps

  lemma NextValid(p: Pool, s: Step)
    requires Enabled(p, s)
    ensures Valid(Next(p, s))
  {
    match s
    case Decode(i) => OneMorePage(p.held[i].len, p.size);
    case Rollback(i, n, order) => KeptPages(Start(p, i, n), p.held[i].len, p.size);
    case _ => assert PagesFor(0, p.size) == 0;
  }

  /** The pages kept and the pages freed: all of them once, and one of them twice if the rollback starts in it. */
  lemma KeptAndFreed(pages: seq<nat>, a: nat, c: nat, v: nat)
    requires a <= c <= |pages| && c <= a + 1
    ensures KvSlots.Count(pages[..c], v) + KvSlots.Count(pages[a..], v)
            == KvSlots.Count(pages, v) + if a < c && pages[a] == v then 1 else 0
  {
    KvSlots.CountSplit(pages, a, v);
    if a < c {
      assert pages[..c] == pages[..a] + [pages[a]];
      KvSlots.CountConcat(pages[..a], [pages[a]], v);
    }
  }

  /** A rollback gives back exactly the pages that it takes from the request, and one more if it starts in the middle
      of a page. */
  lemma RollbackPages(p: Pool, i: nat, n: nat, order: seq<nat>, v: nat)
    requires Enabled(p, Rollback(i, n, order))
    ensures var h, start := p.held[i], Start(p, i, n);
            && start / p.size < |h.pages|
            && Total(Next(p, Rollback(i, n, order)), v)
               == Total(p, v) + if start % p.size != 0 && h.pages[start / p.size] == v then 1 else 0
  {
    hide KvSlots.Count;
    var h, start := p.held[i], Start(p, i, n);
    var a, c := start / p.size, PagesFor(start, p.size);
    KeptPages(start, h.len, p.size);
    StartHasPage(start, h.len, p.size);
    Exchanged(p, i, Held(start, h.pages[..c]), order + p.free, v);
    KeptAndFreed(h.pages, a, c, v);
    KvSlots.CountConcat(order, p.free, v);
  }

  lemma StartHasPage(start: nat, len: nat, size: nat)
    requires size >= 1 && start < len
    ensures start / size < PagesFor(len, size)
  {
    var a, b := start / size, len / size;
    assert start == a * size + start % size && len == b * size + len % size;
    if b < a {
      MulMonotone(b + 1, a, size);
    }
  }

  lemma OtherStepsKeepPages(p: Pool, s: Step, v: nat)
    requires Enabled(p, s) && !s.Rollback?
    ensures Total(Next(p, s), v) == Total(p, v)
  {
    match s
    case Admit(n) => AdmitKeepsPages(p, n, v);
    case Decode(i) => DecodeKeepsPages(p, i, v);
    case Release(i, order) =>
      assert p.held[i].pages[0..] == p.held[i].pages;
      Exchanged(p, i, Held(0, []), order + p.free, v);
      KvSlots.CountConcat(order, p.free, v);
  }

  lemma AdmitKeepsPages(p: Pool, n: nat, v: nat)
    requires Enabled(p, Admit(n))
    ensures Total(Next(p, Admit(n)), v) == Total(p, v)
  {
    var q, c := Next(p, Admit(n)), PagesFor(n, p.size);
    KvSlots.CountSplit(p.free, c, v);
    assert Rows(q.held)[..|p.held|] == Rows(p.held);
  }

  lemma DecodeKeepsPages(p: Pool, i: nat, v: nat)
    requires Enabled(p, Decode(i))
    ensures Total(Next(p, Decode(i)), v) == Total(p, v)
  {
    var h := p.held[i];
    if h.len % p.size == 0 {
      Exchanged(p, i, Held(h.len + 1, h.pages + [p.free[0]]), p.free[1..], v);
      KvSlots.CountSplit(p.free, 1, v);
      assert p.free[..1] == [p.free[0]];
      KvSlots.CountConcat(h.pages, [p.free[0]], v);
    } else {
      Exchanged(p, i, h.(len := h.len + 1), p.free, v);
    }
  }

  /** A step is harmless unless it is a rollback that starts in the middle of a page. */
  ghost predicate Aligned(p: Pool, s: Step)
    requires Enabled(p, s)
  {
    s.Rollback? ==> Start(p, s.i, s.count) % p.size == 0
  }

  /** From a pool in which no page is in two places a step leads to such a pool exactly if it is aligned. */
  lemma StaysApartIff(p: Pool, s: Step)
    requires Enabled(p, s) && Apart(p)
    ensures Apart(Next(p, s)) <==> Aligned(p, s)
  {
    hide Total;
    hide Next;
    hide Enabled;
    if Aligned(p, s) {
      forall v
        ensures Total(Next(p, s), v) <= 1
      {
        if s.Rollback? {
          RollbackPages(p, s.i, s.count, s.order, v);
        } else {
          OtherStepsKeepPages(p, s, v);
        }
      }
    } else {
      var v := SharedPage(p, s);
    }
  }

  lemma SharedPage(p: Pool, s: Step) returns (v: nat)
    requires Enabled(p, s) && !Aligned(p, s)
    ensures Total(Next(p, s), v) >= 2
  {
    StartHasPage(Start(p, s.i, s.count), p.held[s.i].len, p.size);
    var a := Start(p, s.i, s.count) / p.size;
    v := p.held[s.i].pages[a];
    RollbackPages(p, s.i, s.count, s.order, v);
    KvSlots.CountAt(p.held[s.i].pages, a);
    KvSlots.CountAllCovers(Rows(p.held), s.i, s.i, v);
  }

  // ----- runs

  ghost predicate Runs(p: Pool, steps: seq<Step>)
    decreases |steps|
  {
    steps == [] || (Enabled(p, steps[0]) && Runs(Next(p, steps[0]), steps[1..]))
  }

  /** No page is ever in two places. */
  ghost predicate AlwaysApart(p: Pool, steps: seq<Step>)
    requires Runs(p, steps)
    decreases |steps|
  {
    Apart(p) && (steps != [] ==> AlwaysApart(Next(p, steps[0]), steps[1..]))
  }

  /** All rollbacks start at page boundaries. */
  ghost predicate AlwaysAligned(p: Pool, steps: seq<Step>)
    requires Runs(p, steps)
    decreases |steps|
  {
    steps != [] ==> Aligned(p, steps[0]) && AlwaysAligned(Next(p, steps[0]), steps[1..])
  }

  /** Over any run: pages stay apart if and only if every rollback starts at a page boundary. */
  lemma {:induction false} PagesStayApartIff(p: Pool, steps: seq<Step>)
    requires Apart(p) && Runs(p, steps)
    ensures AlwaysApart(p, steps) <==> AlwaysAligned(p, steps)
    decreases |steps|
  {
    hide Apart;
    hide Aligned;
    if steps != [] {
      StaysApartIff(p, steps[0]);
      if Apart(Next(p, steps[0])) {
        PagesStayApartIff(Next(p, steps[0]), steps[1..]);
      } else {
        NotApart(Next(p, steps[0]), steps[1..]);
      }
    }
  }

  lemma NotApart(p: Pool, steps: seq<Step>)
    requires Runs(p, steps) && !Apart(p)
    ensures !AlwaysApart(p, steps)
  {
  }

  /** The slot of a position. */
  function SlotAt(h: Held, q: nat, size: nat): nat
    requires size >= 1 && q / size < |h.pages|
  {
    h.pages[q / size] * size + q % size
  }

  /** A rollback, and a request that takes all the pages it freed. */
  lemma RolledBackThenAdmitted(p: Pool, i: nat, n: nat, order: seq<nat>)
    requires Enabled(p, Rollback(i, n, order))
    ensures var back := Next(p, Rollback(i, n, order));
            && Enabled(back, Admit(|order| * p.size))
            && Next(back, Admit(|order| * p.size)).held == back.held + [Held(|order| * p.size, order)]
  {
    NextValid(p, Rollback(i, n, order));
    WholePages(|order|, p.size);
    var back := Next(p, Rollback(i, n, order));
    assert back.free[..|order|] == order;
  }

  /** The freed page in which the kept positions end. */
  lemma KeptPageIsFreed(p: Pool, i: nat, n: nat, order: seq<nat>) returns (k: nat)
    requires Enabled(p, Rollback(i, n, order)) && Start(p, i, n) % p.size != 0
    ensures var a, pages := Start(p, i, n) / p.size, Next(p, Rollback(i, n, order)).held[i].pages;
            a < |pages| && k < |order| && order[k] == pages[a]
  {
    var h, start := p.held[i], Start(p, i, n);
    var a := start / p.size;
    KeptPages(start, h.len, p.size);
    StartHasPage(start, h.len, p.size);
    KvSlots.CountAt(h.pages[a..], 0);
    k := FoundAt(order, h.pages[a]);
  }

  lemma SameSlot(kept: Held, other: Held, start: nat, k: nat, size: nat) returns (q: nat)
    requires size >= 1 && start % size != 0 && start / size < |kept.pages| && k < |other.pages|
    requires kept.pages[start / size] == other.pages[k]
    ensures (start - 1) / size < |kept.pages| && q / size < |other.pages| && q < (k + 1) * size
    ensures SlotAt(kept, start - 1, size) == SlotAt(other, q, size)
  {
    var a, m := start / size, start % size;
    assert start == a * size + m;
    q := k * size + (m - 1);
    DivUnique(q, k, m - 1, size);
    DivUnique(start - 1, a, m - 1, size);
  }

  /** What a misaligned rollback leads to: the next request that is admitted can get a slot that still holds a verified
      entry of the one rolled back. */
  lemma AdmittedOntoVerified(p: Pool, i: nat, n: nat, order: seq<nat>) returns (q: nat)
    requires Enabled(p, Rollback(i, n, order)) && Start(p, i, n) % p.size != 0
    ensures var back := Next(p, Rollback(i, n, order));
            && Enabled(back, Admit(|order| * p.size))
            && var after := Next(back, Admit(|order| * p.size));
               var kept, other, last := after.held[i], after.held[|p.held|], Start(p, i, n) - 1;
               && last < kept.len && q < other.len && last / p.size < |kept.pages| && q / p.size < |other.pages|
               && SlotAt(kept, last, p.size) == SlotAt(other, q, p.size)
  {
    RolledBackThenAdmitted(p, i, n, order);
    var k := KeptPageIsFreed(p, i, n, order);
    var kept := Next(p, Rollback(i, n, order)).held[i];
    hide Next;
    hide Enabled;
    hide SlotAt;
    q := SameSlot(kept, Held(|order| * p.size, order), Start(p, i, n), k, p.size);
    MulMonotone(k + 1, |order|, p.size);
  }

  lemma {:induction false} FoundAt(s: seq<nat>, v: nat) returns (k: nat)
    requires KvSlots.Count(s, v) >= 1
    ensures k < |s| && s[k] == v
    decreases |s|
  {
    if s[|s| - 1] == v {
      k := |s| - 1;
    } else {
      k := FoundAt(s[..|s| - 1], v);
    }
  }

  lemma WholePages(c: nat, size: nat)
    requires size >= 1
    ensures PagesFor(c * size, size) == c
  {
    DivUnique(c * size, c, 0, size);
  }

  /** A run that shows it, with pages of two slots: the last of four tokens is rolled back, and the next request is
      admitted into the page of the third. */
  lemma SharingRun()
    ensures var p := Pool(2, [1, 2, 3], []);
            var steps := [Admit(2), Decode(0), Decode(0), Rollback(0, 1, [2]), Admit(2)];
            Apart(p) && Runs(p, steps) && !AlwaysApart(p, steps)
  {
    var p0, p1, p2 := FirstTokens();
    var p3, p4 := LastTokenRolledBack(p2);
    SharingSteps(p0, p1, p2, p3, p4);
    FreshPoolApart();
  }

  lemma FirstTokens() returns (p0: Pool, p1: Pool, p2: Pool)
    ensures p0 == Pool(2, [1, 2, 3], []) && p2 == Pool(2, [3], [Held(3, [1, 2])])
    ensures Enabled(p0, Admit(2)) && Next(p0, Admit(2)) == p1
    ensures Enabled(p1, Decode(0)) && Next(p1, Decode(0)) == p2
  {
    p0, p1, p2 := Pool(2, [1, 2, 3], []), Pool(2, [2, 3], [Held(2, [1])]), Pool(2, [3], [Held(3, [1, 2])]);
    assert p0.free[1..] == [2, 3] && p0.free[..1] == [1] && p0.held + [Held(2, [1])] == p1.held;
    assert p1.free[1..] == [3] && [1] + [2] == [1, 2] && p1.held[0 := Held(3, [1, 2])] == p2.held;
  }

  lemma LastTokenRolledBack(p2: Pool) returns (p3: Pool, p4: Pool)
    requires p2 == Pool(2, [3], [Held(3, [1, 2])])
    ensures Enabled(p2, Decode(0)) && Next(p2, Decode(0)) == p3
    ensures Enabled(p3, Rollback(0, 1, [2])) && Next(p3, Rollback(0, 1, [2])) == p4
    ensures Enabled(p4, Admit(2)) && !Aligned(p3, Rollback(0, 1, [2]))
  {
    p3, p4 := Pool(2, [3], [Held(4, [1, 2])]), Pool(2, [2, 3], [Held(3, [1, 2])]);
    assert p2.held[0 := Held(4, [1, 2])] == p3.held && p3.held[0 := Held(3, [1, 2])] == p4.held;
    assert [2] + p3.free == [2, 3] && [1, 2][..2] == [1, 2] && [1, 2][1..] == [2];
  }

  lemma SharingSteps(p0: Pool, p1: Pool, p2: Pool, p3: Pool, p4: Pool)
    requires Enabled(p0, Admit(2)) && Next(p0, Admit(2)) == p1
    requires Enabled(p1, Decode(0)) && Next(p1, Decode(0)) == p2
    requires Enabled(p2, Decode(0)) && Next(p2, Decode(0)) == p3
    requires Enabled(p3, Rollback(0, 1, [2])) && Next(p3, Rollback(0, 1, [2])) == p4
    requires Enabled(p4, Admit(2)) && !Aligned(p3, Rollback(0, 1, [2]))
    ensures var steps := [Admit(2), Decode(0), Decode(0), Rollback(0, 1, [2]), Admit(2)];
            Runs(p0, steps) && (Apart(p0) ==> !AlwaysApart(p0, steps))
  {
    hide Enabled;
    hide Next;
    var s4 := [Admit(2)];
    var s3 := [Rollback(0, 1, [2])] + s4;
    var s2, s1 := [Decode(0)] + s3, [Decode(0)] + ([Decode(0)] + s3);
    var s0 := [Admit(2)] + s1;
    assert s4[1..] == [] && s3[1..] == s4 && s2[1..] == s3 && s1[1..] == s2 && s0[1..] == s1;
    assert Runs(p4, s4);
    assert Runs(p3, s3) && !AlwaysAligned(p3, s3);
    assert Runs(p2, s2) && !AlwaysAligned(p2, s2);
    assert Runs(p1, s1) && !AlwaysAligned(p1, s1);
    assert Runs(p0, s0) && !AlwaysAligned(p0, s0);
    assert s0 == [Admit(2), Decode(0), Decode(0), Rollback(0, 1, [2]), Admit(2)];
    if Apart(p0) {
      PagesStayApartIff(p0, s0);
    }
  }

  lemma FreshPoolApart()
    ensures Apart(Pool(2, [1, 2, 3], []))
  {
    forall v: nat
      ensures Total(Pool(2, [1, 2, 3], []), v) <= 1
    {
      assert [1, 2, 3][..2] == [1, 2] && [1, 2][..1] == [1] && [1][..0] == [];
    }
  }
}
