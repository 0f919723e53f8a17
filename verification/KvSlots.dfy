/** The key/value slots behind the cache: what decoding takes, and what a rollback, a retraction and the end of
    a request give back. */
module KvSlots {

  /** A request's row of the slot table.  Only the first `committed` entries are in use; what lies beyond
      is left over from rolled-back positions.  The batch counts its positions on its own. */
  datatype Held = Held(prompt: nat, outputs: nat, committed: nat, seqLen: nat, row: seq<nat>, live: bool)

  datatype Pool = Pool(free: seq<nat>, reserved: seq<nat>, held: seq<Held>)

  datatype Step =
    | Admit(prompt: nat)
    | Decode(i: nat)
    | Rollback(i: nat, rolledBack: nat)
    | Release(i: nat)
    | Readmit(i: nat)

  function Owned(h: Held): (s: seq<nat>)
    requires h.committed <= |h.row|
  {
    if h.live then h.row[..h.committed] else []
  }

  /** The counters agree with the tokens: every position but the last token's is in use. */
  ghost predicate InSync(h: Held)
  {
    h.committed <= |h.row| && (h.live ==> h.outputs >= 1 && h.committed == h.seqLen == h.prompt + h.outputs - 1)
  }

  ghost predicate AllInSync(p: Pool)
  {
    forall i :: 0 <= i < |p.held| ==> InSync(p.held[i])
  }

  function OwnedAll(p: Pool): (ss: seq<seq<nat>>)
    requires AllInSync(p)
    ensures |ss| == |p.held| && forall i :: 0 <= i < |p.held| ==> ss[i] == Owned(p.held[i])
  {
    seq(|p.held|, i requires 0 <= i < |p.held| => Owned(p.held[i]))
  }

  function Count(s: seq<nat>, v: nat): nat
    decreases |s|
  {
    if s == [] then 0 else Count(s[..|s| - 1], v) + if s[|s| - 1] == v then 1 else 0
  }

  function CountAll(ss: seq<seq<nat>>, v: nat): nat
    decreases |ss|
  {
    if ss == [] then 0 else CountAll(ss[..|ss| - 1], v) + Count(ss[|ss| - 1], v)
  }

  /** How often a slot occurs anywhere: in the free list, in the reserved pools, in the rows. */
  ghost function Total(p: Pool, v: nat): nat
    requires AllInSync(p)
  {
    Count(p.free, v) + Count(p.reserved, v) + CountAll(OwnedAll(p), v)
  }

  /** Slot 0 is not a slot: it marks padding, and is never given back. */
  function Valid(s: seq<nat>): seq<nat>
    decreases |s|
  {
    if s == [] then [] else Valid(s[..|s| - 1]) + if s[|s| - 1] == 0 then [] else [s[|s| - 1]]
  }

  /** The steps.  A decode writes its slot at the position the batch's sequence length names; a rollback
      frees the positions after the corrected token, taken from the outputs that are left, and sets the
      sequence length back to them. */
  function Next(p: Pool, s: Step): (q: Pool)
    requires Enabled(p, s)
  {
    match s
    case Admit(n) =>
      p.(free := p.free[n..], held := p.held + [Held(n, 1, n, n, p.free[..n], true)])
    case Decode(i) =>
      var h := p.held[i];
      var row := if h.seqLen < |h.row| then h.row[h.seqLen := p.free[0]] else h.row + [p.free[0]];
      p.(free := p.free[1..],
         held := p.held[i := h.(row := row, committed := h.committed + 1, seqLen := h.seqLen + 1,
                                outputs := h.outputs + 1)])
    case Rollback(i, n) =>
      var h := p.held[i];
      var outputs := h.outputs - n;
      var start := h.prompt + (if outputs >= 1 then outputs - 1 else 0);
      p.(free := p.free + Valid(h.row[start..start + n]),
         held := p.held[i := h.(outputs := outputs, committed := h.committed - n, seqLen := h.prompt + outputs - 1)])
    case Release(i) =>
      var h := p.held[i];
      p.(free := p.free + Valid(h.row[..h.committed]), held := p.held[i := h.(committed := 0, live := false)])
    case Readmit(i) =>
      var h := p.held[i];
      var n := h.prompt + h.outputs;
      p.(free := p.free[n..],
         held := p.held[i := h.(row := p.free[..n], committed := n, seqLen := n, outputs := h.outputs + 1, live := true)])
  }

  ghost predicate Enabled(p: Pool, s: Step)
  {
    && AllInSync(p)
    && match s
       case Admit(n) => n <= |p.free|
       case Decode(i) => i < |p.held| && p.held[i].live && p.free != []
       case Rollback(i, n) => i < |p.held| && p.held[i].live && 1 <= n < p.held[i].outputs
       case Release(i) => i < |p.held| && p.held[i].live
       case Readmit(i) => i < |p.held| && !p.held[i].live && p.held[i].prompt + p.held[i].outputs <= |p.free|
  }

  lemma {:induction false} CountConcat(a: seq<nat>, b: seq<nat>, v: nat)
    ensures Count(a + b, v) == Count(a, v) + Count(b, v)
    decreases |b|
  {
    if b == [] {
      assert a + b == a;
    } else {
      CountConcat(a, b[..|b| - 1], v);
      assert (a + b)[..|a + b| - 1] == a + b[..|b| - 1];
    }
  }

  lemma CountSplit(s: seq<nat>, n: nat, v: nat)
    requires n <= |s|
    ensures Count(s, v) == Count(s[..n], v) + Count(s[n..], v)
  {
    assert s == s[..n] + s[n..];
    CountConcat(s[..n], s[n..], v);
  }

  lemma {:induction false} CountAllUpdate(xs: seq<seq<nat>>, i: nat, y: seq<nat>, v: nat)
    requires i < |xs|
    ensures CountAll(xs[i := y], v) + Count(xs[i], v) == CountAll(xs, v) + Count(y, v)
    decreases |xs|
  {
    var last := |xs| - 1;
    if i == last {
      assert xs[i := y][..last] == xs[..last];
    } else {
      CountAllUpdate(xs[..last], i, y, v);
      assert xs[i := y][..last] == xs[..last][i := y];
    }
  }

  lemma {:induction false} CountValid(s: seq<nat>, v: nat)
    ensures Count(Valid(s), v) == if v == 0 then 0 else Count(s, v)
    decreases |s|
  {
    if s != [] {
      var last := |s| - 1;
      CountValid(s[..last], v);
      CountConcat(Valid(s[..last]), if s[last] == 0 then [] else [s[last]], v);
    }
  }

  /** Every slot is as often there as before, and the mark for padding not more often. */
  ghost predicate Conserved(p: Pool, q: Pool, v: nat)
    requires AllInSync(p) && AllInSync(q)
  {
    if v == 0 then Total(q, v) <= Total(p, v) else Total(q, v) == Total(p, v)
  }

  /** What one request gains the pool loses, and the other way round. */
  lemma Exchanged(p: Pool, i: nat, h: Held, free: seq<nat>, v: nat)
    requires AllInSync(p) && i < |p.held| && InSync(h)
    ensures var q := p.(free := free, held := p.held[i := h]);
            && AllInSync(q)
            && Total(q, v) + Count(p.free, v) + Count(Owned(p.held[i]), v) == Total(p, v) + Count(free, v) + Count(Owned(h), v)
  {
    var q := p.(free := free, held := p.held[i := h]);
    assert OwnedAll(q) == OwnedAll(p)[i := Owned(h)];
    CountAllUpdate(OwnedAll(p), i, Owned(h), v);
  }

  lemma DecodeConserves(p: Pool, i: nat, v: nat)
    requires Enabled(p, Decode(i))
    ensures AllInSync(Next(p, Decode(i))) && Conserved(p, Next(p, Decode(i)), v)
  {
    var h, h' := p.held[i], Next(p, Decode(i)).held[i];
    assert Owned(h') == Owned(h) + [p.free[0]];
    CountConcat(Owned(h), [p.free[0]], v);
    CountSplit(p.free, 1, v);
    assert p.free[..1] == [p.free[0]];
    Exchanged(p, i, h', p.free[1..], v);
  }

  lemma RollbackConserves(p: Pool, i: nat, n: nat, v: nat)
    requires Enabled(p, Rollback(i, n))
    ensures AllInSync(Next(p, Rollback(i, n))) && Conserved(p, Next(p, Rollback(i, n)), v)
  {
    var h := p.held[i];
    var start := h.prompt + h.outputs - n - 1;
    var freed := h.row[start..start + n];
    var h' := h.(outputs := h.outputs - n, committed := h.committed - n, seqLen := h.prompt + h.outputs - n - 1);
    assert Next(p, Rollback(i, n)) == p.(free := p.free + Valid(freed), held := p.held[i := h']);
    FreedAndKept(h, h', start, freed, v);
    CountConcat(p.free, Valid(freed), v);
    CountValid(freed, v);
    Exchanged(p, i, h', p.free + Valid(freed), v);
  }

  lemma FreedAndKept(h: Held, h': Held, start: nat, freed: seq<nat>, v: nat)
    requires InSync(h) && h.live && h'.live && h'.row == h.row && h'.committed == start <= h.committed
    requires freed == h.row[start..h.committed]
    ensures Count(Owned(h), v) == Count(Owned(h'), v) + Count(freed, v)
  {
    CountSplit(Owned(h), start, v);
    assert Owned(h)[..start] == Owned(h') && Owned(h)[start..] == freed;
  }

  lemma ReleaseConserves(p: Pool, i: nat, v: nat)
    requires Enabled(p, Release(i))
    ensures AllInSync(Next(p, Release(i))) && Conserved(p, Next(p, Release(i)), v)
  {
    var h := p.held[i];
    CountConcat(p.free, Valid(Owned(h)), v);
    CountValid(Owned(h), v);
    Exchanged(p, i, h.(committed := 0, live := false), p.free + Valid(Owned(h)), v);
  }

  lemma ReadmitConserves(p: Pool, i: nat, v: nat)
    requires Enabled(p, Readmit(i))
    ensures AllInSync(Next(p, Readmit(i))) && Conserved(p, Next(p, Readmit(i)), v)
  {
    var n := p.held[i].prompt + p.held[i].outputs;
    var h' := Next(p, Readmit(i)).held[i];
    CountSplit(p.free, n, v);
    assert Owned(h') == p.free[..n] && Owned(p.held[i]) == [];
    Exchanged(p, i, h', p.free[n..], v);
  }

  lemma AdmitConserves(p: Pool, n: nat, v: nat)
    requires Enabled(p, Admit(n))
    ensures AllInSync(Next(p, Admit(n))) && Conserved(p, Next(p, Admit(n)), v)
  {
    var q := Next(p, Admit(n));
    CountSplit(p.free, n, v);
    assert p.free[..n][..n] == p.free[..n];
    assert OwnedAll(q)[..|p.held|] == OwnedAll(p) && OwnedAll(q)[|p.held|] == p.free[..n];
  }

  /** No step loses a slot, duplicates one, or lets the counters drift from the tokens. */
  lemma StepConserves(p: Pool, s: Step, v: nat)
    requires Enabled(p, s)
    ensures AllInSync(Next(p, s)) && Conserved(p, Next(p, s), v)
  {
    match s
    case Admit(n) => AdmitConserves(p, n, v);
    case Decode(i) => DecodeConserves(p, i, v);
    case Rollback(i, n) => RollbackConserves(p, i, n, v);
    case Release(i) => ReleaseConserves(p, i, v);
    case Readmit(i) => ReadmitConserves(p, i, v);
  }

  /** The steps of a run, each enabled where it is taken. */
  ghost predicate RunTo(p: Pool, steps: seq<Step>, q: Pool)
    decreases |steps|
  {
    if steps == [] then p == q else Enabled(p, steps[0]) && RunTo(Next(p, steps[0]), steps[1..], q)
  }

  lemma {:induction false} RunConserves(p: Pool, steps: seq<Step>, q: Pool, v: nat)
    requires AllInSync(p) && RunTo(p, steps, q)
    ensures AllInSync(q) && Conserved(p, q, v)
    decreases |steps|
  {
    if steps != [] {
      StepConserves(p, steps[0], v);
      RunConserves(Next(p, steps[0]), steps[1..], q, v);
    }
  }

  /** All along the run the request is live and its position in use. */
  ghost predicate InUse(p: Pool, steps: seq<Step>, i: nat, a: nat)
    decreases |steps|
  {
    && i < |p.held| && p.held[i].live && a < p.held[i].committed
    && (steps != [] ==> Enabled(p, steps[0]) && InUse(Next(p, steps[0]), steps[1..], i, a))
  }

  /** A position keeps its slot for as long as it is in use, whatever is decoded, rolled back, admitted and released
      meanwhile: a rollback gives up the last positions only. */
  lemma {:induction false} PositionKeepsItsSlot(p: Pool, steps: seq<Step>, q: Pool, i: nat, a: nat)
    requires AllInSync(p) && RunTo(p, steps, q) && InUse(p, steps, i, a)
    ensures i < |q.held| && a < |p.held[i].row| && a < |q.held[i].row| && q.held[i].row[a] == p.held[i].row[a]
    decreases |steps|
  {
    if steps != [] {
      StepKeepsSlot(p, steps[0], i, a);
      StepConserves(p, steps[0], 0);
      PositionKeepsItsSlot(Next(p, steps[0]), steps[1..], q, i, a);
    } else {
      assert InSync(p.held[i]);
    }
  }

  lemma StepKeepsSlot(p: Pool, s: Step, i: nat, a: nat)
    requires Enabled(p, s) && i < |p.held| && p.held[i].live && a < p.held[i].committed
    requires Next(p, s).held[i].live
    ensures a < |p.held[i].row| && a < |Next(p, s).held[i].row| && Next(p, s).held[i].row[a] == p.held[i].row[a]
  {
    assert InSync(p.held[i]);
  }

  lemma {:induction false} CountAllCovers(xs: seq<seq<nat>>, i: nat, k: nat, v: nat)
    requires i < |xs| && k < |xs|
    ensures Count(xs[i], v) <= CountAll(xs, v)
    ensures i != k ==> Count(xs[i], v) + Count(xs[k], v) <= CountAll(xs, v)
    decreases |xs|
  {
    var last := |xs| - 1;
    if i < last && k < last {
      CountAllCovers(xs[..last], i, k, v);
    } else if i < last {
      CountAllCovers(xs[..last], i, i, v);
    } else if k < last {
      CountAllCovers(xs[..last], k, k, v);
    }
  }

  lemma {:induction false} CountAt(s: seq<nat>, a: nat)
    requires a < |s|
    ensures Count(s, s[a]) >= 1
  {
    CountSplit(s, a, s[a]);
    CountSplit(s[a..], 1, s[a]);
    assert s[a..][..1] == [s[a]];
  }

  lemma CountTwice(s: seq<nat>, a: nat, b: nat)
    requires a < b < |s| && s[a] == s[b]
    ensures Count(s, s[a]) >= 2
  {
    CountSplit(s, b, s[a]);
    CountAt(s[..b], a);
    CountAt(s[b..], 0);
  }

  lemma CountFound(s: seq<nat>, v: nat)
    requires v in s
    ensures Count(s, v) >= 1
  {
    var a :| 0 <= a < |s| && s[a] == v;
    CountAt(s, a);
  }

  /** Starting from a pool in which every slot is free or reserved at most once, no run ever gives a slot to
      two positions, or keeps one that is also free or reserved. */
  lemma NoSlotIsShared(p: Pool, steps: seq<Step>, q: Pool, i: nat, a: nat, k: nat, b: nat)
    requires AllInSync(p) && RunTo(p, steps, q) && AllInSync(q)
    requires forall v :: Total(p, v) <= 1
    requires i < |q.held| && k < |q.held| && q.held[i].live && q.held[k].live
    requires a < q.held[i].committed && b < q.held[k].committed && (i, a) != (k, b)
    ensures q.held[i].row[a] != q.held[k].row[b]
    ensures q.held[i].row[a] !in q.free && q.held[i].row[a] !in q.reserved
  {
    hide RunTo;
    hide Count;
    hide CountAll;
    var v, xs := q.held[i].row[a], OwnedAll(q);
    RunConserves(p, steps, q, v);
    assert xs[i][a] == v && xs[k][b] == q.held[k].row[b];
    CountAt(xs[i], a);
    CountAllCovers(xs, i, k, v);
    if v in q.free { CountFound(q.free, v); }
    if v in q.reserved { CountFound(q.reserved, v); }
    if xs[k][b] == v {
      CountAt(xs[k], b);
      if i == k {
        CountTwice(xs[i], if a < b then a else b, if a < b then b else a);
      }
    }
  }
}
