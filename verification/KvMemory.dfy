/** The key/value memory that decoding and verification share.  A verification pass writes its entries through the
    cache locations of its batch; attention reads a request's entries position by position. */
module KvMemory {
  import opened Arithmetic
  import opened Verifier
  import opened DecodeVerifyRollback
  import opened VerificationBatch
  import opened BatchLayout
  import KvSlots

  /** Which slots there are: those of each request's positions, the spare ones for padding, and those of the dummy
      requests. */
  datatype Table = Table(rows: seq<seq<nat>>, padding: seq<nat>, dummies: seq<seq<nat>>)

  /** The table and what the slots hold. */
  datatype Memory = Memory(table: Table, slots: map<nat, KV>)

  predicate Names(t: Table, loc: Loc)
  {
    match loc
    case Own(req, pos) => req < |t.rows| && pos < |t.rows[req]|
    case Padding(slot) => slot < |t.padding|
    case Dummy(row, pos) => row < |t.dummies| && pos < |t.dummies[row]|
  }

  function SlotOf(t: Table, loc: Loc): nat
    requires Names(t, loc)
  {
    match loc
    case Own(req, pos) => t.rows[req][pos]
    case Padding(slot) => t.padding[slot]
    case Dummy(row, pos) => t.dummies[row][pos]
  }

  /** Different places have different slots. */
  ghost predicate Backed(t: Table)
  {
    forall a: Loc, b: Loc :: Names(t, a) && Names(t, b) && a != b ==> SlotOf(t, a) != SlotOf(t, b)
  }

  /** A slot that nothing was written to holds anything at all; here it holds 0. */
  function Read(m: Memory, loc: Loc): KV
  {
    if Names(m.table, loc) && SlotOf(m.table, loc) in m.slots then m.slots[SlotOf(m.table, loc)] else 0
  }

  function Put(m: Memory, loc: Loc, kv: KV): Memory
  {
    if Names(m.table, loc) then m.(slots := m.slots[SlotOf(m.table, loc) := kv]) else m
  }

  lemma ReadPut(m: Memory, a: Loc, kv: KV, b: Loc)
    requires Backed(m.table)
    ensures a == b && Names(m.table, a) ==> Read(Put(m, a, kv), b) == kv
    ensures a != b ==> Read(Put(m, a, kv), b) == Read(m, b)
  {
  }

  /** What attention sees of a request's first `n` positions. */
  function CacheOf(m: Memory, req: nat, n: nat): (cache: seq<KV>)
    ensures |cache| == n && forall p :: 0 <= p < n ==> cache[p] == Read(m, Own(req, p))
  {
    seq(n, p requires 0 <= p => Read(m, Own(req, p)))
  }

  /** The memory after the entries have been written one after the other. */
  function Written(m: Memory, locs: seq<Loc>, kvs: seq<KV>): (w: Memory)
    requires |locs| == |kvs|
    ensures w.table == m.table
    decreases |locs|
  {
    if locs == [] then m
    else
      var last := |locs| - 1;
      Put(Written(m, locs[..last], kvs[..last]), locs[last], kvs[last])
  }

  lemma WrittenNext(m: Memory, locs: seq<Loc>, kvs: seq<KV>, k: nat)
    requires |locs| == |kvs| && k < |locs|
    ensures Written(m, locs[..k + 1], kvs[..k + 1]) == Put(Written(m, locs[..k], kvs[..k]), locs[k], kvs[k])
  {
    assert locs[..k + 1][..k] == locs[..k] && kvs[..k + 1][..k] == kvs[..k];
  }

  lemma {:induction false} WrittenConcat(m: Memory, a: seq<Loc>, x: seq<KV>, b: seq<Loc>, y: seq<KV>)
    requires |a| == |x| && |b| == |y|
    ensures Written(m, a + b, x + y) == Written(Written(m, a, x), b, y)
    decreases |b|
  {
    if b == [] {
      assert a + b == a && x + y == x;
    } else {
      var last := |b| - 1;
      WrittenConcat(m, a, x, b[..last], y[..last]);
      assert (a + b)[..|a + b| - 1] == a + b[..last] && (x + y)[..|a + b| - 1] == x + y[..last];
    }
  }

  lemma {:induction false} WrittenElsewhere(m: Memory, locs: seq<Loc>, kvs: seq<KV>, loc: Loc)
    requires Backed(m.table) && |locs| == |kvs| && forall k :: 0 <= k < |locs| ==> locs[k] != loc
    ensures Read(Written(m, locs, kvs), loc) == Read(m, loc)
    decreases |locs|
  {
    hide Backed;
    if locs != [] {
      var last := |locs| - 1;
      WrittenElsewhere(m, locs[..last], kvs[..last], loc);
      ReadPut(Written(m, locs[..last], kvs[..last]), locs[last], kvs[last], loc);
    }
  }

  lemma {:induction false} WrittenAt(m: Memory, locs: seq<Loc>, kvs: seq<KV>, k: nat)
    requires Backed(m.table) && |locs| == |kvs| && k < |locs| && Names(m.table, locs[k])
    requires forall l :: k < l < |locs| ==> locs[l] != locs[k]
    ensures Read(Written(m, locs, kvs), locs[k]) == kvs[k]
    decreases |locs|
  {
    hide Backed;
    var last := |locs| - 1;
    ReadPut(Written(m, locs[..last], kvs[..last]), locs[last], kvs[last], locs[k]);
    if k < last {
      WrittenAt(m, locs[..last], kvs[..last], k);
    }
  }

  // ----- rows of a batch

  ghost predicate SameShape<T, U>(xs: seq<seq<T>>, ys: seq<seq<U>>)
  {
    |xs| == |ys| && forall i :: 0 <= i < |xs| ==> |xs[i]| == |ys[i]|
  }

  lemma {:induction false} SameTotal<T, U>(xs: seq<seq<T>>, ys: seq<seq<U>>)
    requires SameShape(xs, ys)
    ensures |Flatten(xs)| == |Flatten(ys)|
    decreases |xs|
  {
    if xs != [] {
      SameTotal(xs[..|xs| - 1], ys[..|xs| - 1]);
    }
  }

  /** The memory after a whole batch. */
  ghost function Stored(m: Memory, locs: seq<seq<Loc>>, kvs: seq<seq<KV>>): (w: Memory)
    requires SameShape(locs, kvs)
    ensures w.table == m.table
  {
    SameTotal(locs, kvs);
    Written(m, Flatten(locs), Flatten(kvs))
  }

  lemma StoredLast(m: Memory, locs: seq<seq<Loc>>, kvs: seq<seq<KV>>)
    requires SameShape(locs, kvs) && locs != []
    ensures var last := |locs| - 1;
            Stored(m, locs, kvs) == Written(Stored(m, locs[..last], kvs[..last]), locs[last], kvs[last])
  {
    var last := |locs| - 1;
    SameTotal(locs[..last], kvs[..last]);
    WrittenConcat(m, Flatten(locs[..last]), Flatten(kvs[..last]), locs[last], kvs[last]);
  }

  lemma {:induction false} StoredElsewhere(m: Memory, locs: seq<seq<Loc>>, kvs: seq<seq<KV>>, loc: Loc)
    requires Backed(m.table) && SameShape(locs, kvs)
    requires forall i, s :: 0 <= i < |locs| && 0 <= s < |locs[i]| ==> locs[i][s] != loc
    ensures Read(Stored(m, locs, kvs), loc) == Read(m, loc)
    decreases |locs|
  {
    if locs != [] {
      hide Backed;
      hide Written;
      var last := |locs| - 1;
      StoredLast(m, locs, kvs);
      StoredElsewhere(m, locs[..last], kvs[..last], loc);
      WrittenElsewhere(Stored(m, locs[..last], kvs[..last]), locs[last], kvs[last], loc);
    }
  }

  /** An entry whose place no other token of the batch writes to is what its own token computed. */
  lemma {:induction false} StoredAt(m: Memory, locs: seq<seq<Loc>>, kvs: seq<seq<KV>>, i: nat, s: nat)
    requires Backed(m.table) && SameShape(locs, kvs) && i < |locs| && s < |locs[i]| && Names(m.table, locs[i][s])
    requires forall k, t :: 0 <= k < |locs| && 0 <= t < |locs[k]| && (i, s) != (k, t) ==> locs[k][t] != locs[i][s]
    ensures Read(Stored(m, locs, kvs), locs[i][s]) == kvs[i][s]
    decreases |locs|
  {
    hide Backed;
    hide Written;
    var last := |locs| - 1;
    var before := Stored(m, locs[..last], kvs[..last]);
    StoredLast(m, locs, kvs);
    if i == last {
      WrittenAt(before, locs[last], kvs[last], s);
    } else {
      StoredAt(m, locs[..last], kvs[..last], i, s);
      WrittenElsewhere(before, locs[last], kvs[last], locs[i][s]);
    }
  }

  // ----- what a batch leaves in the memory

  /** The request has a slot for every position but that of its last token. */
  ghost predicate Mapped(t: Table, place: Place, g: Generation)
  {
    place.id < |t.rows| && g.outputs != [] && place.prompt + |g.outputs| - 1 <= |t.rows[place.id]|
  }

  /** No token of the batch writes to this position. */
  lemma Untouched(places: seq<Place>, gens: seq<Generation>, es: seq<Entry>, dummies: nat, w: nat, req: nat, pos: nat)
    requires |places| == |gens| == |es| && AllPending(gens)
    requires forall i :: 0 <= i < |places| && places[i].id == req ==> pos < places[i].prompt + gens[i].verified - 1
    ensures var locs := BatchLocs(places, gens, es, dummies, w);
            forall i, s :: 0 <= i < |locs| && 0 <= s < |locs[i]| ==> locs[i][s] != Own(req, pos)
  {
  }

  /** A request outside the batch keeps all its entries. */
  lemma OthersKeepTheirs(m: Memory, places: seq<Place>, gens: seq<Generation>, es: seq<Entry>, dummies: nat, w: nat,
                         kvs: seq<seq<KV>>, req: nat, n: nat)
    requires Backed(m.table) && |places| == |gens| == |es| && AllPending(gens)
    requires SameShape(BatchLocs(places, gens, es, dummies, w), kvs)
    requires forall i :: 0 <= i < |places| ==> places[i].id != req
    ensures CacheOf(Stored(m, BatchLocs(places, gens, es, dummies, w), kvs), req, n) == CacheOf(m, req, n)
  {
    hide Backed;
    hide Stored;
    hide BatchLocs;
    forall p | 0 <= p < n
      ensures Read(Stored(m, BatchLocs(places, gens, es, dummies, w), kvs), Own(req, p)) == Read(m, Own(req, p))
    {
      Untouched(places, gens, es, dummies, w, req, p);
      StoredElsewhere(m, BatchLocs(places, gens, es, dummies, w), kvs, Own(req, p));
    }
  }

  /** The positions of a window hold what the pass computed for them. */
  lemma WindowStored(m: Memory, places: seq<Place>, gens: seq<Generation>, es: seq<Entry>, dummies: nat, w: nat,
                     kvs: seq<seq<KV>>, i: nat, s: nat)
    requires |places| == |gens| == |es| && AllPending(gens) && DistinctPlaces(places)
    requires SameShape(BatchLocs(places, gens, es, dummies, w), kvs)
    requires i < |gens| && s < |gens[i].outputs| - gens[i].verified <= es[i].padded
    requires Backed(m.table) && Mapped(m.table, places[i], gens[i])
    ensures i < |kvs| && s < |kvs[i]|
    ensures Read(Stored(m, BatchLocs(places, gens, es, dummies, w), kvs),
                 Own(places[i].id, places[i].prompt + gens[i].verified - 1 + s)) == kvs[i][s]
  {
    hide Backed;
    hide Stored;
    var locs := BatchLocs(places, gens, es, dummies, w);
    assert locs[i] == LocsAll(places, gens, es)[i] && |locs[i]| == es[i].padded;
    forall k, t | 0 <= k < |locs| && 0 <= t < |locs[k]| && (i, s) != (k, t)
      ensures locs[k][t] != locs[i][s]
    {
      LocsAreDistinct(places, gens, es, dummies, w, i, s, k, t);
    }
    StoredAt(m, locs, kvs, i, s);
  }

  /** Verification overwrites the very slots that decoding wrote to: what attention then sees of a request is its
      verified part as it was, followed by the entries that the pass computed for its window. */
  lemma BatchOverwritesDrafts(m: Memory, places: seq<Place>, gens: seq<Generation>, es: seq<Entry>, dummies: nat, w: nat,
                              kvs: seq<seq<KV>>, i: nat)
    requires |places| == |gens| == |es| && AllPending(gens) && DistinctPlaces(places)
    requires SameShape(BatchLocs(places, gens, es, dummies, w), kvs)
    requires i < |gens| && |gens[i].outputs| - gens[i].verified <= es[i].padded
    requires Backed(m.table) && Mapped(m.table, places[i], gens[i])
    ensures var context, n := places[i].prompt + gens[i].verified - 1, |gens[i].outputs| - gens[i].verified;
            && i < |kvs| && n <= |kvs[i]|
            && CacheOf(Stored(m, BatchLocs(places, gens, es, dummies, w), kvs), places[i].id, context + n)
               == CacheOf(m, places[i].id, context) + kvs[i][..n]
  {
    hide Backed;
    hide Stored;
    hide BatchLocs;
    var id, context, n := places[i].id, places[i].prompt + gens[i].verified - 1, |gens[i].outputs| - gens[i].verified;
    WindowStored(m, places, gens, es, dummies, w, kvs, i, n - 1);
    var after := Stored(m, BatchLocs(places, gens, es, dummies, w), kvs);
    forall p | 0 <= p < context + n
      ensures Read(after, Own(id, p)) == (CacheOf(m, id, context) + kvs[i][..n])[p]
    {
      if p < context {
        Untouched(places, gens, es, dummies, w, id, p);
        StoredElsewhere(m, BatchLocs(places, gens, es, dummies, w), kvs, Own(id, p));
      } else {
        WindowStored(m, places, gens, es, dummies, w, kvs, i, p - context);
      }
    }
  }

  // ----- the table of a reachable pool

  /** The slot table of a pool: the slots that each request owns, and the reserved ones. */
  ghost function TableOf(p: KvSlots.Pool, padding: seq<nat>, dummies: seq<seq<nat>>): Table
    requires KvSlots.AllInSync(p)
  {
    Table(KvSlots.OwnedAll(p), padding, dummies)
  }

  /** Where a reserved slot is in the list of all reserved ones. */
  ghost function Reserved(t: Table, loc: Loc): nat
    requires Names(t, loc) && !loc.Own?
  {
    match loc
    case Padding(slot) => slot
    case Dummy(row, pos) => |t.padding| + |Flatten(t.dummies[..row])| + pos
  }

  lemma ReservedAt(t: Table, loc: Loc)
    requires Names(t, loc) && !loc.Own?
    ensures var all := t.padding + Flatten(t.dummies);
            Reserved(t, loc) < |all| && all[Reserved(t, loc)] == SlotOf(t, loc)
  {
    if loc.Dummy? {
      FlattenSlice(t.dummies, loc.row);
      var from, to := |Flatten(t.dummies[..loc.row])|, |Flatten(t.dummies[..loc.row + 1])|;
      assert Flatten(t.dummies)[from..to][loc.pos] == t.dummies[loc.row][loc.pos];
    }
  }

  lemma {:induction false} FlattenGrows<T>(xs: seq<seq<T>>, i: nat, k: nat)
    requires i < k <= |xs|
    ensures |Flatten(xs[..i])| + |xs[i]| <= |Flatten(xs[..k])|
    decreases k
  {
    FlattenSlice(xs, k - 1);
    if i < k - 1 {
      FlattenGrows(xs, i, k - 1);
    }
  }

  lemma ReservedApart(t: Table, a: Loc, b: Loc)
    requires Names(t, a) && Names(t, b) && !a.Own? && !b.Own? && a != b
    ensures Reserved(t, a) != Reserved(t, b)
  {
    if a.Dummy? && b.Dummy? {
      if a.row < b.row {
        FlattenGrows(t.dummies, a.row, b.row);
      } else if b.row < a.row {
        FlattenGrows(t.dummies, b.row, a.row);
      }
    }
  }

  /** In every pool that the slot accounting reaches, different places have different slots. */
  lemma ReachableTableIsBacked(p: KvSlots.Pool, steps: seq<KvSlots.Step>, q: KvSlots.Pool,
                               padding: seq<nat>, dummies: seq<seq<nat>>)
    requires KvSlots.AllInSync(p) && KvSlots.RunTo(p, steps, q) && KvSlots.AllInSync(q)
    requires forall v :: KvSlots.Total(p, v) <= 1
    requires q.reserved == padding + Flatten(dummies)
    ensures Backed(TableOf(q, padding, dummies))
  {
    hide KvSlots.RunTo;
    hide KvSlots.Total;
    hide SlotOf;
    var t := TableOf(q, padding, dummies);
    forall v
      ensures KvSlots.Total(q, v) <= 1
    {
      KvSlots.RunConserves(p, steps, q, v);
    }
    forall a: Loc, b: Loc | Names(t, a) && Names(t, b) && a != b
      ensures SlotOf(t, a) != SlotOf(t, b)
    {
      if a.Own? && b.Own? {
        OwnApart(q, t, a, b);
      } else if a.Own? {
        OwnNotReserved(q, t, a, b);
      } else if b.Own? {
        OwnNotReserved(q, t, b, a);
      } else {
        BothReserved(q, t, a, b);
      }
    }
  }

  lemma OwnApart(q: KvSlots.Pool, t: Table, a: Loc, b: Loc)
    requires KvSlots.AllInSync(q) && t.rows == KvSlots.OwnedAll(q) && (forall v :: KvSlots.Total(q, v) <= 1)
    requires Names(t, a) && Names(t, b) && a.Own? && b.Own? && a != b
    ensures SlotOf(t, a) != SlotOf(t, b)
  {
    hide KvSlots.Count;
    var v := SlotOf(t, a);
    assert KvSlots.Total(q, v) <= 1;
    KvSlots.CountAt(t.rows[a.req], a.pos);
    KvSlots.CountAllCovers(t.rows, a.req, b.req, v);
    if SlotOf(t, b) == v {
      KvSlots.CountAt(t.rows[b.req], b.pos);
      if a.req == b.req {
        KvSlots.CountTwice(t.rows[a.req], if a.pos < b.pos then a.pos else b.pos, if a.pos < b.pos then b.pos else a.pos);
      }
    }
  }

  lemma OwnNotReserved(q: KvSlots.Pool, t: Table, a: Loc, b: Loc)
    requires KvSlots.AllInSync(q) && t.rows == KvSlots.OwnedAll(q) && (forall v :: KvSlots.Total(q, v) <= 1)
    requires q.reserved == t.padding + Flatten(t.dummies) && Names(t, a) && Names(t, b) && a.Own? && !b.Own?
    ensures SlotOf(t, a) != SlotOf(t, b)
  {
    hide KvSlots.Count;
    var v := SlotOf(t, a);
    assert KvSlots.Total(q, v) <= 1;
    KvSlots.CountAt(t.rows[a.req], a.pos);
    KvSlots.CountAllCovers(t.rows, a.req, a.req, v);
    ReservedAt(t, b);
    if SlotOf(t, b) == v {
      KvSlots.CountAt(q.reserved, Reserved(t, b));
    }
  }

  lemma BothReserved(q: KvSlots.Pool, t: Table, a: Loc, b: Loc)
    requires KvSlots.AllInSync(q) && (forall v :: KvSlots.Total(q, v) <= 1)
    requires q.reserved == t.padding + Flatten(t.dummies) && Names(t, a) && Names(t, b) && !a.Own? && !b.Own? && a != b
    ensures SlotOf(t, a) != SlotOf(t, b)
  {
    hide KvSlots.Count;
    ReservedAt(t, a);
    ReservedAt(t, b);
    ReservedApart(t, a, b);
    var i, k := Reserved(t, a), Reserved(t, b);
    assert KvSlots.Total(q, SlotOf(t, a)) <= 1;
    if SlotOf(t, a) == SlotOf(t, b) {
      KvSlots.CountTwice(q.reserved, if i < k then i else k, if i < k then k else i);
    }
  }

  /** A live request owns a slot for every position but that of its last token. */
  lemma LiveIsMapped(q: KvSlots.Pool, padding: seq<nat>, dummies: seq<seq<nat>>, i: nat, g: Generation)
    requires KvSlots.AllInSync(q) && i < |q.held| && q.held[i].live && |g.outputs| == q.held[i].outputs
    ensures Mapped(TableOf(q, padding, dummies), Place(i, q.held[i].prompt), g)
  {
    assert KvSlots.InSync(q.held[i]);
  }

  // ----- every token has a slot

  /** What is set aside for batches of `n` windows. */
  ghost predicate Reserves(t: Table, n: nat, w: nat)
  {
    w >= 1 && |t.padding| >= n * (w - 1) && |t.dummies| >= n && forall i :: 0 <= i < n ==> |t.dummies[i]| >= w
  }

  /** Every token of a batch has a slot to write to. */
  lemma BatchIsNamed(t: Table, places: seq<Place>, gens: seq<Generation>, es: seq<Entry>, dummies: nat, w: nat, i: nat, s: nat)
    requires |places| == |gens| == |es| && AllPending(gens) && Reserves(t, |gens| + dummies, w)
    requires forall k :: 0 <= k < |gens| ==> Mapped(t, places[k], gens[k]) && es[k].padded <= w
    requires i < |gens| + dummies && s < |BatchLocs(places, gens, es, dummies, w)[i]|
    ensures Names(t, BatchLocs(places, gens, es, dummies, w)[i][s])
  {
    if i < |gens| {
      hide Sum;
      hide LocsOf;
      hide Names;
      assert Mapped(t, places[i], gens[i]);
      RealIsNamed(t, places, gens, es, |gens| + dummies, w, i, s);
    }
  }

  lemma RealIsNamed(t: Table, places: seq<Place>, gens: seq<Generation>, es: seq<Entry>, n: nat, w: nat, i: nat, s: nat)
    requires |places| == |gens| == |es| <= n && AllPending(gens) && Reserves(t, n, w)
    requires forall k :: 0 <= k < |gens| ==> es[k].padded <= w
    requires i < |gens| && s < es[i].padded && Mapped(t, places[i], gens[i])
    ensures Names(t, LocsAll(places, gens, es)[i][s])
  {
    hide Sum;
    hide LocsOf;
    hide Names;
    SparesSuffice(gens, es, i);
    PoolSuffices(es, n, w);
    WindowIsNamed(t, places[i], gens[i], es[i].padded, Sum(SparesAll(gens, es)[..i]), s);
  }

  lemma WindowIsNamed(t: Table, place: Place, g: Generation, padded: nat, offset: nat, s: nat)
    requires Mapped(t, place, g) && 1 <= g.verified < |g.outputs| && s < padded
    requires offset + SpareOf(g, padded) <= |t.padding|
    ensures Names(t, LocsOf(place.id, place.prompt, g, padded, offset)[s])
  {
  }

  lemma {:induction false} FlatNamed(t: Table, locs: seq<seq<Loc>>)
    requires forall i, s :: 0 <= i < |locs| && 0 <= s < |locs[i]| ==> Names(t, locs[i][s])
    ensures forall k :: 0 <= k < |Flatten(locs)| ==> Names(t, Flatten(locs)[k])
    decreases |locs|
  {
    if locs != [] {
      hide Names;
      var last := |locs| - 1;
      FlatNamed(t, locs[..last]);
      assert forall s :: 0 <= s < |locs[last]| ==> Names(t, locs[last][s]);
    }
  }

  lemma WholeBatchIsNamed(t: Table, places: seq<Place>, gens: seq<Generation>, es: seq<Entry>, dummies: nat, w: nat)
    requires |places| == |gens| == |es| && AllPending(gens) && Reserves(t, |gens| + dummies, w)
    requires forall k :: 0 <= k < |gens| ==> Mapped(t, places[k], gens[k]) && es[k].padded <= w
    ensures var locs := Flatten(BatchLocs(places, gens, es, dummies, w));
            forall k :: 0 <= k < |locs| ==> Names(t, locs[k])
  {
    hide Names;
    hide Mapped;
    hide Flatten;
    var locs := BatchLocs(places, gens, es, dummies, w);
    forall i, s | 0 <= i < |locs| && 0 <= s < |locs[i]|
      ensures Names(t, locs[i][s])
    {
      BatchIsNamed(t, places, gens, es, dummies, w, i, s);
    }
    FlatNamed(t, locs);
  }
}
