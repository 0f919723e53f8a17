/** A complete verification pass over a fixed-size batch, from the requests' windows to the rolled-back
    requests. */
module VerificationRun {
  import opened Sequences
  import opened Options
  import opened Arithmetic
  import opened Verifier
  import opened DecodeVerifyRollback
  import opened VerificationBatch
  import opened BatchLayout
  import opened KvMemory
  import opened LLM42Worker

  /** The key/value memory of the server. */
  class KvPool {
    var entries: Memory

    /** A pass writes the entry of every token to its place, dummies included. */
    method Store(locs: seq<Loc>, passes: seq<Pass>)
      requires |locs| == |passes| && forall k :: 0 <= k < |locs| ==> Names(entries.table, locs[k])
      modifies this
      ensures entries == Written(old(entries), locs, KVs(passes))
    {
      ghost var kvs := KVs(passes);
      for k := 0 to |locs|
        invariant entries == Written(old(entries), locs[..k], kvs[..k])
      {
        WrittenNext(old(entries), locs, kvs, k);
        entries := Put(entries, locs[k], passes[k].kv);
      }
      assert locs[..|locs|] == locs && kvs[..|locs|] == kvs;
    }
  }

  /** The tokens of `count` dummy requests. */
  function DummyInputs(count: nat, w: nat): seq<seq<Token>>
  {
    Repeat(Repeat(DUMMY_TOKEN_ID, w), count)
  }

  ghost predicate Fits(gens: seq<Generation>, w: nat)
  {
    forall i :: 0 <= i < |gens| ==> |gens[i].outputs| - gens[i].verified <= w
  }

  ghost predicate EntriesFor(gens: seq<Generation>, finished: seq<bool>, es: seq<Entry>, w: nat)
  {
    && |gens| == |es| == |finished| && AllPending(gens)
    && forall i :: 0 <= i < |es| ==> es[i] == EntryOf(gens[i].outputs[gens[i].verified..], finished[i], true, w)
  }

  /** Every pass has the same shape: as many rows as the batch has places, each one window long. */
  lemma ShapeIsFixed(gens: seq<Generation>, finished: seq<bool>, es: seq<Entry>, dummies: nat, w: nat)
    requires EntriesFor(gens, finished, es, w) && Fits(gens, w)
    ensures Lengths(InputsAll(gens, es) + DummyInputs(dummies, w)) == Repeat(w, |gens| + dummies)
  {
    FixedShape(gens, finished, es, w);
    var inputs := InputsAll(gens, es) + DummyInputs(dummies, w);
    forall i | 0 <= i < |inputs|
      ensures |inputs[i]| == w
    {
      if i < |gens| {
        assert Lengths(InputsAll(gens, es))[i] == w;
      }
    }
  }

  ghost predicate RowsFor(reqs: seq<Req>, gens: seq<Generation>, rows: seq<Row>)
  {
    && |reqs| == |gens| <= |rows|
    && forall i :: 0 <= i < |reqs| ==>
         && Shape(reqs[i].job, gens[i]) && Unverified(gens[i]) > 0
         && rows[i] == Row(reqs[i].job.kernel, gens[i].cache[..|reqs[i].job.start.cache| + gens[i].verified - 1])
  }

  /** Each request's slice of the batched answers is the answer to its own window. */
  lemma BatchAnswers(reqs: seq<Req>, gens: seq<Generation>, finished: seq<bool>, es: seq<Entry>,
                     rows: seq<Row>, dummies: nat, w: nat)
    requires EntriesFor(gens, finished, es, w) && Fits(gens, w) && RowsFor(reqs, gens, rows)
    requires |rows| == |gens| + dummies
    ensures Answers(reqs, gens, es, RowPasses(rows, InputsAll(gens, es) + DummyInputs(dummies, w)))
  {
    var inputs := InputsAll(gens, es) + DummyInputs(dummies, w);
    var pss := RowPasses(rows, inputs);
    forall i | 0 <= i < |reqs|
      ensures |pss[i]| == es[i].padded && es[i].drafts == gens[i].outputs[gens[i].verified..]
      ensures pss[i][..|es[i].drafts|] == WindowPasses(reqs[i].job, gens[i])
    {
      InputsFit(gens[i], es[i], finished[i], true, w);
      var n := |es[i].drafts|;
      assert inputs[i] == inputs[i][..n] + inputs[i][n..];
      PaddingIsInert(rows[i].kernel, rows[i].prefix, inputs[i][..n], inputs[i][n..]);
    }
  }

  /** The entries a pass leaves in a request's own slots, and what remains after a rollback. */
  lemma StoredAndReleased(job: Job, g: Generation, stored: seq<KV>)
    requires Shape(job, g) && Unverified(g) > 0
    requires stored == g.cache[..|job.start.cache| + g.verified - 1] + KVs(WindowPasses(job, g))
    ensures |stored| == |g.cache| && RolledBack(job, g) <= |stored|
    ensures stored[..|stored| - RolledBack(job, g)] == Committed(job, g).cache
  {
    var passes, kept := WindowPasses(job, g), Kept(job, g);
    assert |passes| - RolledBack(job, g) == |kept|;
    assert KVs(kept) == KVs(passes)[..|kept|];
  }

  /** A request after the pass and before the comparison. */
  ghost function Overwritten(job: Job, v: ReqValue): ReqValue
    requires PendingValue(job, v)
  {
    var cache := v.gen.cache[..|job.start.cache| + v.gen.verified - 1] + KVs(WindowPasses(job, v.gen));
    v.(gen := v.gen.(cache := cache))
  }

  /** Compares a window with the answers to it and rolls the request back to the last agreed token. */
  method CompareOne(r: Req, original: seq<Token>, answers: seq<Pass>, ghost g: Generation) returns (rolledBack: nat)
    requires Shape(r.job, g) && Unverified(g) > 0
    requires r.outputIds == g.outputs && r.verifiedTokens == g.verified && r.logprobs == g.logprobs
    requires original == g.outputs[g.verified..] && answers == WindowPasses(r.job, g)
    modifies r
    ensures rolledBack == RolledBack(r.job, g)
    ensures var c := Committed(r.job, g);
            r.outputIds == c.outputs && r.verifiedTokens == c.verified && r.logprobs == c.logprobs
    ensures r.finishedReason == if Agreed(r.job, g) < Unverified(g) then None else old(r.finishedReason)
    ensures r.verificationWindows == old(r.verificationWindows) + 1
    ensures r.tokensRolledBack == old(r.tokensRolledBack) + rolledBack
  {
    hide WindowPasses;
    hide FirstMismatch;
    hide Committed;
    CompareCommits(r.job, g, Agreed(r.job, g));
    CommitExtent(r.job, g);
    var mismatch;
    mismatch, rolledBack := r.Compare(original, Tokens(answers), Logprobs(answers));
    r.Settle(|original|, rolledBack);
  }

  /** After that, the entries of the positions that the request lost are no longer its own. */
  method VerifyOne(r: Req, original: seq<Token>, answers: seq<Pass>, ghost m: Memory, ghost v: ReqValue)
    returns (rolledBack: nat)
    requires PendingValue(r.job, v) && r.Value(m) == Overwritten(r.job, v)
    requires original == v.gen.outputs[v.gen.verified..] && answers == WindowPasses(r.job, v.gen)
    modifies r
    ensures r.Value(m) == Verified(r.job, v) && rolledBack == RolledBack(r.job, v.gen)
  {
    hide WindowPasses;
    hide Committed;
    hide Agreed;
    hide RolledBack;
    ghost var stored := CacheOf(m, r.poolIdx, r.SeqLen());
    StoredAndReleased(r.job, v.gen, stored);
    rolledBack := CompareOne(r, original, answers, v.gen);
    CommitExtent(r.job, v.gen);
    ShorterCache(m, r.poolIdx, |stored|, r.SeqLen());
  }

  lemma CommitExtent(job: Job, g: Generation)
    requires Shape(job, g) && Unverified(g) > 0
    ensures |Committed(job, g).outputs| == Committed(job, g).verified == |g.outputs| - RolledBack(job, g)
    ensures |Committed(job, g).cache| == |g.cache| - RolledBack(job, g)
  {
  }

  lemma ShorterCache(m: Memory, req: nat, n: nat, k: nat)
    requires k <= n
    ensures CacheOf(m, req, k) == CacheOf(m, req, n)[..k]
  {
  }

  method BatchRows(m: Memory, reqs: seq<Req>, numDummies: nat, dummyKernel: Kernel, ghost vals: seq<ReqValue>)
    returns (rows: seq<Row>)
    requires Holds(reqs, m, vals) && Pending(reqs, vals)
    ensures RowsFor(reqs, GensOf(vals), rows) && |rows| == |reqs| + numDummies
  {
    rows := [];
    for i := 0 to |reqs|
      invariant |rows| == i
      invariant forall k :: 0 <= k < i ==>
          rows[k] == Row(reqs[k].job.kernel, vals[k].gen.cache[..|reqs[k].job.start.cache| + vals[k].gen.verified - 1])
    {
      var r := reqs[i];
      assert r.Value(m) == vals[i] && PendingValue(r.job, vals[i]);
      var context := |r.job.start.cache| + r.verifiedTokens - 1;
      ShorterCache(m, r.poolIdx, r.SeqLen(), context);
      rows := rows + [Row(r.job.kernel, CacheOf(m, r.poolIdx, context))];
    }
    rows := rows + Repeat(Row(dummyKernel, []), numDummies);
    assert forall i :: 0 <= i < |reqs| ==> PendingValue(reqs[i].job, vals[i]);
  }

  /** The flat input tokens and cache locations, dummies included.  Fails exactly when some request has more
      unverified tokens than a window holds. */
  method BuildBatch(info: LLM42Info, reqs: seq<Req>, numDummies: nat, w: nat, ghost gens: seq<Generation>,
                    ghost finished: seq<bool>, ghost es: seq<Entry>)
    returns (b: Option<VerifyBatch>)
    requires info.Describes(es) && w >= 1 && Outputs(reqs, gens) && EntriesFor(gens, finished, es, w)
    ensures b.Some? <==> Fits(gens, w)
    ensures b.Some? ==> b.value == VerifyBatch(Flatten(InputsAll(gens, es) + DummyInputs(numDummies, w)),
                                               Flatten(BatchLocs(PlacesOf(reqs), gens, es, numDummies, w)))
  {
    hide Flatten;
    hide LocsOf;
    hide InputsOf;
    hide PaddedAll;
    PoolSuffices(es, |reqs| + numDummies, w);
    var padding := PaddingCacheLocs(info.totalPaddingCacheSlots, |reqs| + numDummies, w);
    var own := info.PrepareVerifyBatch(reqs, padding.value, gens, es);
    BatchFitsIff(PlacesOf(reqs), gens, finished, es, true, w);
    if own.None? {
      return None;
    }
    FlattenConcat(InputsAll(gens, es), DummyInputs(numDummies, w));
    FlattenConcat(LocsAll(PlacesOf(reqs), gens, es), DummyLocs(numDummies, w));
    b := Some(VerifyBatch(own.value.inputIds + Flatten(DummyInputs(numDummies, w)),
                          own.value.outCacheLoc + Flatten(DummyLocs(numDummies, w))));
  }

  // ----- the pass and the memory

  function KvRows(pss: seq<seq<Pass>>): (kvs: seq<seq<KV>>)
    ensures |kvs| == |pss| && forall i :: 0 <= i < |pss| ==> kvs[i] == KVs(pss[i])
  {
    seq(|pss|, i requires 0 <= i < |pss| => KVs(pss[i]))
  }

  lemma {:induction false} KvsOfFlat(pss: seq<seq<Pass>>)
    ensures KVs(Flatten(pss)) == Flatten(KvRows(pss))
    decreases |pss|
  {
    if pss != [] {
      var last := |pss| - 1;
      KvsOfFlat(pss[..last]);
      assert KvRows(pss)[..last] == KvRows(pss[..last]);
    }
  }

  /** Every token of a batch has a place. */
  lemma PlacesForAll(places: seq<Place>, gens: seq<Generation>, finished: seq<bool>, es: seq<Entry>, rows: seq<Row>,
                     dummies: nat, w: nat)
    requires EntriesFor(gens, finished, es, w) && Fits(gens, w) && |places| == |gens| && |rows| == |gens| + dummies
    ensures SameShape(BatchLocs(places, gens, es, dummies, w),
                      KvRows(RowPasses(rows, InputsAll(gens, es) + DummyInputs(dummies, w))))
  {
    var locs := BatchLocs(places, gens, es, dummies, w);
    var inputs := InputsAll(gens, es) + DummyInputs(dummies, w);
    forall i | 0 <= i < |locs|
      ensures |locs[i]| == |inputs[i]|
    {
      if i < |gens| {
        InputsFit(gens[i], es[i], finished[i], true, w);
      }
    }
  }

  /** Every request has a slot for every position but that of its last token. */
  ghost predicate HasSlots(reqs: seq<Req>, vals: seq<ReqValue>, t: Table)
  {
    && |reqs| == |vals|
    && forall i :: 0 <= i < |reqs| ==> Mapped(t, Place(reqs[i].poolIdx, |reqs[i].job.start.cache|), vals[i].gen)
  }

  lemma AllNamed(t: Table, reqs: seq<Req>, vals: seq<ReqValue>, finished: seq<bool>, es: seq<Entry>, dummies: nat, w: nat)
    requires HasSlots(reqs, vals, t) && EntriesFor(GensOf(vals), finished, es, w) && Fits(GensOf(vals), w)
    requires Reserves(t, |reqs| + dummies, w)
    ensures var locs := Flatten(BatchLocs(PlacesOf(reqs), GensOf(vals), es, dummies, w));
            forall k :: 0 <= k < |locs| ==> Names(t, locs[k])
  {
    hide Mapped;
    hide Names;
    hide Flatten;
    hide BatchLocs;
    WholeBatchIsNamed(t, PlacesOf(reqs), GensOf(vals), es, dummies, w);
  }

  /** What the memory holds for a request of the batch after the pass. */
  lemma MemoryAfter(m: Memory, m': Memory, reqs: seq<Req>, vals: seq<ReqValue>, finished: seq<bool>, es: seq<Entry>,
                    dummies: nat, w: nat, pss: seq<seq<Pass>>)
    requires Distinct(reqs) && Pending(reqs, vals) && Holds(reqs, m, vals)
    requires EntriesFor(GensOf(vals), finished, es, w) && Fits(GensOf(vals), w)
    requires Answers(reqs, GensOf(vals), es, pss)
    requires SameShape(BatchLocs(PlacesOf(reqs), GensOf(vals), es, dummies, w), KvRows(pss))
    requires m' == Stored(m, BatchLocs(PlacesOf(reqs), GensOf(vals), es, dummies, w), KvRows(pss))
    requires Backed(m.table) && HasSlots(reqs, vals, m.table)
    ensures Holds(reqs, m', OverwrittenAll(reqs, vals)) && KeepsOthers(reqs, m, m')
  {
    hide Backed;
    hide Stored;
    hide BatchLocs;
    var places, gens := PlacesOf(reqs), GensOf(vals);
    forall i | 0 <= i < |reqs|
      ensures reqs[i].Value(m') == Overwritten(reqs[i].job, vals[i])
    {
      assert PendingValue(reqs[i].job, vals[i]) && reqs[i].Value(m) == vals[i];
      BatchOverwritesDrafts(m, places, gens, es, dummies, w, KvRows(pss), i);
      OwnEntries(m, m', reqs[i], vals[i], pss[i]);
    }
    forall req: nat, n: nat | (forall i :: 0 <= i < |reqs| ==> reqs[i].poolIdx != req)
      ensures CacheOf(m', req, n) == CacheOf(m, req, n)
    {
      OthersKeepTheirs(m, places, gens, es, dummies, w, KvRows(pss), req, n);
    }
  }

  lemma OwnEntries(m: Memory, m': Memory, r: Req, v: ReqValue, ps: seq<Pass>)
    requires PendingValue(r.job, v) && r.Value(m) == v
    requires Unverified(v.gen) <= |ps| && ps[..Unverified(v.gen)] == WindowPasses(r.job, v.gen)
    requires var context := |r.job.start.cache| + v.gen.verified - 1;
             CacheOf(m', r.poolIdx, context + Unverified(v.gen))
             == CacheOf(m, r.poolIdx, context) + KVs(ps)[..Unverified(v.gen)]
    ensures r.Value(m') == Overwritten(r.job, v)
  {
    hide WindowPasses;
    var n, context := Unverified(v.gen), |r.job.start.cache| + v.gen.verified - 1;
    assert KVs(ps)[..n] == KVs(ps[..n]);
    ShorterCache(m, r.poolIdx, r.SeqLen(), context);
  }

  /** Requests outside the batch see the same entries before and after. */
  ghost predicate KeepsOthers(reqs: seq<Req>, m: Memory, m': Memory)
  {
    forall req: nat, n: nat :: (forall i :: 0 <= i < |reqs| ==> reqs[i].poolIdx != req) ==>
      CacheOf(m', req, n) == CacheOf(m, req, n)
  }

  /** Runs the real windows and the dummies in one pass, which stores its entries. */
  method ForwardBatch(pool: KvPool, reqs: seq<Req>, b: VerifyBatch, padded: seq<nat>, numDummies: nat, w: nat,
                      dummyKernel: Kernel, ghost vals: seq<ReqValue>, ghost finished: seq<bool>, ghost es: seq<Entry>)
    returns (passes: seq<Pass>, ghost pss: seq<seq<Pass>>)
    requires Distinct(reqs) && Pending(reqs, vals) && Holds(reqs, pool.entries, vals)
    requires Backed(pool.entries.table) && HasSlots(reqs, vals, pool.entries.table)
    requires Reserves(pool.entries.table, |reqs| + numDummies, w)
    requires EntriesFor(GensOf(vals), finished, es, w) && Fits(GensOf(vals), w)
    requires |padded| == |reqs| + numDummies && padded[|reqs|..] == Repeat(w, numDummies)
    requires forall i :: 0 <= i < |reqs| ==> padded[i] == es[i].padded
    requires b == VerifyBatch(Flatten(InputsAll(GensOf(vals), es) + DummyInputs(numDummies, w)),
                              Flatten(BatchLocs(PlacesOf(reqs), GensOf(vals), es, numDummies, w)))
    modifies pool
    ensures passes == Flatten(pss) && Answers(reqs, GensOf(vals), es, pss)
    ensures Holds(reqs, pool.entries, OverwrittenAll(reqs, vals)) && KeepsOthers(reqs, old(pool.entries), pool.entries)
    ensures pool.entries.table == old(pool.entries.table)
  {
    hide Backed;
    hide Written;
    hide BatchLocs;
    hide Flatten;
    hide Req.Value;
    hide ForwardPass;
    hide Answers;
    ghost var m, gens := pool.entries, GensOf(vals);
    var rows := BatchRows(pool.entries, reqs, numDummies, dummyKernel, vals);
    pss := RowPasses(rows, InputsAll(gens, es) + DummyInputs(numDummies, w));
    BatchForward(reqs, gens, finished, es, rows, padded, b.inputIds, numDummies, w);
    passes := ForwardPass(rows, padded, b.inputIds);
    PlacesForAll(PlacesOf(reqs), gens, finished, es, rows, numDummies, w);
    SameTotal(BatchLocs(PlacesOf(reqs), gens, es, numDummies, w), KvRows(pss));
    KvsOfFlat(pss);
    AllNamed(pool.entries.table, reqs, vals, finished, es, numDummies, w);
    pool.Store(b.outCacheLoc, passes);
    MemoryAfter(m, pool.entries, reqs, vals, finished, es, numDummies, w, pss);
  }

  lemma BatchForward(reqs: seq<Req>, gens: seq<Generation>, finished: seq<bool>, es: seq<Entry>, rows: seq<Row>,
                     padded: seq<nat>, inputIds: seq<Token>, dummies: nat, w: nat)
    requires EntriesFor(gens, finished, es, w) && Fits(gens, w) && RowsFor(reqs, gens, rows)
    requires |rows| == |padded| == |gens| + dummies
    requires forall i :: 0 <= i < |gens| ==> padded[i] == es[i].padded
    requires padded[|gens|..] == Repeat(w, dummies)
    requires inputIds == Flatten(InputsAll(gens, es) + DummyInputs(dummies, w))
    ensures Sum(padded) == |inputIds|
    ensures var pss := RowPasses(rows, InputsAll(gens, es) + DummyInputs(dummies, w));
            ForwardPass(rows, padded, inputIds) == Flatten(pss) && Answers(reqs, gens, es, pss)
  {
    ShapeIsFixed(gens, finished, es, dummies, w);
    PaddedToWindow(padded, gens, finished, es, dummies, w);
    ForwardPassIsRowwise(rows, InputsAll(gens, es) + DummyInputs(dummies, w));
    BatchAnswers(reqs, gens, finished, es, rows, dummies, w);
  }

  lemma PaddedToWindow(padded: seq<nat>, gens: seq<Generation>, finished: seq<bool>, es: seq<Entry>, dummies: nat, w: nat)
    requires EntriesFor(gens, finished, es, w) && Fits(gens, w) && |padded| == |gens| + dummies
    requires forall i :: 0 <= i < |gens| ==> padded[i] == es[i].padded
    requires padded[|gens|..] == Repeat(w, dummies)
    ensures padded == Repeat(w, |gens| + dummies)
  {
    forall i | 0 <= i < |padded|
      ensures padded[i] == w
    {
      if i >= |gens| {
        assert padded[|gens|..][i - |gens|] == w;
      }
    }
  }

  /** The requests' values, one by one. */
  ghost predicate Holds(reqs: seq<Req>, m: Memory, vals: seq<ReqValue>)
    reads reqs
  {
    |reqs| == |vals| && forall i :: 0 <= i < |reqs| ==> reqs[i].Value(m) == vals[i]
  }

  ghost predicate Pending(reqs: seq<Req>, vals: seq<ReqValue>)
  {
    |reqs| == |vals| && forall i :: 0 <= i < |reqs| ==> PendingValue(reqs[i].job, vals[i])
  }

  ghost function GensOf(vals: seq<ReqValue>): (gens: seq<Generation>)
    ensures |gens| == |vals| && forall i :: 0 <= i < |vals| ==> gens[i] == vals[i].gen
  {
    seq(|vals|, i requires 0 <= i < |vals| => vals[i].gen)
  }

  ghost function OverwrittenAll(reqs: seq<Req>, vals: seq<ReqValue>): (targets: seq<ReqValue>)
    requires Pending(reqs, vals)
    ensures |targets| == |reqs|
    ensures forall i :: 0 <= i < |reqs| ==> targets[i] == Overwritten(reqs[i].job, vals[i])
  {
    seq(|reqs|, i requires 0 <= i < |reqs| => Overwritten(reqs[i].job, vals[i]))
  }

  /** Every request verified on its own. */
  ghost function VerifiedAll(reqs: seq<Req>, vals: seq<ReqValue>): (targets: seq<ReqValue>)
    requires Pending(reqs, vals)
    ensures |targets| == |reqs|
    ensures forall i :: 0 <= i < |reqs| ==> targets[i] == Verified(reqs[i].job, vals[i])
  {
    seq(|reqs|, i requires 0 <= i < |reqs| => Verified(reqs[i].job, vals[i]))
  }

  ghost function RolledBackAll(reqs: seq<Req>, vals: seq<ReqValue>): (ns: seq<nat>)
    requires Pending(reqs, vals)
    ensures |ns| == |reqs|
    ensures forall i :: 0 <= i < |reqs| ==> ns[i] == RolledBack(reqs[i].job, vals[i].gen)
  {
    seq(|reqs|, i requires 0 <= i < |reqs| => RolledBack(reqs[i].job, vals[i].gen))
  }

  method VerifyAndCompare(l: Lists, reqs: seq<Req>, passes: seq<Pass>, ghost m: Memory,
                          ghost vals: seq<ReqValue>, ghost es: seq<Entry>, ghost pss: seq<seq<Pass>>)
    returns (rolledBack: seq<nat>)
    requires Distinct(reqs) && Pending(reqs, vals) && Holds(reqs, m, OverwrittenAll(reqs, vals)) && ListsOf(es, l)
    requires Answers(reqs, GensOf(vals), es, pss) && passes == Flatten(pss)
    modifies reqs
    ensures Holds(reqs, m, VerifiedAll(reqs, vals)) && rolledBack == RolledBackAll(reqs, vals)
  {
    ghost var gens := GensOf(vals);
    assert forall i :: 0 <= i < |gens| ==> PendingValue(reqs[i].job, vals[i]);
    var originals, answers := CutAnswers(l, passes, |reqs|, reqs, gens, es, pss);
    rolledBack := CompareEach(reqs, originals, answers, m, vals, VerifiedAll(reqs, vals), RolledBackAll(reqs, vals));
  }

  ghost function DraftsAll(gens: seq<Generation>): (drafts: seq<seq<Token>>)
    requires forall i :: 0 <= i < |gens| ==> gens[i].verified <= |gens[i].outputs|
    ensures |drafts| == |gens|
    ensures forall i :: 0 <= i < |gens| ==> drafts[i] == gens[i].outputs[gens[i].verified..]
  {
    seq(|gens|, i requires 0 <= i < |gens| => gens[i].outputs[gens[i].verified..])
  }

  ghost function PassesAll(reqs: seq<Req>, gens: seq<Generation>): (passes: seq<seq<Pass>>)
    requires |reqs| == |gens|
    requires forall i :: 0 <= i < |reqs| ==> Shape(reqs[i].job, gens[i]) && Unverified(gens[i]) > 0
    ensures |passes| == |gens|
    ensures forall i :: 0 <= i < |gens| ==> passes[i] == WindowPasses(reqs[i].job, gens[i])
  {
    seq(|gens|, i requires 0 <= i < |gens| => WindowPasses(reqs[i].job, gens[i]))
  }

  /** Cuts the flat lists up again, request by request and without the padding. */
  method CutAnswers(l: Lists, passes: seq<Pass>, count: nat, ghost reqs: seq<Req>, ghost gens: seq<Generation>,
                    ghost es: seq<Entry>, ghost pss: seq<seq<Pass>>)
    returns (originals: seq<seq<Token>>, answers: seq<seq<Pass>>)
    requires ListsOf(es, l) && Answers(reqs, gens, es, pss) && passes == Flatten(pss) && count == |reqs|
    requires forall i :: 0 <= i < |gens| ==> gens[i].verified <= |gens[i].outputs|
    ensures originals == DraftsAll(gens) && answers == PassesAll(reqs, gens)
  {
    ghost var drafts, windows := DraftsAll(gens), PassesAll(reqs, gens);
    originals, answers := [], [];
    var offset: nat := 0;
    for i := 0 to count
      invariant offset == |Flatten(PaddedAll(es)[..i])|
      invariant originals == drafts[..i] && answers == windows[..i]
    {
      var original, answer, next := AnswersAt(l, passes, i, offset, reqs, gens, es, pss);
      PrefixNext(drafts, i);
      PrefixNext(windows, i);
      originals, answers, offset := originals + [original], answers + [answer], next;
    }
    assert drafts[..count] == drafts && windows[..count] == windows;
  }

  method CompareEach(reqs: seq<Req>, originals: seq<seq<Token>>, answers: seq<seq<Pass>>, ghost m: Memory,
                     ghost vals: seq<ReqValue>, ghost targets: seq<ReqValue>, ghost rolls: seq<nat>)
    returns (rolledBack: seq<nat>)
    requires Distinct(reqs) && Pending(reqs, vals) && Holds(reqs, m, OverwrittenAll(reqs, vals))
    requires targets == VerifiedAll(reqs, vals) && rolls == RolledBackAll(reqs, vals)
    requires originals == DraftsAll(GensOf(vals)) && answers == PassesAll(reqs, GensOf(vals))
    modifies reqs
    ensures Holds(reqs, m, targets) && rolledBack == rolls
  {
    hide Verified;
    hide Overwritten;
    hide RolledBack;
    hide WindowPasses;
    ghost var stored := OverwrittenAll(reqs, vals);
    rolledBack := [];
    for i := 0 to |reqs|
      invariant rolledBack == rolls[..i]
      invariant forall k :: 0 <= k < i ==> reqs[k].Value(m) == targets[k]
      invariant forall k :: i <= k < |reqs| ==> reqs[k].Value(m) == stored[k]
    {
      var rolled := VerifyOne(reqs[i], originals[i], answers[i], m, vals[i]);
      rolledBack := rolledBack + [rolled];
    }
  }

  ghost function Finished(ss: seq<Snapshot>): (fs: seq<bool>)
    ensures |fs| == |ss| && forall i :: 0 <= i < |ss| ==> fs[i] == ss[i].finished
  {
    seq(|ss|, i requires 0 <= i < |ss| => ss[i].finished)
  }

  lemma WindowsOf(reqs: seq<Req>, m: Memory, vals: seq<ReqValue>, w: nat)
    requires w >= 1 && Holds(reqs, m, vals) && Pending(reqs, vals)
    ensures (forall r :: r in reqs ==> r.verifiedTokens <= |r.outputIds|) && Outputs(reqs, GensOf(vals))
    ensures EntriesFor(GensOf(vals), Finished(Snapshots(reqs)), EntriesOf(Snapshots(reqs), true, w), w)
  {
    forall i | 0 <= i < |reqs|
      ensures 1 <= reqs[i].verifiedTokens < |reqs[i].outputIds|
      ensures vals[i].gen.outputs == reqs[i].outputIds && vals[i].gen.verified == reqs[i].verifiedTokens
    {
      assert reqs[i].Value(m) == vals[i] && PendingValue(reqs[i].job, vals[i]);
    }
    EntriesInOrder(Snapshots(reqs), true, w);
  }

  /** The metadata of a batch, dummies included. */
  method BatchInfo(reqs: seq<Req>, numDummies: nat, w: nat, ghost es: seq<Entry>) returns (info: LLM42Info)
    requires forall r :: r in reqs ==> r.verifiedTokens <= |r.outputIds|
    requires es == EntriesOf(Snapshots(reqs), true, w) && |es| == |reqs|
    ensures fresh(info) && info.Describes(es)
    ensures |info.paddedLens| == |reqs| + numDummies && info.paddedLens[|reqs|..] == Repeat(w, numDummies)
  {
    info := new LLM42Info.FromRequests(reqs, true, w, es);
    info.AppendDummyEntries(numDummies, w, es);
  }

  /** Verifies a fixed-size batch.  An overfull window is an error and nothing changes; otherwise every request is
      left exactly as a verification of it alone would leave it.  Either way no other request notices. */
  method RunVerification(pool: KvPool, reqs: seq<Req>, numDummies: nat, w: nat, dummyKernel: Kernel,
                         ghost vals: seq<ReqValue>)
    returns (ok: bool, rolledBack: seq<nat>)
    requires Distinct(reqs) && w >= 1 && Holds(reqs, pool.entries, vals) && Pending(reqs, vals)
    requires Backed(pool.entries.table) && HasSlots(reqs, vals, pool.entries.table)
    requires Reserves(pool.entries.table, |reqs| + numDummies, w)
    modifies reqs, pool
    ensures ok <==> Fits(GensOf(vals), w)
    ensures Holds(reqs, pool.entries, if ok then VerifiedAll(reqs, vals) else vals)
    ensures KeepsOthers(reqs, old(pool.entries), pool.entries) && pool.entries.table == old(pool.entries.table)
    ensures ok ==> rolledBack == RolledBackAll(reqs, vals)
  {
    WindowsOf(reqs, pool.entries, vals, w);
    ghost var finished, es := Finished(Snapshots(reqs)), EntriesOf(Snapshots(reqs), true, w);
    var info := BatchInfo(reqs, numDummies, w, es);
    ok, rolledBack := VerifyBuilt(pool, info, reqs, numDummies, w, dummyKernel, vals, finished, es);
  }

  method VerifyBuilt(pool: KvPool, info: LLM42Info, reqs: seq<Req>, numDummies: nat, w: nat, dummyKernel: Kernel,
                     ghost vals: seq<ReqValue>, ghost finished: seq<bool>, ghost es: seq<Entry>)
    returns (ok: bool, rolledBack: seq<nat>)
    requires Distinct(reqs) && w >= 1 && Holds(reqs, pool.entries, vals) && Pending(reqs, vals)
    requires Backed(pool.entries.table) && HasSlots(reqs, vals, pool.entries.table)
    requires Reserves(pool.entries.table, |reqs| + numDummies, w)
    requires Outputs(reqs, GensOf(vals)) && info.Describes(es) && EntriesFor(GensOf(vals), finished, es, w)
    requires |info.paddedLens| == |reqs| + numDummies && info.paddedLens[|reqs|..] == Repeat(w, numDummies)
    modifies reqs, pool
    ensures ok <==> Fits(GensOf(vals), w)
    ensures Holds(reqs, pool.entries, if ok then VerifiedAll(reqs, vals) else vals)
    ensures KeepsOthers(reqs, old(pool.entries), pool.entries) && pool.entries.table == old(pool.entries.table)
    ensures ok ==> rolledBack == RolledBackAll(reqs, vals)
  {
    hide Backed;
    hide BatchLocs;
    hide Flatten;
    hide PaddedAll;
    hide Req.Value;
    hide Verified;
    hide Overwritten;
    hide Answers;
    hide RolledBack;
    var b := BuildBatch(info, reqs, numDummies, w, GensOf(vals), finished, es);
    ok := b.Some?;
    rolledBack := [];
    if ok {
      var n := info.numRealRequests;
      var l := Lists(info.originalOutputs, info.outputLens[..n], info.paddedLens[..n], info.paddingMasks[..n],
                     info.totalPaddingCacheSlots);
      assert ListsOf(es, l);
      assert forall i :: 0 <= i < |reqs| ==> info.paddedLens[i] == l.padded[i];
      var passes, pss := ForwardBatch(pool, reqs, b.value, info.paddedLens, numDummies, w, dummyKernel, vals, finished, es);
      rolledBack := VerifyAndCompare(l, reqs, passes, pool.entries, vals, es, pss);
    }
  }
}
