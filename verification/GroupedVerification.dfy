/** Which requests are verified after a decode iteration: all that are ready, in batches of a fixed size,
    with requests that are not ready yet and dummies filling up the last batch. */
module GroupedVerification {
  import opened Arithmetic
  import opened Sequences
  import opened Verifier
  import opened DecodeVerifyRollback
  import opened KvMemory
  import opened LLM42Worker
  import opened VerificationRun

  ghost predicate ReadyValue(v: ReqValue, w: nat)
    requires v.gen.verified <= |v.gen.outputs|
  {
    Unverified(v.gen) > 0 && (v.reason.Some? || Unverified(v.gen) >= w)
  }

  ghost predicate WellFormed(reqs: seq<Req>, vals: seq<ReqValue>)
  {
    |reqs| == |vals| && forall i :: 0 <= i < |reqs| ==> Shape(reqs[i].job, vals[i].gen)
  }

  /** Distinct positions of requests with something to verify. */
  ghost predicate Picks(idx: seq<nat>, vals: seq<ReqValue>)
  {
    && (forall k :: 0 <= k < |idx| ==> idx[k] < |vals| && vals[idx[k]].gen.verified < |vals[idx[k]].gen.outputs|)
    && forall k, l :: 0 <= k < l < |idx| ==> idx[k] != idx[l]
  }

  ghost predicate Disjoint(a: seq<nat>, b: seq<nat>)
  {
    forall k, l :: 0 <= k < |a| && 0 <= l < |b| ==> a[k] != b[l]
  }

  /** The positions below `i` of the requests that trigger verification, or of those that merely could
      take part. */
  ghost function Listed(vals: seq<ReqValue>, i: nat, w: nat, ready: bool): (idx: seq<nat>)
    requires i <= |vals| && forall k :: 0 <= k < |vals| ==> vals[k].gen.verified <= |vals[k].gen.outputs|
    ensures forall k :: 0 <= k < |idx| ==> idx[k] < i
    ensures forall k :: k in idx <==> 0 <= k < i && Unverified(vals[k].gen) > 0 && (ReadyValue(vals[k], w) <==> ready)
    ensures forall k, l :: 0 <= k < l < |idx| ==> idx[k] < idx[l]
  {
    if i == 0 then []
    else
      var rest := Listed(vals, i - 1, w, ready);
      if Unverified(vals[i - 1].gen) > 0 && (ReadyValue(vals[i - 1], w) <==> ready) then rest + [i - 1] else rest
  }

  method Classify(reqs: seq<Req>, w: nat, ghost m: Memory, ghost vals: seq<ReqValue>)
    returns (ready: seq<nat>, notReady: seq<nat>)
    requires Holds(reqs, m, vals) && forall k :: 0 <= k < |vals| ==> vals[k].gen.verified <= |vals[k].gen.outputs|
    ensures ready == Listed(vals, |vals|, w, true) && notReady == Listed(vals, |vals|, w, false)
  {
    hide CacheOf;
    ready, notReady := [], [];
    for i := 0 to |reqs|
      invariant ready == Listed(vals, i, w, true) && notReady == Listed(vals, i, w, false)
    {
      var r := reqs[i];
      assert r.Value(m) == vals[i];
      var unverified := |r.outputIds| - r.verifiedTokens;
      if unverified > 0 {
        if r.finishedReason.Some? || unverified >= w {
          ready := ready + [i];
        } else {
          notReady := notReady + [i];
        }
      }
    }
  }

  /** The next batch: ready requests first, then others as long as there is room. */
  method NextBatch(ready: seq<nat>, notReady: seq<nat>, fixedSize: nat, r0: nat, n0: nat)
    returns (batch: seq<nat>, readyIdx: nat, notReadyIdx: nat)
    requires r0 < |ready| && n0 <= |notReady| && fixedSize >= 1
    ensures r0 < readyIdx <= |ready| && n0 <= notReadyIdx <= |notReady|
    ensures batch == ready[r0..readyIdx] + notReady[n0..notReadyIdx] && |batch| <= fixedSize
    ensures |batch| < fixedSize ==> readyIdx == |ready| && notReadyIdx == |notReady|
    ensures notReadyIdx > n0 ==> readyIdx == |ready|
  {
    batch, readyIdx, notReadyIdx := [], r0, n0;
    while |batch| < fixedSize && readyIdx < |ready|
      invariant r0 <= readyIdx <= |ready| && batch == ready[r0..readyIdx] && |batch| <= fixedSize
    {
      batch := batch + [ready[readyIdx]];
      readyIdx := readyIdx + 1;
    }
    while |batch| < fixedSize && notReadyIdx < |notReady|
      invariant n0 <= notReadyIdx <= |notReady| && |batch| <= fixedSize
      invariant batch == ready[r0..readyIdx] + notReady[n0..notReadyIdx]
      invariant notReadyIdx > n0 ==> readyIdx == |ready|
    {
      batch := batch + [notReady[notReadyIdx]];
      notReadyIdx := notReadyIdx + 1;
    }
  }

  function Pick<T>(xs: seq<T>, idx: seq<nat>): (ys: seq<T>)
    requires forall k :: 0 <= k < |idx| ==> idx[k] < |xs|
    ensures |ys| == |idx| && forall k :: 0 <= k < |idx| ==> ys[k] == xs[idx[k]]
  {
    seq(|idx|, k requires 0 <= k < |idx| => xs[idx[k]])
  }

  /** What a request must be once the requests at `done` have been verified. */
  ghost function Expected(reqs: seq<Req>, vals: seq<ReqValue>, done: seq<nat>): (es: seq<ReqValue>)
    requires WellFormed(reqs, vals) && Picks(done, vals)
    ensures |es| == |vals|
    ensures forall i :: 0 <= i < |vals| && i !in done ==> es[i] == vals[i]
    ensures forall i :: 0 <= i < |vals| && i in done ==>
              PendingValue(reqs[i].job, vals[i]) && es[i] == Verified(reqs[i].job, vals[i])
  {
    seq(|vals|, i requires 0 <= i < |vals| =>
      if i in done then assert Shape(reqs[i].job, vals[i].gen); Verified(reqs[i].job, vals[i]) else vals[i])
  }

  ghost predicate AllFit(vals: seq<ReqValue>, w: nat)
  {
    forall i :: 0 <= i < |vals| ==> |vals[i].gen.outputs| - vals[i].gen.verified <= w
  }

  lemma PickedBefore(reqs: seq<Req>, m: Memory, batch: seq<nat>, vals: seq<ReqValue>, done: seq<nat>,
                     sub: seq<Req>, subVals: seq<ReqValue>)
    requires Distinct(reqs) && WellFormed(reqs, vals)
    requires Picks(done, vals) && Picks(batch, vals) && Disjoint(done, batch)
    requires Holds(reqs, m, Expected(reqs, vals, done))
    requires sub == Pick(reqs, batch) && subVals == Pick(vals, batch)
    ensures Holds(sub, m, subVals) && Pending(sub, subVals) && Distinct(sub)
  {
    forall k | 0 <= k < |sub|
      ensures sub[k].Value(m) == subVals[k] && PendingValue(sub[k].job, subVals[k])
    {
      var i := batch[k];
      assert i !in done;
      assert reqs[i].Value(m) == Expected(reqs, vals, done)[i];
      assert Shape(reqs[i].job, vals[i].gen);
    }
    forall k, l | 0 <= k < l < |sub|
      ensures sub[k] != sub[l] && sub[k].poolIdx != sub[l].poolIdx
    {
      assert batch[k] != batch[l];
    }
  }

  lemma PickedSlots(reqs: seq<Req>, t: Table, batch: seq<nat>, vals: seq<ReqValue>)
    requires HasSlots(reqs, vals, t) && forall k :: 0 <= k < |batch| ==> batch[k] < |reqs|
    ensures HasSlots(Pick(reqs, batch), Pick(vals, batch), t)
  {
    hide Mapped;
  }

  lemma PickedAfter(reqs: seq<Req>, m: Memory, batch: seq<nat>, vals: seq<ReqValue>, done: seq<nat>,
                    sub: seq<Req>, subVals: seq<ReqValue>)
    requires WellFormed(reqs, vals) && Picks(done, vals) && Picks(batch, vals) && Picks(done + batch, vals)
    requires sub == Pick(reqs, batch) && subVals == Pick(vals, batch) && Pending(sub, subVals)
    requires forall i :: 0 <= i < |reqs| && i !in batch ==> reqs[i].Value(m) == Expected(reqs, vals, done)[i]
    requires Holds(sub, m, VerifiedAll(sub, subVals))
    ensures Holds(reqs, m, Expected(reqs, vals, done + batch))
  {
    forall i | 0 <= i < |reqs|
      ensures reqs[i].Value(m) == Expected(reqs, vals, done + batch)[i]
    {
      if i in batch {
        var k :| 0 <= k < |batch| && batch[k] == i;
        assert sub[k].Value(m) == VerifiedAll(sub, subVals)[k];
      }
    }
  }

  lemma NotPicked(reqs: seq<Req>, batch: seq<nat>)
    requires Distinct(reqs) && forall k :: 0 <= k < |batch| ==> batch[k] < |reqs|
    ensures forall i :: 0 <= i < |reqs| && i !in batch ==> reqs[i] !in Pick(reqs, batch)
    ensures forall i, k :: 0 <= i < |reqs| && i !in batch && 0 <= k < |batch| ==>
              Pick(reqs, batch)[k].poolIdx != reqs[i].poolIdx
  {
    forall i, k | 0 <= i < |reqs| && i !in batch && 0 <= k < |batch|
      ensures reqs[i] != Pick(reqs, batch)[k] && Pick(reqs, batch)[k].poolIdx != reqs[i].poolIdx
    {
      assert batch[k] != i;
    }
  }

  /** The tokens that verification drops at these positions. */
  ghost function RollsOf(reqs: seq<Req>, vals: seq<ReqValue>, idx: seq<nat>): (rolls: seq<nat>)
    requires WellFormed(reqs, vals) && Picks(idx, vals)
    ensures |rolls| == |idx|
    ensures forall k :: 0 <= k < |idx| ==> rolls[k] == RolledBack(reqs[idx[k]].job, vals[idx[k]].gen)
  {
    seq(|idx|, k requires 0 <= k < |idx| =>
      assert Shape(reqs[idx[k]].job, vals[idx[k]].gen); RolledBack(reqs[idx[k]].job, vals[idx[k]].gen))
  }

  /** Who was rolled back, and by how much. */
  function Rollbacks(idx: seq<nat>, rolls: seq<nat>): (rs: seq<(nat, nat)>)
    requires |idx| == |rolls|
    decreases |idx|
  {
    if idx == [] then []
    else
      var last := |idx| - 1;
      Rollbacks(idx[..last], rolls[..last]) + if rolls[last] > 0 then [(idx[last], rolls[last])] else []
  }

  /** Exactly the requests that lost tokens are listed, each with their number. */
  lemma {:induction false} RollbackIsListed(idx: seq<nat>, rolls: seq<nat>, i: nat, n: nat)
    requires |idx| == |rolls|
    ensures (i, n) in Rollbacks(idx, rolls) <==> n > 0 && exists k :: 0 <= k < |idx| && idx[k] == i && rolls[k] == n
    decreases |idx|
  {
    if idx != [] {
      var last := |idx| - 1;
      RollbackIsListed(idx[..last], rolls[..last], i, n);
      if k :| 0 <= k < |idx| && idx[k] == i && rolls[k] == n {
        assert k < last ==> idx[..last][k] == i && rolls[..last][k] == n;
      }
    }
  }

  lemma RollbacksLast(idx: seq<nat>, rolls: seq<nat>)
    requires 0 < |idx| == |rolls|
    ensures var last := |idx| - 1;
            Rollbacks(idx, rolls)
            == Rollbacks(idx[..last], rolls[..last]) + if rolls[last] > 0 then [(idx[last], rolls[last])] else []
  {
  }

  lemma {:induction false} RollbacksConcat(a: seq<nat>, x: seq<nat>, b: seq<nat>, y: seq<nat>)
    requires |a| == |x| && |b| == |y|
    ensures Rollbacks(a + b, x + y) == Rollbacks(a, x) + Rollbacks(b, y)
    decreases |b|
  {
    if b == [] {
      assert a + b == a && x + y == x;
    } else {
      var last := |b| - 1;
      RollbacksConcat(a, x, b[..last], y[..last]);
      assert (a + b)[..|a| + last] == a + b[..last] && (x + y)[..|a| + last] == x + y[..last];
      RollbacksLast(a + b, x + y);
      RollbacksLast(b, y);
      hide Rollbacks;
      assert (a + b)[|a| + last] == b[last] && (x + y)[|a| + last] == y[last];
    }
  }

  method CollectRollbacks(idx: seq<nat>, rolls: seq<nat>) returns (rs: seq<(nat, nat)>)
    requires |idx| == |rolls|
    ensures rs == Rollbacks(idx, rolls)
  {
    rs := [];
    for k := 0 to |idx|
      invariant rs == Rollbacks(idx[..k], rolls[..k])
    {
      assert idx[..k + 1][..k] == idx[..k] && rolls[..k + 1][..k] == rolls[..k];
      if rolls[k] > 0 {
        rs := rs + [(idx[k], rolls[k])];
      }
    }
    assert idx[..|idx|] == idx && rolls[..|idx|] == rolls;
  }

  /** One batch more: the picked requests are verified, the others stay as they are. */
  method VerifyPicked(pool: KvPool, reqs: seq<Req>, batch: seq<nat>, fixedSize: nat, w: nat, dummyKernel: Kernel,
                      ghost vals: seq<ReqValue>, ghost done: seq<nat>)
    returns (ok: bool, rollbacks: seq<(nat, nat)>)
    requires Distinct(reqs) && WellFormed(reqs, vals) && w >= 1 && |batch| <= fixedSize
    requires Picks(done, vals) && Picks(batch, vals) && Disjoint(done, batch) && Picks(done + batch, vals)
    requires Holds(reqs, pool.entries, Expected(reqs, vals, done))
    requires Backed(pool.entries.table) && HasSlots(reqs, vals, pool.entries.table)
    requires Reserves(pool.entries.table, fixedSize, w)
    modifies reqs, pool
    ensures pool.entries.table == old(pool.entries.table)
    ensures ok <==> forall k :: 0 <= k < |batch| ==> Unverified(vals[batch[k]].gen) <= w
    ensures Holds(reqs, pool.entries, Expected(reqs, vals, if ok then done + batch else done))
    ensures ok ==> rollbacks == Rollbacks(batch, RollsOf(reqs, vals, batch))
  {
    hide Backed;
    hide HasSlots;
    hide Reserves;
    hide KeepsOthers;
    hide Verified;
    hide Rollbacks;
    hide RolledBack;
    hide Expected;
    hide Req.Value;
    var sub := Pick(reqs, batch);
    ghost var subVals := Pick(vals, batch);
    PickedBefore(reqs, pool.entries, batch, vals, done, sub, subVals);
    PickedSlots(reqs, pool.entries.table, batch, vals);
    NotPicked(reqs, batch);
    ghost var before := pool.entries;
    var rolledBack;
    ok, rolledBack := RunVerification(pool, sub, fixedSize - |batch|, w, dummyKernel, subVals);
    OthersKeepValues(reqs, batch, before, pool.entries);
    assert forall i :: 0 <= i < |reqs| && i !in batch ==> reqs[i].Value(before) == Expected(reqs, vals, done)[i];
    if ok {
      PickedAfter(reqs, pool.entries, batch, vals, done, sub, subVals);
      assert rolledBack == RollsOf(reqs, vals, batch);
      rollbacks := CollectRollbacks(batch, rolledBack);
    } else {
      PickedUnchanged(reqs, pool.entries, batch, vals, done, sub, subVals);
      rollbacks := [];
    }
  }

  lemma OthersKeepValues(reqs: seq<Req>, batch: seq<nat>, m: Memory, m': Memory)
    requires Distinct(reqs) && (forall k :: 0 <= k < |batch| ==> batch[k] < |reqs|) && KeepsOthers(Pick(reqs, batch), m, m')
    ensures forall i :: 0 <= i < |reqs| && i !in batch ==> reqs[i].Value(m') == reqs[i].Value(m)
  {
    NotPicked(reqs, batch);
  }

  lemma PickedUnchanged(reqs: seq<Req>, m: Memory, batch: seq<nat>, vals: seq<ReqValue>, done: seq<nat>,
                        sub: seq<Req>, subVals: seq<ReqValue>)
    requires WellFormed(reqs, vals) && Picks(done, vals) && Picks(batch, vals) && Disjoint(done, batch)
    requires sub == Pick(reqs, batch) && subVals == Pick(vals, batch) && Holds(sub, m, subVals)
    requires forall i :: 0 <= i < |reqs| && i !in batch ==> reqs[i].Value(m) == Expected(reqs, vals, done)[i]
    ensures Holds(reqs, m, Expected(reqs, vals, done))
  {
    forall i | 0 <= i < |reqs|
      ensures reqs[i].Value(m) == Expected(reqs, vals, done)[i]
    {
      if i in batch {
        var k :| 0 <= k < |batch| && batch[k] == i;
        assert sub[k].Value(m) == subVals[k];
        assert i !in done;
      }
    }
  }

  /** What has been verified after `r` ready and `n` other requests were taken. */
  ghost predicate Taken(done: seq<nat>, ready: seq<nat>, notReady: seq<nat>, r: nat, n: nat, vals: seq<ReqValue>)
  {
    && r <= |ready| && n <= |notReady| && Picks(done, vals)
    && forall x :: x in done <==> x in ready[..r] || x in notReady[..n]
  }

  lemma NotYetTaken(idx: seq<nat>, a: nat, b: nat, k: nat)
    requires Increasing(idx) && a <= k < b <= |idx|
    ensures idx[k] !in idx[..a]
  {
  }

  lemma TakeMore(done: seq<nat>, ready: seq<nat>, notReady: seq<nat>, r0: nat, n0: nat, r1: nat, n1: nat,
                 batch: seq<nat>, vals: seq<ReqValue>)
    requires Taken(done, ready, notReady, r0, n0, vals) && r0 <= r1 <= |ready| && n0 <= n1 <= |notReady|
    requires batch == ready[r0..r1] + notReady[n0..n1]
    requires Increasing(ready) && Increasing(notReady) && Picks(ready, vals) && Picks(notReady, vals) && Disjoint(ready, notReady)
    ensures Picks(batch, vals) && Disjoint(done, batch) && Picks(done + batch, vals)
    ensures Taken(done + batch, ready, notReady, r1, n1, vals)
  {
    forall k | 0 <= k < |batch|
      ensures batch[k] !in done
    {
      if k < r1 - r0 {
        NotYetTaken(ready, r0, r1, r0 + k);
        assert batch[k] == ready[r0 + k];
      } else {
        NotYetTaken(notReady, n0, n1, n0 + k - (r1 - r0));
        assert batch[k] == notReady[n0 + k - (r1 - r0)];
      }
    }
    assert ready[..r1] == ready[..r0] + ready[r0..r1];
    assert notReady[..n1] == notReady[..n0] + notReady[n0..n1];
  }

  lemma ListedPicks(vals: seq<ReqValue>, w: nat)
    requires forall k :: 0 <= k < |vals| ==> vals[k].gen.verified <= |vals[k].gen.outputs|
    ensures var ready, notReady := Listed(vals, |vals|, w, true), Listed(vals, |vals|, w, false);
            && Increasing(ready) && Increasing(notReady)
            && Picks(ready, vals) && Picks(notReady, vals) && Disjoint(ready, notReady)
  {
    var ready, notReady := Listed(vals, |vals|, w, true), Listed(vals, |vals|, w, false);
    assert forall k :: 0 <= k < |ready| ==> ready[k] in ready;
    assert forall k :: 0 <= k < |notReady| ==> notReady[k] in notReady;
  }

  // ----- how many others are taken along

  /** The places that the ready requests leave in their last batch, as far as there are others for them. */
  function Fillers(ready: nat, others: nat, fixedSize: nat): nat
    requires fixedSize >= 1
  {
    Min(others, (fixedSize - ready % fixedSize) % fixedSize)
  }

  /** The last batch is full unless there are too few others, and none begins with others only. */
  lemma FillersFill(ready: nat, others: nat, fixedSize: nat)
    requires fixedSize >= 1
    ensures var n := Fillers(ready, others, fixedSize);
            n <= others && n < fixedSize && (ready == 0 ==> n == 0) && (n < others ==> (ready + n) % fixedSize == 0)
  {
    RoundedUp(ready, fixedSize);
  }

  lemma RoundedUp(n: nat, size: nat)
    requires size >= 1
    ensures var d := (size - n % size) % size;
            0 <= d < size && (n + d) % size == 0 && (n == 0 ==> d == 0)
  {
    var q, m := n / size, n % size;
    if m == 0 {
      ModUnique(size, 1, 0, size);
    } else {
      ModUnique(size - m, 0, size - m, size);
      NextMultiple(n, q, m, size);
    }
  }

  lemma NextMultiple(n: nat, q: nat, m: nat, size: nat)
    requires 0 < m < size && n == q * size + m
    ensures (n + (size - m)) % size == 0
  {
    assert n + (size - m) == (q + 1) * size;
    ModUnique(n + (size - m), q + 1, 0, size);
  }

  /** While ready requests remain, only full batches of them have been taken. */
  ghost predicate Level(r: nat, n: nat, ready: nat, others: nat, fixedSize: nat)
    requires fixedSize >= 1
  {
    && (r < ready ==> n == 0 && r % fixedSize == 0)
    && (r == ready ==> n == Fillers(ready, others, fixedSize))
  }

  lemma ModAdd(r: nat, d: nat, size: nat)
    requires size >= 1 && r % size == 0 && d <= size
    ensures (r + d) % size == d % size
  {
    var q := r / size;
    assert r == q * size;
    if d == size {
      assert r + d == (q + 1) * size;
      DivUnique(r + d, q + 1, 0, size);
      DivUnique(d, 1, 0, size);
    } else {
      DivUnique(r + d, q, d, size);
      DivUnique(d, 0, d, size);
    }
  }

  lemma Room(d: nat, size: nat)
    requires 1 <= d <= size
    ensures (size - d % size) % size == size - d
  {
    if d < size {
      DivUnique(d, 0, d, size);
      DivUnique(size - d, 0, size - d, size);
    } else {
      DivUnique(d, 1, 0, size);
      DivUnique(size, 1, 0, size);
    }
  }

  lemma LevelNext(r0: nat, r1: nat, n1: nat, ready: nat, others: nat, fixedSize: nat)
    requires fixedSize >= 1 && r0 < r1 <= ready && n1 <= others && r0 % fixedSize == 0
    requires r1 - r0 + n1 <= fixedSize && (n1 > 0 ==> r1 == ready)
    requires r1 - r0 + n1 < fixedSize ==> r1 == ready && n1 == others
    ensures Level(r1, n1, ready, others, fixedSize)
  {
    var d := r1 - r0;
    ModAdd(r0, d, fixedSize);
    Room(d, fixedSize);
    if r1 < ready {
      DivUnique(d, 1, 0, fixedSize);
    } else {
      assert ready % fixedSize == d % fixedSize;
    }
  }

  lemma LevelStarts(ready: nat, others: nat, fixedSize: nat)
    requires fixedSize >= 1
    ensures Level(0, 0, ready, others, fixedSize)
  {
    DivUnique(0, 0, 0, fixedSize);
    DivUnique(fixedSize, 1, 0, fixedSize);
  }

  lemma LevelBefore(r: nat, n: nat, ready: nat, others: nat, fixedSize: nat)
    requires fixedSize >= 1 && r < ready && Level(r, n, ready, others, fixedSize)
    ensures n == 0 && r % fixedSize == 0
  {
  }

  lemma LevelAtEnd(n: nat, ready: nat, others: nat, fixedSize: nat)
    requires fixedSize >= 1 && Level(ready, n, ready, others, fixedSize)
    ensures n == Fillers(ready, others, fixedSize)
  {
  }

  lemma FitsWhole(vals: seq<ReqValue>, w: nat, ready: seq<nat>)
    requires forall k :: 0 <= k < |vals| ==> vals[k].gen.verified <= |vals[k].gen.outputs|
    requires ready == Listed(vals, |vals|, w, true) && forall i :: i in ready ==> Unverified(vals[i].gen) <= w
    ensures AllFit(vals, w)
  {
    forall i | 0 <= i < |vals|
      ensures Unverified(vals[i].gen) <= w
    {
      assert ReadyValue(vals[i], w) ==> i in ready;
    }
  }

  /** Works through the ready requests batch by batch. */
  method VerifyGroups(pool: KvPool, reqs: seq<Req>, ready: seq<nat>, notReady: seq<nat>, fixedSize: nat, w: nat,
                      dummyKernel: Kernel, ghost vals: seq<ReqValue>)
    returns (ok: bool, rollbacks: seq<(nat, nat)>, ghost done: seq<nat>)
    requires Distinct(reqs) && WellFormed(reqs, vals) && Holds(reqs, pool.entries, vals) && w >= 1 && fixedSize >= 1
    requires Backed(pool.entries.table) && HasSlots(reqs, vals, pool.entries.table)
    requires Reserves(pool.entries.table, fixedSize, w)
    requires Increasing(ready) && Increasing(notReady) && Picks(ready, vals) && Picks(notReady, vals) && Disjoint(ready, notReady)
    modifies reqs, pool
    ensures Picks(done, vals) && Holds(reqs, pool.entries, Expected(reqs, vals, done))
    ensures forall i :: i in done ==> Unverified(vals[i].gen) <= w
    ensures rollbacks == Rollbacks(done, RollsOf(reqs, vals, done))
    ensures ok ==> Taken(done, ready, notReady, |ready|, Fillers(|ready|, |notReady|, fixedSize), vals)
    ensures !ok ==> !AllFit(vals, w)
  {
    hide Backed;
    hide HasSlots;
    hide Reserves;
    hide Rollbacks;
    hide Req.Value;
    hide Verified;
    hide RolledBack;
    hide Level;
    var readyIdx, notReadyIdx := 0, 0;
    ok, done, rollbacks := true, [], [];
    assert Expected(reqs, vals, []) == vals;
    NoRollbacks();
    LevelStarts(|ready|, |notReady|, fixedSize);
    while readyIdx < |ready|
      invariant Taken(done, ready, notReady, readyIdx, notReadyIdx, vals)
      invariant Level(readyIdx, notReadyIdx, |ready|, |notReady|, fixedSize)
      invariant Holds(reqs, pool.entries, Expected(reqs, vals, done)) && pool.entries.table == old(pool.entries.table)
      invariant forall i :: i in done ==> Unverified(vals[i].gen) <= w
      invariant rollbacks == Rollbacks(done, RollsOf(reqs, vals, done))
    {
      LevelBefore(readyIdx, notReadyIdx, |ready|, |notReady|, fixedSize);
      var batch, r1, n1 := NextBatch(ready, notReady, fixedSize, readyIdx, notReadyIdx);
      TakeMore(done, ready, notReady, readyIdx, notReadyIdx, r1, n1, batch, vals);
      LevelNext(readyIdx, r1, n1, |ready|, |notReady|, fixedSize);
      var more;
      ok, more := VerifyPicked(pool, reqs, batch, fixedSize, w, dummyKernel, vals, done);
      if !ok {
        return;
      }
      RollbacksMore(reqs, vals, done, batch);
      rollbacks := rollbacks + more;
      done := done + batch;
      readyIdx, notReadyIdx := r1, n1;
    }
    LevelAtEnd(notReadyIdx, |ready|, |notReady|, fixedSize);
  }

  lemma NoRollbacks()
    ensures Rollbacks([], []) == []
  {
  }

  lemma RollbacksMore(reqs: seq<Req>, vals: seq<ReqValue>, done: seq<nat>, batch: seq<nat>)
    requires WellFormed(reqs, vals) && Picks(done, vals) && Picks(batch, vals) && Picks(done + batch, vals)
    ensures Rollbacks(done + batch, RollsOf(reqs, vals, done + batch))
            == Rollbacks(done, RollsOf(reqs, vals, done)) + Rollbacks(batch, RollsOf(reqs, vals, batch))
  {
    assert RollsOf(reqs, vals, done + batch) == RollsOf(reqs, vals, done) + RollsOf(reqs, vals, batch);
    RollbacksConcat(done, RollsOf(reqs, vals, done), batch, RollsOf(reqs, vals, batch));
  }

  /** The requests that a decode iteration verifies: all that are ready, and as many others as fit in their batches. */
  ghost predicate Chosen(vals: seq<ReqValue>, fixedSize: nat, w: nat, i: nat)
    requires fixedSize >= 1 && forall k :: 0 <= k < |vals| ==> vals[k].gen.verified <= |vals[k].gen.outputs|
  {
    var ready, others := Listed(vals, |vals|, w, true), Listed(vals, |vals|, w, false);
    i in ready || i in others[..Fillers(|ready|, |others|, fixedSize)]
  }

  /** No request has finished or has as many as `w` tokens to verify. */
  ghost predicate NothingDue(vals: seq<ReqValue>, w: nat)
  {
    forall k :: 0 <= k < |vals| ==> vals[k].reason.None? && |vals[k].gen.outputs| - vals[k].gen.verified < w
  }

  /** When verification is due: a request with something to verify that has finished, or that has a whole window to
      verify, is verified; as long as there is none, nobody is; and the others only ever fill up a batch. */
  lemma ChosenWhenDue(vals: seq<ReqValue>, fixedSize: nat, w: nat, i: nat)
    requires fixedSize >= 1 && i < |vals|
    requires forall k :: 0 <= k < |vals| ==> vals[k].gen.verified <= |vals[k].gen.outputs|
    ensures Chosen(vals, fixedSize, w, i) ==> vals[i].gen.verified < |vals[i].gen.outputs|
    ensures var n := |vals[i].gen.outputs| - vals[i].gen.verified;
            n > 0 && (vals[i].reason.Some? || n >= w) ==> Chosen(vals, fixedSize, w, i)
    ensures NothingDue(vals, w) ==> !Chosen(vals, fixedSize, w, i)
    ensures Chosen(vals, fixedSize, w, i) ==>
            exists k :: 0 <= k < |vals| && Chosen(vals, fixedSize, w, k)
              && (vals[k].reason.Some? || |vals[k].gen.outputs| - vals[k].gen.verified >= w)
  {
    hide Fillers;
    var ready, others := Listed(vals, |vals|, w, true), Listed(vals, |vals|, w, false);
    if ready == [] {
      FillersFill(0, |others|, fixedSize);
    } else {
      assert ready[0] in ready;
      assert Chosen(vals, fixedSize, w, ready[0]);
    }
  }

  lemma NothingDone(vals: seq<ReqValue>, fixedSize: nat, w: nat, done: seq<nat>)
    requires fixedSize >= 1 && Picks(done, vals) && NothingDue(vals, w)
    requires forall k :: 0 <= k < |vals| ==> vals[k].gen.verified <= |vals[k].gen.outputs|
    requires forall i :: i in done ==> Chosen(vals, fixedSize, w, i)
    ensures done == []
  {
    hide Chosen;
    if done != [] {
      assert done[0] in done;
      ChosenWhenDue(vals, fixedSize, w, done[0]);
    }
  }

  /** After a decode iteration: every ready request is verified in that same iteration, each exactly once and as if
      alone, and so are the others that fill up the batches.  It fails exactly if a request has more than a window to
      verify; the batches before the failing one stay verified. */
  method CheckAndVerify(pool: KvPool, reqs: seq<Req>, fixedSize: nat, w: nat, dummyKernel: Kernel, ghost vals: seq<ReqValue>)
    returns (ok: bool, rollbacks: seq<(nat, nat)>, ghost done: seq<nat>)
    requires Distinct(reqs) && WellFormed(reqs, vals) && Holds(reqs, pool.entries, vals) && w >= 1 && fixedSize >= 1
    requires Backed(pool.entries.table) && HasSlots(reqs, vals, pool.entries.table)
    requires Reserves(pool.entries.table, fixedSize, w)
    requires forall k :: 0 <= k < |vals| ==> vals[k].gen.verified <= |vals[k].gen.outputs|
    modifies reqs, pool
    ensures ok <==> AllFit(vals, w)
    ensures Picks(done, vals) && Holds(reqs, pool.entries, Expected(reqs, vals, done))
    ensures ok ==> forall i :: i in done <==> Chosen(vals, fixedSize, w, i)
    ensures rollbacks == Rollbacks(done, RollsOf(reqs, vals, done))
    ensures NothingDue(vals, w) ==> ok && done == [] && rollbacks == []
  {
    hide Backed;
    hide HasSlots;
    hide Reserves;
    hide Rollbacks;
    var ready, notReady := Classify(reqs, w, pool.entries, vals);
    ListedPicks(vals, w);
    ok, rollbacks, done := VerifyGroups(pool, reqs, ready, notReady, fixedSize, w, dummyKernel, vals);
    assert ready[..|ready|] == ready;
    if ok {
      FitsWhole(vals, w, ready);
    }
    if NothingDue(vals, w) {
      NothingDone(vals, fixedSize, w, done);
      NoRollbacks();
    }
  }
}
