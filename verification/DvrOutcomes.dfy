/** Consequences of the request invariant for complete runs without retractions: where a run stops, how long it
    can take, and what it leaves in the outputs. */
module DvrOutcomes {
  import opened Arithmetic
  import opened Options
  import opened Verifier
  import opened DecodeVerifyRollback
  import opened Determinism

  // ----- runs without retractions

  ghost predicate NoRetraction(events: seq<Event>)
  {
    forall e :: e in events ==> e.Iteration?
  }

  /** Between iterations fewer than a window of tokens is unverified, a finished request is entirely
      verified and answered, every decoded token is either in the outputs or counted as rolled back,
      and every window of decoding has committed at least one token. */
  ghost predicate Bounded(j: Job, r: Request)
    requires Shape(j, r.gen)
  {
    && (r.status.reason.None? ==> Unverified(r.gen) < j.window)
    && (r.status.reason.Some? ==> Unverified(r.gen) == 0 && r.delivery.closed)
    && |r.gen.outputs| + r.stats.rolledBack == 1 + r.stats.decodes
    && r.stats.decodes <= j.window * (r.gen.verified - 1) + Unverified(r.gen)
  }

  lemma OneMoreWindow(w: nat, a: nat, b: nat, n: nat)
    requires a < b && n <= w
    ensures w * a + n <= w * b
  {
    var k: nat := b - a - 1;
    assert w * b == w * a + w + w * k;
  }

  lemma VerifyBounded(j: Job, d: Request)
    requires Shape(j, d.gen) && 0 < Unverified(d.gen) <= j.window
    requires |d.gen.outputs| + d.stats.rolledBack == 1 + d.stats.decodes
    requires d.stats.decodes <= j.window * (d.gen.verified - 1) + Unverified(d.gen)
    ensures var v := Verify(j, d);
            && Unverified(v.gen) == 0
            && |v.gen.outputs| + v.stats.rolledBack == 1 + v.stats.decodes
            && v.stats.decodes <= j.window * (v.gen.verified - 1)
  {
    CommitKeepsAgreed(j, d.gen);
    OneMoreWindow(j.window, d.gen.verified - 1, Verify(j, d).gen.verified - 1, Unverified(d.gen));
  }

  lemma IterateBounded(j: Job, r: Request, draft: Token, kv: KV, logprob: int, pulled: bool, flush: bool)
    requires ValidJob(j) && Shape(j, r.gen) && Open(r) && r.status.reason.None? && Bounded(j, r)
    requires StopsRightHere(j, r)
    ensures var o := Iterate(j, r, draft, kv, logprob, pulled, flush);
            o.Live? && Bounded(j, o.r) && o.r.stats.decodes == r.stats.decodes + 1
  {
    hide StreamOutput;
    hide Committed;
    var d := Rechecked(j, Drafted(j, r, draft, kv, logprob));
    if Ready(j, d) || pulled {
      VerifyBounded(j, d);
      StreamedBounded(j, Rechecked(j, Verify(j, d)), flush);
    } else {
      assert CheckFinished(j, d.gen.outputs, d.status) == d.status;
      StreamedBounded(j, Rechecked(j, d), flush);
    }
  }

  /** Streaming closes a finished and verified request and changes nothing else that is bounded. */
  lemma StreamedBounded(j: Job, v: Request, flush: bool)
    requires Shape(j, v.gen) && !v.delivery.closed
    requires v.status.reason.None? ==> Unverified(v.gen) < j.window
    requires v.status.reason.Some? ==> Unverified(v.gen) == 0
    requires |v.gen.outputs| + v.stats.rolledBack == 1 + v.stats.decodes
    requires v.stats.decodes <= j.window * (v.gen.verified - 1) + Unverified(v.gen)
    ensures Shape(j, StreamOutput(v, flush).gen) && Bounded(j, StreamOutput(v, flush))
    ensures StreamOutput(v, flush).stats == v.stats
  {
  }

  /** No interleaving of drafts, verification batches and flushes makes verification fail. */
  lemma {:induction false} RunBounded(j: Job, r: Request, events: seq<Event>)
    requires Safe(j, r) && Open(r) && Bounded(j, r) && NoRetraction(events)
    ensures var o := Run(j, r, events);
            && o.Live? && Safe(j, o.r) && Bounded(j, o.r)
            && (o.r.status.reason.None? ==> o.r.stats.decodes == r.stats.decodes + |events|)
    decreases |events|
  {
    if r.status.reason.Some? {
      FinishedStays(j, r, events);
    } else if events != [] {
      var e := events[0];
      assert e in events;
      ApplySafe(j, r, e);
      IterateBounded(j, r, e.draft, e.kv, e.logprob, e.pulled, e.flush);
      assert forall f :: f in events[1..] ==> f in events;
      RunBounded(j, Apply(j, r, e).r, events[1..]);
    }
  }

  lemma {:induction false} FinishedStays(j: Job, r: Request, events: seq<Event>)
    requires ValidJob(j) && Shape(j, r.gen) && r.status.reason.Some?
    ensures Run(j, r, events) == Live(r)
    decreases |events|
  {
    if events != [] {
      FinishedStays(j, r, events[1..]);
    }
  }

  lemma PrefilledBounded(j: Job, flush: bool)
    requires ValidJob(j)
    ensures Bounded(j, Prefilled(j, flush))
  {
  }

  /** Every run without retractions ends: a request needs at most a window of decode iterations for
      each token it may generate. */
  lemma EveryRunFinishes(j: Job, flush: bool, events: seq<Event>)
    requires ValidJob(j) && NoRetraction(events)
    requires |events| >= j.window * j.maxNew
    ensures Run(j, Prefilled(j, flush), events).Live?
    ensures Run(j, Prefilled(j, flush), events).r.status.reason.Some?
  {
    PrefilledSafe(j, flush);
    PrefilledBounded(j, flush);
    RunBounded(j, Prefilled(j, flush), events);
    var r := Run(j, Prefilled(j, flush), events).r;
    if r.status.reason.None? {
      FewerDecodes(j, flush, r, |events|);
    }
  }

  lemma FewerDecodes(j: Job, flush: bool, r: Request, n: nat)
    requires Safe(j, r) && Bounded(j, r) && r.status.reason.None?
    requires r.stats.decodes == Prefilled(j, flush).stats.decodes + n
    ensures n < j.window * j.maxNew
  {
    assert Prefilled(j, flush).stats.decodes == 0;
    assert r.gen.verified < j.maxNew;
    OneMoreWindow(j.window, r.gen.verified - 1, j.maxNew, Unverified(r.gen));
    if j.window * (r.gen.verified - 1) + Unverified(r.gen) == j.window * j.maxNew {
      OneMoreWindow(j.window, r.gen.verified - 1, j.maxNew, j.window);
    }
  }

  // ----- where a run stops

  /** The length at which the canonical generation first meets a stop condition. */
  function StopLength(j: Job, k: nat): (n: nat)
    requires |j.start.tokens| == 1 && k >= 1
    ensures n >= k && StopReason(j, CanonTokens(j, n)).Some?
    ensures forall i :: k <= i < n ==> StopReason(j, CanonTokens(j, i)).None?
    decreases j.maxNew - k
  {
    if StopReason(j, CanonTokens(j, k)).Some? then k else StopLength(j, k + 1)
  }

  /** What the client of this request should receive. */
  function Answer(j: Job): seq<Token>
    requires |j.start.tokens| == 1
  {
    CanonTokens(j, StopLength(j, 1))[..Min(StopLength(j, 1), j.maxNew)]
  }

  lemma CanonTokensPrefix(j: Job, k: nat, n: nat)
    requires |j.start.tokens| == 1 && 1 <= k <= n
    ensures CanonTokens(j, n)[..k] == CanonTokens(j, k)
  {
    CanonExtends(j.kernel, j.start, k - 1, n - 1);
  }

  lemma FirstStopIs(j: Job, outs: seq<Token>)
    requires |j.start.tokens| == 1 && outs != [] && outs == CanonTokens(j, |outs|)
    requires forall k :: 1 <= k < |outs| ==> StopReason(j, outs[..k]).None?
    requires StopReason(j, outs).Some?
    ensures |outs| == StopLength(j, 1)
  {
    var stop := StopLength(j, 1);
    if stop < |outs| {
      CanonTokensPrefix(j, stop, |outs|);
    }
  }

  /** An entirely verified, finished request holds the canonical generation up to its first stop. */
  lemma FinishedAtFirstStop(j: Job, r: Request)
    requires Safe(j, r) && Unverified(r.gen) == 0 && r.status.reason.Some?
    ensures |r.gen.outputs| == StopLength(j, 1)
    ensures r.gen.outputs == CanonTokens(j, StopLength(j, 1))
    ensures r.gen.logprobs == Canon(j.kernel, j.start, StopLength(j, 1) - 1).logprobs
  {
    var n := |r.gen.outputs|;
    assert r.gen.outputs[..n] == r.gen.outputs && r.gen.logprobs[..n] == r.gen.logprobs;
    FirstStopIs(j, r.gen.outputs);
  }

  /** Determinism.  Two runs of a request that differ in every draft token, draft cache entry,
      verification batch and flush end with the same tokens and the same log-probabilities. */
  lemma OutputsAreDeterministic(j: Job, flush1: bool, events1: seq<Event>, flush2: bool, events2: seq<Event>)
    requires ValidJob(j) && NoRetraction(events1) && NoRetraction(events2)
    requires |events1| >= j.window * j.maxNew && |events2| >= j.window * j.maxNew
    ensures Run(j, Prefilled(j, flush1), events1).Live? && Run(j, Prefilled(j, flush2), events2).Live?
    ensures var g1, g2 := Run(j, Prefilled(j, flush1), events1).r.gen, Run(j, Prefilled(j, flush2), events2).r.gen;
            g1.outputs == g2.outputs == CanonTokens(j, StopLength(j, 1)) && g1.logprobs == g2.logprobs
  {
    RunReachesCanon(j, flush1, events1);
    RunReachesCanon(j, flush2, events2);
  }

  lemma RunReachesCanon(j: Job, flush: bool, events: seq<Event>)
    requires ValidJob(j) && NoRetraction(events) && |events| >= j.window * j.maxNew
    ensures var o := Run(j, Prefilled(j, flush), events);
            && o.Live?
            && o.r.gen.outputs == CanonTokens(j, StopLength(j, 1))
            && o.r.gen.logprobs == Canon(j.kernel, j.start, StopLength(j, 1) - 1).logprobs
  {
    EveryRunFinishes(j, flush, events);
    PrefilledSafe(j, flush);
    PrefilledBounded(j, flush);
    RunBounded(j, Prefilled(j, flush), events);
    FinishedAtFirstStop(j, Run(j, Prefilled(j, flush), events).r);
  }
}
