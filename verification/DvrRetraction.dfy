/** What retraction does to the commits of a deterministic request: the prefill that resumes it computes its cache
    entries anew, and every later commit follows from those. */
module DvrRetraction {
  import opened Options
  import opened Sequences
  import opened Verifier
  import opened DecodeVerifyRollback
  import opened Determinism
  import opened DvrOutcomes
  import opened DvrSteps
  import opened DvrFailures

  // ----- the exact condition

  /** What a run may commit and send: canonical tokens. */
  ghost predicate CommitsCanonical(j: Job, flush: bool, events: seq<Event>)
    requires ValidJob(j)
  {
    var o := Run(j, Prefilled(j, flush), events);
    o.Live? ==>
      && o.r.gen.outputs[..o.r.gen.verified] == CanonTokens(j, o.r.gen.verified)
      && o.r.delivery.sent <= CanonTokens(j, o.r.gen.verified)
      && Subsequence(o.r.delivery.text.ids, CanonTokens(j, o.r.gen.verified))
  }

  /** The verified part of a request that had the outputs `ts`, the first `n` of them verified, when it was
      retracted. */
  function ResumedStream(j: Job, n: nat, ts: seq<Token>): Stream
    requires ValidJob(j) && 1 <= n <= |ts|
  {
    Stream(j.extend(ts)[..|j.start.cache| + n - 1], ts[..n], [])
  }

  /** From the entries of the resuming prefill the verifier generates the same tokens, up to the first stop, as from
      its own. */
  ghost predicate GoesOnCanonically(j: Job, s: Stream)
    requires |j.start.tokens| == 1 && s.tokens != []
  {
    forall m: nat :: |s.tokens| + m <= StopLength(j, 1) ==>
      Canon(j.kernel, s, m).tokens == CanonTokens(j, |s.tokens| + m)
  }

  /** A request with `n` canonical tokens verified can be retracted with the outputs `ts`, be resumed with the token
      `d` and still reach its next verification. */
  ghost predicate CanBeRetracted(j: Job, n: nat, ts: seq<Token>, d: Token)
    requires |j.start.tokens| == 1
  {
    && 1 <= n <= |ts| && ts[..n] == CanonTokens(j, n)
    && |ts| + 2 <= n + j.window && NeverStops(j, ts + [d])
  }

  ghost predicate ResumesAgree(j: Job)
    requires ValidJob(j)
  {
    forall n: nat, ts: seq<Token>, d: Token :: CanBeRetracted(j, n, ts, d) ==>
      GoesOnCanonically(j, ResumedStream(j, n, ts))
  }

  // ----- the condition is enough

  lemma {:induction false} CanonIgnoresLogprobs(kernel: Kernel, s: Stream, t: Stream, n: nat)
    requires s.tokens != [] && s.tokens == t.tokens && s.cache == t.cache
    ensures Canon(kernel, s, n).tokens == Canon(kernel, t, n).tokens
    ensures Canon(kernel, s, n).cache == Canon(kernel, t, n).cache
  {
    if n > 0 {
      CanonIgnoresLogprobs(kernel, s, t, n - 1);
    }
  }

  lemma SameContinuation(j: Job, s: Stream, t: Stream)
    requires |j.start.tokens| == 1 && s.tokens != [] && s.tokens == t.tokens && s.cache == t.cache
    requires GoesOnCanonically(j, s)
    ensures GoesOnCanonically(j, t)
  {
    hide Canon;
    hide StopLength;
    forall m: nat | |t.tokens| + m <= StopLength(j, 1)
      ensures Canon(j.kernel, t, m).tokens == CanonTokens(j, |t.tokens| + m)
    {
      CanonIgnoresLogprobs(j.kernel, s, t, m);
    }
  }

  /** What every run keeps if resumed requests go on canonically, or if none is retracted. */
  ghost predicate Agreeing(j: Job, r: Request)
    requires ValidJob(j) && Shape(j, r.gen)
  {
    && r.gen.outputs[..r.gen.verified] == CanonTokens(j, r.gen.verified)
    && (r.status.reason.None? && Unverified(r.gen) < j.window ==> GoesOnCanonically(j, VerifiedStream(j, r.gen)))
  }

  /** Outputs that begin canonically and reach the canonical stop stop there. */
  lemma StopInside(j: Job, outs: seq<Token>, n: nat)
    requires |j.start.tokens| == 1 && StopLength(j, 1) <= n <= |outs| && outs[..n] == CanonTokens(j, n)
    ensures StopReason(j, outs[..StopLength(j, 1)]).Some?
  {
    var stop := StopLength(j, 1);
    CanonTokensPrefix(j, stop, n);
    assert outs[..n][..stop] == outs[..stop];
  }

  /** Outputs that stop nowhere before their end have not passed the canonical stop. */
  lemma NotPastStop(j: Job, r: Request, n: nat)
    requires |j.start.tokens| == 1 && StopsRightHere(j, r) && 1 <= n <= |r.gen.outputs|
    requires r.gen.outputs[..n] == CanonTokens(j, n)
    ensures n <= StopLength(j, 1)
  {
    if StopLength(j, 1) < n {
      StopInside(j, r.gen.outputs, n);
    }
  }

  lemma StopPassed(j: Job, s: Stream, k: nat)
    requires |j.start.tokens| == 1 && s.tokens != [] && GoesOnCanonically(j, s)
    requires |s.tokens| <= StopLength(j, 1) <= |s.tokens| + k
    ensures StopReason(j, Canon(j.kernel, s, k).tokens[..StopLength(j, 1)]).Some?
  {
    hide Canon;
    var n, stop := |s.tokens|, StopLength(j, 1);
    CanonExtends(j.kernel, s, stop - n, k);
    assert Canon(j.kernel, s, stop - n).tokens == CanonTokens(j, n + (stop - n));
    assert Canon(j.kernel, s, k).tokens[..stop] == CanonTokens(j, stop);
  }

  /** A commit that goes on from a canonically continuing stream, without passing a stop. */
  lemma GoneOn(j: Job, s: Stream, v: Request, k: nat)
    requires ValidJob(j) && Shape(j, v.gen) && s.tokens != [] && |s.tokens| <= StopLength(j, 1)
    requires GoesOnCanonically(j, s) && StopsRightHere(j, v) && Unverified(v.gen) == 0
    requires VerifiedStream(j, v.gen) == Canon(j.kernel, s, k)
    ensures Agreeing(j, v)
  {
    var n, stop := |s.tokens|, StopLength(j, 1);
    assert v.gen.outputs[..v.gen.verified] == v.gen.outputs;
    if n + k > stop {
      StopPassed(j, s, k);
    } else {
      GoesFurther(j, s, k);
    }
  }

  lemma GoesFurther(j: Job, s: Stream, k: nat)
    requires |j.start.tokens| == 1 && s.tokens != [] && |s.tokens| + k <= StopLength(j, 1) && GoesOnCanonically(j, s)
    ensures Canon(j.kernel, s, k).tokens == CanonTokens(j, |s.tokens| + k)
    ensures GoesOnCanonically(j, Canon(j.kernel, s, k))
  {
    hide Canon;
    hide CanonTokens;
    hide StopLength;
    var t := Canon(j.kernel, s, k);
    forall m: nat | |t.tokens| + m <= StopLength(j, 1)
      ensures Canon(j.kernel, t, m).tokens == CanonTokens(j, |t.tokens| + m)
    {
      CanonSplit(j.kernel, s, k, m);
      assert |s.tokens| + (k + m) == |t.tokens| + m;
    }
  }

  lemma VerifiedAgreeing(j: Job, d: Request)
    requires ValidJob(j) && Orderly(j, d) && Unverified(d.gen) > 0
    requires d.gen.outputs[..d.gen.verified] == CanonTokens(j, d.gen.verified)
    requires GoesOnCanonically(j, VerifiedStream(j, d.gen))
    ensures Agreeing(j, Rechecked(j, Verify(j, d)))
  {
    hide GoesOnCanonically;
    hide Canon;
    var s := VerifiedStream(j, d.gen);
    NotPastStop(j, d, d.gen.verified);
    VerifyOrderly(j, d);
    CommitIsGenerated(j, d.gen, s);
    GoneOn(j, s, Rechecked(j, Verify(j, d)), |Kept(j, d.gen)|);
  }

  lemma IterateAgreeing(j: Job, r: Request, e: Event)
    requires ValidJob(j) && Orderly(j, r) && Agreeing(j, r) && r.status.reason.None? && e.Iteration?
    ensures Apply(j, r, e).Live? ==> Agreeing(j, Apply(j, r, e).r)
  {
    hide GoesOnCanonically;
    hide Committed;
    var d := Drafted(j, r, e.draft, e.kv, e.logprob);
    DraftedStream(j, r, e.draft, e.kv, e.logprob);
    AppendedOrderly(j, r, d, e.draft);
    var o := Verification(j, Rechecked(j, d), e.pulled);
    assert d.gen.outputs[..d.gen.verified] == r.gen.outputs[..r.gen.verified];
    if o.Live? && o.r != Rechecked(j, d) {
      VerifiedAgreeing(j, Rechecked(j, d));
    }
  }

  lemma ResumeAgreeing(j: Job, r: Request, e: Event)
    requires ValidJob(j) && Orderly(j, r) && Agreeing(j, r) && r.status.reason.None? && e.Resume?
    requires ResumesAgree(j)
    ensures Agreeing(j, Apply(j, r, e).r)
  {
    hide GoesOnCanonically;
    var d := Resumed(j, r, e.draft, e.logprob);
    var q := Rechecked(j, d);
    AppendedOrderly(j, r, d, e.draft);
    var n, ts := r.gen.verified, r.gen.outputs;
    assert d.gen.outputs[..n] == ts[..n];
    if q.status.reason.None? && Unverified(d.gen) < j.window {
      UnfinishedNeverStops(j, q);
      assert CanBeRetracted(j, n, ts, e.draft);
      SameContinuation(j, ResumedStream(j, n, ts), VerifiedStream(j, d.gen));
    }
  }

  lemma UnfinishedNeverStops(j: Job, r: Request)
    requires StopsRightHere(j, r) && r.status.reason.None?
    ensures NeverStops(j, r.gen.outputs)
  {
    var outs := r.gen.outputs;
    assert outs[..|outs|] == outs;
  }

  lemma {:induction false} RunAgreeing(j: Job, r: Request, events: seq<Event>)
    requires ValidJob(j) && Orderly(j, r) && Open(r) && Agreeing(j, r) && (NoRetraction(events) || ResumesAgree(j))
    ensures Run(j, r, events).Live? ==> Agreeing(j, Run(j, r, events).r)
    decreases |events|
  {
    hide GoesOnCanonically;
    hide Apply;
    if events != [] {
      var e := events[0];
      assert e in events && forall f :: f in events[1..] ==> f in events;
      ApplyOrderly(j, r, e);
      ApplyAgreeing(j, r, e);
      if Apply(j, r, e).Live? {
        RunAgreeing(j, Apply(j, r, e).r, events[1..]);
      }
    }
  }

  lemma ApplyAgreeing(j: Job, r: Request, e: Event)
    requires ValidJob(j) && Orderly(j, r) && Agreeing(j, r) && (e.Resume? ==> ResumesAgree(j))
    ensures Apply(j, r, e).Live? ==> Agreeing(j, Apply(j, r, e).r)
  {
    hide Agreeing;
    hide Iterate;
    if r.status.reason.None? {
      if e.Iteration? {
        IterateAgreeing(j, r, e);
      } else {
        ResumeAgreeing(j, r, e);
      }
    }
  }

  lemma PrefilledAgreeing(j: Job, flush: bool)
    requires ValidJob(j)
    ensures Agreeing(j, Prefilled(j, flush))
  {
    PrefilledOrderly(j, flush);
    WholeIsVerified(j, Prefilled(j, flush).gen);
  }

  lemma AgreeingCommits(j: Job, flush: bool, events: seq<Event>)
    requires ValidJob(j) && ResumesAgree(j)
    ensures CommitsCanonical(j, flush, events)
  {
    hide Run;
    hide Prefilled;
    hide GoesOnCanonically;
    PrefilledOrderly(j, flush);
    PrefilledAgreeing(j, flush);
    RunAgreeing(j, Prefilled(j, flush), events);
    RunOrderly(j, Prefilled(j, flush), events);
    var o := Run(j, Prefilled(j, flush), events);
    if o.Live? {
      DeliveredCanonical(j, o.r);
    }
  }

  lemma DeliveredCanonical(j: Job, r: Request)
    requires |j.start.tokens| == 1 && Orderly(j, r)
    requires r.gen.outputs[..r.gen.verified] == CanonTokens(j, r.gen.verified)
    ensures r.delivery.sent <= CanonTokens(j, r.gen.verified)
    ensures Subsequence(r.delivery.text.ids, CanonTokens(j, r.gen.verified))
  {
    var outs := CanonTokens(j, r.gen.verified);
    PrefixOfVerified(r.gen, outs, r.delivery.offset);
    PrefixOfVerified(r.gen, outs, r.delivery.text.upTo);
    SubsequenceOfPrefix(r.delivery.text.ids, outs, r.delivery.text.upTo);
  }

  // ----- the condition is needed

  /** A run of honest drafts, every one verified at once. */
  lemma {:induction false} ReachCanonical(j: Job, n: nat) returns (events: seq<Event>, r: Request)
    requires ValidJob(j) && 1 <= n < StopLength(j, 1)
    ensures Run(j, Prefilled(j, false), events) == Live(r) && At(j, r, n) && r.status.reason.None?
  {
    hide Run;
    hide Apply;
    hide StopLength;
    hide Canon;
    assert StopReason(j, CanonTokens(j, n)).None?;
    if n == 1 {
      r := PrefilledAt(j, false);
      events := [];
      RunNothing(j, r);
    } else {
      var before, q := ReachCanonical(j, n - 1);
      r := HonestStep(j, q, n - 1, false);
      events := before + [Honest(j, n - 1, false)];
      RunConcat(j, Prefilled(j, false), before, [Honest(j, n - 1, false)]);
      RunOne(j, q, Honest(j, n - 1, false));
    }
  }

  /** Verifying token by token commits what the verifier generates, until it stops. */
  lemma {:induction false} PullOn(j: Job, r: Request, m: nat) returns (events: seq<Event>, q: Request, p: nat)
    requires ValidJob(j) && Orderly(j, r) && Open(r) && Unverified(r.gen) == 0
    ensures Run(j, r, events) == Live(q) && Orderly(j, q) && Unverified(q.gen) == 0
    ensures VerifiedStream(j, q.gen) == Canon(j.kernel, VerifiedStream(j, r.gen), p)
    ensures p >= m || q.status.reason.Some?
    decreases m
  {
    hide Run;
    hide Pulled;
    hide Apply;
    hide VerifiedStream;
    hide StopsRightHere;
    hide Delivered;
    if m == 0 || r.status.reason.Some? {
      events, q, p := [], r, 0;
      RunNothing(j, r);
    } else {
      PulledStep(j, r, 0, false);
      var v := Pulled(j, r, 0);
      StreamOutputOrderly(j, v, false);
      var t := StreamOutput(v, false);
      var rest, k;
      rest, q, k := PullOn(j, t, m - 1);
      events, p := [Pull(0, false)] + rest, k + 1;
      RunCons(j, r, Pull(0, false), rest);
      VerifiedNonempty(j, r);
      CanonSplit(j.kernel, VerifiedStream(j, r.gen), 1, k);
    }
  }

  lemma VerifiedNonempty(j: Job, r: Request)
    requires Shape(j, r.gen)
    ensures VerifiedStream(j, r.gen).tokens != []
  {
  }

  /** The first verification after a resume. */
  lemma PullWindow(j: Job, r: Request) returns (q: Request, k: nat)
    requires ValidJob(j) && Orderly(j, r) && Open(r) && r.status.reason.None? && Unverified(r.gen) < j.window
    ensures Apply(j, r, Pull(0, false)) == Live(q) && Orderly(j, q) && Open(q) && Unverified(q.gen) == 0
    ensures VerifiedStream(j, q.gen) == Canon(j.kernel, VerifiedStream(j, r.gen), k)
  {
    hide Committed;
    hide Kept;
    hide StopsRightHere;
    hide Delivered;
    ApplyOrderly(j, r, Pull(0, false));
    var d := Rechecked(j, Drafted(j, r, 0, 0, 0));
    DraftedStream(j, r, 0, 0, 0);
    q := Apply(j, r, Pull(0, false)).r;
    k := |Kept(j, d.gen)|;
    CommitIsGenerated(j, d.gen, VerifiedStream(j, d.gen));
  }

  /** A run in which the request is retracted with the outputs `ts`, `n` of them verified, and afterwards commits at
      least `m` further tokens unless it stops. */
  lemma RetractedRun(j: Job, n: nat, ts: seq<Token>, d: Token, m: nat)
    returns (events: seq<Event>, q: Request, p: nat)
    requires ValidJob(j) && CanBeRetracted(j, n, ts, d)
    ensures Run(j, Prefilled(j, false), events) == Live(q) && Orderly(j, q) && Unverified(q.gen) == 0
    ensures q.gen.outputs == Canon(j.kernel, ResumedStream(j, n, ts), p).tokens
    ensures p >= m || q.status.reason.Some?
  {
    hide Run;
    hide Prefilled;
    hide Apply;
    hide Canon;
    var before, s := RetractedAt(j, n, ts, d);
    PrefilledOrderly(j, false);
    RunOrderly(j, Prefilled(j, false), before);
    var t, k := PullWindow(j, s);
    var rest, l;
    rest, q, l := PullOn(j, t, m);
    p := k + l;
    events := before + ([Pull(0, false)] + rest);
    RunConcat(j, Prefilled(j, false), before, [Pull(0, false)] + rest);
    RunCons(j, s, Pull(0, false), rest);
    CanonSplit(j.kernel, VerifiedStream(j, s.gen), k, l);
    CanonIgnoresLogprobs(j.kernel, VerifiedStream(j, s.gen), ResumedStream(j, n, ts), p);
    WholeIsVerified(j, q.gen);
  }

  /** The request right after it was resumed. */
  lemma RetractedAt(j: Job, n: nat, ts: seq<Token>, d: Token) returns (events: seq<Event>, s: Request)
    requires ValidJob(j) && CanBeRetracted(j, n, ts, d)
    ensures Run(j, Prefilled(j, false), events) == Live(s) && Shape(j, s.gen)
    ensures s.status.reason.None? && Unverified(s.gen) < j.window
    ensures VerifiedStream(j, s.gen).tokens == ResumedStream(j, n, ts).tokens
    ensures VerifiedStream(j, s.gen).cache == ResumedStream(j, n, ts).cache
  {
    hide Run;
    hide Prefilled;
    hide Apply;
    BeforeStop(j, n, ts, d);
    var reach, r := ReachCanonical(j, n);
    assert r.gen.outputs + ts[n..] == ts;
    NeverStopsPrefix(j, ts + [d], ts);
    var q := DraftRun(j, r, ts[n..]);
    assert (ts + [d])[..|ts| + 1] == ts + [d];
    s := ResumeStep(j, q, d);
    var e := Resume(d, 0, false);
    events := reach + (Drafts(ts[n..]) + [e]);
    RunConcat(j, Prefilled(j, false), reach, Drafts(ts[n..]) + [e]);
    RunConcat(j, r, Drafts(ts[n..]), [e]);
    RunOne(j, q, e);
    assert s.gen.outputs[..n] == ts[..n];
  }

  lemma NeverStopsPrefix(j: Job, all: seq<Token>, ts: seq<Token>)
    requires NeverStops(j, all) && ts <= all
    ensures NeverStops(j, ts)
  {
    forall k | 1 <= k <= |ts|
      ensures StopReason(j, ts[..k]).None?
    {
      assert ts[..k] == all[..k];
    }
  }

  lemma BeforeStop(j: Job, n: nat, ts: seq<Token>, d: Token)
    requires |j.start.tokens| == 1 && CanBeRetracted(j, n, ts, d)
    ensures n < StopLength(j, 1)
  {
    assert (ts + [d])[..n] == ts[..n];
    if StopLength(j, 1) <= n {
      StopInside(j, ts + [d], n);
    }
  }

  lemma CommitsForceAgreement(j: Job, n: nat, ts: seq<Token>, d: Token, m: nat)
    requires ValidJob(j) && (forall flush, events :: CommitsCanonical(j, flush, events))
    requires CanBeRetracted(j, n, ts, d) && n + m <= StopLength(j, 1)
    ensures Canon(j.kernel, ResumedStream(j, n, ts), m).tokens == CanonTokens(j, n + m)
  {
    hide Run;
    hide Prefilled;
    hide Canon;
    var events, q, p := RetractedRun(j, n, ts, d, m);
    assert CommitsCanonical(j, false, events);
    var s := ResumedStream(j, n, ts);
    assert q.gen.outputs[..q.gen.verified] == q.gen.outputs == CanonTokens(j, n + p);
    assert p >= m;
    CanonExtends(j.kernel, s, m, p);
    CanonTokensPrefix(j, n + m, n + p);
  }

  lemma ForcedToGoOn(j: Job, n: nat, ts: seq<Token>, d: Token)
    requires ValidJob(j) && (forall flush, events :: CommitsCanonical(j, flush, events)) && CanBeRetracted(j, n, ts, d)
    ensures GoesOnCanonically(j, ResumedStream(j, n, ts))
  {
    hide CommitsCanonical;
    hide Canon;
    hide StopLength;
    forall m: nat | n + m <= StopLength(j, 1)
      ensures Canon(j.kernel, ResumedStream(j, n, ts), m).tokens == CanonTokens(j, n + m)
    {
      CommitsForceAgreement(j, n, ts, d, m);
    }
  }

  lemma ForcedToAgree(j: Job)
    requires ValidJob(j) && forall flush, events :: CommitsCanonical(j, flush, events)
    ensures ResumesAgree(j)
  {
    hide CommitsCanonical;
    hide GoesOnCanonically;
    hide StopLength;
    forall n: nat, ts: seq<Token>, d: Token | CanBeRetracted(j, n, ts, d)
      ensures GoesOnCanonically(j, ResumedStream(j, n, ts))
    {
      ForcedToGoOn(j, n, ts, d);
    }
  }

  /** With any number of retractions, all runs commit and send canonical tokens only, exactly if the verifier goes on
      from the entries of every resuming prefill as it would from its own. */
  lemma CommitsSurviveRetractionIff(j: Job)
    requires ValidJob(j)
    ensures (forall flush, events :: CommitsCanonical(j, flush, events)) <==> ResumesAgree(j)
  {
    hide CommitsCanonical;
    hide ResumesAgree;
    if ResumesAgree(j) {
      forall flush, events
        ensures CommitsCanonical(j, flush, events)
      {
        AgreeingCommits(j, flush, events);
      }
    } else if forall flush, events :: CommitsCanonical(j, flush, events) {
      ForcedToAgree(j);
    }
  }

  /** A request that is answered although it was retracted holds the canonical generation. */
  lemma AnsweredIsCanonical(j: Job, flush: bool, events: seq<Event>)
    requires ValidJob(j) && ResumesAgree(j)
    ensures var o := Run(j, Prefilled(j, flush), events);
            o.Live? && o.r.status.reason.Some? && Unverified(o.r.gen) == 0 ==>
              o.r.gen.outputs == CanonTokens(j, StopLength(j, 1))
  {
    hide Run;
    hide Prefilled;
    AgreeingCommits(j, flush, events);
    PrefilledOrderly(j, flush);
    RunOrderly(j, Prefilled(j, flush), events);
    var o := Run(j, Prefilled(j, flush), events);
    if o.Live? && o.r.status.reason.Some? && Unverified(o.r.gen) == 0 {
      assert o.r.gen.outputs[..o.r.gen.verified] == o.r.gen.outputs;
      FirstStopIs(j, o.r.gen.outputs);
    }
  }

  // ----- prefills that agree

  lemma CanonGoesOn(j: Job, n: nat)
    requires |j.start.tokens| == 1 && n >= 1
    ensures GoesOnCanonically(j, Canon(j.kernel, j.start, n - 1))
  {
    hide Canon;
    hide StopLength;
    var c := Canon(j.kernel, j.start, n - 1);
    forall m: nat | |c.tokens| + m <= StopLength(j, 1)
      ensures Canon(j.kernel, c, m).tokens == CanonTokens(j, |c.tokens| + m)
    {
      CanonSplit(j.kernel, j.start, n - 1, m);
    }
  }

  /** Equal entries are enough. */
  lemma EqualEntriesAgree(j: Job)
    requires ValidJob(j) && ExtendAgrees(j)
    ensures ResumesAgree(j)
  {
    hide GoesOnCanonically;
    hide StopLength;
    hide NeverStops;
    hide Canon;
    forall n: nat, ts: seq<Token>, d: Token | CanBeRetracted(j, n, ts, d)
      ensures GoesOnCanonically(j, ResumedStream(j, n, ts))
    {
      var s, c := ResumedStream(j, n, ts), Canon(j.kernel, j.start, n - 1);
      assert c.tokens <= ts && s.cache == c.cache && s.tokens == c.tokens;
      CanonGoesOn(j, n);
      SameContinuation(j, c, s);
    }
  }

  /** Prefill and verification run the same batch-invariant kernels. */
  ghost predicate BatchInvariantPrefill(j: Job, prompt: seq<Token>)
  {
    forall ts: seq<Token> :: j.extend(ts) == KVs(Replay(j.kernel, [], prompt + ts))
  }

  lemma {:induction false} ReplayAppend(kernel: Kernel, prefix: seq<KV>, a: seq<Token>, b: seq<Token>)
    ensures var first := Replay(kernel, prefix, a);
            Replay(kernel, prefix, a + b) == first + Replay(kernel, prefix + KVs(first), b)
    decreases |a|
  {
    if a == [] {
      assert a + b == b;
      assert prefix + KVs(Replay(kernel, prefix, a)) == prefix;
    } else {
      var p := kernel(prefix, a[0]);
      assert (a + b)[1..] == a[1..] + b;
      ReplayAppend(kernel, prefix + [p.kv], a[1..], b);
      var rest := Replay(kernel, prefix + [p.kv], a[1..]);
      ConsParts(p, rest);
      Reassociate(prefix, p.kv, KVs(rest));
    }
  }

  lemma ReplayPrefix(kernel: Kernel, a: seq<Token>, c: seq<Token>)
    requires a <= c
    ensures KVs(Replay(kernel, [], c))[..|a|] == KVs(Replay(kernel, [], a))
  {
    assert c == a + c[|a|..];
    ReplayAppend(kernel, [], a, c[|a|..]);
  }

  lemma ReplayOneMore(kernel: Kernel, fed: seq<Token>, token: Token, cache: seq<KV>)
    requires cache == KVs(Replay(kernel, [], fed))
    ensures KVs(Replay(kernel, [], fed + [token])) == cache + [kernel(cache, token).kv]
  {
    ReplayAppend(kernel, [], fed, [token]);
    assert [token][1..] == [];
    assert [] + KVs(Replay(kernel, [], fed)) == cache;
    assert Replay(kernel, cache, [token]) == [kernel(cache, token)];
  }

  lemma {:induction false} CanonCacheIsReplay(j: Job, prompt: seq<Token>, n: nat)
    requires |j.start.tokens| == 1 && j.start.cache == KVs(Replay(j.kernel, [], prompt))
    ensures Canon(j.kernel, j.start, n).cache
            == KVs(Replay(j.kernel, [], prompt + Canon(j.kernel, j.start, n).tokens[..n]))
  {
    if n == 0 {
      assert prompt + j.start.tokens[..0] == prompt;
    } else {
      var c, d := Canon(j.kernel, j.start, n - 1), Canon(j.kernel, j.start, n);
      CanonCacheIsReplay(j, prompt, n - 1);
      assert d == Next(j.kernel, c);
      FedNext(prompt, c.tokens, d.tokens, n);
      ReplayOneMore(j.kernel, prompt + c.tokens[..n - 1], c.tokens[n - 1], c.cache);
    }
  }

  lemma FedNext(prompt: seq<Token>, c: seq<Token>, d: seq<Token>, n: nat)
    requires 1 <= n == |c| && c <= d
    ensures prompt + d[..n] == prompt + c[..n - 1] + [c[n - 1]]
  {
    assert d[..n] == c == c[..n - 1] + [c[n - 1]];
  }

  /** Batch-invariant prefill is enough for the entries to agree. */
  lemma BatchInvariantPrefillAgrees(j: Job, prompt: seq<Token>)
    requires ValidJob(j) && BatchInvariantPrefill(j, prompt) && j.start.cache == j.extend([])
    ensures ExtendAgrees(j)
  {
    assert prompt + [] == prompt;
    forall n: nat, ts: seq<Token> | Canon(j.kernel, j.start, n).tokens <= ts
      ensures j.extend(ts)[..|j.start.cache| + n] == Canon(j.kernel, j.start, n).cache
    {
      var c := Canon(j.kernel, j.start, n);
      CanonCacheIsReplay(j, prompt, n);
      assert |j.start.cache| == |prompt|;
      assert prompt + c.tokens[..n] <= prompt + ts;
      ReplayPrefix(j.kernel, prompt + c.tokens[..n], prompt + ts);
    }
  }

  /** A request whose later prefill rounds differently: the verifier answers 5 on its own entries and
      7 on entries it did not compute. */
  function RoundingJob(): Job
  {
    Job((prefix: seq<KV>, t: Token) => Pass(0, if 1 in prefix then 7 else 5, 0),
        Stream([0], [5], [0]),
        (ts: seq<Token>) => seq(1 + |ts|, _ => if ts == [] then 0 else 1),
        10, {}, (ts: seq<Token>) => false, 2)
  }

  lemma RoundingResumed()
    ensures var j := RoundingJob();
            && ValidJob(j)
            && var o := Apply(j, Prefilled(j, false), Resume(5, 0, false));
               o.Live? && o.r.gen == Generation([5, 5], 1, [1, 1], [0, 0]) && o.r.status == Status(None, None)
  {
    var j := RoundingJob();
    assert Prefilled(j, false).gen == Generation([5], 1, [0], [0]);
    assert j.extend([5]) == [1, 1];
  }

  lemma RoundingVerified(g: Generation)
    requires g == Generation([5, 5, 5], 1, [1, 1, 0], [0, 0, 0])
    ensures Shape(RoundingJob(), g) && Committed(RoundingJob(), g).outputs == [5, 7]
    ensures Committed(RoundingJob(), g).verified == 2 && Agreed(RoundingJob(), g) == 0
  {
    var j := RoundingJob();
    assert g.cache[..1] == [1] && g.outputs[0..2] == [5, 5];
    assert WindowPasses(j, g)[0] == Pass(0, 7, 0);
    assert g.outputs[1..][0] == 5;
  }

  /** Without that agreement a retraction can change what is committed. */
  lemma RetractionChangesCommits()
    ensures var j := RoundingJob();
            ValidJob(j) &&
            var o := Run(j, Prefilled(j, false), [Resume(5, 0, false), Iteration(5, 0, 0, false, false)]);
            o.Live? && o.r.gen.verified == 2 && o.r.gen.outputs == [5, 7] && CanonTokens(j, 2) == [5, 5]
  {
    hide Run;
    hide Committed;
    var j := RoundingJob();
    var e, f := Resume(5, 0, false), Iteration(5, 0, 0, false, false);
    RoundingResumed();
    var r := Prefilled(j, false);
    var s := Apply(j, r, e).r;
    var d := Rechecked(j, Drafted(j, s, 5, 0, 0));
    assert d.gen == Generation([5, 5, 5], 1, [1, 1, 0], [0, 0, 0]);
    RoundingVerified(d.gen);
    assert Verification(j, d, false) == Live(Verify(j, d));
    assert Apply(j, s, f) == Live(StreamOutput(Rechecked(j, Verify(j, d)), false));
    assert [e, f] == [e] + [f];
    RunCons(j, r, e, [f]);
    RunOne(j, s, f);
    assert Canon(j.kernel, j.start, 1) == Next(j.kernel, j.start);
  }
}
