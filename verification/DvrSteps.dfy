/** Single steps that are known exactly: a verification of one token, and how runs are put together. */
module DvrSteps {
  import opened Options
  import opened Verifier
  import opened DecodeVerifyRollback
  import opened Determinism
  import opened DvrOutcomes

  lemma {:induction false} RunConcat(j: Job, r: Request, a: seq<Event>, b: seq<Event>)
    requires ValidJob(j) && Shape(j, r.gen)
    ensures Run(j, r, a + b) == if Run(j, r, a).Live? then Run(j, Run(j, r, a).r, b) else Crashed
    decreases |a|
  {
    if a == [] {
      assert a + b == b;
    } else {
      assert (a + b)[1..] == a[1..] + b;
      if Apply(j, r, a[0]).Live? {
        RunConcat(j, Apply(j, r, a[0]).r, a[1..], b);
      }
    }
  }

  lemma RunCons(j: Job, r: Request, e: Event, rest: seq<Event>)
    requires ValidJob(j) && Shape(j, r.gen)
    ensures Run(j, r, [e] + rest) == if Apply(j, r, e).Live? then Run(j, Apply(j, r, e).r, rest) else Crashed
  {
    assert ([e] + rest)[1..] == rest;
  }

  lemma RunOne(j: Job, r: Request, e: Event)
    requires ValidJob(j) && Shape(j, r.gen)
    ensures Run(j, r, [e]) == Apply(j, r, e)
  {
    assert [e][1..] == [];
  }

  // ----- when a request is streamed

  /** Whether an unfinished request is streamed, and after how many verified tokens each time. */
  datatype Streaming = Never | Every(interval: nat)

  ghost predicate ValidStreaming(p: Streaming)
  {
    p.Every? ==> p.interval >= 1
  }

  predicate Flushes(p: Streaming, verified: nat)
    requires p.Every? ==> p.interval >= 1
  {
    match p
    case Never => false
    case Every(n) => if n > 1 then verified % n == 1 else verified % n == 0
  }

  /** Every step streams exactly if the setting says so for the tokens verified by then. */
  ghost predicate FlushedBy(j: Job, r: Request, events: seq<Event>, p: Streaming)
    requires ValidJob(j) && Shape(j, r.gen) && ValidStreaming(p)
    decreases |events|
  {
    events != [] && Apply(j, r, events[0]).Live? ==>
      var next := Apply(j, r, events[0]).r;
      && (r.status.reason.None? ==> events[0].flush == Flushes(p, next.gen.verified))
      && FlushedBy(j, next, events[1..], p)
  }

  /** A request from its prefill on. */
  ghost function Served(j: Job, p: Streaming, events: seq<Event>): (o: Outcome)
    requires ValidJob(j) && ValidStreaming(p)
    ensures o.Live? ==> Shape(j, o.r.gen)
  {
    Run(j, Prefilled(j, Flushes(p, 1)), events)
  }

  ghost predicate Streamed(j: Job, p: Streaming, events: seq<Event>)
    requires ValidJob(j) && ValidStreaming(p)
  {
    FlushedBy(j, Prefilled(j, Flushes(p, 1)), events, p)
  }

  lemma FlushedCons(j: Job, r: Request, e: Event, rest: seq<Event>, p: Streaming)
    requires ValidJob(j) && Shape(j, r.gen) && ValidStreaming(p) && Apply(j, r, e).Live?
    requires e.flush == Flushes(p, Apply(j, r, e).r.gen.verified) && FlushedBy(j, Apply(j, r, e).r, rest, p)
    ensures FlushedBy(j, r, [e] + rest, p)
  {
    assert ([e] + rest)[1..] == rest;
  }

  // ----- single steps

  /** A further draft does not touch the verified part. */
  lemma DraftedStream(j: Job, r: Request, draft: Token, kv: KV, logprob: int)
    requires Shape(j, r.gen)
    ensures VerifiedStream(j, Drafted(j, r, draft, kv, logprob).gen) == VerifiedStream(j, r.gen)
  {
  }

  /** A decode iteration of a request that is pulled into a verification batch. */
  function Pull(draft: Token, flush: bool): Event
  {
    Iteration(draft, 0, 0, true, flush)
  }

  /** The request before it is streamed. */
  function Pulled(j: Job, r: Request, draft: Token): Request
    requires Shape(j, r.gen)
  {
    Rechecked(j, Verify(j, Rechecked(j, Drafted(j, r, draft, 0, 0))))
  }

  /** Whatever it drafts, a request without unverified tokens that is pulled in commits exactly the token that the
      verifier generates next. */
  lemma PulledStep(j: Job, r: Request, draft: Token, flush: bool)
    requires ValidJob(j) && Orderly(j, r) && Open(r) && r.status.reason.None? && Unverified(r.gen) == 0
    ensures Apply(j, r, Pull(draft, flush)) == Live(StreamOutput(Pulled(j, r, draft), flush))
    ensures var v := Pulled(j, r, draft);
            && Orderly(j, v) && !v.delivery.closed && Shape(j, v.gen) && Unverified(v.gen) == 0
            && v.gen.verified == r.gen.verified + 1
            && VerifiedStream(j, v.gen) == Canon(j.kernel, VerifiedStream(j, r.gen), 1)
  {
    var d := Rechecked(j, Drafted(j, r, draft, 0, 0));
    AppendedOrderly(j, r, Drafted(j, r, draft, 0, 0), draft);
    DraftedStream(j, r, draft, 0, 0);
    CommitExtends(j, d.gen);
    CommitIsGenerated(j, d.gen, VerifiedStream(j, d.gen));
    VerifyOrderly(j, d);
  }

  // ----- pulling a request through the canonical generation

  /** The first `i` canonical tokens, all of them verified. */
  function CanonGeneration(j: Job, i: nat): Generation
    requires |j.start.tokens| == 1 && i >= 1
  {
    var c := Canon(j.kernel, j.start, i - 1);
    Generation(c.tokens, i, c.cache, c.logprobs)
  }

  ghost predicate At(j: Job, r: Request, i: nat)
  {
    ValidJob(j) && i >= 1 && r.gen == CanonGeneration(j, i) && !r.delivery.closed
  }

  lemma CanonTokensNext(j: Job, i: nat)
    requires |j.start.tokens| == 1 && i >= 1
    ensures CanonTokens(j, i + 1) == CanonTokens(j, i) + [CanonTokens(j, i + 1)[i]]
  {
    CanonTokensPrefix(j, i, i + 1);
  }

  /** With any draft, one verified token further is one canonical token further. */
  lemma CommitAt(j: Job, g: Generation, i: nat)
    requires ValidJob(j) && i >= 1 && Shape(j, g) && g.verified == i && |g.outputs| == i + 1
    requires VerifiedStream(j, g) == Canon(j.kernel, j.start, i - 1)
    ensures Committed(j, g) == CanonGeneration(j, i + 1)
  {
    CommitExtends(j, g);
    CommitIsGenerated(j, g, VerifiedStream(j, g));
    CanonSplit(j.kernel, j.start, i - 1, 1);
    WholeIsVerified(j, Committed(j, g));
  }

  lemma DraftedAt(j: Job, r: Request, i: nat, draft: Token)
    requires At(j, r, i)
    ensures Shape(j, r.gen) && Unverified(r.gen) == 0
    ensures var d := Drafted(j, r, draft, 0, 0).gen;
            Unverified(d) == 1 && d.verified == i && VerifiedStream(j, d) == Canon(j.kernel, j.start, i - 1)
  {
    WholeIsVerified(j, r.gen);
    DraftedStream(j, r, draft, 0, 0);
  }

  /** The request after a draft has been verified, before it is streamed. */
  lemma PulledAt(j: Job, r: Request, i: nat, draft: Token)
    requires At(j, r, i)
    ensures Shape(j, r.gen) && At(j, Pulled(j, r, draft), i + 1)
    ensures Pulled(j, r, draft).delivery == r.delivery.(logs := r.delivery.logs.(upTo := i + 1))
  {
    DraftedAt(j, r, i, draft);
    CommitAt(j, Rechecked(j, Drafted(j, r, draft, 0, 0)).gen, i);
  }

  /** The next canonical token as the draft. */
  function Honest(j: Job, i: nat, flush: bool): Event
    requires |j.start.tokens| == 1 && i >= 1
  {
    Pull(CanonTokens(j, i + 1)[i], flush)
  }

  /** A verification that leaves the outputs alone leaves the status as the stop test made it. */
  lemma StatusStays(j: Job, outputs: seq<Token>, s: Status, verified: Status)
    requires outputs != [] && s.reason.None?
    requires var d := CheckFinished(j, outputs, s); verified == d || verified == Status(None, d.length)
    ensures CheckFinished(j, outputs, verified) == CheckFinished(j, outputs, s)
  {
  }

  lemma HonestStatus(j: Job, r: Request, i: nat)
    requires At(j, r, i) && r.status.reason.None?
    ensures Shape(j, r.gen)
    ensures Pulled(j, r, CanonTokens(j, i + 1)[i]).status == CheckFinished(j, CanonTokens(j, i + 1), r.status)
  {
    hide Committed;
    hide Agreed;
    hide StopReason;
    hide Canon;
    var draft := CanonTokens(j, i + 1)[i];
    var d := Rechecked(j, Drafted(j, r, draft, 0, 0));
    PulledAt(j, r, i, draft);
    CanonTokensNext(j, i);
    assert Committed(j, d.gen).outputs == CanonTokens(j, i + 1);
    StatusStays(j, CanonTokens(j, i + 1), r.status, Verify(j, d).status);
  }

  /** Drafting the next canonical token takes the request there, and the status changes as if it had been
      checked once. */
  lemma HonestStep(j: Job, r: Request, i: nat, flush: bool) returns (v: Request)
    requires At(j, r, i) && r.status.reason.None?
    ensures Shape(j, r.gen) && Apply(j, r, Honest(j, i, flush)) == Live(StreamOutput(v, flush))
    ensures At(j, v, i + 1) && v.status == CheckFinished(j, CanonTokens(j, i + 1), r.status)
    ensures v.delivery == r.delivery.(logs := r.delivery.logs.(upTo := i + 1))
  {
    hide Committed;
    hide Verify;
    hide StreamOutput;
    var draft := CanonTokens(j, i + 1)[i];
    DraftedAt(j, r, i, draft);
    v := Pulled(j, r, draft);
    PulledAt(j, r, i, draft);
    HonestStatus(j, r, i);
  }

  /** The isolated prefill, before it is streamed. */
  lemma PrefilledAt(j: Job, flush: bool) returns (v: Request)
    requires ValidJob(j)
    ensures Prefilled(j, flush) == StreamOutput(v, flush) && At(j, v, 1)
    ensures v.status == CheckFinished(j, CanonTokens(j, 1), Status(None, None))
    ensures v.delivery == Delivery([], 0, false, Text([], 0), Logs([], 0))
  {
    var g := Generation(j.start.tokens, 1, j.start.cache, j.start.logprobs);
    v := Rechecked(j, Request(g, Status(None, None), Delivery([], 0, false, Text([], 0), Logs([], 0)), Stats(0, 0, 0, 0)));
  }
}
