/** What the client receives.  Committed tokens never depend on the drafts, but the answer can: the
    length recorded when a draft met an end-of-sequence token survives the rollback that withdraws
    the stop, and a later stop-string match does not overwrite it. */
module DvrAnswers {
  import opened Arithmetic
  import opened Options
  import opened Sequences
  import opened Verifier
  import opened DecodeVerifyRollback
  import opened Determinism
  import opened DvrOutcomes
  import opened DvrSteps
  import opened DvrRetraction

  /** The requests whose answer can be cut short: the canonical generation ends on a stop string
      after more than two tokens and some token ends a sequence. */
  predicate CanBeCut(j: Job)
    requires |j.start.tokens| == 1
  {
    && StopReason(j, CanonTokens(j, StopLength(j, 1))) == Some(MatchedString)
    && StopLength(j, 1) > 2
    && (exists t :: t in j.eos)
  }

  /** What is known of the recorded length: a draft set it, or it belongs to the present stop. */
  ghost predicate LengthKnown(j: Job, r: Request)
  {
    match r.status.reason
    case None => r.status.length.Some? ==> Stale(j, r.status.length.value)
    case Some(Length) => r.status.length == Some(j.maxNew)
    case Some(MatchedToken) => r.status.length == Some(|r.gen.outputs|)
    case Some(MatchedString) =>
      r.status.length.Some? ==>
        Stale(j, r.status.length.value) || (r.delivery.closed && r.status.length.value == |r.gen.outputs|)
  }

  ghost predicate Stale(j: Job, length: nat)
  {
    length == j.maxNew || (length >= 2 && (exists t :: t in j.eos))
  }

  /** A request is closed once it is verified entirely, with as many token ids as its length allows. */
  ghost predicate ClosedAtLength(r: Request)
  {
    r.delivery.closed ==>
      && r.gen.verified == |r.gen.outputs|
      && r.status.length.Some? && r.delivery.offset == |Visible(r.gen.outputs, r.status.length)|
  }

  lemma RecheckedLength(j: Job, d: Request)
    requires |d.gen.outputs| >= 2 && LengthKnown(j, d)
    ensures LengthKnown(j, Rechecked(j, d))
  {
  }

  lemma IterateLength(j: Job, r: Request, draft: Token, kv: KV, logprob: int, pulled: bool, flush: bool)
    requires ValidJob(j) && Shape(j, r.gen) && Open(r) && r.status.reason.None?
    requires LengthKnown(j, r) && ClosedAtLength(r)
    ensures var o := Iterate(j, r, draft, kv, logprob, pulled, flush);
            o.Live? ==> LengthKnown(j, o.r) && ClosedAtLength(o.r)
  {
    hide StreamOutput;
    hide Committed;
    hide Agreed;
    var e := Drafted(j, r, draft, kv, logprob);
    var d := Rechecked(j, e);
    assert |d.gen.outputs| >= 2 && LengthKnown(j, e);
    RecheckedLength(j, e);
    var o := Verification(j, d, pulled);
    if o.Live? {
      if o.r != d {
        WithdrawnLength(j, d);
      }
      RecheckedLength(j, o.r);
      StreamedLength(j, Rechecked(j, o.r), flush);
    }
  }

  lemma StreamedLength(j: Job, r: Request, flush: bool)
    requires LengthKnown(j, r) && !r.delivery.closed && r.gen.verified <= |r.gen.outputs|
    ensures LengthKnown(j, StreamOutput(r, flush)) && ClosedAtLength(StreamOutput(r, flush))
  {
  }

  lemma WithdrawnLength(j: Job, d: Request)
    requires Shape(j, d.gen) && Unverified(d.gen) > 0 && LengthKnown(j, d) && |d.gen.outputs| >= 2
    requires !d.delivery.closed
    requires d.status.reason == Some(MatchedToken) ==> StopReason(j, d.gen.outputs) == Some(MatchedToken)
    ensures LengthKnown(j, Verify(j, d)) && |Verify(j, d).gen.outputs| >= 2
  {
    CommitKeepsAgreed(j, d.gen);
    var v := Verify(j, d);
    if Agreed(j, d.gen) < Unverified(d.gen) {
      assert v.status == Status(None, d.status.length);
      if d.status.reason == Some(MatchedToken) {
        var last := d.gen.outputs[|d.gen.outputs| - 1];
        assert last in j.eos;
      }
    } else {
      assert v.status == d.status && v.gen.outputs == d.gen.outputs;
    }
  }

  lemma ResumeLength(j: Job, r: Request, e: Event)
    requires ValidJob(j) && Shape(j, r.gen) && Open(r) && r.status.reason.None? && e.Resume?
    requires LengthKnown(j, r) && ClosedAtLength(r)
    ensures LengthKnown(j, Apply(j, r, e).r) && ClosedAtLength(Apply(j, r, e).r)
  {
    var d := Resumed(j, r, e.draft, e.logprob);
    assert |d.gen.outputs| >= 2 && LengthKnown(j, d);
    RecheckedLength(j, d);
    StreamedLength(j, Rechecked(j, d), e.flush);
  }

  ghost predicate Answering(j: Job, r: Request)
  {
    && ValidJob(j) && Orderly(j, r) && Open(r) && Agreeing(j, r)
    && LengthKnown(j, r) && ClosedAtLength(r)
  }

  lemma ApplyAnswering(j: Job, r: Request, e: Event)
    requires Answering(j, r) && (e.Resume? ==> ResumesAgree(j))
    ensures Apply(j, r, e).Live? ==> Answering(j, Apply(j, r, e).r)
  {
    hide Agreeing;
    hide Iterate;
    hide LengthKnown;
    hide ClosedAtLength;
    ApplyOrderly(j, r, e);
    ApplyAgreeing(j, r, e);
    if r.status.reason.None? {
      if e.Iteration? {
        IterateLength(j, r, e.draft, e.kv, e.logprob, e.pulled, e.flush);
      } else {
        ResumeLength(j, r, e);
      }
    }
  }

  lemma {:induction false} RunAnswering(j: Job, r: Request, events: seq<Event>)
    requires Answering(j, r) && (NoRetraction(events) || ResumesAgree(j))
    ensures Run(j, r, events).Live? ==> Answering(j, Run(j, r, events).r)
    decreases |events|
  {
    hide Apply;
    hide Agreeing;
    if events != [] {
      var e := events[0];
      assert e in events && forall f :: f in events[1..] ==> f in events;
      ApplyAnswering(j, r, e);
      if Apply(j, r, e).Live? {
        RunAnswering(j, Apply(j, r, e).r, events[1..]);
      }
    }
  }

  lemma PrefilledAnswering(j: Job, flush: bool)
    requires ValidJob(j)
    ensures Answering(j, Prefilled(j, flush))
  {
    PrefilledOrderly(j, flush);
    PrefilledAgreeing(j, flush);
  }

  /** A request that has been answered holds the canonical generation up to its first stop. */
  lemma AnsweredAtStop(j: Job, r: Request)
    requires Answering(j, r) && r.delivery.closed
    ensures r.gen.outputs == CanonTokens(j, StopLength(j, 1))
  {
    assert r.gen.outputs[..r.gen.verified] == r.gen.outputs;
    FirstStopIs(j, r.gen.outputs);
  }

  /** The whole answer, unless a recorded length from a withdrawn stop is shorter. */
  lemma AnswerOrCut(j: Job, r: Request)
    requires Answering(j, r) && r.delivery.closed
    ensures r.status.length.Some? && r.delivery.sent == Visible(CanonTokens(j, StopLength(j, 1)), r.status.length)
    ensures !CanBeCut(j) ==> r.delivery.sent == Answer(j)
  {
    hide Canon;
    hide StopLength;
    AnsweredAtStop(j, r);
    var outs, k := r.gen.outputs, StopLength(j, 1);
    assert r.delivery.sent == outs[..r.delivery.offset] == Visible(outs, r.status.length);
    if !CanBeCut(j) {
      assert r.status.reason == Some(MatchedString) ==> Min(r.status.length.value, k) == k < j.maxNew;
    }
  }

  /** Whatever is streamed, at any moment of any run, is an initial piece of the canonical generation as token ids,
      and made of its tokens in order as text. */
  lemma StreamedIsCanonical(j: Job, flush: bool, events: seq<Event>)
    requires ValidJob(j) && NoRetraction(events)
    ensures var o := Run(j, Prefilled(j, flush), events);
            && o.Live?
            && |o.r.delivery.sent| <= o.r.gen.verified
            && o.r.delivery.sent <= CanonTokens(j, o.r.gen.verified)
            && Subsequence(o.r.delivery.text.ids, CanonTokens(j, o.r.gen.verified))
  {
    hide Run;
    hide Prefilled;
    RunsToTheEnd(j, flush, events);
    SafeIsCanonical(j, Run(j, Prefilled(j, flush), events).r);
  }

  /** Without retractions no run fails, and a finished request has been answered. */
  lemma RunsToTheEnd(j: Job, flush: bool, events: seq<Event>)
    requires ValidJob(j) && NoRetraction(events)
    ensures var o := Run(j, Prefilled(j, flush), events);
            o.Live? && Safe(j, o.r) && (o.r.status.reason.Some? ==> o.r.delivery.closed)
  {
    hide Run;
    PrefilledSafe(j, flush);
    PrefilledBounded(j, flush);
    RunBounded(j, Prefilled(j, flush), events);
  }

  // ----- a length that a withdrawn stop leaves behind

  /** A draft that ends the sequence after one token is withdrawn, but its length stays recorded. */
  lemma WithdrawnStop(j: Job, r: Request, end: Token, flush: bool) returns (v: Request)
    requires At(j, r, 1) && r.status == Status(None, None) && StopLength(j, 1) > 2 && end in j.eos
    ensures Shape(j, r.gen) && Apply(j, r, Iteration(end, 0, 0, false, flush)) == Live(StreamOutput(v, flush))
    ensures At(j, v, 2) && v.status == Status(None, Some(2))
    ensures v.delivery == r.delivery.(logs := r.delivery.logs.(upTo := 2))
  {
    assert StopReason(j, CanonTokens(j, 2)).None?;
    DraftedAt(j, r, 1, end);
    PulledAt(j, r, 1, end);
    v := Pulled(j, r, end);
    WithdrawnStatus(j, r, end);
  }

  /** The verifier's token is not the drafted one, so that the stop is withdrawn. */
  lemma WithdrawnStatus(j: Job, r: Request, end: Token)
    requires At(j, r, 1) && r.status == Status(None, None) && StopReason(j, CanonTokens(j, 2)).None? && end in j.eos
    ensures Shape(j, r.gen) && Rechecked(j, Drafted(j, r, end, 0, 0)).status == Status(Some(MatchedToken), Some(2))
    ensures Pulled(j, r, end).status == Status(None, Some(2))
  {
    DraftedAt(j, r, 1, end);
    PulledAt(j, r, 1, end);
    var d := Rechecked(j, Drafted(j, r, end, 0, 0));
    assert Committed(j, d.gen).outputs == CanonTokens(j, 2);
    CommitKeepsAgreed(j, d.gen);
  }

  /** Honest drafts to the end, streamed as the setting says. */
  function HonestDrafts(j: Job, i: nat, p: Streaming): (events: seq<Event>)
    requires |j.start.tokens| == 1 && i >= 1 && (p.Every? ==> p.interval >= 1)
    ensures NoRetraction(events)
    decreases StopLength(j, 1) - i
  {
    if i >= StopLength(j, 1) then [] else [Honest(j, i, Flushes(p, i + 1))] + HonestDrafts(j, i + 1, p)
  }

  /** One honest draft: the request as it is before streaming, and where the rest of the run starts. */
  lemma HonestNext(j: Job, r: Request, i: nat, p: Streaming) returns (v: Request)
    requires At(j, r, i) && r.status.reason.None? && i < StopLength(j, 1) && ValidStreaming(p)
    ensures At(j, v, i + 1) && v.status == CheckFinished(j, CanonTokens(j, i + 1), r.status)
    ensures v.delivery == r.delivery.(logs := r.delivery.logs.(upTo := i + 1))
    ensures Shape(j, r.gen) && Shape(j, v.gen)
    ensures var t := StreamOutput(v, Flushes(p, i + 1));
            && Run(j, r, HonestDrafts(j, i, p)) == Run(j, t, HonestDrafts(j, i + 1, p))
            && (FlushedBy(j, t, HonestDrafts(j, i + 1, p), p) ==> FlushedBy(j, r, HonestDrafts(j, i, p), p))
  {
    hide Apply;
    hide Run;
    hide FlushedBy;
    hide StreamOutput;
    hide CheckFinished;
    hide StopLength;
    hide Canon;
    v := HonestStep(j, r, i, Flushes(p, i + 1));
    var e, rest := Honest(j, i, Flushes(p, i + 1)), HonestDrafts(j, i + 1, p);
    RunCons(j, r, e, rest);
    if FlushedBy(j, StreamOutput(v, Flushes(p, i + 1)), rest, p) {
      FlushedCons(j, r, e, rest, p);
    }
  }

  lemma NothingLeft(j: Job, r: Request, p: Streaming)
    requires ValidJob(j) && Shape(j, r.gen) && ValidStreaming(p)
    ensures FlushedBy(j, r, [], p) && Run(j, r, []) == Live(r)
  {
  }

  /** The first count of verified tokens at which something is hidden behind a length of two and streamed over. */
  function Hidden(p: Streaming): nat
  {
    if p.Every? && p.interval > 2 then p.interval + 1 else 3
  }

  lemma HiddenFlushes(p: Streaming)
    requires p.Every? && p.interval >= 1
    ensures Flushes(p, Hidden(p))
  {
    if p.interval > 2 {
      var q: nat := p.interval + 1;
      DivUnique(q, 1, 1, p.interval);
    }
  }

  /** A request on its way to losing tokens: a length of two is on record, no more than two tokens have been
      delivered, and the detokenizer may be taken to have more. */
  ghost predicate Losing(j: Job, r: Request, i: nat, p: Streaming)
  {
    && At(j, r, i) && r.status == Status(None, Some(2)) && |r.delivery.sent| == r.delivery.offset <= 2
    && |r.delivery.text.ids| <= Min(r.delivery.text.upTo, 2)
    && (p.Every? && i >= Hidden(p) ==> r.delivery.text.upTo >= 3)
  }

  predicate StopsOnString(j: Job)
    requires |j.start.tokens| == 1
  {
    StopReason(j, CanonTokens(j, StopLength(j, 1))) == Some(MatchedString)
  }

  /** What has been lost in the end. */
  ghost predicate Lost(j: Job, r: Request, p: Streaming)
    requires |j.start.tokens| == 1
  {
    && r.status.reason.Some? && r.delivery.closed
    && (StopsOnString(j) ==> |r.delivery.sent| <= 2 && |r.delivery.text.ids| <= 2)
    && (p.Every? && StopLength(j, 1) > Hidden(p) ==> |r.delivery.text.ids| < StopLength(j, 1))
  }

  lemma LosingStep(j: Job, r: Request, i: nat, v: Request, p: Streaming)
    requires Losing(j, r, i, p) && At(j, v, i + 1) && 2 <= i < StopLength(j, 1) && ValidStreaming(p)
    requires v.status == CheckFinished(j, CanonTokens(j, i + 1), r.status)
    requires v.delivery == r.delivery.(logs := r.delivery.logs.(upTo := i + 1))
    ensures var t := StreamOutput(v, Flushes(p, i + 1));
            if i + 1 < StopLength(j, 1) then Losing(j, t, i + 1, p) else Lost(j, t, p)
  {
    hide StopLength;
    hide Canon;
    AtSizes(j, v, i + 1);
    if i + 1 < StopLength(j, 1) {
      assert StopReason(j, CanonTokens(j, i + 1)).None?;
      LosingGoesOn(j, r, i, v, p);
    } else {
      assert StopReason(j, CanonTokens(j, i + 1)).Some?;
      LosingEnds(j, r, i, v, p);
    }
  }

  lemma LosingGoesOn(j: Job, r: Request, i: nat, v: Request, p: Streaming)
    requires Losing(j, r, i, p) && At(j, v, i + 1) && 2 <= i && ValidStreaming(p) && v.status == r.status
    requires v.delivery == r.delivery.(logs := r.delivery.logs.(upTo := i + 1)) && |v.gen.outputs| == v.gen.verified == i + 1
    ensures Losing(j, StreamOutput(v, Flushes(p, i + 1)), i + 1, p)
  {
    hide CanonGeneration;
    if p.Every? { HiddenFlushes(p); }
  }

  lemma LosingEnds(j: Job, r: Request, i: nat, v: Request, p: Streaming)
    requires Losing(j, r, i, p) && At(j, v, i + 1) && 2 <= i && ValidStreaming(p) && i + 1 == StopLength(j, 1)
    requires v.status == CheckFinished(j, CanonTokens(j, i + 1), r.status) && StopReason(j, CanonTokens(j, i + 1)).Some?
    requires v.delivery == r.delivery.(logs := r.delivery.logs.(upTo := i + 1)) && |v.gen.outputs| == v.gen.verified == i + 1
    ensures Lost(j, StreamOutput(v, Flushes(p, i + 1)), p)
  {
    hide CanonGeneration;
    hide StopLength;
    hide Canon;
    hide StopReason;
  }

  lemma AtSizes(j: Job, r: Request, i: nat)
    requires At(j, r, i)
    ensures |r.gen.outputs| == r.gen.verified == i
  {
  }

  lemma {:induction false} HonestRunLoses(j: Job, r: Request, i: nat, p: Streaming)
    requires Losing(j, r, i, p) && 2 <= i < StopLength(j, 1) && ValidStreaming(p)
    ensures Shape(j, r.gen) && FlushedBy(j, r, HonestDrafts(j, i, p), p)
    ensures var o := Run(j, r, HonestDrafts(j, i, p)); o.Live? && Lost(j, o.r, p)
    decreases StopLength(j, 1) - i
  {
    hide Run;
    hide FlushedBy;
    hide StreamOutput;
    hide Lost;
    hide Canon;
    hide StopLength;
    hide CanonGeneration;
    hide CheckFinished;
    hide Losing;
    hide At;
    hide HonestDrafts;
    LosingAt(j, r, i, p);
    var v := HonestNext(j, r, i, p);
    LosingStep(j, r, i, v, p);
    var t := StreamOutput(v, Flushes(p, i + 1));
    if i + 1 < StopLength(j, 1) {
      HonestRunLoses(j, t, i + 1, p);
    } else {
      NothingLeft(j, t, p);
      NoDraftsLeft(j, i + 1, p);
    }
  }

  lemma NoDraftsLeft(j: Job, i: nat, p: Streaming)
    requires |j.start.tokens| == 1 && i >= 1 && ValidStreaming(p) && i >= StopLength(j, 1)
    ensures HonestDrafts(j, i, p) == []
  {
  }

  lemma LosingAt(j: Job, r: Request, i: nat, p: Streaming)
    requires Losing(j, r, i, p)
    ensures At(j, r, i) && ValidJob(j) && i >= 1 && Shape(j, r.gen) && r.status.reason.None?
  {
  }

  /** A draft of the end token, withdrawn, and then honest drafts. */
  lemma WithdrawnRun(j: Job, p: Streaming) returns (events: seq<Event>)
    requires ValidJob(j) && ValidStreaming(p) && StopLength(j, 1) > 2 && exists t :: t in j.eos
    ensures NoRetraction(events) && Streamed(j, p, events)
    ensures Served(j, p, events).Live? && Lost(j, Served(j, p, events).r, p)
  {
    hide Run;
    hide FlushedBy;
    hide Apply;
    hide Lost;
    var end :| end in j.eos;
    var e, rest := Iteration(end, 0, 0, false, Flushes(p, 2)), HonestDrafts(j, 2, p);
    events := [e] + rest;
    assert StopReason(j, CanonTokens(j, 1)).None?;
    var a := PrefilledAt(j, Flushes(p, 1));
    var r := StreamOutput(a, Flushes(p, 1));
    AtSizes(j, a, 1);
    var v := WithdrawnStop(j, r, end, Flushes(p, 2));
    AtSizes(j, v, 2);
    var t := StreamOutput(v, Flushes(p, 2));
    assert Losing(j, t, 2, p);
    HonestRunLoses(j, t, 2, p);
    RunCons(j, r, e, rest);
    FlushedCons(j, r, e, rest, p);
  }

  // ----- the token ids depend on the drafts exactly when they can be cut

  /** However it is streamed, a request that can be cut is answered with two tokens in some run. */
  lemma CutRun(j: Job, p: Streaming) returns (events: seq<Event>)
    requires ValidJob(j) && ValidStreaming(p) && CanBeCut(j)
    ensures NoRetraction(events) && Streamed(j, p, events)
    ensures var o := Served(j, p, events);
            o.Live? && o.r.delivery.closed && o.r.status.reason.Some? && |o.r.delivery.sent| <= 2 < |Answer(j)|
  {
    hide Run;
    hide FlushedBy;
    events := WithdrawnRun(j, p);
    WholeAnswer(j);
  }

  lemma WholeAnswer(j: Job)
    requires ValidJob(j) && StopLength(j, 1) > 1
    ensures StopLength(j, 1) <= j.maxNew && Answer(j) == CanonTokens(j, StopLength(j, 1))
  {
    hide StopLength;
    hide Canon;
    assert StopReason(j, CanonTokens(j, StopLength(j, 1) - 1)).None?;
  }

  /** Whatever it drafts and however it is streamed, a request that cannot be cut is answered in full. */
  lemma UncutRun(j: Job, flush: bool, events: seq<Event>)
    requires ValidJob(j) && !CanBeCut(j) && (NoRetraction(events) || ResumesAgree(j))
    ensures var o := Run(j, Prefilled(j, flush), events);
            o.Live? && o.r.delivery.closed ==> o.r.delivery.sent == Answer(j)
  {
    hide Run;
    hide Prefilled;
    PrefilledAnswering(j, flush);
    RunAnswering(j, Prefilled(j, flush), events);
    var o := Run(j, Prefilled(j, flush), events);
    if o.Live? && o.r.delivery.closed {
      AnswerOrCut(j, o.r);
    }
  }

  /** An answered request got all token ids. */
  ghost predicate IdsArrive(j: Job, p: Streaming, events: seq<Event>)
    requires ValidJob(j) && ValidStreaming(p)
  {
    var o := Served(j, p, events);
    o.Live? && o.r.delivery.closed ==> o.r.delivery.sent == Answer(j)
  }

  /** For every way of streaming: without retractions a request is answered with the same token ids in every run if
      and only if they cannot be cut; and the same holds with retractions if resumed requests go on canonically. */
  lemma TokenIdsAreDeterministicIff(j: Job, p: Streaming)
    requires ValidJob(j) && ValidStreaming(p)
    ensures (forall events :: NoRetraction(events) && Streamed(j, p, events) ==> IdsArrive(j, p, events))
            <==> !CanBeCut(j)
    ensures ResumesAgree(j) ==>
            ((forall events :: Streamed(j, p, events) ==> IdsArrive(j, p, events)) <==> !CanBeCut(j))
  {
    hide Served;
    hide Streamed;
    if CanBeCut(j) {
      var events := CutRun(j, p);
      assert !IdsArrive(j, p, events);
    } else {
      forall events | NoRetraction(events) || ResumesAgree(j)
        ensures IdsArrive(j, p, events)
      {
        UncutIds(j, p, events);
      }
    }
  }

  lemma UncutIds(j: Job, p: Streaming, events: seq<Event>)
    requires ValidJob(j) && ValidStreaming(p) && !CanBeCut(j) && (NoRetraction(events) || ResumesAgree(j))
    ensures IdsArrive(j, p, events)
  {
    hide Run;
    UncutRun(j, Flushes(p, 1), events);
  }

  // ----- a request that is cut

  /** The verifier counts up from 1; token 9 ends a sequence, and a stop string ends this request after three
      tokens. */
  function CountingJob(): Job
  {
    Job((prefix: seq<KV>, t: Token) => Pass(0, t + 1, 0), Stream([], [1], [0]), (ts: seq<Token>) => seq(|ts|, _ => 0),
        10, {9}, (ts: seq<Token>) => |ts| == 3, 4)
  }

  lemma CountingTokens(j: Job)
    requires j.start == Stream([], [1], [0]) && j.kernel == CountingJob().kernel
    ensures CanonTokens(j, 1) == [1] && CanonTokens(j, 2) == [1, 2] && CanonTokens(j, 3) == [1, 2, 3]
    ensures CanonTokens(j, 4) == [1, 2, 3, 4]
  {
    var c := Canon(j.kernel, j.start, 0);
    var d := Canon(j.kernel, j.start, 1);
    var e := Canon(j.kernel, j.start, 2);
    assert d == Next(j.kernel, c) && e == Next(j.kernel, d) && Canon(j.kernel, j.start, 3) == Next(j.kernel, e);
  }

  lemma SomeRequestIsCut()
    ensures ValidJob(CountingJob()) && CanBeCut(CountingJob())
  {
    var j := CountingJob();
    hide Canon;
    hide StopLength;
    CountingTokens(j);
    assert [1, 2, 3][..1] == [1] && [1, 2, 3][..2] == [1, 2];
    FirstStopIs(j, [1, 2, 3]);
    assert 9 in j.eos;
  }
}
