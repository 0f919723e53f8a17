/** What the client receives as text and as log-probabilities.  The detokenizer is handed the visible verified
    tokens, but all verified ones count as handed over; a length left behind by a withdrawn stop hides some of them
    for good.  And verification itself marks the log-probabilities as sent. */
module DvrText {
  import opened Arithmetic
  import opened Verifier
  import opened DecodeVerifyRollback
  import opened Determinism
  import opened DvrOutcomes
  import opened DvrSteps
  import opened DvrRetraction
  import opened DvrAnswers

  /** The requests whose text can lose tokens: some token ends a sequence, and the request is streamed once more after
      a withdrawn one, before its stop, or ends on a stop string. */
  predicate TextCanBeCut(j: Job, p: Streaming)
    requires |j.start.tokens| == 1
  {
    && (exists t :: t in j.eos)
    && (CanBeCut(j) || (p.Every? && StopLength(j, 1) > Hidden(p)))
  }

  // ----- requests whose text is whole

  /** The detokenizer has all tokens up to where it is taken to be, and at the end it has the answer. */
  ghost predicate WholeText(r: Request)
  {
    && r.delivery.text.upTo <= r.gen.verified <= |r.gen.outputs|
    && r.delivery.text.ids == r.gen.outputs[..r.delivery.text.upTo]
    && (r.delivery.closed ==> r.delivery.text.upTo == |r.gen.outputs|)
  }

  /** An unfinished request has verified less than the canonical generation up to its stop. */
  lemma VerifiedBeforeStop(j: Job, r: Request)
    requires ValidJob(j) && Orderly(j, r) && r.status.reason.None?
    requires r.gen.outputs[..r.gen.verified] == CanonTokens(j, r.gen.verified)
    ensures r.gen.verified < StopLength(j, 1)
  {
    hide StopLength;
    hide Canon;
    hide CanonTokens;
    assert r.gen.outputs[..|r.gen.outputs|] == r.gen.outputs;
    NotPastStop(j, r, r.gen.verified);
    if r.gen.verified == StopLength(j, 1) {
      StopInside(j, r.gen.outputs, r.gen.verified);
    }
  }

  lemma VerifiedWithinLimit(j: Job, r: Request)
    requires Orderly(j, r) && j.maxNew > 0
    ensures |r.gen.outputs| <= j.maxNew
  {
    if |r.gen.outputs| > 1 {
      assert StopReason(j, r.gen.outputs[..|r.gen.outputs| - 1]).None?;
    }
  }

  /** A request before it is streamed. */
  ghost predicate Streamable(j: Job, v: Request)
  {
    ValidJob(j) && Orderly(j, v) && Agreeing(j, v) && LengthKnown(j, v) && !v.delivery.closed && j.maxNew > 0
  }

  /** Before the count at which something is hidden, two tokens at most are streamed. */
  lemma FewAreStreamed(p: Streaming, verified: nat)
    requires p.Every? && p.interval >= 1 && Flushes(p, verified) && verified < Hidden(p)
    ensures verified <= 2
  {
    if p.interval > 2 && verified >= 2 {
      DivUnique(verified, if verified < p.interval then 0 else 1, if verified < p.interval then verified else 0, p.interval);
    }
  }

  /** Whatever is streamed is visible. */
  lemma LengthCovers(j: Job, v: Request, p: Streaming)
    requires Streamable(j, v) && !TextCanBeCut(j, p) && ValidStreaming(p)
    requires if v.status.reason.Some? then Unverified(v.gen) == 0 else Flushes(p, v.gen.verified)
    ensures v.status.length.Some? ==> v.status.length.value >= v.gen.verified
  {
    VerifiedWithinLimit(j, v);
    if v.status.reason.None? {
      VerifiedBeforeStop(j, v);
      if exists t :: t in j.eos {
        FewAreStreamed(p, v.gen.verified);
      }
    } else {
      assert v.gen.outputs[..v.gen.verified] == v.gen.outputs;
      FirstStopIs(j, v.gen.outputs);
    }
  }

  lemma TextStaysWhole(t: Text, g: Generation, out: seq<Token>)
    requires t.upTo <= g.verified <= |out| && out <= g.outputs && t.ids == g.outputs[..t.upTo]
    ensures TextUpTo(t, out, g.verified).ids == g.outputs[..g.verified]
  {
    assert out[t.upTo..g.verified] == g.outputs[t.upTo..g.verified];
  }

  lemma StreamedWhole(j: Job, v: Request, flush: bool, p: Streaming)
    requires Streamable(j, v) && WholeText(v) && !TextCanBeCut(j, p) && ValidStreaming(p)
    requires flush == Flushes(p, v.gen.verified)
    ensures WholeText(StreamOutput(v, flush))
  {
    hide Streamable;
    if StreamOutput(v, flush) != v {
      LengthCovers(j, v, p);
      var out := Visible(v.gen.outputs, StreamOutput(v, flush).status.length);
      TextStaysWhole(v.delivery.text, v.gen, out);
    }
  }

  /** Every step of an unfinished request ends with streaming it. */
  lemma BeforeStreaming(j: Job, r: Request, e: Event) returns (v: Request)
    requires Answering(j, r) && j.maxNew > 0 && r.status.reason.None? && Apply(j, r, e).Live?
    requires WholeText(r) && (e.Resume? ==> ResumesAgree(j))
    ensures Apply(j, r, e) == Live(StreamOutput(v, e.flush)) && Streamable(j, v) && WholeText(v)
  {
    if e.Resume? {
      v := BeforeStreamingResumed(j, r, e);
    } else {
      v := BeforeStreamingDrafted(j, r, e);
    }
  }

  lemma BeforeStreamingResumed(j: Job, r: Request, e: Event) returns (v: Request)
    requires Answering(j, r) && j.maxNew > 0 && r.status.reason.None? && e.Resume?
    requires WholeText(r) && ResumesAgree(j)
    ensures Apply(j, r, e) == Live(StreamOutput(v, e.flush)) && Streamable(j, v) && WholeText(v)
  {
    hide ResumesAgree;
    hide GoesOnCanonically;
    var d, t := Resumed(j, r, e.draft, e.logprob), r.delivery.text;
    v := Rechecked(j, d);
    AppendedOrderly(j, r, d, e.draft);
    ResumeAgreeing(j, r, e);
    assert |d.gen.outputs| >= 2 && LengthKnown(j, d);
    RecheckedLength(j, d);
    assert d.gen.outputs[..t.upTo] == r.gen.outputs[..t.upTo];
  }

  lemma BeforeStreamingDrafted(j: Job, r: Request, e: Event) returns (v: Request)
    requires Answering(j, r) && j.maxNew > 0 && r.status.reason.None? && e.Iteration? && Apply(j, r, e).Live?
    requires WholeText(r)
    ensures Apply(j, r, e) == Live(StreamOutput(v, e.flush)) && Streamable(j, v) && WholeText(v)
  {
    hide Committed;
    hide StreamOutput;
    hide GoesOnCanonically;
    var b := Drafted(j, r, e.draft, e.kv, e.logprob);
    var d, t := Rechecked(j, b), r.delivery.text;
    AppendedOrderly(j, r, b, e.draft);
    IterateAgreeing(j, r, e);
    assert d.gen.outputs[..t.upTo] == r.gen.outputs[..t.upTo];
    RecheckedLength(j, b);
    if Ready(j, d) || e.pulled {
      v := Rechecked(j, Verify(j, d));
      VerifyOrderly(j, d);
      WithdrawnLength(j, d);
      RecheckedLength(j, Verify(j, d));
      CommitKeepsVerified(j, d.gen, t.upTo);
    } else {
      v := Rechecked(j, d);
      RecheckedLength(j, d);
      RecheckedStops(j, d);
    }
  }

  lemma {:induction false} RunWhole(j: Job, r: Request, events: seq<Event>, p: Streaming)
    requires Answering(j, r) && WholeText(r) && !TextCanBeCut(j, p) && j.maxNew > 0 && ValidStreaming(p)
    requires (NoRetraction(events) || ResumesAgree(j)) && FlushedBy(j, r, events, p)
    ensures Run(j, r, events).Live? ==> WholeText(Run(j, r, events).r)
    decreases |events|
  {
    hide Apply;
    hide WholeText;
    hide Answering;
    hide StreamOutput;
    hide TextCanBeCut;
    AnsweringShape(j, r);
    if events != [] && Apply(j, r, events[0]).Live? {
      var e := events[0];
      assert e in events && forall f :: f in events[1..] ==> f in events;
      ApplyAnswering(j, r, e);
      if r.status.reason.None? {
        var v := BeforeStreaming(j, r, e);
        StreamedWhole(j, v, e.flush, p);
      } else {
        FinishedStep(j, r, e);
      }
      RunWhole(j, Apply(j, r, e).r, events[1..], p);
    }
  }

  lemma AnsweringShape(j: Job, r: Request)
    requires Answering(j, r)
    ensures ValidJob(j) && Shape(j, r.gen)
  {
  }

  lemma FinishedStep(j: Job, r: Request, e: Event)
    requires ValidJob(j) && Shape(j, r.gen) && r.status.reason.Some?
    ensures Apply(j, r, e) == Live(r)
  {
  }

  lemma PrefilledWhole(j: Job, flush: bool)
    requires ValidJob(j) && j.maxNew > 0
    ensures WholeText(Prefilled(j, flush))
  {
  }

  /** An answered request got all of its text. */
  ghost predicate TextArrives(j: Job, p: Streaming, events: seq<Event>)
    requires ValidJob(j) && ValidStreaming(p)
  {
    var o := Served(j, p, events);
    o.Live? && o.r.delivery.closed ==> o.r.delivery.text.ids == Answer(j)
  }

  lemma UncutText(j: Job, p: Streaming, events: seq<Event>)
    requires ValidJob(j) && ValidStreaming(p) && !TextCanBeCut(j, p) && Streamed(j, p, events)
    requires NoRetraction(events) || ResumesAgree(j)
    ensures TextArrives(j, p, events)
  {
    hide Run;
    hide FlushedBy;
    var r := Prefilled(j, Flushes(p, 1));
    PrefilledAnswering(j, Flushes(p, 1));
    if j.maxNew == 0 {
      FinishedStays(j, r, events);
    } else {
      hide Prefilled;
      RunAnswering(j, r, events);
      PrefilledWhole(j, Flushes(p, 1));
      RunWhole(j, r, events, p);
      if Run(j, r, events).Live? && Run(j, r, events).r.delivery.closed {
        WholeAtTheEnd(j, Run(j, r, events).r);
      }
    }
  }

  lemma WholeAtTheEnd(j: Job, r: Request)
    requires Answering(j, r) && WholeText(r) && r.delivery.closed && j.maxNew > 0
    ensures r.delivery.text.ids == Answer(j)
  {
    AnsweredAtStop(j, r);
    VerifiedWithinLimit(j, r);
    assert r.gen.outputs[..|r.gen.outputs|] == r.gen.outputs;
  }

  // ----- the run that loses tokens

  /** An end token is drafted and withdrawn, and the text delivered in the end is shorter than the answer. */
  lemma LosingRun(j: Job, p: Streaming) returns (events: seq<Event>)
    requires ValidJob(j) && ValidStreaming(p) && TextCanBeCut(j, p)
    ensures NoRetraction(events) && Streamed(j, p, events)
    ensures var o := Served(j, p, events);
            o.Live? && o.r.delivery.closed && |o.r.delivery.text.ids| < |Answer(j)|
  {
    hide Run;
    hide FlushedBy;
    events := WithdrawnRun(j, p);
    WholeAnswer(j);
  }

  /** For every way of streaming: without retractions the text delivered for a request is the canonical answer in every
      run if and only if no token of it can be lost; and the same holds with retractions if resumed requests go on
      canonically. */
  lemma TextIsDeterministicIff(j: Job, p: Streaming)
    requires ValidJob(j) && ValidStreaming(p)
    ensures (forall events :: NoRetraction(events) && Streamed(j, p, events) ==> TextArrives(j, p, events))
            <==> !TextCanBeCut(j, p)
    ensures ResumesAgree(j) ==>
            ((forall events :: Streamed(j, p, events) ==> TextArrives(j, p, events)) <==> !TextCanBeCut(j, p))
  {
    hide Served;
    hide Streamed;
    if TextCanBeCut(j, p) {
      var events := LosingRun(j, p);
      assert !TextArrives(j, p, events);
    } else {
      forall events | (NoRetraction(events) || ResumesAgree(j)) && Streamed(j, p, events)
        ensures TextArrives(j, p, events)
      {
        UncutText(j, p, events);
      }
    }
  }

  /** A request that is streamed after every token and stops at its length limit loses text, though none of its token
      ids. */
  lemma SomeRequestLosesText(j: Job)
    requires j == CountingJob().(maxNew := 4, matchesStop := (ts: seq<Token>) => false)
    ensures ValidJob(j) && TextCanBeCut(j, Every(1)) && !TextCanBeCut(j, Never) && !CanBeCut(j)
  {
    hide Canon;
    hide StopLength;
    CountingTokens(j);
    assert [1, 2, 3, 4][..1] == [1] && [1, 2, 3, 4][..2] == [1, 2] && [1, 2, 3, 4][..3] == [1, 2, 3];
    FirstStopIs(j, [1, 2, 3, 4]);
    assert 9 in j.eos;
  }

  // ----- log-probabilities

  ghost predicate NoFlush(events: seq<Event>)
  {
    forall e :: e in events ==> !e.flush
  }

  lemma IterateSilent(j: Job, r: Request, draft: Token, kv: KV, logprob: int, pulled: bool)
    requires Shape(j, r.gen) && Open(r) && r.status.reason.None? && r.delivery.logs.sent == []
    ensures var o := Iterate(j, r, draft, kv, logprob, pulled, false); o.Live? ==> o.r.delivery.logs.sent == []
  {
    var d := Rechecked(j, Drafted(j, r, draft, kv, logprob));
    assert Verification(j, d, pulled) == Live(Verify(j, d)) ==> Verify(j, d).delivery.logs.upTo == |Verify(j, d).gen.logprobs|;
  }

  /** A request that is not streamed and does not stop at its first token gets no log-probabilities at all. */
  lemma {:induction false} RunSilent(j: Job, r: Request, events: seq<Event>)
    requires ValidJob(j) && Orderly(j, r) && Open(r) && r.delivery.logs.sent == [] && NoFlush(events) && NoRetraction(events)
    ensures Run(j, r, events).Live? ==> Run(j, r, events).r.delivery.logs.sent == []
    decreases |events|
  {
    if r.status.reason.Some? {
      FinishedStays(j, r, events);
    } else if events != [] {
      var e := events[0];
      assert e in events && !e.flush;
      IterateSilent(j, r, e.draft, e.kv, e.logprob, e.pulled);
      ApplyOrderly(j, r, e);
      if Apply(j, r, e).Live? {
        assert forall f :: f in events[1..] ==> f in events;
        RunSilent(j, Apply(j, r, e).r, events[1..]);
      }
    }
  }

  /** Honest drafts, each verified at once: nothing is sent after the log-probability of the first token. */
  lemma {:induction false} HonestRunIsSilent(j: Job, r: Request, i: nat, p: Streaming)
    requires At(j, r, i) && r.status.reason.None? && |r.delivery.logs.sent| <= 1 && i < StopLength(j, 1) && ValidStreaming(p)
    ensures Shape(j, r.gen) && FlushedBy(j, r, HonestDrafts(j, i, p), p)
    ensures var o := Run(j, r, HonestDrafts(j, i, p));
            o.Live? && o.r.delivery.closed && |o.r.gen.logprobs| == StopLength(j, 1) && |o.r.delivery.logs.sent| <= 1
    decreases StopLength(j, 1) - i
  {
    hide Run;
    hide FlushedBy;
    hide StreamOutput;
    hide Canon;
    hide StopLength;
    var v := HonestNext(j, r, i, p);
    var t := StreamOutput(v, Flushes(p, i + 1));
    SilentStep(j, r, i, v, Flushes(p, i + 1));
    if i + 1 < StopLength(j, 1) {
      HonestRunIsSilent(j, t, i + 1, p);
    } else {
      NothingLeft(j, t, p);
    }
  }

  lemma SilentStep(j: Job, r: Request, i: nat, v: Request, flush: bool)
    requires At(j, r, i) && r.status.reason.None? && At(j, v, i + 1) && i < StopLength(j, 1)
    requires v.status == CheckFinished(j, CanonTokens(j, i + 1), r.status)
    requires v.delivery == r.delivery.(logs := r.delivery.logs.(upTo := i + 1))
    ensures var t := StreamOutput(v, flush);
            && t.delivery.logs.sent == r.delivery.logs.sent && |t.gen.logprobs| == i + 1
            && if i + 1 < StopLength(j, 1) then At(j, t, i + 1) && t.status.reason.None? else t.delivery.closed
  {
    hide StopLength;
    hide Canon;
    hide CanonTokens;
    assert i + 1 < StopLength(j, 1) ==> StopReason(j, CanonTokens(j, i + 1)).None?;
    assert i + 1 == StopLength(j, 1) ==> StopReason(j, CanonTokens(j, i + 1)).Some?;
    assert |v.gen.logprobs| == i + 1 && r.delivery.logs.sent + [] == r.delivery.logs.sent;
  }

  /** An answered request got all log-probabilities. */
  ghost predicate LogprobsArrive(j: Job, p: Streaming, events: seq<Event>)
    requires ValidJob(j) && ValidStreaming(p)
  {
    var o := Served(j, p, events);
    o.Live? && o.r.delivery.closed ==> o.r.delivery.logs.sent == o.r.gen.logprobs
  }

  /** For every way of streaming the log-probabilities of the answer arrive in every run if and only if the request
      stops at its first token. */
  lemma LogprobsArriveIff(j: Job, p: Streaming)
    requires ValidJob(j) && ValidStreaming(p)
    ensures (forall events :: NoRetraction(events) && Streamed(j, p, events) ==> LogprobsArrive(j, p, events))
            <==> StopLength(j, 1) == 1
  {
    hide LogprobsArrive;
    hide Streamed;
    hide StopLength;
    if StopLength(j, 1) == 1 {
      forall events
        ensures LogprobsArrive(j, p, events)
      {
        FirstArrives(j, p, events);
      }
    } else {
      var events := SilentRun(j, p);
    }
  }

  lemma FirstArrives(j: Job, p: Streaming, events: seq<Event>)
    requires ValidJob(j) && ValidStreaming(p) && StopLength(j, 1) == 1
    ensures LogprobsArrive(j, p, events)
  {
    hide Run;
    StopsAtOnce(j, Flushes(p, 1));
    FinishedStays(j, Prefilled(j, Flushes(p, 1)), events);
  }

  /** The run in which all but the first log-probability are lost at least. */
  lemma SilentRun(j: Job, p: Streaming) returns (events: seq<Event>)
    requires ValidJob(j) && ValidStreaming(p) && StopLength(j, 1) != 1
    ensures NoRetraction(events) && Streamed(j, p, events) && !LogprobsArrive(j, p, events)
  {
    hide Run;
    hide FlushedBy;
    hide Prefilled;
    hide StopLength;
    hide Canon;
    PrefilledQuiet(j, Flushes(p, 1));
    HonestRunIsSilent(j, Prefilled(j, Flushes(p, 1)), 1, p);
    events := HonestDrafts(j, 1, p);
  }

  lemma StopsAtOnce(j: Job, flush: bool)
    requires ValidJob(j) && StopLength(j, 1) == 1
    ensures var r := Prefilled(j, flush); r.status.reason.Some? && r.delivery.logs.sent == r.gen.logprobs
  {
    var v := PrefilledAt(j, flush);
    assert [] + v.gen.logprobs[0..] == v.gen.logprobs;
  }

  lemma PrefilledQuiet(j: Job, flush: bool)
    requires ValidJob(j) && StopLength(j, 1) != 1
    ensures var r := Prefilled(j, flush); At(j, r, 1) && r.status.reason.None? && |r.delivery.logs.sent| <= 1
  {
    var v := PrefilledAt(j, flush);
    assert StopReason(j, CanonTokens(j, 1)).None?;
  }
}
