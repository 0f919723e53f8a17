/** What retraction can break.  The prefill that resumes a retracted request appends a token without verifying
    anything: it can overfill the window, which ends the server, and it can finish a request that is then never
    answered. */
module DvrFailures {
  import opened Verifier
  import opened DecodeVerifyRollback
  import opened Determinism
  import opened DvrOutcomes
  import opened DvrSteps

  // ----- one step

  /** After a decode iteration an unfinished request has less than a window of unverified tokens; a resuming prefill
      adds one. */
  lemma StepUnverified(j: Job, r: Request, e: Event)
    requires ValidJob(j) && Shape(j, r.gen) && r.status.reason.None?
    requires Apply(j, r, e).Live? && Apply(j, r, e).r.status.reason.None?
    ensures Unverified(Apply(j, r, e).r.gen) < j.window || e.Resume?
    ensures e.Resume? ==> Unverified(Apply(j, r, e).r.gen) == Unverified(r.gen) + 1
  {
  }

  /** A request that a decode iteration finishes is answered at once; one that a resuming prefill finishes is not. */
  lemma FinishingStep(j: Job, r: Request, e: Event)
    requires ValidJob(j) && Shape(j, r.gen) && r.status.reason.None? && !r.delivery.closed
    requires Apply(j, r, e).Live? && Apply(j, r, e).r.status.reason.Some?
    ensures Apply(j, r, e).r.delivery.closed <==> e.Iteration?
  {
  }

  /** The last step of a run that is still going. */
  lemma LastStep(j: Job, r: Request, events: seq<Event>)
    requires ValidJob(j) && Shape(j, r.gen) && events != []
    ensures var o, e := Run(j, r, events[..|events| - 1]), events[|events| - 1];
            Run(j, r, events) == if o.Live? then Apply(j, o.r, e) else Crashed
  {
    hide Apply;
    var init, e := events[..|events| - 1], events[|events| - 1];
    assert events == init + [e];
    RunConcat(j, r, init, [e]);
    if Run(j, r, init).Live? {
      RunOne(j, Run(j, r, init).r, e);
    }
  }

  /** Once the server has failed it stays failed. */
  lemma StaysCrashed(j: Job, r: Request, events: seq<Event>, m: nat)
    requires ValidJob(j) && Shape(j, r.gen) && m <= |events| && Run(j, r, events[..m]).Crashed?
    ensures Run(j, r, events).Crashed?
  {
    hide Apply;
    assert events == events[..m] + events[m..];
    RunConcat(j, r, events[..m], events[m..]);
  }

  // ----- the window overflows

  /** At `m` the request is retracted while at least a window of tokens less one is unverified, goes on unfinished,
      and is then decoded. */
  ghost predicate Overfills(j: Job, r: Request, events: seq<Event>, m: nat)
    requires ValidJob(j) && Shape(j, r.gen)
  {
    && m + 1 < |events| && events[m].Resume? && events[m + 1].Iteration?
    && Unfinished(j, r, events, m) && Unfinished(j, r, events, m + 1)
    && Unverified(Run(j, r, events[..m]).r.gen) >= j.window - 1
  }

  /** The request is still being served after `m` events. */
  ghost predicate Unfinished(j: Job, r: Request, events: seq<Event>, m: nat)
    requires ValidJob(j) && Shape(j, r.gen) && m <= |events|
  {
    Run(j, r, events[..m]).Live? && Run(j, r, events[..m]).r.status.reason.None?
  }

  lemma StepOfPrefix(j: Job, r: Request, events: seq<Event>, m: nat)
    requires ValidJob(j) && Shape(j, r.gen) && m < |events|
    ensures var o := Run(j, r, events[..m]);
            Run(j, r, events[..m + 1]) == if o.Live? then Apply(j, o.r, events[m]) else Crashed
  {
    hide Apply;
    hide Run;
    var es := events[..m + 1];
    assert es[..|es| - 1] == events[..m];
    LastStep(j, r, es);
  }

  lemma OverfillingCrashes(j: Job, r: Request, events: seq<Event>, m: nat)
    requires ValidJob(j) && Shape(j, r.gen) && Overfills(j, r, events, m)
    ensures Run(j, r, events).Crashed?
  {
    hide Run;
    StepOfPrefix(j, r, events, m);
    StepOfPrefix(j, r, events, m + 1);
    StepUnverified(j, Run(j, r, events[..m]).r, events[m]);
    StaysCrashed(j, r, events, m + 2);
  }

  /** The first failing step. */
  lemma {:induction false} CrashOverfills(j: Job, r: Request, events: seq<Event>) returns (m: nat)
    requires ValidJob(j) && Shape(j, r.gen) && Unverified(r.gen) < j.window && Run(j, r, events).Crashed?
    ensures Overfills(j, r, events, m)
    decreases |events|
  {
    hide Run;
    assert events != [] by { RunNothing(j, r); }
    var n := |events| - 1;
    if Run(j, r, events[..n]).Crashed? {
      m := CrashOverfills(j, r, events[..n]);
      PrefixOverfills(j, r, events, n, m);
    } else {
      LastStep(j, r, events);
      CrashedStep(j, Run(j, r, events[..n]).r, events[n]);
      assert n > 0 by { RunNothing(j, r); }
      m := n - 1;
      StepOfPrefix(j, r, events, m);
      BeforeUnfinished(j, Run(j, r, events[..m]).r, events[m]);
      StepUnverified(j, Run(j, r, events[..m]).r, events[m]);
    }
  }

  lemma RunNothing(j: Job, r: Request)
    requires ValidJob(j) && Shape(j, r.gen)
    ensures Run(j, r, []) == Live(r)
  {
  }

  lemma PrefixOverfills(j: Job, r: Request, events: seq<Event>, n: nat, m: nat)
    requires ValidJob(j) && Shape(j, r.gen) && n <= |events| && Overfills(j, r, events[..n], m)
    ensures Overfills(j, r, events, m)
  {
    hide Run;
    assert events[..n][..m] == events[..m] && events[..n][..m + 1] == events[..m + 1];
  }

  lemma CrashedStep(j: Job, r: Request, e: Event)
    requires ValidJob(j) && Shape(j, r.gen) && Apply(j, r, e).Crashed?
    ensures r.status.reason.None? && e.Iteration? && Unverified(r.gen) >= j.window
  {
  }

  /** A finished request stays finished. */
  lemma BeforeUnfinished(j: Job, r: Request, e: Event)
    requires ValidJob(j) && Shape(j, r.gen) && Apply(j, r, e).Live? && Apply(j, r, e).r.status.reason.None?
    ensures r.status.reason.None?
  {
  }

  /** A run fails exactly if somewhere in it a request is retracted with at least a window of tokens less one
      unverified and decoded right after it was resumed. */
  lemma CrashesIff(j: Job, flush: bool, events: seq<Event>)
    requires ValidJob(j)
    ensures Run(j, Prefilled(j, flush), events).Crashed? <==>
            exists m :: Overfills(j, Prefilled(j, flush), events, m)
  {
    hide Run;
    var r := Prefilled(j, flush);
    if Run(j, r, events).Crashed? {
      PrefilledOrderly(j, flush);
      var m := CrashOverfills(j, r, events);
    } else if m :| Overfills(j, r, events, m) {
      OverfillingCrashes(j, r, events, m);
    }
  }

  // ----- which requests can bring the server down

  /** No stop condition is met anywhere in these outputs. */
  ghost predicate NeverStops(j: Job, outputs: seq<Token>)
  {
    forall k :: 1 <= k <= |outputs| ==> StopReason(j, outputs[..k]).None?
  }

  /** Some window of further tokens does not end the request. */
  ghost predicate OutlivesWindow(j: Job)
  {
    exists ts: seq<Token> :: |ts| == j.window && NeverStops(j, j.start.tokens + ts)
  }

  function Drafts(ts: seq<Token>): (events: seq<Event>)
    ensures |events| == |ts|
    ensures forall k :: 0 <= k < |ts| ==> events[k] == Iteration(ts[k], 0, 0, false, false)
  {
    seq(|ts|, k requires 0 <= k < |ts| => Iteration(ts[k], 0, 0, false, false))
  }

  /** A draft that neither fills the window nor stops the request is just appended. */
  lemma DraftStep(j: Job, r: Request, draft: Token) returns (d: Request)
    requires ValidJob(j) && Shape(j, r.gen) && r.status.reason.None? && Unverified(r.gen) + 1 < j.window
    requires StopReason(j, r.gen.outputs + [draft]).None?
    ensures Shape(j, d.gen) && Apply(j, r, Iteration(draft, 0, 0, false, false)) == Live(d)
    ensures d.gen.outputs == r.gen.outputs + [draft] && d.gen.verified == r.gen.verified && d.status.reason.None?
    ensures VerifiedStream(j, d.gen) == VerifiedStream(j, r.gen)
  {
    hide Verify;
    d := Drafted(j, r, draft, 0, 0);
    DraftedStream(j, r, draft, 0, 0);
  }

  lemma {:induction false} DraftRun(j: Job, r: Request, ts: seq<Token>) returns (d: Request)
    requires ValidJob(j) && Shape(j, r.gen) && r.status.reason.None? && Unverified(r.gen) + |ts| < j.window
    requires NeverStops(j, r.gen.outputs + ts)
    ensures Shape(j, d.gen) && Run(j, r, Drafts(ts)) == Live(d)
    ensures d.gen.outputs == r.gen.outputs + ts && d.gen.verified == r.gen.verified && d.status.reason.None?
    ensures VerifiedStream(j, d.gen) == VerifiedStream(j, r.gen)
    decreases |ts|
  {
    hide Run;
    hide Apply;
    hide VerifiedStream;
    if ts == [] {
      d := r;
      RunNothing(j, r);
      assert r.gen.outputs + ts == r.gen.outputs && Drafts(ts) == [];
    } else {
      var all := r.gen.outputs + ts;
      assert all[..|r.gen.outputs| + 1] == r.gen.outputs + [ts[0]];
      var first := DraftStep(j, r, ts[0]);
      assert first.gen.outputs + ts[1..] == all;
      d := DraftRun(j, first, ts[1..]);
      assert Drafts(ts) == [Iteration(ts[0], 0, 0, false, false)] + Drafts(ts[1..]);
      RunCons(j, r, Iteration(ts[0], 0, 0, false, false), Drafts(ts[1..]));
    }
  }

  /** Resuming with a token that does not stop the request. */
  lemma ResumeStep(j: Job, r: Request, draft: Token) returns (d: Request)
    requires ValidJob(j) && Shape(j, r.gen) && r.status.reason.None?
    requires StopReason(j, r.gen.outputs + [draft]).None?
    ensures Shape(j, d.gen) && Apply(j, r, Resume(draft, 0, false)) == Live(d)
    ensures d.gen.outputs == r.gen.outputs + [draft] && d.gen.verified == r.gen.verified && d.status.reason.None?
    ensures d.gen.cache == j.extend(r.gen.outputs)
  {
    d := Resumed(j, r, draft, 0);
  }

  lemma PrefilledUnfinished(j: Job)
    requires ValidJob(j) && StopReason(j, j.start.tokens).None?
    ensures var r := Prefilled(j, false); r.status.reason.None? && r.gen.outputs == j.start.tokens && r.gen.verified == 1
  {
    PrefilledOrderly(j, false);
  }

  /** The run that fails: all but one token of a window are drafted, the request is retracted and resumed, and then
      decoded once. */
  lemma CrashingRun(j: Job, ts: seq<Token>) returns (events: seq<Event>)
    requires ValidJob(j) && |ts| == j.window && NeverStops(j, j.start.tokens + ts)
    ensures Run(j, Prefilled(j, false), events).Crashed?
  {
    hide Run;
    hide Prefilled;
    var n, all, r := j.window - 1, j.start.tokens + ts, Prefilled(j, false);
    assert all[..1] == j.start.tokens;
    PrefilledUnfinished(j);
    assert forall k :: 1 <= k <= n + 1 ==> (j.start.tokens + ts[..n])[..k] == all[..k];
    var d := DraftRun(j, r, ts[..n]);
    assert all[..n + 2] == d.gen.outputs + [ts[n]];
    var e, f := Resume(ts[n], 0, false), Iteration(0, 0, 0, false, false);
    var s := ResumeStep(j, d, ts[n]);
    events := Drafts(ts[..n]) + [e, f];
    RunConcat(j, r, Drafts(ts[..n]), [e, f]);
    assert [e, f] == [e] + [f];
    RunCons(j, d, e, [f]);
    RunOne(j, s, f);
  }

  /** The prefill's token always comes first. */
  lemma {:induction false} FirstTokenStays(j: Job, r: Request, events: seq<Event>)
    requires ValidJob(j) && Shape(j, r.gen)
    ensures Run(j, r, events).Live? ==> Run(j, r, events).r.gen.outputs[..1] == r.gen.outputs[..1]
    decreases |events|
  {
    if events != [] && Apply(j, r, events[0]).Live? {
      FirstTokenStep(j, r, events[0]);
      FirstTokenStays(j, Apply(j, r, events[0]).r, events[1..]);
    }
  }

  lemma FirstTokenStep(j: Job, r: Request, e: Event)
    requires ValidJob(j) && Shape(j, r.gen) && Apply(j, r, e).Live?
    ensures Apply(j, r, e).r.gen.outputs[..1] == r.gen.outputs[..1]
  {
    if r.status.reason.None? && e.Iteration? {
      var d := Drafted(j, r, e.draft, e.kv, e.logprob);
      CommitKeepsVerified(j, d.gen, 1);
      assert d.gen.outputs[..1] == r.gen.outputs[..1];
    }
  }

  /** A request can bring the server down exactly if it can outlive a window. */
  lemma CanCrashIff(j: Job)
    requires ValidJob(j)
    ensures (exists flush, events :: Run(j, Prefilled(j, flush), events).Crashed?) <==> OutlivesWindow(j)
  {
    hide Run;
    hide Prefilled;
    if flush, events :| Run(j, Prefilled(j, flush), events).Crashed? {
      PrefilledOrderly(j, flush);
      var m := CrashOverfills(j, Prefilled(j, flush), events);
      OverfullOutlives(j, flush, events[..m + 1], events, m);
    } else if ts: seq<Token> :| |ts| == j.window && NeverStops(j, j.start.tokens + ts) {
      var events := CrashingRun(j, ts);
    }
  }

  lemma OverfullOutlives(j: Job, flush: bool, before: seq<Event>, events: seq<Event>, m: nat)
    requires ValidJob(j) && Overfills(j, Prefilled(j, flush), events, m) && before == events[..m + 1]
    ensures OutlivesWindow(j)
  {
    hide Run;
    hide Prefilled;
    var p := Prefilled(j, flush);
    var r := Run(j, p, before).r;
    StepOfPrefix(j, p, events, m);
    StepUnverified(j, Run(j, p, events[..m]).r, events[m]);
    PrefilledOrderly(j, flush);
    RunOrderly(j, p, before);
    FirstTokenStays(j, p, before);
    LongOutputsOutlive(j, r);
  }

  lemma LongOutputsOutlive(j: Job, r: Request)
    requires ValidJob(j) && StopsRightHere(j, r) && r.status.reason.None? && |r.gen.outputs| > j.window
    requires r.gen.outputs[..1] == j.start.tokens
    ensures OutlivesWindow(j)
  {
    var outs := r.gen.outputs;
    var ts := outs[1..j.window + 1];
    var all := j.start.tokens + ts;
    assert all == outs[..j.window + 1];
    forall k | 1 <= k <= |all|
      ensures StopReason(j, all[..k]).None?
    {
      assert all[..k] == outs[..k];
      if k == |outs| { assert outs[..k] == outs; }
    }
    assert NeverStops(j, all);
  }

  // ----- answers that are never sent

  /** The prefill that resumed the request also finished it. */
  ghost predicate FinishedByResume(j: Job, r: Request, events: seq<Event>, m: nat)
    requires ValidJob(j) && Shape(j, r.gen)
  {
    && m < |events| && events[m].Resume? && Unfinished(j, r, events, m)
    && Run(j, r, events[..m + 1]).Live? && Run(j, r, events[..m + 1]).r.status.reason.Some?
  }

  /** The step that finished a run. */
  lemma {:induction false} WhatFinished(j: Job, r: Request, events: seq<Event>) returns (m: nat)
    requires ValidJob(j) && Shape(j, r.gen) && r.status.reason.None?
    requires Run(j, r, events).Live? && Run(j, r, events).r.status.reason.Some?
    ensures m < |events| && Unfinished(j, r, events, m)
    ensures Run(j, r, events[..m + 1]) == Run(j, r, events)
    decreases |events|
  {
    hide Run;
    assert events != [] by { RunNothing(j, r); }
    var n := |events| - 1;
    LastStep(j, r, events);
    if Run(j, r, events[..n]).r.status.reason.Some? {
      m := WhatFinished(j, r, events[..n]);
      assert events[..n][..m] == events[..m] && events[..n][..m + 1] == events[..m + 1];
    } else {
      m := n;
      assert events[..m + 1] == events;
    }
  }

  lemma ResumeFinishes(j: Job, r: Request, events: seq<Event>, m: nat)
    requires ValidJob(j) && Orderly(j, r) && Open(r) && FinishedByResume(j, r, events, m)
    ensures Run(j, r, events).Live? && Run(j, r, events).r.status.reason.Some? && !Run(j, r, events).r.delivery.closed
  {
    hide Run;
    hide StopsRightHere;
    hide Delivered;
    RunOrderly(j, r, events[..m]);
    StepOfPrefix(j, r, events, m);
    var q, s := Run(j, r, events[..m]).r, Run(j, r, events[..m + 1]).r;
    FinishingStep(j, q, events[m]);
    assert events == events[..m + 1] + events[m + 1..];
    RunConcat(j, r, events[..m + 1], events[m + 1..]);
    FinishedStays(j, s, events[m + 1..]);
  }

  /** A run leaves its request finished but unanswered exactly if a resuming prefill finished it. */
  lemma UnansweredIff(j: Job, flush: bool, events: seq<Event>)
    requires ValidJob(j)
    ensures var r, o := Prefilled(j, flush), Run(j, Prefilled(j, flush), events);
            o.Live? && o.r.status.reason.Some? && !o.r.delivery.closed
            <==> exists m :: FinishedByResume(j, r, events, m)
  {
    hide Run;
    var r := Prefilled(j, flush);
    PrefilledOrderly(j, flush);
    var o := Run(j, r, events);
    if m :| FinishedByResume(j, r, events, m) {
      ResumeFinishes(j, r, events, m);
    } else if o.Live? && o.r.status.reason.Some? {
      FinishedAnswered(j, flush, events);
    }
  }

  lemma FinishedAnswered(j: Job, flush: bool, events: seq<Event>)
    requires ValidJob(j) && Run(j, Prefilled(j, flush), events).Live?
    requires Run(j, Prefilled(j, flush), events).r.status.reason.Some?
    requires !exists m :: FinishedByResume(j, Prefilled(j, flush), events, m)
    ensures Run(j, Prefilled(j, flush), events).r.delivery.closed
  {
    hide Run;
    hide Orderly;
    var r := Prefilled(j, flush);
    PrefilledOrderly(j, flush);
    if r.status.reason.Some? {
      FinishedStays(j, r, events);
    } else {
      var m := WhatFinished(j, r, events);
      RunOrderly(j, r, events[..m]);
      StepOfPrefix(j, r, events, m);
      assert !FinishedByResume(j, r, events, m);
      FinishingStep(j, Run(j, r, events[..m]).r, events[m]);
    }
  }

  /** Resuming over and over finishes a request in the end. */
  lemma {:induction false} ResumedToTheEnd(j: Job, r: Request) returns (events: seq<Event>, m: nat)
    requires ValidJob(j) && Orderly(j, r) && Open(r) && r.status.reason.None?
    ensures FinishedByResume(j, r, events, m)
    decreases j.maxNew - |r.gen.outputs|
  {
    hide Run;
    var e := Resume(0, 0, false);
    ApplyOrderly(j, r, e);
    var s := Apply(j, r, e).r;
    RunNothing(j, r);
    RunOne(j, r, e);
    if s.status.reason.Some? {
      events, m := [e], 0;
      assert events[..0] == [] && events[..1] == events;
    } else {
      var rest, k := ResumedToTheEnd(j, s);
      events, m := [e] + rest, k + 1;
      assert events[..m] == [e] + rest[..k] && events[..m + 1] == [e] + rest[..m];
      RunCons(j, r, e, rest[..k]);
      RunCons(j, r, e, rest[..m]);
    }
  }

  /** An answer can be lost exactly if the isolated prefill alone does not finish the request. */
  lemma CanBeUnansweredIff(j: Job)
    requires ValidJob(j)
    ensures (exists flush, events, m :: FinishedByResume(j, Prefilled(j, flush), events, m))
            <==> StopReason(j, j.start.tokens).None?
  {
    hide Run;
    if StopReason(j, j.start.tokens).None? {
      PrefilledOrderly(j, false);
      var events, m := ResumedToTheEnd(j, Prefilled(j, false));
    } else if flush, events, m :| FinishedByResume(j, Prefilled(j, flush), events, m) {
      PrefilledOrderly(j, flush);
      FinishedStays(j, Prefilled(j, flush), events[..m]);
    }
  }
}
