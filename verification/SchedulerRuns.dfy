/** Many requests served together.  Requests arrive, a decode iteration takes any of the running ones as its batch,
    grouped verification chooses whom to verify, and requests that ran out of memory are retracted and resumed.  Seen
    from one request, this is a run of decode-verify-rollback in which the neighbours appear only as verifications
    that come early, or as the end of the server. */
module SchedulerRuns {
  import opened Options
  import opened Verifier
  import opened DecodeVerifyRollback
  import opened Determinism
  import opened DvrOutcomes
  import opened DvrSteps
  import opened DvrFailures
  import opened DvrRetraction
  import opened LLM42Worker
  import opened GroupedVerification

  /** What the verification worker sees of a request. */
  ghost function ValueOf(r: Request): ReqValue
  {
    ReqValue(r.gen, r.status.reason, r.stats.windows, r.stats.rolledBack)
  }

  /** The worker's verification of an object is the verification step of the request it stands for. */
  lemma VerifiedIsVerify(j: Job, d: Request)
    requires Shape(j, d.gen) && Unverified(d.gen) > 0
    ensures PendingValue(j, ValueOf(d)) && Verified(j, ValueOf(d)) == ValueOf(Verify(j, d))
  {
  }

  ghost function Values(rs: seq<Request>): (vals: seq<ReqValue>)
    ensures |vals| == |rs| && forall i :: 0 <= i < |rs| ==> vals[i] == ValueOf(rs[i])
  {
    seq(|rs|, i requires 0 <= i < |rs| => ValueOf(rs[i]))
  }

  // ----- the server

  /** A request with what an observer writes down: whether its prefill was streamed, and what has happened to it. */
  datatype Guest = Guest(job: Job, flush: bool, r: Request, log: seq<Event>)

  /** The server's settings: the number of requests in a verification batch, and the window. */
  datatype Server = Server(fixedSize: nat, window: nat)

  ghost predicate ValidServer(s: Server)
  {
    s.fixedSize >= 1 && s.window >= 1
  }

  ghost predicate Hosted(s: Server, g: Guest)
  {
    ValidJob(g.job) && g.job.window == s.window && Shape(g.job, g.r.gen)
  }

  ghost predicate AllHosted(s: Server, gs: seq<Guest>)
  {
    forall i :: 0 <= i < |gs| ==> Hosted(s, gs[i])
  }

  /** What the decode kernels and the streaming interval bring a request in one iteration. */
  datatype Turn = Turn(draft: Token, kv: KV, logprob: int, flush: bool)

  /** A request arrives and is prefilled, a decode iteration takes place, or a request is resumed after it was
      retracted; in between it is in no batch. */
  datatype Step =
    | Arrive(job: Job, flush: bool)
    | Round(batch: seq<nat>, turns: seq<Turn>)
    | Return(i: nat, draft: Token, logprob: int, flush: bool)

  /** The batch of an iteration holds running requests, each once. */
  ghost predicate Enabled(s: Server, gs: seq<Guest>, step: Step)
  {
    match step
    case Arrive(job, _) => ValidJob(job) && job.window == s.window
    case Round(batch, turns) =>
      && |turns| == |batch|
      && (forall k :: 0 <= k < |batch| ==> batch[k] < |gs| && gs[batch[k]].r.status.reason.None?)
      && (forall k, l :: 0 <= k < l < |batch| ==> batch[k] != batch[l])
    case Return(i, _, _, _) => i < |gs| && gs[i].r.status.reason.None?
  }

  ghost function DecodedOne(g: Guest, t: Turn): (d: Request)
    requires Shape(g.job, g.r.gen)
    ensures Shape(g.job, d.gen) && Unverified(d.gen) == Unverified(g.r.gen) + 1
  {
    Rechecked(g.job, Drafted(g.job, g.r, t.draft, t.kv, t.logprob))
  }

  /** The batch after decoding. */
  ghost function Decoded(s: Server, gs: seq<Guest>, step: Step): (ds: seq<Request>)
    requires AllHosted(s, gs) && step.Round? && Enabled(s, gs, step)
    ensures |ds| == |step.batch|
    ensures forall k :: 0 <= k < |ds| ==> ds[k] == DecodedOne(gs[step.batch[k]], step.turns[k])
    ensures forall k :: 0 <= k < |ds| ==> ds[k].gen.verified <= |ds[k].gen.outputs|
  {
    seq(|step.batch|, k requires 0 <= k < |step.batch| => DecodedOne(gs[step.batch[k]], step.turns[k]))
  }

  /** Whom grouped verification chooses. */
  ghost predicate Picked(s: Server, ds: seq<Request>, k: nat)
    requires ValidServer(s) && forall l :: 0 <= l < |ds| ==> ds[l].gen.verified <= |ds[l].gen.outputs|
  {
    Chosen(Values(ds), s.fixedSize, s.window, k)
  }

  function EventOf(t: Turn, pulled: bool): Event
  {
    Iteration(t.draft, t.kv, t.logprob, pulled, t.flush)
  }

  ghost function NextOne(g: Guest, d: Request, t: Turn, picked: bool): (next: Guest)
    requires Shape(g.job, d.gen) && Unverified(d.gen) > 0
    ensures next.job == g.job && next.flush == g.flush && Shape(g.job, next.r.gen)
    ensures next.log == g.log + [EventOf(t, picked)]
  {
    g.(r := StreamOutput(Rechecked(g.job, if picked then Verify(g.job, d) else d), t.flush),
       log := g.log + [EventOf(t, picked)])
  }

  /** Where a request is in the batch. */
  function Position(batch: seq<nat>, i: nat): (k: nat)
    requires i in batch
    ensures k < |batch| && batch[k] == i
    decreases |batch|
  {
    if batch[|batch| - 1] == i then |batch| - 1 else Position(batch[..|batch| - 1], i)
  }

  /** One request after an iteration; those outside the batch notice nothing. */
  ghost function AfterRoundAt(s: Server, gs: seq<Guest>, step: Step, i: nat): Guest
    requires ValidServer(s) && AllHosted(s, gs) && step.Round? && Enabled(s, gs, step) && i < |gs|
  {
    if i in step.batch then
      var k, ds := Position(step.batch, i), Decoded(s, gs, step);
      NextOne(gs[i], ds[k], step.turns[k], Picked(s, ds, k))
    else gs[i]
  }

  ghost function AfterRound(s: Server, gs: seq<Guest>, step: Step): (next: seq<Guest>)
    requires ValidServer(s) && AllHosted(s, gs) && step.Round? && Enabled(s, gs, step)
    ensures |next| == |gs| && forall i :: 0 <= i < |gs| ==> next[i] == AfterRoundAt(s, gs, step, i)
  {
    seq(|gs|, i requires 0 <= i < |gs| => AfterRoundAt(s, gs, step, i))
  }

  /** Verification rejects a batch with an overfull window, which ends the server. */
  ghost function Next(s: Server, gs: seq<Guest>, step: Step): (next: Option<seq<Guest>>)
    requires ValidServer(s) && AllHosted(s, gs) && Enabled(s, gs, step)
    ensures next.Some? ==> |next.value| >= |gs|
  {
    match step
    case Arrive(job, flush) => Some(gs + [Guest(job, flush, Prefilled(job, flush), [])])
    case Round(_, _) =>
      if AllFit(Values(Decoded(s, gs, step)), s.window) then Some(AfterRound(s, gs, step)) else None
    case Return(i, draft, logprob, flush) =>
      var g, e := gs[i], Resume(draft, logprob, flush);
      Some(gs[i := g.(r := Apply(g.job, g.r, e).r, log := g.log + [e])])
  }

  // ----- one step, seen from one request

  /** Only requests with something to verify are chosen, and every ready one is. */
  lemma ChosenArePending(vals: seq<ReqValue>, fixedSize: nat, w: nat, i: nat)
    requires fixedSize >= 1 && i < |vals|
    requires forall k :: 0 <= k < |vals| ==> vals[k].gen.verified <= |vals[k].gen.outputs|
    ensures Chosen(vals, fixedSize, w, i) ==> Unverified(vals[i].gen) > 0
    ensures ReadyValue(vals[i], w) ==> Chosen(vals, fixedSize, w, i)
  {
  }

  /** The neighbours only decide whether a request is pulled in. */
  lemma StepOfOne(g: Guest, t: Turn, d: Request, picked: bool)
    requires ValidJob(g.job) && Shape(g.job, g.r.gen) && g.r.status.reason.None? && d == DecodedOne(g, t)
    requires Ready(g.job, d) ==> picked
    ensures Apply(g.job, g.r, EventOf(t, picked))
            == if Unverified(d.gen) <= g.job.window then Live(NextOne(g, d, t, picked).r) else Crashed
  {
    hide StreamOutput;
    hide Verify;
  }

  lemma PickedIfReady(s: Server, gs: seq<Guest>, step: Step, k: nat)
    requires ValidServer(s) && AllHosted(s, gs) && step.Round? && Enabled(s, gs, step) && k < |step.batch|
    ensures var ds := Decoded(s, gs, step); Ready(gs[step.batch[k]].job, ds[k]) ==> Picked(s, ds, k)
  {
    hide Chosen;
    assert Hosted(s, gs[step.batch[k]]);
    ChosenArePending(Values(Decoded(s, gs, step)), s.fixedSize, s.window, k);
  }

  /** Nobody is picked unless some request of the batch is due, and then one that is due is picked. */
  lemma PickedNeedsReady(s: Server, gs: seq<Guest>, step: Step, k: nat)
    requires ValidServer(s) && AllHosted(s, gs) && step.Round? && Enabled(s, gs, step) && k < |step.batch|
    requires Picked(s, Decoded(s, gs, step), k)
    ensures var ds := Decoded(s, gs, step);
            exists l :: 0 <= l < |ds| && Picked(s, ds, l) && Ready(gs[step.batch[l]].job, ds[l])
  {
    hide Chosen;
    hide DecodedOne;
    hide Shape;
    var ds := Decoded(s, gs, step);
    ChosenWhenDue(Values(ds), s.fixedSize, s.window, k);
    var l :| 0 <= l < |ds| && Chosen(Values(ds), s.fixedSize, s.window, l)
             && (Values(ds)[l].reason.Some? || |Values(ds)[l].gen.outputs| - Values(ds)[l].gen.verified >= s.window);
    assert Hosted(s, gs[step.batch[l]]);
    assert Picked(s, ds, l) && Ready(gs[step.batch[l]].job, ds[l]);
  }

  /** What one step brings the requests that are there already. */
  ghost predicate Follows(g: Guest, next: Guest)
    requires ValidJob(g.job) && Shape(g.job, g.r.gen)
  {
    || next == g
    || exists e :: next.job == g.job && next.flush == g.flush && next.log == g.log + [e] && Apply(g.job, g.r, e) == Live(next.r)
  }

  lemma RoundFollows(s: Server, gs: seq<Guest>, step: Step, i: nat)
    requires ValidServer(s) && AllHosted(s, gs) && step.Round? && Enabled(s, gs, step) && i < |gs|
    requires AllFit(Values(Decoded(s, gs, step)), s.window)
    ensures Hosted(s, gs[i]) && Follows(gs[i], AfterRound(s, gs, step)[i])
  {
    hide Apply;
    hide NextOne;
    hide Picked;
    hide Follows;
    hide DecodedOne;
    if i in step.batch {
      var k, ds := Position(step.batch, i), Decoded(s, gs, step);
      PickedIfReady(s, gs, step, k);
      assert Values(ds)[k].gen == ds[k].gen;
      MemberFollows(gs[i], step.turns[k], ds[k], Picked(s, ds, k));
    } else {
      StaysFollows(gs[i]);
    }
  }

  lemma StaysFollows(g: Guest)
    requires ValidJob(g.job) && Shape(g.job, g.r.gen)
    ensures Follows(g, g)
  {
  }

  lemma MemberFollows(g: Guest, t: Turn, d: Request, picked: bool)
    requires ValidJob(g.job) && Shape(g.job, g.r.gen) && g.r.status.reason.None? && d == DecodedOne(g, t)
    requires (Ready(g.job, d) ==> picked) && Unverified(d.gen) <= g.job.window
    ensures Follows(g, NextOne(g, d, t, picked))
  {
    hide Apply;
    hide NextOne;
    StepOfOne(g, t, d, picked);
    NextFollows(g, d, t, picked);
  }

  lemma NextFollows(g: Guest, d: Request, t: Turn, picked: bool)
    requires ValidJob(g.job) && Shape(g.job, g.r.gen) && Shape(g.job, d.gen) && Unverified(d.gen) > 0
    requires Apply(g.job, g.r, EventOf(t, picked)) == Live(NextOne(g, d, t, picked).r)
    ensures Follows(g, NextOne(g, d, t, picked))
  {
    hide Apply;
  }

  // ----- what every run of the server keeps

  /** The request has gone through the run that was written down. */
  ghost predicate Tracked(s: Server, g: Guest)
  {
    Hosted(s, g) && Run(g.job, Prefilled(g.job, g.flush), g.log) == Live(g.r)
  }

  lemma FollowsTracked(s: Server, g: Guest, next: Guest)
    requires Tracked(s, g) && Follows(g, next)
    ensures Tracked(s, next)
  {
    hide Run;
    hide Apply;
    hide Prefilled;
    if next != g {
      var e :| next.job == g.job && next.flush == g.flush && next.log == g.log + [e] && Apply(g.job, g.r, e) == Live(next.r);
      RunConcat(g.job, Prefilled(g.job, g.flush), g.log, [e]);
      RunOne(g.job, g.r, e);
    }
  }

  ghost predicate AllTracked(s: Server, gs: seq<Guest>)
  {
    forall i :: 0 <= i < |gs| ==> Tracked(s, gs[i])
  }

  lemma NextTracked(s: Server, gs: seq<Guest>, step: Step)
    requires ValidServer(s) && AllTracked(s, gs) && AllHosted(s, gs) && Enabled(s, gs, step)
    ensures Next(s, gs, step).Some? ==> AllTracked(s, Next(s, gs, step).value)
  {
    hide Tracked;
    hide Follows;
    hide AfterRound;
    var next := Next(s, gs, step);
    if next.Some? {
      forall i | 0 <= i < |next.value|
        ensures Tracked(s, next.value[i])
      {
        if i == |gs| {
          ArrivedTracked(s, next.value[i], step);
        } else {
          StepFollows(s, gs, step, i);
          FollowsTracked(s, gs[i], next.value[i]);
        }
      }
    }
  }

  lemma ArrivedTracked(s: Server, g: Guest, step: Step)
    requires step.Arrive? && ValidJob(step.job) && step.job.window == s.window
    requires g == Guest(step.job, step.flush, Prefilled(step.job, step.flush), [])
    ensures Tracked(s, g)
  {
    hide Prefilled;
    RunNothing(g.job, g.r);
  }

  lemma StepFollows(s: Server, gs: seq<Guest>, step: Step, i: nat)
    requires ValidServer(s) && AllHosted(s, gs) && Enabled(s, gs, step) && i < |gs| && Next(s, gs, step).Some?
    ensures Hosted(s, gs[i]) && Follows(gs[i], Next(s, gs, step).value[i])
  {
    hide Apply;
    match step
    case Arrive(_, _) =>
    case Round(_, _) => RoundFollows(s, gs, step, i);
    case Return(k, draft, logprob, flush) =>
      if i == k {
        ReturnIsLive(gs[i], Resume(draft, logprob, flush));
      }
  }

  lemma ReturnIsLive(g: Guest, e: Event)
    requires ValidJob(g.job) && Shape(g.job, g.r.gen) && e.Resume?
    ensures Apply(g.job, g.r, e).Live?
    ensures Follows(g, g.(r := Apply(g.job, g.r, e).r, log := g.log + [e]))
  {
    var next := g.(r := Apply(g.job, g.r, e).r, log := g.log + [e]);
    assert next.log == g.log + [e] && Apply(g.job, g.r, e) == Live(next.r);
  }

  lemma TrackedAreHosted(s: Server, gs: seq<Guest>)
    requires AllTracked(s, gs)
    ensures AllHosted(s, gs)
  {
    forall i | 0 <= i < |gs|
      ensures Hosted(s, gs[i])
    {
      assert Tracked(s, gs[i]);
    }
  }

  /** The server after some steps, starting empty; none if a step is impossible or ends it. */
  ghost function Serve(s: Server, steps: seq<Step>): (gs: Option<seq<Guest>>)
    requires ValidServer(s)
    ensures gs.Some? ==> AllTracked(s, gs.value)
    decreases |steps|
  {
    if steps == [] then Some([])
    else
      var before, step := Serve(s, steps[..|steps| - 1]), steps[|steps| - 1];
      if before.None? then None
      else
        TrackedAreHosted(s, before.value);
        if !Enabled(s, before.value, step) then None
        else
          NextTracked(s, before.value, step);
          Next(s, before.value, step)
  }

  /** Whatever is served beside it and whenever it arrives, every request goes through a run of
      decode-verify-rollback. */
  lemma EachIsARun(s: Server, steps: seq<Step>, i: nat)
    requires ValidServer(s) && Serve(s, steps).Some? && i < |Serve(s, steps).value|
    ensures var g := Serve(s, steps).value[i];
            ValidJob(g.job) && g.job.window == s.window && Run(g.job, Prefilled(g.job, g.flush), g.log) == Live(g.r)
  {
    hide Serve;
    assert Tracked(s, Serve(s, steps).value[i]);
  }

  /** A finished request has left the batch: no step changes it or verifies it again. */
  lemma FinishedIsLeftAlone(s: Server, gs: seq<Guest>, step: Step, i: nat)
    requires ValidServer(s) && AllHosted(s, gs) && Enabled(s, gs, step) && i < |gs| && gs[i].r.status.reason.Some?
    ensures Next(s, gs, step).Some? ==> Next(s, gs, step).value[i] == gs[i]
  {
    hide NextOne;
    hide Picked;
  }

  // ----- how the server ends

  /** The step that one request of a batch takes. */
  ghost function EventIn(s: Server, gs: seq<Guest>, step: Step, k: nat): Event
    requires ValidServer(s) && AllHosted(s, gs) && step.Round? && Enabled(s, gs, step) && k < |step.batch|
  {
    EventOf(step.turns[k], Picked(s, Decoded(s, gs, step), k))
  }

  /** One request of the batch fails. */
  ghost predicate FailsAt(s: Server, gs: seq<Guest>, step: Step, k: nat)
    requires ValidServer(s) && AllHosted(s, gs) && step.Round? && Enabled(s, gs, step)
  {
    && k < |step.batch|
    && var g := gs[step.batch[k]];
       assert Hosted(s, g);
       Run(g.job, Prefilled(g.job, g.flush), g.log + [EventIn(s, gs, step, k)]).Crashed?
  }

  /** An iteration ends the server, and with it all requests, exactly if the run of some request in the batch fails
      with it. */
  lemma ServerEndsIff(s: Server, gs: seq<Guest>, step: Step)
    requires ValidServer(s) && AllTracked(s, gs) && AllHosted(s, gs) && step.Round? && Enabled(s, gs, step)
    ensures Next(s, gs, step).None? <==> exists k :: FailsAt(s, gs, step, k)
  {
    hide Run;
    hide Chosen;
    var ds := Decoded(s, gs, step);
    forall k | 0 <= k < |ds|
      ensures FailsAt(s, gs, step, k) <==> Unverified(ds[k].gen) > s.window
    {
      FailsIff(s, gs, step, k);
    }
    OverfullIff(s, ds);
    if k :| 0 <= k < |ds| && Unverified(ds[k].gen) > s.window {
      assert FailsAt(s, gs, step, k);
    }
  }

  lemma OverfullIff(s: Server, ds: seq<Request>)
    requires forall k :: 0 <= k < |ds| ==> ds[k].gen.verified <= |ds[k].gen.outputs|
    ensures AllFit(Values(ds), s.window) <==> forall k :: 0 <= k < |ds| ==> Unverified(ds[k].gen) <= s.window
  {
    assert forall k :: 0 <= k < |ds| ==> Values(ds)[k].gen == ds[k].gen;
  }

  lemma FailsIff(s: Server, gs: seq<Guest>, step: Step, k: nat)
    requires ValidServer(s) && AllTracked(s, gs) && AllHosted(s, gs) && step.Round? && Enabled(s, gs, step)
    requires k < |step.batch|
    ensures FailsAt(s, gs, step, k) <==> Unverified(Decoded(s, gs, step)[k].gen) > s.window
  {
    hide Run;
    hide Apply;
    hide Picked;
    hide Prefilled;
    hide NextOne;
    var g, ds := gs[step.batch[k]], Decoded(s, gs, step);
    assert Tracked(s, g);
    PickedIfReady(s, gs, step, k);
    StepOfOne(g, step.turns[k], ds[k], Picked(s, ds, k));
    RunConcat(g.job, Prefilled(g.job, g.flush), g.log, [EventIn(s, gs, step, k)]);
    RunOne(g.job, g.r, EventIn(s, gs, step, k));
  }

  // ----- what the objects hold

  /** After a grouped verification that followed `Chosen`, the request objects hold what the iteration computes. */
  lemma ObjectsFollow(reqs: seq<Req>, jobs: seq<Job>, ds: seq<Request>, s: Server, done: seq<nat>, k: nat)
    requires |reqs| == |jobs| == |ds| && ValidServer(s) && k < |ds|
    requires forall l :: 0 <= l < |ds| ==> reqs[l].job == jobs[l] && Shape(jobs[l], ds[l].gen)
    requires forall l :: 0 <= l < |ds| ==> ds[l].gen.verified <= |ds[l].gen.outputs|
    requires Picks(done, Values(ds)) && forall l :: l in done <==> Chosen(Values(ds), s.fixedSize, s.window, l)
    ensures WellFormed(reqs, Values(ds)) && (Picked(s, ds, k) ==> Unverified(ds[k].gen) > 0)
    ensures Expected(reqs, Values(ds), done)[k] == ValueOf(if Picked(s, ds, k) then Verify(jobs[k], ds[k]) else ds[k])
  {
    hide Chosen;
    hide Committed;
    hide RolledBack;
    ChosenArePending(Values(ds), s.fixedSize, s.window, k);
    if k in done {
      VerifiedIsVerify(jobs[k], ds[k]);
    }
  }

  // ----- the promise of deterministic serving

  /** A request of this job that has been served to its end and verified. */
  ghost predicate Completed(s: Server, steps: seq<Step>, i: nat, j: Job)
    requires ValidServer(s)
  {
    && Serve(s, steps).Some? && i < |Serve(s, steps).value|
    && var g := Serve(s, steps).value[i];
       g.job == j && g.r.status.reason.Some? && g.r.gen.verified == |g.r.gen.outputs|
  }

  lemma CompletedIsCanonical(s: Server, steps: seq<Step>, i: nat, j: Job)
    requires ValidServer(s) && Completed(s, steps, i, j)
    ensures ValidJob(j)
    ensures var g := Serve(s, steps).value[i];
            && (NoRetraction(g.log) || ResumesAgree(j) ==> g.r.gen.outputs == CanonTokens(j, StopLength(j, 1)))
            && (NoRetraction(g.log) ==> g.r.gen.logprobs == Canon(j.kernel, j.start, StopLength(j, 1) - 1).logprobs)
  {
    hide Serve;
    hide Run;
    hide Prefilled;
    EachIsARun(s, steps, i);
    var g := Serve(s, steps).value[i];
    if NoRetraction(g.log) {
      PrefilledSafe(j, g.flush);
      RunSafe(j, Prefilled(j, g.flush), g.log);
      FinishedAtFirstStop(j, g.r);
    } else if ResumesAgree(j) {
      AnsweredIsCanonical(j, g.flush, g.log);
    }
  }

  /** A request ends with the same tokens and log-probabilities whichever requests it is served with, however large the
      verification batches are and whatever is drafted; with retractions, the same tokens if resumed requests go on
      canonically. */
  lemma NeighboursDoNotMatter(j: Job, s1: Server, steps1: seq<Step>, i1: nat, s2: Server, steps2: seq<Step>, i2: nat)
    requires ValidServer(s1) && ValidServer(s2) && Completed(s1, steps1, i1, j) && Completed(s2, steps2, i2, j)
    ensures ValidJob(j)
    ensures var g1, g2 := Serve(s1, steps1).value[i1], Serve(s2, steps2).value[i2];
            && (NoRetraction(g1.log) && NoRetraction(g2.log) ==>
                  g1.r.gen.outputs == g2.r.gen.outputs && g1.r.gen.logprobs == g2.r.gen.logprobs)
            && (ResumesAgree(j) ==> g1.r.gen.outputs == g2.r.gen.outputs == CanonTokens(j, StopLength(j, 1)))
  {
    hide Serve;
    hide ResumesAgree;
    CompletedIsCanonical(s1, steps1, i1, j);
    CompletedIsCanonical(s2, steps2, i2, j);
  }

  /** A request that is never retracted is completed once it has been in enough batches, whatever else is served. */
  lemma EnoughRoundsComplete(s: Server, steps: seq<Step>, i: nat)
    requires ValidServer(s) && Serve(s, steps).Some? && i < |Serve(s, steps).value|
    requires var g := Serve(s, steps).value[i]; NoRetraction(g.log) && |g.log| >= g.job.window * g.job.maxNew
    ensures Completed(s, steps, i, Serve(s, steps).value[i].job)
  {
    hide Serve;
    hide Run;
    EachIsARun(s, steps, i);
    var g := Serve(s, steps).value[i];
    EveryRunFinishes(g.job, g.flush, g.log);
    PrefilledSafe(g.job, g.flush);
    PrefilledBounded(g.job, g.flush);
    RunBounded(g.job, Prefilled(g.job, g.flush), g.log);
  }
}
