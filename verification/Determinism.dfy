/** What decode-verify-rollback guarantees over whole runs: whatever the drafts, the batching and the
    streaming choices, a request commits the verifier's own generation, stops where that generation
    first stops, and is answered with it. */
module Determinism {
  import opened Arithmetic
  import opened Options
  import opened Sequences
  import opened Verifier
  import opened DecodeVerifyRollback

  /** The first `k` tokens of the verifier's own generation. */
  function CanonTokens(j: Job, k: nat): (ts: seq<Token>)
    requires j.start.tokens != [] && |j.start.tokens| <= k
    ensures |ts| == k
  {
    Canon(j.kernel, j.start, k - |j.start.tokens|).tokens
  }

  /** What a generation holds of its verified part. */
  function VerifiedStream(j: Job, g: Generation): Stream
    requires Shape(j, g)
  {
    Stream(g.cache[..|j.start.cache| + g.verified - 1], g.outputs[..g.verified], g.logprobs[..g.verified])
  }

  /** Everything up to the verified mark is exactly what the verifier alone would have produced:
      tokens, log-probabilities and the cache entries of all positions before the last token. */
  ghost predicate Canonical(j: Job, g: Generation)
  {
    ValidJob(j) && Shape(j, g) && VerifiedStream(j, g) == Canon(j.kernel, j.start, g.verified - 1)
  }

  /** The inputs of a verification: the last verified token and all drafts but the last. */
  function Inputs(g: Generation): (inputs: seq<Token>)
    requires 1 <= g.verified < |g.outputs|
    ensures |inputs| == Unverified(g) && inputs[0] == g.outputs[..g.verified][g.verified - 1]
  {
    g.outputs[g.verified - 1..|g.outputs| - 1]
  }

  /** The inputs that produced the kept answers were themselves agreed drafts. */
  lemma KeptInputsAgree(j: Job, g: Generation, last: nat)
    requires Shape(j, g) && Unverified(g) > 0 && last == |Kept(j, g)| - 1
    ensures Inputs(g)[1..last + 1] == Tokens(WindowPasses(j, g)[..last])
  {
    var inputs, passes, m := Inputs(g), WindowPasses(j, g), Agreed(j, g);
    var drafts := g.outputs[g.verified..];
    assert last <= m && drafts[..m] == Tokens(passes)[..m];
    forall i | 0 <= i < last
      ensures inputs[1..last + 1][i] == Tokens(passes[..last])[i]
    {
      assert inputs[1..last + 1][i] == inputs[i + 1] == g.outputs[g.verified + i] == drafts[i];
      assert drafts[i] == drafts[..m][i] == Tokens(passes)[..m][i] == Tokens(passes)[i] == passes[i].token;
    }
  }

  /** The kept answers are the first ones of a replay of the window. */
  lemma KeptIsReplayed(j: Job, g: Generation, s: Stream, last: nat)
    requires Shape(j, g) && Unverified(g) > 0 && s == VerifiedStream(j, g) && last == |Kept(j, g)| - 1
    ensures last < |Inputs(g)| && Kept(j, g) == Replay(j.kernel, s.cache, Inputs(g))[..last + 1]
    ensures Inputs(g)[1..last + 1] == Tokens(Replay(j.kernel, s.cache, Inputs(g))[..last])
  {
    KeptInputsAgree(j, g, last);
  }

  /** The kept answers are what the verifier alone would generate next. */
  lemma KeptIsGenerated(j: Job, g: Generation, s: Stream)
    requires Shape(j, g) && Unverified(g) > 0 && s == VerifiedStream(j, g)
    ensures Extended(s, Kept(j, g)) == Canon(j.kernel, s, |Kept(j, g)|)
  {
    var last := |Kept(j, g)| - 1;
    KeptIsReplayed(j, g, s, last);
    ReplayFollowsCanon(j.kernel, s, Inputs(g), last);
  }

  /** A commit extends the verified part by the kept answers and nothing else. */
  lemma CommitExtends(j: Job, g: Generation)
    requires Shape(j, g) && Unverified(g) > 0
    ensures var v := Committed(j, g);
            && Stream(v.cache, v.outputs, v.logprobs) == Extended(VerifiedStream(j, g), Kept(j, g))
            && v.verified == |v.outputs| == g.verified + |Kept(j, g)|
  {
  }

  lemma WholeIsVerified(j: Job, v: Generation)
    requires Shape(j, v) && v.verified == |v.outputs|
    ensures VerifiedStream(j, v) == Stream(v.cache, v.outputs, v.logprobs)
  {
  }

  /** Speculation is exact: whatever the drafts are and wherever the cache of the verified part came from, a
      verification commits what the verifier would have generated from there on its own. */
  lemma CommitIsGenerated(j: Job, g: Generation, s: Stream)
    requires Shape(j, g) && Unverified(g) > 0 && s == VerifiedStream(j, g)
    ensures VerifiedStream(j, Committed(j, g)) == Canon(j.kernel, s, |Kept(j, g)|)
  {
    KeptIsGenerated(j, g, s);
    CommitExtends(j, g);
    WholeIsVerified(j, Committed(j, g));
  }

  /** One verification commits the agreed drafts and, after a mismatch, one verifier token; all of
      it is canonical. */
  lemma CommitIsCanonical(j: Job, g: Generation)
    requires Canonical(j, g) && Unverified(g) > 0
    ensures Canonical(j, Committed(j, g))
  {
    hide Kept;
    hide Committed;
    CommitIsGenerated(j, g, VerifiedStream(j, g));
    CommitExtends(j, g);
    CanonSplit(j.kernel, j.start, g.verified - 1, |Kept(j, g)|);
  }

  /** What is kept of the drafts is kept as it was. */
  lemma CommitKeepsAgreed(j: Job, g: Generation)
    requires Shape(j, g) && Unverified(g) > 0
    ensures var m, v := Agreed(j, g), Committed(j, g);
            && |v.outputs| == g.verified + Min(m + 1, Unverified(g))
            && v.outputs[..g.verified + m] == g.outputs[..g.verified + m]
            && (m == Unverified(g) ==> v.outputs == g.outputs)
  {
    var m, v := Agreed(j, g), Committed(j, g);
    var drafts := g.outputs[g.verified..];
    assert drafts[..m] == Tokens(WindowPasses(j, g))[..m] == Tokens(Kept(j, g))[..m];
    assert g.outputs[..g.verified + m] == g.outputs[..g.verified] + drafts[..m];
    assert v.outputs[..g.verified + m] == g.outputs[..g.verified] + Tokens(Kept(j, g))[..m];
    if m == Unverified(g) {
      assert g.outputs[..g.verified + m] == g.outputs && v.outputs[..g.verified + m] == v.outputs;
    }
  }

  /** The token that the next decode is fed: the batch is brought up to date only for requests that lost tokens, and
      otherwise goes on with what was drafted last. */
  function FedNext(j: Job, g: Generation): Token
    requires Shape(j, g) && Unverified(g) > 0
  {
    var outputs := if RolledBack(j, g) > 0 then Committed(j, g).outputs else g.outputs;
    outputs[|outputs| - 1]
  }

  /** It is the request's last token exactly if the first mismatch was not at the last position: there the verifier's
      token replaces the draft and none counts as rolled back. */
  lemma FedNextIsLastIff(j: Job, g: Generation)
    requires Shape(j, g) && Unverified(g) > 0
    ensures var v := Committed(j, g).outputs;
            FedNext(j, g) == v[|v| - 1] <==> Agreed(j, g) != Unverified(g) - 1
  {
    CommitKeepsAgreed(j, g);
    if Agreed(j, g) == Unverified(g) - 1 {
      MismatchReplaces(j, g);
    }
  }

  lemma MismatchReplaces(j: Job, g: Generation)
    requires Shape(j, g) && Unverified(g) > 0 && Agreed(j, g) == Unverified(g) - 1
    ensures var v := Committed(j, g).outputs;
            |v| == |g.outputs| && RolledBack(j, g) == 0 && v[|v| - 1] != g.outputs[|g.outputs| - 1]
  {
    var m, passes := Agreed(j, g), WindowPasses(j, g);
    assert Kept(j, g) == passes[..m + 1];
    assert Committed(j, g).outputs == g.outputs[..g.verified] + Tokens(Kept(j, g));
    assert g.outputs[g.verified..][m] != Tokens(passes)[m];
  }

  // ----- the invariant of a request

  /** No shorter prefix of the outputs meets a stop condition, and the status says whether they do. */
  ghost predicate StopsRightHere(j: Job, r: Request)
  {
    && r.gen.outputs != []
    && (forall k :: 1 <= k < |r.gen.outputs| ==> StopReason(j, r.gen.outputs[..k]).None?)
    && r.status.reason == StopReason(j, r.gen.outputs)
  }

  /** The detokenizer has only been handed verified tokens, in order and without repetition, though perhaps not
      all of them. */
  ghost predicate TextDelivered(t: Text, g: Generation)
  {
    t.upTo <= g.verified <= |g.outputs| && Subsequence(t.ids, g.outputs[..t.upTo])
  }

  /** The client has only been sent verified tokens: as ids an initial piece of them, as text some of them. */
  ghost predicate Delivered(r: Request)
  {
    && r.delivery.offset <= r.gen.verified <= |r.gen.outputs|
    && r.delivery.sent == r.gen.outputs[..r.delivery.offset]
    && (r.status.length.Some? ==> r.delivery.offset <= r.status.length.value)
    && TextDelivered(r.delivery.text, r.gen)
  }

  /** What every run keeps, retractions or not. */
  ghost predicate Orderly(j: Job, r: Request)
  {
    Shape(j, r.gen) && StopsRightHere(j, r) && Delivered(r)
  }

  /** A request still in the batch has not been answered. */
  ghost predicate Open(r: Request)
  {
    r.status.reason.None? ==> !r.delivery.closed
  }

  ghost predicate Safe(j: Job, r: Request)
  {
    Canonical(j, r.gen) && Orderly(j, r)
  }

  lemma SafeIsCanonical(j: Job, r: Request)
    requires Safe(j, r)
    ensures r.gen.outputs[..r.gen.verified] == CanonTokens(j, r.gen.verified)
    ensures r.delivery.sent <= CanonTokens(j, r.gen.verified)
    ensures Subsequence(r.delivery.text.ids, CanonTokens(j, r.gen.verified))
  {
    var outs := CanonTokens(j, r.gen.verified);
    PrefixOfVerified(r.gen, outs, r.delivery.offset);
    PrefixOfVerified(r.gen, outs, r.delivery.text.upTo);
    SubsequenceOfPrefix(r.delivery.text.ids, outs, r.delivery.text.upTo);
  }

  lemma PrefixOfVerified(g: Generation, outs: seq<Token>, k: nat)
    requires k <= g.verified <= |g.outputs| && outs == g.outputs[..g.verified]
    ensures k <= |outs| && g.outputs[..k] == outs[..k]
  {
  }

  // ----- streaming

  /** Sending the visible outputs up to a point continues what was sent before. */
  lemma SendsMore(d: Delivery, g: Generation, out: seq<Token>, upTo: nat, closed: bool)
    requires d.offset <= |g.outputs| && d.sent == g.outputs[..d.offset] && out <= g.outputs && d.offset <= upTo <= |out|
    ensures SendUpTo(d, g, out, upTo, closed).sent == g.outputs[..upTo]
  {
    assert out[d.offset..upTo] == g.outputs[d.offset..upTo];
    assert g.outputs[..d.offset] + g.outputs[d.offset..upTo] == g.outputs[..upTo];
  }

  lemma SlicesJoin<T>(s: seq<T>, out: seq<T>, lo: nat, hi: nat, n: nat)
    requires lo <= hi <= n <= |s| && hi <= |out| && out <= s
    ensures out[lo..hi] == s[lo..hi] && s[..lo] + s[lo..hi] == s[..n][..hi]
  {
    assert forall k :: lo <= k < hi ==> out[k] == s[k];
  }

  lemma TextMoves(t: Text, g: Generation, out: seq<Token>)
    requires TextDelivered(t, g) && out <= g.outputs
    ensures TextDelivered(TextUpTo(t, out, g.verified), g)
  {
    var lo, hi, outs := t.upTo, Min(g.verified, |out|), g.outputs[..g.verified];
    if lo <= hi {
      SubsequenceKeeps(t.ids, g.outputs[..lo], g.outputs[lo..hi]);
      SlicesJoin(g.outputs, out, lo, hi, g.verified);
      SubsequenceOfPrefix(t.ids + out[lo..hi], outs, hi);
    } else {
      assert g.outputs[..lo] == outs[..lo] && t.ids + [] == t.ids;
      SubsequenceOfPrefix(t.ids, outs, lo);
    }
  }

  lemma StreamOutputOrderly(j: Job, r: Request, flush: bool)
    requires Orderly(j, r) && !r.delivery.closed
    ensures Orderly(j, StreamOutput(r, flush)) && Open(StreamOutput(r, flush))
  {
    var g, d := r.gen, r.delivery;
    if r.status.reason.Some? {
      if g.verified == |g.outputs| {
        var length := if r.status.length.None? then Some(|g.outputs|) else r.status.length;
        var out := Visible(g.outputs, length);
        SendsMore(d, g, out, |out|, true);
        TextMoves(d.text, g, out);
      }
    } else if flush && g.verified > d.offset {
      var out := Visible(g.outputs, r.status.length);
      SendsMore(d, g, out, Min(|out|, g.verified), false);
      TextMoves(d.text, g, out);
    }
  }

  // ----- decoding and resuming

  /** Finished or not, the last token decides: everything before it was looked at when it was appended. */
  lemma RecheckedStops(j: Job, r: Request)
    requires r.gen.outputs != []
    requires forall k :: 1 <= k < |r.gen.outputs| ==> StopReason(j, r.gen.outputs[..k]).None?
    requires r.status.reason.Some? ==> r.status.reason == StopReason(j, r.gen.outputs)
    ensures StopsRightHere(j, Rechecked(j, r))
  {
  }

  lemma AppendedStops(j: Job, r: Request, d: Request, draft: Token)
    requires StopsRightHere(j, r) && r.status.reason.None?
    requires d.gen.outputs == r.gen.outputs + [draft] && d.status == r.status
    ensures StopsRightHere(j, Rechecked(j, d))
  {
    var outs, before := d.gen.outputs, r.gen.outputs;
    forall k | 1 <= k < |outs|
      ensures StopReason(j, outs[..k]).None?
    {
      assert outs[..k] == before[..k];
      if k == |before| { assert outs[..k] == before; }
    }
    RecheckedStops(j, d);
  }

  /** Appending a token leaves what has been sent alone. */
  lemma AppendedOrderly(j: Job, r: Request, d: Request, draft: Token)
    requires Orderly(j, r) && r.status.reason.None? && Shape(j, d.gen)
    requires d.gen.outputs == r.gen.outputs + [draft] && d.gen.verified == r.gen.verified
    requires d.status == r.status && d.delivery == r.delivery
    ensures Orderly(j, Rechecked(j, d))
  {
    AppendedStops(j, r, d, draft);
    assert d.gen.outputs[..r.delivery.offset] == r.gen.outputs[..r.delivery.offset];
    assert d.gen.outputs[..r.delivery.text.upTo] == r.gen.outputs[..r.delivery.text.upTo];
  }

  // ----- verification

  /** Verification never invents an earlier stop: only the token it appended needs a new test. */
  lemma VerifyStops(j: Job, d: Request)
    requires Shape(j, d.gen) && StopsRightHere(j, d) && Unverified(d.gen) > 0
    ensures StopsRightHere(j, Rechecked(j, Verify(j, d)))
  {
    var v := Verify(j, d);
    if Agreed(j, d.gen) < Unverified(d.gen) {
      forall k | 1 <= k < |v.gen.outputs|
        ensures StopReason(j, v.gen.outputs[..k]).None?
      {
        NoEarlierStop(j, d, k);
      }
    } else {
      CommitKeepsAgreed(j, d.gen);
    }
    RecheckedStops(j, v);
  }

  /** The drafts that survive a mismatch had not stopped the request. */
  lemma NoEarlierStop(j: Job, d: Request, k: nat)
    requires Shape(j, d.gen) && StopsRightHere(j, d) && 0 < Unverified(d.gen) && Agreed(j, d.gen) < Unverified(d.gen)
    requires 1 <= k < |Verify(j, d).gen.outputs|
    ensures StopReason(j, Verify(j, d).gen.outputs[..k]).None?
  {
    CommitKeepsAgreed(j, d.gen);
    var v, m := Verify(j, d), Agreed(j, d.gen);
    assert v.gen.outputs[..k] == v.gen.outputs[..d.gen.verified + m][..k] == d.gen.outputs[..k];
  }

  /** A commit leaves the verified outputs as they are. */
  lemma CommitKeepsVerified(j: Job, g: Generation, k: nat)
    requires Shape(j, g) && Unverified(g) > 0 && k <= g.verified
    ensures g.verified < Committed(j, g).verified == |Committed(j, g).outputs|
    ensures Committed(j, g).outputs[..k] == g.outputs[..k]
  {
    var v := Committed(j, g);
    assert v.outputs[..g.verified] == g.outputs[..g.verified];
    assert v.outputs[..k] == v.outputs[..g.verified][..k] && g.outputs[..k] == g.outputs[..g.verified][..k];
  }

  lemma VerifyDelivered(j: Job, d: Request)
    requires Shape(j, d.gen) && Delivered(d) && Unverified(d.gen) > 0 && |d.gen.outputs| <= j.maxNew
    ensures Delivered(Rechecked(j, Verify(j, d)))
  {
    CommitKeepsVerified(j, d.gen, d.delivery.offset);
    CommitKeepsVerified(j, d.gen, d.delivery.text.upTo);
  }

  /** Verification replaces drafts without disturbing anything the invariant speaks of. */
  lemma VerifyOrderly(j: Job, d: Request)
    requires Orderly(j, d) && Unverified(d.gen) > 0
    ensures Orderly(j, Rechecked(j, Verify(j, d)))
  {
    VerifyStops(j, d);
    assert |d.gen.outputs| > 1 ==> StopReason(j, d.gen.outputs[..|d.gen.outputs| - 1]).None?;
    VerifyDelivered(j, d);
  }

  // ----- runs

  lemma IterateOrderly(j: Job, r: Request, draft: Token, kv: KV, logprob: int, pulled: bool, flush: bool)
    requires Orderly(j, r) && Open(r) && r.status.reason.None?
    ensures var o := Iterate(j, r, draft, kv, logprob, pulled, flush);
            o.Live? ==> Orderly(j, o.r) && Open(o.r)
  {
    var d := Rechecked(j, Drafted(j, r, draft, kv, logprob));
    AppendedOrderly(j, r, Drafted(j, r, draft, kv, logprob), draft);
    var o := Verification(j, d, pulled);
    if o == Live(d) {
      RecheckedStops(j, d);
      StreamOutputOrderly(j, Rechecked(j, d), flush);
    } else if o.Live? {
      VerifyOrderly(j, d);
      StreamOutputOrderly(j, Rechecked(j, Verify(j, d)), flush);
    }
  }

  lemma ApplyOrderly(j: Job, r: Request, e: Event)
    requires ValidJob(j) && Orderly(j, r) && Open(r)
    ensures Apply(j, r, e).Live? ==> Orderly(j, Apply(j, r, e).r) && Open(Apply(j, r, e).r)
  {
    if r.status.reason.None? {
      match e
      case Iteration(draft, kv, logprob, pulled, flush) =>
        IterateOrderly(j, r, draft, kv, logprob, pulled, flush);
      case Resume(draft, logprob, flush) =>
        var d := Resumed(j, r, draft, logprob);
        AppendedOrderly(j, r, d, draft);
        StreamOutputOrderly(j, Rechecked(j, d), flush);
    }
  }

  lemma PrefilledOrderly(j: Job, flush: bool)
    requires ValidJob(j)
    ensures Orderly(j, Prefilled(j, flush)) && Open(Prefilled(j, flush))
    ensures Prefilled(j, flush).gen == Generation(j.start.tokens, 1, j.start.cache, j.start.logprobs)
  {
    var g := Generation(j.start.tokens, 1, j.start.cache, j.start.logprobs);
    var r := Request(g, Status(None, None), Delivery([], 0, false, Text([], 0), Logs([], 0)), Stats(0, 0, 0, 0));
    RecheckedStops(j, r);
    StreamOutputOrderly(j, Rechecked(j, r), flush);
  }

  lemma {:induction false} RunOrderly(j: Job, r: Request, events: seq<Event>)
    requires ValidJob(j) && Orderly(j, r) && Open(r)
    ensures Run(j, r, events).Live? ==> Orderly(j, Run(j, r, events).r) && Open(Run(j, r, events).r)
    decreases |events|
  {
    if events != [] {
      ApplyOrderly(j, r, events[0]);
      if Apply(j, r, events[0]).Live? {
        RunOrderly(j, Apply(j, r, events[0]).r, events[1..]);
      }
    }
  }

  /** Why a request stopped: at its length limit whatever its last token is, on an end token before that, and on a stop
      string only otherwise. */
  lemma WhyItStopped(j: Job, flush: bool, events: seq<Event>)
    requires ValidJob(j)
    ensures var o := Run(j, Prefilled(j, flush), events);
            o.Live? ==>
              && o.r.gen.outputs != []
              && var outs, reason := o.r.gen.outputs, o.r.status.reason;
                 var ended := outs[|outs| - 1] in j.eos;
                 && (reason == Some(Length) <==> |outs| >= j.maxNew)
                 && (reason == Some(MatchedToken) <==> |outs| < j.maxNew && ended)
                 && (reason == Some(MatchedString) <==> |outs| < j.maxNew && !ended && j.matchesStop(outs))
  {
    hide Run;
    hide Prefilled;
    PrefilledOrderly(j, flush);
    RunOrderly(j, Prefilled(j, flush), events);
  }

  // ----- what is committed

  /** A later prefill of the prompt and the outputs reproduces the verifier's cache entries. */
  ghost predicate ExtendAgrees(j: Job)
    requires ValidJob(j)
  {
    forall n: nat, ts: seq<Token> :: Canon(j.kernel, j.start, n).tokens <= ts ==>
      j.extend(ts)[..|j.start.cache| + n] == Canon(j.kernel, j.start, n).cache
  }

  lemma CanonicalOfDraft(j: Job, g: Generation, d: Generation)
    requires Canonical(j, g) && Shape(j, d) && d.verified == g.verified && |d.outputs| >= |g.outputs|
    requires d.outputs[..g.verified] == g.outputs[..g.verified]
    requires d.logprobs[..g.verified] == g.logprobs[..g.verified]
    requires d.cache[..|j.start.cache| + g.verified - 1] == g.cache[..|j.start.cache| + g.verified - 1]
    ensures Canonical(j, d)
  {
  }

  /** A step keeps the verified part canonical, whatever it drafts. */
  lemma ApplyCanonical(j: Job, r: Request, e: Event)
    requires Canonical(j, r.gen) && (e.Resume? ==> ExtendAgrees(j))
    ensures Apply(j, r, e).Live? ==> Canonical(j, Apply(j, r, e).r.gen)
  {
    if r.status.reason.None? {
      match e
      case Iteration(draft, kv, logprob, pulled, flush) =>
        var d := Drafted(j, r, draft, kv, logprob);
        DraftedCanonical(j, r, draft, kv, logprob);
        VerificationCanonical(j, Rechecked(j, d), pulled);
      case Resume(draft, logprob, flush) => ResumedCanonical(j, r, draft, logprob);
    }
  }

  lemma DraftedCanonical(j: Job, r: Request, draft: Token, kv: KV, logprob: int)
    requires Canonical(j, r.gen)
    ensures Canonical(j, Drafted(j, r, draft, kv, logprob).gen)
  {
    CanonicalOfDraft(j, r.gen, Drafted(j, r, draft, kv, logprob).gen);
  }

  lemma ResumedCanonical(j: Job, r: Request, draft: Token, logprob: int)
    requires Canonical(j, r.gen) && ExtendAgrees(j)
    ensures Canonical(j, Resumed(j, r, draft, logprob).gen)
  {
    assert Canon(j.kernel, j.start, r.gen.verified - 1).tokens <= r.gen.outputs;
    CanonicalOfDraft(j, r.gen, Resumed(j, r, draft, logprob).gen);
  }

  lemma VerificationCanonical(j: Job, d: Request, pulled: bool)
    requires Canonical(j, d.gen) && Unverified(d.gen) > 0
    ensures Verification(j, d, pulled).Live? ==> Canonical(j, Verification(j, d, pulled).r.gen)
  {
    CommitIsCanonical(j, d.gen);
  }

  lemma ApplySafe(j: Job, r: Request, e: Event)
    requires Safe(j, r) && Open(r)
    requires e.Resume? ==> ExtendAgrees(j)
    ensures Apply(j, r, e).Live? ==> Safe(j, Apply(j, r, e).r) && Open(Apply(j, r, e).r)
  {
    ApplyOrderly(j, r, e);
    ApplyCanonical(j, r, e);
  }

  lemma PrefilledSafe(j: Job, flush: bool)
    requires ValidJob(j)
    ensures Safe(j, Prefilled(j, flush)) && Open(Prefilled(j, flush))
  {
    PrefilledOrderly(j, flush);
    var g := Prefilled(j, flush).gen;
    WholeIsVerified(j, g);
  }

  lemma {:induction false} RunSafe(j: Job, r: Request, events: seq<Event>)
    requires Safe(j, r) && Open(r)
    requires (forall e :: e in events ==> e.Iteration?) || ExtendAgrees(j)
    ensures Run(j, r, events).Live? ==> Safe(j, Run(j, r, events).r) && Open(Run(j, r, events).r)
    decreases |events|
  {
    if events != [] {
      assert events[0] in events;
      ApplySafe(j, r, events[0]);
      if Apply(j, r, events[0]).Live? {
        assert forall e :: e in events[1..] ==> e in events;
        RunSafe(j, Apply(j, r, events[0]).r, events[1..]);
      }
    }
  }
}
