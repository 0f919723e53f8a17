/** The life of one deterministic request under decode-verify-rollback.

Decoding appends draft tokens and draft key/value entries that may be anything at all.  After each
decode iteration the request is verified if it has finished, if it has accumulated a window of
unverified tokens, or if it is pulled in to fill up another request's verification batch.
Verification replays the drafts, keeps the agreeing prefix plus one verifier token and drops the
rest.  A request can also be retracted when memory runs out and resumed by a new prefill.
*/
module DecodeVerifyRollback {
  import opened Arithmetic
  import opened Options
  import opened Verifier

  /** Why a request stopped. */
  datatype Reason = Length | MatchedToken | MatchedString

  /** What is fixed for a request: the verifier, the outcome of its isolated prefill, the entries a
      later prefill computes for the prompt followed by given outputs, and its stop conditions. */
  datatype Job = Job(kernel: Kernel, start: Stream, extend: seq<Token> -> seq<KV>,
                     maxNew: nat, eos: set<Token>, matchesStop: seq<Token> -> bool, window: nat)

  ghost predicate ValidJob(j: Job)
  {
    && |j.start.tokens| == 1 && |j.start.logprobs| == 1
    && j.window >= 1
    && forall ts: seq<Token> :: |j.extend(ts)| == |j.start.cache| + |ts|
  }

  /** The tokens generated so far, of which the first `verified` are committed, with the cache
      entries and log-probabilities that go with them. */
  datatype Generation = Generation(outputs: seq<Token>, verified: nat, cache: seq<KV>, logprobs: seq<int>)

  datatype Status = Status(reason: Option<Reason>, length: Option<nat>)

  /** The tokens handed to the detokenizer, and how far into the outputs it is taken to have come. */
  datatype Text = Text(ids: seq<Token>, upTo: nat)

  /** The log-probabilities that were sent, and where the next ones start. */
  datatype Logs = Logs(sent: seq<int>, upTo: nat)

  /** What the client has been sent: token ids, text and log-probabilities. */
  datatype Delivery = Delivery(sent: seq<Token>, offset: nat, closed: bool, text: Text, logs: Logs)

  datatype Stats = Stats(decodes: nat, resumes: nat, windows: nat, rolledBack: nat)

  datatype Request = Request(gen: Generation, status: Status, delivery: Delivery, stats: Stats)

  ghost predicate Shape(j: Job, g: Generation)
  {
    && 1 <= g.verified <= |g.outputs|
    && |g.cache| == |j.start.cache| + |g.outputs| - 1
    && |g.logprobs| == |g.outputs|
  }

  // ----- stop conditions

  /** The stop test looks at the outputs only; its order decides the reason. */
  function StopReason(j: Job, outputs: seq<Token>): Option<Reason>
    requires outputs != []
  {
    if |outputs| >= j.maxNew then Some(Length)
    else if outputs[|outputs| - 1] in j.eos then Some(MatchedToken)
    else if j.matchesStop(outputs) then Some(MatchedString)
    else None
  }

  /** A string match records the reason but, unlike the other two, no length. */
  function CheckFinished(j: Job, outputs: seq<Token>, s: Status): Status
    requires outputs != []
  {
    if s.reason.Some? then s
    else
      match StopReason(j, outputs)
      case None => s
      case Some(Length) => Status(Some(Length), Some(j.maxNew))
      case Some(MatchedToken) => Status(Some(MatchedToken), Some(|outputs|))
      case Some(MatchedString) => Status(Some(MatchedString), s.length)
  }

  // ----- verification

  /** The common prefix; the longer of two lists of different lengths is cut. */
  function FirstMismatch(original: seq<Token>, verified: seq<Token>): (m: nat)
    ensures m <= |original| && m <= |verified|
    ensures original[..m] == verified[..m]
    ensures m < |original| && m < |verified| ==> original[m] != verified[m]
    decreases |original|
  {
    if original == [] || verified == [] || original[0] != verified[0] then 0
    else
      var m := FirstMismatch(original[1..], verified[1..]);
      assert original[..m + 1] == [original[0]] + original[1..][..m];
      assert verified[..m + 1] == [verified[0]] + verified[1..][..m];
      m + 1
  }

  function Unverified(g: Generation): (n: nat)
    requires g.verified <= |g.outputs|
  {
    |g.outputs| - g.verified
  }

  /** The verifier's answers for the unverified tokens: the last verified token is fed in again, so
      that its cache entry is rewritten too, followed by all drafts but the last. */
  function WindowPasses(j: Job, g: Generation): (passes: seq<Pass>)
    requires Shape(j, g) && Unverified(g) > 0
    ensures |passes| == Unverified(g)
  {
    Replay(j.kernel, g.cache[..|j.start.cache| + g.verified - 1], g.outputs[g.verified - 1..|g.outputs| - 1])
  }

  /** Where the drafts first differ from the verifier's answers. */
  function Agreed(j: Job, g: Generation): (m: nat)
    requires Shape(j, g) && Unverified(g) > 0
    ensures m <= Unverified(g)
  {
    FirstMismatch(g.outputs[g.verified..], Tokens(WindowPasses(j, g)))
  }

  /** The tokens dropped by a verification, not counting the one the verifier replaced. */
  function RolledBack(j: Job, g: Generation): nat
    requires Shape(j, g) && Unverified(g) > 0
  {
    if Agreed(j, g) < Unverified(g) then Unverified(g) - Agreed(j, g) - 1 else 0
  }

  /** The answers that are kept: those for the agreed drafts and, after a mismatch, one more. */
  function Kept(j: Job, g: Generation): (passes: seq<Pass>)
    requires Shape(j, g) && Unverified(g) > 0
    ensures 0 < |passes| <= Unverified(g)
  {
    WindowPasses(j, g)[..Min(Agreed(j, g) + 1, Unverified(g))]
  }

  /** The generation after a verification: what was verified before, extended by the kept answers. */
  function Committed(j: Job, g: Generation): (v: Generation)
    requires Shape(j, g) && Unverified(g) > 0
    ensures Shape(j, v) && v.verified == |v.outputs|
  {
    var kept := Kept(j, g);
    Generation(g.outputs[..g.verified] + Tokens(kept), g.verified + |kept|,
               g.cache[..|j.start.cache| + g.verified - 1] + KVs(kept),
               g.logprobs[..g.verified] + Logprobs(kept))
  }

  /** A mismatch also withdraws the reason to stop, though not the recorded length.  All log-probabilities,
      verified ones included, count as sent. */
  function Verify(j: Job, r: Request): (v: Request)
    requires Shape(j, r.gen) && Unverified(r.gen) > 0
    ensures Shape(j, v.gen)
  {
    r.(gen := Committed(j, r.gen),
       delivery := r.delivery.(logs := r.delivery.logs.(upTo := |Committed(j, r.gen).logprobs|)),
       status := if Agreed(j, r.gen) < Unverified(r.gen) then Status(None, r.status.length) else r.status,
       stats := r.stats.(windows := r.stats.windows + 1, rolledBack := r.stats.rolledBack + RolledBack(j, r.gen)))
  }

  // ----- streaming

  /** Outputs through the stop condition: the recorded length, if there is one, cuts the list. */
  function Visible(outputs: seq<Token>, length: Option<nat>): (v: seq<Token>)
    ensures v <= outputs
  {
    if length.Some? then outputs[..Min(length.value, |outputs|)] else outputs
  }

  /** `s[lo:hi]`, which is empty when the bounds cross. */
  function Slice<T>(s: seq<T>, lo: nat, hi: nat): seq<T>
    requires hi <= |s|
  {
    if lo <= hi then s[lo..hi] else []
  }

  /** The visible verified tokens that the detokenizer has not seen; all verified ones count as seen, visible or
      not. */
  function TextUpTo(t: Text, out: seq<Token>, verified: nat): Text
  {
    Text(t.ids + Slice(out, t.upTo, Min(verified, |out|)), verified)
  }

  function LogsUpTo(l: Logs, logprobs: seq<int>): Logs
  {
    Logs(l.sent + Slice(logprobs, l.upTo, |logprobs|), |logprobs|)
  }

  function SendUpTo(d: Delivery, g: Generation, out: seq<Token>, upTo: nat, closed: bool): Delivery
    requires upTo <= |out|
  {
    Delivery(d.sent + Slice(out, d.offset, upTo), upTo, closed, TextUpTo(d.text, out, g.verified),
             LogsUpTo(d.logs, g.logprobs))
  }

  /** A finished request is sent once everything is verified; a running one shows verified tokens. */
  function StreamOutput(r: Request, flush: bool): (s: Request)
    ensures s.gen == r.gen && s.status.reason == r.status.reason && s.stats == r.stats
  {
    var g := r.gen;
    if r.status.reason.Some? then
      if r.delivery.closed || g.verified < |g.outputs| then r
      else
        var length := if r.status.length.None? then Some(|g.outputs|) else r.status.length;
        var out := Visible(g.outputs, length);
        r.(status := r.status.(length := length), delivery := SendUpTo(r.delivery, g, out, |out|, true))
    else if flush && g.verified > r.delivery.offset then
      var out := Visible(g.outputs, r.status.length);
      r.(delivery := SendUpTo(r.delivery, g, out, Min(|out|, g.verified), false))
    else r
  }

  // ----- steps

  /** One decode iteration with its draft and its environment's choices, or a retraction followed by
      the prefill that resumes the request. */
  datatype Event =
    | Iteration(draft: Token, kv: KV, logprob: int, pulled: bool, flush: bool)
    | Resume(draft: Token, logprob: int, flush: bool)

  datatype Outcome = Live(r: Request) | Crashed

  function Rechecked(j: Job, r: Request): Request
    requires r.gen.outputs != []
  {
    r.(status := CheckFinished(j, r.gen.outputs, r.status))
  }

  function Drafted(j: Job, r: Request, draft: Token, kv: KV, logprob: int): (d: Request)
    requires Shape(j, r.gen)
    ensures Shape(j, d.gen) && Unverified(d.gen) == Unverified(r.gen) + 1
  {
    var g := r.gen;
    r.(gen := Generation(g.outputs + [draft], g.verified, g.cache + [kv], g.logprobs + [logprob]),
       stats := r.stats.(decodes := r.stats.decodes + 1))
  }

  function Resumed(j: Job, r: Request, draft: Token, logprob: int): (d: Request)
    requires ValidJob(j) && Shape(j, r.gen)
    ensures Shape(j, d.gen) && Unverified(d.gen) == Unverified(r.gen) + 1
  {
    var g := r.gen;
    r.(gen := Generation(g.outputs + [draft], g.verified, j.extend(g.outputs), g.logprobs + [logprob]),
       stats := r.stats.(resumes := r.stats.resumes + 1))
  }

  predicate Ready(j: Job, r: Request)
    requires r.gen.verified <= |r.gen.outputs|
  {
    r.status.reason.Some? || Unverified(r.gen) >= j.window
  }

  /** More unverified tokens than a window holds break the fixed shape of the verification batch,
      which is rejected with an error that ends the server. */
  function Verification(j: Job, d: Request, pulled: bool): (o: Outcome)
    requires Shape(j, d.gen) && Unverified(d.gen) > 0
    ensures o.Live? ==> Shape(j, o.r.gen)
  {
    if !Ready(j, d) && !pulled then Live(d)
    else if Unverified(d.gen) > j.window then Crashed
    else Live(Verify(j, d))
  }

  function Iterate(j: Job, r: Request, draft: Token, kv: KV, logprob: int, pulled: bool, flush: bool): (o: Outcome)
    requires Shape(j, r.gen)
    ensures o.Live? ==> Shape(j, o.r.gen)
  {
    match Verification(j, Rechecked(j, Drafted(j, r, draft, kv, logprob)), pulled)
    case Crashed => Crashed
    case Live(v) => Live(StreamOutput(Rechecked(j, v), flush))
  }

  /** A finished request has left the batch, so nothing happens to it any more. */
  function Apply(j: Job, r: Request, e: Event): (o: Outcome)
    requires ValidJob(j) && Shape(j, r.gen)
    ensures o.Live? ==> Shape(j, o.r.gen)
  {
    if r.status.reason.Some? then Live(r)
    else
      match e
      case Iteration(draft, kv, logprob, pulled, flush) => Iterate(j, r, draft, kv, logprob, pulled, flush)
      case Resume(draft, logprob, flush) => Live(StreamOutput(Rechecked(j, Resumed(j, r, draft, logprob)), flush))
  }

  /** The first token comes from the isolated prefill and counts as verified. */
  function Prefilled(j: Job, flush: bool): (r: Request)
    requires ValidJob(j)
    ensures Shape(j, r.gen)
  {
    var g := Generation(j.start.tokens, 1, j.start.cache, j.start.logprobs);
    StreamOutput(Rechecked(j, Request(g, Status(None, None), Delivery([], 0, false, Text([], 0), Logs([], 0)), Stats(0, 0, 0, 0))),
                 flush)
  }

  function Run(j: Job, r: Request, events: seq<Event>): (o: Outcome)
    requires ValidJob(j) && Shape(j, r.gen)
    ensures o.Live? ==> Shape(j, o.r.gen)
    decreases |events|
  {
    if events == [] then Live(r)
    else
      match Apply(j, r, events[0])
      case Crashed => Crashed
      case Live(next) => Run(j, next, events[1..])
  }
}
