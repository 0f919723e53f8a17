/** The verification worker on request objects: building the batch, running it, comparing the answers
    and rolling requests back in place. */
module LLM42Worker {
  import opened Options
  import opened Arithmetic
  import opened Verifier
  import opened DecodeVerifyRollback
  import opened VerificationBatch
  import opened BatchLayout
  import opened KvMemory

  /** The state of a request that verification changes. */
  datatype ReqValue = ReqValue(gen: Generation, reason: Option<Reason>, windows: nat, rolledBack: nat)

  ghost predicate PendingValue(job: Job, v: ReqValue)
  {
    Shape(job, v.gen) && Unverified(v.gen) > 0
  }

  /** A request verified on its own. */
  ghost function Verified(job: Job, v: ReqValue): ReqValue
    requires PendingValue(job, v)
  {
    ReqValue(Committed(job, v.gen), if Agreed(job, v.gen) < Unverified(v.gen) then None else v.reason,
             v.windows + 1, v.rolledBack + RolledBack(job, v.gen))
  }

  class Req {
    const job: Job
    const poolIdx: nat
    var outputIds: seq<Token>
    var verifiedTokens: nat
    var logprobs: seq<int>
    var finishedReason: Option<Reason>
    var numRollbacks: nat
    var tokensRolledBack: nat
    var verificationWindows: nat

    /** The number of positions that have an entry: all but that of the last token. */
    function SeqLen(): nat
      reads this
    {
      if outputIds == [] then |job.start.cache| else |job.start.cache| + |outputIds| - 1
    }

    /** The cache entries are whatever the memory holds for the request's positions. */
    ghost function Gen(m: Memory): Generation
      reads this
    {
      Generation(outputIds, verifiedTokens, CacheOf(m, poolIdx, SeqLen()), logprobs)
    }

    ghost function Value(m: Memory): ReqValue
      reads this
    {
      ReqValue(Gen(m), finishedReason, verificationWindows, tokensRolledBack)
    }

    /** A deterministic request with something to verify. */
    ghost predicate Pending()
      reads this
    {
      1 <= verifiedTokens < |outputIds| == |logprobs|
    }

    constructor (job: Job, poolIdx: nat, outputIds: seq<Token>, verifiedTokens: nat, logprobs: seq<int>)
      ensures this.job == job && this.poolIdx == poolIdx
      ensures this.outputIds == outputIds && this.verifiedTokens == verifiedTokens && this.logprobs == logprobs
      ensures finishedReason == None && numRollbacks == tokensRolledBack == verificationWindows == 0
    {
      this.job, this.poolIdx := job, poolIdx;
      this.outputIds, this.verifiedTokens, this.logprobs := outputIds, verifiedTokens, logprobs;
      finishedReason := None;
      numRollbacks, tokensRolledBack, verificationWindows := 0, 0, 0;
    }

    /** Token-level comparison: everything from the first mismatch on is dropped from the end of the
        outputs and the verifier's token is appended. */
    method Compare(original: seq<Token>, verified: seq<Token>, verifiedLogprobs: seq<int>)
      returns (mismatch: nat, rolledBack: nat)
      requires 0 < |original| == |verified| == |verifiedLogprobs|
      requires |original| <= |outputIds| && |original| <= |logprobs|
      modifies this`outputIds, this`logprobs, this`finishedReason
      ensures mismatch == FirstMismatch(original, verified)
      ensures mismatch < |original| ==>
              && outputIds == old(outputIds)[..|old(outputIds)| - (|original| - mismatch)] + [verified[mismatch]]
              && logprobs == old(logprobs)[..|old(logprobs)| - |original|] + verifiedLogprobs[..mismatch + 1]
              && finishedReason == None && rolledBack == |original| - mismatch - 1
      ensures mismatch == |original| ==>
              && outputIds == old(outputIds) && finishedReason == old(finishedReason) && rolledBack == 0
              && logprobs == old(logprobs)[..|old(logprobs)| - |original|] + verifiedLogprobs
    {
      mismatch := FirstMismatch(original, verified);
      rolledBack := |original| - mismatch;
      logprobs := logprobs[..|logprobs| - |original|];
      if rolledBack > 0 {
        outputIds := outputIds[..|outputIds| - rolledBack];
        logprobs := logprobs + verifiedLogprobs[..mismatch];
        finishedReason := None;
        if mismatch < |verified| {
          outputIds := outputIds + [verified[mismatch]];
          logprobs := logprobs + [verifiedLogprobs[mismatch]];
          rolledBack := rolledBack - 1;
        }
        assert verifiedLogprobs[..mismatch] + [verifiedLogprobs[mismatch]] == verifiedLogprobs[..mismatch + 1];
      } else {
        logprobs := logprobs + verifiedLogprobs;
      }
    }

    /** Bookkeeping after a comparison that covered `outputLen` tokens. */
    method Settle(outputLen: nat, rolledBack: nat)
      modifies this`verifiedTokens, this`numRollbacks, this`tokensRolledBack, this`verificationWindows
      ensures verificationWindows == old(verificationWindows) + 1
      ensures tokensRolledBack == old(tokensRolledBack) + rolledBack
      ensures numRollbacks == old(numRollbacks) + if rolledBack > 0 then 1 else 0
      ensures verifiedTokens == if rolledBack > 0 then |outputIds| else old(verifiedTokens) + outputLen
    {
      verificationWindows := verificationWindows + 1;
      if rolledBack > 0 {
        numRollbacks := numRollbacks + 1;
        tokensRolledBack := tokensRolledBack + rolledBack;
        verifiedTokens := |outputIds|;
      } else {
        verifiedTokens := verifiedTokens + outputLen;
      }
    }
  }

  // ----- one comparison is one commit

  /** The rolled-back request, in the form the comparison leaves it in. */
  lemma CompareCommits(job: Job, g: Generation, m: nat)
    requires Shape(job, g) && Unverified(g) > 0 && m == Agreed(job, g)
    ensures var n, passes, v := Unverified(g), WindowPasses(job, g), Committed(job, g);
            && (m < n ==> v.outputs == g.outputs[..|g.outputs| - (n - m)] + [Tokens(passes)[m]])
            && (m < n ==> v.logprobs == g.logprobs[..|g.logprobs| - n] + Logprobs(passes)[..m + 1])
            && (m == n ==> v.outputs == g.outputs)
            && (m == n ==> v.logprobs == g.logprobs[..|g.logprobs| - n] + Logprobs(passes))
  {
    var n, passes, kept := Unverified(g), WindowPasses(job, g), Kept(job, g);
    var drafts := g.outputs[g.verified..];
    assert drafts[..m] == Tokens(passes)[..m];
    assert g.outputs[..g.verified + m] == g.outputs[..g.verified] + drafts[..m];
    assert |g.outputs| - (n - m) == g.verified + m && |g.logprobs| - n == g.verified;
    assert Logprobs(kept) == Logprobs(passes)[..|kept|] && Tokens(kept) == Tokens(passes)[..|kept|];
    if m < n {
      assert Tokens(passes)[..m + 1] == Tokens(passes)[..m] + [Tokens(passes)[m]];
    } else {
      assert g.outputs == g.outputs[..g.verified] + drafts[..m];
    }
  }

  /** Different requests, which have different rows in the table of positions. */
  ghost predicate Distinct(reqs: seq<Req>)
  {
    forall i, j :: 0 <= i < j < |reqs| ==> reqs[i] != reqs[j] && reqs[i].poolIdx != reqs[j].poolIdx
  }

  /** The lists that describe the windows of a batch, one element per request. */
  datatype Lists = Lists(originals: seq<Token>, lens: seq<nat>, padded: seq<nat>, masks: seq<seq<bool>>, slots: nat)

  function Added(l: Lists, drafts: seq<Token>, padded: nat): Lists
    requires |drafts| <= padded
  {
    var padding := padded - |drafts|;
    Lists(l.originals + drafts + Repeat(DUMMY_TOKEN_ID, padding), l.lens + [|drafts|], l.padded + [padded],
          l.masks + [Repeat(true, |drafts|) + Repeat(false, padding)],
          l.slots + if padded > 0 then padded - 1 else 0)
  }

  ghost predicate ListsOf(es: seq<Entry>, l: Lists)
  {
    && WellPadded(es)
    && l.originals == Flatten(PaddedAll(es)) && l.slots == Sum(SlotsOf(es))
    && |es| == |l.lens| == |l.padded| == |l.masks|
    && forall i :: 0 <= i < |es| ==>
         l.lens[i] == |es[i].drafts| && l.padded[i] == es[i].padded && l.masks[i] == Mask(es[i])
  }

  lemma NoLists(l: Lists, force: bool, w: nat)
    requires l == Lists([], [], [], [], 0)
    ensures ListsOf([], l) && EntriesOf([], force, w) == []
  {
  }

  lemma ListsAdded(es: seq<Entry>, l: Lists, e: Entry)
    requires ListsOf(es, l) && |e.drafts| <= e.padded
    ensures ListsOf(es + [e], Added(l, e.drafts, e.padded))
  {
    PaddedNext(es, e);
    SlotsNext(es, e);
  }

  lemma PaddedNext(es: seq<Entry>, e: Entry)
    requires WellPadded(es) && |e.drafts| <= e.padded
    ensures WellPadded(es + [e])
    ensures Flatten(PaddedAll(es + [e])) == Flatten(PaddedAll(es)) + PaddedTokens(e)
  {
    assert PaddedAll(es + [e]) == PaddedAll(es) + [PaddedTokens(e)];
    FlattenAppend(PaddedAll(es), PaddedTokens(e));
  }

  lemma SlotsNext(es: seq<Entry>, e: Entry)
    ensures Sum(SlotsOf(es + [e])) == Sum(SlotsOf(es)) + if e.padded > 0 then e.padded - 1 else 0
  {
    assert SlotsOf(es + [e])[..|es|] == SlotsOf(es);
  }

  method CollectWindows(reqs: seq<Req>, force: bool, w: nat) returns (l: Lists)
    requires forall r :: r in reqs ==> r.verifiedTokens <= |r.outputIds|
    ensures ListsOf(EntriesOf(Snapshots(reqs), force, w), l)
  {
    hide ListsOf;
    hide Added;
    hide EntriesOf;
    l := Lists([], [], [], [], 0);
    ghost var es: seq<Entry> := [];
    NoLists(l, force, w);
    for i := 0 to |reqs|
      invariant es == EntriesOf(Snapshots(reqs[..i]), force, w)
      invariant ListsOf(es, l)
    {
      var r := reqs[i];
      var unverified := r.outputIds[r.verifiedTokens..];
      EntriesStep(reqs, i, force, w);
      if |unverified| != 0 {
        ghost var e := EntryOf(unverified, r.finishedReason.Some?, force, w);
        ListsAdded(es, l, e);
        es := es + [e];
        if force && |unverified| > w {
          unverified := unverified[..w];
        }
        var shouldPad := |unverified| < w && (r.finishedReason.Some? || force);
        l := Added(l, unverified, if shouldPad then w else |unverified|);
      }
    }
    assert reqs[..|reqs|] == reqs;
  }

  lemma Whole<T>(s: seq<T>)
    ensures s[..|s|] == s
  {
  }

  /** The metadata of one verification pass. */
  class LLM42Info {
    var originalOutputs: seq<Token>
    var outputLens: seq<nat>
    var paddedLens: seq<nat>
    var paddingMasks: seq<seq<bool>>
    var numRealRequests: nat
    var totalPaddingCacheSlots: nat

    /** The lists describe these windows, followed by dummies if any were appended. */
    ghost predicate Describes(es: seq<Entry>)
      reads this
    {
      && numRealRequests == |es| <= |outputLens|
      && |outputLens| == |paddedLens| == |paddingMasks|
      && ListsOf(es, Lists(originalOutputs, outputLens[..|es|], paddedLens[..|es|], paddingMasks[..|es|],
                           totalPaddingCacheSlots))
    }

    constructor FromRequests(reqs: seq<Req>, force: bool, w: nat, ghost es: seq<Entry>)
      requires forall r :: r in reqs ==> r.verifiedTokens <= |r.outputIds|
      requires es == EntriesOf(Snapshots(reqs), force, w)
      ensures Describes(es) && |outputLens| == numRealRequests
    {
      hide EntriesOf;
      hide PaddedAll;
      hide Flatten;
      hide Sum;
      var l := CollectWindows(reqs, force, w);
      originalOutputs, outputLens, paddedLens, paddingMasks := l.originals, l.lens, l.padded, l.masks;
      numRealRequests, totalPaddingCacheSlots := |l.lens|, l.slots;
      new;
      Whole(l.lens);
      Whole(l.padded);
      Whole(l.masks);
    }

    /** Dummy requests have no real outputs; their masks are all padding. */
    method AppendDummyEntries(numDummies: nat, w: nat, ghost es: seq<Entry>)
      requires Describes(es) && |outputLens| == |es|
      modifies this
      ensures Describes(es)
      ensures originalOutputs == old(originalOutputs) && numRealRequests == old(numRealRequests)
      ensures totalPaddingCacheSlots == old(totalPaddingCacheSlots)
      ensures outputLens == old(outputLens) + Repeat(0, numDummies)
      ensures paddedLens == old(paddedLens) + Repeat(w, numDummies)
      ensures paddingMasks == old(paddingMasks) + Repeat(Repeat(false, w), numDummies)
    {
      for i := 0 to numDummies
        invariant originalOutputs == old(originalOutputs) && numRealRequests == old(numRealRequests)
        invariant totalPaddingCacheSlots == old(totalPaddingCacheSlots)
        invariant outputLens == old(outputLens) + Repeat(0, i)
        invariant paddedLens == old(paddedLens) + Repeat(w, i)
        invariant paddingMasks == old(paddingMasks) + Repeat(Repeat(false, w), i)
      {
        RepeatAppend<nat>(0, i);
        RepeatAppend(w, i);
        RepeatAppend(Repeat(false, w), i);
        outputLens := outputLens + [0];
        paddedLens := paddedLens + [w];
        paddingMasks := paddingMasks + [Repeat(false, w)];
      }
      assert old(outputLens)[..|es|] == outputLens[..|es|] && old(paddedLens)[..|es|] == paddedLens[..|es|];
      assert old(paddingMasks)[..|es|] == paddingMasks[..|es|];
    }

    /** Builds the token and cache-location lists of the real requests.  A mismatch between the two is
        an error. */
    method PrepareVerifyBatch(reqs: seq<Req>, padding: seq<Loc>, ghost gens: seq<Generation>, ghost es: seq<Entry>)
      returns (b: Option<VerifyBatch>)
      requires Describes(es) && |es| == |reqs| && Outputs(reqs, gens) && AllPending(gens)
      requires padding == PaddingLocs(totalPaddingCacheSlots) && forall i :: 0 <= i < |es| ==> es[i].padded >= 1
      ensures var inputs, locs := Flatten(InputsAll(gens, es)), Flatten(LocsAll(PlacesOf(reqs), gens, es));
              && (b.Some? <==> |locs| == |inputs|)
              && (b.Some? ==> b.value == VerifyBatch(inputs, locs))
    {
      var inputIds := InputTokens(reqs, gens, es);
      var outCacheLoc := CacheLocations(reqs, padding, gens, es);
      if |outCacheLoc| != |inputIds| {
        return None;
      }
      b := Some(VerifyBatch(inputIds, outCacheLoc));
    }

    method InputTokens(reqs: seq<Req>, ghost gens: seq<Generation>, ghost es: seq<Entry>) returns (inputIds: seq<Token>)
      requires Describes(es) && |es| == |reqs| && Outputs(reqs, gens) && AllPending(gens)
      ensures inputIds == Flatten(InputsAll(gens, es))
    {
      hide Flatten;
      hide PaddedAll;
      inputIds := [];
      ghost var inputs := InputsAll(gens, es);
      assert Flatten(inputs[..0]) == [] by { FlattenNothing(inputs[..0]); }
      for i := 0 to |reqs|
        invariant inputIds == Flatten(inputs[..i])
      {
        var r := reqs[i];
        assert gens[i].outputs == r.outputIds && gens[i].verified == r.verifiedTokens;
        var actual, padded := outputLens[..numRealRequests][i], paddedLens[..numRealRequests][i];
        FlattenPrefix(inputs, i);
        inputIds := inputIds + WindowInputs(r.outputIds, r.verifiedTokens, actual, padded);
      }
      Whole(inputs);
    }

    method CacheLocations(reqs: seq<Req>, padding: seq<Loc>, ghost gens: seq<Generation>, ghost es: seq<Entry>)
      returns (outCacheLoc: seq<Loc>)
      requires Describes(es) && |es| == |reqs| && Outputs(reqs, gens) && AllPending(gens)
      requires padding == PaddingLocs(totalPaddingCacheSlots) && forall i :: 0 <= i < |es| ==> es[i].padded >= 1
      ensures outCacheLoc == Flatten(LocsAll(PlacesOf(reqs), gens, es))
    {
      hide Flatten;
      hide Sum;
      hide LocsOf;
      hide PaddedAll;
      outCacheLoc := [];
      var paddingOffset: nat := 0;
      ghost var locs, spares := LocsAll(PlacesOf(reqs), gens, es), SparesAll(gens, es);
      assert Flatten(locs[..0]) == [] by { FlattenNothing(locs[..0]); }
      assert Sum(spares[..0]) == 0 by { SumNothing(spares[..0]); }
      for i := 0 to |reqs|
        invariant outCacheLoc == Flatten(locs[..i])
        invariant paddingOffset == Sum(spares[..i])
      {
        var r := reqs[i];
        assert gens[i].outputs == r.outputIds && gens[i].verified == r.verifiedTokens;
        SparesSuffice(gens, es, i);
        var own, next := WindowLocations(r.poolIdx, |r.job.start.cache|, |r.outputIds|, r.verifiedTokens,
                                         paddedLens[..numRealRequests][i], padding, paddingOffset, gens[i]);
        FlattenPrefix(locs, i);
        SumPrefix(spares, i);
        outCacheLoc, paddingOffset := outCacheLoc + own, next;
      }
      Whole(locs);
    }
  }

  lemma FlattenNothing<T>(xs: seq<seq<T>>)
    requires xs == []
    ensures Flatten(xs) == []
  {
  }

  lemma SumNothing(xs: seq<nat>)
    requires xs == []
    ensures Sum(xs) == 0
  {
  }

  /** The outputs and marks of these requests. */
  ghost predicate Outputs(reqs: seq<Req>, gens: seq<Generation>)
    reads reqs
  {
    && |reqs| == |gens|
    && forall i :: 0 <= i < |reqs| ==> gens[i].outputs == reqs[i].outputIds && gens[i].verified == reqs[i].verifiedTokens
  }

  /** The first `n` spare slots. */
  function PaddingLocs(n: nat): (locs: seq<Loc>)
    ensures |locs| == n && forall k :: 0 <= k < n ==> locs[k] == Padding(k)
  {
    seq(n, k requires 0 <= k => Padding(k))
  }

  /** `s[lo:hi]`, cut off at the end of the list. */
  function Clipped<T>(s: seq<T>, lo: nat, hi: nat): seq<T>
    requires lo <= hi
  {
    s[Min(lo, |s|)..Min(hi, |s|)]
  }

  /** Spare slots for a batch out of the pool for `fixedSize` windows; asking for more is an error. */
  method PaddingCacheLocs(slots: nat, fixedSize: nat, w: nat) returns (locs: Option<seq<Loc>>)
    requires w >= 1
    ensures locs == if slots <= fixedSize * (w - 1) then Some(PaddingLocs(slots)) else None
  {
    var pool := PaddingLocs(fixedSize * (w - 1));
    if slots > |pool| {
      return None;
    }
    assert pool[..slots] == PaddingLocs(slots);
    locs := Some(pool[..slots]);
  }

  /** Decoding's own slots are reused from the last verified token on; only padding gets new ones. */
  method WindowLocations(req: nat, prompt: nat, outputLen: nat, verified: nat, padded: nat, padding: seq<Loc>,
                         paddingOffset: nat, ghost g: Generation)
    returns (locs: seq<Loc>, nextOffset: nat)
    requires 1 <= verified < outputLen && padded >= 1
    requires outputLen == |g.outputs| && verified == g.verified
    requires padding == PaddingLocs(|padding|) && paddingOffset + SpareOf(g, padded) <= |padding|
    ensures locs == LocsOf(req, prompt, g, padded, paddingOffset)
    ensures nextOffset == paddingOffset + SpareOf(g, padded)
  {
    var currentSeqLen := prompt + outputLen - 1;
    var start := prompt + verified;
    var afterContext := padded - 1;
    var end := if start + afterContext < currentSeqLen then start + afterContext else currentSeqLen;
    var remaining := afterContext - (end - start);
    locs, nextOffset := [Own(req, start - 1)], paddingOffset;
    if start < end {
      locs := locs + seq(end - start, t requires 0 <= t => Own(req, start + t));
    }
    if remaining > 0 {
      locs := locs + Clipped(padding, paddingOffset, paddingOffset + remaining);
      nextOffset := paddingOffset + remaining;
    }
  }

  lemma RepeatAppend<T>(x: T, n: nat)
    ensures Repeat(x, n + 1) == Repeat(x, n) + [x]
  {
  }

  lemma EntriesStep(reqs: seq<Req>, i: nat, force: bool, w: nat)
    requires i < |reqs| && forall r :: r in reqs ==> r.verifiedTokens <= |r.outputIds|
    ensures var unverified := reqs[i].outputIds[reqs[i].verifiedTokens..];
            EntriesOf(Snapshots(reqs[..i + 1]), force, w)
            == EntriesOf(Snapshots(reqs[..i]), force, w)
               + if unverified == [] then [] else [EntryOf(unverified, reqs[i].finishedReason.Some?, force, w)]
  {
    var ss := Snapshots(reqs[..i + 1]);
    assert ss[..i] == Snapshots(reqs[..i]);
  }

  ghost function Snapshots(reqs: seq<Req>): (ss: seq<Snapshot>)
    requires forall r :: r in reqs ==> r.verifiedTokens <= |r.outputIds|
    reads reqs
    ensures |ss| == |reqs|
    ensures forall i :: 0 <= i < |reqs| ==>
              ss[i] == Snapshot(reqs[i].outputIds[reqs[i].verifiedTokens..], reqs[i].finishedReason.Some?)
    decreases |reqs|
  {
    if reqs == [] then []
    else
      var r := reqs[|reqs| - 1];
      Snapshots(reqs[..|reqs| - 1]) + [Snapshot(r.outputIds[r.verifiedTokens..], r.finishedReason.Some?)]
  }

  datatype VerifyBatch = VerifyBatch(inputIds: seq<Token>, outCacheLoc: seq<Loc>)

  lemma FlattenPrefix<T>(xs: seq<seq<T>>, i: nat)
    requires i < |xs|
    ensures Flatten(xs[..i + 1]) == Flatten(xs[..i]) + xs[i]
  {
    assert xs[..i + 1] == xs[..i] + [xs[i]];
    FlattenAppend(xs[..i], xs[i]);
  }

  function PlacesOf(reqs: seq<Req>): (places: seq<Place>)
    ensures |places| == |reqs|
    ensures forall i :: 0 <= i < |reqs| ==> places[i] == Place(reqs[i].poolIdx, |reqs[i].job.start.cache|)
  {
    seq(|reqs|, i requires 0 <= i < |reqs| => Place(reqs[i].poolIdx, |reqs[i].job.start.cache|))
  }

  // ----- comparison of a whole batch

  /** The real tokens of a window and the answers to them, without the padding. */
  method WindowAnswers(window: seq<Token>, full: seq<Pass>, mask: seq<bool>, ghost e: Entry)
    returns (original: seq<Token>, answers: seq<Pass>)
    requires |e.drafts| <= e.padded == |full| && mask == Mask(e) && window == PaddedTokens(e)
    ensures original == e.drafts && answers == full[..|e.drafts|]
  {
    MaskedPrefix(window, mask, |e.drafts|);
    MaskedPrefix(full, mask, |e.drafts|);
    original := Masked(window, mask);
    answers := Masked(full, mask);
  }

  /** The answers to a batch, window by window. */
  ghost predicate Answers(reqs: seq<Req>, gens: seq<Generation>, es: seq<Entry>, pss: seq<seq<Pass>>)
  {
    && |reqs| == |gens| == |es| <= |pss|
    && forall i :: 0 <= i < |reqs| ==>
         && Shape(reqs[i].job, gens[i]) && Unverified(gens[i]) > 0
         && es[i].drafts == gens[i].outputs[gens[i].verified..] && |es[i].drafts| <= es[i].padded
         && |pss[i]| == es[i].padded
         && pss[i][..|es[i].drafts|] == WindowPasses(reqs[i].job, gens[i])
  }

  lemma {:induction false} OffsetsAgree<T, U>(xs: seq<seq<T>>, ys: seq<seq<U>>, i: nat)
    requires i <= |xs| && i <= |ys| && forall k :: 0 <= k < i ==> |xs[k]| == |ys[k]|
    ensures |Flatten(xs[..i])| == |Flatten(ys[..i])|
  {
    if i > 0 {
      OffsetsAgree(xs, ys, i - 1);
      FlattenPrefix(xs, i - 1);
      FlattenPrefix(ys, i - 1);
    }
  }

  /** The i-th window lies at the same offset in the original tokens and in the answers. */
  lemma WindowAt(es: seq<Entry>, pss: seq<seq<Pass>>, originals: seq<Token>, passes: seq<Pass>, i: nat, offset: nat, end: nat)
    requires WellPadded(es) && i < |es| <= |pss|
    requires forall k :: 0 <= k < |es| ==> |pss[k]| == es[k].padded
    requires originals == Flatten(PaddedAll(es)) && passes == Flatten(pss)
    requires offset == |Flatten(PaddedAll(es)[..i])| && end == offset + es[i].padded
    ensures end == |Flatten(PaddedAll(es)[..i + 1])| && end <= |originals| && end <= |passes|
    ensures originals[offset..end] == PaddedTokens(es[i])
    ensures passes[offset..end] == pss[i]
  {
    FlattenSlice(PaddedAll(es), i);
    FlattenSlice(pss, i);
    OffsetsAgree(PaddedAll(es), pss, i);
  }

  /** The i-th request's drafts and the answers to them, cut out of the flat lists. */
  method AnswersAt(l: Lists, passes: seq<Pass>, i: nat, offset: nat, ghost reqs: seq<Req>,
                   ghost gens: seq<Generation>, ghost es: seq<Entry>, ghost pss: seq<seq<Pass>>)
    returns (original: seq<Token>, answers: seq<Pass>, next: nat)
    requires ListsOf(es, l) && Answers(reqs, gens, es, pss) && passes == Flatten(pss)
    requires i < |reqs| && offset == |Flatten(PaddedAll(es)[..i])|
    ensures original == gens[i].outputs[gens[i].verified..]
    ensures answers == WindowPasses(reqs[i].job, gens[i])
    ensures next == |Flatten(PaddedAll(es)[..i + 1])|
  {
    next := offset + l.padded[i];
    WindowAt(es, pss, l.originals, passes, i, offset, next);
    original, answers := WindowAnswers(l.originals[offset..next], passes[offset..next], l.masks[i], es[i]);
  }
}
