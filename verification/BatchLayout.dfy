/** How a verification batch is laid out, as functions of the requests' values: padded windows,
    input tokens and cache locations. */
module BatchLayout {
  import opened Arithmetic
  import opened Verifier
  import opened DecodeVerifyRollback
  import opened VerificationBatch

  /** The part of a request that goes into a window, with the length it is padded to. */
  datatype Entry = Entry(drafts: seq<Token>, padded: nat)

  /** In a fixed-size batch every window is cut and padded to `w`; otherwise only finished requests
      are padded. */
  function EntryOf(drafts: seq<Token>, finished: bool, force: bool, w: nat): (e: Entry)
    ensures |e.drafts| <= e.padded
  {
    var cut := if force && |drafts| > w then drafts[..w] else drafts;
    Entry(cut, if |cut| < w && (finished || force) then w else |cut|)
  }

  /** What a request contributes: its drafts and whether it has finished. */
  datatype Snapshot = Snapshot(drafts: seq<Token>, finished: bool)

  /** Requests with nothing unverified are skipped. */
  function EntriesOf(ss: seq<Snapshot>, force: bool, w: nat): (es: seq<Entry>)
    ensures WellPadded(es)
    decreases |ss|
  {
    if ss == [] then []
    else
      var s := ss[|ss| - 1];
      EntriesOf(ss[..|ss| - 1], force, w) + (if s.drafts == [] then [] else [EntryOf(s.drafts, s.finished, force, w)])
  }

  lemma {:induction false} EntriesInOrder(ss: seq<Snapshot>, force: bool, w: nat)
    requires forall i :: 0 <= i < |ss| ==> ss[i].drafts != []
    ensures |EntriesOf(ss, force, w)| == |ss|
    ensures forall i :: 0 <= i < |ss| ==> EntriesOf(ss, force, w)[i] == EntryOf(ss[i].drafts, ss[i].finished, force, w)
    decreases |ss|
  {
    if ss != [] {
      EntriesInOrder(ss[..|ss| - 1], force, w);
    }
  }

  ghost predicate WellPadded(es: seq<Entry>)
  {
    forall i :: 0 <= i < |es| ==> |es[i].drafts| <= es[i].padded
  }

  function PaddedTokens(e: Entry): (ts: seq<Token>)
    requires |e.drafts| <= e.padded
    ensures |ts| == e.padded
  {
    e.drafts + Repeat(DUMMY_TOKEN_ID, e.padded - |e.drafts|)
  }

  function PaddedAll(es: seq<Entry>): (tss: seq<seq<Token>>)
    requires WellPadded(es)
    ensures |tss| == |es| && forall i :: 0 <= i < |es| ==> tss[i] == PaddedTokens(es[i])
  {
    seq(|es|, i requires 0 <= i < |es| => PaddedTokens(es[i]))
  }

  function Mask(e: Entry): (mask: seq<bool>)
    requires |e.drafts| <= e.padded
    ensures |mask| == e.padded
  {
    Repeat(true, |e.drafts|) + Repeat(false, e.padded - |e.drafts|)
  }

  /** The elements of `xs` that the mask marks. */
  function Masked<T>(xs: seq<T>, mask: seq<bool>): seq<T>
    requires |xs| == |mask|
    decreases |xs|
  {
    if xs == [] then []
    else Masked(xs[..|xs| - 1], mask[..|xs| - 1]) + (if mask[|xs| - 1] then [xs[|xs| - 1]] else [])
  }

  lemma {:induction false} MaskedPrefix<T>(xs: seq<T>, mask: seq<bool>, n: nat)
    requires |xs| == |mask| && n <= |xs|
    requires forall i :: 0 <= i < |xs| ==> (mask[i] <==> i < n)
    ensures Masked(xs, mask) == xs[..n]
    decreases |xs|
  {
    if xs != [] {
      var last := |xs| - 1;
      if n == |xs| {
        MaskedPrefix(xs[..last], mask[..last], last);
        assert xs == xs[..last][..last] + [xs[last]];
      } else {
        MaskedPrefix(xs[..last], mask[..last], n);
        assert xs[..last][..n] == xs[..n];
      }
    }
  }

  // ----- inputs

  /** The tokens fed in for a request: the last verified token, then the drafts but the last, then
      dummies.  An overfull window is cut when it is recorded but not here, where the drafts are read
      again. */
  function WindowInputs(outputs: seq<Token>, verified: nat, actual: nat, padded: nat): seq<Token>
    requires 1 <= verified < |outputs|
  {
    var unverified := outputs[verified..];
    var last := [outputs[verified - 1]];
    if padded > actual then
      var after := if actual > 1 then unverified[..|unverified| - 1] else [];
      last + after + Repeat(DUMMY_TOKEN_ID, if padded - 1 > |after| then padded - 1 - |after| else 0)
    else
      last + unverified[..|unverified| - 1]
  }

  function InputsOf(g: Generation, e: Entry): seq<Token>
    requires 1 <= g.verified < |g.outputs|
  {
    WindowInputs(g.outputs, g.verified, |e.drafts|, e.padded)
  }

  /** A window that fits is fed in whole, one position early, and then padded. */
  lemma InputsFit(g: Generation, e: Entry, finished: bool, force: bool, w: nat)
    requires 1 <= g.verified < |g.outputs| && e == EntryOf(g.outputs[g.verified..], finished, force, w)
    ensures |InputsOf(g, e)| == e.padded <==> !(force && |g.outputs| - g.verified > w)
    ensures |InputsOf(g, e)| >= e.padded
    ensures |InputsOf(g, e)| == e.padded ==>
            && e.drafts == g.outputs[g.verified..]
            && InputsOf(g, e)[..|e.drafts|] == g.outputs[g.verified - 1..|g.outputs| - 1]
  {
    var unverified := g.outputs[g.verified..];
    if |InputsOf(g, e)| == e.padded {
      assert [g.outputs[g.verified - 1]] + unverified[..|unverified| - 1] == g.outputs[g.verified - 1..|g.outputs| - 1];
    }
  }

  // ----- cache locations

  /** Where a token's key/value entry is written: the slot of a position of a request, a spare slot for padding, or
      a slot of a dummy request. */
  datatype Loc = Own(req: nat, pos: nat) | Padding(slot: nat) | Dummy(row: nat, pos: nat)

  /** Position by position from the last verified token on: the slots that decoding wrote to, then
      spare slots for the padding. */
  function LocsOf(req: nat, prompt: nat, g: Generation, padded: nat, spare: nat): (locs: seq<Loc>)
    requires 1 <= g.verified < |g.outputs|
    ensures |locs| == padded
  {
    var context, written := prompt + g.verified - 1, prompt + |g.outputs| - 1;
    seq(padded, t requires 0 <= t =>
      if context + t < written then Own(req, context + t) else Padding(spare + context + t - written))
  }

  /** How many spare slots a request takes. */
  function SpareOf(g: Generation, padded: nat): nat
    requires 1 <= g.verified < |g.outputs|
  {
    if padded > |g.outputs| - g.verified then padded - (|g.outputs| - g.verified) else 0
  }

  // ----- whole batches

  ghost predicate AllPending(gens: seq<Generation>)
  {
    forall i :: 0 <= i < |gens| ==> 1 <= gens[i].verified < |gens[i].outputs|
  }

  function InputsAll(gens: seq<Generation>, es: seq<Entry>): (inputs: seq<seq<Token>>)
    requires |gens| == |es| && AllPending(gens)
    ensures |inputs| == |gens|
    ensures forall i :: 0 <= i < |gens| ==> inputs[i] == InputsOf(gens[i], es[i])
  {
    seq(|gens|, i requires 0 <= i < |gens| => InputsOf(gens[i], es[i]))
  }

  function SparesAll(gens: seq<Generation>, es: seq<Entry>): (spares: seq<nat>)
    requires |gens| == |es| && AllPending(gens)
    ensures |spares| == |gens|
    ensures forall i :: 0 <= i < |gens| ==> spares[i] == SpareOf(gens[i], es[i].padded)
  {
    seq(|gens|, i requires 0 <= i < |gens| => SpareOf(gens[i], es[i].padded))
  }

  /** Whose positions a request's slots are looked up under, and how many of them its prompt takes. */
  datatype Place = Place(id: nat, prompt: nat)

  ghost predicate DistinctPlaces(places: seq<Place>)
  {
    forall i, k :: 0 <= i < k < |places| ==> places[i].id != places[k].id
  }

  /** Spare slots are handed out in order, so that no two windows share one. */
  function LocsAll(places: seq<Place>, gens: seq<Generation>, es: seq<Entry>): (locs: seq<seq<Loc>>)
    requires |places| == |gens| == |es| && AllPending(gens)
    ensures |locs| == |gens|
    ensures forall i :: 0 <= i < |gens| ==>
              locs[i] == LocsOf(places[i].id, places[i].prompt, gens[i], es[i].padded, Sum(SparesAll(gens, es)[..i]))
  {
    seq(|gens|, i requires 0 <= i < |gens| =>
      LocsOf(places[i].id, places[i].prompt, gens[i], es[i].padded, Sum(SparesAll(gens, es)[..i])))
  }

  /** Every dummy request has a window of slots of its own. */
  function DummyLocs(count: nat, w: nat): (locs: seq<seq<Loc>>)
    ensures |locs| == count
    ensures forall i :: 0 <= i < count ==> |locs[i]| == w && forall t :: 0 <= t < w ==> locs[i][t] == Dummy(i, t)
  {
    seq(count, i requires 0 <= i => seq(w, t requires 0 <= t => Dummy(i, t)))
  }

  function BatchLocs(places: seq<Place>, gens: seq<Generation>, es: seq<Entry>, dummies: nat, w: nat): seq<seq<Loc>>
    requires |places| == |gens| == |es| && AllPending(gens)
  {
    LocsAll(places, gens, es) + DummyLocs(dummies, w)
  }

  /** The spare slots reserved for a batch: all positions of each window but the first. */
  function SlotsOf(es: seq<Entry>): (ns: seq<nat>)
    ensures |ns| == |es|
    ensures forall i :: 0 <= i < |es| ==> ns[i] == if es[i].padded > 0 then es[i].padded - 1 else 0
  {
    seq(|es|, i requires 0 <= i < |es| => if es[i].padded > 0 then es[i].padded - 1 else 0)
  }

  /** The reserved slots suffice for every window of the batch. */
  lemma SparesSuffice(gens: seq<Generation>, es: seq<Entry>, i: nat)
    requires |gens| == |es| && AllPending(gens) && i < |gens|
    ensures Sum(SparesAll(gens, es)[..i]) + SpareOf(gens[i], es[i].padded) <= Sum(SlotsOf(es))
  {
    var spares := SparesAll(gens, es);
    SumPrefix(spares, i);
    SumMonotone(spares, SlotsOf(es));
  }

  /** And the pool that was set aside for a batch of `n` windows suffices for the reservation. */
  lemma PoolSuffices(es: seq<Entry>, n: nat, w: nat)
    requires |es| <= n && w >= 1 && forall i :: 0 <= i < |es| ==> es[i].padded <= w
    ensures Sum(SlotsOf(es)) <= n * (w - 1)
  {
    SumBound(SlotsOf(es), w - 1);
    MulMonotone(|es|, n, w - 1);
  }

  /** The cache locations match the input tokens in number exactly when no window is overfull. */
  lemma BatchFitsIff(places: seq<Place>, gens: seq<Generation>, finished: seq<bool>, es: seq<Entry>, force: bool, w: nat)
    requires |places| == |gens| == |es| == |finished| && AllPending(gens)
    requires forall i :: 0 <= i < |es| ==> es[i] == EntryOf(gens[i].outputs[gens[i].verified..], finished[i], force, w)
    ensures |Flatten(LocsAll(places, gens, es))| == |Flatten(InputsAll(gens, es))| <==>
            (forall i :: 0 <= i < |gens| && force ==> |gens[i].outputs| - gens[i].verified <= w)
    ensures |Flatten(LocsAll(places, gens, es))| == |Flatten(InputsAll(gens, es))| ==>
            Lengths(InputsAll(gens, es)) == Lengths(LocsAll(places, gens, es))
  {
    var locs, inputs := LocsAll(places, gens, es), InputsAll(gens, es);
    forall i | 0 <= i < |gens|
      ensures |locs[i]| == es[i].padded <= |inputs[i]|
      ensures |inputs[i]| == es[i].padded <==> !(force && |gens[i].outputs| - gens[i].verified > w)
    {
      InputsFit(gens[i], es[i], finished[i], force, w);
    }
    SumLengths(locs);
    SumLengths(inputs);
    SumMonotone(Lengths(locs), Lengths(inputs));
    if Lengths(locs) == Lengths(inputs) {
      forall i | 0 <= i < |gens|
        ensures |inputs[i]| == |locs[i]|
      {
        assert Lengths(locs)[i] == Lengths(inputs)[i];
      }
    }
  }

  /** In a fixed-size batch every window has the same length. */
  lemma FixedShape(gens: seq<Generation>, finished: seq<bool>, es: seq<Entry>, w: nat)
    requires |gens| == |es| == |finished| && AllPending(gens)
    requires forall i :: 0 <= i < |es| ==> es[i] == EntryOf(gens[i].outputs[gens[i].verified..], finished[i], true, w)
    requires forall i :: 0 <= i < |gens| ==> |gens[i].outputs| - gens[i].verified <= w
    ensures Lengths(InputsAll(gens, es)) == Repeat(w, |gens|)
  {
    forall i | 0 <= i < |gens|
      ensures |InputsOf(gens[i], es[i])| == w
    {
      InputsFit(gens[i], es[i], finished[i], true, w);
    }
  }

  /** No two tokens of a batch, dummies included, write their entries to the same place. */
  lemma LocsAreDistinct(places: seq<Place>, gens: seq<Generation>, es: seq<Entry>, dummies: nat, w: nat,
                        i: nat, s: nat, k: nat, t: nat)
    requires |places| == |gens| == |es| && AllPending(gens) && DistinctPlaces(places)
    requires var locs := BatchLocs(places, gens, es, dummies, w);
             i < |locs| && s < |locs[i]| && k < |locs| && t < |locs[k]| && (i, s) != (k, t)
    ensures BatchLocs(places, gens, es, dummies, w)[i][s] != BatchLocs(places, gens, es, dummies, w)[k][t]
  {
    var spares := SparesAll(gens, es);
    if i < k < |gens| {
      SparesApart(spares, i, k);
    } else if k < i < |gens| {
      SparesApart(spares, k, i);
    }
  }

  lemma {:induction false} SparesApart(spares: seq<nat>, i: nat, k: nat)
    requires i < k < |spares|
    ensures Sum(spares[..i]) + spares[i] <= Sum(spares[..k])
  {
    SumPrefix(spares[..k], i);
    assert spares[..k][..i] == spares[..i] && spares[..k][..i + 1] == spares[..i + 1];
  }
}
