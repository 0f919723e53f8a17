/** Filtering a chat dataset by length, going round it again until enough conversations have been found. */
module ChatFilter {
  import opened Options
  import opened Arithmetic
  import opened Sequences

  /** A question with its answer, and the tokenizer as a function that gives lengths. */
  datatype Pair = Pair(prompt: string, completion: string)

  datatype Kept = Kept(prompt: string, promptLen: nat, outputLen: nat)

  type Tokenizer = string -> nat

  datatype Bounds = Bounds(minPrompt: Option<nat>, minOutput: Option<nat>, maxPrompt: Option<nat>, maxOutput: Option<nat>,
                           fixedOutput: Option<nat>)

  function OutputLen(b: Bounds, len: Tokenizer, p: Pair): nat
  {
    if b.fixedOutput.Some? then b.fixedOutput.value else len(p.completion)
  }

  predicate InBounds(b: Bounds, promptLen: nat, outputLen: nat)
  {
    && (b.minPrompt.Some? ==> b.minPrompt.value <= promptLen) && (b.minOutput.Some? ==> b.minOutput.value <= outputLen)
    && (b.maxPrompt.Some? ==> promptLen <= b.maxPrompt.value) && (b.maxOutput.Some? ==> outputLen <= b.maxOutput.value)
  }

  /** The turns of a conversation that are within all bounds, in order. */
  function Processed(b: Bounds, len: Tokenizer, turns: seq<Pair>): (r: seq<Kept>)
    ensures forall k :: 0 <= k < |r| ==> InBounds(b, r[k].promptLen, r[k].outputLen) && r[k].promptLen == len(r[k].prompt)
    decreases |turns|
  {
    if turns == [] then []
    else
      var init, p := Processed(b, len, turns[..|turns| - 1]), turns[|turns| - 1];
      var promptLen, outputLen := len(p.prompt), OutputLen(b, len, p);
      if InBounds(b, promptLen, outputLen) then init + [Kept(p.prompt, promptLen, outputLen)] else init
  }

  /** No bound that is given keeps the turn out; the length of the answer is the fixed one if that is given. */
  ghost predicate Admitted(b: Bounds, len: Tokenizer, p: Pair)
  {
    && (forall n :: b.minPrompt == Some(n) ==> len(p.prompt) >= n)
    && (forall n :: b.maxPrompt == Some(n) ==> len(p.prompt) <= n)
    && forall out :: (b.fixedOutput == Some(out) || (b.fixedOutput == None && out == len(p.completion))) ==>
         (forall n :: b.minOutput == Some(n) ==> out >= n) && (forall n :: b.maxOutput == Some(n) ==> out <= n)
  }

  /** A turn and what is kept of it. */
  ghost predicate KeptFrom(b: Bounds, len: Tokenizer, p: Pair, k: Kept)
  {
    && k.prompt == p.prompt && k.promptLen == len(p.prompt)
    && (b.fixedOutput == None ==> k.outputLen == len(p.completion))
    && forall out :: b.fixedOutput == Some(out) ==> k.outputLen == out
  }

  lemma AdmittedIff(b: Bounds, len: Tokenizer, p: Pair)
    ensures InBounds(b, len(p.prompt), OutputLen(b, len, p)) <==> Admitted(b, len, p)
  {
    var out := OutputLen(b, len, p);
    assert b.fixedOutput == Some(out) || (b.fixedOutput == None && out == len(p.completion));
  }

  /** Exactly the turns within all bounds are kept, in their order, each once. */
  lemma {:induction false} ProcessedInOrder(b: Bounds, len: Tokenizer, turns: seq<Pair>) returns (idx: seq<nat>)
    ensures Increasing(idx) && |idx| == |Processed(b, len, turns)|
    ensures forall i :: i in idx <==> 0 <= i < |turns| && Admitted(b, len, turns[i])
    ensures forall k :: 0 <= k < |idx| ==> idx[k] < |turns| && KeptFrom(b, len, turns[idx[k]], Processed(b, len, turns)[k])
    decreases |turns|
  {
    hide Admitted;
    hide InBounds;
    if turns == [] {
      idx := [];
    } else {
      var last := |turns| - 1;
      var init := ProcessedInOrder(b, len, turns[..last]);
      assert forall i :: 0 <= i < last ==> turns[..last][i] == turns[i];
      assert forall k :: 0 <= k < |init| ==> init[k] in init;
      AdmittedIff(b, len, turns[last]);
      if InBounds(b, len(turns[last].prompt), OutputLen(b, len, turns[last])) {
        idx := init + [last];
      } else {
        idx := init;
      }
    }
  }

  /** The conversations of which something is left. */
  function Survivors(b: Bounds, len: Tokenizer, dataset: seq<seq<Pair>>): (r: seq<seq<Kept>>)
    ensures |r| <= |dataset| && forall k :: 0 <= k < |r| ==> r[k] != []
    decreases |dataset|
  {
    if dataset == [] then []
    else
      var init, p := Survivors(b, len, dataset[..|dataset| - 1]), Processed(b, len, dataset[|dataset| - 1]);
      if p == [] then init else init + [p]
  }

  /** Some turn is within all bounds. */
  ghost predicate Survives(b: Bounds, len: Tokenizer, turns: seq<Pair>)
  {
    exists p :: p in turns && Admitted(b, len, p)
  }

  lemma SomethingIsKeptIff(b: Bounds, len: Tokenizer, turns: seq<Pair>)
    ensures Processed(b, len, turns) != [] <==> Survives(b, len, turns)
  {
    hide Processed;
    hide Admitted;
    var idx := ProcessedInOrder(b, len, turns);
    if idx != [] {
      assert idx[0] in idx && turns[idx[0]] in turns;
    }
    if p :| p in turns && Admitted(b, len, p) {
      var i :| 0 <= i < |turns| && turns[i] == p;
      assert i in idx;
    }
  }

  /** Exactly the conversations with a turn within all bounds survive, in their order, each once, with what is kept of
      them. */
  lemma {:induction false} SurvivorsInOrder(b: Bounds, len: Tokenizer, dataset: seq<seq<Pair>>) returns (idx: seq<nat>)
    ensures Increasing(idx) && |idx| == |Survivors(b, len, dataset)|
    ensures forall i :: i in idx <==> 0 <= i < |dataset| && Survives(b, len, dataset[i])
    ensures forall k :: 0 <= k < |idx| ==> idx[k] < |dataset| && Survivors(b, len, dataset)[k] == Processed(b, len, dataset[idx[k]])
    decreases |dataset|
  {
    hide Processed;
    hide Survives;
    if dataset == [] {
      idx := [];
    } else {
      var last := |dataset| - 1;
      var init := SurvivorsInOrder(b, len, dataset[..last]);
      assert forall i :: 0 <= i < last ==> dataset[..last][i] == dataset[i];
      assert forall k :: 0 <= k < |init| ==> init[k] in init;
      SomethingIsKeptIff(b, len, dataset[last]);
      if Processed(b, len, dataset[last]) != [] {
        idx := init + [last];
      } else {
        idx := init;
      }
    }
  }

  /** The survivors over and over, `n` of them. */
  function Cycle<T>(xs: seq<T>, n: nat): (r: seq<T>)
    requires n > 0 ==> xs != []
    ensures |r| == n && forall k :: 0 <= k < n ==> r[k] == xs[k % |xs|]
  {
    seq(n, k requires 0 <= k < n => xs[k % |xs|])
  }

  method Process(b: Bounds, len: Tokenizer, turns: seq<Pair>) returns (processed: seq<Kept>)
    ensures processed == Processed(b, len, turns)
  {
    processed := [];
    for j := 0 to |turns|
      invariant processed == Processed(b, len, turns[..j])
    {
      assert turns[..j + 1][..j] == turns[..j];
      var promptLen, outputLen := len(turns[j].prompt), OutputLen(b, len, turns[j]);
      if || (b.minPrompt.Some? && promptLen < b.minPrompt.value) || (b.minOutput.Some? && outputLen < b.minOutput.value)
         || (b.maxPrompt.Some? && promptLen > b.maxPrompt.value) || (b.maxOutput.Some? && outputLen > b.maxOutput.value)
      {
        continue;
      }
      processed := processed + [Kept(turns[j].prompt, promptLen, outputLen)];
    }
    assert turns[..|turns|] == turns;
  }

  /** What a pass adds: all survivors, or as many as are still wanted. */
  function Taken(all: seq<seq<Kept>>, wanted: nat): seq<seq<Kept>>
  {
    all[..Min(|all|, wanted)]
  }

  /** One pass over the dataset, which stops early once enough has been found. */
  method Pass(b: Bounds, len: Tokenizer, dataset: seq<seq<Pair>>, wanted: nat) returns (found: seq<seq<Kept>>)
    ensures found == Taken(Survivors(b, len, dataset), wanted)
  {
    found := [];
    for i := 0 to |dataset|
      invariant found == Survivors(b, len, dataset[..i]) && |found| <= wanted
    {
      if |found| == wanted {
        SurvivorsPrefix(b, len, dataset, i);
        return;
      }
      var processed := Process(b, len, dataset[i]);
      SurvivorsNext(b, len, dataset, i);
      if processed != [] {
        found := found + [processed];
      }
    }
    assert dataset[..|dataset|] == dataset;
  }

  lemma SurvivorsNext(b: Bounds, len: Tokenizer, dataset: seq<seq<Pair>>, i: nat)
    requires i < |dataset|
    ensures var part, p := Survivors(b, len, dataset[..i]), Processed(b, len, dataset[i]);
            Survivors(b, len, dataset[..i + 1]) == if p == [] then part else part + [p]
  {
    assert dataset[..i + 1][..i] == dataset[..i];
  }

  lemma {:induction false} SurvivorsPrefix(b: Bounds, len: Tokenizer, dataset: seq<seq<Pair>>, i: nat)
    requires i <= |dataset|
    ensures Survivors(b, len, dataset[..i]) <= Survivors(b, len, dataset)
    decreases |dataset|
  {
    if i == |dataset| {
      assert dataset[..i] == dataset;
    } else {
      SurvivorsPrefix(b, len, dataset[..|dataset| - 1], i);
      assert dataset[..|dataset| - 1][..i] == dataset[..i];
    }
  }

  lemma CycleNext<T>(xs: seq<T>, rounds: nat, k: nat)
    requires xs != [] && k <= |xs|
    ensures Cycle(xs, rounds * |xs|) + xs[..k] == Cycle(xs, rounds * |xs| + k)
  {
    var n := rounds * |xs|;
    var longer := Cycle(xs, n + k);
    forall j | n <= j < n + k
      ensures longer[j] == xs[j - n]
    {
      Remainder(rounds, |xs|, j - n);
    }
    assert longer[n..] == xs[..k];
    assert longer[..n] == Cycle(xs, n);
  }

  lemma Remainder(q: nat, m: nat, j: nat)
    requires j < m
    ensures (q * m + j) % m == j
  {
    DivUnique(q * m + j, q, j, m);
  }

  /** If something is left of the dataset, or nothing is requested, the passes end, and the `k`-th result is
      survivor `k` modulo their number. */
  method FilterChat(b: Bounds, len: Tokenizer, dataset: seq<seq<Pair>>, requested: nat) returns (found: seq<seq<Kept>>)
    requires requested == 0 || Survivors(b, len, dataset) != []
    ensures found == Cycle(Survivors(b, len, dataset), requested) && |found| == requested
    ensures forall k :: 0 <= k < requested ==>
              found[k] == Survivors(b, len, dataset)[k % |Survivors(b, len, dataset)|]
  {
    found := [];
    ghost var all := Survivors(b, len, dataset);
    ghost var rounds: nat := 0;
    while |found| < requested
      invariant |found| <= requested && found == Cycle(all, |found|)
      invariant |found| < requested ==> |found| == rounds * |all|
      decreases requested - |found|
    {
      CycleNext(all, rounds, Min(|all|, requested - |found|));
      var more := Pass(b, len, dataset, requested - |found|);
      found := found + more;
      rounds := rounds + 1;
    }
  }

  // ----- when the passes end

  /** What has been found after a number of passes. */
  ghost function AfterPasses(all: seq<seq<Kept>>, requested: nat, passes: nat): (found: seq<seq<Kept>>)
    ensures |found| <= requested
  {
    if passes == 0 then []
    else
      var found := AfterPasses(all, requested, passes - 1);
      found + Taken(all, requested - |found|)
  }

  lemma {:induction false} PassesGrow(all: seq<seq<Kept>>, requested: nat, passes: nat)
    ensures |AfterPasses(all, requested, passes)| == Min(requested, passes * |all|)
  {
    if passes > 0 {
      PassesGrow(all, requested, passes - 1);
      assert passes * |all| == (passes - 1) * |all| + |all|;
    }
  }

  /** Some number of passes is enough exactly if nothing is requested or some conversation survives. */
  lemma EndsIff(all: seq<seq<Kept>>, requested: nat)
    ensures (exists passes: nat :: |AfterPasses(all, requested, passes)| == requested) <==> requested == 0 || all != []
  {
    forall passes: nat
      ensures all == [] ==> |AfterPasses(all, requested, passes)| == 0
    {
      PassesGrow(all, requested, passes);
    }
    PassesGrow(all, requested, requested);
    if all != [] {
      Enough(requested, |all|);
    }
    assert requested == 0 || all != [] ==> |AfterPasses(all, requested, requested)| == requested;
  }

  lemma Enough(n: nat, m: nat)
    requires m > 0
    ensures n * m >= n
  {
  }
}
