/** Grouped verification: the unverified windows of several requests are padded to one shape, laid
    end to end with dummy requests, run through one forward pass and compared request by request.
    The batch is only a vehicle: every request ends up as if it had been verified alone. */
module VerificationBatch {
  import opened Arithmetic
  import opened Verifier
  import opened DecodeVerifyRollback

  const DUMMY_TOKEN_ID: Token := 32

  // ----- flattening

  function Flatten<T>(xs: seq<seq<T>>): (f: seq<T>)
    decreases |xs|
  {
    if xs == [] then [] else Flatten(xs[..|xs| - 1]) + xs[|xs| - 1]
  }

  lemma FlattenAppend<T>(xs: seq<seq<T>>, x: seq<T>)
    ensures Flatten(xs + [x]) == Flatten(xs) + x
  {
    assert (xs + [x])[..|xs|] == xs;
  }

  /** The i-th piece is found again where the lengths of the pieces before it say. */
  lemma {:induction false} FlattenConcat<T>(a: seq<seq<T>>, b: seq<seq<T>>)
    ensures Flatten(a + b) == Flatten(a) + Flatten(b)
    decreases |b|
  {
    if b == [] {
      assert a + b == a;
    } else {
      var last := |b| - 1;
      FlattenConcat(a, b[..last]);
      assert a + b == (a + b[..last]) + [b[last]];
      FlattenAppend(a + b[..last], b[last]);
    }
  }

  lemma {:induction false} FlattenSlice<T>(xs: seq<seq<T>>, i: nat)
    requires i < |xs|
    ensures |Flatten(xs[..i])| + |xs[i]| == |Flatten(xs[..i + 1])| <= |Flatten(xs)|
    ensures Flatten(xs)[|Flatten(xs[..i])|..|Flatten(xs[..i + 1])|] == xs[i]
    decreases |xs|
  {
    var init := xs[..|xs| - 1];
    if i == |xs| - 1 {
      assert xs[..i + 1] == xs && xs[..i] == init;
    } else {
      FlattenSlice(init, i);
      assert init[..i] == xs[..i] && init[..i + 1] == xs[..i + 1];
    }
    assert xs[..i + 1] == xs[..i] + [xs[i]];
    FlattenAppend(xs[..i], xs[i]);
  }

  function Repeat<T>(x: T, n: nat): (s: seq<T>)
    ensures |s| == n && forall i :: 0 <= i < n ==> s[i] == x
  {
    seq(n, _ => x)
  }

  // ----- the forward pass

  /** One row of a verification batch: whose kernel and cache the tokens are run with. */
  datatype Row = Row(kernel: Kernel, prefix: seq<KV>)

  /** The batched forward pass: the tokens are cut up by the extend lengths, row by row. */
  function ForwardPass(rows: seq<Row>, extendLens: seq<nat>, inputIds: seq<Token>): (passes: seq<Pass>)
    requires |rows| == |extendLens| && Sum(extendLens) == |inputIds|
    ensures |passes| == |inputIds|
    decreases |rows|
  {
    if rows == [] then
      []
    else
      var last := |rows| - 1;
      var cut := |inputIds| - extendLens[last];
      ForwardPass(rows[..last], extendLens[..last], inputIds[..cut])
      + Replay(rows[last].kernel, rows[last].prefix, inputIds[cut..])
  }

  function RowPasses(rows: seq<Row>, inputs: seq<seq<Token>>): (passes: seq<seq<Pass>>)
    requires |rows| == |inputs|
    ensures |passes| == |rows|
    ensures forall i :: 0 <= i < |rows| ==> passes[i] == Replay(rows[i].kernel, rows[i].prefix, inputs[i])
  {
    seq(|rows|, i requires 0 <= i < |rows| => Replay(rows[i].kernel, rows[i].prefix, inputs[i]))
  }

  function Lengths<T>(xs: seq<seq<T>>): (ns: seq<nat>)
    ensures |ns| == |xs| && forall i :: 0 <= i < |xs| ==> ns[i] == |xs[i]|
  {
    seq(|xs|, i requires 0 <= i < |xs| => |xs[i]|)
  }

  lemma {:induction false} SumLengths<T>(xs: seq<seq<T>>)
    ensures Sum(Lengths(xs)) == |Flatten(xs)|
    decreases |xs|
  {
    if xs != [] {
      SumLengths(xs[..|xs| - 1]);
      assert Lengths(xs)[..|xs| - 1] == Lengths(xs[..|xs| - 1]);
    }
  }

  /** The flattened pass is the pieces' own passes laid end to end. */
  lemma {:induction false} ForwardPassIsRowwise(rows: seq<Row>, inputs: seq<seq<Token>>)
    requires |rows| == |inputs|
    ensures Sum(Lengths(inputs)) == |Flatten(inputs)|
    ensures ForwardPass(rows, Lengths(inputs), Flatten(inputs)) == Flatten(RowPasses(rows, inputs))
    decreases |rows|
  {
    SumLengths(inputs);
    if rows != [] {
      var last := |rows| - 1;
      ForwardPassIsRowwise(rows[..last], inputs[..last]);
      var ids := Flatten(inputs);
      var cut := |ids| - |inputs[last]|;
      assert ids[..cut] == Flatten(inputs[..last]) && ids[cut..] == inputs[last];
      assert Lengths(inputs)[..last] == Lengths(inputs[..last]);
      assert RowPasses(rows, inputs)[..last] == RowPasses(rows[..last], inputs[..last]);
    }
  }

  /** Padding comes after the real tokens, so it cannot change their answers. */
  lemma {:induction false} PaddingIsInert(kernel: Kernel, prefix: seq<KV>, inputs: seq<Token>, padding: seq<Token>)
    ensures Replay(kernel, prefix, inputs + padding)[..|inputs|] == Replay(kernel, prefix, inputs)
    decreases |inputs|
  {
    if inputs != [] {
      assert (inputs + padding)[1..] == inputs[1..] + padding;
      PaddingIsInert(kernel, prefix + [kernel(prefix, inputs[0]).kv], inputs[1..], padding);
    }
  }
}
