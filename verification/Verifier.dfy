/** The verification kernel of the decode-verify-rollback protocol and the token stream it defines.

A forward pass is modelled one position at a time: from the key/value entries of all earlier
positions and the token fed in at this position it computes this position's key/value entry, the
next token and its log-probability.  A kernel of this type is what the protocol asks of the
fixed-shape verification pass: its answer does not depend on the neighbours in the batch, on the
padding or on where in a window the position falls.  Nothing is assumed of the decode kernels.
*/
module Verifier {

  type Token = int
  type KV = int

  datatype Pass = Pass(kv: KV, token: Token, logprob: int)

  type Kernel = (seq<KV>, Token) -> Pass

  /** One verification pass over `inputs`, placed right after the cache contents `prefix`. */
  function Replay(kernel: Kernel, prefix: seq<KV>, inputs: seq<Token>): (passes: seq<Pass>)
    ensures |passes| == |inputs|
    decreases |inputs|
  {
    if inputs == [] then
      []
    else
      var p := kernel(prefix, inputs[0]);
      [p] + Replay(kernel, prefix + [p.kv], inputs[1..])
  }

  function KVs(passes: seq<Pass>): (kvs: seq<KV>)
    ensures |kvs| == |passes|
    ensures forall i :: 0 <= i < |passes| ==> kvs[i] == passes[i].kv
  {
    seq(|passes|, i requires 0 <= i < |passes| => passes[i].kv)
  }

  function Tokens(passes: seq<Pass>): (tokens: seq<Token>)
    ensures |tokens| == |passes|
    ensures forall i :: 0 <= i < |passes| ==> tokens[i] == passes[i].token
  {
    seq(|passes|, i requires 0 <= i < |passes| => passes[i].token)
  }

  function Logprobs(passes: seq<Pass>): (logprobs: seq<int>)
    ensures |logprobs| == |passes|
    ensures forall i :: 0 <= i < |passes| ==> logprobs[i] == passes[i].logprob
  {
    seq(|passes|, i requires 0 <= i < |passes| => passes[i].logprob)
  }

  /** A generation in progress: the cache holds every position except that of the last token. */
  datatype Stream = Stream(cache: seq<KV>, tokens: seq<Token>, logprobs: seq<int>)

  /** The verifier generating one token on its own, with no drafts at all. */
  function Next(kernel: Kernel, s: Stream): Stream
    requires s.tokens != []
  {
    var p := kernel(s.cache, s.tokens[|s.tokens| - 1]);
    Stream(s.cache + [p.kv], s.tokens + [p.token], s.logprobs + [p.logprob])
  }

  /** The canonical generation: `n` further tokens, one at a time, by the verifier alone. */
  function Canon(kernel: Kernel, s: Stream, n: nat): (c: Stream)
    requires s.tokens != []
    ensures |c.tokens| == |s.tokens| + n
    ensures |c.cache| == |s.cache| + n
    ensures |c.logprobs| == |s.logprobs| + n
  {
    if n == 0 then s else Next(kernel, Canon(kernel, s, n - 1))
  }

  lemma {:induction false} CanonShift(kernel: Kernel, s: Stream, n: nat)
    requires s.tokens != []
    ensures Canon(kernel, Next(kernel, s), n) == Canon(kernel, s, n + 1)
  {
    if n > 0 {
      CanonShift(kernel, s, n - 1);
    }
  }

  lemma {:induction false} CanonSplit(kernel: Kernel, s: Stream, m: nat, n: nat)
    requires s.tokens != []
    ensures Canon(kernel, Canon(kernel, s, m), n) == Canon(kernel, s, m + n)
  {
    if n > 0 {
      CanonSplit(kernel, s, m, n - 1);
    }
  }

  /** The canonical generation only ever grows. */
  lemma {:induction false} CanonExtends(kernel: Kernel, s: Stream, m: nat, n: nat)
    requires s.tokens != [] && m <= n
    ensures Canon(kernel, s, m).tokens <= Canon(kernel, s, n).tokens
    ensures Canon(kernel, s, m).cache <= Canon(kernel, s, n).cache
    ensures Canon(kernel, s, m).logprobs <= Canon(kernel, s, n).logprobs
  {
    if m < n {
      CanonExtends(kernel, s, m, n - 1);
    }
  }

  /** A stream extended by what a pass computed. */
  function Extended(s: Stream, passes: seq<Pass>): (e: Stream)
  {
    Stream(s.cache + KVs(passes), s.tokens + Tokens(passes), s.logprobs + Logprobs(passes))
  }

  /** Speculation is exact up to its first error: as long as the fed-in drafts agree with what the
      pass predicts for them, the pass reproduces the canonical generation entry for entry, and the
      prediction made at the first wrong draft is still canonical. */
  lemma {:induction false} ReplayFollowsCanon(kernel: Kernel, s: Stream, inputs: seq<Token>, j: nat)
    requires s.tokens != [] && j < |inputs|
    requires inputs[0] == s.tokens[|s.tokens| - 1]
    requires inputs[1..j + 1] == Tokens(Replay(kernel, s.cache, inputs)[..j])
    ensures Extended(s, Replay(kernel, s.cache, inputs)[..j + 1]) == Canon(kernel, s, j + 1)
    decreases j
  {
    var passes := Replay(kernel, s.cache, inputs);
    var p := kernel(s.cache, inputs[0]);
    var t := Next(kernel, s);
    assert passes[0] == p;
    if j == 0 {
      assert passes[..1] == [p];
      assert KVs([p]) == [p.kv] && Tokens([p]) == [p.token] && Logprobs([p]) == [p.logprob];
      assert Canon(kernel, s, 0) == s;
    } else {
      var rest := Replay(kernel, t.cache, inputs[1..]);
      assert passes[1..] == rest;
      assert inputs[1] == inputs[1..j + 1][0] == Tokens(passes[..j])[0] == p.token;
      assert inputs[1..][1..j] == Tokens(rest[..j - 1]) by {
        forall i | 0 <= i < j - 1
          ensures inputs[1..][1..j][i] == Tokens(rest[..j - 1])[i]
        {
          assert inputs[1..j + 1][i + 1] == Tokens(passes[..j])[i + 1];
        }
      }
      ReplayFollowsCanon(kernel, t, inputs[1..], j - 1);
      CanonShift(kernel, s, j);
      ExtendedCons(s, t, p, rest[..j]);
      assert passes[..j + 1] == [p] + rest[..j];
    }
  }

  lemma ExtendedCons(s: Stream, t: Stream, p: Pass, rest: seq<Pass>)
    requires t == Stream(s.cache + [p.kv], s.tokens + [p.token], s.logprobs + [p.logprob])
    ensures Extended(t, rest) == Extended(s, [p] + rest)
  {
    ConsParts(p, rest);
    Reassociate(s.cache, p.kv, KVs(rest));
    Reassociate(s.tokens, p.token, Tokens(rest));
    Reassociate(s.logprobs, p.logprob, Logprobs(rest));
  }

  lemma ConsParts(p: Pass, rest: seq<Pass>)
    ensures KVs([p] + rest) == [p.kv] + KVs(rest)
    ensures Tokens([p] + rest) == [p.token] + Tokens(rest)
    ensures Logprobs([p] + rest) == [p.logprob] + Logprobs(rest)
  {
  }

  lemma Reassociate<T>(a: seq<T>, x: T, b: seq<T>)
    ensures a + [x] + b == a + ([x] + b)
  {
  }
}
