/** Sums, products and quotients of natural numbers. */
module Arithmetic {
  function Min(a: nat, b: nat): nat
  {
    if a < b then a else b
  }

  function Max(a: int, b: int): int
  {
    if a < b then b else a
  }

  function Sum(xs: seq<nat>): (r: nat)
    decreases |xs|
  {
    if xs == [] then 0 else Sum(xs[..|xs| - 1]) + xs[|xs| - 1]
  }

  lemma {:induction false} SumUpdate(xs: seq<nat>, c: nat, v: nat)
    requires c < |xs|
    ensures Sum(xs[c := v]) == Sum(xs) - xs[c] + v
    decreases |xs|
  {
    var init, last := xs[..|xs| - 1], |xs| - 1;
    if c == last {
      assert xs[c := v][..last] == init;
    } else {
      SumUpdate(init, c, v);
      assert xs[c := v][..last] == init[c := v];
    }
  }

  lemma {:induction false} SumBound(xs: seq<nat>, cap: nat)
    requires forall c :: 0 <= c < |xs| ==> xs[c] <= cap
    ensures Sum(xs) <= |xs| * cap
    ensures Sum(xs) == |xs| * cap <==> forall c :: 0 <= c < |xs| ==> xs[c] == cap
    decreases |xs|
  {
    if xs != [] {
      var init, last := xs[..|xs| - 1], xs[|xs| - 1];
      SumBound(init, cap);
      assert |xs| * cap == |init| * cap + cap;
      if Sum(xs) == |xs| * cap {
        assert forall c :: 0 <= c < |init| ==> xs[c] == init[c];
      }
    }
  }

  function Plus(xs: seq<nat>, ys: seq<nat>): (zs: seq<nat>)
    requires |xs| == |ys|
    ensures |zs| == |xs| && forall c :: 0 <= c < |xs| ==> zs[c] == xs[c] + ys[c]
  {
    seq(|xs|, c requires 0 <= c < |xs| => xs[c] + ys[c])
  }

  lemma {:induction false} SumPlus(xs: seq<nat>, ys: seq<nat>)
    requires |xs| == |ys|
    ensures Sum(Plus(xs, ys)) == Sum(xs) + Sum(ys)
    decreases |xs|
  {
    if xs != [] {
      var k := |xs| - 1;
      SumPlus(xs[..k], ys[..k]);
      assert Plus(xs, ys)[..k] == Plus(xs[..k], ys[..k]);
    }
  }

  lemma {:induction false} SumZeros(n: nat)
    ensures Sum(seq(n, _ => 0)) == 0
  {
    if n > 0 {
      SumZeros(n - 1);
      assert seq(n, _ => 0)[..n - 1] == seq(n - 1, _ => 0);
    }
  }

  lemma {:induction false} SumMonotone(a: seq<nat>, b: seq<nat>)
    requires |a| == |b| && forall i :: 0 <= i < |a| ==> a[i] <= b[i]
    ensures Sum(a) <= Sum(b)
    ensures Sum(a) == Sum(b) <==> a == b
    decreases |a|
  {
    if a != [] {
      var last := |a| - 1;
      SumMonotone(a[..last], b[..last]);
      if Sum(a) == Sum(b) {
        assert a == a[..last] + [a[last]] && b == b[..last] + [b[last]];
      }
    }
  }

  lemma {:induction false} SumPrefix(a: seq<nat>, i: nat)
    requires i < |a|
    ensures Sum(a[..i]) + a[i] == Sum(a[..i + 1]) <= Sum(a)
    decreases |a|
  {
    assert a[..i + 1][..i] == a[..i];
    if i + 1 < |a| {
      SumPrefix(a[..|a| - 1], i);
      assert a[..|a| - 1][..i + 1] == a[..i + 1] && a[..|a| - 1][..i] == a[..i];
    } else {
      assert a[..i + 1] == a;
    }
  }

  // ----- products and quotients

  lemma MulMonotone(x: nat, y: nat, size: nat)
    requires x <= y
    ensures x * size <= y * size
  {
  }

  lemma DivUnique(q: nat, n: nat, m: nat, size: nat)
    requires m < size && q == n * size + m
    ensures q / size == n
  {
    var k := q / size;
    assert k * size <= q < (k + 1) * size;
    if k < n {
      MulMonotone(k + 1, n, size);
    } else if n < k {
      MulMonotone(n + 1, k, size);
    }
  }

  lemma ModUnique(q: nat, n: nat, m: nat, size: nat)
    requires m < size && q == n * size + m
    ensures q % size == m
  {
    DivUnique(q, n, m, size);
  }
}
