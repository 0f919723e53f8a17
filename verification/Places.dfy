/** Lists of who is where, when everybody is in one place at a time. */
module Places {
  import opened Sequences

  /** The ids of those at a place, each once. */
  ghost predicate Lists<P>(ids: seq<nat>, where: seq<P>, p: P)
  {
    && (forall i :: 0 <= i < |ids| ==> ids[i] < |where| && where[ids[i]] == p)
    && (forall i, j :: 0 <= i < j < |ids| ==> ids[i] != ids[j])
    && (forall c :: 0 <= c < |where| && where[c] == p ==> c in ids)
  }

  lemma Leaves<P>(ids: seq<nat>, where: seq<P>, p: P, i: nat, q: P)
    requires Lists(ids, where, p) && i < |ids| && q != p
    ensures Lists(Without(ids, i), where[ids[i] := q], p)
  {
    var rest, where' := Without(ids, i), where[ids[i] := q];
    forall c | 0 <= c < |where'| && where'[c] == p
      ensures c in rest
    {
      assert c in ids && c != ids[i];
      var j :| 0 <= j < |ids| && ids[j] == c;
      assert rest[if j < i then j else j - 1] == c;
    }
  }

  lemma Joins<P>(ids: seq<nat>, where: seq<P>, p: P, c: nat)
    requires Lists(ids, where, p) && c < |where| && where[c] != p
    ensures Lists(ids + [c], where[c := p], p)
  {
  }

  lemma Bystands<P>(ids: seq<nat>, where: seq<P>, p: P, c: nat, q: P)
    requires Lists(ids, where, p) && c < |where| && where[c] != p && q != p
    ensures Lists(ids, where[c := q], p)
  {
  }

  lemma {:induction false} Covers(ids: seq<nat>, n: nat)
    requires forall i :: 0 <= i < |ids| ==> ids[i] < n
    requires forall i, j :: 0 <= i < j < |ids| ==> ids[i] != ids[j]
    ensures |ids| <= n
    ensures |ids| == n ==> forall c :: 0 <= c < n ==> c in ids
    decreases n
  {
    assert ids != [] ==> ids[0] < n;
    if n > 0 {
      if n - 1 in ids {
        var i :| 0 <= i < |ids| && ids[i] == n - 1;
        var rest := Without(ids, i);
        Covers(rest, n - 1);
        assert forall c :: c in rest ==> c in ids;
      } else {
        assert forall i :: 0 <= i < |ids| ==> ids[i] != n - 1;
        Covers(ids, n - 1);
      }
    }
  }

  lemma {:induction false} Pigeons(ids: seq<nat>, n: nat)
    requires forall c :: 0 <= c < n ==> c in ids
    ensures |ids| >= n
  {
    if n > 0 {
      assert n - 1 in ids;
      var i :| 0 <= i < |ids| && ids[i] == n - 1;
      var rest := Without(ids, i);
      forall c | 0 <= c < n - 1
        ensures c in rest
      {
        assert c in ids;
        var j :| 0 <= j < |ids| && ids[j] == c;
        assert rest[if j < i then j else j - 1] == c;
      }
      Pigeons(rest, n - 1);
    }
  }

  lemma Full<P>(ids: seq<nat>, where: seq<P>, p: P)
    requires Lists(ids, where, p) && |ids| == |where|
    ensures forall c :: 0 <= c < |where| ==> where[c] == p
  {
    Covers(ids, |where|);
    forall c | 0 <= c < |where|
      ensures where[c] == p
    {
      assert c in ids;
    }
  }

  lemma NobodyAt<P>(ids: seq<nat>, where: seq<P>, p: P)
    requires Lists(ids, where, p)
    ensures ids == [] || exists c :: 0 <= c < |where| && where[c] == p
  {
    assert ids == [] || where[ids[0]] == p;
  }
}
