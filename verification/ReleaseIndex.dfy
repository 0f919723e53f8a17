/** The release index: for each commit and pull request, the first release of each line that contains it. */
module ReleaseIndex {
  import opened Options

  datatype Line = Main | Gateway

  /** A release, with the commits reachable from it. */
  datatype Tag = Tag(line: Line, commits: seq<string>)

  type Index = map<string, map<Line, nat>>

  function Get(m: Index, key: string, line: Line): Option<nat>
  {
    if key in m && line in m[key] then Some(m[key][line]) else None
  }

  function Put(m: Index, key: string, line: Line, i: nat): Index
  {
    m[key := (if key in m then m[key] else map[])[line := i]]
  }

  ghost predicate NoEmptyEntry(m: Index)
  {
    forall key :: key in m ==> exists line :: line in m[key]
  }

  lemma PutKeepsEntries(m: Index, key: string, line: Line, i: nat)
    requires NoEmptyEntry(m)
    ensures NoEmptyEntry(Put(m, key, line, i))
  {
    var m' := Put(m, key, line, i);
    assert line in m'[key];
  }

  lemma PutGet(m: Index, key: string, line: Line, i: nat)
    ensures forall k, l :: Get(Put(m, key, line, i), k, l) == if k == key && l == line then Some(i) else Get(m, k, l)
  {
  }

  /** The pull request that a commit merged, if its message names one. */
  type PrOf = string -> Option<string>

  ghost predicate Carries(t: Tag, pr: PrOf, p: string)
  {
    exists c :: c in t.commits && pr(c) == Some(p)
  }

  /** Among the first `n` releases, the `i`th is the first of its line that contains the commit. */
  ghost predicate FirstWith(tags: seq<Tag>, n: nat, line: Line, c: string, i: nat)
    requires n <= |tags|
  {
    && i < n && tags[i].line == line && c in tags[i].commits
    && forall j :: 0 <= j < i && tags[j].line == line ==> c !in tags[j].commits
  }

  ghost predicate FirstCarrying(tags: seq<Tag>, n: nat, line: Line, pr: PrOf, p: string, i: nat)
    requires n <= |tags|
  {
    && i < n && tags[i].line == line && Carries(tags[i], pr, p)
    && forall j :: 0 <= j < i && tags[j].line == line ==> !Carries(tags[j], pr, p)
  }

  /** The index of one line is right, as far as the first `n` releases go. */
  ghost predicate CommitsRight(m: Index, tags: seq<Tag>, n: nat, line: Line)
    requires n <= |tags|
  {
    forall c, i: nat :: Get(m, c, line) == Some(i) <==> FirstWith(tags, n, line, c, i)
  }

  ghost predicate PrsRight(m: Index, tags: seq<Tag>, n: nat, line: Line, pr: PrOf)
    requires n <= |tags|
  {
    forall p, i: nat :: Get(m, p, line) == Some(i) <==> FirstCarrying(tags, n, line, pr, p, i)
  }

  ghost predicate KeepsOthers(m: Index, m': Index, line: Line)
  {
    forall key, other :: other != line ==> Get(m', key, other) == Get(m, key, other)
  }

  /** Commits seen in the line so far. */
  ghost predicate Seen(seen: set<string>, tags: seq<Tag>, n: nat, line: Line)
    requires n <= |tags|
  {
    forall c :: c in seen <==> exists j :: 0 <= j < n && tags[j].line == line && c in tags[j].commits
  }

  method NewCommits(commits: seq<string>, seen: set<string>) returns (found: seq<string>, seen': set<string>)
    ensures forall c :: c in found <==> c in commits && c !in seen
    ensures forall i, j :: 0 <= i < j < |found| ==> found[i] != found[j]
    ensures forall c :: c in seen' <==> c in seen || c in commits
  {
    found, seen' := [], seen;
    for i := 0 to |commits|
      invariant forall c :: c in found <==> c in commits[..i] && c !in seen
      invariant forall i, j :: 0 <= i < j < |found| ==> found[i] != found[j]
      invariant forall c :: c in seen' <==> c in seen || c in commits[..i]
    {
      assert commits[..i + 1] == commits[..i] + [commits[i]];
      if commits[i] !in seen' {
        found := found + [commits[i]];
        seen' := seen' + {commits[i]};
      }
    }
    assert commits[..|commits|] == commits;
  }

  /** What recording some commits under a release does. */
  ghost predicate CommitsAdded(m: Index, m': Index, cs: seq<string>, line: Line, i: nat)
  {
    forall c, l :: Get(m', c, l) == if l == line && c in cs then Some(i) else Get(m, c, l)
  }

  ghost predicate Names(cs: seq<string>, pr: PrOf, p: string)
  {
    exists c :: c in cs && pr(c) == Some(p)
  }

  ghost predicate PrsAdded(m: Index, m': Index, cs: seq<string>, line: Line, i: nat, pr: PrOf)
  {
    forall p, l :: Get(m', p, l) == if l == line && Get(m, p, line).None? && Names(cs, pr, p) then Some(i) else Get(m, p, l)
  }

  method RecordCommit(c: string, line: Line, i: nat, pr: PrOf, commits: Index, prs: Index,
                      ghost commits0: Index, ghost prs0: Index, ghost cs: seq<string>)
    returns (commits': Index, prs': Index)
    requires CommitsAdded(commits0, commits, cs, line, i) && PrsAdded(prs0, prs, cs, line, i, pr)
    requires NoEmptyEntry(commits)
    ensures CommitsAdded(commits0, commits', cs + [c], line, i) && PrsAdded(prs0, prs', cs + [c], line, i, pr)
    ensures NoEmptyEntry(commits')
  {
    commits' := Put(commits, c, line, i);
    PutGet(commits, c, line, i);
    PutKeepsEntries(commits, c, line, i);
    assert forall d :: d in cs + [c] <==> d in cs || d == c;
    prs' := prs;
    var p := pr(c);
    if p.Some? && Get(prs, p.value, line).None? {
      prs' := Put(prs, p.value, line, i);
      PutGet(prs, p.value, line, i);
    }
    NamesNext(cs, c, pr);
  }

  lemma NamesNext(cs: seq<string>, c: string, pr: PrOf)
    ensures forall p :: Names(cs + [c], pr, p) <==> Names(cs, pr, p) || pr(c) == Some(p)
  {
    assert c in cs + [c];
    forall p | Names(cs, pr, p)
      ensures Names(cs + [c], pr, p)
    {
      var d :| d in cs && pr(d) == Some(p);
      assert d in cs + [c];
    }
  }

  /** Records the new commits of a release, a chunk at a time. */
  method RecordChunks(found: seq<string>, chunk: nat, line: Line, i: nat, pr: PrOf, commits0: Index, prs0: Index)
    returns (commits: Index, prs: Index)
    requires chunk > 0 && NoEmptyEntry(commits0)
    ensures CommitsAdded(commits0, commits, found, line, i) && PrsAdded(prs0, prs, found, line, i, pr)
    ensures NoEmptyEntry(commits)
  {
    commits, prs := commits0, prs0;
    var start := 0;
    while start < |found|
      invariant 0 <= start <= |found|
      invariant CommitsAdded(commits0, commits, found[..start], line, i) && PrsAdded(prs0, prs, found[..start], line, i, pr)
      invariant NoEmptyEntry(commits)
    {
      var end := if start + chunk < |found| then start + chunk else |found|;
      for k := start to end
        invariant CommitsAdded(commits0, commits, found[..k], line, i) && PrsAdded(prs0, prs, found[..k], line, i, pr)
        invariant NoEmptyEntry(commits)
      {
        assert found[..k + 1] == found[..k] + [found[k]];
        commits, prs := RecordCommit(found[k], line, i, pr, commits, prs, commits0, prs0, found[..k]);
      }
      start := end;
    }
    assert found[..start] == found;
  }

  lemma TagDone(tags: seq<Tag>, n: nat, line: Line, seen: set<string>, found: seq<string>, m: Index, m': Index)
    requires n < |tags| && tags[n].line == line && Seen(seen, tags, n, line) && CommitsRight(m, tags, n, line)
    requires forall c :: c in found <==> c in tags[n].commits && c !in seen
    requires CommitsAdded(m, m', found, line, n)
    ensures CommitsRight(m', tags, n + 1, line)
  {
    var n' := n + 1;
    forall c, i: nat
      ensures Get(m', c, line) == Some(i) <==> FirstWith(tags, n', line, c, i)
    {
      assert Get(m, c, line) == Some(i) <==> FirstWith(tags, n, line, c, i);
      if c in seen {
        assert c !in found;
      }
    }
  }

  lemma PrsDone(tags: seq<Tag>, n: nat, line: Line, seen: set<string>, found: seq<string>, pr: PrOf, m: Index, m': Index)
    requires n < |tags| && tags[n].line == line && Seen(seen, tags, n, line) && PrsRight(m, tags, n, line, pr)
    requires forall c :: c in found <==> c in tags[n].commits && c !in seen
    requires PrsAdded(m, m', found, line, n, pr)
    ensures PrsRight(m', tags, n + 1, line, pr)
  {
    var n' := n + 1;
    forall p, i: nat
      ensures Get(m', p, line) == Some(i) <==> FirstCarrying(tags, n', line, pr, p, i)
    {
      assert Get(m, p, line) == Some(i) <==> FirstCarrying(tags, n, line, pr, p, i);
      KnownIff(tags, n, line, pr, m, p);
      CarriedNew(tags, n, line, seen, found, pr, p);
    }
  }

  /** A pull request has an entry exactly if an earlier release of the line carries it. */
  lemma KnownIff(tags: seq<Tag>, n: nat, line: Line, pr: PrOf, m: Index, p: string)
    requires n <= |tags| && PrsRight(m, tags, n, line, pr)
    ensures Get(m, p, line).Some? <==> exists j :: 0 <= j < n && tags[j].line == line && Carries(tags[j], pr, p)
  {
    if Get(m, p, line).Some? {
      assert FirstCarrying(tags, n, line, pr, p, Get(m, p, line).value);
    } else {
      forall i: nat
        ensures !FirstCarrying(tags, n, line, pr, p, i)
      {
        assert Get(m, p, line) != Some(i);
      }
      if j :| 0 <= j < n && tags[j].line == line && Carries(tags[j], pr, p) {
        FirstExists(tags, n, line, pr, p, j);
      }
    }
  }

  lemma {:induction false} FirstExists(tags: seq<Tag>, n: nat, line: Line, pr: PrOf, p: string, j: nat)
    requires j < n <= |tags| && tags[j].line == line && Carries(tags[j], pr, p)
    ensures exists i :: FirstCarrying(tags, n, line, pr, p, i)
    decreases j
  {
    if k :| 0 <= k < j && tags[k].line == line && Carries(tags[k], pr, p) {
      FirstExists(tags, n, line, pr, p, k);
    } else {
      assert FirstCarrying(tags, n, line, pr, p, j);
    }
  }

  /** A release carries a pull request through a commit that is new or through one an earlier release has. */
  lemma CarriedNew(tags: seq<Tag>, n: nat, line: Line, seen: set<string>, found: seq<string>, pr: PrOf, p: string)
    requires n < |tags| && tags[n].line == line && Seen(seen, tags, n, line)
    requires forall c :: c in found <==> c in tags[n].commits && c !in seen
    ensures Names(found, pr, p) ==> Carries(tags[n], pr, p)
    ensures Carries(tags[n], pr, p) ==>
              Names(found, pr, p) || exists j :: 0 <= j < n && tags[j].line == line && Carries(tags[j], pr, p)
  {
    if Carries(tags[n], pr, p) {
      var c :| c in tags[n].commits && pr(c) == Some(p);
      if c in seen {
        var j :| 0 <= j < n && tags[j].line == line && c in tags[j].commits;
        assert Carries(tags[j], pr, p);
      } else {
        assert c in found;
      }
    }
  }

  /** One release line: whatever the chunk size, each commit and pull request gets its first release. */
  method ProcessTagLine(tags: seq<Tag>, line: Line, chunk: nat, pr: PrOf, commits0: Index, prs0: Index)
    returns (commits: Index, prs: Index)
    requires chunk > 0 && NoEmptyEntry(commits0)
    requires forall key :: Get(commits0, key, line).None? && Get(prs0, key, line).None?
    ensures CommitsRight(commits, tags, |tags|, line) && PrsRight(prs, tags, |tags|, line, pr)
    ensures KeepsOthers(commits0, commits, line) && KeepsOthers(prs0, prs, line) && NoEmptyEntry(commits)
  {
    commits, prs := commits0, prs0;
    var seen: set<string> := {};
    for n := 0 to |tags|
      invariant Seen(seen, tags, n, line)
      invariant CommitsRight(commits, tags, n, line) && PrsRight(prs, tags, n, line, pr)
      invariant KeepsOthers(commits0, commits, line) && KeepsOthers(prs0, prs, line) && NoEmptyEntry(commits)
    {
      if tags[n].line != line {
        Skipped(tags, n, line, pr, seen, commits, prs);
        continue;
      }
      var found, seen' := NewCommits(tags[n].commits, seen);
      var commits', prs' := RecordChunks(found, chunk, line, n, pr, commits, prs);
      TagDone(tags, n, line, seen, found, commits, commits');
      PrsDone(tags, n, line, seen, found, pr, prs, prs');
      commits, prs, seen := commits', prs', seen';
    }
  }

  lemma Skipped(tags: seq<Tag>, n: nat, line: Line, pr: PrOf, seen: set<string>, commits: Index, prs: Index)
    requires n < |tags| && tags[n].line != line && Seen(seen, tags, n, line)
    requires CommitsRight(commits, tags, n, line) && PrsRight(prs, tags, n, line, pr)
    ensures Seen(seen, tags, n + 1, line)
    ensures CommitsRight(commits, tags, n + 1, line) && PrsRight(prs, tags, n + 1, line, pr)
  {
    var n' := n + 1;
    forall c, i: nat
      ensures Get(commits, c, line) == Some(i) <==> FirstWith(tags, n', line, c, i)
      ensures Get(prs, c, line) == Some(i) <==> FirstCarrying(tags, n', line, pr, c, i)
    {
      assert Get(commits, c, line) == Some(i) <==> FirstWith(tags, n, line, c, i);
      assert Get(prs, c, line) == Some(i) <==> FirstCarrying(tags, n, line, pr, c, i);
    }
  }
}
