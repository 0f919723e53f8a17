/** Writing the release index out with short keys and folded values, and looking things up in it. */
module ReleaseLookup {
  import opened Options
  import opened ReleaseIndex

  const SHORT_HASH_LEN: nat := 8

  function Short(sha: string): string
  {
    if |sha| <= SHORT_HASH_LEN then sha else sha[..SHORT_HASH_LEN]
  }

  ghost predicate Collide(full: Index, a: string, b: string)
  {
    a in full && b in full && a != b && Short(a) == Short(b)
  }

  ghost predicate Shortened(full: Index, done: seq<string>, m: Index)
  {
    && (forall c :: c in done && c in full ==> Short(c) in m && m[Short(c)] == full[c])
    && (forall k :: k in m ==> exists c :: c in done && Short(c) == k)
  }

  /** Shortens the keys, in whatever order they come; gives up exactly if two commits share a short key. */
  method Shorten(full: Index, order: seq<string>) returns (r: Option<Index>)
    requires forall c :: c in order <==> c in full
    ensures r.None? <==> exists a, b :: Collide(full, a, b)
    ensures r.Some? ==> Shortened(full, order, r.value)
  {
    hide Short;
    var m: Index := map[];
    var shortToFull: map<string, string> := map[];
    for i := 0 to |order|
      invariant Shortened(full, order[..i], m)
      invariant forall c :: c in order[..i] ==> Short(c) in shortToFull && shortToFull[Short(c)] == c
      invariant forall k :: k in shortToFull ==> shortToFull[k] in order[..i] && Short(shortToFull[k]) == k
    {
      assert order[..i + 1] == order[..i] + [order[i]];
      var sha := order[i];
      assert sha in full;
      if Short(sha) in shortToFull && shortToFull[Short(sha)] != sha {
        assert Collide(full, shortToFull[Short(sha)], sha);
        return None;
      }
      m := m[Short(sha) := full[sha]];
      shortToFull := shortToFull[Short(sha) := sha];
    }
    assert order[..|order|] == order;
    r := Some(m);
  }

  // ----- folding

  datatype Folded = Text(text: string) | Dict(entries: map<Line, nat>)

  const DIGITS := "0123456789"

  function Decimal(n: nat): string
  {
    if n < 10 then [DIGITS[n]] else Decimal(n / 10) + [DIGITS[n % 10]]
  }

  predicate IsDigit(ch: char)
  {
    '0' <= ch <= '9'
  }

  function DigitValue(ch: char): nat
    requires IsDigit(ch)
  {
    ch as int - '0' as int
  }

  function ParseInt(s: string): nat
    requires forall i :: 0 <= i < |s| ==> IsDigit(s[i])
    decreases |s|
  {
    if s == [] then 0 else 10 * ParseInt(s[..|s| - 1]) + DigitValue(s[|s| - 1])
  }

  lemma {:induction false} DecimalParses(n: nat)
    ensures Decimal(n) != [] && forall i :: 0 <= i < |Decimal(n)| ==> IsDigit(Decimal(n)[i])
    ensures ParseInt(Decimal(n)) == n
  {
    if n >= 10 {
      DecimalParses(n / 10);
      assert Decimal(n)[..|Decimal(n)| - 1] == Decimal(n / 10);
    } else {
      assert Decimal(n)[..0] == [];
    }
  }

  /** An entry with one line becomes a short text. */
  function Simplify(v: map<Line, nat>): Folded
  {
    if v.Keys == {Main} then Text("m" + Decimal(v[Main]))
    else if v.Keys == {Gateway} then Text("g" + Decimal(v[Gateway]))
    else Dict(v)
  }

  function SimplifyMap(m: Index): map<string, Folded>
  {
    map k | k in m :: Simplify(m[k])
  }

  // ----- reading the index

  datatype Ref = Idx(index: nat) | Name(name: string)

  /** The releases that an entry refers to; a text that is not a compact reference is taken as a name. */
  function TagRefs(f: Folded): seq<Ref>
  {
    match f
    case Text(t) =>
      if |t| >= 2 && (t[0] == 'm' || t[0] == 'g') && forall i :: 0 <= i < |t[1..]| ==> IsDigit(t[1..][i])
      then [Idx(ParseInt(t[1..]))] else [Name(t)]
    case Dict(v) => (if Main in v then [Idx(v[Main])] else []) + (if Gateway in v then [Idx(v[Gateway])] else [])
  }

  function LookUp(m: map<string, Folded>, key: string): seq<Ref>
  {
    if key in m then TagRefs(m[key]) else []
  }

  function Found(main: Option<nat>, gateway: Option<nat>): seq<Ref>
  {
    (if main.Some? then [Idx(main.value)] else []) + (if gateway.Some? then [Idx(gateway.value)] else [])
  }

  /** Folding loses nothing: the page shows the entry's main release and then its gateway release. */
  lemma FoldingIsLossless(v: map<Line, nat>)
    ensures TagRefs(Simplify(v)) == Found(if Main in v then Some(v[Main]) else None,
                                          if Gateway in v then Some(v[Gateway]) else None)
  {
    assert Main in v ==> Main in v.Keys;
    assert Gateway in v ==> Gateway in v.Keys;
    if v.Keys == {Main} {
      Compact('m', v[Main]);
      assert Gateway !in v;
    } else if v.Keys == {Gateway} {
      Compact('g', v[Gateway]);
      assert Main !in v;
    }
  }

  lemma Compact(letter: char, n: nat)
    requires letter == 'm' || letter == 'g'
    ensures TagRefs(Text([letter] + Decimal(n))) == [Idx(n)]
  {
    DecimalParses(n);
    assert ([letter] + Decimal(n))[1..] == Decimal(n);
  }

  /** These are the first main and the first gateway release of a commit. */
  ghost predicate FirstReleases(tags: seq<Tag>, c: string, refs: seq<Ref>)
  {
    exists main: Option<nat>, gateway: Option<nat> ::
      && refs == Found(main, gateway)
      && (forall i: nat :: main == Some(i) <==> FirstWith(tags, |tags|, Main, c, i))
      && (forall i: nat :: gateway == Some(i) <==> FirstWith(tags, |tags|, Gateway, c, i))
  }

  /** These are the first main and the first gateway release of a pull request. */
  ghost predicate FirstPrReleases(tags: seq<Tag>, pr: PrOf, p: string, refs: seq<Ref>)
  {
    exists main: Option<nat>, gateway: Option<nat> ::
      && refs == Found(main, gateway)
      && (forall i: nat :: main == Some(i) <==> FirstCarrying(tags, |tags|, Main, pr, p, i))
      && (forall i: nat :: gateway == Some(i) <==> FirstCarrying(tags, |tags|, Gateway, pr, p, i))
  }

  ghost predicate Released(tags: seq<Tag>, c: string)
  {
    exists i :: 0 <= i < |tags| && c in tags[i].commits
  }

  lemma EntryShown(m: Index, key: string)
    ensures LookUp(SimplifyMap(m), key) == Found(Get(m, key, Main), Get(m, key, Gateway))
  {
    if key in m {
      FoldingIsLossless(m[key]);
    }
  }

  method BuildMaps(tags: seq<Tag>, chunk: nat, pr: PrOf) returns (commits: Index, prs: Index)
    requires chunk > 0
    ensures CommitsRight(commits, tags, |tags|, Main) && CommitsRight(commits, tags, |tags|, Gateway)
    ensures PrsRight(prs, tags, |tags|, Main, pr) && PrsRight(prs, tags, |tags|, Gateway, pr)
    ensures NoEmptyEntry(commits)
  {
    var commits1, prs1 := ProcessTagLine(tags, Main, chunk, pr, map[], map[]);
    commits, prs := ProcessTagLine(tags, Gateway, chunk, pr, commits1, prs1);
  }

  /** A commit is in the index exactly if some release contains it. */
  lemma IndexedIff(commits: Index, tags: seq<Tag>, c: string)
    requires CommitsRight(commits, tags, |tags|, Main) && CommitsRight(commits, tags, |tags|, Gateway)
    requires NoEmptyEntry(commits)
    ensures c in commits <==> Released(tags, c)
  {
    if c in commits {
      var line :| line in commits[c];
      assert Get(commits, c, line) == Some(commits[c][line]);
      assert line == Main || line == Gateway;
      assert FirstWith(tags, |tags|, line, c, commits[c][line]);
    }
    if i :| 0 <= i < |tags| && c in tags[i].commits {
      FirstReleaseExists(tags, tags[i].line, c, i);
      var k: nat :| FirstWith(tags, |tags|, tags[i].line, c, k);
      assert Get(commits, c, tags[i].line) == Some(k);
    }
  }

  lemma {:induction false} FirstReleaseExists(tags: seq<Tag>, line: Line, c: string, i: nat)
    requires i < |tags| && tags[i].line == line && c in tags[i].commits
    ensures exists k :: FirstWith(tags, |tags|, line, c, k)
    decreases i
  {
    if k :| 0 <= k < i && tags[k].line == line && c in tags[k].commits {
      FirstReleaseExists(tags, line, c, k);
    } else {
      assert FirstWith(tags, |tags|, line, c, i);
    }
  }

  method Enumerate(s: set<string>) returns (order: seq<string>)
    ensures forall c :: c in order <==> c in s
  {
    order := [];
    var rest := s;
    while rest != {}
      invariant forall c :: c in s <==> c in order || c in rest
      decreases rest
    {
      var c :| c in rest;
      order := order + [c];
      rest := rest - {c};
    }
  }

  ghost predicate Clash(tags: seq<Tag>, a: string, b: string)
  {
    Released(tags, a) && Released(tags, b) && a != b && Short(a) == Short(b)
  }

  /** The index answers for every released commit, by its short key, and for every pull request. */
  ghost predicate Complete(tags: seq<Tag>, pr: PrOf, commits: map<string, Folded>, prs: map<string, Folded>)
  {
    && (forall c :: Released(tags, c) ==> Short(c) in commits && FirstReleases(tags, c, LookUp(commits, Short(c))))
    && (forall k :: k in commits ==> exists d :: Released(tags, d) && Short(d) == k)
    && (forall p :: FirstPrReleases(tags, pr, p, LookUp(prs, p)))
  }

  lemma ClashIff(commits: Index, tags: seq<Tag>)
    requires forall c :: c in commits <==> Released(tags, c)
    ensures (exists a, b :: Collide(commits, a, b)) <==> exists a, b :: Clash(tags, a, b)
  {
    if a, b :| Collide(commits, a, b) {
      assert Clash(tags, a, b);
    }
    if a, b :| Clash(tags, a, b) {
      assert Collide(commits, a, b);
    }
  }

  lemma CommitAnswered(commits: Index, short: Index, tags: seq<Tag>, c: string)
    requires CommitsRight(commits, tags, |tags|, Main) && CommitsRight(commits, tags, |tags|, Gateway)
    requires c in commits && Short(c) in short && short[Short(c)] == commits[c]
    ensures FirstReleases(tags, c, LookUp(SimplifyMap(short), Short(c)))
  {
    EntryShown(short, Short(c));
    var main, gateway := Get(commits, c, Main), Get(commits, c, Gateway);
    assert LookUp(SimplifyMap(short), Short(c)) == Found(main, gateway);
  }

  lemma PrAnswered(prs: Index, tags: seq<Tag>, pr: PrOf, p: string)
    requires PrsRight(prs, tags, |tags|, Main, pr) && PrsRight(prs, tags, |tags|, Gateway, pr)
    ensures FirstPrReleases(tags, pr, p, LookUp(SimplifyMap(prs), p))
  {
    EntryShown(prs, p);
    var main, gateway := Get(prs, p, Main), Get(prs, p, Gateway);
    assert LookUp(SimplifyMap(prs), p) == Found(main, gateway);
  }

  lemma OutputComplete(commits: Index, order: seq<string>, short: Index, prs: Index, tags: seq<Tag>, pr: PrOf)
    requires CommitsRight(commits, tags, |tags|, Main) && CommitsRight(commits, tags, |tags|, Gateway)
    requires PrsRight(prs, tags, |tags|, Main, pr) && PrsRight(prs, tags, |tags|, Gateway, pr)
    requires forall c :: c in commits <==> Released(tags, c)
    requires forall c :: c in order <==> c in commits
    requires Shortened(commits, order, short)
    ensures Complete(tags, pr, SimplifyMap(short), SimplifyMap(prs))
  {
    forall c | Released(tags, c)
      ensures Short(c) in SimplifyMap(short) && FirstReleases(tags, c, LookUp(SimplifyMap(short), Short(c)))
    {
      CommitAnswered(commits, short, tags, c);
    }
    forall p
      ensures FirstPrReleases(tags, pr, p, LookUp(SimplifyMap(prs), p))
    {
      PrAnswered(prs, tags, pr, p);
    }
  }

  /** The whole index.  Without a clash of short keys, which ends the program, it holds the first main and the first
      gateway release of every released commit and of every pull request. */
  method Generate(tags: seq<Tag>, chunk: nat, pr: PrOf)
    returns (ok: bool, commits: map<string, Folded>, prs: map<string, Folded>)
    requires chunk > 0
    ensures !ok <==> exists a, b :: Clash(tags, a, b)
    ensures ok ==> Complete(tags, pr, commits, prs)
  {
    var commitMap, prMap := BuildMaps(tags, chunk, pr);
    var order := Enumerate(commitMap.Keys);
    var short := Shorten(commitMap, order);
    forall c
      ensures c in commitMap <==> Released(tags, c)
    {
      IndexedIff(commitMap, tags, c);
    }
    ClashIff(commitMap, tags);
    if short.None? {
      return false, map[], map[];
    }
    OutputComplete(commitMap, order, short.value, prMap, tags, pr);
    return true, SimplifyMap(short.value), SimplifyMap(prMap);
  }
}
