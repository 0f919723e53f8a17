/** The search box of the release lookup page: what a query is taken for, and what is found for it. */
module ReleaseSearch {
  import opened Options
  import opened ReleaseIndex
  import opened ReleaseLookup

  // ----- what a query is taken for

  predicate AllDigits(s: string)
  {
    s != [] && forall i :: 0 <= i < |s| ==> IsDigit(s[i])
  }

  predicate IsHex(ch: char)
  {
    IsDigit(ch) || 'a' <= ch <= 'f' || 'A' <= ch <= 'F'
  }

  predicate AllHex(s: string)
  {
    forall i :: 0 <= i < |s| ==> IsHex(s[i])
  }

  function LowerChar(ch: char): char
  {
    if 'A' <= ch <= 'Z' then (ch as int + 32) as char else ch
  }

  function Lower(s: string): (l: string)
    ensures |l| == |s|
    ensures forall i :: 0 <= i < |s| ==> l[i] == LowerChar(s[i])
  {
    seq(|s|, i requires 0 <= i < |s| => LowerChar(s[i]))
  }

  const PULL := "/pull/"

  /** The longest run of digits at the front. */
  function LeadingDigits(s: string): (d: string)
    ensures d <= s && (d != [] ==> AllDigits(d))
    ensures |d| < |s| ==> !IsDigit(s[|d|])
  {
    if s == [] || !IsDigit(s[0]) then [] else [s[0]] + LeadingDigits(s[1..])
  }

  /** A link to a pull request begins here. */
  predicate PullHere(s: string)
  {
    PULL <= s && LeadingDigits(s[|PULL|..]) != []
  }

  /** The number in the first link to a pull request. */
  function PullNumber(s: string): (n: Option<string>)
    ensures n.Some? ==> AllDigits(n.value)
  {
    if PullHere(s) then Some(LeadingDigits(s[|PULL|..]))
    else if s == [] then None
    else PullNumber(s[1..])
  }

  datatype Query = Pr(number: string) | Commit(hash: string) | Unknown

  function Parse(q: string): Query
  {
    if PullNumber(q).Some? then Pr(PullNumber(q).value)
    else if AllDigits(q) then Pr(q)
    else if q != [] && q[0] == '#' && AllDigits(q[1..]) then Pr(q[1..])
    else if 7 <= |q| <= 40 && AllHex(q) then Commit(Lower(q))
    else Unknown
  }

  // ----- prefix search

  /** The order of strings, character by character. */
  predicate Less(a: string, b: string)
  {
    b != [] && (a == [] || a[0] < b[0] || (a[0] == b[0] && Less(a[1..], b[1..])))
  }

  lemma {:induction false} LessTransitive(a: string, b: string, c: string)
    requires Less(a, b) && Less(b, c)
    ensures Less(a, c)
  {
    if a != [] && a[0] == b[0] && b[0] == c[0] {
      LessTransitive(a[1..], b[1..], c[1..]);
    }
  }

  lemma {:induction false} PrefixNotLess(p: string, key: string)
    requires p <= key
    ensures !Less(key, p)
  {
    if p != [] {
      PrefixNotLess(p[1..], key[1..]);
    }
  }

  /** Past the first key that is not below the prefix, a key has the prefix only if that first key has it. */
  lemma {:induction false} PrefixedTogether(p: string, a: string, b: string)
    requires !Less(a, p) && Less(a, b) && p <= b
    ensures p <= a
  {
    if p != [] {
      if a != [] && a[0] == p[0] {
        PrefixedTogether(p[1..], a[1..], b[1..]);
        assert a == [a[0]] + a[1..] && p == [p[0]] + p[1..];
      }
    }
  }

  ghost predicate Sorted(keys: seq<string>)
  {
    forall i, j :: 0 <= i < j < |keys| ==> Less(keys[i], keys[j])
  }

  /** The first key with the prefix. */
  function FirstMatch(keys: seq<string>, prefix: string): (m: Option<string>)
    ensures m.None? <==> forall i :: 0 <= i < |keys| ==> !(prefix <= keys[i])
    ensures m.Some? ==> m.value in keys && prefix <= m.value
  {
    if keys == [] then None
    else if prefix <= keys[0] then Some(keys[0])
    else
      assert forall i :: 1 <= i < |keys| ==> keys[i] == keys[1..][i - 1];
      FirstMatch(keys[1..], prefix)
  }

  lemma {:induction false} FirstMatchAt(keys: seq<string>, prefix: string, i: nat)
    requires i < |keys| && prefix <= keys[i] && forall k :: 0 <= k < i ==> !(prefix <= keys[k])
    ensures FirstMatch(keys, prefix) == Some(keys[i])
    decreases i
  {
    if i > 0 {
      FirstMatchAt(keys[1..], prefix, i - 1);
    }
  }

  /** The binary search finds what a scan of the sorted keys would. */
  method PrefixSearch(keys: seq<string>, prefix: string) returns (r: Option<string>)
    requires Sorted(keys)
    ensures r == FirstMatch(keys, prefix)
  {
    var lo, hi := 0, |keys|;
    while lo < hi
      invariant 0 <= lo <= hi <= |keys|
      invariant forall i :: 0 <= i < lo ==> Less(keys[i], prefix)
      invariant forall i :: hi <= i < |keys| ==> !Less(keys[i], prefix)
    {
      var mid := (lo + hi) / 2;
      MovesBounds(keys, prefix, mid);
      if Less(keys[mid], prefix) { lo := mid + 1; } else { hi := mid; }
    }
    NoneBelow(keys, prefix, lo);
    if lo < |keys| && prefix <= keys[lo] {
      FirstMatchAt(keys, prefix, lo);
      return Some(keys[lo]);
    }
    NoneAbove(keys, prefix, lo);
    return None;
  }

  lemma MovesBounds(keys: seq<string>, prefix: string, mid: nat)
    requires Sorted(keys) && mid < |keys|
    ensures Less(keys[mid], prefix) ==> forall i :: 0 <= i <= mid ==> Less(keys[i], prefix)
    ensures !Less(keys[mid], prefix) ==> forall i :: mid <= i < |keys| ==> !Less(keys[i], prefix)
  {
    forall i | 0 <= i < mid && Less(keys[mid], prefix)
      ensures Less(keys[i], prefix)
    {
      LessTransitive(keys[i], keys[mid], prefix);
    }
    forall i | mid < i < |keys| && Less(keys[i], prefix)
      ensures Less(keys[mid], prefix)
    {
      LessTransitive(keys[mid], keys[i], prefix);
    }
  }

  lemma NoneBelow(keys: seq<string>, prefix: string, lo: nat)
    requires lo <= |keys| && forall i :: 0 <= i < lo ==> Less(keys[i], prefix)
    ensures forall i :: 0 <= i < lo ==> !(prefix <= keys[i])
  {
    forall i | 0 <= i < lo && prefix <= keys[i]
      ensures false
    {
      PrefixNotLess(prefix, keys[i]);
    }
  }

  lemma NoneAbove(keys: seq<string>, prefix: string, lo: nat)
    requires Sorted(keys) && lo <= |keys| && (forall i :: lo <= i < |keys| ==> !Less(keys[i], prefix))
    requires lo < |keys| ==> !(prefix <= keys[lo])
    ensures forall i :: lo <= i < |keys| ==> !(prefix <= keys[i])
  {
    forall i | lo < i < |keys| && prefix <= keys[i]
      ensures false
    {
      PrefixedTogether(prefix, keys[lo], keys[i]);
    }
  }

  // ----- the page

  /** What the page has loaded: both maps and the sorted commit keys. */
  datatype Page = Page(commits: map<string, Folded>, prs: map<string, Folded>, keys: seq<string>)

  ghost predicate Loaded(page: Page)
  {
    Sorted(page.keys) && forall k :: k in page.keys <==> k in page.commits
  }

  /** What is shown for a query. */
  datatype Result = Result(query: Query, refs: seq<Ref>)

  function Shown(page: Page, q: string): Result
  {
    var query := Parse(q);
    Result(query,
           match query
           case Pr(number) => LookUp(page.prs, number)
           case Commit(hash) =>
             if Short(hash) in page.commits then LookUp(page.commits, Short(hash))
             else
               var key := FirstMatch(page.keys, Short(hash));
               if key.Some? then LookUp(page.commits, key.value) else []
           case Unknown => [])
  }

  method PerformSearch(page: Page, q: string) returns (r: Result)
    requires Loaded(page)
    ensures r == Shown(page, q)
  {
    var query := Parse(q);
    var refs: seq<Ref> := [];
    match query {
      case Pr(number) => refs := LookUp(page.prs, number);
      case Commit(hash) =>
        if Short(hash) in page.commits {
          refs := LookUp(page.commits, Short(hash));
        } else {
          var key := PrefixSearch(page.keys, Short(hash));
          if key.Some? { refs := LookUp(page.commits, key.value); }
        }
      case Unknown =>
    }
    r := Result(query, refs);
  }

  // ----- what the page finds

  /** A commit hash as git prints it. */
  predicate GitHash(c: string)
  {
    |c| == 40 && forall i :: 0 <= i < |c| ==> IsDigit(c[i]) || 'a' <= c[i] <= 'f'
  }

  /** A page for these releases. */
  ghost predicate Describes(page: Page, tags: seq<Tag>, pr: PrOf)
  {
    && Loaded(page) && Complete(tags, pr, page.commits, page.prs)
    && forall c :: Released(tags, c) ==> GitHash(c)
  }

  lemma {:induction false} NoLinkInside(s: string)
    requires forall i :: 0 <= i < |s| ==> s[i] != '/'
    ensures PullNumber(s).None?
  {
    assert PULL[0] == '/';
    if s != [] {
      NoLinkInside(s[1..]);
    }
  }

  /** A query that spells the beginning of a hash is taken for a commit exactly if it is not all digits. */
  lemma HashIsParsed(c: string, q: string)
    requires GitHash(c) && 7 <= |q| <= 40 && Lower(q) <= c
    ensures Parse(q) == if AllDigits(q) then Pr(q) else Commit(Lower(q))
  {
    forall i | 0 <= i < |q|
      ensures IsHex(q[i])
    {
      assert c[i] == Lower(q)[i] == LowerChar(q[i]);
    }
    NoLinkInside(q);
  }

  lemma ShortOfPrefix(h: string, c: string)
    requires h <= c && 8 <= |h|
    ensures Short(h) == Short(c)
  {
    assert h[..8] == c[..8];
  }

  /** With at least eight characters of its hash, in either case, the page shows a released commit's first releases
      exactly if those characters are not all digits. */
  lemma CommitIsFoundIff(page: Page, tags: seq<Tag>, pr: PrOf, c: string, q: string)
    requires Describes(page, tags, pr) && Released(tags, c) && 8 <= |q| <= 40 && Lower(q) <= c
    ensures Shown(page, q).query.Commit? && FirstReleases(tags, c, Shown(page, q).refs) <==> !AllDigits(q)
    ensures AllDigits(q) ==> Shown(page, q).query == Pr(q) && FirstPrReleases(tags, pr, q, Shown(page, q).refs)
  {
    HashIsParsed(c, q);
    if !AllDigits(q) {
      ShortOfPrefix(Lower(q), c);
    }
  }

  lemma KeysAreShort(page: Page, tags: seq<Tag>, pr: PrOf, k: string)
    requires Describes(page, tags, pr) && k in page.commits
    ensures |k| == 8
  {
    var d :| Released(tags, d) && Short(d) == k;
  }

  /** With seven characters, not all digits, it shows the first releases of a released commit that begins so, the one
      whose short key comes first. */
  lemma SevenCharactersFindFirst(page: Page, tags: seq<Tag>, pr: PrOf, c: string, q: string) returns (d: string)
    requires Describes(page, tags, pr) && Released(tags, c) && |q| == 7 && Lower(q) <= c && !AllDigits(q)
    ensures Released(tags, d) && Lower(q) <= d && FirstReleases(tags, d, Shown(page, q).refs)
    ensures forall k :: k in page.keys && Lower(q) <= k ==> k == Short(d) || Less(Short(d), k)
  {
    hide Parse;
    hide FirstReleases;
    hide FirstPrReleases;
    hide Less;
    var h := Lower(q);
    HashIsParsed(c, q);
    if h in page.commits { KeysAreShort(page, tags, pr, h); }
    assert h <= Short(c) && Short(c) in page.keys;
    var key := FirstMatch(page.keys, h).value;
    d :| Released(tags, d) && Short(d) == key;
    FirstMatchIsLeast(page.keys, h);
  }

  lemma {:induction false} FirstMatchIsLeast(keys: seq<string>, prefix: string)
    requires Sorted(keys) && FirstMatch(keys, prefix).Some?
    ensures forall k :: k in keys && prefix <= k ==>
              k == FirstMatch(keys, prefix).value || Less(FirstMatch(keys, prefix).value, k)
  {
    if prefix <= keys[0] {
      forall k | k in keys && k != keys[0]
        ensures Less(keys[0], k)
      {
        var i :| 0 <= i < |keys| && keys[i] == k;
      }
    } else {
      FirstMatchIsLeast(keys[1..], prefix);
    }
  }

  /** A query of hexadecimal digits that is neither too short nor too long nor a number shows the first releases of a
      released commit that begins with its first eight characters, in lower case, and nothing if there is none. */
  lemma HexQueryShows(page: Page, tags: seq<Tag>, pr: PrOf, q: string) returns (d: string)
    requires Describes(page, tags, pr) && 7 <= |q| <= 40 && (exists i :: 0 <= i < |q| && !('0' <= q[i] <= '9'))
    requires forall i :: 0 <= i < |q| ==> '0' <= q[i] <= '9' || 'a' <= q[i] <= 'f' || 'A' <= q[i] <= 'F'
    ensures var h, r := Lower(if |q| < 8 then q else q[..8]), Shown(page, q);
            && r.query == Commit(Lower(q))
            && if exists c :: Released(tags, c) && h <= c
               then Released(tags, d) && h <= d && FirstReleases(tags, d, r.refs)
               else r.refs == []
  {
    hide FirstReleases;
    hide FirstPrReleases;
    hide Less;
    hide Parse;
    hide Short;
    var h := Lower(if |q| < 8 then q else q[..8]);
    HexIsParsed(q);
    d := "";
    if h in page.commits {
      d :| Released(tags, d) && Short(d) == h;
    } else if FirstMatch(page.keys, h).Some? {
      d :| Released(tags, d) && Short(d) == FirstMatch(page.keys, h).value;
    }
    forall c | Released(tags, c) && h <= c
      ensures Short(c) in page.keys && h <= Short(c)
    {
      ShortKeeps(h, c);
    }
    ShortBegins(d);
  }

  lemma HexIsParsed(q: string)
    requires 7 <= |q| <= 40 && (exists i :: 0 <= i < |q| && !('0' <= q[i] <= '9'))
    requires forall i :: 0 <= i < |q| ==> '0' <= q[i] <= '9' || 'a' <= q[i] <= 'f' || 'A' <= q[i] <= 'F'
    ensures Parse(q) == Commit(Lower(q)) && Short(Lower(q)) == Lower(if |q| < 8 then q else q[..8])
  {
    NoLinkInside(q);
    assert q[0] != '#';
  }

  lemma ShortBegins(c: string)
    ensures Short(c) <= c
  {
  }

  lemma ShortKeeps(h: string, c: string)
    requires h <= c && |h| <= 8
    ensures h <= Short(c)
  {
  }

  /** Everything else shows nothing: no link, no number, and too short, too long or not hexadecimal. */
  lemma OtherQueriesShowNothing(page: Page, q: string)
    requires forall k :: 0 <= k < |q| ==> !PullHere(q[k..])
    requires !AllDigits(q) && (q != [] && q[0] == '#' ==> !AllDigits(q[1..]))
    requires |q| < 7 || |q| > 40 ||
             exists i :: 0 <= i < |q| && !('0' <= q[i] <= '9' || 'a' <= q[i] <= 'f' || 'A' <= q[i] <= 'F')
    ensures Shown(page, q) == Result(Unknown, [])
  {
    NoLinkAnywhere(q);
  }

  lemma {:induction false} NoLinkAnywhere(q: string)
    requires forall k :: 0 <= k < |q| ==> !PullHere(q[k..])
    ensures PullNumber(q).None?
    decreases |q|
  {
    if q != [] {
      assert q[0..] == q;
      forall k | 0 <= k < |q[1..]|
        ensures !PullHere(q[1..][k..])
      {
        assert q[1..][k..] == q[k + 1..];
      }
      NoLinkAnywhere(q[1..]);
    }
  }

  /** What the three ways to name a pull request show. */
  lemma PrIsFound(page: Page, tags: seq<Tag>, pr: PrOf, p: string, site: string, rest: string)
    requires Describes(page, tags, pr) && AllDigits(p)
    requires rest == [] || !IsDigit(rest[0])
    requires forall k :: 0 <= k < |site| ==> !PullHere((site + PULL + p + rest)[k..])
    ensures Shown(page, p).query == Shown(page, "#" + p).query == Shown(page, site + PULL + p + rest).query == Pr(p)
    ensures FirstPrReleases(tags, pr, p, Shown(page, p).refs)
    ensures Shown(page, p).refs == Shown(page, "#" + p).refs == Shown(page, site + PULL + p + rest).refs
  {
    NoLinkInside(p);
    NoLinkInside("#" + p);
    assert ("#" + p)[1..] == p;
    LinkIsParsed(site, p, rest);
  }

  lemma {:induction false} DigitsStop(p: string, rest: string)
    requires AllDigits(p) && (rest == [] || !IsDigit(rest[0]))
    ensures LeadingDigits(p + rest) == p
  {
    assert (p + rest)[1..] == p[1..] + rest;
    if |p| > 1 {
      DigitsStop(p[1..], rest);
    } else {
      assert p[1..] + rest == rest;
      assert LeadingDigits(rest) == [];
      assert p == [p[0]];
    }
  }

  lemma {:induction false} LinkIsParsed(site: string, p: string, rest: string)
    requires AllDigits(p) && (rest == [] || !IsDigit(rest[0]))
    requires forall k :: 0 <= k < |site| ==> !PullHere((site + PULL + p + rest)[k..])
    ensures PullNumber(site + PULL + p + rest) == Some(p)
    decreases |site|
  {
    var all := site + PULL + p + rest;
    if site == [] {
      assert all == PULL + (p + rest);
      assert all[|PULL|..] == p + rest;
      DigitsStop(p, rest);
    } else {
      var tail := site[1..] + PULL + p + rest;
      assert all[1..] == tail && all[0..] == all;
      forall k | 0 <= k < |site[1..]|
        ensures !PullHere(tail[k..])
      {
        assert tail[k..] == all[k + 1..];
      }
      LinkIsParsed(site[1..], p, rest);
    }
  }

  /** A released commit that the page does not find by its hash: all forty characters are digits. */
  lemma DigitHashIsMissed(page: Page, c: string, tags: seq<Tag>)
    requires c == seq(40, _ => '1') && tags == [Tag(Main, [c])]
    requires Describes(page, tags, _ => None)
    ensures Released(tags, c) && Shown(page, c).refs == []
  {
    assert c in tags[0].commits;
    assert Lower(c) == c;
    CommitIsFoundIff(page, tags, _ => None, c, c);
  }
}
