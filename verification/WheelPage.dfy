/** The wheel index as text: each run parses the page it finds and writes a new one. */
module WheelPage {
  import opened Options
  import opened TextSplit
  import opened WheelIndex

  const HREF := "<a href="
  const END := "</a>"
  const WHL := ".whl"

  function LinkText(w: Wheel): string
  {
    HREF + "\"" + w.url + "\">" + (w.name + (END + "<br>"))
  }

  predicate Avoids(s: string, ch: char)
  {
    forall i :: 0 <= i < |s| ==> s[i] != ch
  }

  /** A wheel file name, and an address without markup. */
  ghost predicate ValidWheel(w: Wheel)
  {
    && |w.name| > |WHL| && w.name[|w.name| - |WHL|..] == WHL
    && Avoids(w.name, '<') && Avoids(w.name, '\n') && Avoids(w.url, '>') && Avoids(w.url, '\n')
  }

  /** Where the text from `i` on reaches a character. */
  function IndexFrom(s: string, ch: char, i: nat): (r: Option<nat>)
    ensures r.Some? ==> i <= r.value < |s| && s[r.value] == ch && forall k :: i <= k < r.value ==> s[k] != ch
    ensures r.None? ==> forall k :: i <= k < |s| ==> s[k] != ch
    decreases |s| - i
  {
    if i >= |s| then None else if s[i] == ch then Some(i) else IndexFrom(s, ch, i + 1)
  }

  /** Between a `>` at `i` and the next `<` there is a wheel name, and the link ends there. */
  function NameAt(s: string, i: nat): Option<string>
    requires i < |s|
  {
    var j := IndexFrom(s, '<', i + 1);
    if s[i] == '>' && j.Some? && Occurs(s, END, j.value)
       && j.value - (i + 1) > |WHL| && s[j.value - |WHL|..j.value] == WHL
    then Some(s[i + 1..j.value]) else None
  }

  /** The leftmost wheel name in a line. */
  function NameOf(s: string, i: nat): Option<string>
    decreases |s| - i
  {
    if i >= |s| then None
    else if NameAt(s, i).Some? then NameAt(s, i)
    else NameOf(s, i + 1)
  }

  lemma {:induction false} NameOfFirst(s: string, i: nat, at: nat)
    requires i <= at < |s| && NameAt(s, at).Some? && forall k :: i <= k < at ==> s[k] != '>'
    ensures NameOf(s, i) == NameAt(s, at)
    decreases at - i
  {
    if i < at {
      NameOfFirst(s, i + 1, at);
    }
  }

  /** The name right after the first `>`. */
  lemma NameAfter(s: string, head: string, name: string)
    requires s == head + (name + (END + "<br>")) && |name| > |WHL| && name[|name| - |WHL|..] == WHL
    requires Avoids(name, '<') && head != [] && head[|head| - 1] == '>' && Avoids(head[..|head| - 1], '>')
    ensures NameOf(s, 0) == Some(name)
  {
    hide NameOf;
    var at, stop := |head| - 1, |head| + |name|;
    LinkTail(s, name, head);
    forall k | at + 1 <= k < stop
      ensures s[k] != '<'
    {
      assert s[k] == name[k - at - 1];
    }
    assert forall k :: 0 <= k < at ==> s[k] == head[..at][k];
    assert IndexFrom(s, '<', at + 1) == Some(stop);
    NameOfFirst(s, 0, at);
  }

  /** The opening tag of a link ends with its first `>`. */
  lemma OpeningTag(url: string)
    requires Avoids(url, '>')
    ensures var head := HREF + "\"" + url + "\">";
            head[|head| - 1] == '>' && Avoids(head[..|head| - 1], '>')
  {
    var head := HREF + "\"" + url + "\">";
    assert head[..|head| - 1] == HREF + "\"" + url + "\"";
  }

  lemma LinkName(w: Wheel)
    requires ValidWheel(w)
    ensures NameOf(LinkText(w), 0) == Some(w.name)
  {
    hide NameOf;
    OpeningTag(w.url);
    NameAfter(LinkText(w), HREF + "\"" + w.url + "\">", w.name);
  }

  lemma LinkTail(s: string, name: string, head: string)
    requires s == head + (name + (END + "<br>")) && |name| > |WHL| && name[|name| - |WHL|..] == WHL
    ensures var stop := |head| + |name|;
            s[stop] == '<' && Occurs(s, END, stop) && s[stop - |WHL|..stop] == WHL && s[|head|..stop] == name
  {
    var stop := |head| + |name|;
    assert s[stop..] == END + "<br>";
    assert s[stop..stop + |END|] == s[stop..][..|END|] == END;
    assert s[|head|..stop] == name;
    assert s[stop - |WHL|..stop] == name[|name| - |WHL|..];
  }

  // ----- the page

  function Header(version: string): seq<string>
  {
    ["<!DOCTYPE html>", "<h1>SGLang Nightly Wheels (" + version + ")</h1>"]
  }

  function Page(version: string, links: seq<string>): string
  {
    Join(Header(version) + links + [""], "\n")
  }

  lemma JoinBetween(a: string, b: string, rest: seq<string>, sep: string)
    requires rest != []
    ensures Join([a, b] + rest, sep) == Join([a, b], sep) + sep + Join(rest, sep)
  {
    var all, two := [a, b] + rest, [a, b];
    assert all[1..][1..] == rest && two[1..] == [b];
    assert Join(all[1..], sep) == b + (sep + Join(rest, sep));
    assert Join(two, sep) == a + (sep + b);
  }

  /** The page as it is written: two header lines, the joined links, and a final line break. */
  lemma PageText(version: string, links: seq<string>)
    requires links != []
    ensures Page(version, links) == Join(Header(version), "\n") + "\n" + Join(links, "\n") + "\n"
  {
    hide Join;
    var h := Header(version);
    JoinNext(links, "", "\n");
    JoinBetween(h[0], h[1], links + [""], "\n");
    assert h == [h[0], h[1]] && h + links + [""] == h + (links + [""]);
    Regroup(Join(h, "\n"), Join(links, "\n"));
  }

  lemma Regroup(a: string, b: string)
    ensures a + "\n" + (b + ("\n" + "")) == a + "\n" + b + "\n"
  {
  }

  predicate IsLink(line: string)
  {
    |line| >= |HREF| && line[..|HREF|] == HREF
  }

  function Links(lines: seq<string>): seq<string>
    decreases |lines|
  {
    if lines == [] then []
    else Links(lines[..|lines| - 1]) + if IsLink(lines[|lines| - 1]) then [lines[|lines| - 1]] else []
  }

  lemma {:induction false} LinksConcat(a: seq<string>, b: seq<string>)
    ensures Links(a + b) == Links(a) + Links(b)
    decreases |b|
  {
    if b == [] {
      assert a + b == a;
    } else {
      LinksConcat(a, b[..|b| - 1]);
      assert (a + b)[..|a + b| - 1] == a + b[..|b| - 1];
    }
  }

  lemma {:induction false} AllLinks(ls: seq<string>)
    requires forall i :: 0 <= i < |ls| ==> IsLink(ls[i])
    ensures Links(ls) == ls
    decreases |ls|
  {
    if ls != [] {
      AllLinks(ls[..|ls| - 1]);
    }
  }

  lemma FreeOfBreak(s: string)
    requires Avoids(s, '\n')
    ensures Free(s, "\n")
  {
    forall i: nat
      ensures !Occurs(s, "\n", i)
    {
      if i + 1 <= |s| {
        assert s[i..i + 1][0] == s[i];
      }
    }
  }

  /** A page reads back to the links written. */
  lemma PageReadsBack(version: string, links: seq<string>)
    requires Avoids(version, '\n') && forall i :: 0 <= i < |links| ==> IsLink(links[i]) && Avoids(links[i], '\n')
    ensures Links(Split(Page(version, links), "\n")) == links
  {
    hide Links;
    hide Split;
    hide Join;
    var lines := Header(version) + links + [""];
    LinesAreFree(version, links);
    SplitJoin(lines, "\n");
    HeaderHasNoLinks(version);
    LinksConcat(Header(version) + links, [""]);
    LinksConcat(Header(version), links);
    AllLinks(links);
    EmptyIsNoLink();
  }

  lemma EmptyIsNoLink()
    ensures Links([""]) == []
  {
    assert [""][..0] == [];
  }

  /** No line of a page has a line break in it. */
  lemma LinesAreFree(version: string, links: seq<string>)
    requires Avoids(version, '\n') && forall i :: 0 <= i < |links| ==> Avoids(links[i], '\n')
    ensures var lines := Header(version) + links + [""]; forall i :: 0 <= i < |lines| ==> Free(lines[i], "\n")
  {
    var lines := Header(version) + links + [""];
    forall i | 0 <= i < |lines|
      ensures Free(lines[i], "\n")
    {
      FreeOfBreak(lines[i]);
    }
  }

  lemma HeaderHasNoLinks(version: string)
    ensures Links(Header(version)) == []
  {
    var h := Header(version);
    assert h[0][..|HREF|][1] == '!' && h[1][..|HREF|][1] == 'h' && HREF[1] == 'a';
    assert !IsLink(h[0]) && !IsLink(h[1]);
    assert h[..1][..0] == [] && Links(h[..1]) == [];
  }

  function Texts(ws: seq<Wheel>): (ls: seq<string>)
    ensures |ls| == |ws| && forall i :: 0 <= i < |ws| ==> ls[i] == LinkText(ws[i])
  {
    seq(|ws|, i requires 0 <= i < |ws| => LinkText(ws[i]))
  }

  ghost predicate AllValid(ws: seq<Wheel>)
  {
    forall i :: 0 <= i < |ws| ==> ValidWheel(ws[i])
  }

  lemma LinkTextIsLine(w: Wheel)
    requires ValidWheel(w)
    ensures IsLink(LinkText(w)) && Avoids(LinkText(w), '\n')
  {
    assert LinkText(w)[..|HREF|] == HREF;
  }

  /** Drops the links whose wheel name came before, and lines without one. */
  method UniqueLinks(links: seq<string>, ghost ws: seq<Wheel>) returns (unique: seq<string>)
    requires AllValid(ws) && links == Texts(ws)
    ensures unique == Texts(Dedup(ws, {}))
  {
    unique := [];
    var seen: set<string> := {};
    for i := 0 to |links|
      invariant unique + Texts(Dedup(ws[i..], seen)) == Texts(Dedup(ws, {}))
    {
      LinkName(ws[i]);
      assert ws[i..][1..] == ws[i + 1..];
      var name := NameOf(links[i], 0);
      if name.Some? && name.value !in seen {
        assert Texts(Dedup(ws[i..], seen)) == [links[i]] + Texts(Dedup(ws[i + 1..], seen + {ws[i].name}));
        seen := seen + {name.value};
        unique := unique + [links[i]];
      }
    }
  }

  /** The page holds the links of these wheels. */
  ghost predicate Shows(page: Option<string>, version: string, ws: seq<Wheel>)
  {
    AllValid(ws) && if page.None? then ws == [] else page.value == Page(version, Texts(ws))
  }

  lemma {:induction false} DedupValid(ws: seq<Wheel>, seen: set<string>)
    requires AllValid(ws)
    ensures AllValid(Dedup(ws, seen))
    decreases |ws|
  {
    if ws != [] {
      DedupValid(ws[1..], if ws[0].name in seen then seen else seen + {ws[0].name});
    }
  }

  // ----- what the page shows

  /** The line determines the wheel. */
  lemma LinkTextInjective(v: Wheel, w: Wheel)
    requires ValidWheel(v) && ValidWheel(w) && LinkText(v) == LinkText(w)
    ensures v == w
  {
    OpeningTag(v.url);
    OpeningTag(w.url);
    var s, a, b := LinkText(v), HREF + "\"" + v.url + "\">", HREF + "\"" + w.url + "\">";
    SameHead(s, a, b);
    assert s[..|a|] == a && s[..|b|] == b;
    assert v.url == a[|HREF| + 1..|a| - 2] && w.url == b[|HREF| + 1..|b| - 2];
    assert s[|a|..] == v.name + (END + "<br>") && s[|b|..] == w.name + (END + "<br>");
    assert v.name == (v.name + (END + "<br>"))[..|v.name|] && w.name == (w.name + (END + "<br>"))[..|w.name|];
  }

  /** Both heads end with the first `>`. */
  lemma SameHead(s: string, a: string, b: string)
    requires a <= s && b <= s && a != "" && b != ""
    requires a[|a| - 1] == '>' && b[|b| - 1] == '>' && Avoids(a[..|a| - 1], '>') && Avoids(b[..|b| - 1], '>')
    ensures |a| == |b|
  {
    if |a| < |b| {
      HeadWithin(s, a, b);
    } else if |b| < |a| {
      HeadWithin(s, b, a);
    }
  }

  lemma HeadWithin(s: string, a: string, b: string)
    requires a <= s && b <= s && 0 < |a| < |b|
    ensures b[..|b| - 1][|a| - 1] == a[|a| - 1]
  {
    assert s[|a| - 1] == a[|a| - 1] && s[|a| - 1] == b[|a| - 1];
  }

  lemma LinkLinesOf(lines: seq<string>, line: string)
    requires IsLink(line)
    ensures line in Links(lines) <==> line in lines
  {
    LinksKeep(lines, line);
  }

  lemma {:induction false} LinksKeep(lines: seq<string>, line: string)
    ensures line in Links(lines) <==> line in lines && IsLink(line)
    decreases |lines|
  {
    if lines != [] {
      LinksKeep(lines[..|lines| - 1], line);
      assert lines == lines[..|lines| - 1] + [lines[|lines| - 1]];
    }
  }

  /** On a page that shows these wheels, the line of a wheel, address and name written out, stands exactly if it is one
      of them. */
  lemma ShownIff(page: string, version: string, ws: seq<Wheel>, w: Wheel)
    requires Avoids(version, '\n') && Shows(Some(page), version, ws) && ValidWheel(w)
    ensures "<a href=\"" + w.url + "\">" + w.name + "</a><br>" in Split(page, "\n") <==> w in ws
  {
    var line := "<a href=\"" + w.url + "\">" + w.name + "</a><br>";
    assert line == LinkText(w);
    LinkTextIsLine(w);
    LinkLinesOf(Split(page, "\n"), line);
    TextsAreLines(ws);
    PageReadsBack(version, Texts(ws));
    if line in Texts(ws) {
      var i :| 0 <= i < |ws| && Texts(ws)[i] == line;
      LinkTextInjective(ws[i], w);
    }
    if w in ws {
      var i :| 0 <= i < |ws| && ws[i] == w;
      assert Texts(ws)[i] == line;
    }
  }

  lemma ShownAll(page: Option<string>, version: string, ws: seq<Wheel>)
    requires Avoids(version, '\n') && Shows(page, version, ws)
    ensures forall w :: page.Some? && ValidWheel(w) ==>
              ("<a href=\"" + w.url + "\">" + w.name + "</a><br>" in Split(page.value, "\n") <==> w in ws)
  {
    forall w | page.Some? && ValidWheel(w)
      ensures "<a href=\"" + w.url + "\">" + w.name + "</a><br>" in Split(page.value, "\n") <==> w in ws
    {
      ShownIff(page.value, version, ws, w);
    }
  }

  /** The other lines of a page: two at the front, and an empty one at the end. */
  lemma FrameOf(page: Option<string>, version: string, ws: seq<Wheel>)
    requires Avoids(version, '\n') && Shows(page, version, ws)
    ensures page.Some? ==>
            var ls := Split(page.value, "\n");
            && |ls| == |ws| + 3 && ls[0] == "<!DOCTYPE html>"
            && ls[1] == "<h1>SGLang Nightly Wheels (" + version + ")</h1>" && ls[|ls| - 1] == ""
  {
    hide Split;
    hide Join;
    if page.Some? {
      TextsAreLines(ws);
      LinesAreFree(version, Texts(ws));
      SplitJoin(Header(version) + Texts(ws) + [""], "\n");
    }
  }

  lemma TextsAreLines(ws: seq<Wheel>)
    requires AllValid(ws)
    ensures forall i :: 0 <= i < |ws| ==> IsLink(Texts(ws)[i]) && Avoids(Texts(ws)[i], '\n')
  {
    forall i | 0 <= i < |ws|
      ensures IsLink(Texts(ws)[i]) && Avoids(Texts(ws)[i], '\n')
    {
      LinkTextIsLine(ws[i]);
    }
  }

  // ----- the runs

  /** One run: reads the page if there is one, puts the new links in front, and writes it if there are any. */
  method UpdateWheelIndex(page: Option<string>, version: string, added: seq<Wheel>, ghost kept: seq<Wheel>)
    returns (page': Option<string>)
    requires Avoids(version, '\n') && AllValid(added) && Shows(page, version, kept)
    ensures Shows(page', version, Updated(added, kept)) && (page'.Some? <==> page.Some? || added != [])
    ensures forall w :: page'.Some? && ValidWheel(w) ==>
              ("<a href=\"" + w.url + "\">" + w.name + "</a><br>" in Split(page'.value, "\n")
               <==> if added == [] then w in kept else First(added + kept, w))
  {
    var existing := [];
    if page.Some? {
      existing := Links(Split(page.value, "\n"));
      forall i | 0 <= i < |kept|
        ensures IsLink(Texts(kept)[i]) && Avoids(Texts(kept)[i], '\n')
      {
        LinkTextIsLine(kept[i]);
      }
      PageReadsBack(version, Texts(kept));
    }
    assert existing == Texts(kept);
    if added == [] {
      ShownAll(page, version, kept);
      return page;
    }
    var links := Texts(added) + existing;
    assert links == Texts(added + kept);
    var unique := UniqueLinks(links, added + kept);
    DedupValid(added + kept, {});
    PageText(version, unique);
    page' := Some(Join(Header(version), "\n") + "\n" + Join(unique, "\n") + "\n");
    ShownAll(page', version, Updated(added, kept));
    DedupIs(added + kept, {});
  }

  /** One run after another, starting without a page.  However many there are, the lines of the page are those of the
      wheels of the latest runs that had them, with name and address; and there is a page once a run had a wheel. */
  method UpdateAll(version: string, runs: seq<seq<Wheel>>) returns (page: Option<string>)
    requires Avoids(version, '\n') && forall k :: 0 <= k < |runs| ==> AllValid(runs[k]) && Distinct(runs[k])
    ensures page.Some? <==> exists k :: 0 <= k < |runs| && runs[k] != []
    ensures Shows(page, version, After(runs)) && Distinct(After(runs))
    ensures page.Some? ==>
            var ls := Split(page.value, "\n");
            && |ls| == |After(runs)| + 3 && ls[0] == "<!DOCTYPE html>"
            && ls[1] == "<h1>SGLang Nightly Wheels (" + version + ")</h1>" && ls[|ls| - 1] == ""
    ensures forall w :: page.Some? && ValidWheel(w) ==>
              ("<a href=\"" + w.url + "\">" + w.name + "</a><br>" in Split(page.value, "\n")
               <==> exists k :: Latest(runs, k, w))
  {
    page := None;
    for i := 0 to |runs|
      invariant Shows(page, version, After(runs[..i]))
      invariant page.Some? <==> exists k :: 0 <= k < i && runs[k] != []
    {
      page := UpdateWheelIndex(page, version, runs[i], After(runs[..i]));
      assert runs[..i + 1][..i] == runs[..i];
    }
    assert runs[..|runs|] == runs;
    IndexIsLatest(runs);
    ShownAll(page, version, After(runs));
    FrameOf(page, version, After(runs));
  }
}
