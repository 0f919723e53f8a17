/** Putting braces around the arguments of fractions. */
module Fractions {
  import opened Options
  import opened TextSplit

  const FRAC := "\\frac"

  /** The text after a `\frac`, with braces around its one-character arguments; none if there are too few. */
  function FixPiece(p: string): Option<string>
  {
    if |p| > 0 && p[0] == '{' then Some(p)
    else if |p| < 2 then None
    else if p[1] != '{' then Some("{" + [p[0]] + "}{" + [p[1]] + "}" + p[2..])
    else Some("{" + [p[0]] + "}" + p[1..])
  }

  predicate Fixable(ps: seq<string>)
  {
    forall i :: 0 <= i < |ps| ==> FixPiece(ps[i]).Some?
  }

  function FixPieces(ps: seq<string>): (qs: seq<string>)
    requires Fixable(ps)
    ensures |qs| == |ps| && forall i :: 0 <= i < |ps| ==> qs[i] == FixPiece(ps[i]).value
  {
    seq(|ps|, i requires 0 <= i < |ps| => FixPiece(ps[i]).value)
  }

  function FixFracs(s: string): string
  {
    var ps := Split(s, FRAC);
    if Fixable(ps[1..]) then Join([ps[0]] + FixPieces(ps[1..]), FRAC) else s
  }

  lemma JoinOne(p: string, sep: string)
    ensures Join([p], sep) == p
  {
  }

  /** The loop over the pieces, which gives up and returns its input at the first piece that is too short. */
  method FixFracsLoop(s: string) returns (r: string)
    ensures r == FixFracs(s)
  {
    hide Split;
    hide Join;
    var ps := Split(s, FRAC);
    r := ps[0];
    ghost var tail := ps[1..];
    JoinOne(ps[0], FRAC);
    assert [ps[0]] + FixPieces(tail[..0]) == [ps[0]];
    for i := 1 to |ps|
      invariant Fixable(tail[..i - 1]) && r == Join([ps[0]] + FixPieces(tail[..i - 1]), FRAC)
    {
      var p := ps[i];
      r := r + FRAC;
      var q;
      if |p| > 0 && p[0] == '{' {
        q := p;
      } else {
        if |p| < 2 {
          assert FixPiece(tail[i - 1]).None?;
          return s;
        }
        if p[1] != '{' {
          q := "{" + [p[0]] + "}{" + [p[1]] + "}" + p[2..];
        } else {
          q := "{" + [p[0]] + "}" + p[1..];
        }
      }
      r := r + q;
      assert tail[..i] == tail[..i - 1] + [p];
      JoinNext([ps[0]] + FixPieces(tail[..i - 1]), q, FRAC);
      assert [ps[0]] + FixPieces(tail[..i]) == [ps[0]] + FixPieces(tail[..i - 1]) + [q];
    }
    assert tail[..|ps| - 1] == tail;
  }

  function Erased(s: string): string
  {
    if s == "" then "" else (if s[0] == '{' || s[0] == '}' then "" else [s[0]]) + Erased(s[1..])
  }

  lemma {:induction false} ErasedConcat(a: string, b: string)
    ensures Erased(a + b) == Erased(a) + Erased(b)
    decreases |a|
  {
    if a == "" {
      assert a + b == b;
    } else {
      ErasedConcat(a[1..], b);
      assert (a + b)[0] == a[0] && (a + b)[1..] == a[1..] + b;
      var head := if a[0] == '{' || a[0] == '}' then "" else [a[0]];
      assert head + (Erased(a[1..]) + Erased(b)) == (head + Erased(a[1..])) + Erased(b);
    }
  }

  lemma FixPieceErased(p: string)
    requires FixPiece(p).Some?
    ensures Erased(FixPiece(p).value) == Erased(p)
  {
    if p[0] != '{' {
      var a, b := [p[0]], [p[1]];
      if p[1] != '{' {
        assert p == a + (b + p[2..]);
        ErasedConcat(a, b + p[2..]);
        ErasedConcat(b, p[2..]);
        ErasedConcat("{" + a + "}{" + b + "}", p[2..]);
        BracedErased(p[0], p[1]);
      } else {
        assert p == a + p[1..];
        ErasedConcat(a, p[1..]);
        ErasedConcat("{" + a + "}", p[1..]);
        OneErased(p[0]);
      }
    }
  }

  lemma OneErased(a: char)
    ensures Erased("{" + [a] + "}") == Erased([a])
  {
    ErasedConcat("{" + [a], "}");
    ErasedConcat("{", [a]);
    assert Erased("{") == "" && Erased("}") == "";
  }

  lemma BracedErased(a: char, b: char)
    ensures Erased("{" + [a] + "}{" + [b] + "}") == Erased([a]) + Erased([b])
  {
    assert "{" + [a] + "}{" + [b] + "}" == ("{" + [a] + "}") + ("{" + [b] + "}");
    ErasedConcat("{" + [a] + "}", "{" + [b] + "}");
    OneErased(a);
    OneErased(b);
  }

  lemma {:induction false} JoinErased(ps: seq<string>, qs: seq<string>)
    requires ps != [] && |qs| == |ps| && forall i :: 0 <= i < |ps| ==> Erased(qs[i]) == Erased(ps[i])
    ensures Erased(Join(qs, FRAC)) == Erased(Join(ps, FRAC))
    decreases |ps|
  {
    if |ps| > 1 {
      JoinErased(ps[1..], qs[1..]);
      ErasedConcat(ps[0], FRAC + Join(ps[1..], FRAC));
      ErasedConcat(qs[0], FRAC + Join(qs[1..], FRAC));
      ErasedConcat(FRAC, Join(ps[1..], FRAC));
      ErasedConcat(FRAC, Join(qs[1..], FRAC));
    }
  }

  /** Fixing fractions changes nothing but braces. */
  lemma FixFracsKeepsText(s: string)
    ensures Erased(FixFracs(s)) == Erased(s)
  {
    var ps := Split(s, FRAC);
    JoinSplit(s, FRAC);
    if Fixable(ps[1..]) {
      var qs := [ps[0]] + FixPieces(ps[1..]);
      forall i | 0 <= i < |ps|
        ensures Erased(qs[i]) == Erased(ps[i])
      {
        if i > 0 {
          assert ps[1..][i - 1] == ps[i];
          FixPieceErased(ps[i]);
        }
      }
      JoinErased(ps, qs);
    }
  }

  lemma FracPlain()
    ensures Plain(FRAC)
  {
  }

  /** A fraction command contains no brace. */
  lemma NoBraceInside(s: string, i: nat, k: nat)
    requires Occurs(s, FRAC, i) && i <= k < i + |FRAC|
    ensures s[k] != '{' && s[k] != '}'
  {
    assert s[i..i + |FRAC|][k - i] == s[k];
  }

  lemma FixPieceFree(p: string)
    requires Free(p, FRAC) && FixPiece(p).Some?
    ensures Free(FixPiece(p).value, FRAC) && FixPiece(p).value != "" && FixPiece(p).value[0] == '{'
  {
    if p[0] != '{' {
      var q := FixPiece(p).value;
      var n := if p[1] != '{' then 6 else 3;
      var rest := if p[1] != '{' then p[2..] else p[1..];
      SliceFree(p, FRAC, if p[1] != '{' then 2 else 1);
      assert q[n..] == rest;
      forall i: nat
        ensures !Occurs(q, FRAC, i)
      {
        if i >= n && i + |FRAC| <= |q| {
          assert q[i..i + |FRAC|] == rest[i - n..i - n + |FRAC|];
          assert !Occurs(rest, FRAC, i - n);
        } else if i < n {
          FirstBrace(q, i, n);
        }
      }
    }
  }

  lemma FirstBrace(q: string, i: nat, n: nat)
    requires i < n <= |q| && (n == 3 || n == 6) && q[0] == '{' && q[2] == '}' && q[n - 1] == '}'
    requires n == 6 ==> q[3] == '{'
    ensures !Occurs(q, FRAC, i)
  {
    if Occurs(q, FRAC, i) {
      NoBraceInside(q, i, if i == 0 then 0 else if i <= 2 then 2 else if i == 3 then 3 else 5);
    }
  }

  ghost predicate Braced(s: string, i: nat)
  {
    i + |FRAC| < |s| && s[i + |FRAC|] == '{'
  }

  /** Every fraction command is immediately followed by an opening brace. */
  ghost predicate AllBraced(s: string)
  {
    forall i: nat :: Occurs(s, FRAC, i) ==> Braced(s, i)
  }

  lemma {:induction false} JoinBraced(ps: seq<string>)
    requires ps != [] && AllFree(ps, FRAC) && forall i :: 1 <= i < |ps| ==> ps[i] != "" && ps[i][0] == '{'
    ensures AllBraced(Join(ps, FRAC))
    decreases |ps|
  {
    if |ps| == 1 {
      assert Free(ps[0], FRAC);
    } else {
      var p, rest, s := ps[0], Join(ps[1..], FRAC), Join(ps, FRAC);
      JoinBraced(ps[1..]);
      assert Free(p, FRAC) && rest[0] == '{';
      forall i: nat | Occurs(s, FRAC, i)
        ensures Braced(s, i)
      {
        FracPlain();
        OccursAfter(p, FRAC, rest, i);
        if i != |p| {
          assert Braced(rest, i - |p| - |FRAC|);
        }
      }
    }
  }

  lemma {:induction false} JoinUnbraced(ps: seq<string>, i: nat)
    requires 1 <= i < |ps| && AllFree(ps, FRAC) && FixPiece(ps[i]).None?
    ensures !AllBraced(Join(ps, FRAC))
    decreases i
  {
    var p, rest, s := ps[0], Join(ps[1..], FRAC), Join(ps, FRAC);
    assert Free(p, FRAC);
    FracPlain();
    if i == 1 {
      OccursAfter(p, FRAC, rest, |p|);
      assert rest == "" || rest[0] != '{';
      assert !Braced(s, |p|);
    } else {
      JoinUnbraced(ps[1..], i - 1);
      var k: nat :| Occurs(rest, FRAC, k) && !Braced(rest, k);
      OccursAfter(p, FRAC, rest, |p| + |FRAC| + k);
      assert !Braced(s, |p| + |FRAC| + k);
    }
  }

  /** The result is the input, or every fraction command in it has its brace.  The latter fails exactly if some
      command is followed by fewer than two characters, not starting with a brace, before the next command. */
  lemma FixFracsBracesIff(s: string)
    ensures AllBraced(FixFracs(s)) <==> Fixable(Split(s, FRAC)[1..])
    ensures !Fixable(Split(s, FRAC)[1..]) ==> FixFracs(s) == s
  {
    var ps := Split(s, FRAC);
    SplitFree(s, FRAC);
    JoinSplit(s, FRAC);
    if Fixable(ps[1..]) {
      FixedPiecesFree(ps);
      JoinBraced([ps[0]] + FixPieces(ps[1..]));
    } else {
      var i :| 0 <= i < |ps[1..]| && FixPiece(ps[1..][i]).None?;
      JoinUnbraced(ps, i + 1);
    }
  }

  lemma FixedPiecesFree(ps: seq<string>)
    requires ps != [] && AllFree(ps, FRAC) && Fixable(ps[1..])
    ensures var qs := [ps[0]] + FixPieces(ps[1..]);
            AllFree(qs, FRAC) && forall i :: 1 <= i < |qs| ==> qs[i] != "" && qs[i][0] == '{'
  {
    var qs := [ps[0]] + FixPieces(ps[1..]);
    assert Free(ps[0], FRAC);
    forall i | 1 <= i < |qs|
      ensures Free(qs[i], FRAC) && qs[i] != "" && qs[i][0] == '{'
    {
      assert ps[1..][i - 1] == ps[i] && Free(ps[i], FRAC);
      FixPieceFree(ps[i]);
    }
  }

  lemma BracedUnchanged(qs: seq<string>)
    requires qs != [] && AllFree(qs, FRAC) && forall i :: 1 <= i < |qs| ==> qs[i] != "" && qs[i][0] == '{'
    ensures FixFracs(Join(qs, FRAC)) == Join(qs, FRAC)
  {
    FracPlain();
    SplitJoin(qs, FRAC);
    BracedFixed(qs[1..]);
    assert [qs[0]] + qs[1..] == qs;
  }

  lemma BracedFixed(qs: seq<string>)
    requires forall i :: 0 <= i < |qs| ==> qs[i] != "" && qs[i][0] == '{'
    ensures Fixable(qs) && FixPieces(qs) == qs
  {
  }

  /** Fixing twice is fixing once, on all texts. */
  lemma FixFracsIdempotent(s: string)
    ensures FixFracs(FixFracs(s)) == FixFracs(s)
  {
    var ps := Split(s, FRAC);
    if Fixable(ps[1..]) {
      SplitFree(s, FRAC);
      FixedPiecesFree(ps);
      BracedUnchanged([ps[0]] + FixPieces(ps[1..]));
    }
  }

  // ----- what becomes of each command

  /** The text after a command: an argument in braces, two arguments without, one without and one in braces, or less
      than that. */
  datatype Command =
    | InBraces(rest: string)
    | Bare(a: char, b: char, rest: string)
    | HalfBare(a: char, rest: string)
    | Short(rest: string)

  ghost predicate WellRead(c: Command)
  {
    match c
    case InBraces(_) => true
    case Bare(a, b, _) => a != '{' && b != '{'
    case HalfBare(a, _) => a != '{'
    case Short(rest) => |rest| <= 1 && rest != "{"
  }

  function Source(c: Command): string
  {
    match c
    case InBraces(rest) => "{" + rest
    case Bare(a, b, rest) => [a, b] + rest
    case HalfBare(a, rest) => [a] + "{" + rest
    case Short(rest) => rest
  }

  function Repaired(c: Command): string
  {
    match c
    case InBraces(rest) => "{" + rest
    case Bare(a, b, rest) => "{" + [a] + "}{" + [b] + "}" + rest
    case HalfBare(a, rest) => "{" + [a] + "}{" + rest
    case Short(rest) => rest
  }

  function Sources(cs: seq<Command>): (ps: seq<string>)
    ensures |ps| == |cs| && forall i :: 0 <= i < |cs| ==> ps[i] == Source(cs[i])
  {
    seq(|cs|, i requires 0 <= i < |cs| => Source(cs[i]))
  }

  function Repairs(cs: seq<Command>): (ps: seq<string>)
    ensures |ps| == |cs| && forall i :: 0 <= i < |cs| ==> ps[i] == Repaired(cs[i])
  {
    seq(|cs|, i requires 0 <= i < |cs| => Repaired(cs[i]))
  }

  lemma PieceRepaired(c: Command)
    requires WellRead(c)
    ensures FixPiece(Source(c)) == if c.Short? then None else Some(Repaired(c))
  {
    match c
    case InBraces(rest) =>
    case Bare(a, b, rest) => assert ([a, b] + rest)[2..] == rest;
    case HalfBare(a, rest) =>
      assert ([a] + "{" + rest)[1..] == "{" + rest;
      assert "{" + [a] + "}" + ("{" + rest) == "{" + [a] + "}{" + rest;
    case Short(rest) =>
  }

  /** What fixing does to a text with any number of commands: every bare argument gets its braces and nothing else
      changes, unless some command has too few characters after it; then nothing changes at all. */
  lemma CommandsAreRepaired(pre: string, cs: seq<Command>)
    requires AllFree([pre] + Sources(cs), FRAC) && forall i :: 0 <= i < |cs| ==> WellRead(cs[i])
    ensures FixFracs(Join([pre] + Sources(cs), FRAC))
            == Join([pre] + if exists i :: 0 <= i < |cs| && cs[i].Short? then Sources(cs) else Repairs(cs), FRAC)
  {
    hide Split;
    hide Join;
    var ps := [pre] + Sources(cs);
    FracPlain();
    SplitJoin(ps, FRAC);
    assert ps[1..] == Sources(cs);
    forall i | 0 <= i < |cs|
      ensures FixPiece(Sources(cs)[i]) == if cs[i].Short? then None else Some(Repaired(cs[i]))
    {
      PieceRepaired(cs[i]);
    }
    if i :| 0 <= i < |cs| && cs[i].Short? {
      assert FixPiece(Sources(cs)[i]).None?;
    } else {
      assert FixPieces(Sources(cs)) == Repairs(cs);
    }
  }

  /** Every text can be read so. */
  lemma EveryTextIsRead(s: string) returns (pre: string, cs: seq<Command>)
    ensures s == Join([pre] + Sources(cs), FRAC) && AllFree([pre] + Sources(cs), FRAC)
    ensures forall i :: 0 <= i < |cs| ==> WellRead(cs[i])
  {
    hide Split;
    var ps := Split(s, FRAC);
    SplitFree(s, FRAC);
    JoinSplit(s, FRAC);
    pre := ps[0];
    cs := ReadAll(ps[1..]);
    assert [pre] + Sources(cs) == ps;
  }

  lemma {:induction false} ReadAll(ps: seq<string>) returns (cs: seq<Command>)
    ensures Sources(cs) == ps && forall i :: 0 <= i < |cs| ==> WellRead(cs[i])
    decreases |ps|
  {
    if ps == [] {
      cs := [];
    } else {
      var init := ReadAll(ps[..|ps| - 1]);
      var c := ReadOne(ps[|ps| - 1]);
      cs := init + [c];
      assert Sources(cs) == Sources(init) + [Source(c)];
    }
  }

  lemma ReadOne(p: string) returns (c: Command)
    ensures WellRead(c) && Source(c) == p
  {
    if |p| > 0 && p[0] == '{' {
      c := InBraces(p[1..]);
    } else if |p| < 2 {
      c := Short(p);
    } else if p[1] == '{' {
      c := HalfBare(p[0], p[2..]);
      assert p == [p[0]] + "{" + p[2..];
    } else {
      c := Bare(p[0], p[1], p[2..]);
    }
  }

  /** One command, written out. */
  lemma OneCommand(pre: string, a: char, b: char, post: string)
    requires Free(pre, FRAC) && Free([a, b] + post, FRAC) && a != '{'
    ensures FixFracs(pre + FRAC + [a, b] + post)
            == if b != '{' then pre + FRAC + "{" + [a] + "}{" + [b] + "}" + post
               else pre + FRAC + "{" + [a] + "}" + [b] + post
  {
    hide FixFracs;
    hide Source;
    hide Repaired;
    hide Free;
    var c := if b != '{' then Bare(a, b, post) else HalfBare(a, post);
    SourceOf(a, b, post);
    CommandAlone(pre, c);
    RepairOf(pre, a, b, post);
    Grouped(pre, FRAC, [a, b] + post);
    assert pre + FRAC + [a, b] + post == pre + FRAC + ([a, b] + post);
  }

  lemma CommandAlone(pre: string, c: Command)
    requires Free(pre, FRAC) && Free(Source(c), FRAC) && WellRead(c) && !c.Short?
    ensures FixFracs(pre + (FRAC + Source(c))) == pre + (FRAC + Repaired(c))
  {
    hide FixFracs;
    hide Source;
    hide Repaired;
    hide Free;
    assert Sources([c]) == [Source(c)] && Repairs([c]) == [Repaired(c)];
    assert [pre] + [Source(c)] == [pre, Source(c)] && [pre] + [Repaired(c)] == [pre, Repaired(c)];
    CommandsAreRepaired(pre, [c]);
    JoinTwo(pre, Source(c));
    JoinTwo(pre, Repaired(c));
  }

  lemma SourceOf(a: char, b: char, post: string)
    ensures Source(if b != '{' then Bare(a, b, post) else HalfBare(a, post)) == [a, b] + post
  {
    assert [a] + "{" + post == [a, '{'] + post;
  }

  lemma RepairOf(pre: string, a: char, b: char, post: string)
    ensures pre + (FRAC + Repaired(if b != '{' then Bare(a, b, post) else HalfBare(a, post)))
            == if b != '{' then pre + FRAC + "{" + [a] + "}{" + [b] + "}" + post
               else pre + FRAC + "{" + [a] + "}" + [b] + post
  {
    var bare, half := "{" + [a] + "}{" + [b] + "}" + post, "{" + [a] + "}{" + post;
    Grouped(pre, FRAC, bare);
    Grouped(pre, FRAC, half);
    if b != '{' {
      assert pre + FRAC + bare == pre + FRAC + "{" + [a] + "}{" + [b] + "}" + post;
    } else {
      assert pre + FRAC + half == pre + FRAC + "{" + [a] + "}" + [b] + post;
    }
  }

  lemma Grouped(a: string, b: string, c: string)
    ensures a + (b + c) == a + b + c
  {
  }

  lemma JoinTwo(a: string, b: string)
    ensures Join([a, b], FRAC) == a + (FRAC + b)
  {
    assert [a, b][1..] == [b];
  }
}
