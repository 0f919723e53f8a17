/** Taking answers out of their boxes. */
module BoxedAnswers {
  import opened Options
  import opened TextSplit

  const BOXED := "boxed{"

  /** Opening minus closing braces among the first `i` characters. */
  function Depth(s: string, i: nat): int
    requires i <= |s|
  {
    if i == 0 then 0
    else Depth(s, i - 1) + if s[i - 1] == '{' then 1 else if s[i - 1] == '}' then -1 else 0
  }

  ghost predicate Above(s: string, n: nat)
    requires n <= |s|
  {
    forall i :: 0 <= i <= n ==> Depth(s, i) >= 0
  }

  /** The first closing brace without a partner is at `i`. */
  ghost predicate ClosesAt(s: string, i: nat)
  {
    i < |s| && Above(s, i) && Depth(s, i + 1) < 0
  }

  ghost predicate Balanced(s: string)
  {
    Above(s, |s|) && Depth(s, |s|) == 0
  }

  /** What is kept of a piece that is closed at `i`: the closing brace stays if a percent sign follows. */
  function CutAt(piece: string, i: nat): string
    requires i < |piece|
  {
    if i + 1 < |piece| && piece[i + 1] == '%' then piece[..i + 1] else piece[..i]
  }

  ghost predicate IsAnswer(piece: string, r: Option<string>)
  {
    if Above(piece, |piece|) then r.None?
    else r.Some? && exists i :: ClosesAt(piece, i) && r.value == CutAt(piece, i)
  }

  method Cut(piece: string) returns (r: Option<string>)
    ensures IsAnswer(piece, r)
  {
    var n := 0;
    for i := 0 to |piece|
      invariant n == Depth(piece, i) && Above(piece, i)
    {
      if piece[i] == '{' {
        n := n + 1;
      } else if piece[i] == '}' {
        n := n - 1;
        if n < 0 {
          assert ClosesAt(piece, i);
          return Some(CutAt(piece, i));
        }
      }
    }
    r := None;
  }

  ghost predicate AreAnswers(pieces: seq<string>, answers: seq<string>)
    decreases |pieces|
  {
    if pieces == [] then answers == []
    else
      var init, last := pieces[..|pieces| - 1], pieces[|pieces| - 1];
      if Above(last, |last|) then AreAnswers(init, answers)
      else answers != [] && IsAnswer(last, Some(answers[|answers| - 1])) && AreAnswers(init, answers[..|answers| - 1])
  }

  /** Each piece behind a box opening is cut at its first unmatched closing brace; pieces without one are skipped. */
  method ExtractBoxedAnswers(text: string) returns (answers: seq<string>)
    ensures AreAnswers(Split(text, BOXED)[1..], answers)
  {
    answers := [];
    var pieces := Split(text, BOXED)[1..];
    for i := 0 to |pieces|
      invariant AreAnswers(pieces[..i], answers)
    {
      assert pieces[..i + 1][..i] == pieces[..i] && pieces[..i + 1][i] == pieces[i];
      var answer := Cut(pieces[i]);
      if answer.Some? {
        assert (answers + [answer.value])[..|answers|] == answers;
        answers := answers + [answer.value];
      }
    }
    assert pieces[..|pieces|] == pieces;
  }

  // ----- round trip

  lemma {:induction false} DepthPrefix(s: string, t: string, i: nat)
    requires i <= |s|
    ensures Depth(s + t, i) == Depth(s, i)
    decreases i
  {
    if i > 0 {
      DepthPrefix(s, t, i - 1);
    }
  }

  /** There is only one first unmatched brace. */
  lemma ClosesOnce(s: string, i: nat, j: nat)
    requires ClosesAt(s, i) && ClosesAt(s, j)
    ensures i == j
  {
  }

  function Piece(answer: string, after: string): string
  {
    answer + ("}" + after)
  }

  function Percent(after: string): bool
  {
    after != "" && after[0] == '%'
  }

  /** A balanced answer is closed by its own box. */
  lemma BalancedCloses(answer: string, after: string)
    requires Balanced(answer)
    ensures ClosesAt(Piece(answer, after), |answer|)
    ensures CutAt(Piece(answer, after), |answer|) == if Percent(after) then answer + "}" else answer
  {
    var piece := Piece(answer, after);
    forall i | 0 <= i <= |answer|
      ensures Depth(piece, i) == Depth(answer, i)
    {
      DepthPrefix(answer, "}" + after, i);
    }
    assert piece[..|answer|] == answer;
    assert piece[..|answer| + 1] == answer + "}";
  }

  /** A box gives back what was put into it exactly if that is balanced and no percent sign follows. */
  lemma BoxedIff(answer: string, after: string)
    ensures IsAnswer(Piece(answer, after), Some(answer)) <==> Balanced(answer) && !Percent(after)
  {
    var piece := Piece(answer, after);
    if Balanced(answer) {
      BalancedCloses(answer, after);
      assert Depth(piece, |answer| + 1) < 0;
      forall i | ClosesAt(piece, i)
        ensures i == |answer|
      {
        ClosesOnce(piece, i, |answer|);
      }
    } else {
      forall i | ClosesAt(piece, i)
        ensures CutAt(piece, i) != answer
      {
        UnbalancedDiffers(answer, after, i);
      }
    }
  }

  lemma UnbalancedDiffers(answer: string, after: string, i: nat)
    requires !Balanced(answer) && ClosesAt(Piece(answer, after), i)
    ensures CutAt(Piece(answer, after), i) != answer
  {
    var piece := Piece(answer, after);
    forall k | 0 <= k <= |answer|
      ensures Depth(piece, k) == Depth(answer, k)
    {
      DepthPrefix(answer, "}" + after, k);
    }
    assert piece[|answer|] == '}' && Depth(piece, |answer| + 1) == Depth(piece, |answer|) - 1;
  }

  datatype Box = Box(answer: string, after: string)

  function Pieces(boxes: seq<Box>): (ps: seq<string>)
    ensures |ps| == |boxes| && forall i :: 0 <= i < |boxes| ==> ps[i] == Piece(boxes[i].answer, boxes[i].after)
  {
    seq(|boxes|, i requires 0 <= i < |boxes| => Piece(boxes[i].answer, boxes[i].after))
  }

  /** A text with boxes in it. */
  function Boxed(before: string, boxes: seq<Box>): string
    decreases |boxes|
  {
    if boxes == [] then before
    else
      var init, last := boxes[..|boxes| - 1], boxes[|boxes| - 1];
      Boxed(before, init) + (BOXED + Piece(last.answer, last.after))
  }

  ghost predicate ValidBox(b: Box)
  {
    Balanced(b.answer) && Free(b.answer, BOXED) && Free(b.after, BOXED)
  }

  function Expected(boxes: seq<Box>): (r: seq<string>)
    ensures |r| == |boxes|
    decreases |boxes|
  {
    if boxes == [] then []
    else
      var init, last := boxes[..|boxes| - 1], boxes[|boxes| - 1];
      Expected(init) + [if Percent(last.after) then last.answer + "}" else last.answer]
  }

  lemma {:induction false} BoxedJoin(before: string, boxes: seq<Box>)
    ensures Boxed(before, boxes) == Join([before] + Pieces(boxes), BOXED)
    decreases |boxes|
  {
    if boxes != [] {
      var init, last := boxes[..|boxes| - 1], boxes[|boxes| - 1];
      BoxedJoin(before, init);
      JoinNext([before] + Pieces(init), Piece(last.answer, last.after), BOXED);
      assert [before] + Pieces(boxes) == ([before] + Pieces(init)) + [Piece(last.answer, last.after)];
    }
  }

  lemma PieceFree(answer: string, after: string)
    requires Free(answer, BOXED) && Free(after, BOXED)
    ensures Free(Piece(answer, after), BOXED)
  {
    var piece, n := Piece(answer, after), |answer|;
    forall i: nat
      ensures !Occurs(piece, BOXED, i)
    {
      if i + |BOXED| <= |piece| {
        if i + |BOXED| <= n {
          assert piece[i..i + |BOXED|] == answer[i..i + |BOXED|];
          assert !Occurs(answer, BOXED, i);
        } else if i <= n {
          assert piece[i..i + |BOXED|][n - i] == '}';
        } else {
          assert piece[i..i + |BOXED|] == after[i - n - 1..i - n - 1 + |BOXED|];
          assert !Occurs(after, BOXED, i - n - 1);
        }
      }
    }
  }

  lemma CutOnce(box: Box, answer: string)
    requires ValidBox(box) && IsAnswer(Piece(box.answer, box.after), Some(answer))
    ensures answer == if Percent(box.after) then box.answer + "}" else box.answer
  {
    var piece := Piece(box.answer, box.after);
    BalancedCloses(box.answer, box.after);
    assert Depth(piece, |box.answer| + 1) < 0;
    var i :| ClosesAt(piece, i) && answer == CutAt(piece, i);
    ClosesOnce(piece, i, |box.answer|);
  }

  lemma {:induction false} ExpectedOnly(boxes: seq<Box>, answers: seq<string>)
    requires forall i :: 0 <= i < |boxes| ==> ValidBox(boxes[i])
    requires AreAnswers(Pieces(boxes), answers)
    ensures answers == Expected(boxes)
    decreases |boxes|
  {
    if boxes != [] {
      var k := |boxes| - 1;
      var init, last := boxes[..k], boxes[k];
      var piece := Piece(last.answer, last.after);
      assert ValidBox(last);
      assert Pieces(boxes)[..k] == Pieces(init);
      BalancedCloses(last.answer, last.after);
      assert Depth(piece, |last.answer| + 1) < 0;
      CutOnce(last, answers[|answers| - 1]);
      ExpectedOnly(init, answers[..|answers| - 1]);
      assert answers == answers[..|answers| - 1] + [answers[|answers| - 1]];
    }
  }

  /** Whatever is extracted from a text with boxes is what was put into them, in order; a box followed by a
      percent sign keeps its closing brace. */
  lemma BoxesRoundTrip(before: string, boxes: seq<Box>, answers: seq<string>)
    requires Free(before, BOXED) && forall i :: 0 <= i < |boxes| ==> ValidBox(boxes[i])
    requires AreAnswers(Split(Boxed(before, boxes), BOXED)[1..], answers)
    ensures answers == Expected(boxes)
  {
    var ps := [before] + Pieces(boxes);
    forall i | 0 <= i < |ps|
      ensures Free(ps[i], BOXED)
    {
      if i > 0 {
        assert ValidBox(boxes[i - 1]);
        PieceFree(boxes[i - 1].answer, boxes[i - 1].after);
      }
    }
    BoxedJoin(before, boxes);
    SplitJoin(ps, BOXED);
    assert ps[1..] == Pieces(boxes);
    ExpectedOnly(boxes, answers);
  }
}
