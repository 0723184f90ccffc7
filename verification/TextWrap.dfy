/** The greedy line breaker of the profile help text, against the best
    possible partition into lines. */
module TextWrap {
  import opened Basics

  /** Words are never empty: they come from splitting text at white space. */
  type Word = w: string | |w| > 0 witness "w"

  type Line = seq<Word>

  function Chars(line: Line): nat {
    if line == [] then 0 else |line[0]| + Chars(line[1..])
  }

  /** The length of the words joined with single spaces. */
  function Width(line: Line): nat {
    if line == [] then 0 else Chars(line) + |line| - 1
  }

  function Flatten(lines: seq<Line>): Line {
    if lines == [] then [] else Flatten(lines[..|lines| - 1]) + lines[|lines| - 1]
  }

  /** Every line has a word, and only a word on its own may be too long. */
  ghost predicate Fits(lines: seq<Line>, width: int) {
    forall i :: 0 <= i < |lines| ==> lines[i] != [] && (|lines[i]| >= 2 ==> Width(lines[i]) <= width)
  }

  /** No line had room for the word that starts the next one. */
  ghost predicate Greedy(lines: seq<Line>, width: int) {
    forall i :: 0 <= i < |lines| - 1 && lines[i + 1] != [] ==> Width(lines[i] + [lines[i + 1][0]]) > width
  }

  lemma {:induction false} CharsOfBoth(a: Line, b: Line)
    ensures Chars(a + b) == Chars(a) + Chars(b)
  {
    if a == [] {
      assert a + b == b;
    } else {
      CharsOfBoth(a[1..], b);
      assert (a + b)[1..] == a[1..] + b;
    }
  }

  lemma WidthOfLast(line: Line, w: Word)
    ensures Width(line + [w]) == if line == [] then |w| else Width(line) + 1 + |w|
  {
    CharsOfBoth(line, [w]);
  }

  lemma {:induction false} JoinWidth(line: Line)
    ensures |Join(line, " ")| == Width(line)
  {
    if |line| == 1 {
      assert line == [] + [line[0]];
      WidthOfLast([], line[0]);
    } else if |line| > 1 {
      JoinWidth(line[..|line| - 1]);
      WidthOfLast(line[..|line| - 1], line[|line| - 1]);
      assert line[..|line| - 1] + [line[|line| - 1]] == line;
    }
  }

  lemma FlattenLast(lines: seq<Line>, line: Line)
    ensures Flatten(lines + [line]) == Flatten(lines) + line
  {
    assert (lines + [line])[..|lines + [line]| - 1] == lines;
  }

  lemma {:induction false} FlattenFirst(lines: seq<Line>)
    requires lines != []
    ensures Flatten(lines) == lines[0] + Flatten(lines[1..])
  {
    if |lines| > 1 {
      var init := lines[..|lines| - 1];
      FlattenFirst(init);
      assert lines[1..][..|lines[1..]| - 1] == init[1..];
      assert lines[1..][|lines[1..]| - 1] == lines[|lines| - 1];
    } else {
      assert Flatten(lines[..0]) == [];
    }
  }

  /** Part of a line is never wider than the line. */
  lemma PartIsNarrower(before: Line, part: Line, after: Line)
    ensures Width(part) <= Width(before + part + after)
  {
    CharsOfBoth(before, part);
    CharsOfBoth(before + part, after);
  }

  lemma Remainder(x: Line, y: Line, p: Line, q: Line)
    requires x + y == p + q && |p| <= |x|
    ensures q == x[|p|..] + y
  {
    assert q == (p + q)[|p|..];
    assert x[|p|..] + y == (x + y)[|p|..];
  }

  /** A line that starts no later than the greedy one cannot end after it. */
  lemma NoRoomForMore(before: Line, g: Line, rest: Line, p: Line, others: Line, width: int)
    requires before + (g + rest) == p + others
    requires g != [] && rest != [] && Width(g + [rest[0]]) > width
    requires |p| >= 2 ==> Width(p) <= width
    ensures |p| <= |before| + |g|
  {
    if |p| > |before| + |g| {
      var all := p + others;
      var after := p[|before| + |g| + 1..];
      assert p == all[..|p|];
      assert p == before + (g + [rest[0]]) + after;
      PartIsNarrower(before, g + [rest[0]], after);
    }
  }

  /** Greedy lines are never behind: when what is left to lay out greedily is
      a suffix of what another partition has left, greedy needs no more lines. */
  lemma {:induction false} GreedyStaysAhead(before: Line, greedy: seq<Line>, other: seq<Line>, width: int)
    requires Fits(greedy, width) && Greedy(greedy, width) && Fits(other, width)
    requires Flatten(other) == before + Flatten(greedy)
    ensures |greedy| <= |other|
    decreases |greedy|
  {
    if greedy != [] {
      FlattenFirst(greedy);
      assert other != [] by {
        assert |Flatten(other)| >= |greedy[0]| > 0;
      }
      FlattenFirst(other);
      var g, rest, p := greedy[0], Flatten(greedy[1..]), other[0];
      if |greedy| > 1 {
        FlattenFirst(greedy[1..]);
        assert rest[0] == greedy[1][0];
        NoRoomForMore(before, g, rest, p, Flatten(other[1..]), width);
      } else {
        assert rest == [];
        assert |p| <= |Flatten(other)|;
      }
      var before' := (before + g)[|p|..];
      assert (before + g) + rest == p + Flatten(other[1..]);
      Remainder(before + g, rest, p, Flatten(other[1..]));
      GreedyStaysAhead(before', greedy[1..], other[1..], width);
    }
  }

  /** No partition of the same words uses fewer lines. */
  lemma GreedyIsOptimal(greedy: seq<Line>, other: seq<Line>, width: int)
    requires Fits(greedy, width) && Greedy(greedy, width)
    requires Fits(other, width) && Flatten(other) == Flatten(greedy)
    ensures |greedy| <= |other|
  {
    assert Flatten(other) == [] + Flatten(greedy);
    GreedyStaysAhead([], greedy, other, width);
  }

  lemma {:induction false} WordsOfLines(lines: seq<Line>, w: Word)
    ensures w in Flatten(lines) <==> exists i :: 0 <= i < |lines| && w in lines[i]
  {
    if lines != [] {
      var init, last := lines[..|lines| - 1], lines[|lines| - 1];
      WordsOfLines(init, w);
      if i :| 0 <= i < |init| && w in init[i] {
        assert w in lines[i];
      }
      if i :| 0 <= i < |lines| && w in lines[i] {
        assert i < |init| ==> w in init[i];
      }
    }
  }

  /** A word is no wider than the line it is on. */
  lemma WordIsNarrower(line: Line, w: Word)
    requires w in line
    ensures |w| <= Width(line)
  {
    var j :| 0 <= j < |line| && line[j] == w;
    assert line == line[..j] + [w] + line[j + 1..];
    PartIsNarrower(line[..j], [w], line[j + 1..]);
    assert [] + [w] == [w];
    WidthOfLast([], w);
  }

  lemma SingleWord(line: Line)
    requires |line| == 1
    ensures Width(line) == |line[0]|
  {
    assert line == [] + [line[0]];
    WidthOfLast([], line[0]);
  }

  /** The documented bound, "lines of at most width", holds exactly when no
      single word of the text is longer than the width. */
  lemma AllLinesFitIffAllWordsFit(words: Line, lines: seq<Line>, width: int)
    requires Fits(lines, width) && Flatten(lines) == words
    ensures (forall i :: 0 <= i < |lines| ==> Width(lines[i]) <= width) <==> (forall k :: 0 <= k < |words| ==> |words[k]| <= width)
  {
    if forall i :: 0 <= i < |lines| ==> Width(lines[i]) <= width {
      forall k | 0 <= k < |words|
        ensures |words[k]| <= width
      {
        WordsOfLines(lines, words[k]);
        var i :| 0 <= i < |lines| && words[k] in lines[i];
        WordIsNarrower(lines[i], words[k]);
      }
    }
    if forall k :: 0 <= k < |words| ==> |words[k]| <= width {
      forall i | 0 <= i < |lines|
        ensures Width(lines[i]) <= width
      {
        if |lines[i]| == 1 {
          SingleWord(lines[i]);
          WordsOfLines(lines, lines[i][0]);
        }
      }
    }
  }

  /** A text of one word longer than the width has one line, over the width. */
  lemma OneLongWord(w: Word, width: int)
    requires |w| > width
    ensures Fits([[w]], width) && Flatten([[w]]) == [w] && Width([w]) > width
  {
    SingleWord([w]);
    assert [[w]][..0] == [];
  }

  lemma EveryPartitionIsLonger(greedy: seq<Line>, width: int)
    requires Fits(greedy, width) && Greedy(greedy, width)
    ensures forall other :: Fits(other, width) && Flatten(other) == Flatten(greedy) ==> |greedy| <= |other|
  {
    forall other | Fits(other, width) && Flatten(other) == Flatten(greedy)
      ensures |greedy| <= |other|
    {
      GreedyIsOptimal(greedy, other, width);
    }
  }

  /** What the loop has laid out: full lines and the line being filled. */
  ghost predicate LaidOut(words: Line, full: seq<Line>, cur: Line, width: int) {
    if cur == [] then words == [] && full == []
    else Flatten(full + [cur]) == words && Fits(full + [cur], width) && Greedy(full + [cur], width)
  }

  lemma FillLine(words: Line, full: seq<Line>, cur: Line, w: Word, width: int)
    requires LaidOut(words, full, cur, width)
    requires cur != [] ==> Width(cur + [w]) <= width
    ensures LaidOut(words + [w], full, cur + [w], width)
  {
    FlattenLast(full, cur);
    FlattenLast(full, cur + [w]);
    assert Flatten(full) + (cur + [w]) == Flatten(full) + cur + [w];
    assert words == Flatten(full) + cur;
    assert cur != [] ==> (cur + [w])[0] == cur[0];
    var old', new' := full + [cur], full + [cur + [w]];
    assert cur != [] ==> forall i :: 0 <= i < |full| ==> new'[i] == old'[i];
    assert cur != [] && |full| > 0 ==> Width(old'[|full| - 1] + [old'[|full|][0]]) > width;
  }

  lemma BreakLine(words: Line, full: seq<Line>, cur: Line, w: Word, width: int)
    requires LaidOut(words, full, cur, width) && cur != []
    requires Width(cur + [w]) > width
    ensures LaidOut(words + [w], full + [cur], [w], width)
  {
    FlattenLast(full + [cur], [w]);
    var old', new' := full + [cur], full + [cur] + [[w]];
    assert forall i :: 0 <= i <= |full| ==> new'[i] == old'[i];
  }

  lemma LongLinesFit(lines: seq<string>, layout: seq<Line>, width: int)
    requires Renders(lines, layout) && Fits(layout, width)
    ensures forall i :: 0 <= i < |lines| && |layout[i]| >= 2 ==> |lines[i]| <= width
    ensures (forall i :: 0 <= i < |lines| ==> |lines[i]| <= width) <==> (forall i :: 0 <= i < |layout| ==> Width(layout[i]) <= width)
  {
    forall i | 0 <= i < |lines|
      ensures |lines[i]| == Width(layout[i])
    {
      JoinWidth(layout[i]);
    }
  }

  /** lines renders layout. */
  ghost predicate Renders(lines: seq<string>, layout: seq<Line>) {
    |lines| == |layout| && forall i :: 0 <= i < |lines| ==> lines[i] == Join(layout[i], " ")
  }

  /** The greedy loop over the words of the text. layout is the partition the
      returned lines render. */
  method LayOut(words: seq<Word>, width: int) returns (lines: seq<string>, ghost layout: seq<Line>)
    ensures Flatten(layout) == words && Fits(layout, width) && Greedy(layout, width) && Renders(lines, layout)
  {
    lines, layout := [], [];
    var cur: Line := [];
    var n := 0;
    for k := 0 to |words|
      invariant LaidOut(words[..k], layout, cur, width)
      invariant n == Width(cur) && (n > 0 <==> cur != [])
      invariant Renders(lines, layout)
    {
      var w := words[k];
      assert words[..k + 1] == words[..k] + [w];
      WidthOfLast(cur, w);
      WidthOfLast([], w);
      assert [] + [w] == [w];
      if n > 0 && n + 1 + |w| > width {
        BreakLine(words[..k], layout, cur, w, width);
        lines := lines + [Join(cur, " ")];
        layout := layout + [cur];
        cur, n := [], 0;
      } else {
        FillLine(words[..k], layout, cur, w, width);
      }
      if n > 0 {
        n := n + 1;
      }
      cur := cur + [w];
      n := n + |w|;
    }
    assert words[..|words|] == words;
    if |cur| > 0 {
      lines := lines + [Join(cur, " ")];
      layout := layout + [cur];
    }
  }

  /** The lines of the text: they make up its words again, no partition into lines
      that fit has fewer, and all are within the width if and only if every word
      is. */
  method Wrap(words: seq<Word>, width: int) returns (lines: seq<string>, ghost layout: seq<Line>)
    ensures Flatten(layout) == words && Fits(layout, width) && Renders(lines, layout)
    ensures forall i :: 0 <= i < |lines| && |layout[i]| >= 2 ==> |lines[i]| <= width
    ensures forall other :: Fits(other, width) && Flatten(other) == words ==> |lines| <= |other|
    ensures (forall i :: 0 <= i < |lines| ==> |lines[i]| <= width) <==> (forall k :: 0 <= k < |words| ==> |words[k]| <= width)
  {
    lines, layout := LayOut(words, width);
    LongLinesFit(lines, layout, width);
    AllLinesFitIffAllWordsFit(words, layout, width);
    EveryPartitionIsLonger(layout, width);
  }
}
