/** The summary line lookout writes on a cut stream. */
module CutSummary {
  import opened Basics
  import opened Decimal
  import opened Logfmt
  import opened Summary
  import opened Response

  // ----- Notes -------------------------------------------------------------

  function SeverityNote(counts: map<string, nat>): string {
    Fill(["critical:", ",warning:", ",info:", ""], [Get(counts, "critical"), Get(counts, "warning"), Get(counts, "info")])
    + OtherNote(Get(counts, "other"))
  }

  function OtherNote(n: nat): string {
    if n > 0 then ",other:" + Itoa(n) else ""
  }

  /** The texts around the counts of a hint: which end was kept, of what, and
      what would narrow the call. */
  function HintParts(end: string, what: string, narrow: string): seq<string> {
    ["kept the " + end + " ", " of ", " " + what + " to fit the server's ",
     "-byte response limit; " +
     if narrow == "" then "the call already uses every argument that would narrow it" else "narrow the call with " + narrow]
  }

  function Notes(shape: Shape, parts: seq<string>): seq<Pair>
    requires |parts| == 4
  {
    [Pair("response_truncated", Itoa(shape.dropped), false),
     Pair("response_truncated_severity", SeverityNote(shape.counts), false),
     Pair("response_hint", Fill(parts, [shape.kept, shape.total, shape.limit]), false)]
  }

  function Counts(shape: Shape): map<string, nat> {
    map["findings" := shape.kept, "exempt" := shape.exempt]
  }

  function CutPairs(pairs: seq<Pair>, shape: Shape, parts: seq<string>): seq<Pair>
    requires |parts| == 4
  {
    Rewritten(pairs, Counts(shape)) + Notes(shape, parts)
  }

  function LookoutParts(newestLast: bool, narrow: string): (parts: seq<string>)
    ensures |parts| == 4
  {
    HintParts(if newestLast then "newest" else "first", "findings", narrow)
  }

  /** A command whose answers keep this end and are narrowed by narrow. */
  function Lookout(newestLast: bool, narrow: string): Command {
    var parts := LookoutParts(newestLast, narrow);
    Command(newestLast, (sum: SummaryLine, shape: Shape) => Render(sum.json, CutPairs(sum.pairs, shape, parts)))
  }

  // ----- The longest summary -----------------------------------------------

  lemma ShorterOther(m: nat, n: nat)
    requires m <= n
    ensures Shorter(OtherNote(m), OtherNote(n))
  {
    if m > 0 {
      ShorterCount(m, n);
      ShorterBoth(",other:", ",other:", Itoa(m), Itoa(n));
    } else {
      ShorterIfPrefix("", OtherNote(n));
      assert "" + OtherNote(n) == OtherNote(n);
    }
  }

  lemma ShorterSeverityNote(low: map<string, nat>, high: map<string, nat>)
    requires forall b :: Get(low, b) <= Get(high, b)
    ensures Shorter(SeverityNote(low), SeverityNote(high))
  {
    var parts := ["critical:", ",warning:", ",info:", ""];
    var l := [Get(low, "critical"), Get(low, "warning"), Get(low, "info")];
    var h := [Get(high, "critical"), Get(high, "warning"), Get(high, "info")];
    ShorterFill(parts, l, h);
    ShorterOther(Get(low, "other"), Get(high, "other"));
    ShorterBoth(Fill(parts, l), Fill(parts, h), OtherNote(Get(low, "other")), OtherNote(Get(high, "other")));
  }

  lemma ShorterNotes(a: Shape, b: Shape, parts: seq<string>)
    requires |parts| == 4 && AtMost(a, b)
    ensures ShorterPairs(Notes(a, parts), Notes(b, parts))
  {
    ShorterCount(a.dropped, b.dropped);
    ShorterSeverityNote(a.counts, b.counts);
    ShorterFill(parts, [a.kept, a.total, a.limit], [b.kept, b.total, b.limit]);
  }

  lemma ShorterCut(json: bool, pairs: seq<Pair>, a: Shape, b: Shape, parts: seq<string>)
    requires |parts| == 4 && AtMost(a, b)
    ensures |Render(json, CutPairs(pairs, a, parts))| <= |Render(json, CutPairs(pairs, b, parts))|
  {
    ShorterNotes(a, b, parts);
    ShorterSummary(json, pairs, Counts(a), Counts(b), Notes(a, parts), Notes(b, parts));
  }

  /** Rendering every count at its largest bounds the summary that is sent. */
  lemma LookoutGrows(newestLast: bool, narrow: string)
    ensures Grows(Lookout(newestLast, narrow))
  {
    var parts := LookoutParts(newestLast, narrow);
    forall sum: SummaryLine, a: Shape, b: Shape | AtMost(a, b)
      ensures |Lookout(newestLast, narrow).cut(sum, a)| <= |Lookout(newestLast, narrow).cut(sum, b)|
    {
      ShorterCut(sum.json, sum.pairs, a, b, parts);
    }
  }

  // ----- The summary is one line -------------------------------------------

  lemma CutIsOneLine(json: bool, pairs: seq<Pair>, shape: Shape, parts: seq<string>)
    requires |parts| == 4 && OneLine(json, pairs)
    ensures IsLine(Render(json, CutPairs(pairs, shape, parts)))
  {
    var head, notes := Rewritten(pairs, Counts(shape)), Notes(shape, parts);
    var cut := head + notes;
    forall i | 0 <= i < |cut|
      ensures if json then cut[i].number ==> NoNewline(cut[i].value) else ValidKey(cut[i].key)
    {
      if i < |pairs| {
        assert head[i].key == pairs[i].key && (head[i].value == pairs[i].value || exists n :: head[i].value == Itoa(n));
      } else {
        NotesArePlain(shape, parts, i - |pairs|);
      }
    }
    RenderedOnOneLine(json, cut);
    var body :| NoNewline(body) && Render(json, cut) == body + "\n";
    assert (body + "\n")[..|body|] == body;
  }

  /** The decoder's bare numbers are written on one line. */
  ghost predicate PlainNumbers(js: Json) {
    forall line :: js.decode(line).Some? ==> OneLine(true, js.decode(line).value)
  }

  lemma ParsedIsOneLine(js: Json, line: string)
    requires PlainNumbers(js) && ParseSummary(js, line).Some?
    ensures OneLine(ParseSummary(js, line).value.json, ParseSummary(js, line).value.pairs)
  {
  }

  lemma LookoutIsOneLine(newestLast: bool, narrow: string, sum: SummaryLine)
    requires OneLine(sum.json, sum.pairs)
    ensures forall shape :: IsLine(Lookout(newestLast, narrow).cut(sum, shape))
  {
    var parts := LookoutParts(newestLast, narrow);
    forall shape: Shape
      ensures IsLine(Lookout(newestLast, narrow).cut(sum, shape))
    {
      CutIsOneLine(sum.json, sum.pairs, shape, parts);
    }
  }

  // ----- The promises, for lookout's own wording ---------------------------

  /** A cut answer that keeps at least one finding is within the limit. */
  lemma CutFitsLimit(newestLast: bool, narrow: string, s: Stream, out: string, limit: nat, r: Fitted)
    requires s.Stream? && |s.findings| == |s.recs|
    requires IsCut(Lookout(newestLast, narrow), s, out, limit, r) && 0 < r.dropped < |s.findings|
    ensures |r.text| <= limit
  {
    LookoutGrows(newestLast, narrow);
    SizeBound(Lookout(newestLast, narrow), s, out, limit, r);
  }

  /** An answer that was cut is left alone by a second cut at the same limit. */
  lemma CutOnlyOnce(js: Json, newestLast: bool, narrow: string, s: Stream, out: string, limit: nat, r: Fitted)
    requires s.Stream? && |s.findings| == |s.recs| && OneLine(s.sum.json, s.sum.pairs)
    requires IsCut(Lookout(newestLast, narrow), s, out, limit, r) && r.dropped > 0
    ensures ReadStream(js, r.text, limit).Untouched?
  {
    LookoutGrows(newestLast, narrow);
    LookoutIsOneLine(newestLast, narrow, s.sum);
    NothingLeftToCut(js, Lookout(newestLast, narrow), s, out, limit, r);
  }

  /** Cutting lookout's own answers twice at one limit is cutting them once. */
  lemma CutTwiceIsCutOnce(js: Json, newestLast: bool, narrow: string, out: string, limit: int, r: Fitted, r': Fitted)
    requires PlainNumbers(js)
    requires IsFit(js, Lookout(newestLast, narrow), out, limit, r)
    requires IsFit(js, Lookout(newestLast, narrow), r.text, limit, r')
    ensures r' == Fitted(r.text, 0)
  {
    LookoutGrows(newestLast, narrow);
    var s := ReadStream(js, out, limit);
    if s.Stream? {
      StreamSummaryIsRead(js, out, limit);
      LookoutIsOneLine(newestLast, narrow, s.sum);
    }
    Idempotent(js, Lookout(newestLast, narrow), out, limit, r, r');
  }

  lemma CutKeepsHead(pairs: seq<Pair>, shape: Shape, parts: seq<string>)
    requires |parts| == 4 && IsSummary(pairs)
    ensures IsSummary(CutPairs(pairs, shape, parts))
    ensures CutPairs(pairs, shape, parts)[1].value == Itoa(shape.kept)
  {
    AtoiOfItoa(shape.kept);
    var cut := CutPairs(pairs, shape, parts);
    assert forall i :: 0 <= i < 3 ==> cut[i] == Rewritten(pairs, Counts(shape))[i];
  }

  /** The logfmt summary of a cut stream reads back as one, counting exactly
      the findings that were returned. */
  lemma CutReadsBack(js: Json, pairs: seq<Pair>, shape: Shape, parts: seq<string>)
    requires |parts| == 4 && IsSummary(pairs) && OneLine(false, pairs)
    requires forall i :: 0 <= i < |pairs| ==> !pairs[i].number
    ensures var sum := ParseSummary(js, Render(false, CutPairs(pairs, shape, parts)));
            && sum == Some(SummaryLine(false, CutPairs(pairs, shape, parts)))
            && Findings(sum.value) == shape.kept
  {
    CutKeepsHead(pairs, shape, parts);
    AtoiOfItoa(shape.kept);
    CutIsPlain(pairs, shape, parts);
    ReadsBack(js, CutPairs(pairs, shape, parts));
  }

  lemma NoteKeysAreValid()
    ensures ValidKey("response_truncated") && ValidKey("response_truncated_severity") && ValidKey("response_hint")
  {
  }

  lemma NotesArePlain(shape: Shape, parts: seq<string>, i: nat)
    requires |parts| == 4 && i < 3
    ensures ValidKey(Notes(shape, parts)[i].key) && !Notes(shape, parts)[i].number
  {
    NoteKeysAreValid();
  }

  lemma CutIsPlain(pairs: seq<Pair>, shape: Shape, parts: seq<string>)
    requires |parts| == 4 && OneLine(false, pairs)
    requires forall i :: 0 <= i < |pairs| ==> !pairs[i].number
    ensures var cut := CutPairs(pairs, shape, parts);
            forall i :: 0 <= i < |cut| ==> ValidKey(cut[i].key) && !cut[i].number
  {
    var head, notes := Rewritten(pairs, Counts(shape)), Notes(shape, parts);
    var cut := head + notes;
    forall i | 0 <= i < |cut|
      ensures ValidKey(cut[i].key) && !cut[i].number
    {
      if i < |pairs| {
        assert head[i].key == pairs[i].key;
      } else {
        NotesArePlain(shape, parts, i - |pairs|);
      }
    }
  }

  // ----- What the returned text says ---------------------------------------

  /** The decoder reads back what the summary's JSON rendering wrote. */
  ghost predicate Decodes(js: Json, pairs: seq<Pair>) {
    js.decode(Render(true, pairs)) == Some(pairs)
  }

  /** The pairs are the stream's own but for the counts of what was kept, and
      after them come the number dropped and its split by severity. */
  ghost predicate Tells(before: seq<Pair>, after: seq<Pair>, kept: seq<Record>, dropped: seq<Record>) {
    && |after| == |before| + 3
    && (forall i :: 0 <= i < |before| ==> after[i] == before[i].(value :=
          if before[i].key == "findings" then Itoa(|kept|)
          else if before[i].key == "exempt" then Itoa(Exempt(kept))
          else before[i].value))
    && after[|before|] == Pair("response_truncated", Itoa(|dropped|), false)
    && after[|before| + 1] == Pair("response_truncated_severity", SeverityNote(Tally(dropped)), false)
    && AllBuckets(Tally(dropped)) == |dropped|
  }

  lemma CutTells(cmd: Command, s: Stream, limit: nat, n: nat, parts: seq<string>)
    requires |parts| == 4 && s.Stream? && n <= |s.findings| == |s.recs|
    ensures Tells(s.sum.pairs, CutPairs(s.sum.pairs, ShapeOf(cmd, s, limit, n), parts),
                  Kept(s.recs, n, cmd.newestLast), Rest(s.recs, n, cmd.newestLast))
  {
    BucketsSumToAll(Rest(s.recs, n, cmd.newestLast));
    assert "findings"[0] != "exempt"[0];
  }

  /** A cut summary parses back to exactly its pairs, in either format. */
  lemma CutParses(js: Json, sum: SummaryLine, shape: Shape, parts: seq<string>)
    requires |parts| == 4 && IsSummary(sum.pairs) && OneLine(sum.json, sum.pairs)
    requires if sum.json then Decodes(js, CutPairs(sum.pairs, shape, parts))
             else forall i :: 0 <= i < |sum.pairs| ==> !sum.pairs[i].number
    ensures var cut := SummaryLine(sum.json, CutPairs(sum.pairs, shape, parts));
            && ParseSummary(js, Render(sum.json, cut.pairs)) == Some(cut)
            && Findings(cut) == shape.kept
  {
    CutKeepsHead(sum.pairs, shape, parts);
    AtoiOfItoa(shape.kept);
    if sum.json {
      assert Render(true, CutPairs(sum.pairs, shape, parts))[0] == '{';
    } else {
      CutReadsBack(js, sum.pairs, shape, parts);
    }
  }

  lemma ParsedIsText(js: Json, line: string)
    requires ParseSummary(js, line).Some? && !ParseSummary(js, line).value.json
    ensures var pairs := ParseSummary(js, line).value.pairs; forall i :: 0 <= i < |pairs| ==> !pairs[i].number
  {
  }

  /** The line is a summary that tells of n findings kept. */
  ghost predicate Summarises(js: Json, s: Stream, n: nat, newestLast: bool, line: string)
    requires s.Stream? && n <= |s.findings| == |s.recs|
  {
    var sum := ParseSummary(js, line);
    && sum.Some? && sum.value.json == s.sum.json && Findings(sum.value) == n
    && Tells(s.sum.pairs, sum.value.pairs, Kept(s.recs, n, newestLast), Rest(s.recs, n, newestLast))
  }

  lemma SummaryIsRead(js: Json, s: Stream, limit: nat, n: nat, newestLast: bool, narrow: string)
    requires s.Stream? && n <= |s.findings| == |s.recs| && IsSummary(s.sum.pairs) && OneLine(s.sum.json, s.sum.pairs)
    requires DecodesCuts(js, s.sum, newestLast, narrow)
    requires !s.sum.json ==> forall i :: 0 <= i < |s.sum.pairs| ==> !s.sum.pairs[i].number
    ensures var cmd := Lookout(newestLast, narrow);
            Summarises(js, s, n, newestLast, cmd.cut(s.sum, ShapeOf(cmd, s, limit, n)))
  {
    var cmd, parts := Lookout(newestLast, narrow), LookoutParts(newestLast, narrow);
    CutParses(js, s.sum, ShapeOf(cmd, s, limit, n), parts);
    CutTells(cmd, s, limit, n, parts);
  }

  /** The text, read back: the lines before the last are the n findings kept; the
      last is a summary that gives their number, the number dropped, its split by
      severity and the exempt among the lines returned; kept and dropped make up
      the stream. */
  ghost predicate Faithful(js: Json, s: Stream, limit: nat, newestLast: bool, narrow: string, n: nat, text: string)
    requires s.Stream? && n <= |s.findings| == |s.recs|
  {
    && Returns(Lookout(newestLast, narrow), s, limit, Reader(js, s.sum.json), n, text)
    && Summarises(js, s, n, newestLast, Lines(text)[n])
  }

  /** What the decoder must do for a JSON stream; logfmt needs nothing. */
  ghost predicate DecodesCuts(js: Json, sum: SummaryLine, newestLast: bool, narrow: string) {
    sum.json ==> forall shape :: Decodes(js, CutPairs(sum.pairs, shape, LookoutParts(newestLast, narrow)))
  }

  /** What reading gives of a stream and its summary. */
  ghost predicate WellRead(js: Json, s: Stream) {
    && s.Stream? && |s.findings| == |s.recs| && AreLines(s.findings) && Reads(Reader(js, s.sum.json), s.findings, s.recs)
    && IsSummary(s.sum.pairs) && OneLine(s.sum.json, s.sum.pairs)
    && (!s.sum.json ==> forall i :: 0 <= i < |s.sum.pairs| ==> !s.sum.pairs[i].number)
  }

  lemma StreamCutIsFaithful(js: Json, s: Stream, limit: nat, newestLast: bool, narrow: string, n: nat)
    requires WellRead(js, s) && n <= |s.findings| && DecodesCuts(js, s.sum, newestLast, narrow)
    ensures Faithful(js, s, limit, newestLast, narrow, n, CutText(Lookout(newestLast, narrow), s, limit, n))
  {
    LookoutIsOneLine(newestLast, narrow, s.sum);
    CutReturns(Lookout(newestLast, narrow), s, limit, Reader(js, s.sum.json), n);
    SummaryIsRead(js, s, limit, n, newestLast, narrow);
  }

  /** Every answer that was cut is faithful, in both formats and directions. */
  lemma CutIsFaithful(js: Json, newestLast: bool, narrow: string, out: string, limit: int, r: Fitted)
    requires PlainNumbers(js) && IsFit(js, Lookout(newestLast, narrow), out, limit, r) && r.dropped > 0
    requires var s := ReadStream(js, out, limit); s.Stream? ==> DecodesCuts(js, s.sum, newestLast, narrow)
    ensures var s := ReadStream(js, out, limit);
            s.Stream? && r.dropped <= |s.findings| && Faithful(js, s, limit, newestLast, narrow, |s.findings| - r.dropped, r.text)
  {
    var s := ReadStream(js, out, limit);
    StreamIsWellRead(js, out, limit);
    FitIsCutText(js, Lookout(newestLast, narrow), out, limit, r);
    StreamCutIsFaithful(js, s, limit, newestLast, narrow, |s.findings| - r.dropped);
  }

  lemma StreamIsWellRead(js: Json, out: string, limit: int)
    requires PlainNumbers(js) && ReadStream(js, out, limit).Stream?
    ensures WellRead(js, ReadStream(js, out, limit))
  {
    StreamIsRead(js, out, limit);
    StreamSummaryIsRead(js, out, limit);
  }

  lemma StreamSummaryIsRead(js: Json, out: string, limit: int)
    requires PlainNumbers(js) && ReadStream(js, out, limit).Stream?
    ensures var sum := ReadStream(js, out, limit).sum;
            OneLine(sum.json, sum.pairs) && (!sum.json ==> forall i :: 0 <= i < |sum.pairs| ==> !sum.pairs[i].number)
  {
    StreamIsRead(js, out, limit);
    var own := Lines(out)[|Lines(out)| - 1];
    ParsedIsOneLine(js, own);
    if !ReadStream(js, out, limit).sum.json {
      ParsedIsText(js, own);
    }
  }

  lemma ReadsBack(js: Json, pairs: seq<Pair>)
    requires IsSummary(pairs)
    requires forall i :: 0 <= i < |pairs| ==> ValidKey(pairs[i].key) && !pairs[i].number
    ensures ParseSummary(js, Render(false, pairs)) == Some(SummaryLine(false, pairs))
  {
    RoundTrip(Fields(pairs));
    assert FromFields(Fields(pairs)) == pairs;
    assert Render(false, pairs)[0] == pairs[0].key[0];
  }
}
