/** Cutting an oversize tool result to a byte limit.

    Whole finding lines go, from the end that matters least, and the summary
    line is rewritten to match what is returned. The lines are budgeted
    against the longest summary the cut could produce. Decoding JSON is the
    library's: it is a parameter. */
module Response {
  import opened Basics
  import opened Decimal
  import opened Logfmt
  import opened Summary

  datatype SummaryLine = SummaryLine(json: bool, pairs: seq<Pair>)

  datatype Record = Record(severity: string, exempt: bool)

  /** The counts a cut summary carries: lines returned and dropped, exempt
      lines among those returned, the dropped by severity, and the stream's
      own total and limit. */
  datatype Shape = Shape(kept: nat, dropped: nat, exempt: nat, counts: map<string, nat>, total: nat, limit: nat)

  /** What the cut needs of a command: which end to keep, and how the summary
      of a cut stream is rendered (module CutSummary has lookout's). */
  datatype Command = Command(newestLast: bool, cut: (SummaryLine, Shape) -> string)

  ghost predicate AtMost(a: Shape, b: Shape) {
    && a.kept <= b.kept && a.dropped <= b.dropped && a.exempt <= b.exempt
    && (forall k :: Get(a.counts, k) <= Get(b.counts, k))
    && a.total == b.total && a.limit == b.limit
  }

  /** Larger counts never make the summary shorter. */
  ghost predicate Grows(cmd: Command) {
    forall sum, a, b :: AtMost(a, b) ==> |cmd.cut(sum, a)| <= |cmd.cut(sum, b)|
  }

  /** The JSON decoder: a flat object's pairs in order, and a finding's record. */
  datatype Json = Json(decode: string -> Option<seq<Pair>>, record: string -> Option<Record>)

  datatype Fitted = Fitted(text: string, dropped: nat)

  // ----- Reading a stream --------------------------------------------------

  /** The lines of a text, each with its line break. */
  function Lines(s: string): (lines: seq<string>)
    ensures s != [] ==> lines != []
    decreases |s|
  {
    if s == [] then []
    else
      var i := IndexOf(s, '\n');
      if i == |s| then [s] else [s[..i + 1]] + Lines(s[i + 1..])
  }

  lemma ConcatFirst(line: string, rest: seq<string>)
    ensures Concat([line] + rest) == line + Concat(rest)
  {
    assert ([line] + rest)[1..] == rest;
  }

  lemma {:induction false} LinesMakeUpText(s: string)
    ensures Concat(Lines(s)) == s
    decreases |s|
  {
    if s != [] {
      var i := IndexOf(s, '\n');
      if i < |s| {
        LinesMakeUpText(s[i + 1..]);
        ConcatFirst(s[..i + 1], Lines(s[i + 1..]));
      } else {
        ConcatFirst(s, []);
        assert [s] + [] == [s];
      }
    }
  }

  /** One line: no line break but the one it ends with. */
  ghost predicate IsLine(line: string) {
    line != [] && line[|line| - 1] == '\n' && NoNewline(line[..|line| - 1])
  }

  ghost predicate AreLines(lines: seq<string>) {
    forall i :: 0 <= i < |lines| ==> IsLine(lines[i])
  }

  /** Lines put together are split where they were joined. */
  lemma {:induction false} LinesOfConcat(lines: seq<string>)
    requires AreLines(lines)
    ensures Lines(Concat(lines)) == lines
  {
    if lines != [] {
      var line, rest := lines[0], Concat(lines[1..]);
      LinesOfConcat(lines[1..]);
      var s, i := line + rest, |line| - 1;
      assert s[..i] == line[..i] && s[..i + 1] == line && s[i + 1..] == rest;
      IndexOfIs(s, '\n', i);
      assert [line] + lines[1..] == lines;
    }
  }

  lemma BreakIsFound(s: string)
    requires s != [] && s[|s| - 1] == '\n'
    ensures IndexOf(s, '\n') < |s|
  {
    var i := IndexOf(s, '\n');
    assert '\n' in s && '\n' !in s[..i];
    assert s[..|s|] == s;
  }

  lemma {:induction false} LinesAreLines(s: string)
    requires s == [] || s[|s| - 1] == '\n'
    ensures AreLines(Lines(s))
    decreases |s|
  {
    if s != [] {
      var i := IndexOf(s, '\n');
      BreakIsFound(s);
      assert s[..i + 1][..i] == s[..i];
      LinesAreLines(s[i + 1..]);
    }
  }

  /** scanned, findings and elapsed first, and a count of findings. */
  predicate IsSummary(pairs: seq<Pair>) {
    && |pairs| >= 3
    && pairs[0].key == "scanned" && pairs[1].key == "findings" && pairs[2].key == "elapsed"
    && Atoi(pairs[1].value).Some?
  }

  function ParseSummary(js: Json, line: string): (r: Option<SummaryLine>)
    ensures r.Some? ==> IsSummary(r.value.pairs)
  {
    var json := line != [] && line[0] == '{';
    var pairs :=
      if json then js.decode(line)
      else match Parse(line) case None => None case Some(fs) => Some(FromFields(fs));
    if pairs.Some? && IsSummary(pairs.value) then Some(SummaryLine(json, pairs.value)) else None
  }

  function FromFields(fs: seq<Field>): seq<Pair> {
    seq(|fs|, i requires 0 <= i < |fs| => Pair(fs[i].key, fs[i].value, false))
  }

  function Findings(sum: SummaryLine): int
    requires IsSummary(sum.pairs)
  {
    Atoi(sum.pairs[1].value).value
  }

  /** The value of the last field with this key. */
  function LastValue(fs: seq<Field>, key: string): string {
    if fs == [] then ""
    else if fs[|fs| - 1].key == key then fs[|fs| - 1].value
    else LastValue(fs[..|fs| - 1], key)
  }

  function ParseRecord(js: Json, line: string, json: bool): Option<Record> {
    if json then js.record(line)
    else match Parse(line)
      case None => None
      case Some(fs) =>
        if fs == [] then None
        else Some(Record(LastValue(fs, "severity"), LastValue(fs, "exempt_reason") != ""))
  }

  // ----- Counts ------------------------------------------------------------

  function Bucket(severity: string): string {
    if severity == "critical" || severity == "warning" || severity == "info" then severity else "other"
  }

  /** How many records are in each bucket. */
  function Tally(recs: seq<Record>): map<string, nat> {
    if recs == [] then map[]
    else
      var rest, b := Tally(recs[..|recs| - 1]), Bucket(recs[|recs| - 1].severity);
      rest[b := Get(rest, b) + 1]
  }

  /** total in every bucket that has a record at all. */
  function Ceiling(recs: seq<Record>, total: nat): map<string, nat> {
    if recs == [] then map[] else Ceiling(recs[..|recs| - 1], total)[Bucket(recs[|recs| - 1].severity) := total]
  }

  function Exempt(recs: seq<Record>): (n: nat)
    ensures n <= |recs|
  {
    if recs == [] then 0 else Exempt(recs[..|recs| - 1]) + if recs[|recs| - 1].exempt then 1 else 0
  }

  function AllBuckets(t: map<string, nat>): nat {
    Get(t, "critical") + Get(t, "warning") + Get(t, "info") + Get(t, "other")
  }

  /** The buckets account for every record. */
  lemma {:induction false} BucketsSumToAll(recs: seq<Record>)
    ensures AllBuckets(Tally(recs)) == |recs|
  {
    if recs != [] {
      BucketsSumToAll(recs[..|recs| - 1]);
      var b := Bucket(recs[|recs| - 1].severity);
      assert b == "critical" || b == "warning" || b == "info" || b == "other";
      assert "critical"[0] == 'c' && "warning"[0] == 'w' && "info"[0] == 'i' && "other"[0] == 'o';
    }
  }

  lemma {:induction false} TallyBelowCeiling(recs: seq<Record>, from: nat, to: nat, b: string)
    requires from <= to <= |recs|
    ensures Get(Tally(recs[from..to]), b) <= to - from
    ensures Get(Tally(recs[from..to]), b) <= Get(Ceiling(recs, |recs|), b)
  {
    TallyIsBounded(recs[from..to], b);
    if Get(Tally(recs[from..to]), b) > 0 {
      var i :| 0 <= i < to - from && Bucket(recs[from..to][i].severity) == b;
      CeilingReached(recs, |recs|, from + i);
    }
  }

  lemma {:induction false} TallyIsBounded(recs: seq<Record>, b: string)
    ensures Get(Tally(recs), b) <= |recs|
    ensures Get(Tally(recs), b) > 0 ==> exists i :: 0 <= i < |recs| && Bucket(recs[i].severity) == b
  {
    if recs != [] {
      var init := recs[..|recs| - 1];
      TallyIsBounded(init, b);
      if Bucket(recs[|recs| - 1].severity) != b && Get(Tally(recs), b) > 0 {
        var i :| 0 <= i < |init| && Bucket(init[i].severity) == b;
        assert recs[i] == init[i];
      }
    }
  }

  lemma {:induction false} CeilingReached(recs: seq<Record>, total: nat, i: nat)
    requires i < |recs|
    ensures Get(Ceiling(recs, total), Bucket(recs[i].severity)) == total
  {
    if i < |recs| - 1 {
      CeilingReached(recs[..|recs| - 1], total, i);
    }
  }

  // ----- Whole lines within a budget ---------------------------------------

  /** The k lines of the end worth keeping, and the rest. */
  function Kept<T>(xs: seq<T>, k: nat, fromEnd: bool): seq<T>
    requires k <= |xs|
  {
    if fromEnd then xs[|xs| - k..] else xs[..k]
  }

  function Rest<T>(xs: seq<T>, k: nat, fromEnd: bool): seq<T>
    requires k <= |xs|
  {
    if fromEnd then xs[..|xs| - k] else xs[k..]
  }

  /** keep lines fit the budget and one more does not. */
  ghost predicate FitsBest(lines: seq<string>, budget: int, fromEnd: bool, keep: nat) {
    && keep <= |lines|
    && (keep > 0 ==> |Concat(Kept(lines, keep, fromEnd))| <= budget)
    && (keep < |lines| ==> |Concat(Kept(lines, keep + 1, fromEnd))| > budget)
  }

  lemma KeptIsMonotone(lines: seq<string>, fromEnd: bool, j: nat, k: nat)
    requires j <= k <= |lines|
    ensures |Concat(Kept(lines, j, fromEnd))| <= |Concat(Kept(lines, k, fromEnd))|
  {
    var small, big := Kept(lines, j, fromEnd), Kept(lines, k, fromEnd);
    if fromEnd {
      assert big == big[..k - j] + small;
      ConcatBoth(big[..k - j], small);
    } else {
      assert big == small + big[j..];
      ConcatBoth(small, big[j..]);
    }
  }

  /** No larger number of whole lines from that end fits. */
  lemma KeepIsMaximal(lines: seq<string>, budget: int, fromEnd: bool, keep: nat, k: nat)
    requires FitsBest(lines, budget, fromEnd, keep) && keep < k <= |lines|
    ensures |Concat(Kept(lines, k, fromEnd))| > budget
  {
    KeptIsMonotone(lines, fromEnd, keep + 1, k);
  }

  lemma KeepIsUnique(lines: seq<string>, budget: int, fromEnd: bool, j: nat, k: nat)
    requires FitsBest(lines, budget, fromEnd, j) && FitsBest(lines, budget, fromEnd, k)
    ensures j == k
  {
    if j < k {
      KeepIsMaximal(lines, budget, fromEnd, j, k);
    } else if k < j {
      KeepIsMaximal(lines, budget, fromEnd, k, j);
    }
  }

  method FitLines(lines: seq<string>, budget: int, fromEnd: bool) returns (keep: nat, size: nat)
    ensures FitsBest(lines, budget, fromEnd, keep)
    ensures size == |Concat(Kept(lines, keep, fromEnd))|
  {
    keep, size := 0, 0;
    while keep < |lines|
      invariant keep <= |lines| && size == |Concat(Kept(lines, keep, fromEnd))|
      invariant keep > 0 ==> size <= budget
    {
      var i := keep;
      if fromEnd {
        i := |lines| - 1 - keep;
      }
      OneMore(lines, fromEnd, keep);
      if size + |lines[i]| > budget {
        break;
      }
      size := size + |lines[i]|;
      keep := keep + 1;
    }
  }

  lemma OneMore(lines: seq<string>, fromEnd: bool, k: nat)
    requires k < |lines|
    ensures |Concat(Kept(lines, k + 1, fromEnd))| ==
            |Concat(Kept(lines, k, fromEnd))| + |lines[if fromEnd then |lines| - 1 - k else k]|
  {
    if fromEnd {
      assert Kept(lines, k + 1, true)[1..] == Kept(lines, k, true);
    } else {
      assert Kept(lines, k + 1, false) == Kept(lines, k, false) + [lines[k]];
      ConcatLast(Kept(lines, k, false), lines[k]);
    }
  }

  // ----- The cut -----------------------------------------------------------

  datatype Stream = Untouched | Stream(findings: seq<string>, recs: seq<Record>, sum: SummaryLine)

  /** Every line read, or none if one cannot be. */
  function ReadAll(read: string -> Option<Record>, lines: seq<string>): (r: Option<seq<Record>>)
    ensures r.Some? ==> |r.value| == |lines|
  {
    if lines == [] then Some([])
    else match (ReadAll(read, lines[..|lines| - 1]), read(lines[|lines| - 1]))
      case (Some(rs), Some(rec)) => Some(rs + [rec])
      case _ => None
  }

  function Reader(js: Json, json: bool): string -> Option<Record> {
    line => ParseRecord(js, line, json)
  }

  /** The stream to cut, or Untouched when the text is small enough or is not
      a stream whose summary counts its lines. */
  function ReadStream(js: Json, out: string, limit: int): (s: Stream)
    ensures s.Stream? ==> 0 < |s.findings| == |s.recs| && limit > 0 && IsSummary(s.sum.pairs)
  {
    if limit <= 0 || |out| <= limit || out[|out| - 1] != '\n' then Untouched
    else
      var lines := Lines(out);
      var findings := lines[..|lines| - 1];
      match ParseSummary(js, lines[|lines| - 1])
      case None => Untouched
      case Some(sum) =>
        if findings == [] || Findings(sum) != |findings| then Untouched
        else match ReadAll(Reader(js, sum.json), findings)
          case None => Untouched
          case Some(recs) => Stream(findings, recs, sum)
  }

  /** Every count at its largest. */
  function Largest(s: Stream, limit: nat): Shape
    requires s.Stream?
  {
    var total := |s.findings|;
    Shape(total, total, total, Ceiling(s.recs, total), total, limit)
  }

  /** The counts when keep findings are returned. */
  function ShapeOf(cmd: Command, s: Stream, limit: nat, keep: nat): Shape
    requires s.Stream? && keep <= |s.findings| == |s.recs|
  {
    var total := |s.findings|;
    Shape(keep, total - keep, Exempt(Kept(s.recs, keep, cmd.newestLast)),
          Tally(Rest(s.recs, keep, cmd.newestLast)), total, limit)
  }

  function CutText(cmd: Command, s: Stream, limit: nat, keep: nat): string
    requires s.Stream? && keep <= |s.findings| == |s.recs|
  {
    Concat(Kept(s.findings, keep, cmd.newestLast)) + cmd.cut(s.sum, ShapeOf(cmd, s, limit, keep))
  }

  /** r is the stream's text out with keep findings, the best number. */
  ghost predicate IsCutAt(cmd: Command, s: Stream, out: string, limit: nat, keep: nat, r: Fitted)
    requires s.Stream? && |s.findings| == |s.recs|
  {
    && FitsBest(s.findings, limit - |cmd.cut(s.sum, Largest(s, limit))|, cmd.newestLast, keep)
    && r == if keep == |s.findings| then Fitted(out, 0) else Fitted(CutText(cmd, s, limit, keep), |s.findings| - keep)
  }

  ghost predicate IsCut(cmd: Command, s: Stream, out: string, limit: nat, r: Fitted)
    requires s.Stream? && |s.findings| == |s.recs|
  {
    exists keep: nat :: IsCutAt(cmd, s, out, limit, keep, r)
  }

  /** r is the answer for out: cut, or as it was. */
  ghost predicate IsFit(js: Json, cmd: Command, out: string, limit: int, r: Fitted) {
    var s := ReadStream(js, out, limit);
    if s.Untouched? then r == Fitted(out, 0) else IsCut(cmd, s, out, limit, r)
  }

  method FitResponse(js: Json, cmd: Command, out: string, limit: int) returns (r: Fitted)
    ensures IsFit(js, cmd, out, limit, r)
  {
    var s := ReadStream(js, out, limit);
    if s.Untouched? {
      return Fitted(out, 0);
    }
    r := CutStream(cmd, s, out, limit);
  }

  /** The cut, with the counts gathered in loops over the records. */
  method CutStream(cmd: Command, s: Stream, out: string, limit: nat) returns (r: Fitted)
    requires s.Stream? && |s.findings| == |s.recs|
    ensures IsCut(cmd, s, out, limit, r)
  {
    var longest := LongestSummary(cmd, s, limit);
    var keep, size := FitLines(s.findings, limit - |longest|, cmd.newestLast);
    if keep == |s.findings| {
      r := Fitted(out, 0);
    } else {
      var summary := SummaryOf(cmd, s, limit, keep);
      r := Fitted(Concat(Kept(s.findings, keep, cmd.newestLast)) + summary, |s.findings| - keep);
    }
    assert IsCutAt(cmd, s, out, limit, keep, r);
  }

  method LongestSummary(cmd: Command, s: Stream, limit: nat) returns (longest: string)
    requires s.Stream? && |s.findings| == |s.recs|
    ensures longest == cmd.cut(s.sum, Largest(s, limit))
  {
    var total := |s.findings|;
    var all := Raised(s.recs, total);
    longest := cmd.cut(s.sum, Shape(total, total, total, all, total, limit));
  }

  method SummaryOf(cmd: Command, s: Stream, limit: nat, keep: nat) returns (summary: string)
    requires s.Stream? && keep <= |s.findings| == |s.recs|
    ensures summary == cmd.cut(s.sum, ShapeOf(cmd, s, limit, keep))
  {
    var exempt, bySeverity := Counted(Kept(s.recs, keep, cmd.newestLast), Rest(s.recs, keep, cmd.newestLast));
    summary := cmd.cut(s.sum, Shape(keep, |s.findings| - keep, exempt, bySeverity, |s.findings|, limit));
  }

  method Raised(recs: seq<Record>, total: nat) returns (all: map<string, nat>)
    ensures all == Ceiling(recs, total)
  {
    all := map[];
    for i := 0 to |recs|
      invariant all == Ceiling(recs[..i], total)
    {
      assert recs[..i + 1][..i] == recs[..i];
      all := all[Bucket(recs[i].severity) := total];
    }
    assert recs[..|recs|] == recs;
  }

  method Counted(kept: seq<Record>, dropped: seq<Record>) returns (exempt: nat, bySeverity: map<string, nat>)
    ensures exempt == Exempt(kept) && bySeverity == Tally(dropped)
  {
    exempt := CountExempt(kept);
    bySeverity := CountBySeverity(dropped);
  }

  method CountExempt(kept: seq<Record>) returns (exempt: nat)
    ensures exempt == Exempt(kept)
  {
    exempt := 0;
    for i := 0 to |kept|
      invariant exempt == Exempt(kept[..i])
    {
      assert kept[..i + 1][..i] == kept[..i];
      if kept[i].exempt {
        exempt := exempt + 1;
      }
    }
    assert kept[..|kept|] == kept;
  }

  method CountBySeverity(dropped: seq<Record>) returns (bySeverity: map<string, nat>)
    ensures bySeverity == Tally(dropped)
  {
    bySeverity := map[];
    for i := 0 to |dropped|
      invariant bySeverity == Tally(dropped[..i])
    {
      assert dropped[..i + 1][..i] == dropped[..i];
      var b := Bucket(dropped[i].severity);
      bySeverity := bySeverity[b := Get(bySeverity, b) + 1];
    }
    assert dropped[..|dropped|] == dropped;
  }

  // ----- What the cut promises ---------------------------------------------

  lemma ShapeIsAtMostLargest(cmd: Command, s: Stream, limit: nat, keep: nat)
    requires s.Stream? && keep <= |s.findings| == |s.recs|
    ensures AtMost(ShapeOf(cmd, s, limit, keep), Largest(s, limit))
  {
    var total := |s.findings|;
    forall b
      ensures Get(Tally(Rest(s.recs, keep, cmd.newestLast)), b) <= Get(Ceiling(s.recs, total), b)
    {
      if cmd.newestLast {
        TallyBelowCeiling(s.recs, 0, total - keep, b);
        assert s.recs[..total - keep] == s.recs[0..total - keep];
      } else {
        TallyBelowCeiling(s.recs, keep, total, b);
        assert s.recs[keep..] == s.recs[keep..total];
      }
    }
  }

  /** A cut answer that keeps a finding fits the limit. */
  lemma SizeBound(cmd: Command, s: Stream, out: string, limit: nat, r: Fitted)
    requires s.Stream? && |s.findings| == |s.recs| && Grows(cmd)
    requires IsCut(cmd, s, out, limit, r) && 0 < r.dropped < |s.findings|
    ensures |r.text| <= limit
  {
    var keep: nat :| IsCutAt(cmd, s, out, limit, keep, r);
    ShapeIsAtMostLargest(cmd, s, limit, keep);
  }

  /** What is left for findings beside the longest summary. */
  function Room(cmd: Command, s: Stream, limit: nat): int
    requires s.Stream?
  {
    limit - |cmd.cut(s.sum, Largest(s, limit))|
  }

  /** Exactly when the answer to an oversize stream is within the limit, told
      from the stream: its findings do not all fit beside the longest summary,
      and either the first of them to be kept does, or the summary of a stream
      without any is itself within the limit. Findings that all fit are returned
      as they came, over the limit. */
  lemma WhenItFits(cmd: Command, s: Stream, out: string, limit: nat, r: Fitted)
    requires s.Stream? && 0 < |s.findings| == |s.recs| && Grows(cmd) && |out| > limit
    requires IsCut(cmd, s, out, limit, r)
    ensures |r.text| <= limit <==>
            && |Concat(s.findings)| > Room(cmd, s, limit)
            && (|| |Concat(Kept(s.findings, 1, cmd.newestLast))| <= Room(cmd, s, limit)
                || |cmd.cut(s.sum, ShapeOf(cmd, s, limit, 0))| <= limit)
  {
    var keep: nat :| IsCutAt(cmd, s, out, limit, keep, r);
    var total := |s.findings|;
    assert Kept(s.findings, total, cmd.newestLast) == s.findings;
    if keep == total {
    } else {
      KeptIsMonotone(s.findings, cmd.newestLast, keep + 1, total);
      if keep > 0 {
        SizeBound(cmd, s, out, limit, r);
        KeptIsMonotone(s.findings, cmd.newestLast, 1, keep);
      } else {
        assert Kept(s.findings, 0, cmd.newestLast) == [];
        assert r.text == cmd.cut(s.sum, ShapeOf(cmd, s, limit, 0));
      }
    }
  }

  /** Each line is read as the record in its place. */
  ghost predicate Reads(read: string -> Option<Record>, lines: seq<string>, recs: seq<Record>) {
    |recs| == |lines| && forall i :: 0 <= i < |lines| ==> read(lines[i]) == Some(recs[i])
  }

  lemma {:induction false} RecordsAreRead(read: string -> Option<Record>, lines: seq<string>, recs: seq<Record>)
    requires ReadAll(read, lines) == Some(recs)
    ensures Reads(read, lines, recs)
  {
    if lines != [] {
      RecordsAreRead(read, lines[..|lines| - 1], recs[..|recs| - 1]);
    }
  }

  /** The lines kept are read as what the stream's lines were. */
  lemma KeptRecords(read: string -> Option<Record>, lines: seq<string>, recs: seq<Record>, k: nat, fromEnd: bool)
    requires Reads(read, lines, recs) && k <= |lines|
    ensures Reads(read, Kept(lines, k, fromEnd), Kept(recs, k, fromEnd))
  {
  }

  lemma StreamIsRead(js: Json, out: string, limit: int)
    requires ReadStream(js, out, limit).Stream?
    ensures var s := ReadStream(js, out, limit);
            && AreLines(s.findings) && Lines(out)[..|Lines(out)| - 1] == s.findings
            && ParseSummary(js, Lines(out)[|Lines(out)| - 1]) == Some(s.sum)
            && Reads(Reader(js, s.sum.json), s.findings, s.recs)
  {
    LinesAreLines(out);
    var s := ReadStream(js, out, limit);
    RecordsAreRead(Reader(js, s.sum.json), s.findings, s.recs);
  }

  /** The text returns these many of the stream's findings, line by line as they
      came, and one summary line that counts them. The lines returned and those
      dropped make up the stream, and the dropped are accounted for by severity. */
  ghost predicate Returns(cmd: Command, s: Stream, limit: nat, read: string -> Option<Record>, n: nat, text: string)
    requires s.Stream? && n <= |s.findings| == |s.recs|
  {
    var lines, rest := Lines(text), Rest(s.findings, n, cmd.newestLast);
    && lines == Kept(s.findings, n, cmd.newestLast) + [cmd.cut(s.sum, ShapeOf(cmd, s, limit, n))]
    && Reads(read, lines[..n], Kept(s.recs, n, cmd.newestLast))
    && s.findings == (if cmd.newestLast then rest + lines[..n] else lines[..n] + rest)
    && AllBuckets(Tally(Rest(s.recs, n, cmd.newestLast))) == |rest|
  }

  lemma TextIsLines(kept: seq<string>, last: string)
    requires AreLines(kept) && IsLine(last)
    ensures Lines(Concat(kept) + last) == kept + [last]
  {
    ConcatLast(kept, last);
    LinesOfConcat(kept + [last]);
  }

  lemma KeptAndRest<T>(xs: seq<T>, k: nat, fromEnd: bool)
    requires k <= |xs|
    ensures xs == if fromEnd then Rest(xs, k, true) + Kept(xs, k, true) else Kept(xs, k, false) + Rest(xs, k, false)
  {
  }

  lemma CutReturns(cmd: Command, s: Stream, limit: nat, read: string -> Option<Record>, n: nat)
    requires s.Stream? && n <= |s.findings| == |s.recs| && AreLines(s.findings) && Reads(read, s.findings, s.recs)
    requires IsLine(cmd.cut(s.sum, ShapeOf(cmd, s, limit, n)))
    ensures Returns(cmd, s, limit, read, n, CutText(cmd, s, limit, n))
  {
    var kept, last := Kept(s.findings, n, cmd.newestLast), cmd.cut(s.sum, ShapeOf(cmd, s, limit, n));
    TextIsLines(kept, last);
    assert (kept + [last])[..n] == kept;
    KeptRecords(read, s.findings, s.recs, n, cmd.newestLast);
    KeptAndRest(s.findings, n, cmd.newestLast);
    BucketsSumToAll(Rest(s.recs, n, cmd.newestLast));
  }

  lemma FitIsCutText(js: Json, cmd: Command, out: string, limit: int, r: Fitted)
    requires IsFit(js, cmd, out, limit, r) && r.dropped > 0
    ensures var s := ReadStream(js, out, limit);
            s.Stream? && r.dropped <= |s.findings| && r.text == CutText(cmd, s, limit, |s.findings| - r.dropped)
  {
  }

  /** What an answer that was cut returns, for every text. */
  lemma NothingGoesMissing(js: Json, cmd: Command, out: string, limit: int, r: Fitted)
    requires IsFit(js, cmd, out, limit, r) && r.dropped > 0
    requires var s := ReadStream(js, out, limit); s.Stream? ==> forall shape :: IsLine(cmd.cut(s.sum, shape))
    ensures var s := ReadStream(js, out, limit);
            && s.Stream? && r.dropped <= |s.findings|
            && Returns(cmd, s, limit, Reader(js, s.sum.json), |s.findings| - r.dropped, r.text)
  {
    var s := ReadStream(js, out, limit);
    StreamIsRead(js, out, limit);
    var keep: nat :| IsCutAt(cmd, s, out, limit, keep, r);
    CutReturns(cmd, s, limit, Reader(js, s.sum.json), keep);
  }

  /** The cut depends on the text alone. */
  lemma CutIsUnique(cmd: Command, s: Stream, out: string, limit: nat, r: Fitted, r': Fitted)
    requires s.Stream? && |s.findings| == |s.recs|
    requires IsCut(cmd, s, out, limit, r) && IsCut(cmd, s, out, limit, r')
    ensures r == r'
  {
    var j: nat :| IsCutAt(cmd, s, out, limit, j, r);
    var k: nat :| IsCutAt(cmd, s, out, limit, k, r');
    KeepIsUnique(s.findings, limit - |cmd.cut(s.sum, Largest(s, limit))|, cmd.newestLast, j, k);
  }

  /** A summary on its own is left alone, over the limit or not. */
  lemma SummaryAloneIsUntouched(js: Json, text: string, limit: int)
    requires |Lines(text)| == 1
    ensures ReadStream(js, text, limit).Untouched?
  {
  }

  lemma SmallIsUntouched(js: Json, text: string, limit: int)
    requires |text| <= limit
    ensures ReadStream(js, text, limit).Untouched?
  {
  }

  /** A cut answer has nothing left to cut, over the limit or not. */
  lemma NothingLeftToCut(js: Json, cmd: Command, s: Stream, out: string, limit: nat, r: Fitted)
    requires s.Stream? && |s.findings| == |s.recs| && Grows(cmd)
    requires forall shape :: IsLine(cmd.cut(s.sum, shape))
    requires IsCut(cmd, s, out, limit, r) && r.dropped > 0
    ensures ReadStream(js, r.text, limit).Untouched?
  {
    var keep: nat :| IsCutAt(cmd, s, out, limit, keep, r);
    if keep > 0 {
      SizeBound(cmd, s, out, limit, r);
      SmallIsUntouched(js, r.text, limit);
    } else {
      assert r.text == cmd.cut(s.sum, ShapeOf(cmd, s, limit, 0));
      TextIsLines([], r.text);
      assert Concat([]) + r.text == r.text;
      SummaryAloneIsUntouched(js, r.text, limit);
    }
  }

  /** Cutting twice at one limit is cutting once, also when not even the
      summary fits. */
  lemma Idempotent(js: Json, cmd: Command, out: string, limit: int, r: Fitted, r': Fitted)
    requires Grows(cmd)
    requires var s := ReadStream(js, out, limit);
             s.Stream? ==> forall shape :: IsLine(cmd.cut(s.sum, shape))
    requires IsFit(js, cmd, out, limit, r) && IsFit(js, cmd, r.text, limit, r')
    ensures r' == Fitted(r.text, 0)
  {
    var s := ReadStream(js, out, limit);
    if s.Stream? {
      if r.dropped > 0 {
        NothingLeftToCut(js, cmd, s, out, limit, r);
      } else {
        var keep: nat :| IsCutAt(cmd, s, out, limit, keep, r);
        CutIsUnique(cmd, s, out, limit, r, r');
      }
    }
  }
}
