/** Streams and cluster lists whose answer is over the limit.

    Two kinds, as WhenItFits and WhenListFits have it: a summary that alone
    exceeds the limit, and a stream whose findings (a list whose clusters) all
    fit beside the longest rewritten summary while its own summary line is longer
    than that. For every command of lookout's there are both. */
module CutLimits {
  import opened Basics
  import opened Decimal
  import opened Logfmt
  import opened Summary
  import opened Response
  import opened CutSummary
  import opened ClusterList

  function Zeros(n: nat): string {
    seq(n, _ => '0')
  }

  lemma {:induction false} ZerosAreZero(n: nat)
    requires n > 0
    ensures Natural(Zeros(n)) == Some(0)
  {
    if n > 1 {
      ZerosAreZero(n - 1);
      assert Zeros(n)[..n - 1] == Zeros(n - 1);
    }
  }

  /** A count may be written with zeros in front. */
  lemma PaddedCount(n: nat)
    ensures Atoi(Zeros(n) + "1") == Some(1)
  {
    var s := Zeros(n) + "1";
    if n > 0 {
      ZerosAreZero(n);
      assert s[..n] == Zeros(n) && s[0] == '0' && s[n] == '1';
    }
  }

  // ----- A stream with a padded count --------------------------------------

  function Finding(): seq<Field> {
    [Field("severity", "info")]
  }

  function Padded(n: nat): seq<Field> {
    [Field("scanned", "1"), Field("findings", Zeros(n) + "1"), Field("elapsed", "1s")]
  }

  function Text(n: nat): string {
    Encode(Finding()) + Encode(Padded(n))
  }

  function PaddedStream(n: nat): Stream {
    Stream([Encode(Finding())], [Record("info", false)], SummaryLine(false, FromFields(Padded(n))))
  }

  lemma EncodedIsLine(fields: seq<Field>)
    requires forall i :: 0 <= i < |fields| ==> ValidKey(fields[i].key)
    ensures IsLine(Encode(fields))
  {
    EncodedOnOneLine(fields);
    assert Encode(fields)[..|EncodeFields(fields)|] == EncodeFields(fields);
  }

  lemma KeysAreValid(n: nat)
    ensures forall i :: 0 <= i < 1 ==> ValidKey(Finding()[i].key)
    ensures forall i :: 0 <= i < 3 ==> ValidKey(Padded(n)[i].key)
  {
  }

  lemma FindingIsRead(js: Json)
    ensures ParseRecord(js, Encode(Finding()), false) == Some(Record("info", false))
  {
    KeysAreValid(0);
    RoundTrip(Finding());
    var fs := Finding();
    assert LastValue(fs, "severity") == "info";
    assert fs[0].key[0] == 's' && "exempt_reason"[0] == 'e';
    assert LastValue(fs[..0], "exempt_reason") == "";
  }

  lemma PaddedIsSummary(js: Json, n: nat)
    ensures ParseSummary(js, Encode(Padded(n))) == Some(SummaryLine(false, FromFields(Padded(n))))
    ensures Findings(SummaryLine(false, FromFields(Padded(n)))) == 1
  {
    KeysAreValid(n);
    RoundTrip(Padded(n));
    PaddedCount(n);
    StartsWithKey(Padded(n));
  }

  lemma StartsWithKey(fields: seq<Field>)
    requires |fields| > 1 && ValidKey(fields[0].key)
    ensures Encode(fields)[0] == fields[0].key[0]
  {
    var rest := EncodeFields(fields[1..]);
    assert EncodeFields(fields) == EncodeField(fields[0]) + " " + rest;
  }

  lemma TextLines(n: nat)
    ensures Lines(Text(n)) == [Encode(Finding()), Encode(Padded(n))]
  {
    KeysAreValid(n);
    EncodedIsLine(Finding());
    EncodedIsLine(Padded(n));
    var first := [Encode(Finding())];
    TextIsLines(first, Encode(Padded(n)));
    assert Concat(first) == Encode(Finding()) + Concat([]) == Encode(Finding());
  }

  lemma TextIsStream(js: Json, n: nat, limit: nat)
    requires 0 < limit < |Text(n)|
    ensures ReadStream(js, Text(n), limit) == PaddedStream(n)
  {
    TextLines(n);
    var lines := Lines(Text(n));
    assert lines[..1] == [Encode(Finding())];
    PaddedIsSummary(js, n);
    FindingIsRead(js);
    OneRecord(Reader(js, false), Encode(Finding()), Record("info", false));
    assert Text(n)[|Text(n)| - 1] == '\n';
  }

  lemma OneRecord(read: string -> Option<Record>, line: string, rec: Record)
    requires read(line) == Some(rec)
    ensures ReadAll(read, [line]) == Some([rec])
  {
    var lines := [line];
    assert lines[..|lines| - 1] == [] && lines[|lines| - 1] == line;
    assert ReadAll(read, []) == Some([]);
    assert [] + [rec] == [rec];
  }

  // ----- A limit with room for the finding ---------------------------------

  function Escaped(parts: seq<string>): nat {
    if parts == [] then 0 else |EscapeAll(parts[0])| + Escaped(parts[1..])
  }

  function Digits(counts: seq<nat>): nat {
    if counts == [] then 0 else |Itoa(counts[0])| + Digits(counts[1..])
  }

  /** Counts are written plainly between the parts. */
  lemma {:induction false} FillLength(parts: seq<string>, counts: seq<nat>)
    requires |parts| == |counts| + 1
    ensures |EscapeAll(Fill(parts, counts))| == Escaped(parts) + Digits(counts)
    decreases |counts|
  {
    if counts == [] {
      assert parts[1..] == [];
    } else {
      var rest := Fill(parts[1..], counts[1..]);
      FillLength(parts[1..], counts[1..]);
      SpreadBoth(Escape, parts[0], Itoa(counts[0]) + rest);
      SpreadBoth(Escape, Itoa(counts[0]), rest);
      CountIsPlain(counts[0]);
    }
  }

  /** Everything of a rewritten summary but the limit in its hint. */
  function Hinted(pairs: seq<Pair>, parts: seq<string>, kept: nat, total: nat): nat {
    |EncodeFields(Fields(pairs))| + Escaped(parts) + Digits([kept, total]) + 18
  }

  lemma HintedLength(pairs: seq<Pair>, parts: seq<string>, kept: nat, total: nat, limit: nat)
    requires |parts| == 4
    ensures |Render(false, pairs + [Pair("response_hint", Fill(parts, [kept, total, limit]), false)])| <=
            Hinted(pairs, parts, kept, total) + |Itoa(limit)|
  {
    var hint := Pair("response_hint", Fill(parts, [kept, total, limit]), false);
    assert Fields(pairs + [hint]) == Fields(pairs) + [Field("response_hint", hint.value)];
    AppendedField(Fields(pairs), Field("response_hint", hint.value));
    FillLength(parts, [kept, total, limit]);
    DigitsOfThree(kept, total, limit);
    FieldLength("response_hint", hint.value);
    assert |"response_hint"| == 13;
  }

  /** Everything of a cut summary but the limit in its hint. */
  function Fixed(pairs: seq<Pair>, shape: Shape, parts: seq<string>): nat
    requires |parts| == 4
  {
    Hinted(Rewritten(pairs, Counts(shape)) + Notes(shape, parts)[..2], parts, shape.kept, shape.total)
  }

  lemma CutLength(pairs: seq<Pair>, shape: Shape, parts: seq<string>)
    requires |parts| == 4
    ensures |Render(false, CutPairs(pairs, shape, parts))| <= Fixed(pairs, shape, parts) + |Itoa(shape.limit)|
  {
    var some := Rewritten(pairs, Counts(shape)) + Notes(shape, parts)[..2];
    assert CutPairs(pairs, shape, parts) == some + [Notes(shape, parts)[2]];
    HintedLength(some, parts, shape.kept, shape.total, shape.limit);
  }

  lemma FieldLength(key: string, v: string)
    ensures |EncodeField(Field(key, v))| <= |key| + |EscapeAll(v)| + 3
  {
    EscapedAtLeast(v);
  }

  lemma DigitsOfThree(a: nat, b: nat, c: nat)
    ensures Digits([a, b, c]) == Digits([a, b]) + |Itoa(c)|
  {
    DigitsFirst(a, [b, c]);
    DigitsFirst(b, [c]);
    DigitsFirst(c, []);
    DigitsFirst(a, [b]);
    DigitsFirst(b, []);
    assert [a, b, c] == [a] + [b, c] && [b, c] == [b] + [c] && [a, b] == [a] + [b];
    assert [c] == [c] + [] && [b] == [b] + [];
  }

  lemma DigitsFirst(n: nat, rest: seq<nat>)
    ensures Digits([n] + rest) == |Itoa(n)| + Digits(rest)
  {
    assert ([n] + rest)[1..] == rest;
  }

  lemma {:induction false} FewDigits(n: nat)
    ensures |Itoa(n)| <= 1 + n / 10
  {
    if n >= 10 {
      FewDigits(n / 10);
    }
  }

  lemma LargestOfOne(n: nat, limit: nat)
    ensures Largest(PaddedStream(n), limit) == Shape(1, 1, 1, Largest(PaddedStream(0), 0).counts, 1, limit)
  {
  }

  /** The summary does not remember how the count was written. */
  lemma SameCut(newestLast: bool, narrow: string, n: nat, shape: Shape)
    ensures Lookout(newestLast, narrow).cut(PaddedStream(n).sum, shape) ==
            Render(false, CutPairs(FromFields(Padded(0)), shape, LookoutParts(newestLast, narrow)))
  {
    var a, b := FromFields(Padded(n)), FromFields(Padded(0));
    assert Rewritten(a, Counts(shape)) == Rewritten(b, Counts(shape)) by {
      assert a[0] == b[0] && a[2] == b[2] && a[1].key == b[1].key == "findings";
    }
  }

  /** A limit that leaves room for the finding. */
  function Ample(newestLast: bool, narrow: string): nat {
    var shape := Largest(PaddedStream(0), 0);
    2 * (Fixed(FromFields(Padded(0)), shape, LookoutParts(newestLast, narrow)) + |Encode(Finding())| + 1)
  }

  lemma FixedIgnoresLimit(pairs: seq<Pair>, a: Shape, b: Shape, parts: seq<string>)
    requires |parts| == 4 && a == b.(limit := a.limit)
    ensures Fixed(pairs, a, parts) == Fixed(pairs, b, parts)
  {
    assert Notes(a, parts)[..2] == Notes(b, parts)[..2];
  }

  lemma AmpleRoom(newestLast: bool, narrow: string, n: nat)
    ensures Room(Lookout(newestLast, narrow), PaddedStream(n), Ample(newestLast, narrow)) >= |Encode(Finding())|
  {
    var limit, parts := Ample(newestLast, narrow), LookoutParts(newestLast, narrow);
    var shape, pairs := Largest(PaddedStream(n), limit), FromFields(Padded(0));
    LargestOfOne(n, limit);
    LargestOfOne(0, 0);
    SameCut(newestLast, narrow, n, shape);
    CutLength(pairs, shape, parts);
    FixedIgnoresLimit(pairs, shape, Largest(PaddedStream(0), 0), parts);
    FewDigits(limit);
  }

  // ----- Both kinds --------------------------------------------------------

  lemma {:induction false} LongEnough(fields: seq<Field>)
    ensures |EncodeFields(fields)| >= |fields|
  {
    if fields != [] {
      LongEnough(fields[1..]);
    }
  }

  lemma TextIsLong(n: nat)
    ensures |Text(n)| > n + 1
  {
    var fields := Padded(n);
    assert |EncodeValue(fields[1].value)| >= n + 1 by { EscapedAtLeast(fields[1].value); }
    assert EncodeFields(fields[1..]) == EncodeField(fields[1]) + " " + EncodeFields(fields[1..][1..]);
    assert EncodeFields(fields) == EncodeField(fields[0]) + " " + EncodeFields(fields[1..]);
  }

  /** Every command of lookout's returns some stream as it came, over a limit at
      which its finding fits beside the longest summary: the stream's own summary
      line is what is too long. */
  lemma OverlongSummaryIsReturned(js: Json, newestLast: bool, narrow: string)
    ensures var limit := Ample(newestLast, narrow);
            var out := Text(limit);
            && |out| > limit && ReadStream(js, out, limit).Stream?
            && IsFit(js, Lookout(newestLast, narrow), out, limit, Fitted(out, 0))
  {
    var limit, cmd := Ample(newestLast, narrow), Lookout(newestLast, narrow);
    TextIsLong(limit);
    TextIsStream(js, limit, limit);
    AmpleRoom(newestLast, narrow, limit);
    var s := PaddedStream(limit);
    assert Kept(s.findings, 1, newestLast) == s.findings;
    assert Concat(s.findings) == Encode(Finding()) + Concat([]) == Encode(Finding());
    assert IsCutAt(cmd, s, Text(limit), limit, 1, Fitted(Text(limit), 0));
  }

  /** At a limit of one byte every stream is answered with a summary over it. */
  lemma SummaryAloneOverruns(js: Json, newestLast: bool, narrow: string, out: string, r: Fitted)
    requires ReadStream(js, out, 1).Stream? && IsFit(js, Lookout(newestLast, narrow), out, 1, r)
    ensures |r.text| > 1
  {
    var s, cmd := ReadStream(js, out, 1), Lookout(newestLast, narrow);
    var keep: nat :| IsCutAt(cmd, s, out, 1, keep, r);
    if keep < |s.findings| {
      SummaryIsLong(s.sum, ShapeOf(cmd, s, 1, keep), LookoutParts(newestLast, narrow));
    }
  }

  lemma SummaryIsLong(sum: SummaryLine, shape: Shape, parts: seq<string>)
    requires |parts| == 4
    ensures |Render(sum.json, CutPairs(sum.pairs, shape, parts))| > 1
  {
    if !sum.json {
      LongEnough(Fields(CutPairs(sum.pairs, shape, parts)));
    }
  }

  /** And there is such a stream. */
  lemma SomeStreamAtOne(js: Json)
    ensures ReadStream(js, Text(0), 1).Stream?
  {
    TextIsLong(0);
    TextIsStream(js, 0, 1);
  }

  // ----- Cluster lists -----------------------------------------------------

  function Entry(): seq<Field> {
    [Field("cluster", "a")]
  }

  function PaddedInventory(n: nat): seq<Field> {
    [Field("scanned", "1"), Field("findings", "0"), Field("elapsed", "1s"), Field("clusters", Zeros(n) + "1")]
  }

  function Inventory(n: nat): string {
    Encode(Entry()) + Encode(PaddedInventory(n))
  }

  function PaddedListing(n: nat): Listing {
    Listing([Encode(Entry())], [], SummaryLine(false, FromFields(PaddedInventory(n))))
  }

  lemma InventoryKeysAreValid(n: nat)
    ensures forall i :: 0 <= i < 1 ==> ValidKey(Entry()[i].key)
    ensures forall i :: 0 <= i < 4 ==> ValidKey(PaddedInventory(n)[i].key)
  {
  }

  lemma InventoryCount(n: nat)
    ensures CountOf(FromFields(PaddedInventory(n)), "clusters") == Some(1)
  {
    PaddedCount(n);
    var pairs := FromFields(PaddedInventory(n));
    assert "clusters"[0] !in {"scanned"[0], "findings"[0], "elapsed"[0]};
    assert pairs[1..][0] == pairs[1] && pairs[1..][1..] == pairs[2..];
    assert pairs[2..][0] == pairs[2] && pairs[2..][1..] == pairs[3..];
    assert CountOf(pairs[3..], "clusters") == Some(1);
    assert CountOf(pairs[2..], "clusters") == Some(1);
    assert CountOf(pairs[1..], "clusters") == Some(1);
  }

  lemma InventoryIsSummary(js: Json, n: nat)
    ensures ParseSummary(js, Encode(PaddedInventory(n))) == Some(SummaryLine(false, FromFields(PaddedInventory(n))))
  {
    InventoryKeysAreValid(n);
    RoundTrip(PaddedInventory(n));
    StartsWithKey(PaddedInventory(n));
    AtoiOfItoa(0);
  }

  lemma InventoryLines(n: nat)
    ensures Lines(Inventory(n)) == [Encode(Entry()), Encode(PaddedInventory(n))]
  {
    InventoryKeysAreValid(n);
    EncodedIsLine(Entry());
    EncodedIsLine(PaddedInventory(n));
    var first := [Encode(Entry())];
    TextIsLines(first, Encode(PaddedInventory(n)));
    assert Concat(first) == Encode(Entry()) + Concat([]) == Encode(Entry());
  }

  lemma EntryIsCluster()
    ensures Leading([Encode(Entry())], "cluster=") == 1
  {
    assert EncodeField(Entry()[0])[..8] == "cluster=";
    assert HasPrefix(Encode(Entry()), "cluster=");
    LeadingIs([Encode(Entry())], "cluster=", 1);
  }

  lemma InventoryIsListing(js: Json, n: nat, limit: nat)
    requires 0 < limit < |Inventory(n)|
    ensures ReadListing(js, Inventory(n), limit) == PaddedListing(n)
  {
    InventoryLines(n);
    var lines := Lines(Inventory(n));
    assert lines[..1] == [Encode(Entry())];
    InventoryIsSummary(js, n);
    InventoryCount(n);
    EntryIsCluster();
    assert Inventory(n)[|Inventory(n)| - 1] == '\n';
  }

  /** The summary does not remember how the count was written. */
  lemma SameListSummary(n: nat, parts: seq<string>, limit: nat)
    requires |parts| == 4
    ensures ListPairs(FromFields(PaddedInventory(n)), parts, 1, 1, 1, limit) ==
            ListHead() + [Pair("response_hint", Fill(parts, [1, 1, limit]), false)]
  {
    var a, b := FromFields(PaddedInventory(n)), FromFields(PaddedInventory(0));
    assert Rewritten(a, map["clusters" := 1]) == Rewritten(b, map["clusters" := 1]) by {
      assert a[0] == b[0] && a[1] == b[1] && a[2] == b[2] && a[3].key == b[3].key == "clusters";
    }
  }

  function ListHead(): seq<Pair> {
    Rewritten(FromFields(PaddedInventory(0)), map["clusters" := 1]) + [Pair("response_truncated", Itoa(1), false)]
  }

  /** A limit that leaves room for the cluster. */
  function AmpleForList(filtered: bool): nat {
    2 * (Hinted(ListHead(), ListParts(filtered), 1, 1) + |Encode(Entry())| + 1)
  }

  lemma AmpleListRoom(filtered: bool, n: nat)
    ensures var l, limit := PaddedListing(n), AmpleForList(filtered);
            ListRoom(l.entries, l.scopes, ListRender(l.sum, ListParts(filtered), 1, limit), limit) >= |Encode(Entry())|
  {
    var limit, parts := AmpleForList(filtered), ListParts(filtered);
    SameListSummary(n, parts, limit);
    HintedLength(ListHead(), parts, 1, 1, limit);
    FewDigits(limit);
  }

  lemma InventoryIsLong(n: nat)
    ensures |Inventory(n)| > n + 1
  {
    var fields := PaddedInventory(n);
    assert |EncodeValue(fields[3].value)| >= n + 1 by { EscapedAtLeast(fields[3].value); }
    AppendedField(fields[..3], fields[3]);
    assert fields == fields[..3] + [fields[3]];
  }

  /** A list, too, may be returned as it came over a limit at which its cluster
      fits beside the longest summary. */
  lemma OverlongListIsReturned(js: Json, filtered: bool)
    ensures var limit := AmpleForList(filtered);
            var out := Inventory(limit);
            && |out| > limit && ReadListing(js, out, limit).Listing?
            && IsListAnswer(js, out, filtered, limit, Fitted(out, 0))
  {
    var limit, parts := AmpleForList(filtered), ListParts(filtered);
    var l := PaddedListing(limit);
    InventoryIsLong(limit);
    InventoryIsListing(js, limit, limit);
    AmpleListRoom(filtered, limit);
    assert Concat(l.entries) == Encode(Entry()) + Concat([]) == Encode(Entry());
    AllFitIsReturned(l.entries, l.scopes, ListRender(l.sum, parts, 1, limit), Inventory(limit), limit);
  }

  lemma AllFitIsReturned(entries: seq<string>, scopes: seq<string>, render: (nat, nat) -> string, out: string, limit: nat)
    requires |Concat(entries)| <= ListRoom(entries, scopes, render, limit)
    ensures IsListFit(entries, scopes, render, out, limit, Fitted(out, 0))
  {
    assert Kept(entries, |entries|, false) == entries;
    assert IsListCut(entries, scopes, render, out, limit, |entries|, Fitted(out, 0));
  }

  /** At a limit of one byte every list is answered over it. */
  lemma ListAloneOverruns(js: Json, filtered: bool, out: string, r: Fitted)
    requires ReadListing(js, out, 1).Listing? && IsListAnswer(js, out, filtered, 1, r)
    ensures |r.text| > 1
  {
    var l, parts := ReadListing(js, out, 1), ListParts(filtered);
    var total := |l.entries|;
    var keep: nat :| IsListCut(l.entries, l.scopes, ListRender(l.sum, parts, total, 1), out, 1, keep, r);
    if keep < total {
      ListSummaryIsLong(l.sum, parts, keep, total - keep, total);
    }
  }

  lemma ListSummaryIsLong(sum: SummaryLine, parts: seq<string>, kept: nat, dropped: nat, total: nat)
    requires |parts| == 4
    ensures |ListSummary(sum, parts, kept, dropped, total, 1)| > 1
  {
    if !sum.json {
      LongEnough(Fields(ListPairs(sum.pairs, parts, kept, dropped, total, 1)));
    }
  }

  /** And there is such a list. */
  lemma SomeListAtOne(js: Json)
    ensures ReadListing(js, Inventory(0), 1).Listing?
  {
    InventoryIsLong(0);
    InventoryIsListing(js, 0, 1);
  }
}
