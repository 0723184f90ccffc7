/** The cluster inventory, cut to a response limit as a stream is: cluster lines
    are dropped whole from the tail, and the scope lines and the summary stay. */
module ClusterList {
  import opened Basics
  import opened Decimal
  import opened Logfmt
  import opened Summary
  import opened Response
  import opened CutSummary

  /** A cluster inventory: cluster lines, discovery scope lines, a summary. */
  datatype Listing = NotAListing | Listing(entries: seq<string>, scopes: seq<string>, sum: SummaryLine)

  predicate HasPrefix(s: string, prefix: string) {
    prefix <= s
  }

  /** The number of leading lines with this prefix. */
  function Leading(lines: seq<string>, prefix: string): (n: nat)
    ensures n <= |lines|
  {
    if lines != [] && HasPrefix(lines[0], prefix) then 1 + Leading(lines[1..], prefix) else 0
  }

  /** The first pair with this key, as a count. */
  function CountOf(pairs: seq<Pair>, key: string): Option<int> {
    if pairs == [] then None
    else if pairs[0].key == key then Atoi(pairs[0].value)
    else CountOf(pairs[1..], key)
  }

  function ReadListing(js: Json, out: string, limit: int): (l: Listing)
    ensures l.Listing? ==> limit > 0 && l.entries != []
  {
    if limit <= 0 || |out| <= limit || out[|out| - 1] != '\n' then NotAListing
    else
      var lines := Lines(out);
      var body := lines[..|lines| - 1];
      var total := Leading(body, "cluster=");
      match ParseSummary(js, lines[|lines| - 1])
      case None => NotAListing
      case Some(sum) =>
        if Leading(body[total..], "scope=") < |body| - total || CountOf(sum.pairs, "clusters") != Some(total) || total == 0
        then NotAListing
        else Listing(body[..total], body[total..], sum)
  }

  /** The summary when kept of total cluster lines are returned. */
  function ListSummary(sum: SummaryLine, parts: seq<string>, kept: nat, dropped: nat, total: nat, limit: nat): string
    requires |parts| == 4
  {
    Render(sum.json, ListPairs(sum.pairs, parts, kept, dropped, total, limit))
  }

  function ListPairs(pairs: seq<Pair>, parts: seq<string>, kept: nat, dropped: nat, total: nat, limit: nat): seq<Pair>
    requires |parts| == 4
  {
    Rewritten(pairs, map["clusters" := kept]) + ListNotes(parts, kept, dropped, total, limit)
  }

  function ListNotes(parts: seq<string>, kept: nat, dropped: nat, total: nat, limit: nat): seq<Pair>
    requires |parts| == 4
  {
    [Pair("response_truncated", Itoa(dropped), false), Pair("response_hint", Fill(parts, [kept, total, limit]), false)]
  }

  function ListRender(sum: SummaryLine, parts: seq<string>, total: nat, limit: nat): (nat, nat) -> string
    requires |parts| == 4
  {
    (kept: nat, dropped: nat) => ListSummary(sum, parts, kept, dropped, total, limit)
  }

  function ListParts(filtered: bool): seq<string> {
    HintParts("first", "clusters", if filtered then "a narrower filter" else "filter")
  }

  /** r returns the most cluster lines that fit, every scope line, and the
      summary; render is given the lines kept and dropped. */
  ghost predicate IsListCut(entries: seq<string>, scopes: seq<string>, render: (nat, nat) -> string, out: string, limit: nat, keep: nat, r: Fitted) {
    var total := |entries|;
    && FitsBest(entries, limit - |Concat(scopes)| - |render(total, total)|, false, keep)
    && r == if keep == total then Fitted(out, 0)
            else Fitted(Concat(entries[..keep]) + Concat(scopes) + render(keep, total - keep), total - keep)
  }

  ghost predicate IsListFit(entries: seq<string>, scopes: seq<string>, render: (nat, nat) -> string, out: string, limit: nat, r: Fitted) {
    exists keep :: IsListCut(entries, scopes, render, out, limit, keep, r)
  }

  method CutList(entries: seq<string>, scopes: seq<string>, render: (nat, nat) -> string, out: string, limit: nat) returns (r: Fitted)
    ensures IsListFit(entries, scopes, render, out, limit, r)
  {
    var total := |entries|;
    var scopeBytes := 0;
    for i := 0 to |scopes|
      invariant scopeBytes == |Concat(scopes[..i])|
    {
      assert scopes[..i + 1] == scopes[..i] + [scopes[i]];
      ConcatLast(scopes[..i], scopes[i]);
      scopeBytes := scopeBytes + |scopes[i]|;
    }
    assert scopes[..|scopes|] == scopes;
    var k, size := FitLines(entries, limit - scopeBytes - |render(total, total)|, false);
    r := if k == total then Fitted(out, 0)
         else Fitted(Concat(entries[..k]) + Concat(scopes) + render(k, total - k), total - k);
    assert IsListCut(entries, scopes, render, out, limit, k, r);
  }

  /** r is the answer for a cluster inventory out. */
  ghost predicate IsListAnswer(js: Json, out: string, filtered: bool, limit: int, r: Fitted) {
    IsAnswerFor(ReadListing(js, out, limit), ListParts(filtered), out, limit, r)
  }

  ghost predicate IsAnswerFor(l: Listing, parts: seq<string>, out: string, limit: int, r: Fitted)
    requires |parts| == 4 && (l.Listing? ==> limit > 0)
  {
    if l.NotAListing? then r == Fitted(out, 0)
    else IsListFit(l.entries, l.scopes, ListRender(l.sum, parts, |l.entries|, limit), out, limit, r)
  }

  method FitClusterList(js: Json, out: string, filtered: bool, limit: int) returns (r: Fitted)
    ensures IsListAnswer(js, out, filtered, limit, r)
  {
    var l := ReadListing(js, out, limit);
    if l.NotAListing? {
      return Fitted(out, 0);
    }
    r := CutList(l.entries, l.scopes, ListRender(l.sum, ListParts(filtered), |l.entries|, limit), out, limit);
  }

  /** A list that keeps a cluster line is within the limit, scope lines and all. */
  lemma ListFitsLimit(entries: seq<string>, scopes: seq<string>, sum: SummaryLine, parts: seq<string>, out: string, limit: nat, r: Fitted)
    requires |parts| == 4 && 0 < r.dropped < |entries|
    requires IsListFit(entries, scopes, ListRender(sum, parts, |entries|, limit), out, limit, r)
    ensures |r.text| <= limit
  {
    var keep :| IsListCut(entries, scopes, ListRender(sum, parts, |entries|, limit), out, limit, keep, r);
    ShorterListSummary(sum, parts, keep, |entries|, limit);
  }

  lemma ShorterListSummary(sum: SummaryLine, parts: seq<string>, keep: nat, total: nat, limit: nat)
    requires |parts| == 4 && keep <= total
    ensures |ListSummary(sum, parts, keep, total - keep, total, limit)| <= |ListSummary(sum, parts, total, total, total, limit)|
  {
    ShorterCount(total - keep, total);
    ShorterFill(parts, [keep, total, limit], [total, total, limit]);
    ShorterSummary(sum.json, sum.pairs, map["clusters" := keep], map["clusters" := total],
      ListNotes(parts, keep, total - keep, total, limit), ListNotes(parts, total, total, total, limit));
  }

  /** What is left for cluster lines beside the scope lines and the longest
      summary. */
  function ListRoom(entries: seq<string>, scopes: seq<string>, render: (nat, nat) -> string, limit: nat): int {
    limit - |Concat(scopes)| - |render(|entries|, |entries|)|
  }

  /** The cluster lines do not all fit, and either the first of them does, or the
      scope lines and the summary of a list without any are within the limit. */
  ghost predicate ListCanFit(entries: seq<string>, scopes: seq<string>, render: (nat, nat) -> string, limit: nat)
    requires entries != []
  {
    var room := ListRoom(entries, scopes, render, limit);
    |Concat(entries)| > room && (|Concat(entries[..1])| <= room || |Concat(scopes) + render(0, |entries|)| <= limit)
  }

  /** No summary of a cut list is longer than the longest. */
  ghost predicate IsLongest(render: (nat, nat) -> string, total: nat, keep: nat) {
    keep <= total ==> |render(keep, total - keep)| <= |render(total, total)|
  }

  lemma WhenCutFits(entries: seq<string>, scopes: seq<string>, render: (nat, nat) -> string, out: string, limit: nat, keep: nat, r: Fitted)
    requires entries != [] && |out| > limit && IsListCut(entries, scopes, render, out, limit, keep, r)
    requires IsLongest(render, |entries|, keep)
    ensures |r.text| <= limit <==> ListCanFit(entries, scopes, render, limit)
  {
    assert Kept(entries, |entries|, false) == entries;
    if keep < |entries| {
      KeptIsMonotone(entries, false, keep + 1, |entries|);
      if keep > 0 {
        KeptIsMonotone(entries, false, 1, keep);
      } else {
        assert Concat(entries[..0]) + Concat(scopes) == Concat(scopes);
      }
    }
  }

  lemma WhenListingFits(l: Listing, parts: seq<string>, out: string, limit: nat, r: Fitted)
    requires l.Listing? && l.entries != [] && |parts| == 4 && |out| > limit
    requires IsListFit(l.entries, l.scopes, ListRender(l.sum, parts, |l.entries|, limit), out, limit, r)
    ensures |r.text| <= limit <==> ListCanFit(l.entries, l.scopes, ListRender(l.sum, parts, |l.entries|, limit), limit)
  {
    var render := ListRender(l.sum, parts, |l.entries|, limit);
    var keep: nat :| IsListCut(l.entries, l.scopes, render, out, limit, keep, r);
    ShorterListSummary(l.sum, parts, keep, |l.entries|, limit);
    WhenCutFits(l.entries, l.scopes, render, out, limit, keep, r);
  }

  /** Exactly when the answer to an oversize list is within the limit, told from
      the list. Cluster lines that all fit beside the longest summary are returned
      as they came, over the limit. */
  lemma WhenListFits(js: Json, out: string, filtered: bool, limit: int, r: Fitted)
    requires IsListAnswer(js, out, filtered, limit, r) && ReadListing(js, out, limit).Listing?
    ensures var l := ReadListing(js, out, limit);
            |r.text| <= limit <==>
            ListCanFit(l.entries, l.scopes, ListRender(l.sum, ListParts(filtered), |l.entries|, limit), limit)
  {
    WhenListingFits(ReadListing(js, out, limit), ListParts(filtered), out, limit, r);
  }

  // ----- What a cut list says ----------------------------------------------

  lemma {:induction false} CountRewritten(pairs: seq<Pair>, notes: seq<Pair>, key: string, n: nat)
    requires CountOf(pairs, key).Some?
    ensures CountOf(Rewritten(pairs, map[key := n]) + notes, key) == Some(n)
  {
    AtoiOfItoa(n);
    var after := Rewritten(pairs, map[key := n]);
    if pairs[0].key != key {
      CountRewritten(pairs[1..], notes, key, n);
      assert (after + notes)[1..] == Rewritten(pairs[1..], map[key := n]) + notes;
    }
  }

  /** The pairs are the list's own but for the clusters kept, and after them
      comes the number dropped. */
  ghost predicate ListTells(before: seq<Pair>, after: seq<Pair>, kept: nat, dropped: nat) {
    && |after| == |before| + 2 && CountOf(after, "clusters") == Some(kept)
    && (forall i :: 0 <= i < |before| ==>
          after[i] == before[i].(value := if before[i].key == "clusters" then Itoa(kept) else before[i].value))
    && after[|before|] == Pair("response_truncated", Itoa(dropped), false)
  }

  lemma ListPairsTell(pairs: seq<Pair>, parts: seq<string>, kept: nat, dropped: nat, total: nat, limit: nat)
    requires |parts| == 4 && IsSummary(pairs) && CountOf(pairs, "clusters").Some?
    ensures var after := ListPairs(pairs, parts, kept, dropped, total, limit);
            IsSummary(after) && ListTells(pairs, after, kept, dropped)
  {
    CountRewritten(pairs, ListNotes(parts, kept, dropped, total, limit), "clusters", kept);
    assert "clusters"[0] !in {"scanned"[0], "findings"[0], "elapsed"[0]};
  }

  lemma ListPairsArePlain(pairs: seq<Pair>, parts: seq<string>, kept: nat, dropped: nat, total: nat, limit: nat)
    requires |parts| == 4 && OneLine(false, pairs) && forall i :: 0 <= i < |pairs| ==> !pairs[i].number
    ensures var after := ListPairs(pairs, parts, kept, dropped, total, limit);
            forall i :: 0 <= i < |after| ==> ValidKey(after[i].key) && !after[i].number
  {
    NoteKeysAreValid();
    var head, notes := Rewritten(pairs, map["clusters" := kept]), ListNotes(parts, kept, dropped, total, limit);
    var after := head + notes;
    forall i | 0 <= i < |after|
      ensures ValidKey(after[i].key) && !after[i].number
    {
      if i < |pairs| {
        assert head[i].key == pairs[i].key;
      } else {
        assert after[i] == notes[i - |pairs|];
      }
    }
  }

  /** What the decoder must do for a JSON list; logfmt needs nothing. */
  ghost predicate DecodesLists(js: Json, l: Listing, parts: seq<string>, limit: int)
    requires |parts| == 4
  {
    l.Listing? && limit >= 0 && l.sum.json ==> forall kept: nat, dropped: nat :: Decodes(js, ListPairs(l.sum.pairs, parts, kept, dropped, |l.entries|, limit))
  }

  /** How a summary line is read. */
  function Parser(js: Json): string -> Option<SummaryLine> {
    line => ParseSummary(js, line)
  }

  ghost predicate ListSummarises(parse: string -> Option<SummaryLine>, l: Listing, kept: nat, dropped: nat, line: string)
    requires l.Listing?
  {
    var sum := parse(line);
    sum.Some? && sum.value.json == l.sum.json && ListTells(l.sum.pairs, sum.value.pairs, kept, dropped)
  }

  /** The summary of a cut list parses back to what it tells. */
  lemma ListSummaryIsRead(js: Json, l: Listing, parts: seq<string>, kept: nat, dropped: nat, limit: nat)
    requires ListIsWellRead(l) && |parts| == 4 && DecodesLists(js, l, parts, limit)
    ensures var line := ListSummary(l.sum, parts, kept, dropped, |l.entries|, limit);
            ListSummarises(Parser(js), l, kept, dropped, line) && !HasPrefix(line, "cluster=")
  {
    var after := ListPairs(l.sum.pairs, parts, kept, dropped, |l.entries|, limit);
    ListPairsTell(l.sum.pairs, parts, kept, dropped, |l.entries|, limit);
    if l.sum.json {
      assert Decodes(js, after);
      assert Render(true, after)[0] == '{';
    } else {
      ListPairsArePlain(l.sum.pairs, parts, kept, dropped, |l.entries|, limit);
      ReadsBack(js, after);
      assert Render(false, after)[0] == after[0].key[0];
    }
  }

  /** What reading gives of a list and its summary. */
  ghost predicate ListIsWellRead(l: Listing) {
    && l.Listing? && AreLines(l.entries) && AreLines(l.scopes)
    && (forall i :: 0 <= i < |l.entries| ==> HasPrefix(l.entries[i], "cluster="))
    && (l.scopes != [] ==> !HasPrefix(l.scopes[0], "cluster="))
    && IsSummary(l.sum.pairs) && OneLine(l.sum.json, l.sum.pairs) && CountOf(l.sum.pairs, "clusters").Some?
    && (!l.sum.json ==> forall i :: 0 <= i < |l.sum.pairs| ==> !l.sum.pairs[i].number)
  }

  /** The text is the first n cluster lines, every scope line, and this last
      line; so it has n cluster lines. */
  ghost predicate ListShows(l: Listing, n: nat, text: string, last: string)
    requires l.Listing? && n <= |l.entries|
  {
    Lines(text) == l.entries[..n] + l.scopes + [last] && Leading(Lines(text), "cluster=") == n
  }

  /** The text, read back: the first n cluster lines, every scope line, and a
      summary whose count of clusters is the number of cluster lines there are,
      and which tells how many were dropped. */
  ghost predicate ListIsFaithful(parse: string -> Option<SummaryLine>, l: Listing, n: nat, text: string)
    requires l.Listing? && n <= |l.entries|
  {
    exists last :: ListShows(l, n, text, last) && ListSummarises(parse, l, n, |l.entries| - n, last)
  }

  // ----- A list is cut once ------------------------------------------------

  lemma ListSummaryIsLine(sum: SummaryLine, parts: seq<string>, kept: nat, dropped: nat, total: nat, limit: nat)
    requires |parts| == 4 && OneLine(sum.json, sum.pairs)
    ensures IsLine(ListSummary(sum, parts, kept, dropped, total, limit))
  {
    var head := Rewritten(sum.pairs, map["clusters" := kept]);
    var notes := ListNotes(parts, kept, dropped, total, limit);
    var cut := head + notes;
    NoteKeysAreValid();
    forall i | 0 <= i < |cut|
      ensures if sum.json then cut[i].number ==> NoNewline(cut[i].value) else ValidKey(cut[i].key)
    {
      if i < |head| {
        assert head[i].key == sum.pairs[i].key && (head[i].value == sum.pairs[i].value || exists n :: head[i].value == Itoa(n));
      } else {
        assert cut[i] == notes[i - |head|];
      }
    }
    RenderedOnOneLine(sum.json, cut);
    var body :| NoNewline(body) && Render(sum.json, cut) == body + "\n";
    assert (body + "\n")[..|body|] == body;
  }

  lemma ListIsUnique(entries: seq<string>, scopes: seq<string>, render: (nat, nat) -> string, out: string, limit: nat, r: Fitted, r': Fitted)
    requires IsListFit(entries, scopes, render, out, limit, r) && IsListFit(entries, scopes, render, out, limit, r')
    ensures r == r'
  {
    var j :| IsListCut(entries, scopes, render, out, limit, j, r);
    var k :| IsListCut(entries, scopes, render, out, limit, k, r');
    KeepIsUnique(entries, limit - |Concat(scopes)| - |render(|entries|, |entries|)|, false, j, k);
  }

  lemma {:induction false} LeadingIs(lines: seq<string>, prefix: string, n: nat)
    requires n <= |lines| && forall i :: 0 <= i < n ==> HasPrefix(lines[i], prefix)
    requires n < |lines| ==> !HasPrefix(lines[n], prefix)
    ensures Leading(lines, prefix) == n
  {
    if n > 0 {
      LeadingIs(lines[1..], prefix, n - 1);
    }
  }

  lemma {:induction false} LeadingHave(lines: seq<string>, prefix: string)
    ensures forall i :: 0 <= i < Leading(lines, prefix) ==> HasPrefix(lines[i], prefix)
  {
    if Leading(lines, prefix) > 0 {
      LeadingHave(lines[1..], prefix);
    }
  }

  lemma ScopeIsNoCluster(line: string)
    requires HasPrefix(line, "scope=")
    ensures !HasPrefix(line, "cluster=")
  {
    assert line[0] == "scope="[0] != "cluster="[0];
  }

  /** The listing these lines are. */
  ghost predicate ReadAs(js: Json, lines: seq<string>, l: Listing) {
    && l.Listing? && lines != [] && AreLines(lines)
    && lines[..|lines| - 1] == l.entries + l.scopes
    && |l.entries| == Leading(l.entries + l.scopes, "cluster=") && |l.scopes| == Leading(l.scopes, "scope=")
    && ParseSummary(js, lines[|lines| - 1]) == Some(l.sum) && CountOf(l.sum.pairs, "clusters").Some?
  }

  lemma ListingIsReadAs(js: Json, out: string, limit: int)
    requires ReadListing(js, out, limit).Listing?
    ensures ReadAs(js, Lines(out), ReadListing(js, out, limit))
  {
    LinesAreLines(out);
  }

  lemma ReadIsWellRead(js: Json, lines: seq<string>, l: Listing)
    requires PlainNumbers(js) && ReadAs(js, lines, l)
    ensures ListIsWellRead(l)
  {
    var body := l.entries + l.scopes;
    assert forall i :: 0 <= i < |l.entries| ==> l.entries[i] == body[i] == lines[i];
    assert forall i :: 0 <= i < |l.scopes| ==> l.scopes[i] == body[|l.entries| + i] == lines[|l.entries| + i];
    LeadingHave(body, "cluster=");
    LeadingHave(l.scopes, "scope=");
    if l.scopes != [] {
      ScopeIsNoCluster(l.scopes[0]);
    }
    ParsedIsOneLine(js, lines[|lines| - 1]);
    if !l.sum.json {
      ParsedIsText(js, lines[|lines| - 1]);
    }
  }

  /** What a listing is made of. */
  lemma ListingIsRead(js: Json, out: string, limit: int)
    requires PlainNumbers(js) && ReadListing(js, out, limit).Listing?
    ensures ListIsWellRead(ReadListing(js, out, limit))
  {
    ListingIsReadAs(js, out, limit);
    ReadIsWellRead(js, Lines(out), ReadListing(js, out, limit));
  }

  lemma ListLines(entries: seq<string>, scopes: seq<string>, last: string, prefix: string)
    requires AreLines(entries) && AreLines(scopes) && IsLine(last)
    requires forall i :: 0 <= i < |entries| ==> HasPrefix(entries[i], prefix)
    requires (scopes != [] ==> !HasPrefix(scopes[0], prefix)) && !HasPrefix(last, prefix)
    ensures var lines := Lines(Concat(entries) + Concat(scopes) + last);
            lines == entries + scopes + [last] && Leading(lines, prefix) == |entries|
  {
    ConcatBoth(entries, scopes);
    TextIsLines(entries + scopes, last);
    LeadingIs(entries + scopes + [last], prefix, |entries|);
  }

  /** The line may end a cut list: it is no cluster's, and reads back. */
  ghost predicate EndsList(parse: string -> Option<SummaryLine>, l: Listing, kept: nat, dropped: nat, line: string)
    requires l.Listing?
  {
    IsLine(line) && !HasPrefix(line, "cluster=") && ListSummarises(parse, l, kept, dropped, line)
  }

  lemma TextIsFaithful(parse: string -> Option<SummaryLine>, l: Listing, n: nat, last: string)
    requires ListIsWellRead(l) && n <= |l.entries| && EndsList(parse, l, n, |l.entries| - n, last)
    ensures ListIsFaithful(parse, l, n, Concat(l.entries[..n]) + Concat(l.scopes) + last)
  {
    ListLines(l.entries[..n], l.scopes, last, "cluster=");
    assert ListShows(l, n, Concat(l.entries[..n]) + Concat(l.scopes) + last, last);
  }

  lemma ListEndsWell(js: Json, l: Listing, parts: seq<string>, limit: nat, kept: nat, dropped: nat)
    requires ListIsWellRead(l) && |parts| == 4 && DecodesLists(js, l, parts, limit)
    ensures EndsList(Parser(js), l, kept, dropped, ListRender(l.sum, parts, |l.entries|, limit)(kept, dropped))
  {
    ListSummaryIsLine(l.sum, parts, kept, dropped, |l.entries|, limit);
    ListSummaryIsRead(js, l, parts, kept, dropped, limit);
  }

  lemma FitIsText(l: Listing, render: (nat, nat) -> string, out: string, limit: nat, r: Fitted)
    requires l.Listing? && IsListFit(l.entries, l.scopes, render, out, limit, r) && r.dropped > 0
    ensures r.dropped <= |l.entries|
    ensures r.text == Concat(l.entries[..|l.entries| - r.dropped]) + Concat(l.scopes) + render(|l.entries| - r.dropped, r.dropped)
  {
  }

  lemma FitListIsFaithful(parse: string -> Option<SummaryLine>, render: (nat, nat) -> string, l: Listing, out: string, limit: nat, r: Fitted)
    requires ListIsWellRead(l) && IsListFit(l.entries, l.scopes, render, out, limit, r) && r.dropped > 0
    requires forall kept: nat, dropped: nat :: EndsList(parse, l, kept, dropped, render(kept, dropped))
    ensures r.dropped <= |l.entries| && ListIsFaithful(parse, l, |l.entries| - r.dropped, r.text)
  {
    FitIsText(l, render, out, limit, r);
    var n := |l.entries| - r.dropped;
    TextIsFaithful(parse, l, n, render(n, r.dropped));
  }

  lemma ListingIsFaithful(js: Json, l: Listing, parts: seq<string>, out: string, limit: nat, r: Fitted)
    requires (l.Listing? ==> limit > 0 && ListIsWellRead(l)) && |parts| == 4 && IsAnswerFor(l, parts, out, limit, r) && r.dropped > 0
    requires DecodesLists(js, l, parts, limit)
    ensures TellsOfList(js, l, r)
  {
    var render := ListRender(l.sum, parts, |l.entries|, limit);
    forall kept: nat, dropped: nat
      ensures EndsList(Parser(js), l, kept, dropped, render(kept, dropped))
    {
      ListEndsWell(js, l, parts, limit, kept, dropped);
    }
    FitListIsFaithful(Parser(js), render, l, out, limit, r);
  }

  ghost predicate TellsOfList(js: Json, l: Listing, r: Fitted) {
    l.Listing? && r.dropped <= |l.entries| && ListIsFaithful(Parser(js), l, |l.entries| - r.dropped, r.text)
  }

  /** Every list that was cut says what it returns, in both formats. */
  lemma CutListsAreFaithful(js: Json, out: string, filtered: bool, limit: int, r: Fitted)
    requires PlainNumbers(js) && IsListAnswer(js, out, filtered, limit, r) && r.dropped > 0
    requires DecodesLists(js, ReadListing(js, out, limit), ListParts(filtered), limit)
    ensures TellsOfList(js, ReadListing(js, out, limit), r)
  {
    var l := ReadListing(js, out, limit);
    if l.Listing? {
      ListingIsRead(js, out, limit);
    }
    ListingIsFaithful(js, l, ListParts(filtered), out, limit, r);
  }

  /** Scope lines and a summary are no listing: there is no cluster line to drop. */
  lemma ScopesAreNoListing(js: Json, scopes: seq<string>, last: string, limit: int)
    requires AreLines(scopes) && IsLine(last) && (scopes != [] ==> !HasPrefix(scopes[0], "cluster="))
    ensures ReadListing(js, Concat(scopes) + last, limit).NotAListing?
  {
    TextIsLines(scopes, last);
    assert (scopes + [last])[..|scopes|] == scopes;
    assert Leading(scopes, "cluster=") == 0;
  }

  /** Cutting a cluster list twice at one limit is cutting it once, also when the
      scope lines and the summary alone are over it. */
  lemma ListTwiceIsListOnce(js: Json, out: string, filtered: bool, limit: int, r: Fitted, r': Fitted)
    requires PlainNumbers(js) && IsListAnswer(js, out, filtered, limit, r) && IsListAnswer(js, r.text, filtered, limit, r')
    ensures r' == Fitted(r.text, 0)
  {
    var l := ReadListing(js, out, limit);
    if l.Listing? {
      var parts, total := ListParts(filtered), |l.entries|;
      var render := ListRender(l.sum, parts, total, limit);
      var keep :| IsListCut(l.entries, l.scopes, render, out, limit, keep, r);
      if keep == total {
        ListIsUnique(l.entries, l.scopes, render, out, limit, r, r');
      } else if keep > 0 {
        ListFitsLimit(l.entries, l.scopes, l.sum, parts, out, limit, r);
      } else {
        ListingIsRead(js, out, limit);
        ListSummaryIsLine(l.sum, parts, 0, total, total, limit);
        assert Concat(l.entries[..0]) + Concat(l.scopes) == Concat(l.scopes);
        ScopesAreNoListing(js, l.scopes, render(0, total), limit);
      }
    }
  }
}
