/** Summary lines: their pairs, the two renderings, and how long a rendering
    can get when only counts in it change. */
module Summary {
  import opened Basics
  import opened Decimal
  import opened Logfmt

  /** One key of a summary line; number marks a JSON value written bare. */
  datatype Pair = Pair(key: string, value: string, number: bool)

  // ----- JSON strings ------------------------------------------------------

  /** One byte inside json.Marshal's quotes. */
  function JsonEscape(c: char): (s: string)
    ensures s != []
  {
    if c == '"' || c == '\\' then ['\\', c]
    else if c == '\n' then "\\n"
    else if c == '\r' then "\\r"
    else if c == '\t' then "\\t"
    else if c == '\U{08}' then "\\b"
    else if c == '\U{0C}' then "\\f"
    else if c < ' ' || c == '<' || c == '>' || c == '&' then
      ['\\', 'u', '0', '0', HexDigit(c as nat / 16), HexDigit(c as nat % 16)]
    else [c]
  }

  function JsonEscapeAll(v: string): string {
    Spread(JsonEscape, v)
  }

  function JsonString(v: string): string {
    "\"" + JsonEscapeAll(v) + "\""
  }

  // ----- Rendering ---------------------------------------------------------

  function JsonPair(p: Pair): string {
    JsonString(p.key) + ":" + if p.number then p.value else JsonString(p.value)
  }

  function JsonPairs(pairs: seq<Pair>): string {
    if pairs == [] then ""
    else if |pairs| == 1 then JsonPair(pairs[0])
    else JsonPair(pairs[0]) + "," + JsonPairs(pairs[1..])
  }

  function Fields(pairs: seq<Pair>): seq<Field> {
    seq(|pairs|, i requires 0 <= i < |pairs| => Field(pairs[i].key, pairs[i].value))
  }

  /** The line in the stream's own format. */
  function Render(json: bool, pairs: seq<Pair>): string {
    if json then "{" + JsonPairs(pairs) + "}" + "\n" else Encode(Fields(pairs))
  }

  /** The pairs whose key is in counts given those counts, the rest as they
      were and in place. */
  function Rewritten(pairs: seq<Pair>, counts: map<string, nat>): seq<Pair> {
    seq(|pairs|, i requires 0 <= i < |pairs| =>
      if pairs[i].key in counts then pairs[i].(value := Itoa(counts[pairs[i].key])) else pairs[i])
  }

  // ----- Lengths -----------------------------------------------------------

  /** v renders no longer than w, quoted or not, in either format. */
  ghost predicate Shorter(v: string, w: string) {
    && |v| <= |w|
    && |EscapeAll(v)| <= |EscapeAll(w)|
    && |JsonEscapeAll(v)| <= |JsonEscapeAll(w)|
    && (NeedsQuoting(v) ==> NeedsQuoting(w))
  }

  lemma ShorterEncodes(v: string, w: string)
    requires Shorter(v, w)
    ensures |EncodeValue(v)| <= |EncodeValue(w)|
  {
    EscapedAtLeast(w);
  }

  /** Text with counts in it: parts and counts in turn. */
  function Fill(parts: seq<string>, counts: seq<nat>): string
    requires |parts| == |counts| + 1
  {
    if counts == [] then parts[0] else parts[0] + (Itoa(counts[0]) + Fill(parts[1..], counts[1..]))
  }

  lemma QuotingOfBoth(a: string, b: string)
    ensures NeedsQuoting(a + b) <==> NeedsQuoting(a) || NeedsQuoting(b)
  {
    assert forall i :: 0 <= i < |a| ==> (a + b)[i] == a[i];
    assert forall i :: 0 <= i < |b| ==> (a + b)[|a| + i] == b[i];
  }

  lemma ShorterBoth(a: string, b: string, c: string, d: string)
    requires Shorter(a, b) && Shorter(c, d)
    ensures Shorter(a + c, b + d)
  {
    QuotingOfBoth(a, c);
    QuotingOfBoth(b, d);
    SpreadBoth(Escape, a, c);
    SpreadBoth(Escape, b, d);
    SpreadBoth(JsonEscape, a, c);
    SpreadBoth(JsonEscape, b, d);
  }

  lemma ShorterIfPrefix(v: string, more: string)
    ensures Shorter(v, v + more)
  {
    QuotingOfBoth(v, more);
    SpreadBoth(Escape, v, more);
    SpreadBoth(JsonEscape, v, more);
  }

  lemma DigitIsPlain(c: char)
    requires IsDigit(c)
    ensures Escape(c) == JsonEscape(c) == [c]
  {
  }

  /** A rendered count is never quoted or escaped. */
  lemma CountIsPlain(n: nat)
    ensures EscapeAll(Itoa(n)) == JsonEscapeAll(Itoa(n)) == Itoa(n) && !NeedsQuoting(Itoa(n))
  {
    var s := Itoa(n);
    forall k | 0 <= k < |s|
      ensures Escape(s[k]) == JsonEscape(s[k]) == [s[k]]
    {
      DigitIsPlain(s[k]);
    }
    SpreadUnchanged(Escape, s);
    SpreadUnchanged(JsonEscape, s);
  }

  lemma ShorterCount(m: nat, n: nat)
    requires m <= n
    ensures Shorter(Itoa(m), Itoa(n))
  {
    LongerIfLarger(m, n);
    CountIsPlain(m);
    CountIsPlain(n);
  }

  /** The same text with larger counts renders no shorter. */
  lemma {:induction false} ShorterFill(parts: seq<string>, low: seq<nat>, high: seq<nat>)
    requires |parts| == |low| + 1 == |high| + 1
    requires forall i :: 0 <= i < |low| ==> low[i] <= high[i]
    ensures Shorter(Fill(parts, low), Fill(parts, high))
    decreases |low|
  {
    if low != [] {
      ShorterCount(low[0], high[0]);
      ShorterFill(parts[1..], low[1..], high[1..]);
      ShorterBoth(Itoa(low[0]), Itoa(high[0]), Fill(parts[1..], low[1..]), Fill(parts[1..], high[1..]));
      ShorterBoth(parts[0], parts[0], Itoa(low[0]) + Fill(parts[1..], low[1..]), Itoa(high[0]) + Fill(parts[1..], high[1..]));
    }
  }

  /** The same keys in the same places, every value rendering no longer. */
  ghost predicate ShorterPairs(p: seq<Pair>, q: seq<Pair>) {
    && |p| == |q|
    && forall i :: 0 <= i < |p| ==> p[i].key == q[i].key && p[i].number == q[i].number && Shorter(p[i].value, q[i].value)
  }

  lemma {:induction false} ShorterJson(p: seq<Pair>, q: seq<Pair>)
    requires ShorterPairs(p, q)
    ensures |JsonPairs(p)| <= |JsonPairs(q)|
  {
    if p != [] {
      assert |JsonPair(p[0])| <= |JsonPair(q[0])|;
      ShorterJson(p[1..], q[1..]);
    }
  }

  lemma {:induction false} ShorterLogfmt(p: seq<Pair>, q: seq<Pair>)
    requires ShorterPairs(p, q)
    ensures |EncodeFields(Fields(p))| <= |EncodeFields(Fields(q))|
  {
    if p != [] {
      ShorterEncodes(p[0].value, q[0].value);
      ShorterLogfmt(p[1..], q[1..]);
      assert Fields(p)[1..] == Fields(p[1..]) && Fields(q)[1..] == Fields(q[1..]);
    }
  }

  lemma ShorterRendering(json: bool, p: seq<Pair>, q: seq<Pair>)
    requires ShorterPairs(p, q)
    ensures |Render(json, p)| <= |Render(json, q)|
  {
    ShorterJson(p, q);
    ShorterLogfmt(p, q);
  }

  /** Lower counts render no longer. */
  lemma ShorterRewritten(pairs: seq<Pair>, low: map<string, nat>, high: map<string, nat>)
    requires low.Keys == high.Keys && forall k :: k in low ==> low[k] <= high[k]
    ensures ShorterPairs(Rewritten(pairs, low), Rewritten(pairs, high))
  {
    forall i | 0 <= i < |pairs|
      ensures Shorter(Rewritten(pairs, low)[i].value, Rewritten(pairs, high)[i].value)
    {
      if pairs[i].key in low {
        ShorterCount(low[pairs[i].key], high[pairs[i].key]);
      }
    }
  }

  lemma ShorterAppended(p: seq<Pair>, q: seq<Pair>, r: seq<Pair>, s: seq<Pair>)
    requires ShorterPairs(p, q) && ShorterPairs(r, s)
    ensures ShorterPairs(p + r, q + s)
  {
    forall i | 0 <= i < |p + r|
      ensures Shorter((p + r)[i].value, (q + s)[i].value)
      ensures (p + r)[i].key == (q + s)[i].key && (p + r)[i].number == (q + s)[i].number
    {
      if i < |p| {
        assert (p + r)[i] == p[i] && (q + s)[i] == q[i];
      } else {
        assert (p + r)[i] == r[i - |p|] && (q + s)[i] == s[i - |p|];
      }
    }
  }

  /** A rewritten summary with notes, when every count in it is raised. */
  lemma ShorterSummary(json: bool, pairs: seq<Pair>, low: map<string, nat>, high: map<string, nat>,
                       notes: seq<Pair>, notes': seq<Pair>)
    requires low.Keys == high.Keys && forall k :: k in low ==> low[k] <= high[k]
    requires ShorterPairs(notes, notes')
    ensures |Render(json, Rewritten(pairs, low) + notes)| <= |Render(json, Rewritten(pairs, high) + notes')|
  {
    ShorterRewritten(pairs, low, high);
    ShorterAppended(Rewritten(pairs, low), Rewritten(pairs, high), notes, notes');
    ShorterRendering(json, Rewritten(pairs, low) + notes, Rewritten(pairs, high) + notes');
  }

  // ----- One line ----------------------------------------------------------

  /** What a parsed summary's pairs are like: logfmt keys follow the key
      pattern, and a bare JSON number has no line break. */
  ghost predicate OneLine(json: bool, pairs: seq<Pair>) {
    forall i :: 0 <= i < |pairs| ==>
      if json then pairs[i].number ==> NoNewline(pairs[i].value) else ValidKey(pairs[i].key)
  }

  lemma {:induction false} JsonPairsOnOneLine(pairs: seq<Pair>)
    requires OneLine(true, pairs)
    ensures NoNewline(JsonPairs(pairs))
  {
    if pairs != [] {
      SpreadOnOneLine(JsonEscape, pairs[0].key);
      SpreadOnOneLine(JsonEscape, pairs[0].value);
      JsonPairsOnOneLine(pairs[1..]);
    }
  }

  lemma RenderedOnOneLine(json: bool, pairs: seq<Pair>)
    requires OneLine(json, pairs)
    ensures exists body :: NoNewline(body) && Render(json, pairs) == body + "\n"
  {
    if json {
      JsonPairsOnOneLine(pairs);
      assert NoNewline("{" + JsonPairs(pairs) + "}");
    } else {
      EncodedOnOneLine(Fields(pairs));
    }
  }
}
