/** The logfmt and JSON renderings of key/value pairs.

    A string is a sequence of bytes here, and bytes above 0x7f are kept as
    they are. What lookout writes can be read back: parsing an encoded line
    gives its fields. */
module Logfmt {
  import opened Basics
  import opened Decimal

  datatype Field = Field(key: string, value: string)

  predicate IsControl(c: char) {
    c < ' ' || c == '\U{7F}'
  }

  /** The value would break splitting at spaces. */
  predicate NeedsQuoting(v: string) {
    exists i :: 0 <= i < |v| && (v[i] == ' ' || v[i] == '=' || v[i] == '"' || IsControl(v[i]))
  }

  // ----- Quoting -----------------------------------------------------------

  function HexValue(c: char): Option<nat> {
    if '0' <= c <= '9' then Some((c - '0') as nat)
    else if 'a' <= c <= 'f' then Some((c - 'a') as nat + 10)
    else if 'A' <= c <= 'F' then Some((c - 'A') as nat + 10)
    else None
  }

  predicate IsOctal(c: char) {
    '0' <= c <= '7'
  }

  /** The byte of a three-digit octal escape; more than a byte is an error. */
  function OctalValue(a: char, b: char, c: char): Option<char>
    requires IsOctal(a) && IsOctal(b) && IsOctal(c)
  {
    var n := 64 * (a - '0') as nat + 8 * (b - '0') as nat + (c - '0') as nat;
    if n > 255 then None else Some(n as char)
  }

  lemma HexDigitRead(n: nat)
    requires n < 16
    ensures HexValue(HexDigit(n)) == Some(n)
  {
  }

  /** The letter of a one-letter escape. */
  function ShortEscape(c: char): Option<char> {
    if c == '"' || c == '\\' then Some(c)
    else if c == '\U{07}' then Some('a')
    else if c == '\U{08}' then Some('b')
    else if c == '\U{0C}' then Some('f')
    else if c == '\n' then Some('n')
    else if c == '\r' then Some('r')
    else if c == '\t' then Some('t')
    else if c == '\U{0B}' then Some('v')
    else None
  }

  function ShortUnescape(c: char): Option<char> {
    match c
    case '"' => Some('"') case '\\' => Some('\\')
    case 'a' => Some('\U{07}') case 'b' => Some('\U{08}') case 'f' => Some('\U{0C}') case 'n' => Some('\n')
    case 'r' => Some('\r') case 't' => Some('\t') case 'v' => Some('\U{0B}')
    case _ => None
  }

  /** One byte inside strconv.Quote's quotes. */
  function Escape(c: char): (s: string)
    ensures s != []
  {
    var short := ShortEscape(c);
    if short.Some? then ['\\', short.value]
    else if IsControl(c) then ['\\', 'x', HexDigit(c as nat / 16), HexDigit(c as nat % 16)]
    else [c]
  }

  /** Every byte replaced by its rendering. */
  function Spread(f: char -> string, v: string): string {
    if v == [] then [] else f(v[0]) + Spread(f, v[1..])
  }

  function EscapeAll(v: string): string {
    Spread(Escape, v)
  }

  function Quote(v: string): string {
    "\"" + EscapeAll(v) + "\""
  }

  /** Reads an escaped text up to its closing quote: the text and what follows. */
  function Unquote(s: string): Option<(string, string)> {
    if s == [] || s[0] == '\n' then None
    else if s[0] == '"' then Some(("", s[1..]))
    else if s[0] != '\\' then
      match Unquote(s[1..]) case None => None case Some(r) => Some(([s[0]] + r.0, r.1))
    else if |s| >= 2 && ShortUnescape(s[1]).Some? then
      match Unquote(s[2..]) case None => None case Some(r) => Some(([ShortUnescape(s[1]).value] + r.0, r.1))
    else if |s| >= 4 && s[1] == 'x' && HexValue(s[2]).Some? && HexValue(s[3]).Some? then
      match Unquote(s[4..])
      case None => None
      case Some(r) => Some(([(16 * HexValue(s[2]).value + HexValue(s[3]).value) as char] + r.0, r.1))
    else if |s| >= 4 && IsOctal(s[1]) && IsOctal(s[2]) && IsOctal(s[3]) && OctalValue(s[1], s[2], s[3]).Some? then
      match Unquote(s[4..])
      case None => None
      case Some(r) => Some(([OctalValue(s[1], s[2], s[3]).value] + r.0, r.1))
    else None
  }

  lemma UnquoteOne(c: char, s: string)
    ensures var r := Unquote(Escape(c) + s);
            match Unquote(s) case None => r == None case Some(t) => r == Some(([c] + t.0, t.1))
  {
    var e := Escape(c) + s;
    if ShortEscape(c).Some? {
      assert e[2..] == s;
    } else if IsControl(c) {
      HexDigitRead(c as nat / 16);
      HexDigitRead(c as nat % 16);
      assert e[4..] == s;
    } else {
      assert e[1..] == s;
    }
  }

  lemma AssociativeFour(a: string, b: string, c: string, d: string)
    ensures a + b + c + d == a + (b + c + d)
  {
  }

  lemma {:induction false} UnquoteEscaped(v: string, tail: string)
    ensures Unquote(EscapeAll(v) + "\"" + tail) == Some((v, tail))
  {
    if v == [] {
      assert (EscapeAll(v) + "\"" + tail)[1..] == tail;
    } else {
      UnquoteEscaped(v[1..], tail);
      UnquoteOne(v[0], EscapeAll(v[1..]) + "\"" + tail);
      assert EscapeAll(v) == Escape(v[0]) + EscapeAll(v[1..]);
      AssociativeFour(Escape(v[0]), EscapeAll(v[1..]), "\"", tail);
      assert [v[0]] + v[1..] == v;
    }
  }

  // ----- Encoding ----------------------------------------------------------

  function EncodeValue(v: string): string {
    if NeedsQuoting(v) then Quote(v) else v
  }

  function EncodeField(f: Field): string {
    f.key + "=" + EncodeValue(f.value)
  }

  function EncodeFields(fields: seq<Field>): string {
    if fields == [] then ""
    else if |fields| == 1 then EncodeField(fields[0])
    else EncodeField(fields[0]) + " " + EncodeFields(fields[1..])
  }

  /** One line. */
  function Encode(fields: seq<Field>): string {
    EncodeFields(fields) + "\n"
  }

  // ----- Parsing -----------------------------------------------------------

  predicate ValidKey(key: string) {
    && key != [] && 'a' <= key[0] <= 'z'
    && forall i :: 0 <= i < |key| ==> 'a' <= key[i] <= 'z' || IsDigit(key[i]) || key[i] == '_'
  }

  /** The position of the first c, or the length. */
  function IndexOf(s: string, c: char): (i: nat)
    ensures i <= |s| && (i < |s| ==> s[i] == c) && c !in s[..i]
  {
    if s == [] || s[0] == c then 0 else 1 + IndexOf(s[1..], c)
  }

  lemma IndexOfIs(s: string, c: char, i: nat)
    requires i <= |s| && c !in s[..i] && (i < |s| ==> s[i] == c)
    ensures IndexOf(s, c) == i
  {
    var k := IndexOf(s, c);
    assert forall j :: 0 <= j < i ==> s[..i][j] == s[j];
    assert forall j :: 0 <= j < k ==> s[..k][j] == s[j];
  }

  /** One field from the front of a line, and what follows it. */
  function ParseField(s: string): (r: Option<(Field, string)>)
    ensures r.Some? ==> |r.value.1| < |s| && ValidKey(r.value.0.key)
  {
    var eq := IndexOf(s, '=');
    if eq == |s| || !ValidKey(s[..eq]) then None
    else
      var key, rest := s[..eq], s[eq + 1..];
      if rest != [] && rest[0] == '"' then
        match Unquote(rest[1..])
        case None => None
        case Some(r) => if |r.1| < |s| then Some((Field(key, r.0), r.1)) else None
      else
        var sp := IndexOf(rest, ' ');
        Some((Field(key, rest[..sp]), rest[sp..]))
  }

  function ParseFields(s: string): (r: Option<seq<Field>>)
    ensures r.Some? ==> forall i :: 0 <= i < |r.value| ==> ValidKey(r.value[i].key)
    decreases |s|
  {
    if s == [] then Some([])
    else match ParseField(s)
      case None => None
      case Some(r) =>
        if r.1 == [] then Some([r.0])
        else if r.1[0] != ' ' then None
        else match ParseFields(r.1[1..])
          case None => None
          case Some(fs) => Some([r.0] + fs)
  }

  function Parse(line: string): (r: Option<seq<Field>>)
    ensures r.Some? ==> forall i :: 0 <= i < |r.value| ==> ValidKey(r.value[i].key)
  {
    ParseFields(if line != [] && line[|line| - 1] == '\n' then line[..|line| - 1] else line)
  }

  /** Splitting at a key's equals sign finds the key. */
  lemma KeyOf(key: string, rest: string)
    requires ValidKey(key)
    ensures IndexOf(key + "=" + rest, '=') == |key|
    ensures (key + "=" + rest)[..|key|] == key && (key + "=" + rest)[|key| + 1..] == rest
  {
    assert (key + "=" + rest)[..|key|] == key;
    IndexOfIs(key + "=" + rest, '=', |key|);
  }

  lemma ParseQuotedField(key: string, v: string, tail: string)
    requires ValidKey(key)
    ensures ParseField(key + "=" + (Quote(v) + tail)) == Some((Field(key, v), tail))
  {
    KeyOf(key, Quote(v) + tail);
    assert (Quote(v) + tail)[1..] == EscapeAll(v) + "\"" + tail;
    UnquoteEscaped(v, tail);
  }

  lemma ParsePlainField(key: string, v: string, tail: string)
    requires ValidKey(key) && !NeedsQuoting(v) && (tail == [] || tail[0] == ' ')
    ensures ParseField(key + "=" + (v + tail)) == Some((Field(key, v), tail))
  {
    KeyOf(key, v + tail);
    assert forall i :: 0 <= i < |v| ==> v[i] != ' ' && v[i] != '"';
    assert v + tail != [] ==> (v + tail)[0] != '"';
    assert (v + tail)[..|v|] == v && (v + tail)[|v|..] == tail;
    IndexOfIs(v + tail, ' ', |v|);
  }

  lemma ParseFieldOfEncoded(f: Field, tail: string)
    requires ValidKey(f.key) && (tail == [] || tail[0] == ' ')
    ensures ParseField(EncodeField(f) + tail) == Some((f, tail))
  {
    assert EncodeField(f) + tail == f.key + "=" + (EncodeValue(f.value) + tail);
    if NeedsQuoting(f.value) {
      ParseQuotedField(f.key, f.value, tail);
    } else {
      ParsePlainField(f.key, f.value, tail);
    }
  }

  lemma ParseTwo(f: Field, rest: string, fs: seq<Field>)
    requires ValidKey(f.key) && ParseFields(rest) == Some(fs)
    ensures ParseFields(EncodeField(f) + " " + rest) == Some([f] + fs)
  {
    var tail := " " + rest;
    ParseFieldOfEncoded(f, tail);
    assert EncodeField(f) + " " + rest == EncodeField(f) + tail;
    assert tail[1..] == rest;
  }

  lemma {:induction false} ParseFieldsOfEncoded(fields: seq<Field>)
    requires forall i :: 0 <= i < |fields| ==> ValidKey(fields[i].key)
    ensures ParseFields(EncodeFields(fields)) == Some(fields)
  {
    if |fields| == 1 {
      ParseFieldOfEncoded(fields[0], "");
      assert EncodeFields(fields) == EncodeField(fields[0]) + "";
      assert fields == [fields[0]];
    } else if |fields| > 1 {
      ParseFieldsOfEncoded(fields[1..]);
      ParseTwo(fields[0], EncodeFields(fields[1..]), fields[1..]);
      assert [fields[0]] + fields[1..] == fields;
    }
  }

  /** An encoded line parses back to its fields. */
  lemma RoundTrip(fields: seq<Field>)
    requires forall i :: 0 <= i < |fields| ==> ValidKey(fields[i].key)
    ensures Parse(Encode(fields)) == Some(fields)
  {
    ParseFieldsOfEncoded(fields);
    assert Encode(fields)[..|Encode(fields)| - 1] == EncodeFields(fields);
  }

  // ----- One line per record -----------------------------------------------

  ghost predicate NoNewline(s: string) {
    '\n' !in s
  }

  lemma {:induction false} SpreadOnOneLine(f: char -> string, v: string)
    requires forall c :: NoNewline(f(c))
    ensures NoNewline(Spread(f, v))
  {
    if v != [] {
      SpreadOnOneLine(f, v[1..]);
    }
  }

  lemma {:induction false} EncodedOnOneLine(fields: seq<Field>)
    requires forall i :: 0 <= i < |fields| ==> ValidKey(fields[i].key)
    ensures NoNewline(EncodeFields(fields))
  {
    if fields != [] {
      SpreadOnOneLine(Escape, fields[0].value);
      EncodedOnOneLine(fields[1..]);
    }
  }

  // ----- Lengths -----------------------------------------------------------

  lemma {:induction false} SpreadBoth(f: char -> string, a: string, b: string)
    ensures Spread(f, a + b) == Spread(f, a) + Spread(f, b)
  {
    if a == [] {
      assert a + b == b;
    } else {
      SpreadBoth(f, a[1..], b);
      assert (a + b)[1..] == a[1..] + b;
      Associative(f(a[0]), Spread(f, a[1..]), Spread(f, b));
    }
  }

  lemma {:induction false} SpreadUnchanged(f: char -> string, s: string)
    requires forall k :: 0 <= k < |s| ==> f(s[k]) == [s[k]]
    ensures Spread(f, s) == s
  {
    if s != [] {
      SpreadUnchanged(f, s[1..]);
    }
  }

  lemma {:induction false} EscapedAtLeast(v: string)
    ensures |v| <= |EscapeAll(v)|
  {
    if v != [] {
      EscapedAtLeast(v[1..]);
    }
  }

  lemma {:induction false} AppendedField(fields: seq<Field>, f: Field)
    ensures |EncodeFields(fields + [f])| == |EncodeFields(fields)| + (if fields == [] then 0 else 1) + |EncodeField(f)|
  {
    if fields != [] {
      AppendedField(fields[1..], f);
      assert (fields + [f])[1..] == fields[1..] + [f];
      assert (fields + [f])[0] == fields[0];
    } else {
      assert fields + [f] == [f];
    }
  }
}
