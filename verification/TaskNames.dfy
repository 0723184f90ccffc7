/** The names of the tasks incidents run in, and incident ids.

    SHA-256 is any function to 32 bytes, and lower-casing any function on
    characters. */
module TaskNames {
  import opened Basics

  type Byte = b: nat | b < 256

  datatype Kind = IncidentKind | StormKind | WatchboardKind

  /** lookout's own identity for an incident. */
  datatype IncidentKey = IncidentKey(cluster: string, kind: Kind, id: string)

  datatype Scope = IncidentScope | ClusterScope

  function KindName(k: Kind): string {
    match k case IncidentKind => "incident" case StormKind => "storm" case WatchboardKind => "watchboard"
  }

  /** The key's stable text form. */
  function KeyText(k: IncidentKey): string {
    KindName(k.kind) + "/" + k.cluster + "/" + k.id
  }

  // ----- Labels ------------------------------------------------------------

  predicate LabelChar(c: char) {
    'a' <= c <= 'z' || '0' <= c <= '9' || c == '-'
  }

  ghost predicate LabelChars(s: string) {
    forall i :: 0 <= i < |s| ==> LabelChar(s[i])
  }

  /** A host label as section 2.1 of RFC 1123 has it, in lower case. */
  ghost predicate ValidLabel(s: string) {
    1 <= |s| <= 63 && LabelChars(s) && s[0] != '-' && s[|s| - 1] != '-'
  }

  // ----- Hexadecimal -------------------------------------------------------

  function Hex(bytes: seq<Byte>): (s: string)
    ensures |s| == 2 * |bytes|
    ensures forall i :: 0 <= i < |s| ==> LabelChar(s[i]) && s[i] != '-' && ('0' <= s[i] <= '9' || 'a' <= s[i] <= 'f')
  {
    if bytes == [] then "" else [HexDigit(bytes[0] / 16), HexDigit(bytes[0] % 16)] + Hex(bytes[1..])
  }

  lemma HexDigitInjective(m: nat, n: nat)
    requires m < 16 && n < 16 && HexDigit(m) == HexDigit(n)
    ensures m == n
  {
  }

  lemma {:induction false} HexInjective(a: seq<Byte>, b: seq<Byte>)
    requires Hex(a) == Hex(b)
    ensures a == b
  {
    if a != [] {
      assert Hex(a)[0] == Hex(b)[0] && Hex(a)[1] == Hex(b)[1];
      HexDigitInjective(a[0] / 16, b[0] / 16);
      HexDigitInjective(a[0] % 16, b[0] % 16);
      assert Hex(a)[2..] == Hex(a[1..]) && Hex(b)[2..] == Hex(b[1..]);
      HexInjective(a[1..], b[1..]);
    }
  }

  // ----- Slugs -------------------------------------------------------------

  function SlugChar(c: char): (r: char)
    ensures LabelChar(r)
  {
    if 'a' <= c <= 'z' || '0' <= c <= '9' then c else '-'
  }

  function SlugChars(cluster: string, lower: char -> char): string {
    seq(|cluster|, i requires 0 <= i < |cluster| => SlugChar(lower(cluster[i])))
  }

  predicate IsHyphen(c: char) {
    c == '-'
  }

  /** Exactly the leading hyphens go. */
  lemma {:induction false} TrimLeftIsExact(s: string, n: nat)
    requires n <= |s| && (forall i :: 0 <= i < n ==> s[i] == '-') && (n < |s| ==> s[n] != '-')
    ensures TrimLeft(s, IsHyphen) == s[n..]
  {
    if n > 0 {
      TrimLeftIsExact(s[1..], n - 1);
      assert s[1..][n - 1..] == s[n..];
    }
  }

  /** Exactly the trailing hyphens go. */
  lemma {:induction false} TrimRightIsExact(s: string, n: nat)
    requires n <= |s| && (forall i :: n <= i < |s| ==> s[i] == '-') && (n > 0 ==> s[n - 1] != '-')
    ensures TrimRight(s, IsHyphen) == s[..n]
  {
    if n < |s| {
      TrimRightIsExact(s[..|s| - 1], n);
      assert s[..|s| - 1][..n] == s[..n];
    }
  }

  lemma {:induction false} TrimLeftIsSuffix(s: string)
    requires LabelChars(s)
    ensures LabelChars(TrimLeft(s, IsHyphen)) && (TrimLeft(s, IsHyphen) != [] ==> TrimLeft(s, IsHyphen)[0] != '-')
  {
    if s != [] && s[0] == '-' {
      TrimLeftIsSuffix(s[1..]);
    }
  }

  lemma {:induction false} TrimRightIsPrefix(s: string)
    requires LabelChars(s)
    ensures var r := TrimRight(s, IsHyphen);
            && |r| <= |s| && LabelChars(r) && (r != [] ==> r[0] == s[0] && r[|r| - 1] != '-')
  {
    if s != [] && s[|s| - 1] == '-' {
      TrimRightIsPrefix(s[..|s| - 1]);
    }
  }

  function Capped(slug: string, limit: nat): string {
    if |slug| > limit then TrimRight(slug[..limit], IsHyphen) else slug
  }

  /** At most limit characters of the cluster's slug; never empty. */
  function Slug(chars: string, limit: nat): string {
    var cut := Capped(TrimRight(TrimLeft(chars, IsHyphen), IsHyphen), limit);
    if cut == "" then "cluster" else cut
  }

  /** Nothing, or the middle of a name. */
  ghost predicate Trimmed(s: string) {
    LabelChars(s) && (s != "" ==> s[0] != '-' && s[|s| - 1] != '-')
  }

  lemma CappedIsTrimmed(slug: string, limit: nat)
    requires Trimmed(slug)
    ensures Trimmed(Capped(slug, limit)) && |Capped(slug, limit)| <= limit
  {
    if |slug| > limit {
      TrimRightIsPrefix(slug[..limit]);
    }
  }

  lemma SlugIsLabel(chars: string, limit: nat)
    requires LabelChars(chars) && limit >= 7
    ensures ValidLabelPart(Slug(chars, limit), limit)
  {
    TrimLeftIsSuffix(chars);
    TrimRightIsPrefix(TrimLeft(chars, IsHyphen));
    CappedIsTrimmed(TrimRight(TrimLeft(chars, IsHyphen), IsHyphen), limit);
  }

  /** The middle of a name: within the limit, no hyphen at either end. */
  ghost predicate ValidLabelPart(s: string, limit: nat) {
    1 <= |s| <= limit && LabelChars(s) && s[0] != '-' && s[|s| - 1] != '-'
  }

  // ----- Names -------------------------------------------------------------

  ghost predicate IsHash(hash: string -> seq<Byte>) {
    forall s :: |hash(s)| == 32
  }

  function Suffix(cluster: string, hash: string -> seq<Byte>): string
    requires |hash(cluster)| == 32
  {
    "-" + Hex(hash(cluster)[..4])
  }

  function ClusterTaskName(prefix: string, cluster: string, lower: char -> char, hash: string -> seq<Byte>): string
    requires |hash(cluster)| == 32 && |prefix| <= 40
  {
    prefix + Slug(SlugChars(cluster, lower), 63 - |prefix| - 9) + Suffix(cluster, hash)
  }

  function TaskFor(scope: Scope, key: IncidentKey, lower: char -> char, hash: string -> seq<Byte>): string
    requires IsHash(hash)
  {
    if scope.ClusterScope? then ClusterTaskName("lookout-", key.cluster, lower, hash)
    else if key.kind.WatchboardKind? then ClusterTaskName("lookout-wb-", key.cluster, lower, hash)
    else "lookout-" + Hex(hash(key.cluster + "\0" + KindName(key.kind) + "\0" + key.id)[..8])
  }

  /** The loop that builds a cluster's slug. */
  method BuildSlug(cluster: string, lower: char -> char, limit: nat) returns (slug: string)
    ensures slug == Slug(SlugChars(cluster, lower), limit)
    ensures limit >= 7 ==> ValidLabelPart(slug, limit)
  {
    var b := "";
    for i := 0 to |cluster|
      invariant b == SlugChars(cluster, lower)[..i]
    {
      var r := lower(cluster[i]);
      if 'a' <= r <= 'z' || '0' <= r <= '9' {
        b := b + [r];
      } else {
        b := b + "-";
      }
    }
    assert b == SlugChars(cluster, lower);
    slug := TrimRight(TrimLeft(b, IsHyphen), IsHyphen);
    if |slug| > limit {
      slug := TrimRight(slug[..limit], IsHyphen);
    }
    if slug == "" {
      slug := "cluster";
    }
    if limit >= 7 {
      SlugIsLabel(SlugChars(cluster, lower), limit);
    }
  }

  lemma SuffixIsLabelEnd(cluster: string, hash: string -> seq<Byte>)
    requires |hash(cluster)| == 32
    ensures var s := Suffix(cluster, hash); |s| == 9 && LabelChars(s) && s[8] != '-'
  {
  }

  lemma JoinedIsLabel(prefix: string, middle: string, suffix: string, limit: nat)
    requires LabelChars(prefix) && prefix != "" && prefix[0] != '-'
    requires ValidLabelPart(middle, limit)
    requires LabelChars(suffix) && suffix != "" && suffix[|suffix| - 1] != '-'
    requires |prefix| + limit + |suffix| <= 63
    ensures ValidLabel(prefix + middle + suffix)
  {
  }

  lemma ClusterNameIsLabel(prefix: string, cluster: string, lower: char -> char, hash: string -> seq<Byte>)
    requires |hash(cluster)| == 32 && 1 <= |prefix| <= 40 && LabelChars(prefix) && prefix[0] != '-'
    ensures ValidLabel(ClusterTaskName(prefix, cluster, lower, hash))
  {
    var limit: nat := 63 - |prefix| - 9;
    var slug := Slug(SlugChars(cluster, lower), limit);
    SuffixIsLabelEnd(cluster, hash);
    assert ValidLabelPart(slug, limit) by { SlugIsLabel(SlugChars(cluster, lower), limit); }
    JoinedIsLabel(prefix, slug, Suffix(cluster, hash), limit);
  }

  /** Every task name is a valid host label, whatever the cluster is called. */
  lemma TaskNameIsLabel(scope: Scope, key: IncidentKey, lower: char -> char, hash: string -> seq<Byte>)
    requires IsHash(hash)
    ensures ValidLabel(TaskFor(scope, key, lower, hash))
  {
    if scope.ClusterScope? {
      ClusterNameIsLabel("lookout-", key.cluster, lower, hash);
    } else if key.kind.WatchboardKind? {
      ClusterNameIsLabel("lookout-wb-", key.cluster, lower, hash);
    }
  }

  /** An incident's or storm's own task is never a watchboard's. */
  lemma IncidentIsNotWatchboard(incident: IncidentKey, board: IncidentKey, lower: char -> char, hash: string -> seq<Byte>)
    requires IsHash(hash) && !incident.kind.WatchboardKind? && board.kind.WatchboardKind?
    ensures TaskFor(IncidentScope, incident, lower, hash) != TaskFor(IncidentScope, board, lower, hash)
  {
    assert TaskFor(IncidentScope, board, lower, hash)[8] == "lookout-wb-"[8] == 'w';
  }

  /** Two clusters share a task name only if the first four bytes of their
      hashes agree. */
  lemma SameNameSameHash(prefix: string, a: string, b: string, lower: char -> char, hash: string -> seq<Byte>)
    requires IsHash(hash) && |prefix| <= 40
    requires ClusterTaskName(prefix, a, lower, hash) == ClusterTaskName(prefix, b, lower, hash)
    ensures hash(a)[..4] == hash(b)[..4]
  {
    var n, m := ClusterTaskName(prefix, a, lower, hash), ClusterTaskName(prefix, b, lower, hash);
    assert n[|n| - 8..] == Hex(hash(a)[..4]) && m[|m| - 8..] == Hex(hash(b)[..4]);
    HexInjective(hash(a)[..4], hash(b)[..4]);
  }

  // ----- Incident ids ------------------------------------------------------

  /** Where the first slash is from i on, or the length. */
  function Slash(id: string, i: nat): nat
    decreases |id| - i
  {
    if i >= |id| || id[i] == '/' then i else Slash(id, i + 1)
  }

  lemma {:induction false} SlashIsFirst(id: string, i: nat, n: nat)
    requires i <= n <= |id| && (n < |id| ==> id[n] == '/') && forall k :: i <= k < n ==> id[k] != '/'
    ensures Slash(id, i) == n
    decreases n - i
  {
    if i < n {
      SlashIsFirst(id, i + 1, n);
    }
  }

  lemma {:induction false} SlashIsThere(id: string, i: nat)
    requires i <= |id|
    ensures var n := Slash(id, i);
            i <= n <= |id| && (n < |id| ==> id[n] == '/') && forall k :: i <= k < n ==> id[k] != '/'
    decreases |id| - i
  {
    if i < |id| && id[i] != '/' {
      SlashIsThere(id, i + 1);
    }
  }

  /** An id is task/session, both non-empty. */
  function SplitId(id: string): (string, string, bool) {
    var i := Slash(id, 0);
    if i >= |id| then (id, "", false)
    else (id[..i], id[i + 1..], i > 0 && i + 1 < |id|)
  }

  /** An id is well formed exactly when it is a task without a slash, a slash
      and a session, both non-empty, and splitting it gives them back. */
  lemma SplitRecovers(task: string, sid: string)
    requires task != "" && '/' !in task && sid != ""
    ensures SplitId(task + "/" + sid) == (task, sid, true)
  {
    var id := task + "/" + sid;
    assert id[..|task|] == task && id[|task|] == '/' && id[|task| + 1..] == sid;
    assert forall k :: 0 <= k < |task| ==> id[k] == task[k];
    SlashIsFirst(id, 0, |task|);
  }

  lemma SplitIsExact(id: string)
    requires SplitId(id).2
    ensures var (task, sid, ok) := SplitId(id);
            id == task + "/" + sid && '/' !in task && task != "" && sid != ""
  {
    SlashIsThere(id, 0);
    var i := Slash(id, 0);
    assert id == id[..i] + [id[i]] + id[i + 1..];
  }

  lemma LabelHasNoSlash(s: string)
    requires ValidLabel(s)
    ensures '/' !in s && s != ""
  {
  }
}
