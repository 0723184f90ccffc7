/** The Levenshtein distance behind the "did you mean" suggestions, and the
    suggestion itself.

    Distance is the recursive definition. It is tied to edit scripts (the
    least cost of turning one word into the other), shown to be a metric, and
    computed by a loop over two rows. */
module EditDistance {
  import opened Basics

  /** A cell of the distance table from its upper, left and diagonal neighbours. */
  function Cell(up: nat, left: nat, diagonal: nat, same: bool): (c: nat)
    ensures c <= up + 1 && c <= left + 1 && c <= diagonal + if same then 0 else 1
    ensures c == up + 1 || c == left + 1 || c == diagonal + if same then 0 else 1
  {
    var swap := diagonal + if same then 0 else 1;
    if up + 1 <= left + 1 && up + 1 <= swap then up + 1
    else if left + 1 <= swap then left + 1
    else swap
  }

  /** The distance between the first i characters of a and the first j of b. */
  function Dist(a: string, b: string, i: nat, j: nat): nat
    requires i <= |a| && j <= |b|
  {
    if i == 0 then j
    else if j == 0 then i
    else Cell(Dist(a, b, i - 1, j), Dist(a, b, i, j - 1), Dist(a, b, i - 1, j - 1), a[i - 1] == b[j - 1])
  }

  function Distance(a: string, b: string): nat {
    Dist(a, b, |a|, |b|)
  }

  // ----- Edit scripts ------------------------------------------------------

  datatype Edit = Keep | Substitute(c: char) | Insert(c: char) | Delete

  /** The word a script turns w into; None when the script does not fit w.
      The last edit handles the end of the word. */
  function Apply(script: seq<Edit>, w: string): Option<string> {
    if script == [] then if w == [] then Some([]) else None
    else
      var rest, e := script[..|script| - 1], script[|script| - 1];
      match e
      case Insert(c) => Append(Apply(rest, w), [c])
      case Keep => if w == [] then None else Append(Apply(rest, w[..|w| - 1]), [w[|w| - 1]])
      case Substitute(c) => if w == [] then None else Append(Apply(rest, w[..|w| - 1]), [c])
      case Delete => if w == [] then None else Apply(rest, w[..|w| - 1])
  }

  function Append(o: Option<string>, s: string): Option<string> {
    match o
    case None => None
    case Some(v) => Some(v + s)
  }

  function EditCost(e: Edit): nat {
    if e.Keep? then 0 else 1
  }

  function Cost(script: seq<Edit>): nat {
    if script == [] then 0 else Cost(script[..|script| - 1]) + EditCost(script[|script| - 1])
  }

  lemma LastEdit(script: seq<Edit>, e: Edit)
    ensures (script + [e])[..|script + [e]| - 1] == script
    ensures Cost(script + [e]) == Cost(script) + EditCost(e)
  {
    assert (script + [e])[..|script + [e]| - 1] == script;
  }

  /** Every script from one prefix to another costs at least their distance. */
  lemma {:induction false} DistIsLowerBound(script: seq<Edit>, a: string, b: string, i: nat, j: nat)
    requires i <= |a| && j <= |b|
    requires Apply(script, a[..i]) == Some(b[..j])
    ensures Dist(a, b, i, j) <= Cost(script)
    decreases |script|
  {
    if script != [] {
      var rest, e := script[..|script| - 1], script[|script| - 1];
      assert script == rest + [e];
      var i', j' := LastEditBack(rest, e, a, b, i, j);
      DistIsLowerBound(rest, a, b, i', j');
      DistGrowsBy(a, b, i, j, i', j', e);
      assert Cost(script) == Cost(rest) + EditCost(e);
    }
  }

  /** Before its last edit, a script led between shorter prefixes. */
  lemma LastEditBack(rest: seq<Edit>, e: Edit, a: string, b: string, i: nat, j: nat) returns (i': nat, j': nat)
    requires i <= |a| && j <= |b| && Apply(rest + [e], a[..i]) == Some(b[..j])
    ensures i' <= i && j' <= j && Apply(rest, a[..i']) == Some(b[..j'])
    ensures i' == (if e.Insert? then i else i - 1) && j' == (if e.Delete? then j else j - 1)
    ensures e.Keep? ==> a[i - 1] == b[j - 1]
  {
    assert (rest + [e])[..|rest|] == rest;
    assert i > 0 ==> a[..i][..i - 1] == a[..i - 1] && a[..i][i - 1] == a[i - 1];
    assert j > 0 ==> b[..j][..j - 1] == b[..j - 1] && b[..j][j - 1] == b[j - 1];
    match e {
      case Insert(c) =>
        var v := Apply(rest, a[..i]).value;
        assert v == (v + [c])[..j - 1];
        i', j' := i, j - 1;
      case Delete =>
        i', j' := i - 1, j;
      case Keep =>
        var v := Apply(rest, a[..i - 1]).value;
        assert v == (v + [a[i - 1]])[..j - 1] && (v + [a[i - 1]])[j - 1] == a[i - 1];
        i', j' := i - 1, j - 1;
      case Substitute(c) =>
        var v := Apply(rest, a[..i - 1]).value;
        assert v == (v + [c])[..j - 1];
        i', j' := i - 1, j - 1;
    }
  }

  /** One edit changes the distance by its cost at most. */
  lemma DistGrowsBy(a: string, b: string, i: nat, j: nat, i': nat, j': nat, e: Edit)
    requires i <= |a| && j <= |b| && i' == (if e.Insert? then i else i - 1) && j' == (if e.Delete? then j else j - 1)
    requires e.Keep? ==> a[i - 1] == b[j - 1]
    ensures Dist(a, b, i, j) <= Dist(a, b, i', j') + EditCost(e)
  {
  }

  /** A script between two prefixes whose cost is exactly their distance. */
  lemma {:induction false} BestScript(a: string, b: string, i: nat, j: nat) returns (script: seq<Edit>)
    requires i <= |a| && j <= |b|
    ensures Apply(script, a[..i]) == Some(b[..j])
    ensures Cost(script) == Dist(a, b, i, j)
    decreases i + j
  {
    assert i > 0 ==> a[..i][..i - 1] == a[..i - 1];
    assert j > 0 ==> b[..j] == b[..j - 1] + [b[j - 1]];
    var e: Edit;
    if i == 0 && j == 0 {
      return [];
    } else if i == 0 || (j > 0 && Dist(a, b, i, j) == Dist(a, b, i, j - 1) + 1) {
      script := BestScript(a, b, i, j - 1);
      e := Insert(b[j - 1]);
    } else if j == 0 || Dist(a, b, i, j) == Dist(a, b, i - 1, j) + 1 {
      script := BestScript(a, b, i - 1, j);
      e := Delete;
    } else {
      script := BestScript(a, b, i - 1, j - 1);
      e := if a[i - 1] == b[j - 1] then Keep else Substitute(b[j - 1]);
    }
    LastEdit(script, e);
    script := script + [e];
  }

  /** The distance is the least cost of any edit script. */
  lemma DistanceIsLeastCost(a: string, b: string)
    ensures exists s :: Apply(s, a) == Some(b) && Cost(s) == Distance(a, b)
    ensures forall s :: Apply(s, a) == Some(b) ==> Distance(a, b) <= Cost(s)
  {
    assert a[..|a|] == a && b[..|b|] == b;
    var best := BestScript(a, b, |a|, |b|);
    forall s | Apply(s, a) == Some(b)
      ensures Distance(a, b) <= Cost(s)
    {
      DistIsLowerBound(s, a, b, |a|, |b|);
    }
  }

  // ----- The distance is a metric ------------------------------------------

  lemma {:induction false} FreeScriptKeepsWord(script: seq<Edit>, w: string)
    requires Apply(script, w).Some? && Cost(script) == 0
    ensures Apply(script, w) == Some(w)
  {
    if script != [] {
      FreeScriptKeepsWord(script[..|script| - 1], w[..|w| - 1]);
      assert w[..|w| - 1] + [w[|w| - 1]] == w;
    }
  }

  lemma {:induction false} DistToSelf(w: string, i: nat)
    requires i <= |w|
    ensures Dist(w, w, i, i) == 0
  {
    if i > 0 {
      DistToSelf(w, i - 1);
    }
  }

  lemma DistanceZeroIffEqual(a: string, b: string)
    ensures Distance(a, b) == 0 <==> a == b
  {
    DistToSelf(a, |a|);
    assert a[..|a|] == a && b[..|b|] == b;
    var best := BestScript(a, b, |a|, |b|);
    if Distance(a, b) == 0 {
      FreeScriptKeepsWord(best, a);
    }
  }

  lemma {:induction false} DistSymmetric(a: string, b: string, i: nat, j: nat)
    requires i <= |a| && j <= |b|
    ensures Dist(a, b, i, j) == Dist(b, a, j, i)
    decreases i + j
  {
    if i > 0 && j > 0 {
      DistSymmetric(a, b, i - 1, j);
      DistSymmetric(a, b, i, j - 1);
      DistSymmetric(a, b, i - 1, j - 1);
      CellSymmetric(Dist(a, b, i - 1, j), Dist(a, b, i, j - 1), Dist(a, b, i - 1, j - 1), a[i - 1] == b[j - 1]);
    }
  }

  lemma CellSymmetric(up: nat, left: nat, diagonal: nat, same: bool)
    ensures Cell(up, left, diagonal, same) == Cell(left, up, diagonal, same)
  {
  }

  lemma DistanceSymmetric(a: string, b: string)
    ensures Distance(a, b) == Distance(b, a)
  {
    DistSymmetric(a, b, |a|, |b|);
  }

  /** Runs s and then t as one script that costs no more than both. */
  lemma {:induction false} Compose(s: seq<Edit>, t: seq<Edit>, a: string) returns (u: seq<Edit>)
    requires Apply(s, a).Some? && Apply(t, Apply(s, a).value).Some?
    ensures Apply(u, a) == Apply(t, Apply(s, a).value)
    ensures Cost(u) <= Cost(s) + Cost(t)
    decreases |s| + |t|
  {
    if s == [] && t == [] {
      return [];
    }
    var b := Apply(s, a).value;
    if t != [] && t[|t| - 1].Insert? {
      u := Compose(s, t[..|t| - 1], a);
      LastEdit(u, t[|t| - 1]);
      u := u + [t[|t| - 1]];
      return;
    }
    assert s != [];
    var s', e := s[..|s| - 1], s[|s| - 1];
    if e.Delete? {
      u := Compose(s', t, a[..|a| - 1]);
      LastEdit(u, e);
      u := u + [e];
      return;
    }
    assert t != [];
    var t', f := t[..|t| - 1], t[|t| - 1];
    var a' := if e.Insert? then a else a[..|a| - 1];
    assert Apply(s', a').value == b[..|b| - 1];
    u := Compose(s', t', a');
    var both := Merge(e, f);
    if both.Some? {
      LastEdit(u, both.value);
      u := u + [both.value];
    }
  }

  /** One edit doing what e and then f do to the character e produces; None
      when f deletes what e inserted. */
  function Merge(e: Edit, f: Edit): (r: Option<Edit>)
    requires !e.Delete? && !f.Insert?
    ensures r.Some? ==> EditCost(r.value) <= EditCost(e) + EditCost(f)
  {
    match (e, f)
    case (_, Keep) => Some(e)
    case (Insert(_), Substitute(y)) => Some(Insert(y))
    case (_, Substitute(y)) => Some(Substitute(y))
    case (Insert(_), Delete) => None
    case (_, Delete) => Some(Delete)
  }

  lemma TriangleInequality(a: string, b: string, c: string)
    ensures Distance(a, c) <= Distance(a, b) + Distance(b, c)
  {
    assert a[..|a|] == a && b[..|b|] == b && c[..|c|] == c;
    var s := BestScript(a, b, |a|, |b|);
    var t := BestScript(b, c, |b|, |c|);
    var u := Compose(s, t, a);
    DistIsLowerBound(u, a, c, |a|, |c|);
  }

  // ----- Two rows ----------------------------------------------------------

  /** The first j + 1 cells of the row below prev, for the i-th character c of a. */
  function NextRow(prev: seq<nat>, c: char, i: nat, b: string, j: nat): (row: seq<nat>)
    requires j <= |b| < |prev|
    ensures |row| == j + 1
  {
    if j == 0 then [i]
    else
      var row := NextRow(prev, c, i, b, j - 1);
      row + [Cell(prev[j], row[j - 1], prev[j - 1], c == b[j - 1])]
  }

  /** Row i of the distance table. */
  function Row(a: string, b: string, i: nat): (row: seq<nat>)
    requires i <= |a|
    ensures |row| == |b| + 1
  {
    if i == 0 then seq(|b| + 1, j => j) else NextRow(Row(a, b, i - 1), a[i - 1], i, b, |b|)
  }

  lemma {:induction false} NextRowIsDist(prev: seq<nat>, a: string, b: string, i: nat, j: nat)
    requires 0 < i <= |a| && j <= |b| && |prev| == |b| + 1
    requires forall k :: 0 <= k <= |b| ==> prev[k] == Dist(a, b, i - 1, k)
    ensures forall k :: 0 <= k <= j ==> NextRow(prev, a[i - 1], i, b, j)[k] == Dist(a, b, i, k)
  {
    if j > 0 {
      NextRowIsDist(prev, a, b, i, j - 1);
    }
  }

  lemma {:induction false} RowIsDist(a: string, b: string, i: nat)
    requires i <= |a|
    ensures forall k :: 0 <= k <= |b| ==> Row(a, b, i)[k] == Dist(a, b, i, k)
  {
    if i > 0 {
      RowIsDist(a, b, i - 1);
      NextRowIsDist(Row(a, b, i - 1), a, b, i, |b|);
    }
  }

  /** The inner loop: cur becomes the row below prev. */
  method FillRow(prev: array<nat>, cur: array<nat>, c: char, i: nat, b: string)
    requires prev != cur && prev.Length == cur.Length == |b| + 1
    modifies cur
    ensures cur[..] == NextRow(old(prev[..]), c, i, b, |b|)
  {
    ghost var above := prev[..];
    cur[0] := i;
    for j := 1 to |b| + 1
      invariant prev[..] == above
      invariant cur[..j] == NextRow(above, c, i, b, j - 1)
    {
      assert cur[j - 1] == cur[..j][j - 1];
      cur[j] := Cell(prev[j], cur[j - 1], prev[j - 1], c == b[j - 1]);
      assert cur[..j + 1] == cur[..j] + [cur[j]];
    }
    assert cur[..] == cur[..|b| + 1];
  }

  /** The two-row loop: prev and cur change places after every row. */
  method EditDistance(a: string, b: string) returns (d: nat)
    ensures d == Distance(a, b)
  {
    var prev := new nat[|b| + 1];
    var cur := new nat[|b| + 1];
    for j := 0 to |b| + 1
      invariant forall k :: 0 <= k < j ==> prev[k] == k
    {
      prev[j] := j;
    }
    for i := 1 to |a| + 1
      invariant prev != cur && prev.Length == cur.Length == |b| + 1
      invariant fresh(prev) && fresh(cur)
      invariant prev[..] == Row(a, b, i - 1)
    {
      FillRow(prev, cur, a[i - 1], i, b);
      prev, cur := cur, prev;
    }
    RowIsDist(a, b, |a|);
    d := prev[|b|];
  }

  // ----- The suggestion ----------------------------------------------------

  /** Entry i is the only accepted name that properly extends prop. */
  ghost predicate OnlyExtension(prop: string, accepted: seq<string>, i: nat) {
    && i < |accepted|
    && prop < accepted[i]
    && forall k :: 0 <= k < |accepted| && prop < accepted[k] ==> k == i
  }

  /** Entry i is within two edits and strictly nearer than every other entry. */
  ghost predicate OnlyNearest(prop: string, accepted: seq<string>, i: nat) {
    && i < |accepted|
    && Distance(prop, accepted[i]) <= 2
    && forall k :: 0 <= k < |accepted| && k != i ==> Distance(prop, accepted[i]) < Distance(prop, accepted[k])
  }

  /** The accepted names that properly extend prop, with their places. */
  method Extensions(prop: string, accepted: seq<string>) returns (prefix: seq<string>, ghost at: seq<nat>)
    ensures |at| == |prefix|
    ensures forall m :: 0 <= m < |at| ==> at[m] < |accepted| && prefix[m] == accepted[at[m]] && prop < prefix[m]
    ensures forall m, n :: 0 <= m < n < |at| ==> at[m] < at[n]
    ensures forall m :: 0 <= m < |accepted| && prop < accepted[m] ==> m in at
    ensures forall w :: w in prefix <==> w in accepted && prop < w
  {
    prefix, at := [], [];
    for k := 0 to |accepted|
      invariant |at| == |prefix|
      invariant forall m :: 0 <= m < |at| ==> at[m] < k && prefix[m] == accepted[at[m]] && prop < prefix[m]
      invariant forall m, n :: 0 <= m < n < |at| ==> at[m] < at[n]
      invariant forall m :: 0 <= m < k && prop < accepted[m] ==> m in at
    {
      if accepted[k] != prop && prop <= accepted[k] {
        prefix := prefix + [accepted[k]];
        at := at + [k];
      }
    }
  }

  /** The one name nearest to prop, if it is within two edits. */
  method Nearest(prop: string, accepted: seq<string>) returns (r: string)
    ensures forall i: nat :: OnlyNearest(prop, accepted, i) ==> r == accepted[i]
    ensures (forall i: nat :: !OnlyNearest(prop, accepted, i)) ==> r == ""
  {
    var best, bestDist, ties := "", 3, 0;
    ghost var who: nat := 0;
    for k := 0 to |accepted|
      invariant bestDist <= 3
      invariant forall m :: 0 <= m < k ==> bestDist <= Distance(prop, accepted[m])
      invariant bestDist < 3 ==> who < k && best == accepted[who] && Distance(prop, best) == bestDist && ties >= 1
      invariant bestDist == 3 ==> best == ""
      invariant bestDist < 3 && ties == 1 ==> forall m :: 0 <= m < k && m != who ==> bestDist < Distance(prop, accepted[m])
      invariant bestDist < 3 && ties > 1 ==> exists m :: 0 <= m < k && m != who && bestDist == Distance(prop, accepted[m])
    {
      var d := EditDistance(prop, accepted[k]);
      if d < bestDist {
        best, bestDist, ties := accepted[k], d, 1;
        who := k;
      } else if d == bestDist {
        ties := ties + 1;
        assert bestDist < 3 ==> k != who && bestDist == Distance(prop, accepted[k]);
      }
    }
    if ties == 1 && bestDist < 3 {
      assert OnlyNearest(prop, accepted, who);
      return best;
    }
    r := if ties != 1 then "" else best;
  }

  /** The nearest accepted property, or "" rather than a guess: the only
      proper extension of the name if there is one, else the only name at the
      least distance if that is at most two. lower is the lower-casing of the
      mistyped name. */
  method NearestProperty(name: string, accepted: seq<string>, lower: string -> string) returns (r: string)
    ensures forall i: nat :: OnlyExtension(lower(name), accepted, i) ==> r == accepted[i]
    ensures (forall i: nat :: !OnlyExtension(lower(name), accepted, i)) ==>
              forall i: nat :: OnlyNearest(lower(name), accepted, i) ==> r == accepted[i]
    ensures (forall i: nat :: !OnlyExtension(lower(name), accepted, i) && !OnlyNearest(lower(name), accepted, i)) ==> r == ""
  {
    var prop := lower(name);
    var prefix, at := Extensions(prop, accepted);
    if |prefix| == 1 {
      assert OnlyExtension(prop, accepted, at[0]);
      return prefix[0];
    }
    assert |at| > 1 ==> prop < accepted[at[0]] && prop < accepted[at[1]] && at[0] != at[1];
    assert forall i: nat :: OnlyExtension(prop, accepted, i) ==> i in at;
    r := Nearest(prop, accepted);
  }
}
