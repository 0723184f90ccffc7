/** The names of a discovered set of clusters, and the index from every
    accepted name to its cluster.

    A cluster is named bare when that is unique in the set, as name@project
    when it is not, and as name@project/location when even that collides; the
    canonical project/location/name is always accepted. */
module ClusterNames {
  import opened Basics
  import opened Sorting

  datatype Ref = Ref(project: string, location: string, name: string, endpoint: string)

  /** What the set's identity may do in a cluster. */
  datatype Access = Unchecked | Read | Limited | Unreachable

  datatype Entry = Entry(ref: Ref, name: string, canonical: string, storeName: string, setSize: nat, access: Access)

  function CanonicalName(r: Ref): string {
    if r.project == "" then r.name else r.project + "/" + r.location + "/" + r.name
  }

  function InProject(r: Ref): string {
    r.name + "@" + r.project
  }

  function InLocation(r: Ref): string {
    r.name + "@" + r.project + "/" + r.location
  }

  // ----- Counting ----------------------------------------------------------

  function Count(keys: seq<string>, k: string): nat {
    if keys == [] then 0 else Count(keys[..|keys| - 1], k) + if keys[|keys| - 1] == k then 1 else 0
  }

  lemma {:induction false} CountOnce(keys: seq<string>, i: nat)
    requires i < |keys|
    ensures Count(keys, keys[i]) >= 1
  {
    if i < |keys| - 1 {
      CountOnce(keys[..|keys| - 1], i);
    }
  }

  lemma {:induction false} CountTwice(keys: seq<string>, i: nat, j: nat)
    requires i < j < |keys| && keys[i] == keys[j]
    ensures Count(keys, keys[i]) >= 2
  {
    var init := keys[..|keys| - 1];
    if j < |keys| - 1 {
      CountTwice(init, i, j);
    } else {
      CountOnce(init, i);
    }
  }

  function Bare(refs: seq<Ref>): seq<string> {
    seq(|refs|, i requires 0 <= i < |refs| => refs[i].name)
  }

  function ByProject(refs: seq<Ref>): seq<string> {
    seq(|refs|, i requires 0 <= i < |refs| => InProject(refs[i]))
  }

  // ----- Naming ------------------------------------------------------------

  function ShortName(r: Ref, bare: nat, byProject: nat): string {
    if bare == 1 || r.project == "" then r.name
    else if byProject == 1 then InProject(r)
    else InLocation(r)
  }

  function Name(refs: seq<Ref>, r: Ref): Entry {
    var bare, byProject := Count(Bare(refs), r.name), Count(ByProject(refs), InProject(r));
    Entry(r, ShortName(r, bare, byProject), CanonicalName(r), if bare == 1 then r.name else "", |refs|, Unchecked)
  }

  function Named(refs: seq<Ref>): seq<Entry> {
    seq(|refs|, i requires 0 <= i < |refs| => Name(refs, refs[i]))
  }

  // ----- The index ---------------------------------------------------------

  /** The names accepted for an entry. */
  function Accepted(e: Entry): set<string> {
    {e.name, e.canonical}
  }

  /** No name is accepted for two entries. */
  ghost predicate Unambiguous(es: seq<Entry>) {
    forall i, j :: 0 <= i < j < |es| ==> Accepted(es[i]) !! Accepted(es[j])
  }

  /** Every accepted name to its entry, later entries overriding earlier. */
  function Index(es: seq<Entry>): map<string, nat> {
    if es == [] then map[]
    else
      var e := es[|es| - 1];
      Index(es[..|es| - 1])[e.name := |es| - 1][e.canonical := |es| - 1]
  }

  lemma {:induction false} IndexPointsBack(es: seq<Entry>)
    ensures forall n :: n in Index(es) ==> Index(es)[n] < |es| && n in Accepted(es[Index(es)[n]])
    ensures forall i, n :: 0 <= i < |es| && n in Accepted(es[i]) ==> n in Index(es)
  {
    if es != [] {
      IndexPointsBack(es[..|es| - 1]);
    }
  }

  /** In an unambiguous set the index is a bijection: a name leads to an entry
      exactly when it is one of that entry's names. */
  lemma IndexIsExact(es: seq<Entry>)
    requires Unambiguous(es)
    ensures forall i, n :: 0 <= i < |es| ==> (n in Accepted(es[i]) <==> n in Index(es) && Index(es)[n] == i)
  {
    IndexPointsBack(es);
    forall i, n | 0 <= i < |es| && n in Accepted(es[i])
      ensures n in Index(es) && Index(es)[n] == i
    {
      assert n in Accepted(es[Index(es)[n]]);
    }
  }

  // ----- When names are unambiguous ----------------------------------------

  ghost predicate Plain(s: string) {
    '@' !in s && '/' !in s
  }

  ghost predicate PlainRef(r: Ref) {
    Plain(r.project) && Plain(r.location) && Plain(r.name)
  }

  ghost predicate DistinctRefs(refs: seq<Ref>) {
    forall i, j :: 0 <= i < j < |refs| ==>
      refs[i].project != refs[j].project || refs[i].location != refs[j].location || refs[i].name != refs[j].name
  }

  /** Clusters without a project (kubeconfig contexts) have unique names. */
  ghost predicate UniqueLocals(refs: seq<Ref>) {
    forall i, j :: 0 <= i < j < |refs| && refs[i].project == "" && refs[j].project == "" ==> refs[i].name != refs[j].name
  }

  /** What a fleet's references are like: distinct, and either all without a
      project or with no separator in any part. */
  ghost predicate Nameable(refs: seq<Ref>) {
    && DistinctRefs(refs) && UniqueLocals(refs)
    && (|| (forall i :: 0 <= i < |refs| ==> refs[i].project == "")
        || (forall i :: 0 <= i < |refs| ==> PlainRef(refs[i])))
  }

  /** A text is split at its first separator in one way only. */
  lemma SplitOnce(a: string, b: string, c: string, d: string, sep: char)
    requires sep !in a && sep !in c && a + [sep] + b == c + [sep] + d
    ensures a == c && b == d
  {
    var s := a + [sep] + b;
    assert s[|a|] == sep && s[|c|] == sep;
    assert forall k :: 0 <= k < |a| ==> s[k] == a[k] != sep;
    assert forall k :: 0 <= k < |c| ==> s[k] == c[k] != sep;
    assert a == s[..|a|] && c == s[..|c|];
    assert b == s[|a| + 1..] && d == s[|c| + 1..];
  }

  lemma SameCanonical(r: Ref, q: Ref)
    requires Plain(r.project) && Plain(r.location) && Plain(q.project) && Plain(q.location)
    requires r.project + "/" + r.location + "/" + r.name == q.project + "/" + q.location + "/" + q.name
    ensures r.project == q.project && r.location == q.location && r.name == q.name
  {
    assert r.project + "/" + r.location + "/" + r.name == r.project + ['/'] + (r.location + "/" + r.name);
    assert q.project + "/" + q.location + "/" + q.name == q.project + ['/'] + (q.location + "/" + q.name);
    SplitOnce(r.project, r.location + "/" + r.name, q.project, q.location + "/" + q.name, '/');
    SplitOnce(r.location, r.name, q.location, q.name, '/');
  }

  lemma SameInLocation(r: Ref, q: Ref)
    requires Plain(r.name) && Plain(r.project) && Plain(q.name) && Plain(q.project)
    requires InLocation(r) == InLocation(q)
    ensures r.project == q.project && r.location == q.location && r.name == q.name
  {
    assert InLocation(r) == r.name + ['@'] + (r.project + "/" + r.location);
    assert InLocation(q) == q.name + ['@'] + (q.project + "/" + q.location);
    SplitOnce(r.name, r.project + "/" + r.location, q.name, q.project + "/" + q.location, '@');
    SplitOnce(r.project, r.location, q.project, q.location, '/');
  }

  /** The separators of a plain reference's names tell which form they have. */
  lemma FormsDiffer(r: Ref)
    requires Plain(r.name) && Plain(r.project) && Plain(r.location)
    ensures Plain(r.name)
    ensures '@' in InProject(r) && '/' !in InProject(r)
    ensures '@' in InLocation(r) && '/' in InLocation(r)
    ensures var c := r.project + "/" + r.location + "/" + r.name; '@' !in c && '/' in c
  {
    assert InProject(r)[|r.name|] == '@';
    assert InLocation(r)[|r.name|] == '@' && InLocation(r)[|r.name| + 1 + |r.project|] == '/';
    assert (r.project + "/" + r.location + "/" + r.name)[|r.project|] == '/';
  }

  /** Two plain references' short names differ. */
  lemma ShortNamesDiffer(r: Ref, q: Ref, bareR: nat, byProjectR: nat, bareQ: nat, byProjectQ: nat)
    requires Plain(r.name) && Plain(r.project) && Plain(r.location) && Plain(q.name) && Plain(q.project) && Plain(q.location)
    requires r.project != q.project || r.location != q.location || r.name != q.name
    requires r.project == q.project == "" ==> r.name != q.name
    requires r.name == q.name ==> bareR >= 2 && bareQ >= 2
    requires InProject(r) == InProject(q) ==> byProjectR >= 2 && byProjectQ >= 2
    ensures ShortName(r, bareR, byProjectR) != ShortName(q, bareQ, byProjectQ)
  {
    FormsDiffer(r);
    FormsDiffer(q);
    if InLocation(r) == InLocation(q) {
      SameInLocation(r, q);
    }
  }

  lemma CanonicalNamesDiffer(r: Ref, q: Ref)
    requires Plain(r.name) && Plain(r.project) && Plain(r.location) && Plain(q.name) && Plain(q.project) && Plain(q.location)
    requires r.project != q.project || r.location != q.location || r.name != q.name
    requires r.project == q.project == "" ==> r.name != q.name
    ensures CanonicalName(r) != CanonicalName(q)
  {
    FormsDiffer(r);
    FormsDiffer(q);
    if r.project + "/" + r.location + "/" + r.name == q.project + "/" + q.location + "/" + q.name {
      SameCanonical(r, q);
    }
  }

  lemma ShortIsNotCanonical(r: Ref, q: Ref, bare: nat, byProject: nat)
    requires Plain(r.name) && Plain(r.project) && Plain(r.location) && Plain(q.name) && Plain(q.project) && Plain(q.location)
    requires r.project == q.project == "" ==> r.name != q.name
    requires r.name == q.name ==> bare >= 2
    ensures ShortName(r, bare, byProject) != CanonicalName(q)
  {
    FormsDiffer(r);
    FormsDiffer(q);
  }

  lemma PlainNamesDisjoint(refs: seq<Ref>, i: nat, j: nat)
    requires i < j < |refs| && DistinctRefs(refs) && PlainRef(refs[i]) && PlainRef(refs[j])
    requires refs[i].project == refs[j].project == "" ==> refs[i].name != refs[j].name
    ensures Accepted(Name(refs, refs[i])) !! Accepted(Name(refs, refs[j]))
  {
    var r, q := refs[i], refs[j];
    var bareR, bareQ := Count(Bare(refs), r.name), Count(Bare(refs), q.name);
    var byR, byQ := Count(ByProject(refs), InProject(r)), Count(ByProject(refs), InProject(q));
    assert r.name == q.name ==> bareR >= 2 by {
      if r.name == q.name {
        CountTwice(Bare(refs), i, j);
      }
    }
    assert InProject(r) == InProject(q) ==> byR >= 2 by {
      if InProject(r) == InProject(q) {
        CountTwice(ByProject(refs), i, j);
      }
    }
    ShortNamesDiffer(r, q, bareR, byR, bareQ, byQ);
    CanonicalNamesDiffer(r, q);
    ShortIsNotCanonical(r, q, bareR, byR);
    ShortIsNotCanonical(q, r, bareQ, byQ);
  }

  /** A nameable fleet has no ambiguous name. */
  lemma NamesAreUnambiguous(refs: seq<Ref>)
    requires Nameable(refs)
    ensures Unambiguous(Named(refs))
  {
    forall i, j | 0 <= i < j < |refs|
      ensures Accepted(Named(refs)[i]) !! Accepted(Named(refs)[j])
    {
      if PlainRef(refs[i]) && PlainRef(refs[j]) {
        PlainNamesDisjoint(refs, i, j);
      }
    }
  }

  /** References with a project are plain; contexts may be called anything. */
  ghost predicate PlainProjects(refs: seq<Ref>) {
    DistinctRefs(refs) && forall k :: 0 <= k < |refs| && refs[k].project != "" ==> PlainRef(refs[k])
  }

  /** No context is called what another cluster is named. */
  ghost predicate ContextsApart(refs: seq<Ref>) {
    forall i, j :: 0 <= i < |refs| && 0 <= j < |refs| && i != j && refs[i].project == "" ==>
      refs[i].name !in Accepted(Name(refs, refs[j]))
  }

  lemma ContextHasOneName(refs: seq<Ref>, r: Ref)
    requires r.project == ""
    ensures Accepted(Name(refs, r)) == {r.name}
  {
  }

  /** Exactly when names are unambiguous, whatever contexts are called. */
  lemma UnambiguousIffContextsApart(refs: seq<Ref>)
    requires PlainProjects(refs)
    ensures Unambiguous(Named(refs)) <==> ContextsApart(refs)
  {
    if ContextsApart(refs) {
      forall i, j | 0 <= i < j < |refs|
        ensures Accepted(Named(refs)[i]) !! Accepted(Named(refs)[j])
      {
        if refs[i].project == "" {
          ContextHasOneName(refs, refs[i]);
        } else if refs[j].project == "" {
          ContextHasOneName(refs, refs[j]);
        } else {
          PlainNamesDisjoint(refs, i, j);
        }
      }
    }
    if Unambiguous(Named(refs)) {
      forall i, j | 0 <= i < |refs| && 0 <= j < |refs| && i != j && refs[i].project == ""
        ensures refs[i].name !in Accepted(Name(refs, refs[j]))
      {
        ContextHasOneName(refs, refs[i]);
        assert Accepted(Named(refs)[i]) !! Accepted(Named(refs)[j]);
      }
    }
  }

  /** A fleet of both kinds can have an ambiguous name: a context may be called
      what another cluster's canonical name is. No source of clusters returns
      such a fleet. */
  lemma SeparatorsMakeNamesAmbiguous()
    ensures var refs := [Ref("p", "l", "n", ""), Ref("", "", "p/l/n", "")];
            PlainProjects(refs) && UniqueLocals(refs) && !Unambiguous(Named(refs))
  {
    var refs := [Ref("p", "l", "n", ""), Ref("", "", "p/l/n", "")];
    var es := Named(refs);
    assert es[0].canonical == "p" + "/" + "l" + "/" + "n" == "p/l/n";
    assert es[1].canonical == "p/l/n";
    assert "p/l/n" in Accepted(es[0]) && "p/l/n" in Accepted(es[1]);
  }

  // ----- Ordering ----------------------------------------------------------

  function NameLess(): (Entry, Entry) -> bool {
    (a: Entry, b: Entry) => StringLess(a.name, b.name)
  }

  /** Readable first; unchecked gives no reason to rank below a refusal. */
  function AccessRank(a: Access): nat {
    match a case Read => 0 case Unchecked => 1 case Limited => 2 case Unreachable => 3
  }

  function ProjectRank(e: Entry, defaultProject: string): nat {
    if defaultProject != "" && e.ref.project == defaultProject then 0 else 1
  }

  predicate Ranks(a: Entry, b: Entry, defaultProject: string) {
    if AccessRank(a.access) != AccessRank(b.access) then AccessRank(a.access) < AccessRank(b.access)
    else if ProjectRank(a, defaultProject) != ProjectRank(b, defaultProject) then ProjectRank(a, defaultProject) < ProjectRank(b, defaultProject)
    else StringLess(a.name, b.name)
  }

  function RankLess(defaultProject: string): (Entry, Entry) -> bool {
    (a: Entry, b: Entry) => Ranks(a, b, defaultProject)
  }

  lemma NamesOrdered()
    ensures Ordering(NameLess())
  {
    forall a: Entry, b: Entry | StringLess(a.name, b.name)
      ensures !StringLess(b.name, a.name)
    {
      StringLessAsymmetric(a.name, b.name);
    }
    forall a: Entry, b: Entry, c: Entry | !NameLess()(b, a) && !NameLess()(c, b)
      ensures !NameLess()(c, a)
    {
      StringLessTransitive(a.name, b.name, c.name);
    }
  }

  lemma RanksOrdered(defaultProject: string)
    ensures Ordering(RankLess(defaultProject))
  {
    forall a: Entry, b: Entry | Ranks(a, b, defaultProject)
      ensures !Ranks(b, a, defaultProject)
    {
      if StringLess(a.name, b.name) {
        StringLessAsymmetric(a.name, b.name);
      }
    }
    forall a: Entry, b: Entry, c: Entry | !Ranks(b, a, defaultProject) && !Ranks(c, b, defaultProject)
      ensures !Ranks(c, a, defaultProject)
    {
      if !StringLess(b.name, a.name) && !StringLess(c.name, b.name) {
        StringLessTransitive(a.name, b.name, c.name);
      }
    }
  }

  // ----- Re-sorting --------------------------------------------------------

  /** Sorting cannot make names ambiguous. */
  lemma PermutationStaysUnambiguous(es: seq<Entry>, fs: seq<Entry>)
    requires Unambiguous(es) && multiset(es) == multiset(fs)
    ensures Unambiguous(fs)
  {
    forall i, j | 0 <= i < j < |fs|
      ensures Accepted(fs[i]) !! Accepted(fs[j])
    {
      assert fs[i] in multiset(es) && fs[j] in multiset(es);
      if fs[i] == fs[j] {
        assert fs == fs[..j] + [fs[j]] + fs[j + 1..];
        assert fs[i] in fs[..j];
        assert multiset(fs)[fs[i]] >= 2;
        var a, b := TwoPlaces(es, fs[i]);
        assert Accepted(es[a]) !! Accepted(es[b]);
      } else {
        var a :| 0 <= a < |es| && es[a] == fs[i];
        var b :| 0 <= b < |es| && es[b] == fs[j];
      }
    }
  }

  /** After any reordering, a name leads to the cluster it led to before. */
  lemma LookupSurvivesPermutation(es: seq<Entry>, fs: seq<Entry>, n: string)
    requires Unambiguous(es) && multiset(es) == multiset(fs)
    ensures n in Index(es) <==> n in Index(fs)
    ensures n in Index(es) ==> Index(es)[n] < |es| && Index(fs)[n] < |fs| && es[Index(es)[n]] == fs[Index(fs)[n]]
  {
    PermutationStaysUnambiguous(es, fs);
    IndexIsExact(es);
    IndexIsExact(fs);
    IndexPointsBack(es);
    IndexPointsBack(fs);
    if n in Index(es) {
      assert es[Index(es)[n]] in multiset(fs);
      var j :| 0 <= j < |fs| && fs[j] == es[Index(es)[n]];
      assert n in Accepted(fs[j]);
    }
    if n in Index(fs) {
      assert fs[Index(fs)[n]] in multiset(es);
      var i :| 0 <= i < |es| && es[i] == fs[Index(fs)[n]];
      assert n in Accepted(es[i]);
    }
  }

  /** The entries with their access recorded. */
  function Checked(es: seq<Entry>, access: Ref -> Access): seq<Entry> {
    seq(|es|, i requires 0 <= i < |es| => es[i].(access := access(es[i].ref)))
  }

  /** Recording access changes no name. */
  lemma {:induction false} CheckedIndex(es: seq<Entry>, access: Ref -> Access)
    ensures Index(Checked(es, access)) == Index(es)
    ensures Unambiguous(Checked(es, access)) <==> Unambiguous(es)
  {
    assert forall i :: 0 <= i < |es| ==> Accepted(Checked(es, access)[i]) == Accepted(es[i]);
    if es != [] {
      CheckedIndex(es[..|es| - 1], access);
      assert Checked(es, access)[..|es| - 1] == Checked(es[..|es| - 1], access);
    }
  }

  // ----- The set -----------------------------------------------------------

  method CountNames(refs: seq<Ref>) returns (bare: map<string, nat>, byProject: map<string, nat>)
    ensures forall k :: Get(bare, k) == Count(Bare(refs), k) && Get(byProject, k) == Count(ByProject(refs), k)
  {
    bare, byProject := map[], map[];
    for i := 0 to |refs|
      invariant forall k :: Get(bare, k) == Count(Bare(refs[..i]), k)
      invariant forall k :: Get(byProject, k) == Count(ByProject(refs[..i]), k)
    {
      assert Bare(refs[..i + 1])[..i] == Bare(refs[..i]);
      assert ByProject(refs[..i + 1])[..i] == ByProject(refs[..i]);
      bare := bare[refs[i].name := Get(bare, refs[i].name) + 1];
      byProject := byProject[InProject(refs[i]) := Get(byProject, InProject(refs[i])) + 1];
    }
    assert refs[..|refs|] == refs;
  }

  method BuildIndex(es: seq<Entry>) returns (byName: map<string, nat>)
    ensures byName == Index(es)
  {
    byName := map[];
    for i := 0 to |es|
      invariant byName == Index(es[..i])
    {
      assert es[..i + 1][..i] == es[..i];
      byName := byName[es[i].name := i];
      byName := byName[es[i].canonical := i];
    }
    assert es[..|es|] == es;
  }

  /** The loop that gives each cluster its names. */
  method NameAll(refs: seq<Ref>) returns (es: seq<Entry>)
    ensures es == Named(refs)
  {
    var bare, byProject := CountNames(refs);
    es := [];
    for i := 0 to |refs|
      invariant es == Named(refs)[..i]
    {
      var r := refs[i];
      var b, p := Get(bare, r.name), Get(byProject, InProject(r));
      var e := Entry(r, ShortName(r, b, p), CanonicalName(r), if b == 1 then r.name else "", |refs|, Unchecked);
      assert e == Named(refs)[i];
      es := es + [e];
    }
    assert Named(refs)[..|refs|] == Named(refs);
  }

  class ClusterSet {
    var entries: seq<Entry>
    var byName: map<string, nat>

    /** Names a discovered fleet. */
    constructor NameClusters(refs: seq<Ref>)
      ensures multiset(entries) == multiset(Named(refs)) && Sorted(entries, NameLess())
      ensures byName == Index(entries)
      ensures Nameable(refs) ==> Unambiguous(entries)
    {
      var es := NameAll(refs);
      es := SortStable(es, NameLess());
      SortIsPermutation(Named(refs), NameLess());
      NamesOrdered();
      SortSorts(Named(refs), NameLess());
      if Nameable(refs) {
        NamesAreUnambiguous(refs);
        PermutationStaysUnambiguous(Named(refs), es);
      }
      var index := BuildIndex(es);
      entries, byName := es, index;
    }

    /** Records what the identity may do in each cluster, orders the set by it
        and rebuilds the index: every name still leads to its cluster. */
    method CheckAccess(access: Ref -> Access, defaultProject: string)
      requires byName == Index(entries)
      modifies this
      ensures byName == Index(entries)
      ensures multiset(entries) == multiset(Checked(old(entries), access))
      ensures Sorted(entries, RankLess(defaultProject))
      ensures old(Unambiguous(entries)) ==>
                && Unambiguous(entries) && byName.Keys == old(byName).Keys
                && (forall n :: n in byName ==>
                      && byName[n] < |entries| && old(byName)[n] < |old(entries)|
                      && entries[byName[n]].ref == old(entries)[old(byName)[n]].ref)
    {
      ghost var before := entries;
      var es := entries;
      for i := 0 to |es|
        invariant |es| == |before|
        invariant forall k :: 0 <= k < |es| ==> es[k] == if k < i then before[k].(access := access(before[k].ref)) else before[k]
      {
        es := es[i := es[i].(access := access(es[i].ref))];
      }
      assert es == Checked(before, access);
      SortIsPermutation(es, RankLess(defaultProject));
      RanksOrdered(defaultProject);
      SortSorts(es, RankLess(defaultProject));
      CheckedIndex(before, access);
      entries := SortStable(es, RankLess(defaultProject));
      byName := BuildIndex(entries);
      if Unambiguous(before) {
        PermutationStaysUnambiguous(es, entries);
        forall n
          ensures n in Index(es) <==> n in byName
          ensures n in byName ==> byName[n] < |entries| && Index(es)[n] < |es| && entries[byName[n]] == es[Index(es)[n]]
        {
          LookupSurvivesPermutation(es, entries, n);
        }
        assert byName.Keys == old(byName).Keys;
      }
    }
  }
}
