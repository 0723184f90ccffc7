/** Which cluster a call reads.

    The loops over a set in its order are related to a rule that speaks only of
    which clusters are in it, so the order the set was left in never decides. */
module ClusterChoice {
  import opened ClusterNames

  datatype Choice = Chosen(entry: Entry) | Undecided

  predicate Readable(e: Entry) {
    e.access == Read || e.access == Unchecked
  }

  /** Anything the access check could reach. */
  predicate Eligible(e: Entry) {
    e.access != Unreachable
  }

  predicate OnlyLimited(e: Entry) {
    Eligible(e) && !Readable(e)
  }

  predicate Preferred(e: Entry, defaultProject: string) {
    defaultProject != "" && e.ref.project == defaultProject
  }

  // ----- The rule ----------------------------------------------------------

  /** es[i] satisfies p and nothing else in the set does. */
  ghost predicate SoleAt(es: seq<Entry>, p: Entry -> bool, i: nat) {
    i < |es| && p(es[i]) && forall j :: 0 <= j < |es| && j != i ==> !p(es[j])
  }

  ghost predicate Sole(es: seq<Entry>, p: Entry -> bool, e: Entry) {
    exists i: nat :: SoleAt(es, p, i) && es[i] == e
  }

  /** Clusters readable everywhere decide when there are any, else the limited
      ones. */
  ghost function Tier(es: seq<Entry>): Entry -> bool {
    if exists i :: 0 <= i < |es| && Readable(es[i]) then Readable else OnlyLimited
  }

  ghost function Home(es: seq<Entry>, defaultProject: string): Entry -> bool {
    var tier := Tier(es);
    e => tier(e) && Preferred(e, defaultProject)
  }

  /** The only cluster of the tier in the default project, else the only one of
      the tier, else none. */
  ghost predicate ByTier(es: seq<Entry>, defaultProject: string, choice: Choice) {
    match choice
    case Chosen(e) =>
      || Sole(es, Home(es, defaultProject), e)
      || (Sole(es, Tier(es), e) && forall h :: !Sole(es, Home(es, defaultProject), h))
    case Undecided =>
      forall e :: !Sole(es, Home(es, defaultProject), e) && !Sole(es, Tier(es), e)
  }

  /** The default cluster serves, unless it is missing or unreachable. */
  ghost predicate Serves(es: seq<Entry>, defaultCluster: string, e: Entry) {
    && defaultCluster != "" && defaultCluster in Index(es)
    && Index(es)[defaultCluster] < |es| && es[Index(es)[defaultCluster]] == e && Eligible(e)
  }

  ghost predicate IsChoice(es: seq<Entry>, defaultCluster: string, defaultProject: string, choice: Choice) {
    if exists e :: Serves(es, defaultCluster, e) then choice.Chosen? && Serves(es, defaultCluster, choice.entry)
    else ByTier(es, defaultProject, choice)
  }

  // ----- Filtering ---------------------------------------------------------

  function Filter(es: seq<Entry>, p: Entry -> bool): seq<Entry> {
    if es == [] then []
    else
      var rest := Filter(es[..|es| - 1], p);
      if p(es[|es| - 1]) then rest + [es[|es| - 1]] else rest
  }

  lemma {:induction false} FilterSome(es: seq<Entry>, p: Entry -> bool, i: nat)
    requires i < |es| && p(es[i])
    ensures Filter(es, p) != []
  {
    if i < |es| - 1 {
      FilterSome(es[..|es| - 1], p, i);
    }
  }

  lemma {:induction false} FilterNone(es: seq<Entry>, p: Entry -> bool)
    requires forall i :: 0 <= i < |es| ==> !p(es[i])
    ensures Filter(es, p) == []
  {
    if es != [] {
      FilterNone(es[..|es| - 1], p);
    }
  }

  /** One entry passes exactly when it is the only one that can. */
  lemma {:induction false} FilterSole(es: seq<Entry>, p: Entry -> bool) returns (i: nat)
    requires |Filter(es, p)| == 1
    ensures SoleAt(es, p, i) && Filter(es, p) == [es[i]]
  {
    var n := |es| - 1;
    var init := es[..n];
    if p(es[n]) {
      i := n;
      forall j | 0 <= j < n
        ensures !p(es[j])
      {
        if p(init[j]) {
          FilterSome(init, p, j);
        }
      }
    } else {
      i := FilterSole(init, p);
      forall j | 0 <= j < |es| && j != i
        ensures !p(es[j])
      {
        if j < n {
          assert !p(init[j]);
        }
      }
    }
  }

  lemma {:induction false} SoleFilter(es: seq<Entry>, p: Entry -> bool, i: nat)
    requires SoleAt(es, p, i)
    ensures Filter(es, p) == [es[i]]
  {
    var n := |es| - 1;
    var init := es[..n];
    if i == n {
      FilterNone(init, p);
    } else {
      assert forall j :: 0 <= j < n ==> init[j] == es[j];
      SoleFilter(init, p, i);
    }
  }

  lemma SoleIffOne(es: seq<Entry>, p: Entry -> bool, e: Entry)
    ensures Sole(es, p, e) <==> Filter(es, p) == [e]
  {
    if Filter(es, p) == [e] {
      var i := FilterSole(es, p);
      assert SoleAt(es, p, i) && es[i] == e;
    }
    if Sole(es, p, e) {
      var i: nat :| SoleAt(es, p, i) && es[i] == e;
      SoleFilter(es, p, i);
    }
  }

  lemma {:induction false} FilterTwice(es: seq<Entry>, p: Entry -> bool, q: Entry -> bool, both: Entry -> bool)
    requires forall e :: both(e) == (p(e) && q(e))
    ensures Filter(Filter(es, p), q) == Filter(es, both)
  {
    if es != [] {
      var init, last := es[..|es| - 1], es[|es| - 1];
      FilterTwice(init, p, q, both);
      if p(last) {
        assert (Filter(init, p) + [last])[..|Filter(init, p)|] == Filter(init, p);
      }
    }
  }

  // ----- Choosing ----------------------------------------------------------

  /** Sorts a set's clusters by what the caller may read. */
  method Tiers(es: seq<Entry>) returns (readable: seq<Entry>, limited: seq<Entry>)
    ensures readable == Filter(es, Readable) && limited == Filter(es, OnlyLimited)
  {
    readable, limited := [], [];
    for i := 0 to |es|
      invariant readable == Filter(es[..i], Readable) && limited == Filter(es[..i], OnlyLimited)
    {
      assert es[..i + 1][..i] == es[..i];
      if Readable(es[i]) {
        readable := readable + [es[i]];
      } else if Eligible(es[i]) {
        limited := limited + [es[i]];
      }
    }
    assert es[..|es|] == es;
  }

  method Homes(tier: seq<Entry>, defaultProject: string) returns (homes: seq<Entry>)
    ensures homes == Filter(tier, e => Preferred(e, defaultProject))
  {
    ghost var p := (e: Entry) => Preferred(e, defaultProject);
    homes := [];
    for i := 0 to |tier|
      invariant homes == Filter(tier[..i], p)
    {
      assert tier[..i + 1][..i] == tier[..i];
      if Preferred(tier[i], defaultProject) {
        homes := homes + [tier[i]];
      }
    }
    assert tier[..|tier|] == tier;
  }

  lemma TierIsFilter(es: seq<Entry>)
    ensures Filter(es, Tier(es)) == if Filter(es, Readable) == [] then Filter(es, OnlyLimited) else Filter(es, Readable)
  {
    if i :| 0 <= i < |es| && Readable(es[i]) {
      FilterSome(es, Readable, i);
    } else {
      FilterNone(es, Readable);
    }
  }

  lemma HomesAreFilter(es: seq<Entry>, defaultProject: string)
    ensures Filter(Filter(es, Tier(es)), e => Preferred(e, defaultProject)) == Filter(es, Home(es, defaultProject))
  {
    FilterTwice(es, Tier(es), e => Preferred(e, defaultProject), Home(es, defaultProject));
  }

  /** One entry in the list, or none of interest. */
  lemma SoleOrNot(es: seq<Entry>, p: Entry -> bool)
    ensures |Filter(es, p)| == 1 ==> Sole(es, p, Filter(es, p)[0])
    ensures |Filter(es, p)| != 1 ==> forall e :: !Sole(es, p, e)
  {
    forall e
      ensures Sole(es, p, e) <==> Filter(es, p) == [e]
    {
      SoleIffOne(es, p, e);
    }
    if |Filter(es, p)| == 1 {
      assert Filter(es, p) == [Filter(es, p)[0]];
    }
  }

  /** The cluster for a call that names none. */
  method ChooseUnnamed(es: seq<Entry>, byName: map<string, nat>, defaultCluster: string, defaultProject: string)
    returns (choice: Choice)
    requires byName == Index(es)
    ensures IsChoice(es, defaultCluster, defaultProject, choice)
    ensures choice.Chosen? ==> choice.entry in es && Eligible(choice.entry)
  {
    IndexPointsBack(es);
    if defaultCluster != "" && defaultCluster in byName && Eligible(es[byName[defaultCluster]]) {
      assert Serves(es, defaultCluster, es[byName[defaultCluster]]);
      return Chosen(es[byName[defaultCluster]]);
    }
    choice := ChooseByTier(es, defaultProject);
  }

  method ChooseByTier(es: seq<Entry>, defaultProject: string) returns (choice: Choice)
    ensures ByTier(es, defaultProject, choice)
    ensures choice.Chosen? ==> choice.entry in es && Eligible(choice.entry)
  {
    var readable, limited := Tiers(es);
    var tier := if |readable| == 0 then limited else readable;
    var homes := Homes(tier, defaultProject);
    TierIsFilter(es);
    HomesAreFilter(es, defaultProject);
    SoleOrNot(es, Tier(es));
    SoleOrNot(es, Home(es, defaultProject));
    if |homes| == 1 {
      choice := Chosen(homes[0]);
    } else if |tier| == 1 {
      choice := Chosen(tier[0]);
    } else {
      choice := Undecided;
    }
  }

  // ----- A bare name repeated across projects ------------------------------

  ghost predicate Matches(e: Entry, name: string, project: string) {
    e.ref.name == name && e.ref.project == project
  }

  /** The default project's cluster of that name, if it has exactly one. */
  method InDefaultProject(es: seq<Entry>, name: string, defaultProject: string) returns (choice: Choice)
    ensures choice.Chosen? ==> defaultProject != "" && Plain(name)
    ensures choice.Chosen? ==>
              exists i :: 0 <= i < |es| && es[i] == choice.entry && Matches(es[i], name, defaultProject) &&
                          forall j :: 0 <= j < |es| && j != i ==> !Matches(es[j], name, defaultProject)
    ensures choice.Undecided? && defaultProject != "" && Plain(name) ==>
              forall i :: 0 <= i < |es| && Matches(es[i], name, defaultProject) ==>
                exists j :: 0 <= j < |es| && j != i && Matches(es[j], name, defaultProject)
  {
    if defaultProject == "" || '@' in name || '/' in name {
      return Undecided;
    }
    ghost var p := (e: Entry) => e.ref.name == name && e.ref.project == defaultProject;
    var match' := [];
    for i := 0 to |es|
      invariant match' == Filter(es[..i], p)
    {
      assert es[..i + 1][..i] == es[..i];
      if es[i].ref.name == name && es[i].ref.project == defaultProject {
        match' := match' + [es[i]];
      }
    }
    assert es[..|es|] == es;
    if |match'| == 1 {
      ghost var i := FilterSole(es, p);
      return Chosen(match'[0]);
    }
    forall i | 0 <= i < |es| && Matches(es[i], name, defaultProject)
      ensures exists j :: 0 <= j < |es| && j != i && Matches(es[j], name, defaultProject)
    {
      if forall j :: 0 <= j < |es| && j != i ==> !p(es[j]) {
        SoleFilter(es, p, i);
      }
    }
    return Undecided;
  }

  // ----- The order of the set never decides --------------------------------

  lemma {:induction false} FilterPermutes(es: seq<Entry>, p: Entry -> bool, e: Entry)
    ensures multiset(Filter(es, p))[e] == if p(e) then multiset(es)[e] else 0
  {
    if es != [] {
      var init, last := es[..|es| - 1], es[|es| - 1];
      FilterPermutes(init, p, e);
      assert es == init + [last];
    }
  }

  lemma SamePick(es: seq<Entry>, fs: seq<Entry>, p: Entry -> bool, e: Entry)
    requires multiset(es) == multiset(fs)
    ensures Sole(es, p, e) <==> Sole(fs, p, e)
  {
    SoleIffOne(es, p, e);
    SoleIffOne(fs, p, e);
    var a, b := Filter(es, p), Filter(fs, p);
    forall x
      ensures multiset(a)[x] == multiset(b)[x]
    {
      FilterPermutes(es, p, x);
      FilterPermutes(fs, p, x);
    }
    assert multiset(a) == multiset(b);
    assert |a| == |multiset(a)| == |b|;
    if a == [e] || b == [e] {
      assert e in multiset(a) && e in multiset(b);
    }
  }

  lemma SameTier(es: seq<Entry>, fs: seq<Entry>)
    requires multiset(es) == multiset(fs)
    ensures Tier(es) == Tier(fs)
  {
    if i :| 0 <= i < |es| && Readable(es[i]) {
      assert es[i] in multiset(fs);
    }
    if i :| 0 <= i < |fs| && Readable(fs[i]) {
      assert fs[i] in multiset(es);
    }
  }

  lemma SameServed(es: seq<Entry>, fs: seq<Entry>, defaultCluster: string, e: Entry)
    requires multiset(es) == multiset(fs) && Unambiguous(es)
    ensures Serves(es, defaultCluster, e) <==> Serves(fs, defaultCluster, e)
  {
    LookupSurvivesPermutation(es, fs, defaultCluster);
  }

  /** Reordering a set, as the access check does, changes no choice. */
  lemma OrderDoesNotDecide(es: seq<Entry>, fs: seq<Entry>, defaultCluster: string, defaultProject: string, choice: Choice)
    requires multiset(es) == multiset(fs) && Unambiguous(es)
    ensures IsChoice(es, defaultCluster, defaultProject, choice) <==> IsChoice(fs, defaultCluster, defaultProject, choice)
  {
    forall e
      ensures Serves(es, defaultCluster, e) <==> Serves(fs, defaultCluster, e)
    {
      SameServed(es, fs, defaultCluster, e);
    }
    SameTier(es, fs);
    var tier, home := Tier(es), Home(es, defaultProject);
    forall e
      ensures Sole(es, tier, e) <==> Sole(fs, tier, e)
      ensures Sole(es, home, e) <==> Sole(fs, home, e)
    {
      SamePick(es, fs, tier, e);
      SamePick(es, fs, home, e);
    }
  }

  /** The rule leaves no room: two choices for one set are the same. */
  lemma ChoiceIsUnique(es: seq<Entry>, defaultCluster: string, defaultProject: string, a: Choice, b: Choice)
    requires IsChoice(es, defaultCluster, defaultProject, a) && IsChoice(es, defaultCluster, defaultProject, b)
    ensures a == b
  {
    SoleOrNot(es, Tier(es));
    SoleOrNot(es, Home(es, defaultProject));
    forall e
      ensures Sole(es, Tier(es), e) <==> Filter(es, Tier(es)) == [e]
      ensures Sole(es, Home(es, defaultProject), e) <==> Filter(es, Home(es, defaultProject)) == [e]
    {
      SoleIffOne(es, Tier(es), e);
      SoleIffOne(es, Home(es, defaultProject), e);
    }
  }
}
