/** The enrichment bundle of a new incident: sections under a size cap, with
    trailers for what was left out.

    The head lists the sections that shipped, and is budgeted at its longest.
    Sections ship as a prefix of those that have something to say. */
module EnrichBundle {
  import opened Basics
  import opened Logfmt
  import opened Summary

  /** A computed section (an empty body says nothing abnormal), or one that
      was deliberately skipped. */
  datatype Section = Section(name: string, body: string, cmd: string, skipped: bool)

  datatype StageError = StageError(stage: string, message: string)

  /** What running one stage came to. */
  datatype Outcome = Body(text: string) | Failure(message: string)

  // ----- Sections ----------------------------------------------------------

  predicate Ships(s: Section) {
    !s.skipped && s.body != ""
  }

  function Shippable(secs: seq<Section>): seq<Section> {
    if secs == [] then []
    else
      var rest, s := Shippable(secs[..|secs| - 1]), secs[|secs| - 1];
      if Ships(s) then rest + [s] else rest
  }

  function Names(secs: seq<Section>): seq<string> {
    seq(|secs|, i requires 0 <= i < |secs| => secs[i].name)
  }

  /** The bytes the bodies take. */
  function Size(secs: seq<Section>): nat {
    if secs == [] then 0 else Size(secs[..|secs| - 1]) + |secs[|secs| - 1].body|
  }

  /** k sections fit the budget and one more does not. */
  ghost predicate ShipsMost(ship: seq<Section>, budget: int, k: nat) {
    && k <= |ship|
    && (k > 0 ==> Size(ship[..k]) <= budget)
    && (k < |ship| ==> Size(ship[..k + 1]) > budget)
  }

  function NameSet(secs: seq<Section>): set<string> {
    set i | 0 <= i < |secs| :: secs[i].name
  }

  predicate Overflows(s: Section, included: set<string>) {
    s.skipped || (s.body != "" && s.name !in included)
  }

  function Overflowed(secs: seq<Section>, included: set<string>): seq<Section> {
    if secs == [] then []
    else
      var rest, s := Overflowed(secs[..|secs| - 1], included), secs[|secs| - 1];
      if Overflows(s, included) then rest + [s] else rest
  }

  // ----- Text --------------------------------------------------------------

  /** The head finding with the sections list as its last field; nothing when
      resolution failed before there was a target. */
  function RenderHead(head: Option<seq<Field>>, names: seq<string>): string {
    if head.None? then ""
    else Encode(head.value + if names == [] then [] else [Field("sections", Join(names, ","))])
  }

  /** A marker and its fields on one line. */
  function Trailer(marker: string, fields: seq<Field>): string {
    marker + " " + EncodeFields(fields) + "\n"
  }

  function OverflowLine(s: Section): string {
    Trailer("overflow", [Field("section", s.name), Field("cmd", s.cmd)])
  }

  const ERROR_MAX := 200

  /** At most ERROR_MAX bytes of the error; mask hides secrets in it. */
  function ErrorLine(e: StageError, mask: string -> string): string {
    var msg := if |e.message| > ERROR_MAX then e.message[..ERROR_MAX] + "\U{E2}\U{80}\U{A6}" else e.message;
    Trailer("enrichment_error", [Field("stage", e.stage), Field("error", mask(msg))])
  }

  /** The bodies of the included sections, in order. */
  function BodyText(secs: seq<Section>, included: set<string>): string {
    if secs == [] then ""
    else
      var rest, s := BodyText(secs[..|secs| - 1], included), secs[|secs| - 1];
      if s.name in included then rest + s.body else rest
  }

  /** One overflow trailer per section. */
  function OverflowText(secs: seq<Section>): string {
    if secs == [] then "" else OverflowText(secs[..|secs| - 1]) + OverflowLine(secs[|secs| - 1])
  }

  /** One error trailer per failed stage. */
  function ErrorText(errs: seq<StageError>, mask: string -> string): string {
    if errs == [] then "" else ErrorText(errs[..|errs| - 1], mask) + ErrorLine(errs[|errs| - 1], mask)
  }

  /** The text when the first k sections with something to say ship. A body is
      written by its section's name. */
  function Rendered(head: Option<seq<Field>>, secs: seq<Section>, errs: seq<StageError>, mask: string -> string, k: nat): string
    requires k <= |Shippable(secs)|
  {
    var shown := Shippable(secs)[..k];
    var included := NameSet(shown);
    RenderHead(head, Names(shown)) + BodyText(secs, included) + OverflowText(Overflowed(secs, included)) + ErrorText(errs, mask)
  }

  // ----- Choosing ----------------------------------------------------------

  /** Where the choice stands after the sections in ship. */
  ghost predicate Chosen(ship: seq<Section>, names: seq<string>, budget0: int, budget: int, truncated: bool) {
    && |names| <= |ship| && names == Names(ship[..|names|])
    && budget == budget0 - Size(ship[..|names|])
    && (names != [] ==> budget >= 0)
    && (truncated <==> |names| < |ship|)
    && (truncated ==> |ship[|names|].body| > budget)
  }

  lemma SizeOfLast(secs: seq<Section>, s: Section)
    ensures Size(secs + [s]) == Size(secs) + |s.body|
  {
    assert (secs + [s])[..|secs|] == secs;
  }

  lemma TakeSection(ship: seq<Section>, names: seq<string>, budget0: int, budget: int, s: Section)
    requires Chosen(ship, names, budget0, budget, false) && |s.body| <= budget
    ensures Chosen(ship + [s], names + [s.name], budget0, budget - |s.body|, false)
  {
    var more, all := names + [s.name], ship + [s];
    assert |names| == |ship| && ship[..|names|] == ship && names == Names(ship);
    assert |more| == |all| && all[..|more|] == all;
    NamesOfLast(ship, s);
    SizeOfLast(ship, s);
  }

  lemma NamesOfLast(secs: seq<Section>, s: Section)
    ensures Names(secs + [s]) == Names(secs) + [s.name]
  {
  }

  lemma LeaveSection(ship: seq<Section>, names: seq<string>, budget0: int, budget: int, truncated: bool, s: Section)
    requires Chosen(ship, names, budget0, budget, truncated) && (truncated || |s.body| > budget)
    ensures Chosen(ship + [s], names, budget0, budget, true)
  {
    assert (ship + [s])[..|names|] == ship[..|names|];
  }

  lemma ChosenIsMost(ship: seq<Section>, names: seq<string>, budget0: int, budget: int, truncated: bool)
    requires Chosen(ship, names, budget0, budget, truncated)
    ensures ShipsMost(ship, budget0, |names|)
  {
    var k := |names|;
    if k < |ship| {
      assert ship[..k + 1] == ship[..k] + [ship[k]];
      SizeOfLast(ship[..k], ship[k]);
    }
  }

  // ----- The bundle --------------------------------------------------------

  class Bundle {
    const cap: int
    var head: Option<seq<Field>>
    var secs: seq<Section>
    var errs: seq<StageError>
    var computed: nat

    constructor (cap: int)
      ensures this.cap == cap && head.None? && secs == [] && errs == [] && computed == 0 && WellFormed(secs)
    {
      this.cap := cap;
      head, secs, errs, computed := None, [], [], 0;
    }

    /** Runs a stage unless the budget is spent (expired is the context's
        error): one section or one error, never both. */
    method Stage(name: string, cmd: string, expired: Option<string>, outcome: Outcome)
      modifies this
      ensures head == old(head) && (old(WellFormed(secs)) ==> WellFormed(secs))
      ensures var failed := if expired.Some? then expired else if outcome.Failure? then Some(outcome.message) else None;
              if failed.Some?
              then errs == old(errs) + [StageError(name, failed.value)] && secs == old(secs) && computed == old(computed)
              else secs == old(secs) + [Section(name, outcome.text, cmd, false)] && errs == old(errs) && computed == old(computed) + 1
    {
      if expired.Some? {
        Fail(name, expired.value);
        return;
      }
      match outcome {
        case Failure(message) => Fail(name, message);
        case Body(text) =>
          computed := computed + 1;
          secs := secs + [Section(name, text, cmd, false)];
      }
    }

    method Skip(name: string, cmd: string)
      modifies this`secs
      ensures secs == old(secs) + [Section(name, "", cmd, true)]
      ensures old(WellFormed(secs)) ==> WellFormed(secs)
    {
      secs := secs + [Section(name, "", cmd, true)];
    }

    method Fail(stage: string, message: string)
      modifies this`errs
      ensures errs == old(errs) + [StageError(stage, message)]
    {
      errs := errs + [StageError(stage, message)];
    }

    /** Chooses the sections that ship: a whole prefix of those with something
        to say, as long as the budget allows. */
    method Choose(budget0: int) returns (names: seq<string>, included: set<string>, truncated: bool)
      ensures |names| <= |Shippable(secs)| && names == Names(Shippable(secs)[..|names|])
      ensures ShipsMost(Shippable(secs), budget0, |names|)
      ensures truncated <==> |names| < |Shippable(secs)|
      ensures included == NameSet(Shippable(secs)[..|names|])
    {
      names, included, truncated := [], {}, false;
      var budget := budget0;
      for i := 0 to |secs|
        invariant Chosen(Shippable(secs[..i]), names, budget0, budget, truncated)
        invariant forall n :: n in included <==> n in names
      {
        var s := secs[i];
        ghost var ship := Shippable(secs[..i]);
        assert secs[..i + 1][..i] == secs[..i];
        if s.skipped || s.body == "" {
          continue;
        }
        assert Shippable(secs[..i + 1]) == ship + [s];
        if truncated || |s.body| > budget {
          LeaveSection(ship, names, budget0, budget, truncated, s);
          truncated := true;
          continue;
        }
        TakeSection(ship, names, budget0, budget, s);
        budget := budget - |s.body|;
        included := included + {s.name};
        names := names + [s.name];
      }
      assert secs[..|secs|] == secs;
      ChosenIsMost(Shippable(secs), names, budget0, budget, truncated);
      forall n
        ensures n in names <==> n in NameSet(Shippable(secs)[..|names|])
      {
        assert forall i :: 0 <= i < |names| ==> names[i] == Shippable(secs)[..|names|][i].name;
      }
    }

    /** Head, bodies, overflow trailers, error trailers; names are the sections
        the size budget chose. */
    method Render(mask: string -> string) returns (text: string, truncated: bool, names: seq<string>)
      ensures |names| <= |Shippable(secs)| && names == Names(Shippable(secs)[..|names|])
      ensures ShipsMost(Shippable(secs), cap - |RenderHead(head, Names(Shippable(secs)))|, |names|)
      ensures truncated <==> |names| < |Shippable(secs)|
      ensures text == Rendered(head, secs, errs, mask, |names|)
    {
      var allNames: seq<string> := [];
      for i := 0 to |secs|
        invariant allNames == Names(Shippable(secs[..i]))
      {
        assert secs[..i + 1][..i] == secs[..i];
        if Ships(secs[i]) {
          allNames := allNames + [secs[i].name];
        }
      }
      assert secs[..|secs|] == secs;
      var included;
      names, included, truncated := Choose(cap - |RenderHead(head, allNames)|);
      var bodies, trailers := WriteSections(included);
      var errors := WriteErrors(mask);
      text := RenderHead(head, names) + bodies + trailers + errors;
    }

    method WriteSections(included: set<string>) returns (bodies: string, trailers: string)
      ensures bodies == BodyText(secs, included) && trailers == OverflowText(Overflowed(secs, included))
    {
      bodies, trailers := "", "";
      for i := 0 to |secs|
        invariant bodies == BodyText(secs[..i], included)
      {
        assert secs[..i + 1][..i] == secs[..i];
        if secs[i].name in included {
          bodies := bodies + secs[i].body;
        }
      }
      for i := 0 to |secs|
        invariant trailers == OverflowText(Overflowed(secs[..i], included))
      {
        assert secs[..i + 1][..i] == secs[..i];
        if Overflows(secs[i], included) {
          ghost var o := Overflowed(secs[..i], included);
          assert Overflowed(secs[..i + 1], included) == o + [secs[i]] && (o + [secs[i]])[..|o|] == o;
          trailers := trailers + OverflowLine(secs[i]);
        }
      }
      assert secs[..|secs|] == secs;
    }

    method WriteErrors(mask: string -> string) returns (text: string)
      ensures text == ErrorText(errs, mask)
    {
      text := "";
      for i := 0 to |errs|
        invariant text == ErrorText(errs[..i], mask)
      {
        assert errs[..i + 1][..i] == errs[..i];
        text := text + ErrorLine(errs[i], mask);
      }
      assert errs[..|errs|] == errs;
    }
  }

  // ----- What the renderer promises ----------------------------------------

  lemma {:induction false} JoinOfPrefix(names: seq<string>, k: nat)
    requires k <= |names|
    ensures Join(names[..k], ",") <= Join(names, ",")
    decreases |names|
  {
    if k == |names| {
      assert names[..k] == names;
    } else if k > 0 {
      var init := names[..|names| - 1];
      JoinOfPrefix(init, k);
      assert init[..k] == names[..k];
    }
  }

  /** Listing fewer sections never makes the head longer. */
  lemma HeadOfPrefix(head: Option<seq<Field>>, names: seq<string>, k: nat)
    requires k <= |names|
    ensures |RenderHead(head, names[..k])| <= |RenderHead(head, names)|
  {
    if head.Some? {
      JoinOfPrefix(names, k);
      var few, all := Join(names[..k], ","), Join(names, ",");
      ShorterIfPrefix(few, all[|few|..]);
      assert few + all[|few|..] == all;
      LastFieldLength(head.value, few, all);
      assert head.value + [] == head.value;
    }
  }

  lemma {:induction false} LastFieldLength(fields: seq<Field>, few: string, all: string)
    requires Shorter(few, all)
    ensures |EncodeFields(fields)| <= |EncodeFields(fields + [Field("sections", all)])|
    ensures |EncodeFields(fields + [Field("sections", few)])| <= |EncodeFields(fields + [Field("sections", all)])|
  {
    ShorterEncodes(few, all);
    AppendedField(fields, Field("sections", few));
    AppendedField(fields, Field("sections", all));
  }

  /** A skipped section was never computed. */
  ghost predicate WellFormed(secs: seq<Section>) {
    forall i :: 0 <= i < |secs| && secs[i].skipped ==> secs[i].body == ""
  }

  ghost predicate DistinctNames(secs: seq<Section>) {
    forall i, j :: 0 <= i < j < |secs| ==> secs[i].name != secs[j].name
  }

  function Least(a: nat, b: nat): nat {
    if a <= b then a else b
  }

  lemma NextShipped(ship: seq<Section>, done: seq<Section>, s: Section, k: nat)
    requires DistinctNames(ship) && k <= |ship| && done + [s] <= ship
    ensures s.name in NameSet(ship[..k]) <==> |done| < k
    ensures |done| < k ==> (done + [s])[..Least(k, |done| + 1)] == done + [s] && done[..Least(k, |done|)] == done
    ensures |done| >= k ==> (done + [s])[..Least(k, |done| + 1)] == done[..Least(k, |done|)]
  {
    assert ship[|done|] == (done + [s])[|done|] == s;
    if |done| < k {
      assert ship[..k][|done|] == s;
    }
  }

  /** The bodies of the sections, one after the other. */
  function Bodies(secs: seq<Section>): string {
    if secs == [] then "" else Bodies(secs[..|secs| - 1]) + secs[|secs| - 1].body
  }

  lemma BodiesOfLast(secs: seq<Section>, s: Section)
    ensures Bodies(secs + [s]) == Bodies(secs) + s.body
  {
    assert (secs + [s])[..|secs|] == secs;
  }

  lemma {:induction false} SizeOfBodies(secs: seq<Section>)
    ensures |Bodies(secs)| == Size(secs)
  {
    if secs != [] {
      SizeOfBodies(secs[..|secs| - 1]);
    }
  }

  /** With distinct names, the bodies written are those of the first k
      sections that have something to say, in their order. */
  lemma {:induction false} BodiesAreThePrefix(secs: seq<Section>, ship: seq<Section>, k: nat)
    requires WellFormed(secs) && DistinctNames(ship) && k <= |ship| && Shippable(secs) <= ship
    ensures BodyText(secs, NameSet(ship[..k])) == Bodies(Shippable(secs)[..Least(k, |Shippable(secs)|)])
    decreases |secs|
  {
    if secs != [] {
      var init, s := secs[..|secs| - 1], secs[|secs| - 1];
      var done := Shippable(init);
      BodiesAreThePrefix(init, ship, k);
      if Ships(s) {
        NextShipped(ship, done, s, k);
        BodiesOfLast(done, s);
      } else {
        assert s.body == "";
      }
    }
  }

  /** A rendered bundle, when no two sections with something to say share a name:
      the head, the bodies of a prefix of them, a trailer for each section left
      out, a trailer for each error. Every section is shown, named in a trailer or
      had nothing to say, exactly one of the three. */
  lemma RenderIsExact(head: Option<seq<Field>>, secs: seq<Section>, errs: seq<StageError>, mask: string -> string, k: nat)
    requires WellFormed(secs) && DistinctNames(Shippable(secs)) && k <= |Shippable(secs)|
    ensures var shown := Shippable(secs)[..k];
            var left := Overflowed(secs, NameSet(shown));
            && Rendered(head, secs, errs, mask, k) ==
               RenderHead(head, Names(shown)) + Bodies(shown) + OverflowText(left) + ErrorText(errs, mask)
            && multiset(shown) + multiset(left) + multiset(Silent(secs)) == multiset(secs)
  {
    BodiesAreThePrefix(secs, Shippable(secs), k);
    EachSectionOnce(secs, Shippable(secs), k);
  }

  /** Sections that have nothing to say are not mentioned at all. */
  function Silent(secs: seq<Section>): seq<Section> {
    if secs == [] then []
    else
      var rest, s := Silent(secs[..|secs| - 1]), secs[|secs| - 1];
      if !s.skipped && s.body == "" then rest + [s] else rest
  }

  /** Every section is shipped, named in a trailer, or had nothing to say:
      exactly one of the three. */
  lemma {:induction false} EachSectionOnce(secs: seq<Section>, ship: seq<Section>, k: nat)
    requires DistinctNames(ship) && k <= |ship| && Shippable(secs) <= ship
    ensures var shown := Shippable(secs)[..Least(k, |Shippable(secs)|)];
            multiset(shown) + multiset(Overflowed(secs, NameSet(ship[..k]))) + multiset(Silent(secs)) == multiset(secs)
    decreases |secs|
  {
    if secs != [] {
      var init, s := secs[..|secs| - 1], secs[|secs| - 1];
      EachSectionOnce(init, ship, k);
      assert secs == init + [s];
      if Ships(s) {
        NextShipped(ship, Shippable(init), s, k);
      }
    }
  }

  /** Whenever a section ships, head and bodies are within the cap. */
  lemma WithinCap(head: Option<seq<Field>>, secs: seq<Section>, cap: int, k: nat)
    requires WellFormed(secs) && DistinctNames(Shippable(secs)) && 0 < k <= |Shippable(secs)|
    requires ShipsMost(Shippable(secs), cap - |RenderHead(head, Names(Shippable(secs)))|, k)
    ensures |RenderHead(head, Names(Shippable(secs)[..k]))| + |BodyText(secs, NameSet(Shippable(secs)[..k]))| <= cap
  {
    var ship := Shippable(secs);
    BodiesAreThePrefix(secs, ship, k);
    SizeOfBodies(ship[..k]);
    HeadOfPrefix(head, Names(ship), k);
    assert Names(ship)[..k] == Names(ship[..k]);
  }

  lemma {:induction false} BodiesAtLeast(secs: seq<Section>, included: set<string>, m: nat)
    requires m <= |Shippable(secs)|
    requires forall i :: 0 <= i < m ==> Shippable(secs)[i].name in included
    ensures Size(Shippable(secs)[..m]) <= |BodyText(secs, included)|
    decreases |secs|
  {
    if secs != [] {
      var init, s := secs[..|secs| - 1], secs[|secs| - 1];
      var done := Shippable(init);
      if m <= |done| {
        assert forall i :: 0 <= i < m ==> Shippable(secs)[i] == done[i];
        BodiesAtLeast(init, included, m);
        assert Shippable(secs)[..m] == done[..m];
      } else {
        assert Shippable(secs) == done + [s] && Shippable(secs)[..m] == done + [s];
        assert forall i :: 0 <= i < |done| ==> Shippable(secs)[i] == done[i];
        BodiesAtLeast(init, included, |done|);
        assert done[..|done|] == done;
        SizeOfLast(done, s);
      }
    }
  }

  lemma {:induction false} ShippableShips(secs: seq<Section>, i: nat)
    requires i < |Shippable(secs)|
    ensures Ships(Shippable(secs)[i])
  {
    var init := secs[..|secs| - 1];
    if i < |Shippable(init)| {
      ShippableShips(init, i);
    }
  }

  /** Two sections with one name: once the first is in, both bodies are written,
      though only what comes before the second was budgeted. */
  lemma SharedNameOverruns(secs: seq<Section>, i: nat, j: nat)
    requires i < j < |Shippable(secs)| && Shippable(secs)[i].name == Shippable(secs)[j].name
    ensures var ship := Shippable(secs);
            ShipsMost(ship, Size(ship[..j]), j) && |BodyText(secs, NameSet(ship[..j]))| > Size(ship[..j])
  {
    var ship := Shippable(secs);
    assert ship[..j + 1] == ship[..j] + [ship[j]];
    SizeOfLast(ship[..j], ship[j]);
    ShippableShips(secs, j);
    NamesWithShared(ship, i, j);
    BodiesAtLeast(secs, NameSet(ship[..j]), j + 1);
  }

  lemma NamesWithShared(ship: seq<Section>, i: nat, j: nat)
    requires i < j < |ship| && ship[i].name == ship[j].name
    ensures forall x :: 0 <= x < j + 1 ==> ship[x].name in NameSet(ship[..j])
  {
    forall x | 0 <= x < j + 1
      ensures ship[x].name in NameSet(ship[..j])
    {
      var y := if x == j then i else x;
      assert ship[..j][y].name == ship[x].name;
    }
  }

  /** The bodies stay within every budget exactly when no two sections with
      something to say share a name. */
  lemma BudgetKeptIffDistinct(secs: seq<Section>)
    requires WellFormed(secs)
    ensures (forall budget, k: nat :: k > 0 && ShipsMost(Shippable(secs), budget, k) ==>
              |BodyText(secs, NameSet(Shippable(secs)[..k]))| <= budget)
       <==> DistinctNames(Shippable(secs))
  {
    var ship := Shippable(secs);
    if DistinctNames(ship) {
      forall budget, k: nat | k > 0 && ShipsMost(ship, budget, k)
        ensures |BodyText(secs, NameSet(ship[..k]))| <= budget
      {
        BodiesAreThePrefix(secs, ship, k);
        SizeOfBodies(ship[..k]);
      }
    } else {
      var i, j :| 0 <= i < j < |ship| && ship[i].name == ship[j].name;
      SharedNameOverruns(secs, i, j);
    }
  }
}
