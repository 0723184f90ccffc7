/** Why a storm must not be reported formed twice at once.

    The founder that is done removes whatever channel is published for its
    storm. If a second formation of the storm has been reported by then, that
    channel is the second founder's, and a member that arrives next finds none:
    it runs without waiting. */
module StormOverlap {
  import opened KeyLock

  /** Taking these steps in order leads from s to s'. */
  ghost predicate Runs(s: State, steps: seq<(nat, Event)>, s': State)
    decreases |steps|
  {
    if steps == [] then s' == s
    else Enabled(s, steps[0].0, steps[0].1) && Runs(Apply(s, steps[0].0, steps[0].1), steps[1..], s')
  }

  /** A member's body runs although the founder it was to wait for is not done. */
  ghost predicate Early(s: State) {
    exists t :: t in s.threads && RunsEarly(s, s.threads[t])
  }

  ghost predicate RunsEarly(s: State, pc: Pc) {
    pc.Body? && pc.role.Member? && pc.role.form !in s.formed
  }

  lemma FirstStep(s: State, t: nat, e: Event, steps: seq<(nat, Event)>, s': State)
    requires Enabled(s, t, e) && Runs(Apply(s, t, e), steps, s')
    ensures Runs(s, [(t, e)] + steps, s')
  {
    assert ([(t, e)] + steps)[1..] == steps;
  }

  // ----- The run that breaks the barrier, from its end ---------------------

  /** A thread that found no channel takes the free key. */
  lemma MemberTakes(s: State, m: nat, id: string, form: nat) returns (steps: seq<(nat, Event)>, s': State)
    requires m in s.threads && s.threads[m] == Acquire(Storm(id), Member(id, form))
    requires Storm(id) !in s.inflight && form !in s.formed
    ensures Runs(s, steps, s') && Early(s')
  {
    s' := Apply(s, m, TryKey);
    assert RunsEarly(s', s'.threads[m]);
    steps := [(m, TryKey)];
    FirstStep(s, m, TryKey, [], s');
    assert [(m, TryKey)] + [] == steps;
  }

  lemma FounderReleases(s: State, o: nat, ch: nat, m: nat, id: string, form: nat) returns (steps: seq<(nat, Event)>, s': State)
    requires o in s.threads && s.threads[o] == Ending(Storm(id), ch)
    requires m in s.threads && s.threads[m] == Acquire(Storm(id), Member(id, form)) && form !in s.formed
    ensures Runs(s, steps, s') && Early(s')
  {
    steps, s' := MemberTakes(Apply(s, o, Release), m, id, form);
    FirstStep(s, o, Release, steps, s');
    steps := [(o, Release)] + steps;
  }

  /** With the entry gone, a member does not wait. */
  lemma MemberAttaches(s: State, o: nat, ch: nat, id: string, form: nat) returns (steps: seq<(nat, Event)>, s': State)
    requires o in s.threads && s.threads[o] == Ending(Storm(id), ch)
    requires id !in s.ready && id in s.latest && s.latest[id] == form && form !in s.formed
    ensures Runs(s, steps, s') && Early(s')
  {
    var m := Unused(s.threads.Keys);
    steps, s' := FounderReleases(Apply(s, m, ReportAttached(id)), o, ch, m, id, form);
    FirstStep(s, m, ReportAttached(id), steps, s');
    steps := [(m, ReportAttached(id))] + steps;
  }

  /** Some number is not in a finite set. */
  lemma Unused(used: set<nat>) returns (n: nat)
    ensures n !in used
  {
    n := Above(used);
  }

  lemma {:induction false} Above(used: set<nat>) returns (n: nat)
    ensures forall x :: x in used ==> x < n
    decreases |used|
  {
    if used == {} {
      n := 0;
    } else {
      var x :| x in used;
      var rest := Above(used - {x});
      n := if rest > x then rest else x + 1;
      forall y | y in used
        ensures y < n
      {
        assert y == x || y in used - {x};
      }
    }
  }

  /** The first founder removes the second's entry. */
  lemma FounderDrops(s: State, o: nat, ch: nat, id: string, old': nat, form: nat) returns (steps: seq<(nat, Event)>, s': State)
    requires o in s.threads && s.threads[o] == FormClosed(Storm(id), ch, id, old')
    requires id in s.latest && s.latest[id] == form && form !in s.formed
    ensures Runs(s, steps, s') && Early(s')
  {
    steps, s' := MemberAttaches(Apply(s, o, DropEntry), o, ch, id, form);
    FirstStep(s, o, DropEntry, steps, s');
    steps := [(o, DropEntry)] + steps;
  }

  lemma FounderFinishes(s: State, o: nat, ch: nat, id: string, old': nat, form: nat) returns (steps: seq<(nat, Event)>, s': State)
    requires o in s.threads && s.threads[o] == Body(Storm(id), ch, Founder(id, old')) && old' != form
    requires id in s.latest && s.latest[id] == form && form !in s.formed
    ensures Runs(s, steps, s') && Early(s')
  {
    steps, s' := FounderDrops(Apply(s, o, Finish), o, ch, id, old', form);
    FirstStep(s, o, Finish, steps, s');
    steps := [(o, Finish)] + steps;
  }

  lemma FounderTakes(s: State, o: nat, id: string, old': nat, form: nat) returns (steps: seq<(nat, Event)>, s': State)
    requires o in s.threads && s.threads[o] == Acquire(Storm(id), Founder(id, old')) && old' != form && Storm(id) !in s.inflight
    requires id in s.latest && s.latest[id] == form && form !in s.formed
    ensures Runs(s, steps, s') && Early(s')
  {
    steps, s' := FounderFinishes(Apply(s, o, TryKey), o, s.next, id, old', form);
    FirstStep(s, o, TryKey, steps, s');
    steps := [(o, TryKey)] + steps;
  }

  /** A founder that waits, or is about to look, once the key is free. */
  lemma FounderGoesOn(s: State, o: nat, id: string, old': nat, form: nat) returns (steps: seq<(nat, Event)>, s': State)
    requires o in s.threads && Storm(id) !in s.inflight && old' != form && Woken(s, s.threads[o])
    requires var pc := s.threads[o]; (pc.Acquire? || pc.AwaitKey?) && pc.key == Storm(id) && pc.role == Founder(id, old')
    requires id in s.latest && s.latest[id] == form && form !in s.formed
    ensures Runs(s, steps, s') && Early(s')
  {
    if s.threads[o].AwaitKey? {
      steps, s' := FounderTakes(Apply(s, o, Wake), o, id, old', form);
      FirstStep(s, o, Wake, steps, s');
      steps := [(o, Wake)] + steps;
    } else {
      steps, s' := FounderTakes(s, o, id, old', form);
    }
  }

  /** Whoever else holds the key lets go of it first. */
  lemma HolderReleases(s: State, h: nat, ch: nat, o: nat, id: string, old': nat, form: nat) returns (steps: seq<(nat, Event)>, s': State)
    requires h in s.threads && h != o && s.threads[h] == Ending(Storm(id), ch)
    requires Storm(id) in s.inflight && s.inflight[Storm(id)] == ch
    requires o in s.threads && old' != form && Woken(s, s.threads[o])
    requires var pc := s.threads[o]; (pc.Acquire? || pc.AwaitKey?) && pc.key == Storm(id) && pc.role == Founder(id, old')
    requires id in s.latest && s.latest[id] == form && form !in s.formed
    ensures Runs(s, steps, s') && Early(s')
  {
    steps, s' := FounderGoesOn(Apply(s, h, Release), o, id, old', form);
    FirstStep(s, h, Release, steps, s');
    steps := [(h, Release)] + steps;
  }

  lemma HolderFinishes(s: State, h: nat, o: nat, id: string, old': nat, form: nat) returns (steps: seq<(nat, Event)>, s': State)
    requires h in s.threads && h != o && Passing(s.threads[h]) && s.threads[h].key == Storm(id)
    requires Storm(id) in s.inflight && s.inflight[Storm(id)] == s.threads[h].ch
    requires o in s.threads && old' != form && Woken(s, s.threads[o])
    requires var pc := s.threads[o]; (pc.Acquire? || pc.AwaitKey?) && pc.key == Storm(id) && pc.role == Founder(id, old')
    requires id in s.latest && s.latest[id] == form && form !in s.formed
    ensures Runs(s, steps, s') && Early(s')
  {
    var ch := s.threads[h].ch;
    if s.threads[h].Body? {
      steps, s' := HolderReleases(Apply(s, h, Finish), h, ch, o, id, old', form);
      FirstStep(s, h, Finish, steps, s');
      steps := [(h, Finish)] + steps;
    } else {
      steps, s' := HolderReleases(s, h, ch, o, id, old', form);
    }
  }

  /** A holder that founds nothing. */
  predicate Passing(pc: Pc) {
    (pc.Body? && !pc.role.Founder?) || pc.Ending?
  }

  // ----- From any reachable state ------------------------------------------

  /** Whoever holds a storm's key beside its founder founds nothing. */
  lemma HolderIsPassing(s: State, id: string)
    requires Inv(s) && id in s.ready && Storm(id) in s.inflight && s.owner[Storm(id)] != s.founder[id]
    ensures var h := s.owner[Storm(id)];
            && h in s.threads && Passing(s.threads[h]) && s.threads[h].key == Storm(id)
            && s.inflight[Storm(id)] == s.threads[h].ch
  {
    assert Owned(s, Storm(id));
    var h := s.owner[Storm(id)];
    assert Owns(s, h) && Founds(s, h) && Follows(s, s.threads[h]);
  }

  /** With a formation of the storm in flight, a second report lets a member run
      before its founder is done. */
  lemma OverlapBreaksBarrier(s: State, t: nat, id: string) returns (steps: seq<(nat, Event)>, s': State)
    requires Inv(s) && t !in s.threads && id in s.ready
    ensures Runs(Form(s, t, id), steps, s') && Early(s')
  {
    var s1, form := Form(s, t, id), s.nextForm;
    assert Published(s, id);
    var o := s.founder[id];
    assert Founds(s, o) && Follows(s, s.threads[o]) && Woken(s, s.threads[o]);
    assert s1.threads[o] == s.threads[o];
    var pc, old' := s.threads[o], FoundingForm(s.threads[o]);
    if pc.FormClosed? {
      steps, s' := FounderDrops(s1, o, pc.ch, id, old', form);
    } else if pc.Body? {
      steps, s' := FounderFinishes(s1, o, pc.ch, id, old', form);
    } else if Storm(id) in s.inflight {
      assert Owned(s, Storm(id));
      HolderIsPassing(s, id);
      var h := s.owner[Storm(id)];
      assert s1.threads[h] == s.threads[h];
      steps, s' := HolderFinishes(s1, h, o, id, old', form);
    } else {
      steps, s' := FounderGoesOn(s1, o, id, old', form);
    }
  }

  lemma {:induction false} RunsKeepInvariant(s: State, steps: seq<(nat, Event)>, s': State)
    requires Inv(s) && Runs(s, steps, s')
    ensures Inv(s')
    decreases |steps|
  {
    if steps != [] {
      InvStep(s, steps[0].0, steps[0].1);
      RunsKeepInvariant(Apply(s, steps[0].0, steps[0].1), steps[1..], s');
    }
  }

  lemma NoneEarly(s: State)
    requires Inv(s)
    ensures !Early(s)
  {
    forall t | t in s.threads
      ensures !RunsEarly(s, s.threads[t])
    {
      assert Follows(s, s.threads[t]);
    }
  }

  /** No run from here lets a member in early. */
  ghost predicate NeverEarly(s: State) {
    forall steps, s' :: Leads(s, steps, s') ==> !Early(s')
  }

  ghost predicate Leads(s: State, steps: seq<(nat, Event)>, s': State) {
    Runs(s, steps, s')
  }

  lemma SoundStaysSound(s: State)
    requires Inv(s)
    ensures NeverEarly(s)
  {
    forall steps, s' | Leads(s, steps, s')
      ensures !Early(s')
    {
      RunsKeepInvariant(s, steps, s');
      NoneEarly(s');
    }
  }

  /** No run after the report of a formation lets a member in early, if and only
      if no formation of that storm was in flight. */
  lemma FormingNeedsNoneInFlight(s: State, t: nat, id: string)
    requires Inv(s) && t !in s.threads
    ensures NeverEarly(Form(s, t, id)) <==> id !in s.ready
  {
    if id in s.ready {
      var steps, s' := OverlapBreaksBarrier(s, t, id);
      assert Leads(Form(s, t, id), steps, s');
    } else {
      assert Apply(s, t, ReportFormed(id)) == Form(s, t, id);
      InvStep(s, t, ReportFormed(id));
      SoundStaysSound(Form(s, t, id));
    }
  }

  /** There is such a state: one report leads to it. */
  lemma OverlapIsReachable()
    ensures exists s :: Inv(s) && Runs(Initial(), [(0, ReportFormed("node"))], s) && "node" in s.ready && 1 !in s.threads
  {
    var s := Apply(Initial(), 0, ReportFormed("node"));
    InvStep(Initial(), 0, ReportFormed("node"));
    FirstStep(Initial(), 0, ReportFormed("node"), [], s);
    assert [(0, ReportFormed("node"))] + [] == [(0, ReportFormed("node"))];
  }
}
