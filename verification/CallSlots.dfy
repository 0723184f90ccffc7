/** Concurrency limits on tool calls: per caller, per cluster and overall.

    CallerLimit is the counter with its mutex. The rest follows calls through
    the handler, in every interleaving: each takes its caller's slot, then its
    cluster's, then one of the global slots, may leave early anywhere, and
    gives back what it took in the opposite order. */
module CallSlots {
  import opened Basics

  function Inc(m: map<string, nat>, k: string): map<string, nat> {
    m[k := Get(m, k) + 1]
  }

  /** A counter that reaches zero is deleted. */
  function Dec(m: map<string, nat>, k: string): map<string, nat> {
    if Get(m, k) <= 1 then m - {k} else m[k := m[k] - 1]
  }

  /** No counter lingers at zero. */
  ghost predicate NoZeros(m: map<string, nat>) {
    forall k :: k in m ==> m[k] > 0
  }

  /** Giving back what was taken leaves no trace. */
  lemma DecUndoesInc(m: map<string, nat>, k: string)
    requires NoZeros(m)
    ensures Dec(Inc(m, k), k) == m && NoZeros(Inc(m, k))
  {
    if k in m {
      assert Dec(Inc(m, k), k) == m;
    }
  }

  class CallerLimit {
    const max: int
    var inflight: map<string, nat>

    constructor (max: int)
      ensures this.max == max && inflight == map[]
    {
      this.max := max;
      inflight := map[];
    }

    method Acquire(caller: string) returns (ok: bool)
      modifies this
      ensures ok <==> Get(old(inflight), caller) < max
      ensures inflight == if ok then Inc(old(inflight), caller) else old(inflight)
      ensures old(NoZeros(inflight)) ==> NoZeros(inflight)
    {
      ok := AcquireUpTo(caller, max);
    }

    /** A slot, if the caller has fewer than this call's cap in flight. */
    method AcquireUpTo(caller: string, cap: int) returns (ok: bool)
      modifies this
      ensures ok <==> Get(old(inflight), caller) < cap
      ensures inflight == if ok then Inc(old(inflight), caller) else old(inflight)
      ensures old(NoZeros(inflight)) ==> NoZeros(inflight)
    {
      if Get(inflight, caller) >= cap {
        return false;
      }
      inflight := inflight[caller := Get(inflight, caller) + 1];
      return true;
    }

    /** What the release closure does, once per slot taken. */
    method Release(caller: string)
      requires caller in inflight && NoZeros(inflight)
      modifies this
      ensures inflight == Dec(old(inflight), caller) && NoZeros(inflight)
    {
      inflight := inflight[caller := inflight[caller] - 1];
      if inflight[caller] <= 0 {
        inflight := inflight - {caller};
      }
    }
  }

  // ----- The per-cluster cap -----------------------------------------------

  function Max(a: int, b: int): int {
    if a >= b then a else b
  }

  /** The cap for a set of n clusters: the operator's, or a share of the
      global limit, at least 2. */
  function ClusterLimit(perCluster: int, global: nat, n: nat): int {
    if perCluster > 0 then perCluster else Max(2, global / Max(1, n))
  }

  /** The default cap is below the global limit exactly when there are several
      clusters and more than two slots. */
  lemma ShareIsBelowGlobal(global: nat, n: nat)
    ensures ClusterLimit(0, global, n) < global <==> n >= 2 && global > 2
  {
    if n >= 2 {
      ShareIsHalfAtMost(global, n);
    } else {
      assert global / 1 == global;
    }
  }

  lemma ShareIsHalfAtMost(global: nat, n: nat)
    requires n >= 2
    ensures 2 * (global / n) <= global
  {
    MoreTimesMore(global / n, 2, n);
  }

  lemma {:induction false} MoreTimesMore(q: nat, a: nat, b: nat)
    requires a <= b
    ensures a * q <= b * q
  {
    if q > 0 {
      MoreTimesMore(q - 1, a, b);
      assert a * q == a * (q - 1) + a && b * q == b * (q - 1) + b;
    }
  }

  // ----- Calls in flight ---------------------------------------------------

  /** What a call holds. leaving: it is on its way out, by whatever path. */
  datatype Call = Call(caller: Option<string>, cluster: Option<string>, running: bool, leaving: bool)

  /** max and global are the configured limits. */
  datatype State = State(
    max: int, global: nat,
    perCaller: map<string, nat>, perCluster: map<string, nat>, busy: nat,
    calls: map<nat, Call>)

  datatype Event =
    | Begin
    | TakeCaller(who: string)
    | TakeCluster(name: string, cap: int)   // cap is this call's own
    | TakeGlobal
    | Leave                                 // refused, failed, cancelled or done
    | GiveGlobal
    | GiveCluster
    | GiveCaller

  /** The slots are taken in one order and given back in the other. */
  predicate Enabled(s: State, t: nat, e: Event) {
    if e.Begin? then t !in s.calls
    else
      && t in s.calls
      && var c := s.calls[t];
         match e
         case Begin => false
         case TakeCaller(who) => !c.leaving && c.caller.None? && c.cluster.None? && !c.running && Get(s.perCaller, who) < s.max
         case TakeCluster(name, cap) => !c.leaving && c.cluster.None? && !c.running && Get(s.perCluster, name) < cap
         case TakeGlobal => !c.leaving && !c.running && s.busy < s.global
         case Leave => !c.leaving
         case GiveGlobal => c.leaving && c.running && s.busy > 0
         case GiveCluster => c.leaving && !c.running && c.cluster.Some?
         case GiveCaller => c.leaving && !c.running && c.cluster.None? && c.caller.Some?
  }

  function Apply(s: State, t: nat, e: Event): State
    requires Enabled(s, t, e)
  {
    if e.Begin? then s.(calls := s.calls[t := Call(None, None, false, false)])
    else
      var c := s.calls[t];
      match e
      case TakeCaller(who) => s.(perCaller := Inc(s.perCaller, who), calls := s.calls[t := c.(caller := Some(who))])
      case TakeCluster(name, _) => s.(perCluster := Inc(s.perCluster, name), calls := s.calls[t := c.(cluster := Some(name))])
      case TakeGlobal => s.(busy := s.busy + 1, calls := s.calls[t := c.(running := true)])
      case Leave => s.(calls := s.calls[t := c.(leaving := true)])
      case GiveGlobal => s.(busy := s.busy - 1, calls := s.calls[t := c.(running := false)])
      case GiveCluster => s.(perCluster := Dec(s.perCluster, c.cluster.value), calls := s.calls[t := c.(cluster := None)])
      case GiveCaller => s.(perCaller := Dec(s.perCaller, c.caller.value), calls := s.calls[t := c.(caller := None)])
  }

  function ByCaller(calls: map<nat, Call>, who: string): set<nat> {
    set t | t in calls && calls[t].caller == Some(who)
  }

  function ByCluster(calls: map<nat, Call>, name: string): set<nat> {
    set t | t in calls && calls[t].cluster == Some(name)
  }

  function Running(calls: map<nat, Call>): set<nat> {
    set t | t in calls && calls[t].running
  }

  /** Every counter is the number of calls holding its slot. */
  ghost predicate Counted(s: State) {
    && (forall who :: Get(s.perCaller, who) == |ByCaller(s.calls, who)|)
    && (forall name :: Get(s.perCluster, name) == |ByCluster(s.calls, name)|)
    && s.busy == |Running(s.calls)|
  }

  ghost predicate Inv(s: State) {
    && Counted(s) && NoZeros(s.perCaller) && NoZeros(s.perCluster)
    && s.busy <= s.global && forall who :: |ByCaller(s.calls, who)| <= Max(0, s.max)
  }

  /** One call changes: so does its place among the holders, and no other's. */
  lemma OneCallChanges(calls: map<nat, Call>, t: nat, c: Call, k: string)
    ensures ByCaller(calls[t := c], k) == if c.caller == Some(k) then ByCaller(calls, k) + {t} else ByCaller(calls, k) - {t}
    ensures ByCluster(calls[t := c], k) == if c.cluster == Some(k) then ByCluster(calls, k) + {t} else ByCluster(calls, k) - {t}
    ensures Running(calls[t := c]) == if c.running then Running(calls) + {t} else Running(calls) - {t}
  {
  }

  lemma GetInc(m: map<string, nat>, key: string, k: string)
    ensures Get(Inc(m, key), k) == Get(m, k) + if k == key then 1 else 0
  {
  }

  lemma GetDec(m: map<string, nat>, key: string, k: string)
    requires NoZeros(m) && key in m
    ensures Get(Dec(m, key), k) == Get(m, k) - if k == key then 1 else 0
  {
  }

  lemma OneMoreOrLess(s: set<nat>, t: nat)
    ensures t in s ==> s + {t} == s && |s - {t}| == |s| - 1
    ensures t !in s ==> s - {t} == s && |s + {t}| == |s| + 1
  {
  }

  /** The callers' counters follow the calls. */
  lemma CallerStep(s: State, t: nat, e: Event, k: string)
    requires Enabled(s, t, e) && NoZeros(s.perCaller)
    requires Get(s.perCaller, k) == |ByCaller(s.calls, k)| <= Max(0, s.max)
    requires e.GiveCaller? ==> s.calls[t].caller.value in s.perCaller
    ensures var s' := Apply(s, t, e); Get(s'.perCaller, k) == |ByCaller(s'.calls, k)| <= Max(0, s'.max)
  {
    var s' := Apply(s, t, e);
    OneCallChanges(s.calls, t, s'.calls[t], k);
    OneMoreOrLess(ByCaller(s.calls, k), t);
    match e {
      case Begin =>
      case TakeCaller(who) => GetInc(s.perCaller, who, k);
      case TakeCluster(_, _) =>
      case TakeGlobal =>
      case Leave =>
      case GiveGlobal =>
      case GiveCluster =>
      case GiveCaller => GetDec(s.perCaller, s.calls[t].caller.value, k);
    }
  }

  /** The clusters' counters follow the calls. */
  lemma ClusterStep(s: State, t: nat, e: Event, k: string)
    requires Enabled(s, t, e) && NoZeros(s.perCluster)
    requires Get(s.perCluster, k) == |ByCluster(s.calls, k)|
    requires e.GiveCluster? ==> s.calls[t].cluster.value in s.perCluster
    ensures var s' := Apply(s, t, e); Get(s'.perCluster, k) == |ByCluster(s'.calls, k)|
  {
    var s' := Apply(s, t, e);
    OneCallChanges(s.calls, t, s'.calls[t], k);
    OneMoreOrLess(ByCluster(s.calls, k), t);
    match e {
      case Begin =>
      case TakeCaller(_) =>
      case TakeCluster(name, _) => GetInc(s.perCluster, name, k);
      case TakeGlobal =>
      case Leave =>
      case GiveGlobal =>
      case GiveCluster => GetDec(s.perCluster, s.calls[t].cluster.value, k);
      case GiveCaller =>
    }
  }

  /** A counter a call holds is there to give back. */
  lemma HeldIsCounted(s: State, t: nat)
    requires Counted(s) && t in s.calls
    ensures s.calls[t].caller.Some? ==> s.calls[t].caller.value in s.perCaller
    ensures s.calls[t].cluster.Some? ==> s.calls[t].cluster.value in s.perCluster
  {
    if s.calls[t].caller.Some? {
      assert t in ByCaller(s.calls, s.calls[t].caller.value);
      assert Get(s.perCaller, s.calls[t].caller.value) > 0;
    }
    if s.calls[t].cluster.Some? {
      assert t in ByCluster(s.calls, s.calls[t].cluster.value);
      assert Get(s.perCluster, s.calls[t].cluster.value) > 0;
    }
  }

  lemma GlobalStep(s: State, t: nat, e: Event)
    requires Enabled(s, t, e) && s.busy == |Running(s.calls)| <= s.global
    ensures var s' := Apply(s, t, e); s'.busy == |Running(s'.calls)| <= s'.global
  {
    OneCallChanges(s.calls, t, Apply(s, t, e).calls[t], "");
  }

  lemma InvStep(s: State, t: nat, e: Event)
    requires Inv(s) && Enabled(s, t, e)
    ensures Inv(Apply(s, t, e))
  {
    var s' := Apply(s, t, e);
    if !e.Begin? {
      HeldIsCounted(s, t);
    }
    forall k
      ensures Get(s'.perCaller, k) == |ByCaller(s'.calls, k)| <= Max(0, s'.max) && Get(s'.perCluster, k) == |ByCluster(s'.calls, k)|
    {
      CallerStep(s, t, e, k);
      ClusterStep(s, t, e, k);
    }
    GlobalStep(s, t, e);
  }

  // ----- Every run ---------------------------------------------------------

  ghost predicate IsRun(states: seq<State>, steps: seq<(nat, Event)>) {
    && |states| == |steps| + 1
    && states[0] == State(states[0].max, states[0].global, map[], map[], 0, map[])
    && forall i :: 0 <= i < |steps| ==>
         Enabled(states[i], steps[i].0, steps[i].1) && states[i + 1] == Apply(states[i], steps[i].0, steps[i].1)
  }

  /** In every interleaving the counters are the calls in flight, and neither a
      caller's limit nor the global one is exceeded. */
  lemma {:induction false} CountersAreCallsInFlight(states: seq<State>, steps: seq<(nat, Event)>, i: nat)
    requires IsRun(states, steps) && i < |states|
    ensures Inv(states[i])
  {
    if i > 0 {
      CountersAreCallsInFlight(states, steps, i - 1);
      InvStep(states[i - 1], steps[i - 1].0, steps[i - 1].1);
    } else {
      assert ByCaller(states[0].calls, "") == {} && Running(states[0].calls) == {};
      assert forall who :: ByCaller(states[0].calls, who) == {} && ByCluster(states[0].calls, who) == {};
    }
  }

  /** A call admitted to a cluster leaves it at most at the cap given for that
      call. */
  lemma AdmittedWithinCap(states: seq<State>, steps: seq<(nat, Event)>, i: nat)
    requires IsRun(states, steps) && i < |steps| && steps[i].1.TakeCluster?
    ensures |ByCluster(states[i + 1].calls, steps[i].1.name)| <= steps[i].1.cap
  {
    CountersAreCallsInFlight(states, steps, i + 1);
  }

  // ----- Leaving -----------------------------------------------------------

  /** The call gives back what it holds, one slot a step, and is out. */
  function GivenBack(s: State, t: nat): State
    requires t in s.calls
  {
    var c := s.calls[t];
    s.(busy := if c.running && s.busy > 0 then s.busy - 1 else s.busy,
       perCluster := if c.cluster.Some? then Dec(s.perCluster, c.cluster.value) else s.perCluster,
       perCaller := if c.caller.Some? then Dec(s.perCaller, c.caller.value) else s.perCaller,
       calls := s.calls[t := Call(None, None, false, c.leaving)])
  }

  function Step(s: State, t: nat, e: Event): State {
    if Enabled(s, t, e) then Apply(s, t, e) else s
  }

  lemma GivesAll(s: State, t: nat)
    requires t in s.calls && s.calls[t].leaving && (s.calls[t].running ==> s.busy > 0)
    ensures Step(Step(Step(s, t, GiveGlobal), t, GiveCluster), t, GiveCaller) == GivenBack(s, t)
  {
    var c := s.calls[t];
    var s1 := Step(s, t, GiveGlobal);
    assert s1.calls == s.calls[t := c.(running := false)];
    var s2 := Step(s1, t, GiveCluster);
    assert s2.calls == s.calls[t := c.(running := false, cluster := None)];
    var s3 := Step(s2, t, GiveCaller);
    assert s3.calls == s.calls[t := Call(None, None, false, true)];
  }

  /** A leaving call is out after at most three steps of its own, whatever it
      holds; each of its counters is one less and every other is as it was. */
  lemma LeavingFinishes(s: State, t: nat)
    requires Inv(s) && t in s.calls && s.calls[t].leaving
    ensures var out := Step(Step(Step(s, t, GiveGlobal), t, GiveCluster), t, GiveCaller);
            && out == GivenBack(s, t) && out.calls[t] == Call(None, None, false, true)
            && out.busy == s.busy - (if s.calls[t].running then 1 else 0)
            && (forall k :: Get(out.perCluster, k) == Get(s.perCluster, k) - (if s.calls[t].cluster == Some(k) then 1 else 0))
            && (forall k :: Get(out.perCaller, k) == Get(s.perCaller, k) - (if s.calls[t].caller == Some(k) then 1 else 0))
  {
    var c, out := s.calls[t], GivenBack(s, t);
    HeldIsCounted(s, t);
    assert c.running ==> t in Running(s.calls);
    GivesAll(s, t);
    forall k
      ensures Get(out.perCluster, k) == Get(s.perCluster, k) - (if c.cluster == Some(k) then 1 else 0)
      ensures Get(out.perCaller, k) == Get(s.perCaller, k) - (if c.caller == Some(k) then 1 else 0)
    {
      if c.cluster.Some? {
        GetDec(s.perCluster, c.cluster.value, k);
      }
      if c.caller.Some? {
        GetDec(s.perCaller, c.caller.value, k);
      }
    }
  }

  /** When every call is out, all three limits are back to empty. */
  lemma AllOutMeansAllFree(states: seq<State>, steps: seq<(nat, Event)>, i: nat)
    requires IsRun(states, steps) && i < |states|
    requires forall t :: t in states[i].calls ==> states[i].calls[t] == Call(None, None, false, true)
    ensures states[i].perCaller == map[] && states[i].perCluster == map[] && states[i].busy == 0
  {
    CountersAreCallsInFlight(states, steps, i);
    var s := states[i];
    assert Running(s.calls) == {};
    forall k
      ensures k !in s.perCaller && k !in s.perCluster
    {
      assert ByCaller(s.calls, k) == {} && ByCluster(s.calls, k) == {};
    }
  }

  // ----- One cluster and the global slots ----------------------------------

  /** The running calls of a cluster. */
  function Busy(calls: map<nat, Call>, name: string): set<nat> {
    set t | t in calls && calls[t].running && calls[t].cluster == Some(name)
  }

  lemma BusyIsAdmitted(calls: map<nat, Call>, name: string)
    ensures |Busy(calls, name)| <= |ByCluster(calls, name)|
  {
    SubsetIsSmaller(Busy(calls, name), ByCluster(calls, name));
  }

  /** Every call admitted to the cluster in these steps was given at most this
      cap. */
  ghost predicate CapsAtMost(steps: seq<(nat, Event)>, name: string, cap: int) {
    forall i :: 0 <= i < |steps| && steps[i].1.TakeCluster? && steps[i].1.name == name ==> steps[i].1.cap <= cap
  }

  lemma ClusterGrows(s: State, t: nat, e: Event, name: string)
    requires Inv(s) && Enabled(s, t, e)
    ensures |ByCluster(Apply(s, t, e).calls, name)| <= |ByCluster(s.calls, name)| ||
            (e.TakeCluster? && e.name == name && |ByCluster(Apply(s, t, e).calls, name)| <= e.cap)
  {
    var s' := Apply(s, t, e);
    OneCallChanges(s.calls, t, s'.calls[t], name);
    OneMoreOrLess(ByCluster(s.calls, name), t);
    match e {
      case Begin =>
      case TakeCaller(_) =>
      case TakeCluster(_, _) =>
      case TakeGlobal =>
      case Leave =>
      case GiveGlobal =>
      case GiveCluster =>
      case GiveCaller =>
    }
  }

  /** A cluster never has more calls in flight than the largest cap given. */
  lemma {:induction false} ClusterStaysWithinCaps(states: seq<State>, steps: seq<(nat, Event)>, n: nat, name: string, cap: int)
    requires IsRun(states, steps) && n < |states| && CapsAtMost(steps, name, cap) && cap >= 0
    ensures |ByCluster(states[n].calls, name)| <= cap
  {
    if n == 0 {
      assert ByCluster(states[0].calls, name) == {};
    } else {
      ClusterStaysWithinCaps(states, steps, n - 1, name, cap);
      CountersAreCallsInFlight(states, steps, n - 1);
      ClusterGrows(states[n - 1], steps[n - 1].0, steps[n - 1].1, name);
    }
  }

  // ----- The run that takes every slot -------------------------------------

  lemma Extend(states: seq<State>, steps: seq<(nat, Event)>, t: nat, e: Event)
    requires IsRun(states, steps) && Enabled(states[|steps|], t, e)
    ensures IsRun(states + [Apply(states[|steps|], t, e)], steps + [(t, e)])
  {
  }

  function First(k: nat): (r: set<nat>)
    ensures |r| == k && forall t :: t in r <==> 0 <= t < k
  {
    if k == 0 then {} else First(k - 1) + {k - 1}
  }

  /** Callers told apart by their length. */
  function Who(k: nat): (who: string)
    ensures |who| == k
  {
    seq(k, _ => 'c')
  }

  /** What the k-th call takes of the callers' limit: its own caller's first slot,
      or nothing where callers are not identified. */
  function CallerOf(identified: bool, k: nat): Option<string> {
    if identified then Some(Who(k)) else None
  }

  /** k calls, each of its own caller, run on the cluster, and nothing else is in
      flight. */
  ghost predicate Filled(s: State, max: int, global: nat, name: string, identified: bool, k: nat) {
    && s.max == max && s.global == global && s.busy == k && Get(s.perCluster, name) == k
    && (forall t: nat :: t in s.calls <==> t < k)
    && (forall t :: t in s.calls ==> s.calls[t] == Call(CallerOf(identified, t), Some(name), true, false))
    && (forall j: nat :: j >= k ==> Get(s.perCaller, Who(j)) == 0)
  }

  /** The call has its caller's slot, if callers are identified. */
  function Begun(s: State, k: nat, identified: bool): State
    requires k !in s.calls && (identified ==> Get(s.perCaller, Who(k)) < s.max)
  {
    var s1 := Apply(s, k, Begin);
    if identified then Apply(s1, k, TakeCaller(Who(k))) else s1
  }

  lemma BegunIs(s: State, max: int, global: nat, name: string, identified: bool, k: nat)
    requires Filled(s, max, global, name, identified, k) && (identified ==> max >= 1)
    ensures k !in s.calls && (identified ==> Get(s.perCaller, Who(k)) < s.max)
    ensures var s1 := Begun(s, k, identified);
            && s1 == s.(perCaller := s1.perCaller, calls := s.calls[k := Call(CallerOf(identified, k), None, false, false)])
            && forall j: nat :: j >= k + 1 ==> Get(s1.perCaller, Who(j)) == 0
  {
    forall j: nat | j >= k + 1
      ensures Get(Inc(s.perCaller, Who(k)), Who(j)) == Get(s.perCaller, Who(j)) == 0
    {
      GetInc(s.perCaller, Who(k), Who(j));
    }
  }

  /** Where a call that was let in ends up when it runs. */
  function Admitted(s: State, k: nat, name: string): State
    requires k in s.calls
  {
    s.(perCluster := Inc(s.perCluster, name), busy := s.busy + 1, calls := s.calls[k := s.calls[k].(cluster := Some(name), running := true)])
  }

  lemma GetsToRun(s: State, k: nat, name: string, cap: int)
    requires k in s.calls && s.calls[k].cluster.None? && !s.calls[k].running && !s.calls[k].leaving
    requires Get(s.perCluster, name) < cap && s.busy < s.global
    ensures Enabled(s, k, TakeCluster(name, cap)) && Enabled(Apply(s, k, TakeCluster(name, cap)), k, TakeGlobal)
    ensures Apply(Apply(s, k, TakeCluster(name, cap)), k, TakeGlobal) == Admitted(s, k, name)
  {
    var c := s.calls[k];
    assert s.calls[k := c.(cluster := Some(name))][k := c.(cluster := Some(name), running := true)] ==
           s.calls[k := c.(cluster := Some(name), running := true)];
  }

  lemma FilledNext(s: State, max: int, global: nat, name: string, identified: bool, cap: int, k: nat)
    requires Filled(s, max, global, name, identified, k) && k < global <= cap && (identified ==> max >= 1)
    ensures k !in s.calls && (identified ==> Get(s.perCaller, Who(k)) < s.max)
    ensures var s1 := Begun(s, k, identified);
            && k in s1.calls && s1.calls[k] == Call(CallerOf(identified, k), None, false, false)
            && Get(s1.perCluster, name) < cap && s1.busy < s1.global
            && Filled(Admitted(s1, k, name), max, global, name, identified, k + 1)
  {
    BegunIs(s, max, global, name, identified, k);
    GetInc(s.perCluster, name, name);
    assert Admitted(Begun(s, k, identified), k, name).calls ==
           s.calls[k := Call(CallerOf(identified, k), Some(name), true, false)];
  }

  /** A run so far, with this cap for every call on the cluster. */
  ghost predicate Filling(states: seq<State>, steps: seq<(nat, Event)>, max: int, global: nat, name: string, identified: bool, cap: int) {
    && IsRun(states, steps) && CapsAre(steps, name, cap) && states[0].max == max && states[0].global == global
    && (identified ==> AllIdentified(states, steps))
  }

  /** Every call admitted to a cluster holds its caller's slot. */
  ghost predicate AllIdentified(states: seq<State>, steps: seq<(nat, Event)>)
    requires IsRun(states, steps)
  {
    forall i :: 0 <= i < |steps| && steps[i].1.TakeCluster? ==> states[i].calls[steps[i].0].caller.Some?
  }

  lemma ExtendFilling(states: seq<State>, steps: seq<(nat, Event)>, max: int, global: nat, name: string, identified: bool, cap: int,
                      t: nat, e: Event) returns (states': seq<State>, steps': seq<(nat, Event)>)
    requires Filling(states, steps, max, global, name, identified, cap) && Enabled(states[|steps|], t, e)
    requires e.TakeCluster? ==> e == TakeCluster(name, cap) && (identified ==> states[|steps|].calls[t].caller.Some?)
    ensures Filling(states', steps', max, global, name, identified, cap) && states'[|steps'|] == Apply(states[|steps|], t, e)
  {
    states', steps' := states + [Apply(states[|steps|], t, e)], steps + [(t, e)];
    Extend(states, steps, t, e);
    assert forall i :: 0 <= i < |steps| ==> states'[i] == states[i] && steps'[i] == steps[i];
  }

  lemma BeginFilling(states: seq<State>, steps: seq<(nat, Event)>, max: int, global: nat, name: string, identified: bool, cap: int, k: nat)
      returns (states': seq<State>, steps': seq<(nat, Event)>)
    requires Filling(states, steps, max, global, name, identified, cap)
    requires var s := states[|steps|]; k !in s.calls && (identified ==> Get(s.perCaller, Who(k)) < s.max)
    ensures Filling(states', steps', max, global, name, identified, cap) && states'[|steps'|] == Begun(states[|steps|], k, identified)
  {
    states', steps' := ExtendFilling(states, steps, max, global, name, identified, cap, k, Begin);
    if identified {
      states', steps' := ExtendFilling(states', steps', max, global, name, identified, cap, k, TakeCaller(Who(k)));
    }
  }

  /** One more call on the cluster. */
  lemma FillOne(states: seq<State>, steps: seq<(nat, Event)>, max: int, global: nat, name: string, identified: bool, cap: int, k: nat)
      returns (states': seq<State>, steps': seq<(nat, Event)>)
    requires Filling(states, steps, max, global, name, identified, cap) && Filled(states[|steps|], max, global, name, identified, k)
    requires k < global <= cap && (identified ==> max >= 1)
    ensures Filling(states', steps', max, global, name, identified, cap) && Filled(states'[|steps'|], max, global, name, identified, k + 1)
  {
    FilledNext(states[|steps|], max, global, name, identified, cap, k);
    states', steps' := BeginFilling(states, steps, max, global, name, identified, cap, k);
    GetsToRun(states'[|steps'|], k, name, cap);
    states', steps' := ExtendFilling(states', steps', max, global, name, identified, cap, k, TakeCluster(name, cap));
    states', steps' := ExtendFilling(states', steps', max, global, name, identified, cap, k, TakeGlobal);
  }

  /** Every call admitted to a cluster was admitted to this one, with this cap. */
  ghost predicate CapsAre(steps: seq<(nat, Event)>, name: string, cap: int) {
    forall i :: 0 <= i < |steps| && steps[i].1.TakeCluster? ==> steps[i].1.name == name && steps[i].1.cap == cap
  }

  lemma {:induction false} FillSlots(max: int, global: nat, name: string, identified: bool, cap: int, k: nat)
      returns (states: seq<State>, steps: seq<(nat, Event)>)
    requires k <= global <= cap && (identified ==> max >= 1)
    ensures Filling(states, steps, max, global, name, identified, cap) && Filled(states[|steps|], max, global, name, identified, k)
  {
    if k == 0 {
      states, steps := [State(max, global, map[], map[], 0, map[])], [];
    } else {
      states, steps := FillSlots(max, global, name, identified, cap, k - 1);
      states, steps := FillOne(states, steps, max, global, name, identified, cap, k - 1);
    }
  }

  // ----- Exactly when one cluster cannot take every slot -------------------

  /** Every cap given for the cluster is that of a caller whose set has one of
      these sizes. */
  ghost predicate CapsFrom(steps: seq<(nat, Event)>, name: string, perCluster: int, global: nat, sizes: set<nat>) {
    forall i :: 0 <= i < |steps| && steps[i].1.TakeCluster? && steps[i].1.name == name ==>
      exists n :: n in sizes && steps[i].1.cap == ClusterLimit(perCluster, global, n)
  }

  /** A run under these limits, of callers with sets of these sizes. Where callers
      are identified, each call takes its caller's slot first. */
  ghost predicate Serves(states: seq<State>, steps: seq<(nat, Event)>, i: nat,
                         max: int, global: nat, name: string, perCluster: int, sizes: set<nat>, identified: bool) {
    && IsRun(states, steps) && i < |states| && states[0].max == max && states[0].global == global
    && CapsFrom(steps, name, perCluster, global, sizes) && (identified ==> AllIdentified(states, steps))
  }

  /** No such run has the cluster's calls in every global slot. */
  ghost predicate NeverTakesAll(max: int, global: nat, name: string, perCluster: int, sizes: set<nat>, identified: bool) {
    forall states: seq<State>, steps: seq<(nat, Event)>, i: nat ::
      Serves(states, steps, i, max, global, name, perCluster, sizes, identified) ==> |Busy(states[i].calls, name)| < global
  }

  lemma SmallCapsSuffice(max: int, global: nat, name: string, perCluster: int, sizes: set<nat>, identified: bool)
    requires global > 0 && forall n :: n in sizes ==> ClusterLimit(perCluster, global, n) < global
    ensures NeverTakesAll(max, global, name, perCluster, sizes, identified)
  {
    forall states: seq<State>, steps: seq<(nat, Event)>, i: nat |
      Serves(states, steps, i, max, global, name, perCluster, sizes, identified)
      ensures |Busy(states[i].calls, name)| < global
    {
      ClusterStaysWithinCaps(states, steps, i, name, global - 1);
      BusyIsAdmitted(states[i].calls, name);
    }
  }

  /** Without a slot for any caller, no identified call gets as far as a cluster. */
  lemma NoCallerNoCall(states: seq<State>, steps: seq<(nat, Event)>, i: nat)
    requires IsRun(states, steps) && i < |steps| && states[0].max < 1 && AllIdentified(states, steps)
    ensures !steps[i].1.TakeCluster?
  {
    CountersAreCallsInFlight(states, steps, i);
    MaxStays(states, steps, i);
    NoSlotNoCaller(states[i]);
  }

  lemma NoSlotNoCaller(s: State)
    requires Inv(s) && s.max < 1
    ensures forall t :: t in s.calls ==> s.calls[t].caller.None?
  {
    assert forall who :: |ByCaller(s.calls, who)| == 0;
    forall t | t in s.calls
      ensures s.calls[t].caller.None?
    {
      assert forall who :: t in ByCaller(s.calls, who) <==> s.calls[t].caller == Some(who);
    }
  }

  lemma {:induction false} MaxStays(states: seq<State>, steps: seq<(nat, Event)>, n: nat)
    requires IsRun(states, steps) && n < |states|
    ensures states[n].max == states[0].max
  {
    if n > 0 {
      MaxStays(states, steps, n - 1);
    }
  }

  lemma NoCallersSuffice(max: int, global: nat, name: string, perCluster: int, sizes: set<nat>)
    requires global > 0 && max < 1
    ensures NeverTakesAll(max, global, name, perCluster, sizes, true)
  {
    forall states: seq<State>, steps: seq<(nat, Event)>, i: nat |
      Serves(states, steps, i, max, global, name, perCluster, sizes, true)
      ensures |Busy(states[i].calls, name)| < global
    {
      forall j | 0 <= j < |steps|
        ensures !steps[j].1.TakeCluster?
      {
        NoCallerNoCall(states, steps, j);
      }
      ClusterStaysWithinCaps(states, steps, i, name, 0);
      BusyIsAdmitted(states[i].calls, name);
    }
  }

  lemma FilledIsAll(s: State, max: int, global: nat, name: string, identified: bool)
    requires Filled(s, max, global, name, identified, global)
    ensures |Busy(s.calls, name)| == global
  {
    assert Busy(s.calls, name) == First(global);
  }

  /** With callers that are identified and have a slot each, or that are not
      identified, a cap that is not below the global limit lets one cluster take
      every slot. */
  lemma LargeCapTakesAll(max: int, global: nat, name: string, perCluster: int, sizes: set<nat>, identified: bool, n: nat)
    requires n in sizes && ClusterLimit(perCluster, global, n) >= global && (identified ==> max >= 1)
    ensures !NeverTakesAll(max, global, name, perCluster, sizes, identified)
  {
    var states, steps := FillSlots(max, global, name, identified, ClusterLimit(perCluster, global, n), global);
    FilledIsAll(states[|steps|], max, global, name, identified);
    assert Serves(states, steps, |steps|, max, global, name, perCluster, sizes, identified);
  }

  /** Every caller that may read the cluster gets a cap below the global limit, or
      callers are identified and none has a slot. */
  ghost predicate CapsAreSmall(max: int, global: nat, perCluster: int, sizes: set<nat>, identified: bool) {
    (identified && max < 1) || forall n :: n in sizes ==> ClusterLimit(perCluster, global, n) < global
  }

  /** One cluster's calls can never hold every global slot if and only if every
      caller that may read it gets a cap below the global limit, whether or not
      callers are identified. The cap follows each caller's own set, so with the
      default cap that is: every such caller has at least two clusters, and there
      are more than two slots. */
  lemma OneClusterCannotTakeAll(max: int, global: nat, name: string, perCluster: int, sizes: set<nat>, identified: bool)
    requires global > 0
    ensures NeverTakesAll(max, global, name, perCluster, sizes, identified) <==> CapsAreSmall(max, global, perCluster, sizes, identified)
    ensures NeverTakesAll(max, global, name, 0, sizes, identified) <==>
            (identified && max < 1) || forall n :: n in sizes ==> n >= 2 && global > 2
  {
    SmallOrLarge(max, global, name, perCluster, sizes, identified);
    SmallOrLarge(max, global, name, 0, sizes, identified);
    forall n
      ensures ClusterLimit(0, global, n) < global <==> n >= 2 && global > 2
    {
      ShareIsBelowGlobal(global, n);
    }
  }

  lemma SmallOrLarge(max: int, global: nat, name: string, perCluster: int, sizes: set<nat>, identified: bool)
    requires global > 0
    ensures NeverTakesAll(max, global, name, perCluster, sizes, identified) <==> CapsAreSmall(max, global, perCluster, sizes, identified)
  {
    if identified && max < 1 {
      NoCallersSuffice(max, global, name, perCluster, sizes);
    } else if n: nat :| n in sizes && ClusterLimit(perCluster, global, n) >= global {
      LargeCapTakesAll(max, global, name, perCluster, sizes, identified, n);
    } else {
      SmallCapsSuffice(max, global, name, perCluster, sizes, identified);
    }
  }
}
