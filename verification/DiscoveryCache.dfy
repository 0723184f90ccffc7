/** The cluster directory's cache: one discovered set per key, discovered by at
    most one call at a time, as calls taking steps.

    The key is the caller where discovery runs as the caller, and one shared
    key otherwise. What a discovery finds, and whether a name is in a set, is
    the environment's choice. */
module DiscoveryCache {
  import opened Basics

  /** A discovered set: the identity it was discovered as, and when. */
  datatype ClusterSet = ClusterSet(identity: string, at: int, contents: nat)

  datatype Result = Ok(found: ClusterSet) | Err

  /** A discovery shared by the calls that join it. */
  datatype Pending = Pending(key: string, result: Option<Result>, done: bool)

  /** Where a call is. cur is the set it read; miss says it rediscovers because
      a name was unknown. */
  datatype Pc =
    | Reading
    | Checking(cur: Option<ClusterSet>)
    | Entering(cur: Option<ClusterSet>, miss: bool)
    | Leading(cur: Option<ClusterSet>, miss: bool, p: nat)             // discovering
    | Storing(cur: Option<ClusterSet>, miss: bool, p: nat, res: Result)
    | Closing(cur: Option<ClusterSet>, miss: bool, p: nat, res: Result)
    | Joining(cur: Option<ClusterSet>, miss: bool, p: nat)             // waiting for the leader
    | Returned(cur: Option<ClusterSet>, miss: bool, res: Result)
    | Holding(held: ClusterSet)                                        // about to look the name up
    | Finished(res: Result)

  datatype Call = Call(caller: string, pc: Pc)

  /** The last field is history: which call leads each key's discovery. */
  datatype State = State(
    perCaller: bool, maxAge: int, clock: int,
    sets: map<string, ClusterSet>, lastMiss: map<string, int>,
    inflight: map<string, nat>, pending: map<nat, Pending>, next: nat,
    calls: map<nat, Call>, leader: map<string, nat>)

  /** Steps that only move the call. */
  datatype Move =
    | ReadSets
    | CheckAge
    | Follow                             // rediscover: a discovery is in flight, wait for it
    | Discover(outcome: Option<nat>)     // the leader's discovery ends: contents, or an error
    | Join                               // the leader is done
    | GiveUp                             // the joiner's context ended
    | Resume(found: bool)                // back from rediscover; found: the name is in the fresh set
    | Hit

  datatype Event =
    | Tick(d: nat)
    | Begin(caller: string)
    | Step(move: Move)
    | Register                           // rediscover: none in flight, lead one
    | Store
    | Close
    | Miss(d: nat)

  const MAX_CALLER_SETS := 512

  /** In nanoseconds. */
  const MISS_EVERY := 60_000_000_000

  function KeyOf(s: State, caller: string): string {
    if s.perCaller then caller else ""
  }

  function ThreadKey(s: State, t: nat): string
    requires t in s.calls
  {
    KeyOf(s, s.calls[t].caller)
  }

  // ----- Steps -------------------------------------------------------------

  predicate CanMove(s: State, t: nat, m: Move)
    requires t in s.calls
  {
    var pc := s.calls[t].pc;
    match m
    case ReadSets => pc.Reading?
    case CheckAge => pc.Checking?
    case Follow => pc.Entering? && ThreadKey(s, t) in s.inflight
    case Discover(_) => pc.Leading?
    case Join => pc.Joining? && pc.p in s.pending && s.pending[pc.p].done && s.pending[pc.p].result.Some?
    case GiveUp => pc.Joining?
    case Resume(_) => pc.Returned?
    case Hit => pc.Holding?
  }

  predicate Enabled(s: State, t: nat, e: Event) {
    match e
    case Tick(_) => true
    case Begin(_) => t !in s.calls
    case Step(m) => t in s.calls && CanMove(s, t, m)
    case Register => t in s.calls && s.calls[t].pc.Entering? && ThreadKey(s, t) !in s.inflight
    case Store => t in s.calls && s.calls[t].pc.Storing?
    case Close => t in s.calls && s.calls[t].pc.Closing? && s.calls[t].pc.p in s.pending
    case Miss(_) => t in s.calls && s.calls[t].pc.Holding?
  }

  /** Where a move takes the call. */
  function Target(s: State, t: nat, m: Move): Pc
    requires t in s.calls && CanMove(s, t, m)
  {
    var pc, key := s.calls[t].pc, ThreadKey(s, t);
    match m
    case ReadSets => Checking(if key in s.sets then Some(s.sets[key]) else None)
    case CheckAge =>
      if pc.cur.Some? && s.clock - pc.cur.value.at < s.maxAge then Holding(pc.cur.value) else Entering(pc.cur, false)
    case Follow => Joining(pc.cur, pc.miss, s.inflight[key])
    case Discover(outcome) =>
      Storing(pc.cur, pc.miss, pc.p, if outcome.None? then Err else Ok(ClusterSet(key, s.clock, outcome.value)))
    case Join => Returned(pc.cur, pc.miss, s.pending[pc.p].result.value)
    case GiveUp => Returned(pc.cur, pc.miss, Err)
    case Resume(found) =>
      if pc.miss then Finished(if found then pc.res else Err)
      else if pc.res.Ok? then Holding(pc.res.found)
      else if pc.cur.Some? then Holding(pc.cur.value)
      else Finished(Err)
    case Hit => Finished(Ok(pc.held))
  }

  function Goto(s: State, t: nat, pc: Pc): State
    requires t in s.calls
  {
    s.(calls := s.calls[t := s.calls[t].(pc := pc)])
  }

  function Lead(s: State, t: nat): State
    requires t in s.calls && s.calls[t].pc.Entering?
  {
    var pc, key := s.calls[t].pc, ThreadKey(s, t);
    Goto(s, t, Leading(pc.cur, pc.miss, s.next))
      .(inflight := s.inflight[key := s.next], pending := s.pending[s.next := Pending(key, None, false)],
        next := s.next + 1, leader := s.leader[key := t])
  }

  predicate Stale(s: State, k: string)
    requires k in s.sets
  {
    k != "" && s.clock - s.sets[k].at >= s.maxAge
  }

  /** Stale callers' sets go once there are many, and their miss times too. */
  function Prune(s: State): State {
    if |s.sets| <= MAX_CALLER_SETS then s
    else
      var gone := set k | k in s.sets && Stale(s, k);
      s.(sets := s.sets - gone, lastMiss := s.lastMiss - gone)
  }

  /** The step that ends a discovery, before anything is stored or pruned. */
  function Unregister(s: State, t: nat): State
    requires t in s.calls && s.calls[t].pc.Storing?
  {
    var pc, key := s.calls[t].pc, ThreadKey(s, t);
    Goto(s, t, Closing(pc.cur, pc.miss, pc.p, pc.res))
      .(inflight := s.inflight - {key}, pending := s.pending[pc.p := Pending(key, Some(pc.res), false)])
  }

  function Put(s: State, key: string, found: ClusterSet): State {
    s.(sets := s.sets[key := found])
  }

  /** The discovery is over: a success is stored, a failure leaves the set. */
  function EndDiscovery(s: State, t: nat): State
    requires t in s.calls && s.calls[t].pc.Storing?
  {
    var res := s.calls[t].pc.res;
    if res.Ok? then Prune(Put(Unregister(s, t), ThreadKey(s, t), res.found)) else Unregister(s, t)
  }

  /** Within a minute of the key's last miss the call gives up, otherwise it
      stamps the miss and rediscovers. */
  function NoteMiss(s: State, t: nat, d: nat): State
    requires t in s.calls
  {
    var key := ThreadKey(s, t);
    if key in s.lastMiss && s.clock - s.lastMiss[key] < MISS_EVERY then Goto(s, t, Finished(Err))
    else Stamp(s, t, key, s.clock + d)
  }

  /** The miss is recorded and the call goes to rediscover. */
  function Stamp(s: State, t: nat, key: string, at: int): State
    requires t in s.calls
  {
    Goto(s, t, Entering(None, true)).(clock := at, lastMiss := s.lastMiss[key := at])
  }

  function EndClose(s: State, t: nat): State
    requires t in s.calls && s.calls[t].pc.Closing? && s.calls[t].pc.p in s.pending
  {
    var pc := s.calls[t].pc;
    Goto(s, t, Returned(pc.cur, pc.miss, pc.res)).(pending := s.pending[pc.p := s.pending[pc.p].(done := true)])
  }

  function Apply(s: State, t: nat, e: Event): State
    requires Enabled(s, t, e)
  {
    match e
    case Tick(d) => s.(clock := s.clock + d)
    case Begin(caller) => s.(calls := s.calls[t := Call(caller, Reading)])
    case Step(m) => Goto(s, t, Target(s, t, m))
    case Register => Lead(s, t)
    case Store => EndDiscovery(s, t)
    case Close => EndClose(s, t)
    case Miss(d) => NoteMiss(s, t, d)
  }

  // ----- What every step keeps ---------------------------------------------

  predicate Leads(pc: Pc) {
    pc.Leading? || pc.Storing?
  }

  ghost predicate Mine(o: Option<ClusterSet>, key: string) {
    o.Some? ==> o.value.identity == key
  }

  ghost predicate MineResult(r: Result, key: string) {
    r.Ok? ==> r.found.identity == key
  }

  /** Whatever set is in hand at pc was discovered as key. */
  ghost predicate Own(pending: map<nat, Pending>, key: string, pc: Pc) {
    match pc
    case Reading => true
    case Checking(cur) => Mine(cur, key)
    case Entering(cur, _) => Mine(cur, key)
    case Leading(cur, _, _) => Mine(cur, key)
    case Storing(cur, _, _, res) => Mine(cur, key) && MineResult(res, key)
    case Closing(cur, _, p, res) =>
      Mine(cur, key) && p in pending && pending[p].key == key && pending[p].result == Some(res) && MineResult(res, key)
    case Joining(cur, _, p) => Mine(cur, key) && p in pending && pending[p].key == key
    case Returned(cur, _, res) => Mine(cur, key) && MineResult(res, key)
    case Holding(held) => held.identity == key
    case Finished(res) => MineResult(res, key)
  }

  ghost predicate Private(s: State, t: nat)
    requires t in s.calls
  {
    Own(s.pending, ThreadKey(s, t), s.calls[t].pc)
  }

  /** A call that discovers is the one registered for its key. */
  ghost predicate Registered(s: State, t: nat)
    requires t in s.calls
  {
    var pc, key := s.calls[t].pc, ThreadKey(s, t);
    Leads(pc) ==> key in s.inflight && s.inflight[key] == pc.p && key in s.leader && s.leader[key] == t
  }

  ghost predicate InFlight(s: State, key: string)
    requires key in s.inflight
  {
    && key in s.leader && s.leader[key] in s.calls && Leads(s.calls[s.leader[key]].pc) && ThreadKey(s, s.leader[key]) == key
    && s.inflight[key] in s.pending && s.pending[s.inflight[key]] == Pending(key, None, false)
  }

  /** A joined discovery carries its key's result, once it is done. */
  ghost predicate Sound(s: State, p: nat)
    requires p in s.pending
  {
    && p < s.next && (s.pending[p].done ==> s.pending[p].result.Some?)
    && (s.pending[p].result.Some? ==> MineResult(s.pending[p].result.value, s.pending[p].key))
  }

  ghost predicate Inv(s: State) {
    && (forall t :: t in s.calls ==> Private(s, t) && Registered(s, t))
    && (forall key :: key in s.inflight ==> InFlight(s, key))
    && (forall p :: p in s.pending ==> Sound(s, p))
    && (forall k :: k in s.sets ==> s.sets[k].identity == k)
    && (forall k :: k in s.lastMiss ==> s.lastMiss[k] <= s.clock)
  }

  /** No calls yet; the shared set may have been discovered at start-up. */
  ghost predicate Init(s: State) {
    && s.calls == map[] && s.inflight == map[] && s.pending == map[] && s.lastMiss == map[]
    && s.sets.Keys <= {""} && (forall k :: k in s.sets ==> s.sets[k].identity == k)
  }

  /** Only call t's position changed, it does not lead, and whatever it now
      holds is its own. */
  ghost predicate Quiet(s: State, s': State, t: nat) {
    && t in s'.calls && s'.calls == s.calls[t := s'.calls[t]] && s'.perCaller == s.perCaller
    && s'.inflight == s.inflight && s'.pending == s.pending && s'.next == s.next && s'.leader == s.leader && s'.sets == s.sets
    && s.clock <= s'.clock
    && (if t in s.calls && Leads(s.calls[t].pc)
        then Leads(s'.calls[t].pc) && s'.calls[t].pc.p == s.calls[t].pc.p && s'.calls[t].caller == s.calls[t].caller
        else !Leads(s'.calls[t].pc))
  }

  lemma QuietKeepsInv(s: State, s': State, t: nat)
    requires Inv(s) && Quiet(s, s', t) && Private(s', t)
    requires forall k :: k in s'.lastMiss ==> s'.lastMiss[k] <= s'.clock
    ensures Inv(s')
  {
    forall u | u in s'.calls
      ensures Private(s', u) && Registered(s', u)
    {
      assert u in s.calls ==> Private(s, u) && Registered(s, u);
    }
    forall key | key in s'.inflight
      ensures InFlight(s', key)
    {
      assert InFlight(s, key);
    }
    forall p | p in s'.pending
      ensures Sound(s', p)
    {
      assert Sound(s, p);
    }
  }

  /** Later results are added; what was joined stays under its key. */
  ghost predicate Extends(before: map<nat, Pending>, after: map<nat, Pending>) {
    forall p :: p in before ==>
      && p in after && after[p].key == before[p].key
      && (before[p].result.Some? ==> after[p].result == before[p].result)
  }

  lemma OwnExtends(before: map<nat, Pending>, after: map<nat, Pending>, key: string, pc: Pc)
    requires Extends(before, after) && Own(before, key, pc)
    ensures Own(after, key, pc)
  {
  }

  ghost predicate CanLead(s: State, t: nat) {
    Inv(s) && t in s.calls && s.calls[t].pc.Entering? && ThreadKey(s, t) !in s.inflight
  }

  lemma NextIsUnused(s: State)
    requires forall p :: p in s.pending ==> Sound(s, p)
    ensures s.next !in s.pending
  {
    assert s.next in s.pending ==> Sound(s, s.next);
  }

  lemma LeadKeepsCall(s: State, t: nat, u: nat)
    requires CanLead(s, t) && u in s.calls && u != t
    ensures Private(Lead(s, t), u) && Registered(Lead(s, t), u)
  {
    NextIsUnused(s);
    assert Private(s, u) && Registered(s, u);
    OwnExtends(s.pending, Lead(s, t).pending, ThreadKey(s, u), s.calls[u].pc);
  }

  lemma LeadKeepsTables(s: State, t: nat)
    requires CanLead(s, t)
    ensures forall k :: k in Lead(s, t).inflight ==> InFlight(Lead(s, t), k)
    ensures forall p :: p in Lead(s, t).pending ==> Sound(Lead(s, t), p)
  {
    var s', key := Lead(s, t), ThreadKey(s, t);
    NextIsUnused(s);
    assert InFlight(s', key);
    forall k | k in s'.inflight && k != key
      ensures InFlight(s', k)
    {
      assert InFlight(s, k);
    }
    forall p | p in s.pending
      ensures Sound(s', p)
    {
      assert Sound(s, p);
    }
  }

  lemma LeadKeepsInv(s: State, t: nat)
    requires CanLead(s, t)
    ensures Inv(Lead(s, t))
  {
    assert Private(s, t);
    assert Private(Lead(s, t), t) && Registered(Lead(s, t), t);
    forall u | u in s.calls && u != t
      ensures Private(Lead(s, t), u) && Registered(Lead(s, t), u)
    {
      LeadKeepsCall(s, t, u);
    }
    LeadKeepsTables(s, t);
  }

  lemma UnregisterKeepsInv(s: State, t: nat)
    requires Inv(s) && t in s.calls && s.calls[t].pc.Storing?
    ensures Inv(Unregister(s, t))
  {
    var s', key, p := Unregister(s, t), ThreadKey(s, t), s.calls[t].pc.p;
    assert Private(s, t) && Registered(s, t) && InFlight(s, key) && Sound(s, p);
    forall u | u in s.calls && u != t
      ensures Private(s', u) && Registered(s', u)
    {
      assert Private(s, u) && Registered(s, u);
      OwnExtends(s.pending, s'.pending, ThreadKey(s, u), s.calls[u].pc);
    }
    assert Private(s', t) && Registered(s', t);
    forall k | k in s'.inflight
      ensures InFlight(s', k)
    {
      assert InFlight(s, k);
    }
    forall q | q in s'.pending
      ensures Sound(s', q)
    {
      assert q in s.pending && Sound(s, q);
    }
  }

  /** Storing a key's own set, and pruning, keep the rest. */
  lemma StoreKeepsInv(s: State, s': State)
    requires Inv(s) && s' == s.(sets := s'.sets, lastMiss := s'.lastMiss)
    requires forall k :: k in s'.sets ==> s'.sets[k].identity == k
    requires forall k :: k in s'.lastMiss ==> k in s.lastMiss && s'.lastMiss[k] == s.lastMiss[k]
    ensures Inv(s')
  {
    forall u | u in s'.calls
      ensures Private(s', u) && Registered(s', u)
    {
      assert Private(s, u) && Registered(s, u);
    }
    forall key | key in s'.inflight
      ensures InFlight(s', key)
    {
      assert InFlight(s, key);
    }
    forall p | p in s'.pending
      ensures Sound(s', p)
    {
      assert Sound(s, p);
    }
  }

  lemma EndKeepsInv(s: State, t: nat)
    requires Inv(s) && t in s.calls && s.calls[t].pc.Storing?
    ensures Inv(EndDiscovery(s, t))
  {
    UnregisterKeepsInv(s, t);
    assert Private(s, t);
    var res := s.calls[t].pc.res;
    if res.Ok? {
      PutKeepsInv(Unregister(s, t), ThreadKey(s, t), res.found);
      PruneKeepsInv(Put(Unregister(s, t), ThreadKey(s, t), res.found));
    }
  }

  lemma PutKeepsInv(s: State, key: string, found: ClusterSet)
    requires Inv(s) && found.identity == key
    ensures Inv(Put(s, key, found))
  {
    StoreKeepsInv(s, Put(s, key, found));
  }

  lemma PruneKeepsInv(s: State)
    requires Inv(s)
    ensures Inv(Prune(s))
  {
    StoreKeepsInv(s, Prune(s));
  }

  lemma CloseKeepsInv(s: State, t: nat)
    requires Inv(s) && t in s.calls && s.calls[t].pc.Closing? && s.calls[t].pc.p in s.pending
    ensures Inv(EndClose(s, t))
  {
    var s', p := EndClose(s, t), s.calls[t].pc.p;
    assert Private(s, t);
    forall u | u in s'.calls && u != t
      ensures Private(s', u) && Registered(s', u)
    {
      assert Private(s, u) && Registered(s, u);
      OwnExtends(s.pending, s'.pending, ThreadKey(s, u), s.calls[u].pc);
    }
    assert Private(s', t) && Registered(s', t);
    forall key | key in s'.inflight
      ensures InFlight(s', key)
    {
      assert InFlight(s, key);
    }
    forall q | q in s'.pending
      ensures Sound(s', q)
    {
      assert Sound(s, q);
    }
  }

  /** A move hands the call nothing that is not its own. */
  lemma MoveStaysOwn(s: State, t: nat, m: Move)
    requires t in s.calls && CanMove(s, t, m) && Private(s, t)
    requires forall k :: k in s.sets ==> s.sets[k].identity == k
    requires forall k :: k in s.inflight ==> s.inflight[k] in s.pending && s.pending[s.inflight[k]].key == k
    requires m.Join? ==> Sound(s, s.calls[t].pc.p)
    ensures Own(s.pending, ThreadKey(s, t), Target(s, t, m))
    ensures Leads(Target(s, t, m)) <==> Leads(s.calls[t].pc)
    ensures Leads(Target(s, t, m)) ==> Target(s, t, m).p == s.calls[t].pc.p
  {
  }

  lemma MoveKeepsInv(s: State, t: nat, m: Move)
    requires Inv(s) && t in s.calls && CanMove(s, t, m)
    ensures Inv(Goto(s, t, Target(s, t, m)))
  {
    assert Private(s, t);
    forall k | k in s.inflight
      ensures s.inflight[k] in s.pending && s.pending[s.inflight[k]].key == k
    {
      assert InFlight(s, k);
    }
    assert m.Join? ==> Sound(s, s.calls[t].pc.p);
    MoveStaysOwn(s, t, m);
    QuietKeepsInv(s, Goto(s, t, Target(s, t, m)), t);
  }

  lemma TickKeepsInv(s: State, d: nat)
    requires Inv(s)
    ensures Inv(s.(clock := s.clock + d))
  {
    var s' := s.(clock := s.clock + d);
    forall u | u in s'.calls
      ensures Private(s', u) && Registered(s', u)
    {
      assert Private(s, u) && Registered(s, u);
    }
    forall key | key in s'.inflight
      ensures InFlight(s', key)
    {
      assert InFlight(s, key);
    }
    forall p | p in s'.pending
      ensures Sound(s', p)
    {
      assert Sound(s, p);
    }
  }

  lemma BeginKeepsInv(s: State, t: nat, caller: string)
    requires Inv(s) && t !in s.calls
    ensures Inv(s.(calls := s.calls[t := Call(caller, Reading)]))
  {
    QuietKeepsInv(s, s.(calls := s.calls[t := Call(caller, Reading)]), t);
  }

  lemma MissKeepsInv(s: State, t: nat, d: nat)
    requires Inv(s) && t in s.calls && s.calls[t].pc.Holding?
    ensures Inv(NoteMiss(s, t, d))
  {
    FailKeepsInv(s, t);
    StampKeepsInv(s, t, ThreadKey(s, t), s.clock + d);
    MissGoesEitherWay(s, t, d);
  }

  lemma MissGoesEitherWay(s: State, t: nat, d: nat)
    requires t in s.calls
    ensures NoteMiss(s, t, d) == Goto(s, t, Finished(Err)) || NoteMiss(s, t, d) == Stamp(s, t, ThreadKey(s, t), s.clock + d)
  {
  }

  lemma FailKeepsInv(s: State, t: nat)
    requires Inv(s) && t in s.calls && s.calls[t].pc.Holding?
    ensures Inv(Goto(s, t, Finished(Err)))
  {
    assert Goto(s, t, Finished(Err)).calls[t].pc == Finished(Err);
    QuietKeepsInv(s, Goto(s, t, Finished(Err)), t);
  }

  lemma StampKeepsInv(s: State, t: nat, key: string, at: int)
    requires Inv(s) && t in s.calls && s.calls[t].pc.Holding? && s.clock <= at
    ensures Inv(Stamp(s, t, key, at))
  {
    var s' := Stamp(s, t, key, at);
    assert s'.calls[t].pc == Entering(None, true);
    QuietKeepsInv(s, s', t);
  }

  lemma InvStep(s: State, t: nat, e: Event)
    requires Inv(s) && Enabled(s, t, e)
    ensures Inv(Apply(s, t, e))
  {
    match e {
      case Tick(d) => TickKeepsInv(s, d);
      case Begin(caller) => BeginKeepsInv(s, t, caller);
      case Step(m) => MoveKeepsInv(s, t, m);
      case Register => LeadKeepsInv(s, t);
      case Store => EndKeepsInv(s, t);
      case Close => CloseKeepsInv(s, t);
      case Miss(d) => MissKeepsInv(s, t, d);
    }
  }

  // ----- Every run ---------------------------------------------------------

  ghost predicate IsRun(states: seq<State>, steps: seq<(nat, Event)>) {
    && |states| == |steps| + 1 && Init(states[0])
    && forall i :: 0 <= i < |steps| ==>
         Enabled(states[i], steps[i].0, steps[i].1) && states[i + 1] == Apply(states[i], steps[i].0, steps[i].1)
  }

  lemma {:induction false} RunsKeepInv(states: seq<State>, steps: seq<(nat, Event)>, i: nat)
    requires IsRun(states, steps) && i < |states|
    ensures Inv(states[i])
  {
    if i > 0 {
      RunsKeepInv(states, steps, i - 1);
      InvStep(states[i - 1], steps[i - 1].0, steps[i - 1].1);
    }
  }

  /** In every interleaving at most one discovery per key is under way. */
  lemma SingleFlight(states: seq<State>, steps: seq<(nat, Event)>, i: nat, t: nat, u: nat)
    requires IsRun(states, steps) && i < |states|
    requires t in states[i].calls && u in states[i].calls && Leads(states[i].calls[t].pc) && Leads(states[i].calls[u].pc)
    requires ThreadKey(states[i], t) == ThreadKey(states[i], u)
    ensures t == u
  {
    RunsKeepInv(states, steps, i);
    assert Registered(states[i], t) && Registered(states[i], u);
  }

  /** Every set a call is served was discovered as the call's own key: where
      discovery runs as the caller, as that caller. */
  lemma ServedOwnSet(states: seq<State>, steps: seq<(nat, Event)>, i: nat, t: nat)
    requires IsRun(states, steps) && i < |states| && t in states[i].calls
    ensures var s, c := states[i], states[i].calls[t];
            && (c.pc.Holding? ==> c.pc.held.identity == KeyOf(s, c.caller))
            && (c.pc.Finished? && c.pc.res.Ok? ==> c.pc.res.found.identity == KeyOf(s, c.caller))
  {
    RunsKeepInv(states, steps, i);
    assert Private(states[i], t);
  }

  // ----- Joining -----------------------------------------------------------

  /** Once a discovery has a result it never changes. */
  lemma ResultsAreFinal(s: State, t: nat, e: Event, p: nat)
    requires Inv(s) && Enabled(s, t, e) && p in s.pending && s.pending[p].result.Some?
    ensures p in Apply(s, t, e).pending && Apply(s, t, e).pending[p].result == s.pending[p].result
  {
    if e.Store? {
      assert Registered(s, t) && InFlight(s, ThreadKey(s, t));
    }
  }

  lemma {:induction false} ResultsStay(states: seq<State>, steps: seq<(nat, Event)>, i: nat, j: nat, p: nat)
    requires IsRun(states, steps) && i <= j < |states| && p in states[i].pending && states[i].pending[p].result.Some?
    ensures p in states[j].pending && states[j].pending[p].result == states[i].pending[p].result
    decreases j - i
  {
    if i < j {
      ResultsStay(states, steps, i, j - 1, p);
      RunsKeepInv(states, steps, j - 1);
      ResultsAreFinal(states[j - 1], steps[j - 1].0, steps[j - 1].1, p);
    }
  }

  /** A call that joined a discovery returns what its leader returned: the
      leader's step i and the joiner's step j share the discovery p. */
  lemma JoinerReturnsLeadersResult(states: seq<State>, steps: seq<(nat, Event)>, i: nat, j: nat, p: nat)
    requires IsRun(states, steps) && i < |steps| && j < |steps|
    requires steps[i].1.Close? && states[i].calls[steps[i].0].pc.p == p
    requires steps[j].1 == Step(Join) && states[j].calls[steps[j].0].pc.p == p
    ensures states[i + 1].calls[steps[i].0].pc.Returned? && states[j + 1].calls[steps[j].0].pc.Returned?
    ensures states[i + 1].calls[steps[i].0].pc.res == states[j + 1].calls[steps[j].0].pc.res
  {
    RunsKeepInv(states, steps, i);
    assert Private(states[i], steps[i].0);
    if i <= j {
      ResultsStay(states, steps, i, j, p);
    } else {
      ResultsStay(states, steps, j, i, p);
    }
  }

  // ----- Stored sets -------------------------------------------------------

  lemma OnlyStoreWritesSets(s: State, t: nat, e: Event)
    requires Enabled(s, t, e) && !e.Store?
    ensures Apply(s, t, e).sets == s.sets
  {
  }

  /** Pruning needs a full table and takes stale callers' sets only. */
  lemma PruneTakesStale(s: State, k: string)
    requires k in s.sets
    ensures if |s.sets| > MAX_CALLER_SETS && k != "" && s.clock - s.sets[k].at >= s.maxAge
            then k !in Prune(s).sets
            else k in Prune(s).sets && Prune(s).sets[k] == s.sets[k]
  {
  }

  /** A stored set is replaced only by its key's own successful discovery, and
      removed only when it is stale and not the shared one. */
  lemma StoredSetsOnlyImprove(s: State, t: nat, e: Event, k: string)
    requires Enabled(s, t, e) && k in s.sets
    ensures var s' := Apply(s, t, e);
            if k !in s'.sets then e.Store? && s.calls[t].pc.res.Ok? && k != ""
            else s'.sets[k] == s.sets[k] || (e.Store? && ThreadKey(s, t) == k && s.calls[t].pc.res == Ok(s'.sets[k]))
    ensures k !in Apply(s, t, e).sets && k != ThreadKey(s, t) ==> s.clock - s.sets[k].at >= s.maxAge
  {
    if !e.Store? {
      OnlyStoreWritesSets(s, t, e);
    } else if s.calls[t].pc.res.Ok? {
      PruneTakesStale(Put(Unregister(s, t), ThreadKey(s, t), s.calls[t].pc.res.found), k);
    }
  }

  /** The step stores a set that was discovered. */
  predicate Succeeds(s: State, t: nat, e: Event) {
    e.Store? && t in s.calls && s.calls[t].pc.Storing? && s.calls[t].pc.res.Ok?
  }

  /** The store makes too many sets while k's, a caller's, is stale. */
  predicate Prunes(s: State, t: nat, k: string)
    requires t in s.calls && s.calls[t].pc.Storing? && s.calls[t].pc.res.Ok?
  {
    k in s.sets && Stale(s, k) && |s.sets[ThreadKey(s, t) := s.calls[t].pc.res.found]| > MAX_CALLER_SETS
  }

  /** The step stores k's own set, or prunes it. */
  ghost predicate MayTouch(s: State, t: nat, e: Event, k: string) {
    Succeeds(s, t, e) && (ThreadKey(s, t) == k || Prunes(s, t, k))
  }

  lemma UntouchedStays(s: State, t: nat, e: Event, k: string)
    requires Enabled(s, t, e) && k in s.sets && !MayTouch(s, t, e, k)
    ensures k in Apply(s, t, e).sets && Apply(s, t, e).sets[k] == s.sets[k]
  {
    if Succeeds(s, t, e) {
      PruneTakesStale(Put(Unregister(s, t), ThreadKey(s, t), s.calls[t].pc.res.found), k);
    } else {
      StoredSetsOnlyImprove(s, t, e, k);
    }
  }

  /** However many discoveries fail, and whatever succeeds for other keys, a stored
      set stays as it is until its own discovery succeeds, or, for a caller's set,
      until it is stale when a store leaves too many. */
  lemma {:induction false} FailuresKeepSets(states: seq<State>, steps: seq<(nat, Event)>, i: nat, j: nat, k: string)
    requires IsRun(states, steps) && i <= j < |states| && k in states[i].sets
    requires forall n :: i <= n < j ==> !MayTouch(states[n], steps[n].0, steps[n].1, k)
    ensures k in states[j].sets && states[j].sets[k] == states[i].sets[k]
    decreases j - i
  {
    if i < j {
      FailuresKeepSets(states, steps, i, j - 1, k);
      UntouchedStays(states[j - 1], steps[j - 1].0, steps[j - 1].1, k);
    }
  }

  // ----- Misses ------------------------------------------------------------

  /** The step rediscovers because a name was unknown, for this key. */
  ghost predicate MissRediscovers(s: State, t: nat, e: Event, key: string) {
    && e.Miss? && Enabled(s, t, e) && ThreadKey(s, t) == key
    && NoteMiss(s, t, e.d).calls[t].pc.Entering?
  }

  lemma PruneKeepsMisses(s: State, key: string)
    requires key in Prune(s).lastMiss
    ensures key in s.lastMiss && Prune(s).lastMiss[key] == s.lastMiss[key]
  {
  }

  lemma LastMissOnlyGrows(s: State, t: nat, e: Event, key: string)
    requires Enabled(s, t, e) && key in s.lastMiss && key in Apply(s, t, e).lastMiss && s.lastMiss[key] <= s.clock
    ensures s.lastMiss[key] <= Apply(s, t, e).lastMiss[key]
  {
    match e {
      case Tick(_) =>
      case Begin(_) =>
      case Step(_) =>
      case Register =>
      case Store =>
        if s.calls[t].pc.res.Ok? {
          PruneKeepsMisses(Put(Unregister(s, t), ThreadKey(s, t), s.calls[t].pc.res.found), key);
        }
      case Close =>
      case Miss(_) =>
    }
  }

  lemma MissStep(states: seq<State>, steps: seq<(nat, Event)>, n: nat, key: string)
    requires IsRun(states, steps) && n < |steps| && key in states[n].lastMiss && key in states[n + 1].lastMiss
    ensures states[n].lastMiss[key] <= states[n + 1].lastMiss[key]
  {
    RunsKeepInv(states, steps, n);
    LastMissOnlyGrows(states[n], steps[n].0, steps[n].1, key);
  }

  lemma {:induction false} Ascending(times: seq<int>, i: nat, j: nat)
    requires i <= j < |times| && forall n :: i <= n < j ==> times[n] <= times[n + 1]
    ensures times[i] <= times[j]
    decreases j - i
  {
    if i < j {
      Ascending(times, i, j - 1);
    }
  }

  lemma LastMissStaysRecent(states: seq<State>, steps: seq<(nat, Event)>, i: nat, j: nat, key: string)
    requires IsRun(states, steps) && i <= j < |states|
    requires forall k :: i <= k <= j ==> key in states[k].lastMiss
    ensures states[i].lastMiss[key] <= states[j].lastMiss[key]
  {
    var times := seq(|states|, n requires 0 <= n < |states| => if key in states[n].lastMiss then states[n].lastMiss[key] else 0);
    forall n | i <= n < j
      ensures times[n] <= times[n + 1]
    {
      assert key in states[n].lastMiss && key in states[n + 1].lastMiss;
      MissStep(states, steps, n, key);
    }
    Ascending(times, i, j);
  }

  /** Two rediscoveries for unknown names under one key are at least a minute
      apart, as long as its miss time is not pruned in between. */
  lemma MissesAreSpaced(states: seq<State>, steps: seq<(nat, Event)>, i: nat, j: nat, key: string)
    requires IsRun(states, steps) && i < j < |steps|
    requires MissRediscovers(states[i], steps[i].0, steps[i].1, key) && MissRediscovers(states[j], steps[j].0, steps[j].1, key)
    requires forall k :: i < k <= j ==> key in states[k].lastMiss
    ensures key in states[j + 1].lastMiss && states[j + 1].lastMiss[key] - states[i + 1].lastMiss[key] >= MISS_EVERY
  {
    LastMissStaysRecent(states, steps, i + 1, j, key);
  }
}
