/** Held reminders and the counters that account for them.

    A reminder for an idle task is held, at most one for each incident id. The
    holder's lock is released before the outcome counters are posted, and
    between taking a task's reminders and delivering them, so the books
    balance only once every thread has caught up. The threads are followed in
    every interleaving of their lock sections, posts and deliveries. */
module ReminderLedger {
  import opened Basics

  datatype Outcome = Held | Superseded | Delivered | Direct | Dropped

  /** What the sink delivers: an incident payload, or anything else. */
  datatype Message = Incident(cluster: string, repeatCount: int, body: string) | Other(body: string)

  datatype Reminder = Reminder(payload: Message, cluster: string, at: int)

  /** The latest reminder held for each incident id. */
  type HeldMap = map<string, Reminder>

  /** Counts for a cluster, as posted. */
  type Posts = multiset<(string, Outcome)>

  const MAX_HELD: nat := 4096

  /** Three hours, in nanoseconds. */
  const HELD_TTL: int := 10_800_000_000_000

  predicate Expired(r: Reminder, now: int) {
    now - r.at >= HELD_TTL
  }

  // ----- Counting ----------------------------------------------------------

  ghost function IdsIn(held: HeldMap, cluster: string): set<string> {
    set id | id in held && held[id].cluster == cluster
  }

  ghost function HeldIn(held: HeldMap, cluster: string): nat {
    |IdsIn(held, cluster)|
  }

  function Tally(posts: Posts, cluster: string, outcome: Outcome): int {
    posts[(cluster, outcome)]
  }

  /** Reminders held so far less those that left. */
  function Balance(posts: Posts, cluster: string): int {
    Tally(posts, cluster, Held) - Tally(posts, cluster, Superseded) -
    Tally(posts, cluster, Delivered) - Tally(posts, cluster, Dropped)
  }

  /** What one more count does to a cluster's balance. */
  function Worth(post: (string, Outcome), cluster: string): int {
    if post.0 != cluster || post.1 == Direct then 0 else if post.1 == Held then 1 else -1
  }

  lemma BalanceAdds(a: Posts, b: Posts, cluster: string)
    ensures Balance(a + b, cluster) == Balance(a, cluster) + Balance(b, cluster)
  {
  }

  lemma BalanceOfOne(posts: Posts, post: (string, Outcome), cluster: string)
    ensures Balance(posts + multiset{post}, cluster) == Balance(posts, cluster) + Worth(post, cluster)
  {
    match post.1
    case Held =>
    case Superseded =>
    case Delivered =>
    case Direct =>
    case Dropped =>
  }

  /** Taking one reminder out. */
  lemma RemoveOne(held: HeldMap, id: string, cluster: string)
    requires id in held
    ensures HeldIn(held, cluster) == HeldIn(held - {id}, cluster) + (if held[id].cluster == cluster then 1 else 0)
  {
    if held[id].cluster == cluster {
      assert IdsIn(held, cluster) == IdsIn(held - {id}, cluster) + {id};
    } else {
      assert IdsIn(held, cluster) == IdsIn(held - {id}, cluster);
    }
  }

  /** Taking a set of reminders out splits the count. */
  lemma RemoveMany(held: HeldMap, ids: set<string>, cluster: string)
    ensures HeldIn(held, cluster) == HeldIn(held - ids, cluster) + HeldIn(Only(held, ids), cluster)
  {
    assert IdsIn(held, cluster) == IdsIn(held - ids, cluster) + IdsIn(Only(held, ids), cluster);
    assert IdsIn(held - ids, cluster) !! IdsIn(Only(held, ids), cluster);
  }

  function Only(held: HeldMap, ids: set<string>): HeldMap {
    map id | id in held && id in ids :: held[id]
  }

  /** Holding a reminder for an id that has none, or in place of another. */
  lemma AddOne(held: HeldMap, id: string, r: Reminder, cluster: string)
    ensures HeldIn(held[id := r], cluster) == HeldIn(held - {id}, cluster) + (if r.cluster == cluster then 1 else 0)
  {
    assert held[id := r] - {id} == held - {id};
    RemoveOne(held[id := r], id, cluster);
  }

  // ----- Lock sections -----------------------------------------------------

  /** posts counts every reminder in gone once, as outcome, and nothing else. */
  ghost predicate Counts(posts: Posts, gone: HeldMap, outcome: Outcome) {
    && (forall c :: posts[(c, outcome)] == HeldIn(gone, c))
    && (forall c, o :: o != outcome ==> posts[(c, o)] == 0)
  }

  lemma CountsBalance(posts: Posts, gone: HeldMap, outcome: Outcome, cluster: string)
    requires Counts(posts, gone, outcome) && outcome != Held && outcome != Direct
    ensures Balance(posts, cluster) == 0 - HeldIn(gone, cluster) as int
  {
    match outcome
    case Superseded =>
    case Delivered =>
    case Dropped =>
  }

  /** The empty books. */
  lemma CountsNone(outcome: Outcome)
    ensures Counts(multiset{}, map[], outcome)
  {
    forall c
      ensures HeldIn(map[], c) == 0
    {
      assert IdsIn(map[], c) == {};
    }
  }

  /** One more reminder gone, one more count. */
  lemma CountsOneMore(posts: Posts, gone: HeldMap, outcome: Outcome, id: string, r: Reminder)
    requires Counts(posts, gone, outcome) && id !in gone
    ensures Counts(posts + multiset{(r.cluster, outcome)}, gone[id := r], outcome)
  {
    forall c
      ensures HeldIn(gone[id := r], c) == HeldIn(gone, c) + (if r.cluster == c then 1 else 0)
    {
      assert gone - {id} == gone;
      AddOne(gone, id, r, c);
    }
  }

  /** What holding a reminder does to the held set, dropped being the ids it
      discards: everything expired goes, and beyond that only as many of the
      oldest as the limit demands. */
  ghost predicate HoldSection(h: HeldMap, id: string, r: Reminder, dropped: set<string>, h': HeldMap) {
    var full := h[id := r];
    && dropped <= full.Keys
    && h' == full - dropped
    && |h'| <= MAX_HELD
    && (forall k :: k in full && Expired(full[k], r.at) ==> k in dropped)
    && (forall d :: d in dropped && !Expired(full[d], r.at) ==> Evicted(full, h', d))
  }

  /** d went because the set was full, and nothing older was kept. */
  ghost predicate Evicted(full: HeldMap, kept: HeldMap, d: string)
    requires d in full
  {
    |kept| == MAX_HELD && forall k :: k in kept ==> full[d].at <= kept[k].at
  }

  /** What a hold posts, with superseded the counts of the reminder it replaces
      and lost those of the reminders it drops. */
  ghost predicate HoldPosts(h: HeldMap, id: string, r: Reminder, dropped: set<string>, superseded: Posts, lost: Posts) {
    && Counts(superseded, Only(h, {id}), Superseded)
    && Counts(lost, Only(h[id := r], dropped), Dropped)
  }

  /** A hold leaves the held set and its own posts in balance. */
  lemma HoldBalances(h: HeldMap, id: string, r: Reminder, dropped: set<string>, h': HeldMap,
                     superseded: Posts, lost: Posts, cluster: string)
    requires HoldSection(h, id, r, dropped, h') && HoldPosts(h, id, r, dropped, superseded, lost)
    ensures HeldIn(h', cluster) ==
            HeldIn(h, cluster) + Balance(multiset{(r.cluster, Held)} + superseded + lost, cluster)
  {
    var full, one := h[id := r], multiset{(r.cluster, Held)};
    AddOne(h, id, r, cluster);
    RemoveMany(h, {id}, cluster);
    RemoveMany(full, dropped, cluster);
    CountsBalance(superseded, Only(h, {id}), Superseded, cluster);
    CountsBalance(lost, Only(full, dropped), Dropped, cluster);
    BalanceOfOne(multiset{}, (r.cluster, Held), cluster);
    BalanceAdds(one, superseded, cluster);
    BalanceAdds(one + superseded, lost, cluster);
  }

  /** Discarding ids, counted as outcome, leaves a balance too. */
  lemma DiscardBalances(h: HeldMap, ids: set<string>, outcome: Outcome, posts: Posts, cluster: string)
    requires Counts(posts, Only(h, ids), outcome) && outcome != Held && outcome != Direct
    ensures HeldIn(h - ids, cluster) == HeldIn(h, cluster) + Balance(posts, cluster)
  {
    RemoveMany(h, ids, cluster);
    CountsBalance(posts, Only(h, ids), outcome, cluster);
  }

  // ----- Threads -----------------------------------------------------------

  datatype Due = Due(id: string, reminder: Reminder)

  /** A thread between lock sections: counts not yet posted, and reminders
      taken out but not yet delivered, oldest first. */
  datatype Local = Local(posts: Posts, batch: seq<Due>)

  datatype State = State(held: HeldMap, posted: Posts, threads: seq<Local>)

  datatype Event =
    | Hold(id: string, r: Reminder, dropped: set<string>, superseded: Posts, lost: Posts)
    | Discard(ids: set<string>, outcome: Outcome, posts: Posts)
    | Take(batch: seq<Due>)
    | Deliver(ok: bool)
    | Send(cluster: string)
    | Post(post: (string, Outcome))

  /** batch lists exactly the reminders taken, each once, oldest first. */
  ghost predicate IsBatch(h: HeldMap, batch: seq<Due>) {
    && (forall i :: 0 <= i < |batch| ==> batch[i].id in h && h[batch[i].id] == batch[i].reminder)
    && (forall i, j :: 0 <= i < j < |batch| ==> batch[i].id != batch[j].id)
    && OldestFirst(batch)
  }

  ghost predicate OldestFirst(batch: seq<Due>) {
    forall i, j :: 0 <= i < j < |batch| ==> batch[i].reminder.at <= batch[j].reminder.at
  }

  ghost function Ids(batch: seq<Due>): set<string> {
    set i | 0 <= i < |batch| :: batch[i].id
  }

  function BatchCount(batch: seq<Due>, cluster: string): nat {
    if batch == [] then 0
    else BatchCount(batch[1..], cluster) + (if batch[0].reminder.cluster == cluster then 1 else 0)
  }

  /** A batch holds as many of a cluster's reminders as leave the held set. */
  lemma {:induction false} TakeBalances(h: HeldMap, batch: seq<Due>, cluster: string)
    requires IsBatch(h, batch)
    ensures HeldIn(h, cluster) == HeldIn(h - Ids(batch), cluster) + BatchCount(batch, cluster)
  {
    if batch == [] {
      assert h - Ids(batch) == h;
    } else {
      var id := batch[0].id;
      RemoveOne(h, id, cluster);
      assert forall i :: 0 <= i < |batch| - 1 ==> batch[1..][i] == batch[i + 1];
      TakeBalances(h - {id}, batch[1..], cluster);
      assert Ids(batch) == {id} + Ids(batch[1..]);
      assert h - {id} - Ids(batch[1..]) == h - Ids(batch);
    }
  }

  // ----- Steps -------------------------------------------------------------

  const Idle := Local(multiset{}, [])

  ghost predicate Enabled(s: State, t: nat, e: Event) {
    && t < |s.threads|
    && match e
       case Hold(id, r, dropped, superseded, lost) =>
         && s.threads[t] == Idle
         && HoldSection(s.held, id, r, dropped, s.held[id := r] - dropped)
         && HoldPosts(s.held, id, r, dropped, superseded, lost)
       case Discard(ids, outcome, posts) =>
         && s.threads[t] == Idle
         && (outcome == Dropped || outcome == Superseded)
         && Counts(posts, Only(s.held, ids), outcome)
       case Take(batch) =>
         s.threads[t] == Idle && IsBatch(s.held, batch)
       case Deliver(ok) =>
         s.threads[t].batch != [] && s.threads[t].posts == multiset{}
       case Send(cluster) =>
         s.threads[t] == Idle
       case Post(post) =>
         post in s.threads[t].posts
  }

  ghost function Apply(s: State, t: nat, e: Event): State
    requires Enabled(s, t, e)
  {
    match e
    case Hold(id, r, dropped, superseded, lost) =>
      State(s.held[id := r] - dropped, s.posted,
            s.threads[t := Local(multiset{(r.cluster, Held)} + superseded + lost, [])])
    case Discard(ids, outcome, posts) =>
      State(s.held - ids, s.posted, s.threads[t := Local(posts, [])])
    case Take(batch) =>
      State(s.held - Ids(batch), s.posted, s.threads[t := Local(multiset{}, batch)])
    case Deliver(ok) =>
      var l := s.threads[t];
      var post := (l.batch[0].reminder.cluster, if ok then Delivered else Dropped);
      s.(threads := s.threads[t := Local(multiset{post}, l.batch[1..])])
    case Send(cluster) =>
      s.(threads := s.threads[t := Local(multiset{(cluster, Direct)}, [])])
    case Post(post) =>
      var l := s.threads[t];
      State(s.held, s.posted + multiset{post}, s.threads[t := l.(posts := l.posts - multiset{post})])
  }

  // ----- The invariant -----------------------------------------------------

  /** What a thread will still do to a cluster's balance. */
  function Outstanding(l: Local, cluster: string): int {
    Balance(l.posts, cluster) - BatchCount(l.batch, cluster)
  }

  function AllOutstanding(threads: seq<Local>, cluster: string): int {
    if threads == [] then 0
    else AllOutstanding(threads[..|threads| - 1], cluster) + Outstanding(threads[|threads| - 1], cluster)
  }

  lemma {:induction false} OutstandingUpdate(threads: seq<Local>, t: nat, l: Local, cluster: string)
    requires t < |threads|
    ensures AllOutstanding(threads[t := l], cluster) ==
            AllOutstanding(threads, cluster) - Outstanding(threads[t], cluster) + Outstanding(l, cluster)
  {
    var n := |threads| - 1;
    if t == n {
      assert threads[t := l][..n] == threads[..n];
    } else {
      OutstandingUpdate(threads[..n], t, l, cluster);
      assert threads[t := l][..n] == threads[..n][t := l];
    }
  }

  ghost predicate Balanced(s: State, cluster: string) {
    Balance(s.posted, cluster) + AllOutstanding(s.threads, cluster) == HeldIn(s.held, cluster)
  }

  ghost predicate Inv(s: State) {
    |s.held| <= MAX_HELD && forall c :: Balanced(s, c)
  }

  /** A step that does to the balance what it does to the held set. */
  lemma StepBalances(s: State, t: nat, held: HeldMap, posted: Posts, l: Local, cluster: string)
    requires t < |s.threads| && Balanced(s, cluster)
    requires HeldIn(held, cluster) - HeldIn(s.held, cluster) ==
             Outstanding(l, cluster) - Outstanding(s.threads[t], cluster) + Balance(posted, cluster) - Balance(s.posted, cluster)
    ensures Balanced(State(held, posted, s.threads[t := l]), cluster)
  {
    OutstandingUpdate(s.threads, t, l, cluster);
  }

  lemma ApplyBalances(s: State, t: nat, e: Event, cluster: string)
    requires Enabled(s, t, e) && Balanced(s, cluster)
    ensures Balanced(Apply(s, t, e), cluster)
  {
    var s', l := Apply(s, t, e), s.threads[t];
    match e {
      case Hold(id, r, dropped, superseded, lost) =>
        HoldBalances(s.held, id, r, dropped, s'.held, superseded, lost, cluster);
      case Discard(ids, outcome, posts) =>
        DiscardBalances(s.held, ids, outcome, posts, cluster);
      case Take(batch) =>
        TakeBalances(s.held, batch, cluster);
      case Deliver(ok) =>
        var post := (l.batch[0].reminder.cluster, if ok then Delivered else Dropped);
        BalanceOfOne(multiset{}, post, cluster);
        assert multiset{} + multiset{post} == multiset{post};
      case Send(c) =>
        BalanceOfOne(multiset{}, (c, Direct), cluster);
        assert multiset{} + multiset{(c, Direct)} == multiset{(c, Direct)};
      case Post(post) =>
        BalanceOfOne(s.posted, post, cluster);
        BalanceOfOne(l.posts - multiset{post}, post, cluster);
        assert l.posts - multiset{post} + multiset{post} == l.posts;
    }
    StepBalances(s, t, s'.held, s'.posted, s'.threads[t], cluster);
  }

  lemma FewerHeld(h: HeldMap, ids: set<string>)
    ensures |h - ids| <= |h|
  {
    assert (h - ids).Keys <= h.Keys;
    SubsetIsSmaller((h - ids).Keys, h.Keys);
    assert |h.Keys| == |h| && |(h - ids).Keys| == |h - ids|;
  }

  /** Every step keeps the books and the bound. */
  lemma InvStep(s: State, t: nat, e: Event)
    requires Inv(s) && Enabled(s, t, e)
    ensures Inv(Apply(s, t, e))
  {
    forall c
      ensures Balanced(Apply(s, t, e), c)
    {
      ApplyBalances(s, t, e, c);
    }
    match e
    case Hold(id, r, dropped, superseded, lost) =>
    case Discard(ids, outcome, posts) => FewerHeld(s.held, ids);
    case Take(batch) => FewerHeld(s.held, Ids(batch));
    case Deliver(ok) =>
    case Send(cluster) =>
    case Post(post) =>
  }

  // ----- Runs --------------------------------------------------------------

  ghost predicate Initial(s: State) {
    s.held == map[] && s.posted == multiset{} && forall t :: 0 <= t < |s.threads| ==> s.threads[t] == Idle
  }

  ghost predicate IsRun(states: seq<State>, steps: seq<(nat, Event)>) {
    && |states| == |steps| + 1 && Initial(states[0])
    && forall i :: 0 <= i < |steps| ==>
         && Enabled(states[i], steps[i].0, steps[i].1)
         && states[i + 1] == Apply(states[i], steps[i].0, steps[i].1)
  }

  lemma {:induction false} IdleOutstanding(threads: seq<Local>, cluster: string)
    requires forall t :: 0 <= t < |threads| ==> threads[t] == Idle
    ensures AllOutstanding(threads, cluster) == 0
  {
    if threads != [] {
      IdleOutstanding(threads[..|threads| - 1], cluster);
    }
  }

  lemma InitialInv(s: State)
    requires Initial(s)
    ensures Inv(s)
  {
    forall c
      ensures Balanced(s, c)
    {
      IdleOutstanding(s.threads, c);
      assert IdsIn(s.held, c) == {};
    }
  }

  lemma {:induction false} RunsKeepInv(states: seq<State>, steps: seq<(nat, Event)>, n: nat)
    requires IsRun(states, steps) && n < |states|
    ensures Inv(states[n])
  {
    if n == 0 {
      InitialInv(states[0]);
    } else {
      RunsKeepInv(states, steps, n - 1);
      InvStep(states[n - 1], steps[n - 1].0, steps[n - 1].1);
    }
  }

  /** In any run, once no thread has anything left to post or deliver, every
      reminder a cluster ever held was superseded, delivered or dropped exactly
      once, or is still held. */
  lemma Conservation(states: seq<State>, steps: seq<(nat, Event)>, n: nat, cluster: string)
    requires IsRun(states, steps) && n < |states|
    requires forall t :: 0 <= t < |states[n].threads| ==> states[n].threads[t] == Idle
    ensures var p := states[n].posted;
            p[(cluster, Held)] ==
            p[(cluster, Superseded)] + p[(cluster, Delivered)] + p[(cluster, Dropped)] + HeldIn(states[n].held, cluster)
  {
    RunsKeepInv(states, steps, n);
    assert Balanced(states[n], cluster);
    IdleOutstanding(states[n].threads, cluster);
  }

  /** At every lock release the held set is within its bound. */
  lemma HeldIsBounded(states: seq<State>, steps: seq<(nat, Event)>, n: nat)
    requires IsRun(states, steps) && n < |states|
    ensures |states[n].held| <= MAX_HELD
  {
    RunsKeepInv(states, steps, n);
  }

  /** The reminder just offered is held afterwards, unless the set is full of
      reminders no older. */
  lemma OfferedIsHeld(h: HeldMap, id: string, r: Reminder, dropped: set<string>, h': HeldMap)
    requires HoldSection(h, id, r, dropped, h')
    ensures (id in h' && h'[id] == r) || (|h'| == MAX_HELD && forall k :: k in h' ==> h'[k].at >= r.at)
  {
    if id in dropped {
      assert Evicted(h[id := r], h', id);
    }
  }

  predicate Offers(e: Event, id: string) {
    e.Hold? && e.id == id
  }

  /** Only an offer puts a reminder in the held set, or changes the one there. */
  ghost predicate OnlyOffers(h: HeldMap, e: Event, h': HeldMap) {
    forall id :: id in h' ==> if Offers(e, id) then h'[id] == e.r else id in h && h'[id] == h[id]
  }

  lemma StepOnlyOffers(s: State, t: nat, e: Event)
    requires Enabled(s, t, e)
    ensures OnlyOffers(s.held, e, Apply(s, t, e).held)
  {
    match e
    case Hold(_, _, _, _, _) =>
    case Discard(_, _, _) =>
    case Take(_) =>
    case Deliver(_) =>
    case Send(_) =>
    case Post(_) =>
  }

  /** The offer at step j is the last one for id before state n. */
  ghost predicate LastOffer(steps: seq<(nat, Event)>, j: nat, n: nat, id: string) {
    j < n <= |steps| && Offers(steps[j].1, id) && forall k :: j < k < n ==> !Offers(steps[k].1, id)
  }

  lemma {:induction false} LatestOffered(helds: seq<HeldMap>, steps: seq<(nat, Event)>, n: nat, id: string)
    requires |helds| == |steps| + 1 && helds[0] == map[] && n < |helds| && id in helds[n]
    requires forall i :: 0 <= i < |steps| ==> OnlyOffers(helds[i], steps[i].1, helds[i + 1])
    ensures exists j: nat :: LastOffer(steps, j, n, id) && steps[j].1.r == helds[n][id]
  {
    assert n > 0;
    assert OnlyOffers(helds[n - 1], steps[n - 1].1, helds[n]);
    if Offers(steps[n - 1].1, id) {
      assert LastOffer(steps, n - 1, n, id);
    } else {
      LatestOffered(helds, steps, n - 1, id);
      var j: nat :| LastOffer(steps, j, n - 1, id) && steps[j].1.r == helds[n - 1][id];
      assert LastOffer(steps, j, n, id);
    }
  }

  /** At every lock release of every run, what is held for an id is the latest
      reminder that was offered for it. */
  lemma LatestIsHeld(states: seq<State>, steps: seq<(nat, Event)>, n: nat, id: string)
    requires IsRun(states, steps) && n < |states| && id in states[n].held
    ensures exists j: nat :: LastOffer(steps, j, n, id) && steps[j].1.r == states[n].held[id]
  {
    var helds := seq(|states|, i requires 0 <= i < |states| => states[i].held);
    forall i | 0 <= i < |steps|
      ensures OnlyOffers(helds[i], steps[i].1, helds[i + 1])
    {
      StepOnlyOffers(states[i], steps[i].0, steps[i].1);
    }
    LatestOffered(helds, steps, n, id);
  }
}
