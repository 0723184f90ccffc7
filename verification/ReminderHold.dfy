/** Deciding whether a reminder may go out, and the loops over the held set. */
module ReminderHold {
  import opened ReminderLedger
  import TaskNames
  import Sorting

  /** A pure reminder repeats an incident the agent already has. */
  predicate IsReminder(m: Message) {
    m.Incident? && m.repeatCount > 0
  }

  /** The task part of an incident id. */
  function TaskOfId(id: string): string {
    TaskNames.SplitId(id).0
  }

  function OfTask(held: HeldMap, task: string): set<string> {
    set id | id in held && TaskOfId(id) == task
  }

  // ----- What AX says of a task --------------------------------------------

  /** AX's answer to a read of the task's record. */
  datatype Report = NotFound | Unreadable | Found(phase: string, conditions: seq<(string, string)>)

  datatype TaskState = Awake | Asleep | Gone

  /** The reason of the first Ready condition is the actor's absence. */
  predicate ActorMissing(conditions: seq<(string, string)>) {
    conditions != [] &&
    if conditions[0].0 == "Ready" then conditions[0].1 == "ActorNotFound" else ActorMissing(conditions[1..])
  }

  predicate GoneIn(report: Report) {
    report.NotFound? || (report.Found? && report.phase == "Failed" && ActorMissing(report.conditions))
  }

  /** AX could not say how the task is. */
  predicate Silent(report: Report) {
    report.Unreadable? || (report.Found? && report.phase == "Unknown")
  }

  function Verdict(recent: bool, report: Report): TaskState {
    if GoneIn(report) then Gone
    else if Silent(report) then if recent then Awake else Asleep
    else if !recent || report.phase == "Suspended" then Asleep
    else Awake
  }

  /** A task counts as awake only after a recent real inject and when AX does
      not record it suspended; it counts as gone only on AX's word, never on its
      silence. */
  lemma VerdictIsSafe(recent: bool, report: Report)
    ensures Verdict(recent, report).Awake? ==> recent && !(report.Found? && report.phase == "Suspended")
    ensures recent && !GoneIn(report) && !(report.Found? && report.phase == "Suspended") ==> Verdict(recent, report).Awake?
    ensures Verdict(recent, report).Gone? <==> GoneIn(report)
    ensures Silent(report) ==> !Verdict(recent, report).Gone?
  {
  }

  // ----- Bounded tables ----------------------------------------------------

  /** m with k set to v. Nothing else is added or changed, and only a full table
      makes room, by forgetting one entry. */
  ghost predicate Put<V>(m: map<string, V>, k: string, v: V, max: nat, m': map<string, V>) {
    && k in m' && m'[k] == v
    && (forall x :: x in m' && x != k ==> x in m && m'[x] == m[x])
    && |m'| == if k in m || |m| >= max then |m| else |m| + 1
  }

  lemma PutKeys<V>(m: map<string, V>, k: string, v: V)
    ensures |m[k := v]| == |m| + (if k in m then 0 else 1)
  {
    assert m[k := v].Keys == m.Keys + {k};
    assert |m[k := v]| == |m[k := v].Keys| && |m| == |m.Keys|;
  }

  lemma RemoveKey<V>(m: map<string, V>, k: string)
    requires k in m
    ensures |m - {k}| == |m| - 1
  {
    assert (m - {k}).Keys == m.Keys - {k};
    assert |m - {k}| == |(m - {k}).Keys| && |m| == |m.Keys|;
  }

  /** Puts an entry in a table, forgetting any other one if it is full. */
  method PutBounded<V>(m: map<string, V>, k: string, v: V, max: nat) returns (m': map<string, V>)
    requires max > 0
    ensures Put(m, k, v, max, m')
  {
    m' := m;
    if k !in m && |m| >= max {
      assert m.Keys != {} by { assert |m.Keys| == |m|; }
      var out :| out in m.Keys;
      RemoveKey(m, out);
      m' := m - {out};
    }
    PutKeys(m', k, v);
    m' := m'[k := v];
  }

  /** With room, nothing is forgotten. */
  lemma PutWithRoom<V>(m: map<string, V>, k: string, v: V, max: nat, m': map<string, V>)
    requires Put(m, k, v, max, m') && (k in m || |m| < max)
    ensures m' == m[k := v]
  {
    var full := m[k := v];
    PutKeys(m, k, v);
    assert m'.Keys <= full.Keys && |m'.Keys| == |m'| && |full.Keys| == |full|;
    SameSize(m'.Keys, full.Keys);
  }

  lemma SameSize<T>(a: set<T>, b: set<T>)
    requires a <= b && |a| == |b|
    ensures a == b
  {
    assert b == a + (b - a);
  }

  // ----- Loops over the held set -------------------------------------------

  /** The ids in gone are out of the held set, and lost counts them. */
  ghost predicate Discarded(held: HeldMap, gone: set<string>, kept: HeldMap, lost: Posts) {
    gone <= held.Keys && kept == held - gone && Counts(lost, Only(held, gone), Dropped)
  }

  lemma DiscardedNone(held: HeldMap)
    ensures Discarded(held, {}, held, multiset{})
  {
    CountsNone(Dropped);
    assert Only(held, {}) == map[];
  }

  lemma DiscardOne(held: HeldMap, gone: set<string>, kept: HeldMap, lost: Posts, id: string)
    requires Discarded(held, gone, kept, lost) && id in held && id !in gone
    ensures Discarded(held, gone + {id}, kept - {id}, lost + multiset{(held[id].cluster, Dropped)})
  {
    CountsOneMore(lost, Only(held, gone), Dropped, id, held[id]);
    assert Only(held, gone + {id}) == Only(held, gone)[id := held[id]];
    assert kept - {id} == held - (gone + {id});
  }

  /** Discards every reminder of a task. */
  method DropTask(held: HeldMap, task: string) returns (kept: HeldMap, ghost lost: Posts)
    ensures kept == held - OfTask(held, task)
    ensures Counts(lost, Only(held, OfTask(held, task)), Dropped)
  {
    kept := held;
    lost := multiset{};
    ghost var gone: set<string> := {};
    DiscardedNone(held);
    var ids := held.Keys;
    while ids != {}
      invariant ids <= held.Keys && gone !! ids
      invariant forall k :: k in held && k !in ids ==> (k in gone <==> TaskOfId(k) == task)
      invariant Discarded(held, gone, kept, lost)
      decreases |ids|
    {
      var id :| id in ids;
      ids := ids - {id};
      if TaskOfId(id) == task {
        DiscardOne(held, gone, kept, lost, id);
        kept := kept - {id};
        lost := lost + multiset{(held[id].cluster, Dropped)};
        gone := gone + {id};
      }
    }
    assert gone == OfTask(held, task);
  }

  ghost function ExpiredIds(held: HeldMap, now: int): set<string> {
    set id | id in held && Expired(held[id], now)
  }

  /** Discards every expired reminder. */
  method DropExpired(held: HeldMap, now: int) returns (kept: HeldMap, ghost lost: Posts)
    ensures kept == held - ExpiredIds(held, now)
    ensures Counts(lost, Only(held, ExpiredIds(held, now)), Dropped)
  {
    kept := held;
    lost := multiset{};
    ghost var gone: set<string> := {};
    DiscardedNone(held);
    var ids := held.Keys;
    while ids != {}
      invariant ids <= held.Keys && gone !! ids
      invariant forall k :: k in held && k !in ids ==> (k in gone <==> Expired(held[k], now))
      invariant Discarded(held, gone, kept, lost)
      decreases |ids|
    {
      var id :| id in ids;
      ids := ids - {id};
      if Expired(held[id], now) {
        DiscardOne(held, gone, kept, lost, id);
        kept := kept - {id};
        lost := lost + multiset{(held[id].cluster, Dropped)};
        gone := gone + {id};
      }
    }
    assert gone == ExpiredIds(held, now);
  }

  /** An id whose reminder is the oldest. */
  method Oldest(held: HeldMap) returns (oldest: string)
    requires held != map[] && "" !in held
    ensures oldest in held && forall k :: k in held ==> held[oldest].at <= held[k].at
  {
    oldest := "";
    assert held.Keys != {};
    var ids := held.Keys;
    while ids != {}
      invariant ids <= held.Keys
      invariant if oldest == "" then ids == held.Keys && ids != {} else oldest in held
      invariant oldest != "" ==> forall k :: k in held && k !in ids ==> held[oldest].at <= held[k].at
      decreases |ids|
    {
      var id :| id in ids;
      ids := ids - {id};
      if oldest == "" || held[id].at < held[oldest].at {
        oldest := id;
      }
    }
  }

  /** Only the oldest are gone, and only down to the limit. */
  ghost predicate Trimming(held: HeldMap, gone: set<string>, kept: HeldMap) {
    && gone <= held.Keys && kept == held - gone
    && (gone != {} ==> |kept| >= MAX_HELD)
    && forall d, k :: d in gone && k in kept ==> held[d].at <= kept[k].at
  }

  lemma TrimOne(held: HeldMap, gone: set<string>, kept: HeldMap, oldest: string)
    requires Trimming(held, gone, kept) && |kept| > MAX_HELD
    requires oldest in kept && forall k :: k in kept ==> kept[oldest].at <= kept[k].at
    ensures Trimming(held, gone + {oldest}, kept - {oldest}) && |kept - {oldest}| == |kept| - 1
  {
    assert (kept - {oldest}).Keys == kept.Keys - {oldest};
    assert kept - {oldest} == held - (gone + {oldest});
  }

  /** Evicts the oldest reminders until the set is within its limit. */
  method Evict(held: HeldMap) returns (kept: HeldMap, ghost gone: set<string>, ghost lost: Posts)
    requires "" !in held
    ensures Trimming(held, gone, kept) && |kept| <= MAX_HELD
    ensures Counts(lost, Only(held, gone), Dropped)
  {
    kept := held;
    gone := {};
    lost := multiset{};
    DiscardedNone(held);
    while |kept| > MAX_HELD
      invariant Trimming(held, gone, kept)
      invariant Discarded(held, gone, kept, lost)
    {
      var oldest := Oldest(kept);
      TrimOne(held, gone, kept, oldest);
      DiscardOne(held, gone, kept, lost, oldest);
      kept := kept - {oldest};
      lost := lost + multiset{(held[oldest].cluster, Dropped)};
      gone := gone + {oldest};
    }
  }

  predicate Before(a: Due, b: Due) {
    a.reminder.at < b.reminder.at
  }

  /** batch lists the ids' reminders, each once. */
  ghost predicate Lists(held: HeldMap, ids: set<string>, batch: seq<Due>) {
    && (forall i :: 0 <= i < |batch| ==>
          batch[i].id in ids && batch[i].id in held && held[batch[i].id] == batch[i].reminder)
    && (forall id :: id in ids && id in held ==> Due(id, held[id]) in batch)
    && (forall i, j :: 0 <= i < j < |batch| ==> batch[i].id != batch[j].id)
  }

  /** Sorting a list of reminders keeps what it lists. */
  lemma SortedLists(held: HeldMap, ids: set<string>, batch: seq<Due>, sorted: seq<Due>)
    requires Lists(held, ids, batch) && multiset(sorted) == multiset(batch)
    ensures Lists(held, ids, sorted)
  {
    forall i | 0 <= i < |sorted|
      ensures sorted[i].id in ids && sorted[i].id in held && held[sorted[i].id] == sorted[i].reminder
    {
      assert sorted[i] in multiset(batch);
    }
    forall id | id in ids && id in held
      ensures Due(id, held[id]) in sorted
    {
      assert Due(id, held[id]) in multiset(batch);
    }
    forall i, j | 0 <= i < j < |sorted|
      ensures sorted[i].id != sorted[j].id
    {
      var x, y := sorted[i], sorted[j];
      assert y in multiset(batch) && x in multiset(batch);
      if x == y {
        Twice(sorted, i, j);
        var a, b := Sorting.TwoPlaces(batch, x);
      }
    }
  }

  lemma Twice<T>(xs: seq<T>, i: nat, j: nat)
    requires i < j < |xs| && xs[i] == xs[j]
    ensures multiset(xs)[xs[i]] >= 2
  {
    assert xs == xs[..j] + xs[j..];
    assert xs[i] in xs[..j] && xs[i] in xs[j..];
    assert xs[..j][i] == xs[i] && xs[j..][0] == xs[i];
    assert multiset(xs)[xs[i]] == multiset(xs[..j])[xs[i]] + multiset(xs[j..])[xs[i]];
  }

  ghost predicate Taken(held: HeldMap, gone: set<string>, kept: HeldMap, batch: seq<Due>) {
    gone <= held.Keys && kept == held - gone && Lists(held, gone, batch)
  }

  lemma TakeOne(held: HeldMap, ids: set<string>, kept: HeldMap, batch: seq<Due>, id: string)
    requires Taken(held, ids, kept, batch) && id in held && id !in ids
    ensures Taken(held, ids + {id}, kept - {id}, batch + [Due(id, held[id])])
  {
    assert kept - {id} == held - (ids + {id});
    var more := batch + [Due(id, held[id])];
    forall k | k in ids + {id} && k in held
      ensures Due(k, held[k]) in more
    {
      assert more[|batch|] == Due(id, held[id]);
      if k != id {
        assert Due(k, held[k]) in batch;
      }
    }
  }

  function Sort(batch: seq<Due>): seq<Due> {
    Sorting.SortStable(batch, Before)
  }

  lemma SortIsOldestFirst(held: HeldMap, ids: set<string>, batch: seq<Due>)
    requires Lists(held, ids, batch)
    ensures Lists(held, ids, Sort(batch)) && OldestFirst(Sort(batch))
  {
    Sorting.SortIsPermutation(batch, Before);
    Sorting.SortSorts(batch, Before);
    var sorted := Sort(batch);
    SortedLists(held, ids, batch, sorted);
    forall i, j | 0 <= i < j < |sorted|
      ensures sorted[i].reminder.at <= sorted[j].reminder.at
    {
      assert !Before(sorted[j], sorted[i]);
    }
  }

  /** Takes a task's reminders out, oldest first. */
  method TakeTask(held: HeldMap, task: string) returns (kept: HeldMap, batch: seq<Due>)
    ensures kept == held - OfTask(held, task)
    ensures Lists(held, OfTask(held, task), batch) && OldestFirst(batch)
  {
    kept := held;
    batch := [];
    ghost var gone: set<string> := {};
    var ids := held.Keys;
    while ids != {}
      invariant ids <= held.Keys && gone !! ids
      invariant forall k :: k in held && k !in ids ==> (k in gone <==> TaskOfId(k) == task)
      invariant Taken(held, gone, kept, batch)
      decreases |ids|
    {
      var id :| id in ids;
      ids := ids - {id};
      if TaskOfId(id) == task {
        TakeOne(held, gone, kept, batch, id);
        batch := batch + [Due(id, held[id])];
        kept := kept - {id};
        gone := gone + {id};
      }
    }
    assert gone == OfTask(held, task);
    SortIsOldestFirst(held, gone, batch);
    batch := Sort(batch);
  }

  /** What is listed in order is a batch, and its ids are those listed. */
  lemma ListsIsBatch(held: HeldMap, ids: set<string>, batch: seq<Due>)
    requires Lists(held, ids, batch) && OldestFirst(batch) && ids <= held.Keys
    ensures IsBatch(held, batch) && Ids(batch) == ids
  {
    forall id | id in ids
      ensures id in Ids(batch)
    {
      var i :| 0 <= i < |batch| && batch[i] == Due(id, held[id]);
      assert batch[i].id == id;
    }
  }

  // ----- Holding -----------------------------------------------------------

  lemma CountsTogether(a: Posts, b: Posts, held: HeldMap, s: set<string>, t: set<string>, outcome: Outcome)
    requires Counts(a, Only(held, s), outcome) && Counts(b, Only(held - s, t), outcome)
    ensures Counts(a + b, Only(held, s + t), outcome)
  {
    forall c
      ensures HeldIn(Only(held, s + t), c) == HeldIn(Only(held, s), c) + HeldIn(Only(held - s, t), c)
    {
      RemoveMany(Only(held, s + t), s, c);
      assert Only(Only(held, s + t), s) == Only(held, s);
      assert Only(held, s + t) - s == Only(held - s, t);
    }
  }

  lemma RemoveBoth(held: HeldMap, s: set<string>, t: set<string>)
    ensures held - s - t == held - (s + t)
  {
  }

  lemma TrimmingEvicts(full: HeldMap, stale: set<string>, gone: set<string>, kept: HeldMap, d: string)
    requires Trimming(full - stale, gone, kept) && |kept| <= MAX_HELD && d in gone
    ensures d in full && Evicted(full, kept, d)
  {
  }

  /** The held set after an expiry and an eviction is what holding allows. */
  lemma DropsMakeHold(h: HeldMap, id: string, r: Reminder, stale: set<string>, gone: set<string>, h': HeldMap)
    requires stale == ExpiredIds(h[id := r], r.at)
    requires Trimming(h[id := r] - stale, gone, h') && |h'| <= MAX_HELD
    ensures HoldSection(h, id, r, stale + gone, h')
  {
    var full := h[id := r];
    RemoveBoth(full, stale, gone);
    forall d | d in stale + gone && !Expired(full[d], r.at)
      ensures Evicted(full, h', d)
    {
      TrimmingEvicts(full, stale, gone, h', d);
    }
  }

  /** Holds a reminder: replaces the id's, drops what has expired, and evicts
      past the limit. */
  method HoldOne(held: HeldMap, id: string, r: Reminder)
    returns (kept: HeldMap, ghost dropped: set<string>, ghost superseded: Posts, ghost lost: Posts)
    requires "" !in held && id != ""
    ensures HoldSection(held, id, r, dropped, kept)
    ensures |kept| <= MAX_HELD && forall k :: k in kept ==> k in held[id := r] && kept[k] == held[id := r][k] && !Expired(kept[k], r.at)
    ensures HoldPosts(held, id, r, dropped, superseded, lost)
  {
    superseded := multiset{};
    CountsNone(Superseded);
    assert Only(map[], {id}) == map[];
    if id in held {
      superseded := multiset{(held[id].cluster, Superseded)};
      CountsOneMore(multiset{}, map[], Superseded, id, held[id]);
      assert Only(held, {id}) == map[][id := held[id]];
    } else {
      assert Only(held, {id}) == map[];
    }
    var full := held[id := r];
    var current, stale := DropExpired(full, r.at);
    var kept', gone, evicted := Evict(current);
    kept := kept';
    ghost var outdated := ExpiredIds(full, r.at);
    dropped := outdated + gone;
    lost := stale + evicted;
    DropsMakeHold(held, id, r, outdated, gone, kept);
    CountsTogether(stale, evicted, full, outdated, gone, Dropped);
  }
}
