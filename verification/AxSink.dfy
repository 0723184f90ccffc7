/** The sink that runs each incident in its own task.

    Every remote call may answer anything, and time may pass at every reading
    of the clock. The ghost fields record what the agents confirmed: real
    injects, held reminders delivered ahead of one, and reminders sent at
    once. */
module AxSink {
  import opened Basics
  import opened ReminderLedger
  import opened ReminderHold
  import TaskNames

  const MAX_REMEMBERED: nat := 4096

  /** How a delivery ended: confirmed, refused because the session or its task
      is gone (404 or 410), or anything else. */
  datatype Answer = Ok | NoSession | Failed

  /** A real inject an agent confirmed, and how many held reminders had been
      delivered before it. */
  datatype Injected = Injected(task: string, sid: string, payload: Message, behind: nat)

  /** A reminder sent at once, the real inject it relied on, when that was
      decided, and whether the agent confirmed it. */
  datatype Sent = Sent(id: string, wasOwed: bool, since: int, at: int, confirmed: bool)

  predicate IsTask(name: string) {
    name != "" && '/' !in name
  }

  // ----- Views -------------------------------------------------------------

  /** The part of the sink that decides when reminders go out. */
  datatype View = View(clock: int, lastReal: map<string, int>, owed: set<string>, sends: seq<Sent>)

  /** The task got a real inject within the idle window. */
  predicate Recent(lastReal: map<string, int>, task: string, now: int, idleAfter: int) {
    task in lastReal && now - lastReal[task] < idleAfter
  }

  /** Nothing is newly recorded as awake, task aside. */
  ghost predicate NoneWoken(before: map<string, int>, after: map<string, int>, task: string) {
    forall t :: t in after && t != task ==> t in before && after[t] == before[t]
  }

  /** Nothing is newly owed, task aside. */
  ghost predicate NoneOwed(before: set<string>, after: set<string>, task: string) {
    forall id :: id in after && TaskOfId(id) != task ==> id in before
  }

  /** A real inject, open or create on task, whatever came of it. */
  ghost predicate RealStep(v: View, v': View, task: string) {
    && v.clock <= v'.clock && v'.sends == v.sends
    && NoneWoken(v.lastReal, v'.lastReal, task) && NoneOwed(v.owed, v'.owed, task)
  }

  /** A reminder for id, whatever came of it: nothing is newly awake or owed, and
      there is at most one send, for an owed id or within the idle window. */
  ghost predicate ReminderStep(v: View, v': View, id: string, idleAfter: int) {
    Calm(v, v') && (v'.sends == v.sends || OneSent(v, v', id, idleAfter))
  }

  ghost predicate Calm(v: View, v': View) {
    && v.clock <= v'.clock && v'.owed <= v.owed
    && Shrunk(v.lastReal, v'.lastReal)
  }

  ghost predicate Shrunk(before: map<string, int>, after: map<string, int>) {
    forall t :: t in after ==> t in before && after[t] == before[t]
  }

  ghost predicate OneSent(v: View, v': View, id: string, idleAfter: int) {
    && v'.sends != [] && v'.sends[..|v'.sends| - 1] == v.sends
    && Allowed(v, v', v'.sends[|v'.sends| - 1], id, idleAfter)
  }

  /** The send relied on what was owed or on a recent real inject, and a
      confirmed one settles what was owed. */
  ghost predicate Allowed(v: View, v': View, s: Sent, id: string, idleAfter: int) {
    && s.id == id && v.clock <= s.at <= v'.clock
    && (s.confirmed ==> id !in v'.owed)
    && (s.wasOwed ==> id in v.owed)
    && (!s.wasOwed ==> Recent(v.lastReal, TaskOfId(id), s.at, idleAfter) && v.lastReal[TaskOfId(id)] == s.since)
  }

  // ----- Reminders never keep a task awake ---------------------------------

  function Confirmed(sends: seq<Sent>, id: string): nat {
    if sends == [] then 0
    else Confirmed(sends[..|sends| - 1], id) +
         (if sends[|sends| - 1].id == id && sends[|sends| - 1].confirmed then 1 else 0)
  }

  function Owes(v: View, id: string): nat {
    if id in v.owed then 1 else 0
  }

  ghost predicate Idle(v: View, task: string, idleAfter: int) {
    !Recent(v.lastReal, task, v.clock, idleAfter)
  }

  /** A reminder for any id, on an idle task, spends what is owed. */
  lemma ReminderSpends(v: View, v': View, id: string, x: string, idleAfter: int)
    requires ReminderStep(v, v', id, idleAfter) && Idle(v, TaskOfId(x), idleAfter)
    ensures Idle(v', TaskOfId(x), idleAfter)
    ensures Confirmed(v'.sends, x) + Owes(v', x) <= Confirmed(v.sends, x) + Owes(v, x)
  {
  }

  datatype Move = Reminding(id: string) | Injecting(task: string)

  /** A run of reminders for anything and real injects elsewhere. */
  ghost predicate IsQuietRun(views: seq<View>, moves: seq<Move>, x: string, idleAfter: int) {
    && |views| == |moves| + 1
    && forall i :: 0 <= i < |moves| ==>
         match moves[i]
         case Reminding(id) => ReminderStep(views[i], views[i + 1], id, idleAfter)
         case Injecting(task) => task != TaskOfId(x) && RealStep(views[i], views[i + 1], task)
  }

  lemma {:induction false} QuietRunSpends(views: seq<View>, moves: seq<Move>, x: string, idleAfter: int, n: nat)
    requires IsQuietRun(views, moves, x, idleAfter) && Idle(views[0], TaskOfId(x), idleAfter) && n < |views|
    ensures Idle(views[n], TaskOfId(x), idleAfter)
    ensures Confirmed(views[n].sends, x) + Owes(views[n], x) <= Confirmed(views[0].sends, x) + Owes(views[0], x)
  {
    if n > 0 {
      QuietRunSpends(views, moves, x, idleAfter, n - 1);
      match moves[n - 1]
      case Reminding(id) => ReminderSpends(views[n - 1], views[n], id, x, idleAfter);
      case Injecting(task) =>
    }
  }

  /** Once its idle window has passed, a task that gets only reminders confirms
      at most one of them for each id, and none for an id that was not owed. */
  lemma RemindersDoNotKeepAwake(views: seq<View>, moves: seq<Move>, x: string, idleAfter: int)
    requires IsQuietRun(views, moves, x, idleAfter) && Idle(views[0], TaskOfId(x), idleAfter)
    ensures var sent := Confirmed(views[|moves|].sends, x) - Confirmed(views[0].sends, x);
            sent <= 1 && (x !in views[0].owed ==> sent <= 0)
  {
    QuietRunSpends(views, moves, x, idleAfter, |moves|);
  }

  ghost predicate JustifiedBy(s: Sent, noted: set<(string, int)>, idleAfter: int) {
    s.wasOwed || ((TaskOfId(s.id), s.since) in noted && s.at - s.since < idleAfter)
  }

  ghost predicate AllJustified(sends: seq<Sent>, noted: set<(string, int)>, idleAfter: int) {
    forall i :: 0 <= i < |sends| ==> JustifiedBy(sends[i], noted, idleAfter)
  }

  lemma JustifyOne(sends: seq<Sent>, noted: set<(string, int)>, idleAfter: int, s: Sent)
    requires AllJustified(sends, noted, idleAfter) && JustifiedBy(s, noted, idleAfter)
    ensures AllJustified(sends + [s], noted, idleAfter)
  {
  }

  /** Sending at once, with the wake relied on still on record beforehand. */
  lemma SendIsStep(v: View, v': View, s: Sent, idleAfter: int)
    requires Calm(v, v') && v'.sends == v.sends + [s] && Allowed(v, v', s, s.id, idleAfter)
    ensures ReminderStep(v, v', s.id, idleAfter)
  {
    assert v'.sends[..|v'.sends| - 1] == v.sends;
  }

  // ----- The books ---------------------------------------------------------

  /** The counters account for every reminder held. */
  ghost predicate Account(held: HeldMap, posted: Posts) {
    && |held| <= MAX_HELD
    && "" !in held
    && forall c :: Balance(posted, c) == HeldIn(held, c)
  }

  lemma AccountDiscard(held: HeldMap, posted: Posts, ids: set<string>, outcome: Outcome, posts: Posts)
    requires Account(held, posted) && Counts(posts, Only(held, ids), outcome) && outcome != Held && outcome != Direct
    ensures Account(held - ids, posted + posts)
  {
    FewerHeld(held, ids);
    forall c
      ensures Balance(posted + posts, c) == HeldIn(held - ids, c)
    {
      DiscardBalances(held, ids, outcome, posts, c);
      BalanceAdds(posted, posts, c);
    }
  }

  lemma AccountHold(held: HeldMap, posted: Posts, id: string, r: Reminder, dropped: set<string>, held': HeldMap,
                    superseded: Posts, lost: Posts)
    requires Account(held, posted) && id != ""
    requires HoldSection(held, id, r, dropped, held') && HoldPosts(held, id, r, dropped, superseded, lost)
    ensures Account(held', posted + (multiset{(r.cluster, Held)} + superseded + lost))
  {
    var counts := multiset{(r.cluster, Held)} + superseded + lost;
    forall c
      ensures Balance(posted + counts, c) == HeldIn(held', c)
    {
      HoldBalances(held, id, r, dropped, held', superseded, lost, c);
      BalanceAdds(posted, counts, c);
    }
  }

  /** The reminder was held as the id's latest. */
  ghost predicate WasHeld(h: HeldMap, id: string, payload: Message, now: int, h': HeldMap)
    requires payload.Incident?
  {
    exists dropped :: HoldSection(h, id, Reminder(payload, payload.cluster, now), dropped, h')
  }

  /** A reminder sent at once was never held. */
  lemma AccountDirect(held: HeldMap, posted: Posts, cluster: string)
    requires Account(held, posted)
    ensures Account(held, posted + multiset{(cluster, Direct)})
  {
    forall c
      ensures Balance(posted + multiset{(cluster, Direct)}, c) == HeldIn(held, c)
    {
      BalanceOfOne(posted, (cluster, Direct), c);
    }
  }

  lemma NothingToDrop(held: HeldMap, task: string)
    requires OfTask(held, task) == {}
    ensures held - OfTask(held, task) == held
  {
  }

  lemma ForgetCounts(held: HeldMap, id: string)
    ensures Counts(Forgotten(held, id), Only(held, {id}), Superseded)
  {
    CountsNone(Superseded);
    if id in held {
      CountsOneMore(multiset{}, map[], Superseded, id, held[id]);
      assert Only(held, {id}) == map[][id := held[id]];
      assert multiset{} + Forgotten(held, id) == Forgotten(held, id);
    } else {
      assert Only(held, {id}) == map[];
    }
  }

  /** The count for a held reminder that a newer one replaces. */
  function Forgotten(held: HeldMap, id: string): Posts {
    if id in held then multiset{(held[id].cluster, Superseded)} else multiset{}
  }

  // ----- Flushing ----------------------------------------------------------

  /** A held reminder taken out for delivery, and whether that was confirmed. */
  datatype Try = Try(due: Due, ok: bool)

  function Keep(t: Try): seq<Due> {
    if t.ok then [t.due] else []
  }

  function Count(t: Try): (string, Outcome) {
    (t.due.reminder.cluster, if t.ok then Delivered else Dropped)
  }

  /** The reminders confirmed, in the order tried. */
  function Confirmations(tries: seq<Try>): seq<Due> {
    if tries == [] then [] else Confirmations(tries[..|tries| - 1]) + Keep(tries[|tries| - 1])
  }

  /** The counts the tries are settled with. */
  function Counted(tries: seq<Try>): Posts {
    if tries == [] then multiset{} else Counted(tries[..|tries| - 1]) + multiset{Count(tries[|tries| - 1])}
  }

  lemma OneMoreTry(tries: seq<Try>, t: Try)
    ensures Confirmations(tries + [t]) == Confirmations(tries) + Keep(t)
    ensures Counted(tries + [t]) == Counted(tries) + multiset{Count(t)}
  {
    assert (tries + [t])[..|tries|] == tries;
  }

  /** The whole batch was tried, in order. */
  ghost predicate Tried(batch: seq<Due>, tries: seq<Try>) {
    |tries| == |batch| && forall i :: 0 <= i < |batch| ==> tries[i].due == batch[i]
  }

  lemma {:induction false} ConfirmedWasTried(tries: seq<Try>, d: Due)
    requires d in Confirmations(tries)
    ensures exists i :: 0 <= i < |tries| && tries[i] == Try(d, true)
  {
    var n := |tries| - 1;
    if d in Keep(tries[n]) {
      assert tries[n] == Try(d, true);
    } else {
      ConfirmedWasTried(tries[..n], d);
      var i :| 0 <= i < n && tries[..n][i] == Try(d, true);
      assert tries[i] == Try(d, true);
    }
  }

  /** The whole batch was tried, in order, and nothing expired was delivered. */
  ghost predicate Attempted(batch: seq<Due>, tries: seq<Try>, now: int) {
    Tried(batch, tries) && forall i :: 0 <= i < |tries| ==> tries[i].ok ==> !Expired(tries[i].due.reminder, now)
  }

  lemma AttemptOne(batch: seq<Due>, i: nat, tries: seq<Try>, now: int, t: Try)
    requires i < |batch| && Attempted(batch[..i], tries, now)
    requires t.due == batch[i] && (t.ok ==> !Expired(t.due.reminder, now))
    ensures Attempted(batch[..i + 1], tries + [t], now)
  {
  }

  /** The tries were recorded and counted, and nothing else. */
  ghost predicate Recorded(flushed: seq<Due>, posted: Posts, tries: seq<Try>, flushed': seq<Due>, posted': Posts) {
    flushed' == flushed + Confirmations(tries) && posted' == posted + Counted(tries)
  }

  lemma RecordOne(flushed: seq<Due>, posted: Posts, tries: seq<Try>, flushed': seq<Due>, posted': Posts, t: Try)
    requires Recorded(flushed, posted, tries, flushed', posted')
    ensures Recorded(flushed, posted, tries + [t], flushed' + Keep(t), posted' + multiset{Count(t)})
  {
    OneMoreTry(tries, t);
  }

  /** Oldest first, each id once. */
  ghost predicate InOrder(batch: seq<Due>) {
    OldestFirst(batch) && forall i, j :: 0 <= i < j < |batch| ==> batch[i].id != batch[j].id
  }

  /** Held reminders reach the agent oldest first, each at most once. */
  lemma {:induction false} FlushedInOrder(batch: seq<Due>, tries: seq<Try>)
    requires InOrder(batch) && Tried(batch, tries)
    ensures InOrder(Confirmations(tries))
  {
    if tries != [] {
      var n := |tries| - 1;
      FlushedInOrder(batch[..n], tries[..n]);
      var init := Confirmations(tries[..n]);
      forall i | 0 <= i < |init|
        ensures init[i].reminder.at <= batch[n].reminder.at && init[i].id != batch[n].id
      {
        ConfirmedWasTried(tries[..n], init[i]);
      }
    }
  }

  function Dues(tries: seq<Try>): seq<Due> {
    seq(|tries|, i requires 0 <= i < |tries| => tries[i].due)
  }

  /** Exactly the reminders held for the task were tried, oldest first; none of
      them is held any more, and those confirmed went out after all earlier ones. */
  ghost predicate Drained(h: HeldMap, flushed: seq<Due>, task: string, tries: seq<Try>, h': HeldMap, flushed': seq<Due>) {
    && Lists(h, OfTask(h, task), Dues(tries)) && OldestFirst(Dues(tries))
    && h' == h - OfTask(h, task) && flushed' == flushed + Confirmations(tries)
  }

  lemma FlushDrains(h: HeldMap, flushed: seq<Due>, task: string, batch: seq<Due>, tries: seq<Try>)
    requires Lists(h, OfTask(h, task), batch) && OldestFirst(batch) && Tried(batch, tries)
    ensures Drained(h, flushed, task, tries, h - OfTask(h, task), flushed + Confirmations(tries))
  {
    assert Dues(tries) == batch;
  }

  /** Or nothing happened. */
  ghost predicate DrainedOrNot(h: HeldMap, flushed: seq<Due>, task: string, tries: seq<Try>, h': HeldMap, flushed': seq<Due>) {
    Drained(h, flushed, task, tries, h', flushed') || (tries == [] && h' == h && flushed' == flushed)
  }

  /** There is nothing left for a second flush to try. */
  lemma DrainedOnce(h: HeldMap, f: seq<Due>, task: string, tries: seq<Try>, h1: HeldMap, f1: seq<Due>,
                    again: seq<Try>, h2: HeldMap, f2: seq<Due>)
    requires DrainedOrNot(h, f, task, tries, h1, f1) && Drained(h1, f1, task, again, h2, f2)
    ensures Drained(h, f, task, tries + again, h2, f2)
  {
    if tries == [] && h1 == h && f1 == f {
      assert tries + again == again;
    } else {
      assert OfTask(h1, task) == {};
      NothingToTry(h1, again);
      assert tries + again == tries && h2 == h1;
    }
  }

  lemma NothingToTry(h: HeldMap, tries: seq<Try>)
    ensures Lists(h, {}, Dues(tries)) ==> tries == []
  {
    if tries != [] {
      assert Dues(tries)[0] == tries[0].due;
    }
  }

  /** The books while a batch is out. */
  ghost predicate Settling(held: HeldMap, posted: Posts, rest: seq<Due>) {
    && |held| <= MAX_HELD
    && "" !in held
    && forall c :: Balance(posted, c) == HeldIn(held, c) + BatchCount(rest, c)
  }

  lemma StartSettling(held: HeldMap, posted: Posts, ids: set<string>, batch: seq<Due>)
    requires Account(held, posted) && Lists(held, ids, batch) && OldestFirst(batch) && ids <= held.Keys
    ensures Settling(held - ids, posted, batch)
  {
    FewerHeld(held, ids);
    ListsIsBatch(held, ids, batch);
    forall c
      ensures Balance(posted, c) == HeldIn(held - ids, c) + BatchCount(batch, c)
    {
      TakeBalances(held, batch, c);
    }
  }

  lemma SettleOne(held: HeldMap, posted: Posts, rest: seq<Due>, t: Try)
    requires Settling(held, posted, rest) && rest != [] && t.due == rest[0]
    ensures Settling(held, posted + multiset{Count(t)}, rest[1..])
  {
    var post := Count(t);
    forall c
      ensures Balance(posted + multiset{post}, c) == HeldIn(held, c) + BatchCount(rest[1..], c)
    {
      BalanceOfOne(posted, post, c);
    }
  }

  // ----- The sink ----------------------------------------------------------

  class Sink {
    /** Where a key's sessions run, and the key's text. */
    const taskOf: TaskNames.IncidentKey -> string
    const textOf: TaskNames.IncidentKey -> string
    const idleAfter: int

    var clock: int
    var lastReal: map<string, int>
    var held: HeldMap
    var owed: set<string>
    var remembered: map<string, string>

    ghost var posted: Posts
    ghost var injected: seq<Injected>
    ghost var flushed: seq<Due>
    ghost var sends: seq<Sent>
    ghost var noted: set<(string, int)>

    ghost function Look(): View
      reads this
    {
      View(clock, lastReal, owed, sends)
    }

    ghost predicate Named() {
      forall key :: IsTask(taskOf(key))
    }

    /** The counters account for every reminder. */
    ghost predicate Books()
      reads this`held, this`posted
    {
      Account(held, posted)
    }

    ghost predicate Tables()
      reads this`owed, this`remembered
    {
      |owed| <= MAX_REMEMBERED && |remembered| <= MAX_REMEMBERED
    }

    /** Every wake on record was a real inject. */
    ghost predicate Wakes()
      reads this`lastReal, this`noted, this`clock
    {
      && |lastReal| <= MAX_REMEMBERED
      && forall t :: t in lastReal ==> (t, lastReal[t]) in noted && lastReal[t] <= clock
    }

    /** Every reminder sent at once was owed, or followed a real inject by less
        than the idle window. */
    ghost predicate Justified()
      reads this`sends, this`noted
    {
      AllJustified(sends, noted, idleAfter)
    }

    ghost predicate Valid()
      reads this
    {
      Named() && Books() && Tables() && Wakes() && Justified()
    }

    constructor (scope: TaskNames.Scope, lower: char -> char, hash: string -> seq<TaskNames.Byte>, idleAfter: int)
      requires TaskNames.IsHash(hash)
      ensures Valid()
      ensures forall key :: taskOf(key) == TaskNames.TaskFor(scope, key, lower, hash)
      ensures forall key :: textOf(key) == TaskNames.KeyText(key)
      ensures held == map[] && owed == {} && lastReal == map[] && remembered == map[]
    {
      taskOf := key => TaskNames.TaskFor(scope, key, lower, hash);
      textOf := TaskNames.KeyText;
      this.idleAfter := idleAfter;
      lastReal, held, owed, remembered := map[], map[], {}, map[];
      posted, injected, flushed, sends, noted := multiset{}, [], [], [], {};
      new;
      forall key
        ensures IsTask(taskOf(key))
      {
        TaskNames.TaskNameIsLabel(scope, key, lower, hash);
        TaskNames.LabelHasNoSlash(taskOf(key));
      }
      forall c
        ensures HeldIn(held, c) == 0
      {
        assert IdsIn(held, c) == {};
      }
    }

    /** Any time may have passed. */
    method Now() returns (now: int)
      requires Wakes()
      modifies this`clock
      ensures now == clock >= old(clock) && Wakes()
    {
      now :| now >= clock;
      clock := now;
    }

    method IsTaskKnownAwake(task: string) returns (awake: bool)
      requires Wakes()
      modifies this`clock
      ensures clock >= old(clock) && Wakes()
      ensures awake <==> Recent(lastReal, task, clock, idleAfter)
    {
      var now := Now();
      awake := task in lastReal && now - lastReal[task] < idleAfter;
    }

    method ClearAwake(task: string)
      requires Wakes()
      modifies this`lastReal
      ensures Wakes() && lastReal == old(lastReal) - {task}
    {
      assert |lastReal - {task}| <= |lastReal| by {
        if task in lastReal {
          RemoveKey(lastReal, task);
        } else {
          assert lastReal - {task} == lastReal;
        }
      }
      lastReal := lastReal - {task};
    }

    /** Records a real inject: the task is awake from now. */
    method NoteReal(task: string)
      requires Wakes() && Justified()
      modifies this`lastReal, this`noted, this`clock
      ensures Wakes() && Justified() && clock >= old(clock)
      ensures noted == old(noted) + {(task, clock)}
      ensures Put(old(lastReal), task, clock, MAX_REMEMBERED, lastReal)
    {
      var now := Now();
      lastReal := PutBounded(lastReal, task, now, MAX_REMEMBERED);
      noted := noted + {(task, now)};
    }

    /** Records that the id's last real inject failed. */
    method Owe(id: string)
      requires Tables()
      modifies this`owed
      ensures Tables() && id in owed && owed <= old(owed) + {id}
      ensures |owed| == if id in old(owed) || |old(owed)| >= MAX_REMEMBERED then |old(owed)| else |old(owed)| + 1
    {
      if id !in owed && |owed| >= MAX_REMEMBERED {
        var out :| out in owed;
        owed := owed - {out};
      }
      if id in owed {
        assert owed + {id} == owed;
      }
      owed := owed + {id};
    }

    /** What the rest of the sink needs of Owe: at most this id is newly owed. */
    method MarkOwed(id: string)
      requires Tables()
      modifies this`owed
      ensures Tables() && id in owed && owed <= old(owed) + {id}
    {
      Owe(id);
    }

    /** What the rest of the sink needs of NoteReal: at most this task is newly
        awake. */
    method MarkAwake(task: string)
      requires Wakes() && Justified()
      modifies this`lastReal, this`noted, this`clock
      ensures Wakes() && Justified() && clock >= old(clock) && NoneWoken(old(lastReal), lastReal, task)
      ensures task in lastReal && lastReal[task] == clock
    {
      NoteReal(task);
    }

    method Paid(id: string)
      requires Tables()
      modifies this`owed
      ensures Tables() && owed == old(owed) - {id}
    {
      SubsetIsSmaller(owed - {id}, owed);
      owed := owed - {id};
    }

    /** Remembers the session a key lives in, whatever the store says. */
    method Remember(key: TaskNames.IncidentKey, id: string)
      requires Tables()
      modifies this`remembered
      ensures Tables() && Put(old(remembered), textOf(key), id, MAX_REMEMBERED, remembered)
    {
      remembered := PutBounded(remembered, textOf(key), id, MAX_REMEMBERED);
    }

    /** From memory, else from the cluster's store. */
    method Recall(key: TaskNames.IncidentKey) returns (id: string, known: bool)
      ensures textOf(key) in remembered ==> known && id == remembered[textOf(key)]
    {
      var k := textOf(key);
      if k in remembered {
        id, known := remembered[k], true;
      } else {
        id, known := *, *;
      }
    }

    // ----- Reminders -------------------------------------------------------

    /** Drops every reminder held for a task that is gone. */
    method DropHeldIn(task: string) returns (ghost lost: Posts)
      requires Books()
      modifies this`held, this`posted
      ensures Books() && held == old(held) - OfTask(old(held), task)
      ensures posted == old(posted) + lost && Counts(lost, Only(old(held), OfTask(old(held), task)), Dropped)
    {
      var kept, gone := DropTask(held, task);
      AccountDiscard(held, posted, OfTask(held, task), Dropped, gone);
      held, posted, lost := kept, posted + gone, gone;
    }

    /** Holds a reminder as the id's latest. */
    method HoldReminder(id: string, cluster: string, payload: Message)
      returns (ghost dropped: set<string>, ghost superseded: Posts, ghost lost: Posts)
      requires Books() && Wakes() && id != ""
      modifies this`held, this`posted, this`clock
      ensures Books() && Wakes() && clock >= old(clock)
      ensures var r := Reminder(payload, cluster, clock);
              && HoldSection(old(held), id, r, dropped, held)
              && HoldPosts(old(held), id, r, dropped, superseded, lost)
              && posted == old(posted) + (multiset{(cluster, Held)} + superseded + lost)
    {
      var now := Now();
      var r := Reminder(payload, cluster, now);
      var kept;
      kept, dropped, superseded, lost := HoldOne(held, id, r);
      AccountHold(held, posted, id, r, dropped, kept, superseded, lost);
      held, posted := kept, posted + (multiset{(cluster, Held)} + superseded + lost);
    }

    /** Drops the id's held reminder: a newer one is going straight through. */
    method ForgetHeld(id: string)
      requires Books()
      modifies this`held, this`posted
      ensures Books() && held == old(held) - {id}
      ensures posted == old(posted) + Forgotten(old(held), id)
    {
      ForgetCounts(held, id);
      AccountDiscard(held, posted, {id}, Superseded, Forgotten(held, id));
      posted := posted + Forgotten(held, id);
      held := held - {id};
    }

    /** Delivers a task's held reminders, oldest first. A failure only drops the
        reminder. */
    method FlushHeld(task: string) returns (ghost batch: seq<Due>, ghost tries: seq<Try>)
      requires Books() && Wakes()
      modifies this`held, this`posted, this`flushed, this`clock
      ensures Books() && Wakes() && clock >= old(clock)
      ensures held == old(held) - OfTask(old(held), task)
      ensures Lists(old(held), OfTask(old(held), task), batch) && OldestFirst(batch)
      ensures Attempted(batch, tries, clock)
      ensures Recorded(old(flushed), old(posted), tries, flushed, posted)
    {
      var now := Now();
      var kept, due := TakeTask(held, task);
      StartSettling(held, posted, OfTask(held, task), due);
      held := kept;
      batch := due;
      tries := DeliverBatch(due);
    }

    /** Delivers what was taken out, dropping what has expired meanwhile. */
    method DeliverBatch(batch: seq<Due>) returns (ghost tries: seq<Try>)
      requires Settling(held, posted, batch)
      modifies this`posted, this`flushed
      ensures Books() && Attempted(batch, tries, clock)
      ensures Recorded(old(flushed), old(posted), tries, flushed, posted)
    {
      tries := [];
      for i := 0 to |batch|
        invariant Settling(held, posted, batch[i..])
        invariant Attempted(batch[..i], tries, clock)
        invariant Recorded(old(flushed), old(posted), tries, flushed, posted)
      {
        ghost var flushed0, posted0 := flushed, posted;
        ghost var t := DeliverOne(batch[i..]);
        assert batch[i..][1..] == batch[i + 1..];
        RecordOne(old(flushed), old(posted), tries, flushed0, posted0, t);
        AttemptOne(batch, i, tries, clock, t);
        tries := tries + [t];
      }
      assert batch[..|batch|] == batch;
    }

    /** Delivers or drops the first of what is out. */
    method DeliverOne(rest: seq<Due>) returns (ghost t: Try)
      requires rest != [] && Settling(held, posted, rest)
      modifies this`posted, this`flushed
      ensures Settling(held, posted, rest[1..]) && t.due == rest[0] && (t.ok ==> !Expired(rest[0].reminder, clock))
      ensures posted == old(posted) + multiset{Count(t)} && flushed == old(flushed) + Keep(t)
    {
      var ok := false;
      if !Expired(rest[0].reminder, clock) {
        var answer := Send();
        ok := answer.Ok?;
      }
      t := Try(rest[0], ok);
      SettleOne(held, posted, rest, t);
      posted, flushed := posted + multiset{Count(t)}, flushed + Keep(t);
    }

    /** One request to an agent; it may answer anything. */
    method Send() returns (answer: Answer)
    {
      answer := *;
    }

    /** AX's record of a task, which may be anything. */
    method GetTask() returns (report: Report)
    {
      report := *;
    }

    /** What a reminder finds its task to be. */
    method StateOf(task: string) returns (state: TaskState, ghost report: Report)
      requires Wakes()
      modifies this`clock
      ensures Wakes() && clock >= old(clock)
      ensures state == Verdict(Recent(lastReal, task, clock, idleAfter), report)
    {
      var now := Now();
      var recent := task in lastReal && now - lastReal[task] < idleAfter;
      var answer := GetTask();
      report := answer;
      state := Verdict(recent, answer);
    }

    /** Asks AX about a delivery that failed: if the task is gone, so are its
        reminders and its wake, and the answer says so. */
    method ConfirmGone(task: string, answer: Answer) returns (r: Answer)
      requires Books() && Wakes()
      modifies this`held, this`posted, this`lastReal
      ensures Books() && Wakes()
      ensures r == answer ==> held == old(held) && posted == old(posted) && lastReal == old(lastReal)
      ensures r != answer ==> answer == Failed && r == NoSession
      ensures r != answer ==> held == old(held) - OfTask(old(held), task) && lastReal == old(lastReal) - {task}
    {
      r := answer;
      if answer.Failed? {
        var report := GetTask();
        if GoneIn(report) {
          ghost var lost := DropHeldIn(task);
          ClearAwake(task);
          r := NoSession;
        }
      }
    }

    /** A payload into a session of a task. */
    method Inject(task: string, sid: string, payload: Message) returns (answer: Answer)
      modifies this`injected
      ensures injected == old(injected) + (if answer.Ok? then [Injected(task, sid, payload, |flushed|)] else [])
    {
      answer := Send();
      if answer.Ok? {
        injected := injected + [Injected(task, sid, payload, |flushed|)];
      }
    }

    /** A new session of a task with a payload in it: no session is an error. */
    method OpenSession(task: string, payload: Message) returns (sid: string, answer: Answer)
      modifies this`injected
      ensures sid == "" ==> !answer.Ok?
      ensures injected == old(injected) + (if answer.Ok? then [Injected(task, sid, payload, |flushed|)] else [])
    {
      sid := CreateSession();
      if sid == "" {
        answer := Failed;
      } else {
        answer := Inject(task, sid, payload);
      }
    }

    /** A new session, or none. */
    method CreateSession() returns (sid: string)
    {
      sid := *;
    }

    /** Creates, resumes and waits for a task. */
    method StartTask() returns (started: bool)
    {
      started := *;
    }

    /** A real payload into a session of a task whose held reminders are out of
        the way, asking about a failure if confirm says so. */
    method Deliver(task: string, sid: string, payload: Message, confirm: bool) returns (err: Answer)
      requires Books() && Wakes() && OfTask(held, task) == {}
      modifies this`injected, this`held, this`posted, this`lastReal
      ensures Books() && Wakes() && OfTask(held, task) == {}
      ensures NoneWoken(old(lastReal), lastReal, task) && held == old(held)
      ensures injected == old(injected) + (if err.Ok? then [Injected(task, sid, payload, |flushed|)] else [])
    {
      err := Inject(task, sid, payload);
      if confirm {
        NothingToDrop(held, task);
        err := ConfirmGone(task, err);
      }
    }

    // ----- Opening ---------------------------------------------------------

    /** The payload reached one session of the key's task, once, behind every held
        reminder delivered so far; the key lives there, nothing is owed and
        nothing held, and the task is awake. */
    ghost predicate Opened(key: TaskNames.IncidentKey, payload: Message, id: string, before: seq<Injected>)
      reads this
    {
      var task := taskOf(key);
      && TaskNames.SplitId(id).0 == task && TaskNames.SplitId(id).2
      && injected == before + [Injected(task, TaskNames.SplitId(id).1, payload, |flushed|)]
      && textOf(key) in remembered && remembered[textOf(key)] == id
      && id !in owed
      && OfTask(held, task) == {}
      && task in lastReal && lastReal[task] == clock
    }

    /** Nothing was confirmed, and a session that was reached is owed. */
    ghost predicate NotOpened(key: TaskNames.IncidentKey, id: string, before: seq<Injected>)
      reads this
    {
      injected == before && (id != "" ==> id in owed && TaskOfId(id) == taskOf(key))
    }

    ghost predicate OpenResult(key: TaskNames.IncidentKey, payload: Message, id: string, err: Answer, before: seq<Injected>)
      reads this
    {
      if err.Ok? then Opened(key, payload, id, before) else NotOpened(key, id, before)
    }

    /** Books a real inject: owed if it failed, else paid and a wake. */
    method Charge(id: string, task: string, ok: bool)
      requires Valid() && TaskOfId(id) == task
      modifies this`owed, this`lastReal, this`noted, this`clock
      ensures Valid() && RealStep(old(Look()), Look(), task)
      ensures if ok then id !in owed && task in lastReal && lastReal[task] == clock else id in owed
    {
      if !ok {
        MarkOwed(id);
      } else {
        Paid(id);
        MarkAwake(task);
      }
    }

    /** Books a real inject into the session a key now lives in. */
    method Bind(key: TaskNames.IncidentKey, id: string, ok: bool)
      requires Valid() && TaskOfId(id) == taskOf(key)
      modifies this`remembered, this`owed, this`lastReal, this`noted, this`clock
      ensures Valid() && RealStep(old(Look()), Look(), taskOf(key))
      ensures textOf(key) in remembered && remembered[textOf(key)] == id
      ensures if ok then id !in owed && taskOf(key) in lastReal && lastReal[taskOf(key)] == clock else id in owed
    {
      Remember(key, id);
      Charge(id, taskOf(key), ok);
    }

    /** The payload into the session the key was last opened in. */
    method Reopen(key: TaskNames.IncidentKey, id: string, payload: Message, confirm: bool) returns (err: Answer)
      requires Valid() && TaskNames.SplitId(id).2 && TaskOfId(id) == taskOf(key) && OfTask(held, taskOf(key)) == {}
      modifies this`held, this`posted, this`injected, this`remembered, this`owed, this`lastReal, this`noted, this`clock
      ensures Valid() && RealStep(old(Look()), Look(), taskOf(key)) && held == old(held)
      ensures !err.NoSession? ==> OpenResult(key, payload, id, err, old(injected))
      ensures err.NoSession? ==> injected == old(injected)
    {
      var task := taskOf(key);
      err := Deliver(task, TaskNames.SplitId(id).1, payload, confirm);
      if err.Ok? {
        Bind(key, id, true);
      } else if err.Failed? {
        Charge(id, task, false);
      }
    }

    /** The payload into a new session. */
    method OpenNew(key: TaskNames.IncidentKey, payload: Message) returns (id: string, err: Answer)
      requires Valid() && OfTask(held, taskOf(key)) == {}
      modifies this`injected, this`remembered, this`owed, this`lastReal, this`noted, this`clock
      ensures Valid() && RealStep(old(Look()), Look(), taskOf(key))
      ensures OpenResult(key, payload, id, err, old(injected))
    {
      var task := taskOf(key);
      var sid;
      sid, err := OpenSession(task, payload);
      if sid == "" {
        return "", err;
      }
      id := task + "/" + sid;
      TaskNames.SplitRecovers(task, sid);
      Bind(key, id, err.Ok?);
    }

    /** Delivers what is held, which leaves the task's part of the held set
        empty and wakes nothing. */
    method Flush(task: string) returns (ghost tries: seq<Try>)
      requires Valid()
      modifies this`held, this`posted, this`flushed, this`clock
      ensures Valid() && clock >= old(clock) && OfTask(held, task) == {}
      ensures Drained(old(held), old(flushed), task, tries, held, flushed)
    {
      ghost var batch;
      batch, tries := FlushHeld(task);
      FlushDrains(old(held), old(flushed), task, batch, tries);
    }

    /** Without starting the task, which is known to be awake. */
    method OpenAwake(key: TaskNames.IncidentKey, payload: Message, recalled: string, known: bool)
      returns (done: bool, gone: bool, id: string, err: Answer, ghost tries: seq<Try>)
      requires Valid()
      modifies this
      ensures Valid() && RealStep(old(Look()), Look(), taskOf(key))
      ensures done ==> OpenResult(key, payload, id, err, old(injected))
      ensures !done ==> injected == old(injected)
      ensures gone ==> known && !done
      ensures Drained(old(held), old(flushed), taskOf(key), tries, held, flushed)
    {
      tries := Flush(taskOf(key));
      gone := false;
      if !known {
        done, id, err := OpenNewAwake(key, payload);
      } else if TaskNames.SplitId(recalled).2 && TaskOfId(recalled) == taskOf(key) {
        id := recalled;
        done, err := ReopenAwake(key, recalled, payload);
        gone := !done;
      } else {
        done, id, err := false, "", Failed;
      }
    }

    method OpenNewAwake(key: TaskNames.IncidentKey, payload: Message) returns (done: bool, id: string, err: Answer)
      requires Valid() && OfTask(held, taskOf(key)) == {}
      modifies this`injected, this`remembered, this`owed, this`lastReal, this`noted, this`clock
      ensures Valid() && RealStep(old(Look()), Look(), taskOf(key))
      ensures if done then OpenResult(key, payload, id, err, old(injected)) else injected == old(injected)
    {
      id, err := OpenNew(key, payload);
      done := id != "";
      if !done {
        ClearAwake(taskOf(key));
      }
    }

    method ReopenAwake(key: TaskNames.IncidentKey, id: string, payload: Message) returns (done: bool, err: Answer)
      requires Valid() && TaskNames.SplitId(id).2 && TaskOfId(id) == taskOf(key) && OfTask(held, taskOf(key)) == {}
      modifies this`held, this`posted, this`injected, this`remembered, this`owed, this`lastReal, this`noted, this`clock
      ensures Valid() && RealStep(old(Look()), Look(), taskOf(key)) && held == old(held)
      ensures if done then OpenResult(key, payload, id, err, old(injected)) else injected == old(injected)
    {
      err := Reopen(key, id, payload, true);
      done := !err.NoSession?;
      if !done {
        ClearAwake(taskOf(key));
      }
    }

    /** Opens an incident: in the session it was last opened in if that still
        answers, else in a new one, either way behind the reminders held for its
        task. Where no task was reached, nothing was flushed. */
    method OpenIncidentKeyed(key: TaskNames.IncidentKey, payload: Message)
      returns (id: string, err: Answer, ghost tries: seq<Try>)
      requires Valid()
      modifies this
      ensures Valid() && RealStep(old(Look()), Look(), taskOf(key))
      ensures OpenResult(key, payload, id, err, old(injected))
      ensures DrainedOrNot(old(held), old(flushed), taskOf(key), tries, held, flushed)
      ensures err.Ok? || id != "" ==> Drained(old(held), old(flushed), taskOf(key), tries, held, flushed)
    {
      tries := [];
      var task := taskOf(key);
      var recalled, known := Recall(key);
      var gone := false;
      var awake := IsTaskKnownAwake(task);
      if awake {
        var done;
        done, gone, id, err, tries := OpenAwake(key, payload, recalled, known);
        if done {
          return;
        }
      }
      var started := StartTask();
      if !started {
        return "", Failed, tries;
      }
      ghost var h, f, again := held, flushed, [];
      id, err, again := OpenStarted(key, payload, recalled, known && !gone);
      DrainedOnce(old(held), old(flushed), task, tries, h, f, again, held, flushed);
      tries := tries + again;
    }

    /** In a task that was just started. */
    method OpenStarted(key: TaskNames.IncidentKey, payload: Message, recalled: string, usable: bool)
      returns (id: string, err: Answer, ghost tries: seq<Try>)
      requires Valid()
      modifies this
      ensures Valid() && RealStep(old(Look()), Look(), taskOf(key))
      ensures OpenResult(key, payload, id, err, old(injected))
      ensures Drained(old(held), old(flushed), taskOf(key), tries, held, flushed)
    {
      tries := Flush(taskOf(key));
      if usable && TaskNames.SplitId(recalled).2 && TaskOfId(recalled) == taskOf(key) {
        err := Reopen(key, recalled, payload, false);
        if !err.NoSession? {
          return recalled, err, tries;
        }
      }
      id, err := OpenNew(key, payload);
    }

    /** An empty session in a task, behind its held reminders. */
    method CreateIn(task: string) returns (id: string, ok: bool, ghost tries: seq<Try>)
      requires Valid() && IsTask(task)
      modifies this`held, this`posted, this`flushed, this`lastReal, this`noted, this`clock
      ensures Valid() && RealStep(old(Look()), Look(), task)
      ensures if ok then Created(task, id) else id == ""
      ensures Drained(old(held), old(flushed), task, tries, held, flushed)
    {
      tries := Flush(task);
      var sid := CreateSession();
      if sid == "" {
        return "", false, tries;
      }
      MarkAwake(task);
      TaskNames.SplitRecovers(task, sid);
      return task + "/" + sid, true, tries;
    }

    /** The id is a session of the task, which is awake and has nothing held. */
    ghost predicate Created(task: string, id: string)
      reads this
    {
      && TaskNames.SplitId(id).2 && TaskOfId(id) == task
      && OfTask(held, task) == {} && task in lastReal && lastReal[task] == clock
    }

    /** Opens an empty session in the key's task, always a new one, behind the
        reminders held for the task. */
    method CreateSessionKeyed(key: TaskNames.IncidentKey) returns (id: string, ok: bool, ghost tries: seq<Try>)
      requires Valid()
      modifies this`held, this`posted, this`flushed, this`lastReal, this`noted, this`clock
      ensures Valid() && RealStep(old(Look()), Look(), taskOf(key))
      ensures if ok then Created(taskOf(key), id) else id == ""
      ensures DrainedOrNot(old(held), old(flushed), taskOf(key), tries, held, flushed)
      ensures ok ==> Drained(old(held), old(flushed), taskOf(key), tries, held, flushed)
    {
      tries := [];
      var task := taskOf(key);
      var awake := IsTaskKnownAwake(task);
      if awake {
        id, ok, tries := CreateIn(task);
        if ok {
          return;
        }
        ClearAwake(task);
      }
      var started := StartTask();
      if !started {
        return "", false, tries;
      }
      ghost var h, f, again := held, flushed, [];
      id, ok, again := CreateIn(task);
      DrainedOnce(old(held), old(flushed), task, tries, h, f, again, held, flushed);
      tries := tries + again;
    }

    // ----- Appending -------------------------------------------------------

    /** Delivers a payload to an incident's session. A pure reminder for an idle
        task is held instead. */
    method Append(id: string, payload: Message) returns (err: Answer, ghost tries: seq<Try>)
      requires Valid()
      modifies this
      ensures Valid()
      ensures !TaskNames.SplitId(id).2 ==> err.Failed? && held == old(held) && owed == old(owed) && Look() == old(Look())
      ensures TaskNames.SplitId(id).2 && IsReminder(payload) ==>
                && ReminderStep(old(Look()), Look(), id, idleAfter)
                && injected == old(injected) && noted == old(noted) && flushed == old(flushed)
                && remembered == old(remembered)
      ensures TaskNames.SplitId(id).2 && !IsReminder(payload) ==>
                && RealStep(old(Look()), Look(), TaskOfId(id)) && OfTask(held, TaskOfId(id)) == {}
                && Drained(old(held), old(flushed), TaskOfId(id), tries, held, flushed)
                && AppendResult(id, TaskNames.SplitId(id).0, TaskNames.SplitId(id).1, payload, err, old(injected))
    {
      tries := [];
      if !TaskNames.SplitId(id).2 {
        return Failed, tries;
      }
      if IsReminder(payload) {
        ghost var state;
        err, state := AppendReminder(id, payload);
      } else {
        err, tries := AppendReal(id, TaskNames.SplitId(id).0, TaskNames.SplitId(id).1, payload);
      }
    }

    /** Confirmed once and nothing owed, or not at all and owed. */
    ghost predicate AppendResult(id: string, task: string, sid: string, payload: Message, err: Answer, before: seq<Injected>)
      reads this
    {
      if err.Ok? then
        && injected == before + [Injected(task, sid, payload, |flushed|)] && id !in owed
        && task in lastReal && lastReal[task] == clock
      else
        injected == before && id in owed
    }

    /** A real payload, behind its task's held reminders. */
    method AppendReal(id: string, task: string, sid: string, payload: Message)
      returns (err: Answer, ghost tries: seq<Try>)
      requires Valid() && TaskOfId(id) == task
      modifies this`held, this`posted, this`flushed, this`injected, this`owed, this`lastReal, this`noted, this`clock
      ensures Valid() && RealStep(old(Look()), Look(), task)
      ensures Drained(old(held), old(flushed), task, tries, held, flushed) && OfTask(held, task) == {}
      ensures AppendResult(id, task, sid, payload, err, old(injected))
    {
      err, tries := FlushAndDeliver(task, sid, payload);
      Charge(id, task, err.Ok?);
    }

    method FlushAndDeliver(task: string, sid: string, payload: Message) returns (err: Answer, ghost tries: seq<Try>)
      requires Valid()
      modifies this`held, this`posted, this`flushed, this`injected, this`lastReal, this`clock
      ensures Valid() && clock >= old(clock) && NoneWoken(old(lastReal), lastReal, task)
      ensures Drained(old(held), old(flushed), task, tries, held, flushed) && OfTask(held, task) == {}
      ensures injected == old(injected) + (if err.Ok? then [Injected(task, sid, payload, |flushed|)] else [])
    {
      tries := Flush(task);
      err := Deliver(task, sid, payload, true);
    }

    /** A reminder: sent at once if the id is owed or the task awake, refused if
        the task is gone, held otherwise. */
    method AppendReminder(id: string, payload: Message) returns (err: Answer, ghost state: TaskState)
      requires Valid() && TaskNames.SplitId(id).2 && IsReminder(payload)
      modifies this`held, this`posted, this`owed, this`lastReal, this`sends, this`clock
      ensures Valid() && ReminderStep(old(Look()), Look(), id, idleAfter)
      ensures id in old(owed) || state.Awake? ==> |sends| == |old(sends)| + 1 && id !in held
      ensures id !in old(owed) && !state.Awake? ==> sends == old(sends)
      ensures id !in old(owed) && state.Gone? ==> err.NoSession? && held == old(held) - OfTask(old(held), TaskOfId(id))
      ensures id !in old(owed) && state.Asleep? ==> err.Ok? && WasHeld(old(held), id, payload, clock, held)
    {
      state := Asleep;
      if id in owed {
        err := SendReminder(id, payload, true, 0);
        return;
      }
      var task := TaskOfId(id);
      var found;
      ghost var report;
      found, report := StateOf(task);
      state := found;
      if found.Gone? {
        ghost var lost := DropHeldIn(task);
        return NoSession, state;
      } else if found.Asleep? {
        ghost var dropped, superseded, lost := HoldReminder(id, payload.cluster, payload);
        return Ok, state;
      }
      VerdictIsSafe(Recent(lastReal, task, clock, idleAfter), report);
      err := SendReminder(id, payload, false, lastReal[task]);
    }

    /** A reminder on its way: the one held for the id is forgotten, and a failure
        may show that the task is gone. */
    method SendOut(id: string, task: string) returns (err: Answer)
      requires Books() && Wakes()
      modifies this`held, this`posted, this`lastReal
      ensures Books() && Wakes() && id !in held
      ensures err.Ok? ==> posted == old(posted) + Forgotten(old(held), id)
      ensures Shrunk(old(lastReal), lastReal) && NoneWoken(lastReal, old(lastReal), task)
    {
      ForgetHeld(id);
      err := Send();
      err := ConfirmGone(task, err);
    }

    /** Sends a reminder and books a confirmed one. */
    method Push(id: string, task: string, cluster: string) returns (err: Answer)
      requires Books() && Wakes() && Tables()
      modifies this`held, this`posted, this`lastReal, this`owed
      ensures Books() && Wakes() && Tables() && id !in held
      ensures owed == if err.Ok? then old(owed) - {id} else old(owed)
      ensures err.Ok? ==> posted == old(posted) + Forgotten(old(held), id) + multiset{(cluster, Outcome.Direct)}
      ensures Shrunk(old(lastReal), lastReal) && NoneWoken(lastReal, old(lastReal), task)
    {
      err := SendOut(id, task);
      if err.Ok? {
        Direct(id, cluster);
      }
    }

    /** Sends a reminder at once. */
    method SendReminder(id: string, payload: Message, ghost wasOwed: bool, ghost since: int) returns (err: Answer)
      requires Valid() && IsReminder(payload)
      requires if wasOwed then id in owed
               else Recent(lastReal, TaskOfId(id), clock, idleAfter) && lastReal[TaskOfId(id)] == since
      modifies this`held, this`posted, this`owed, this`lastReal, this`sends
      ensures Valid() && ReminderStep(old(Look()), Look(), id, idleAfter) && id !in held
      ensures sends == old(sends) + [Sent(id, wasOwed, since, clock, err.Ok?)]
      ensures err.Ok? ==> posted == old(posted) + Forgotten(old(held), id) + multiset{(payload.cluster, Outcome.Direct)}
    {
      err := Push(id, TaskOfId(id), payload.cluster);
      ghost var s := Sent(id, wasOwed, since, clock, err.Ok?);
      JustifyOne(sends, noted, idleAfter, s);
      sends := sends + [s];
      SendIsStep(old(Look()), Look(), s, idleAfter);
    }

    /** Books a confirmed reminder: it carries the incident's payload. */
    method Direct(id: string, cluster: string)
      requires Books() && Tables()
      modifies this`owed, this`posted
      ensures Books() && Tables() && owed == old(owed) - {id}
      ensures posted == old(posted) + multiset{(cluster, Outcome.Direct)}
    {
      Paid(id);
      AccountDirect(held, posted, cluster);
      posted := posted + multiset{(cluster, Outcome.Direct)};
    }
  }
}
