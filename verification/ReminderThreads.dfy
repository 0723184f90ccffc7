/** Reminders appended by several threads at once.

    Appending a reminder asks whether its id is owed, reads the task's last real
    inject, reads the clock and AX's record, sends, and pays, and other threads
    may come between any two of these. Real injects take part through what they
    do under the lock: owe, pay, note and clear. What becomes of reminders that
    are held is module ReminderLedger's. */
module ReminderThreads {
  import opened Basics
  import opened ReminderHold
  import opened AxSink

  /** Why a reminder goes out: its id was owed, or its task had a real inject
      since then and was judged awake at that time. */
  datatype Why = WasOwed | Within(since: int, at: int)

  /** Where an append is. */
  datatype Pc =
    | Checking(id: string)                       // about to ask whether the id is owed
    | Reading(id: string)                        // about to read the last real inject
    | Judging(id: string, last: Option<int>)     // about to read the clock and AX's record
    | Sending(id: string, why: Why)
    | Asking(id: string)                         // the send failed: is the task gone?
    | Paying(id: string)                         // the send was confirmed
    | Over

  datatype State = State(
    idleAfter: int, clock: int, lastReal: map<string, int>, owed: set<string>, sends: seq<Sent>, threads: map<nat, Pc>)

  datatype Event =
    | Start(id: string)
    | CheckOwed
    | ReadWake
    | Judge(report: Report)
    | Deliver(ok: bool)
    | AskGone(gone: bool)
    | Pay
    | Tick(d: nat)
    | Owe(id: string, forgotten: set<string>)    // a real inject failed
    | Settle(id: string)                         // a real inject was confirmed
    | Note(task: string, forgotten: set<string>) // and its task is awake
    | Clear(task: string)                        // a task was found gone

  // ----- Steps -------------------------------------------------------------

  predicate Enabled(s: State, t: nat, e: Event) {
    match e
    case Start(_) => t !in s.threads
    case CheckOwed => t in s.threads && s.threads[t].Checking?
    case ReadWake => t in s.threads && s.threads[t].Reading?
    case Judge(_) => t in s.threads && s.threads[t].Judging?
    case Deliver(_) => t in s.threads && s.threads[t].Sending?
    case AskGone(_) => t in s.threads && s.threads[t].Asking?
    case Pay => t in s.threads && s.threads[t].Paying?
    case Tick(_) => true
    case Owe(_, _) => true
    case Settle(_) => true
    case Note(_, _) => true
    case Clear(_) => true
  }

  function Goto(s: State, t: nat, pc: Pc): State {
    s.(threads := s.threads[t := pc])
  }

  predicate IsRecent(s: State, last: Option<int>) {
    last.Some? && s.clock - last.value < s.idleAfter
  }

  function LastReal(s: State, task: string): Option<int> {
    if task in s.lastReal then Some(s.lastReal[task]) else None
  }

  /** Held or refused unless the task is awake. */
  function Judged(s: State, id: string, last: Option<int>, report: Report): Pc {
    if last.Some? && Verdict(IsRecent(s, last), report).Awake? then Sending(id, Within(last.value, s.clock)) else Over
  }

  function Recorded(s: State, id: string, why: Why, ok: bool): Sent {
    if why.WasOwed? then Sent(id, true, 0, s.clock, ok) else Sent(id, false, why.since, why.at, ok)
  }

  function Apply(s: State, t: nat, e: Event): State
    requires Enabled(s, t, e)
  {
    match e
    case Start(id) => Goto(s, t, Checking(id))
    case CheckOwed =>
      var id := s.threads[t].id;
      Goto(s, t, if id in s.owed then Sending(id, WasOwed) else Reading(id))
    case ReadWake => Goto(s, t, Judging(s.threads[t].id, LastReal(s, TaskOfId(s.threads[t].id))))
    case Judge(report) => Goto(s, t, Judged(s, s.threads[t].id, s.threads[t].last, report))
    case Deliver(ok) =>
      var pc := s.threads[t];
      Goto(s, t, if ok then Paying(pc.id) else Asking(pc.id)).(sends := s.sends + [Recorded(s, pc.id, pc.why, ok)])
    case AskGone(gone) =>
      var s' := Goto(s, t, Over);
      if gone then s'.(lastReal := s.lastReal - {TaskOfId(s.threads[t].id)}) else s'
    case Pay => Goto(s, t, Over).(owed := s.owed - {s.threads[t].id})
    case Tick(d) => s.(clock := s.clock + d)
    case Owe(id, forgotten) => s.(owed := s.owed - forgotten + {id})
    case Settle(id) => s.(owed := s.owed - {id})
    case Note(task, forgotten) => s.(lastReal := (s.lastReal - forgotten)[task := s.clock])
    case Clear(task) => s.(lastReal := s.lastReal - {task})
  }

  ghost predicate IsRun(states: seq<State>, steps: seq<(nat, Event)>) {
    && |states| == |steps| + 1
    && forall i :: 0 <= i < |steps| ==>
         Enabled(states[i], steps[i].0, steps[i].1) && states[i + 1] == Apply(states[i], steps[i].0, steps[i].1)
  }

  // ----- Every send was justified at its check -----------------------------

  /** How the thread got where it is, in one step. */
  ghost predicate CameBy(s: State, e: Event, before: Pc, after: Pc) {
    match after
    case Sending(id, WasOwed) => e == CheckOwed && before == Checking(id) && id in s.owed
    case Sending(id, Within(since, at)) => e.Judge? && before == Judging(id, Some(since)) && at == s.clock && at - since < s.idleAfter
    case Judging(id, last) => e == ReadWake && before == Reading(id) && last == LastReal(s, TaskOfId(id))
    case _ => true
  }

  lemma StepCameBy(s: State, t: nat, e: Event, u: nat)
    requires Enabled(s, t, e) && u in Apply(s, t, e).threads && (u in s.threads ==> Apply(s, t, e).threads[u] != s.threads[u])
    ensures t == u && (u in s.threads ==> CameBy(s, e, s.threads[u], Apply(s, t, e).threads[u]))
    ensures u !in s.threads ==> Apply(s, t, e).threads[u].Checking?
  {
    match e {
      case Start(_) =>
      case CheckOwed =>
      case ReadWake =>
      case Judge(report) => VerdictIsSafe(IsRecent(s, s.threads[t].last), report);
      case Deliver(_) =>
      case AskGone(_) =>
      case Pay =>
      case Tick(_) =>
      case Owe(_, _) =>
      case Settle(_) =>
      case Note(_, _) =>
      case Clear(_) =>
    }
  }

  /** Thread t got to pc by its own step j, and stayed. */
  ghost predicate CameAt(states: seq<State>, steps: seq<(nat, Event)>, j: nat, t: nat, pc: Pc)
    requires |states| == |steps| + 1
  {
    && j < |steps| && steps[j].0 == t && t in states[j].threads
    && CameBy(states[j], steps[j].1, states[j].threads[t], pc)
  }

  lemma {:induction false} Origin(states: seq<State>, steps: seq<(nat, Event)>, n: nat, t: nat)
    requires IsRun(states, steps) && n < |states| && t !in states[0].threads && t in states[n].threads
    requires states[n].threads[t].Sending? || states[n].threads[t].Judging?
    ensures exists j: nat :: j < n && CameAt(states, steps, j, t, states[n].threads[t])
  {
    var s, u, e := states[n - 1], steps[n - 1].0, steps[n - 1].1;
    if t in s.threads && s.threads[t] == states[n].threads[t] {
      Origin(states, steps, n - 1, t);
    } else {
      StepCameBy(s, u, e, t);
      assert CameAt(states, steps, n - 1, t, states[n].threads[t]);
    }
  }

  /** At step j the append found its id owed. */
  ghost predicate FoundOwed(states: seq<State>, steps: seq<(nat, Event)>, j: nat, t: nat, id: string)
    requires |states| == |steps| + 1
  {
    j < |steps| && steps[j] == (t, CheckOwed) && id in states[j].owed
  }

  /** At step i the append read the task's last real inject, and at step j the
      clock said that it was less than the idle window ago. */
  ghost predicate FoundAwake(states: seq<State>, steps: seq<(nat, Event)>, i: nat, j: nat, t: nat, id: string, since: int, at: int)
    requires |states| == |steps| + 1
  {
    && i < j < |steps| && steps[i] == (t, ReadWake) && LastReal(states[i], TaskOfId(id)) == Some(since)
    && steps[j].0 == t && steps[j].1.Judge? && at == states[j].clock && at - since < states[j].idleAfter
  }

  /** In every interleaving, a reminder sent at once was owed when that was
      checked, or followed a real inject by less than the idle window when its
      task was judged. */
  lemma SendsAreJustified(states: seq<State>, steps: seq<(nat, Event)>, n: nat)
    requires IsRun(states, steps) && states[0].threads == map[] && n < |steps| && steps[n].1.Deliver?
    ensures var t, pc := steps[n].0, states[n].threads[steps[n].0];
            match pc.why
            case WasOwed => exists j: nat :: j < n && FoundOwed(states, steps, j, t, pc.id)
            case Within(since, at) => exists i: nat, j: nat :: j < n && FoundAwake(states, steps, i, j, t, pc.id, since, at)
  {
    var t, pc := steps[n].0, states[n].threads[steps[n].0];
    Origin(states, steps, n, t);
    var j: nat :| j < n && CameAt(states, steps, j, t, pc);
    match pc.why {
      case WasOwed =>
        assert FoundOwed(states, steps, j, t, pc.id);
      case Within(since, at) =>
        Origin(states, steps, j, t);
        var i: nat :| i < j && CameAt(states, steps, i, t, states[j].threads[t]);
        assert FoundAwake(states, steps, i, j, t, pc.id, since, at);
    }
  }

  lemma WakeComesFromNote(s: State, t: nat, e: Event, task: string)
    requires Enabled(s, t, e) && task in Apply(s, t, e).lastReal
    ensures || (e.Note? && e.task == task && Apply(s, t, e).lastReal[task] == s.clock)
            || (task in s.lastReal && Apply(s, t, e).lastReal[task] == s.lastReal[task])
  {
    match e {
      case Start(_) =>
      case CheckOwed =>
      case ReadWake =>
      case Judge(_) =>
      case Deliver(_) =>
      case AskGone(_) =>
      case Pay =>
      case Tick(_) =>
      case Owe(_, _) =>
      case Settle(_) =>
      case Note(_, _) =>
      case Clear(_) =>
    }
  }

  ghost predicate Noted(states: seq<State>, steps: seq<(nat, Event)>, i: nat, task: string, since: int)
    requires |states| == |steps| + 1
  {
    i < |steps| && steps[i].1.Note? && steps[i].1.task == task && states[i].clock == since
  }

  /** A last real inject on record was one. */
  lemma {:induction false} WakesAreReal(states: seq<State>, steps: seq<(nat, Event)>, n: nat, task: string)
    requires IsRun(states, steps) && n < |states| && states[0].lastReal == map[] && task in states[n].lastReal
    ensures exists i: nat :: i < n && Noted(states, steps, i, task, states[n].lastReal[task])
  {
    assert n > 0;
    WakeComesFromNote(states[n - 1], steps[n - 1].0, steps[n - 1].1, task);
    if task in states[n - 1].lastReal && states[n].lastReal[task] == states[n - 1].lastReal[task] {
      WakesAreReal(states, steps, n - 1, task);
      var i: nat :| i < n - 1 && Noted(states, steps, i, task, states[n].lastReal[task]);
    } else {
      assert Noted(states, steps, n - 1, task, states[n].lastReal[task]);
    }
  }

  // ----- Two appends at once -----------------------------------------------

  predicate Active(pc: Pc, x: string) {
    !pc.Over? && pc.id == x
  }

  /** Six steps of two threads: both find the id owed before either pays. */
  function TwoAtOnce(t: nat, u: nat, x: string): seq<(nat, Event)> {
    [(t, Start(x)), (u, Start(x)), (t, CheckOwed), (u, CheckOwed), (t, Deliver(true)), (u, Deliver(true))]
  }

  /** Two appends of a reminder for one owed id may both be confirmed, from every
      state and for every owed id. */
  lemma OverlapSendsTwice(s: State, t: nat, u: nat, x: string)
    requires x in s.owed && t !in s.threads && u !in s.threads && t != u
    ensures exists states: seq<State> ::
              IsRun(states, TwoAtOnce(t, u, x)) && states[0] == s && Confirmed(states[6].sends, x) == Confirmed(s.sends, x) + 2
  {
    var s4 := s.(threads := s.threads[t := Sending(x, WasOwed)][u := Sending(x, WasOwed)]);
    var four := BothChecked(s, t, u, x, s4);
    var s5 := Apply(s4, t, Deliver(true));
    var five := Extend(four, TwoAtOnce(t, u, x)[..4], t, Deliver(true));
    assert TwoAtOnce(t, u, x)[..4] + [(t, Deliver(true))] == TwoAtOnce(t, u, x)[..5];
    var six := Extend(five, TwoAtOnce(t, u, x)[..5], u, Deliver(true));
    assert TwoAtOnce(t, u, x)[..5] + [(u, Deliver(true))] == TwoAtOnce(t, u, x);
    OneMoreSend(s4.sends, Recorded(s4, x, WasOwed, true), x);
    OneMoreSend(s5.sends, Recorded(s5, x, WasOwed, true), x);
  }

  /** One more step of a run. */
  lemma Extend(states: seq<State>, steps: seq<(nat, Event)>, t: nat, e: Event) returns (more: seq<State>)
    requires IsRun(states, steps) && Enabled(states[|steps|], t, e)
    ensures IsRun(more, steps + [(t, e)]) && more[0] == states[0] && more[|steps| + 1] == Apply(states[|steps|], t, e)
  {
    more := states + [Apply(states[|steps|], t, e)];
  }

  lemma BothChecked(s: State, t: nat, u: nat, x: string, s4: State) returns (four: seq<State>)
    requires x in s.owed && t !in s.threads && u !in s.threads && t != u
    requires s4 == s.(threads := s.threads[t := Sending(x, WasOwed)][u := Sending(x, WasOwed)])
    ensures IsRun(four, TwoAtOnce(t, u, x)[..4]) && four[0] == s && four[4] == s4
  {
    var steps := TwoAtOnce(t, u, x);
    var one := Extend([s], [], t, Start(x));
    assert [] + [(t, Start(x))] == steps[..1];
    var two := Extend(one, steps[..1], u, Start(x));
    assert steps[..1] + [(u, Start(x))] == steps[..2];
    var three := Extend(two, steps[..2], t, CheckOwed);
    assert steps[..2] + [(t, CheckOwed)] == steps[..3];
    four := Extend(three, steps[..3], u, CheckOwed);
    assert steps[..3] + [(u, CheckOwed)] == steps[..4];
    assert four[4].threads == s4.threads;
  }

  lemma OneMoreSend(sends: seq<Sent>, sent: Sent, x: string)
    ensures Confirmed(sends + [sent], x) == Confirmed(sends, x) + (if sent.id == x && sent.confirmed then 1 else 0)
  {
    assert (sends + [sent])[..|sends|] == sends;
  }

  // ----- One append at a time ----------------------------------------------

  /** No two appends for x overlap here. */
  ghost predicate Alone(s: State, x: string) {
    forall t, u :: t in s.threads && u in s.threads && Active(s.threads[t], x) && Active(s.threads[u], x) ==> t == u
  }

  /** No real inject for x fails, and none is noted on its task. */
  predicate IsQuiet(e: Event, x: string) {
    !(e.Owe? && e.id == x) && !(e.Note? && e.task == TaskOfId(x))
  }

  /** Nothing in hand would let a reminder for x out on the task's account. */
  ghost predicate Stale(s: State, x: string, pc: Pc) {
    && (pc.Judging? && pc.id == x ==> !IsRecent(s, pc.last))
    && (pc.Sending? && pc.id == x ==> pc.why.WasOwed?)
  }

  ghost predicate Idle(s: State, x: string) {
    !IsRecent(s, LastReal(s, TaskOfId(x))) && forall t :: t in s.threads ==> Stale(s, x, s.threads[t])
  }

  /** What an append that is there may still have confirmed. */
  function ClaimAt(pc: Pc, owes: nat): nat {
    if pc.Paying? then 0 else if pc.Sending? then 1 else owes
  }

  function Owing(s: State, x: string): nat {
    if x in s.owed then 1 else 0
  }

  /** How many more reminders for x may be confirmed. */
  ghost function Claim(s: State, x: string): nat {
    if t :| t in s.threads && Active(s.threads[t], x) then ClaimAt(s.threads[t], Owing(s, x)) else Owing(s, x)
  }

  lemma ClaimOf(s: State, x: string, t: nat)
    requires Alone(s, x) && t in s.threads && Active(s.threads[t], x)
    ensures Claim(s, x) == ClaimAt(s.threads[t], Owing(s, x))
  {
  }

  lemma ClaimOfNone(s: State, x: string)
    requires forall t :: t in s.threads ==> !Active(s.threads[t], x)
    ensures Claim(s, x) == Owing(s, x)
  {
  }

  /** The step is an append's own, for x. */
  predicate OwnStep(s: State, t: nat, e: Event, x: string)
    requires Enabled(s, t, e)
  {
    match e
    case Start(id) => id == x
    case Tick(_) => false
    case Owe(_, _) => false
    case Settle(_) => false
    case Note(_, _) => false
    case Clear(_) => false
    case _ => s.threads[t].id == x
  }

  /** Other steps move no append for x and confirm nothing for it. */
  lemma OtherStep(s: State, t: nat, e: Event, x: string)
    requires Enabled(s, t, e) && IsQuiet(e, x) && !OwnStep(s, t, e, x)
    ensures var s' := Apply(s, t, e);
            && Confirmed(s'.sends, x) == Confirmed(s.sends, x) && (x in s'.owed ==> x in s.owed)
            && (forall u :: u in s'.threads && Active(s'.threads[u], x) ==> u in s.threads && s.threads[u] == s'.threads[u])
            && (forall u :: u in s.threads && Active(s.threads[u], x) ==> u in s'.threads && s.threads[u] == s'.threads[u])
  {
    match e {
      case Start(_) =>
      case CheckOwed =>
      case ReadWake =>
      case Judge(_) =>
      case Deliver(ok) => OneMoreSend(s.sends, Recorded(s, s.threads[t].id, s.threads[t].why, ok), x);
      case AskGone(_) =>
      case Pay =>
      case Tick(_) =>
      case Owe(_, _) =>
      case Settle(_) =>
      case Note(_, _) =>
      case Clear(_) =>
    }
  }

  lemma OtherStepSpends(s: State, t: nat, e: Event, x: string)
    requires Enabled(s, t, e) && IsQuiet(e, x) && !OwnStep(s, t, e, x) && Alone(s, x)
    ensures var s' := Apply(s, t, e); Confirmed(s'.sends, x) + Claim(s', x) <= Confirmed(s.sends, x) + Claim(s, x)
  {
    var s' := Apply(s, t, e);
    OtherStep(s, t, e, x);
    if u :| u in s.threads && Active(s.threads[u], x) {
      ClaimOf(s, x, u);
      ClaimOf(s', x, u);
    } else {
      ClaimOfNone(s, x);
      ClaimOfNone(s', x);
    }
  }

  /** An append's own step spends what it may still have confirmed. */
  lemma OwnStepSpends(s: State, t: nat, e: Event, x: string)
    requires Enabled(s, t, e) && OwnStep(s, t, e, x) && Alone(s, x) && Idle(s, x) && Alone(Apply(s, t, e), x)
    ensures var s' := Apply(s, t, e); Confirmed(s'.sends, x) + Claim(s', x) <= Confirmed(s.sends, x) + Claim(s, x)
  {
    var s' := Apply(s, t, e);
    if e.Start? {
      forall u | u in s.threads
        ensures !Active(s.threads[u], x)
      {
        assert s'.threads[u] == s.threads[u] && s'.threads[t] == Checking(x);
      }
      ClaimOfNone(s, x);
      ClaimOf(s', x, t);
    } else {
      ClaimOf(s, x, t);
      forall u | u in s'.threads && u != t
        ensures !Active(s'.threads[u], x)
      {
        assert s'.threads[u] == s.threads[u];
      }
      if Active(s'.threads[t], x) {
        ClaimOf(s', x, t);
      } else {
        ClaimOfNone(s', x);
      }
      OwnMove(s, t, e, x);
    }
  }

  lemma OwnMove(s: State, t: nat, e: Event, x: string)
    requires Enabled(s, t, e) && OwnStep(s, t, e, x) && !e.Start? && Stale(s, x, s.threads[t])
    ensures var s' := Apply(s, t, e);
            var pc' := s'.threads[t];
            Confirmed(s'.sends, x) + (if Active(pc', x) then ClaimAt(pc', Owing(s', x)) else Owing(s', x)) <=
            Confirmed(s.sends, x) + ClaimAt(s.threads[t], Owing(s, x))
  {
    match e {
      case CheckOwed =>
      case ReadWake =>
      case Judge(report) => VerdictIsSafe(IsRecent(s, s.threads[t].last), report);
      case Deliver(ok) => OneMoreSend(s.sends, Recorded(s, x, s.threads[t].why, ok), x);
      case AskGone(_) =>
      case Pay =>
    }
  }

  /** An idle task stays idle while nothing real happens on it. */
  lemma IdleStep(s: State, t: nat, e: Event, x: string)
    requires Enabled(s, t, e) && IsQuiet(e, x) && Idle(s, x)
    ensures Idle(Apply(s, t, e), x)
  {
    var s' := Apply(s, t, e);
    WakeStaysOld(s, t, e, x);
    forall u | u in s'.threads
      ensures Stale(s', x, s'.threads[u])
    {
      if u in s.threads {
        assert Stale(s, x, s.threads[u]);
      }
      StaleStep(s, t, e, x, u);
    }
  }

  lemma WakeStaysOld(s: State, t: nat, e: Event, x: string)
    requires Enabled(s, t, e) && IsQuiet(e, x) && !IsRecent(s, LastReal(s, TaskOfId(x)))
    ensures s.clock <= Apply(s, t, e).clock && s.idleAfter == Apply(s, t, e).idleAfter
    ensures !IsRecent(Apply(s, t, e), LastReal(Apply(s, t, e), TaskOfId(x)))
  {
    match e {
      case Start(_) =>
      case CheckOwed =>
      case ReadWake =>
      case Judge(_) =>
      case Deliver(_) =>
      case AskGone(_) =>
      case Pay =>
      case Tick(_) =>
      case Owe(_, _) =>
      case Settle(_) =>
      case Note(_, _) =>
      case Clear(_) =>
    }
  }

  lemma StaleStep(s: State, t: nat, e: Event, x: string, u: nat)
    requires Enabled(s, t, e) && IsQuiet(e, x) && !IsRecent(s, LastReal(s, TaskOfId(x)))
    requires u in Apply(s, t, e).threads && (u in s.threads ==> Stale(s, x, s.threads[u]))
    ensures Stale(Apply(s, t, e), x, Apply(s, t, e).threads[u])
  {
    var s' := Apply(s, t, e);
    WakeStaysOld(s, t, e, x);
    if !(u in s.threads && s'.threads[u] == s.threads[u]) {
      StepCameBy(s, t, e, u);
    }
  }

  /** A run in which nothing real happens to x and its appends never overlap. */
  ghost predicate IsQuietRun(states: seq<State>, steps: seq<(nat, Event)>, x: string) {
    && IsRun(states, steps) && (forall i :: 0 <= i < |steps| ==> IsQuiet(steps[i].1, x))
    && (forall i :: 0 <= i < |states| ==> Alone(states[i], x))
    && Idle(states[0], x) && forall t :: t in states[0].threads ==> !Active(states[0].threads[t], x)
  }

  lemma StepSpends(s: State, t: nat, e: Event, x: string)
    requires Enabled(s, t, e) && IsQuiet(e, x) && Idle(s, x) && Alone(s, x) && Alone(Apply(s, t, e), x)
    ensures Idle(Apply(s, t, e), x)
    ensures var s' := Apply(s, t, e); Confirmed(s'.sends, x) + Claim(s', x) <= Confirmed(s.sends, x) + Claim(s, x)
  {
    IdleStep(s, t, e, x);
    if OwnStep(s, t, e, x) {
      OwnStepSpends(s, t, e, x);
    } else {
      OtherStepSpends(s, t, e, x);
    }
  }

  lemma {:induction false} QuietRunSpends(states: seq<State>, steps: seq<(nat, Event)>, x: string, n: nat)
    requires IsQuietRun(states, steps, x) && n < |states|
    ensures Idle(states[n], x)
    ensures Confirmed(states[n].sends, x) + Claim(states[n], x) <= Confirmed(states[0].sends, x) + Claim(states[0], x)
  {
    if n > 0 {
      QuietRunSpends(states, steps, x, n - 1);
      var s, t, e := states[n - 1], steps[n - 1].0, steps[n - 1].1;
      assert Enabled(s, t, e) && states[n] == Apply(s, t, e) && Alone(s, x) && Alone(states[n], x);
      StepSpends(s, t, e, x);
    }
  }

  /** Once a task's idle window has passed and nothing real happens on it, an id
      has at most one reminder confirmed, and none if it was not owed, in every
      interleaving in which no two appends for that id overlap. */
  lemma OneAtATimeSendsOnce(states: seq<State>, steps: seq<(nat, Event)>, x: string, n: nat)
    requires IsQuietRun(states, steps, x) && n < |states|
    ensures Confirmed(states[n].sends, x) <= Confirmed(states[0].sends, x) + (if x in states[0].owed then 1 else 0)
  {
    QuietRunSpends(states, steps, x, n);
    ClaimOfNone(states[0], x);
  }
}
