/** The dispatcher's per-key lock and the storm barrier on top of it, as
    threads taking steps.

    A key is busy while the table has a channel for it; a waiter blocks on that
    channel and tries again when it is closed. A storm's founder publishes a
    formation channel before it takes the storm's key and closes it when its
    open is done; members wait for that channel first and for the key second.

    The bodies that run under a key take no further key. The correlator reports
    a member only after its storm has formed. */
module KeyLock {

  datatype Key = Incident(id: string) | Storm(id: string)

  /** Why a thread takes a key. form is the storm's formation channel. */
  datatype Role = Plain | Founder(id: string, form: nat) | Member(id: string, form: nat)

  /** Where a thread is. */
  datatype Pc =
    | AwaitForm(id: string, form: nat)             // member blocked on the formation channel
    | Acquire(key: Key, role: Role)                // about to look at the table
    | AwaitKey(key: Key, ch: nat, role: Role)      // blocked on a holder's channel
    | Body(key: Key, ch: nat, role: Role)          // running under the key
    | FormClosed(key: Key, ch: nat, id: string, form: nat) // founder: channel closed, entry still there
    | Ending(key: Key, ch: nat)                    // only the release is left
    | Done

  /** The last three fields are history, not the program's: each storm's newest
      formation channel, and which thread holds a key or founds a storm. */
  datatype State = State(
    threads: map<nat, Pc>,
    inflight: map<Key, nat>, closed: set<nat>, next: nat,
    ready: map<string, nat>, formed: set<nat>, nextForm: nat,
    latest: map<string, nat>, owner: map<Key, nat>, founder: map<string, nat>)

  datatype Event =
    | Arrive(key: Key)        // a plain user of a key
    | ReportFormed(id: string)
    | ReportAttached(id: string)
    | FormReady               // the formation channel is closed
    | GiveUp                  // the member's context ended
    | TryKey                  // look at the table: take the key or its channel
    | Wake                    // the holder's channel is closed
    | Finish                  // the body returned
    | DropEntry               // founder: delete the formation entry
    | Release                 // delete the key's entry and close its channel

  function Initial(): State {
    State(map[], map[], {}, 0, map[], {}, 0, map[], map[], map[])
  }

  // ----- Steps -------------------------------------------------------------

  predicate Enabled(s: State, t: nat, e: Event) {
    match e
    case Arrive(_) => t !in s.threads
    case ReportFormed(id) => t !in s.threads && id !in s.ready
    case ReportAttached(id) => t !in s.threads && id in s.latest
    case FormReady => t in s.threads && s.threads[t].AwaitForm? && s.threads[t].form in s.formed
    case GiveUp => t in s.threads && s.threads[t].AwaitForm?
    case TryKey => t in s.threads && s.threads[t].Acquire?
    case Wake => t in s.threads && s.threads[t].AwaitKey? && s.threads[t].ch in s.closed
    case Finish => t in s.threads && s.threads[t].Body?
    case DropEntry => t in s.threads && s.threads[t].FormClosed?
    case Release => t in s.threads && s.threads[t].Ending?
  }

  function Goto(s: State, t: nat, pc: Pc): State {
    s.(threads := s.threads[t := pc])
  }

  /** The report of a formation publishes its channel. */
  function Form(s: State, t: nat, id: string): State {
    Goto(s, t, Acquire(Storm(id), Founder(id, s.nextForm)))
      .(ready := s.ready[id := s.nextForm], nextForm := s.nextForm + 1,
        latest := s.latest[id := s.nextForm], founder := s.founder[id := t])
  }

  /** Takes a free key with a new channel. */
  function Take(s: State, t: nat, key: Key, role: Role): State {
    Goto(s, t, Body(key, s.next, role))
      .(inflight := s.inflight[key := s.next], next := s.next + 1, owner := s.owner[key := t])
  }

  /** The founder's open is done: its members may go. */
  function CloseForm(s: State, t: nat, key: Key, ch: nat, id: string, form: nat): State {
    Goto(s, t, FormClosed(key, ch, id, form)).(formed := s.formed + {form})
  }

  function DropForm(s: State, t: nat, key: Key, ch: nat, id: string): State {
    Goto(s, t, Ending(key, ch)).(ready := s.ready - {id})
  }

  /** Frees the key and wakes everyone waiting on its channel. */
  function Free(s: State, t: nat, key: Key, ch: nat): State {
    Goto(s, t, Done).(inflight := s.inflight - {key}, closed := s.closed + {ch})
  }

  function Apply(s: State, t: nat, e: Event): State
    requires Enabled(s, t, e)
  {
    match e
    case Arrive(key) => Goto(s, t, Acquire(key, Plain))
    case ReportFormed(id) => Form(s, t, id)
    case ReportAttached(id) =>
      if id in s.ready then Goto(s, t, AwaitForm(id, s.ready[id]))
      else Goto(s, t, Acquire(Storm(id), Member(id, s.latest[id])))
    case FormReady => Goto(s, t, Acquire(Storm(s.threads[t].id), Member(s.threads[t].id, s.threads[t].form)))
    case GiveUp => Goto(s, t, Done)
    case TryKey =>
      var pc := s.threads[t];
      if pc.key in s.inflight then Goto(s, t, AwaitKey(pc.key, s.inflight[pc.key], pc.role)) else Take(s, t, pc.key, pc.role)
    case Wake => Goto(s, t, Acquire(s.threads[t].key, s.threads[t].role))
    case Finish =>
      var pc := s.threads[t];
      if pc.role.Founder? then CloseForm(s, t, pc.key, pc.ch, pc.role.id, pc.role.form) else Goto(s, t, Ending(pc.key, pc.ch))
    case DropEntry => DropForm(s, t, s.threads[t].key, s.threads[t].ch, s.threads[t].id)
    case Release => Free(s, t, s.threads[t].key, s.threads[t].ch)
  }

  // ----- What every step keeps ---------------------------------------------

  predicate Holds(pc: Pc) {
    pc.Body? || pc.FormClosed? || pc.Ending?
  }

  predicate HasRole(pc: Pc) {
    pc.Acquire? || pc.AwaitKey? || pc.Body?
  }

  /** A founder whose formation entry is still in the table. */
  predicate Founding(pc: Pc) {
    (HasRole(pc) && pc.role.Founder?) || pc.FormClosed?
  }

  function FoundingId(pc: Pc): string
    requires Founding(pc)
  {
    if pc.FormClosed? then pc.id else pc.role.id
  }

  function FoundingForm(pc: Pc): nat
    requires Founding(pc)
  {
    if pc.FormClosed? then pc.form else pc.role.form
  }

  /** A thread that holds a key owns its table entry. */
  ghost predicate Owns(s: State, t: nat)
    requires t in s.threads
  {
    var pc := s.threads[t];
    Holds(pc) ==> pc.key in s.inflight && s.inflight[pc.key] == pc.ch && pc.key in s.owner && s.owner[pc.key] == t
  }

  /** A table entry belongs to a thread that holds the key, and is open. */
  ghost predicate Owned(s: State, k: Key)
    requires k in s.inflight
  {
    && k in s.owner && s.owner[k] in s.threads && Holds(s.threads[s.owner[k]]) && s.threads[s.owner[k]].key == k
    && s.inflight[k] < s.next && s.inflight[k] !in s.closed
  }

  /** The table and the holders agree. */
  ghost predicate Locks(s: State) {
    && (forall t :: t in s.threads ==> Owns(s, t))
    && (forall k :: k in s.inflight ==> Owned(s, k))
    && (forall k, l :: k in s.inflight && l in s.inflight && k != l ==> s.inflight[k] != s.inflight[l])
    && (forall c :: c in s.closed ==> c < s.next)
  }

  /** A waiter's channel is closed, or is its key's own. */
  ghost predicate Woken(s: State, pc: Pc) {
    pc.AwaitKey? ==> pc.ch in s.closed || (pc.key in s.inflight && s.inflight[pc.key] == pc.ch)
  }

  ghost predicate NoLostWakeup(s: State) {
    forall t :: t in s.threads ==> Woken(s, s.threads[t])
  }

  /** A founder's channel is the one published for its storm, closed only
      when its open is done. */
  ghost predicate Founds(s: State, t: nat)
    requires t in s.threads
  {
    var pc := s.threads[t];
    Founding(pc) ==>
      && FoundingId(pc) in s.ready && s.ready[FoundingId(pc)] == FoundingForm(pc)
      && FoundingId(pc) in s.founder && s.founder[FoundingId(pc)] == t
      && (pc.FormClosed? <==> FoundingForm(pc) in s.formed)
  }

  /** A published channel is its storm's newest and has a founder. */
  ghost predicate Published(s: State, id: string)
    requires id in s.ready
  {
    && id in s.founder && s.founder[id] in s.threads
    && Founding(s.threads[s.founder[id]]) && FoundingId(s.threads[s.founder[id]]) == id
    && s.ready[id] < s.nextForm && id in s.latest && s.latest[id] == s.ready[id]
  }

  /** The formation table and the founders agree. */
  ghost predicate Formations(s: State) {
    && (forall t :: t in s.threads ==> Founds(s, t))
    && (forall id :: id in s.ready ==> Published(s, id))
    && (forall i, j :: i in s.ready && j in s.ready && i != j ==> s.ready[i] != s.ready[j])
    && (forall id :: id in s.latest && id !in s.ready ==> s.latest[id] in s.formed)
    && (forall f :: f in s.formed ==> f < s.nextForm)
  }

  /** A member goes for the key only when its founder's open is done, and
      otherwise waits for the channel its founder will close. */
  ghost predicate Follows(s: State, pc: Pc) {
    && (HasRole(pc) && pc.role.Member? ==> pc.role.form in s.formed)
    && (pc.AwaitForm? ==> pc.form in s.formed || (pc.id in s.ready && s.ready[pc.id] == pc.form))
    && (HasRole(pc) && !pc.role.Plain? ==> pc.key == Storm(pc.role.id))
    && (pc.FormClosed? ==> pc.key == Storm(pc.id))
  }

  ghost predicate Members(s: State) {
    forall t :: t in s.threads ==> Follows(s, s.threads[t])
  }

  ghost predicate Inv(s: State) {
    Locks(s) && NoLostWakeup(s) && Formations(s) && Members(s)
  }

  // ----- The lock keeps its invariants -------------------------------------

  /** Only t moved, and it neither took nor freed a key. */
  ghost predicate SameLocks(s: State, s': State, t: nat) {
    && t in s'.threads && s'.threads == s.threads[t := s'.threads[t]]
    && s'.inflight == s.inflight && s'.closed == s.closed && s'.next == s.next && s'.owner == s.owner
    && if t in s.threads && Holds(s.threads[t])
       then Holds(s'.threads[t]) && s'.threads[t].key == s.threads[t].key && s'.threads[t].ch == s.threads[t].ch
       else !Holds(s'.threads[t])
  }

  lemma OtherStepsKeepLocks(s: State, t: nat, e: Event)
    requires Enabled(s, t, e) && !e.Release? && !(e.TryKey? && s.threads[t].key !in s.inflight)
    ensures SameLocks(s, Apply(s, t, e), t)
  {
    match e {
      case Arrive(_) =>
      case ReportFormed(_) =>
      case ReportAttached(_) =>
      case FormReady =>
      case GiveUp =>
      case TryKey =>
      case Wake =>
      case Finish =>
      case DropEntry =>
      case Release =>
    }
  }

  lemma LocksFrame(s: State, s': State, t: nat)
    requires Locks(s) && SameLocks(s, s', t)
    ensures Locks(s')
  {
    forall u | u in s'.threads
      ensures Owns(s', u)
    {
      assert u in s.threads ==> Owns(s, u);
    }
    forall k | k in s'.inflight
      ensures Owned(s', k)
    {
      assert Owned(s, k);
    }
  }

  lemma LocksTake(s: State, t: nat, key: Key, role: Role)
    requires Locks(s) && t in s.threads && !Holds(s.threads[t]) && key !in s.inflight
    ensures Locks(Take(s, t, key, role))
  {
    var s' := Take(s, t, key, role);
    forall u | u in s'.threads && u != t
      ensures Owns(s', u)
    {
      assert Owns(s, u);
    }
    forall k | k in s.inflight
      ensures Owned(s', k)
    {
      assert Owned(s, k);
    }
  }

  lemma LocksFree(s: State, t: nat, key: Key, ch: nat)
    requires Locks(s) && t in s.threads && Holds(s.threads[t]) && s.threads[t].key == key && s.threads[t].ch == ch
    ensures Locks(Free(s, t, key, ch))
  {
    var s' := Free(s, t, key, ch);
    assert Owns(s, t);
    forall u | u in s.threads && u != t
      ensures Owns(s', u)
    {
      assert Owns(s, u);
    }
    forall k | k in s'.inflight
      ensures Owned(s', k)
    {
      assert Owned(s, k);
    }
  }

  lemma LocksStep(s: State, t: nat, e: Event)
    requires Locks(s) && Enabled(s, t, e)
    ensures Locks(Apply(s, t, e))
  {
    if e.Release? {
      LocksFree(s, t, s.threads[t].key, s.threads[t].ch);
    } else if e.TryKey? && s.threads[t].key !in s.inflight {
      LocksTake(s, t, s.threads[t].key, s.threads[t].role);
    } else {
      OtherStepsKeepLocks(s, t, e);
      LocksFrame(s, Apply(s, t, e), t);
    }
  }

  /** A thread starts to wait only on its key's own channel. */
  lemma OwnStepWoken(s: State, t: nat, e: Event)
    requires Enabled(s, t, e)
    ensures t in Apply(s, t, e).threads && Woken(Apply(s, t, e), Apply(s, t, e).threads[t])
  {
    match e {
      case Arrive(_) =>
      case ReportFormed(_) =>
      case ReportAttached(_) =>
      case FormReady =>
      case GiveUp =>
      case TryKey =>
      case Wake =>
      case Finish =>
      case DropEntry =>
      case Release =>
    }
  }

  lemma WakeupFrame(s: State, s': State, t: nat)
    requires NoLostWakeup(s) && SameLocks(s, s', t) && Woken(s', s'.threads[t])
    ensures NoLostWakeup(s')
  {
    forall u | u in s'.threads && u != t
      ensures Woken(s', s'.threads[u])
    {
      assert Woken(s, s.threads[u]);
    }
  }

  lemma WakeupTake(s: State, t: nat, key: Key, role: Role)
    requires NoLostWakeup(s) && key !in s.inflight
    ensures NoLostWakeup(Take(s, t, key, role))
  {
    var s' := Take(s, t, key, role);
    forall u | u in s'.threads && u != t
      ensures Woken(s', s'.threads[u])
    {
      assert Woken(s, s.threads[u]);
    }
  }

  /** Freeing a key closes the channel its waiters wait on. */
  lemma WakeupFree(s: State, t: nat, key: Key, ch: nat)
    requires NoLostWakeup(s) && key in s.inflight && s.inflight[key] == ch
    ensures NoLostWakeup(Free(s, t, key, ch))
  {
    var s' := Free(s, t, key, ch);
    forall u | u in s'.threads && u != t
      ensures Woken(s', s'.threads[u])
    {
      assert Woken(s, s.threads[u]);
    }
  }

  lemma WakeupStep(s: State, t: nat, e: Event)
    requires Locks(s) && NoLostWakeup(s) && Enabled(s, t, e)
    ensures NoLostWakeup(Apply(s, t, e))
  {
    if e.Release? {
      assert Owns(s, t);
      WakeupFree(s, t, s.threads[t].key, s.threads[t].ch);
    } else if e.TryKey? && s.threads[t].key !in s.inflight {
      WakeupTake(s, t, s.threads[t].key, s.threads[t].role);
    } else {
      OtherStepsKeepLocks(s, t, e);
      OwnStepWoken(s, t, e);
      WakeupFrame(s, Apply(s, t, e), t);
    }
  }

  // ----- So does the barrier -----------------------------------------------

  /** Only t moved, and no formation was published, finished or dropped. */
  ghost predicate SameFormations(s: State, s': State, t: nat) {
    SameTables(s, s', t) && SameFounder(s, s', t)
  }

  ghost predicate SameTables(s: State, s': State, t: nat) {
    && t in s'.threads && s'.threads == s.threads[t := s'.threads[t]]
    && s'.ready == s.ready && s'.formed == s.formed && s'.nextForm == s.nextForm
    && s'.latest == s.latest && s'.founder == s.founder
  }

  ghost predicate SameFounder(s: State, s': State, t: nat)
    requires t in s'.threads
  {
    if t in s.threads && Founding(s.threads[t])
    then Founding(s'.threads[t]) && FoundingId(s'.threads[t]) == FoundingId(s.threads[t])
      && FoundingForm(s'.threads[t]) == FoundingForm(s.threads[t]) && s'.threads[t].FormClosed? == s.threads[t].FormClosed?
    else !Founding(s'.threads[t])
  }

  lemma OtherStepsKeepTables(s: State, t: nat, e: Event)
    requires Enabled(s, t, e) && !e.ReportFormed? && !e.DropEntry? && !(e.Finish? && s.threads[t].role.Founder?)
    ensures SameTables(s, Apply(s, t, e), t)
  {
    match e {
      case Arrive(_) =>
      case ReportFormed(_) =>
      case ReportAttached(_) =>
      case FormReady =>
      case GiveUp =>
      case TryKey =>
      case Wake =>
      case Finish =>
      case DropEntry =>
      case Release =>
    }
  }

  lemma OtherStepsKeepFounder(s: State, t: nat, e: Event)
    requires Enabled(s, t, e) && !e.ReportFormed? && !e.DropEntry? && !(e.Finish? && s.threads[t].role.Founder?)
    ensures t in Apply(s, t, e).threads && SameFounder(s, Apply(s, t, e), t)
  {
    match e {
      case Arrive(_) =>
      case ReportFormed(_) =>
      case ReportAttached(_) =>
      case FormReady =>
      case GiveUp =>
      case TryKey =>
      case Wake =>
      case Finish =>
      case DropEntry =>
      case Release =>
    }
  }

  lemma FormationsFrame(s: State, s': State, t: nat)
    requires Formations(s) && SameFormations(s, s', t)
    ensures Formations(s')
  {
    forall u | u in s'.threads
      ensures Founds(s', u)
    {
      assert u in s.threads ==> Founds(s, u);
    }
    forall id | id in s'.ready
      ensures Published(s', id)
    {
      assert Published(s, id);
    }
  }

  lemma FormationsForm(s: State, t: nat, id: string)
    requires Formations(s) && t !in s.threads && id !in s.ready
    ensures Formations(Form(s, t, id))
  {
    var s' := Form(s, t, id);
    forall u | u in s.threads
      ensures Founds(s', u)
    {
      assert Founds(s, u);
    }
    assert s.nextForm !in s.formed;
    assert s'.threads[t] == Acquire(Storm(id), Founder(id, s.nextForm)) && Founds(s', t) && Published(s', id);
    forall i | i in s.ready
      ensures Published(s', i) && s'.ready[i] == s.ready[i] < s.nextForm
    {
      assert Published(s, i);
    }
  }

  lemma FormationsClose(s: State, t: nat, key: Key, ch: nat, id: string, form: nat)
    requires Formations(s) && t in s.threads && s.threads[t] == Body(key, ch, Founder(id, form))
    ensures Formations(CloseForm(s, t, key, ch, id, form))
  {
    var s' := CloseForm(s, t, key, ch, id, form);
    assert Founds(s, t) && Published(s, id);
    forall u | u in s.threads && u != t
      ensures Founds(s', u)
    {
      assert Founds(s, u);
    }
    forall i | i in s.ready
      ensures Published(s', i)
    {
      assert Published(s, i);
    }
  }

  lemma FormationsDrop(s: State, t: nat, key: Key, ch: nat, id: string, form: nat)
    requires Formations(s) && t in s.threads && s.threads[t] == FormClosed(key, ch, id, form)
    ensures Formations(DropForm(s, t, key, ch, id))
  {
    var s' := DropForm(s, t, key, ch, id);
    assert Founds(s, t) && Published(s, id);
    forall u | u in s.threads && u != t
      ensures Founds(s', u)
    {
      assert Founds(s, u);
    }
    forall i | i in s'.ready
      ensures Published(s', i)
    {
      assert Published(s, i);
    }
  }

  lemma FormationsStep(s: State, t: nat, e: Event)
    requires Formations(s) && Enabled(s, t, e)
    ensures Formations(Apply(s, t, e))
  {
    if e.ReportFormed? {
      FormationsForm(s, t, e.id);
    } else if e.DropEntry? {
      var pc := s.threads[t];
      FormationsDrop(s, t, pc.key, pc.ch, pc.id, pc.form);
    } else if e.Finish? && s.threads[t].role.Founder? {
      var pc := s.threads[t];
      FormationsClose(s, t, pc.key, pc.ch, pc.role.id, pc.role.form);
    } else {
      OtherStepsKeepTables(s, t, e);
      OtherStepsKeepFounder(s, t, e);
      FormationsFrame(s, Apply(s, t, e), t);
    }
  }

  lemma MembersFrame(s: State, s': State, t: nat)
    requires Members(s) && t in s'.threads && s'.threads == s.threads[t := s'.threads[t]]
    requires s.formed <= s'.formed && Follows(s', s'.threads[t])
    requires forall id :: id in s.ready && s.ready[id] !in s.formed ==> id in s'.ready && s'.ready[id] == s.ready[id]
    ensures Members(s')
  {
    forall u | u in s'.threads && u != t
      ensures Follows(s', s'.threads[u])
    {
      assert Follows(s, s.threads[u]);
    }
  }

  /** Wherever a step takes a thread, it follows its founder there. */
  lemma FollowsStep(s: State, t: nat, e: Event)
    requires Enabled(s, t, e) && (t in s.threads ==> Follows(s, s.threads[t]))
    requires e.ReportAttached? && e.id !in s.ready ==> s.latest[e.id] in s.formed
    ensures Follows(Apply(s, t, e), Apply(s, t, e).threads[t])
  {
    match e {
      case Arrive(_) =>
      case ReportFormed(_) =>
      case ReportAttached(_) =>
      case FormReady =>
      case GiveUp =>
      case TryKey =>
      case Wake =>
      case Finish =>
      case DropEntry =>
      case Release =>
    }
  }

  /** Only t moves, and formations that are done stay done. */
  lemma OnlyOneMoves(s: State, t: nat, e: Event)
    requires Enabled(s, t, e)
    ensures var s' := Apply(s, t, e);
            t in s'.threads && s'.threads == s.threads[t := s'.threads[t]] && s.formed <= s'.formed
  {
    match e {
      case Arrive(_) =>
      case ReportFormed(_) =>
      case ReportAttached(_) =>
      case FormReady =>
      case GiveUp =>
      case TryKey =>
      case Wake =>
      case Finish =>
      case DropEntry =>
      case Release =>
    }
  }

  /** An entry whose formation is not done stays. */
  lemma EntryStays(s: State, t: nat, e: Event, id: string)
    requires Enabled(s, t, e) && id in s.ready && s.ready[id] !in s.formed
    requires e.DropEntry? ==> s.threads[t].id in s.ready && s.ready[s.threads[t].id] in s.formed
    ensures id in Apply(s, t, e).ready && Apply(s, t, e).ready[id] == s.ready[id]
  {
    match e {
      case Arrive(_) =>
      case ReportFormed(_) =>
      case ReportAttached(_) =>
      case FormReady =>
      case GiveUp =>
      case TryKey =>
      case Wake =>
      case Finish =>
      case DropEntry =>
      case Release =>
    }
  }

  lemma MembersStep(s: State, t: nat, e: Event)
    requires Formations(s) && Members(s) && Enabled(s, t, e)
    ensures Members(Apply(s, t, e))
  {
    if t in s.threads {
      assert Founds(s, t);
    }
    FollowsStep(s, t, e);
    assert e.DropEntry? ==> s.ready[s.threads[t].id] in s.formed;
    OnlyOneMoves(s, t, e);
    forall id | id in s.ready && s.ready[id] !in s.formed
      ensures id in Apply(s, t, e).ready && Apply(s, t, e).ready[id] == s.ready[id]
    {
      EntryStays(s, t, e, id);
    }
    MembersFrame(s, Apply(s, t, e), t);
  }

  // ----- Every run ---------------------------------------------------------

  lemma InvStep(s: State, t: nat, e: Event)
    requires Inv(s) && Enabled(s, t, e)
    ensures Inv(Apply(s, t, e))
  {
    LocksStep(s, t, e);
    WakeupStep(s, t, e);
    FormationsStep(s, t, e);
    MembersStep(s, t, e);
  }

  /** An interleaving: each step is some thread's, taken when it is enabled. */
  ghost predicate IsRun(states: seq<State>, steps: seq<(nat, Event)>) {
    && |states| == |steps| + 1 && states[0] == Initial()
    && forall i :: 0 <= i < |steps| ==>
         Enabled(states[i], steps[i].0, steps[i].1) && states[i + 1] == Apply(states[i], steps[i].0, steps[i].1)
  }

  lemma {:induction false} RunsKeepInv(states: seq<State>, steps: seq<(nat, Event)>, i: nat)
    requires IsRun(states, steps) && i < |states|
    ensures Inv(states[i])
  {
    if i > 0 {
      RunsKeepInv(states, steps, i - 1);
      InvStep(states[i - 1], steps[i - 1].0, steps[i - 1].1);
    }
  }

  /** In every interleaving at most one thread holds a key. */
  lemma MutualExclusion(states: seq<State>, steps: seq<(nat, Event)>, i: nat, t: nat, u: nat)
    requires IsRun(states, steps) && i < |states|
    requires t in states[i].threads && u in states[i].threads && Holds(states[i].threads[t]) && Holds(states[i].threads[u])
    requires states[i].threads[t].key == states[i].threads[u].key
    ensures t == u
  {
    RunsKeepInv(states, steps, i);
    assert Owns(states[i], t) && Owns(states[i], u);
  }

  /** A waiter's channel is closed already, or a holder is there to close it. */
  lemma WaitersAreWoken(states: seq<State>, steps: seq<(nat, Event)>, i: nat, t: nat)
    requires IsRun(states, steps) && i < |states|
    requires t in states[i].threads && states[i].threads[t].AwaitKey?
    ensures var s, pc := states[i], states[i].threads[t];
            || pc.ch in s.closed
            || exists u :: u in s.threads && Holds(s.threads[u]) && s.threads[u].key == pc.key && s.threads[u].ch == pc.ch
  {
    RunsKeepInv(states, steps, i);
    var s, pc := states[i], states[i].threads[t];
    if pc.ch !in s.closed {
      assert Owned(s, pc.key);
      var u := s.owner[pc.key];
      assert Owns(s, u);
    }
  }

  /** A closed formation channel was closed by its founder's finished open. */
  lemma {:induction false} FormedWasFinished(states: seq<State>, steps: seq<(nat, Event)>, i: nat, form: nat)
    requires IsRun(states, steps) && i < |states| && form in states[i].formed
    ensures exists j :: 0 <= j < i && FinishesForm(states[j], steps[j].0, steps[j].1, form)
  {
    var s, t, e := states[i - 1], steps[i - 1].0, steps[i - 1].1;
    if form in s.formed {
      FormedWasFinished(states, steps, i - 1, form);
      var j :| 0 <= j < i - 1 && FinishesForm(states[j], steps[j].0, steps[j].1, form);
    } else {
      OnlyFoundersForm(s, t, e, form);
    }
  }

  lemma OnlyFoundersForm(s: State, t: nat, e: Event, form: nat)
    requires Enabled(s, t, e) && form !in s.formed && form in Apply(s, t, e).formed
    ensures FinishesForm(s, t, e, form)
  {
  }

  /** The step ends the body of the founder that published form. */
  ghost predicate FinishesForm(s: State, t: nat, e: Event, form: nat) {
    && e.Finish? && t in s.threads && s.threads[t].Body?
    && s.threads[t].role.Founder? && s.threads[t].role.form == form
  }

  /** The barrier: in every interleaving a member's body runs only after its
      founder's finished, and never beside another body of the same storm. */
  lemma StormBarrier(states: seq<State>, steps: seq<(nat, Event)>, i: nat, t: nat)
    requires IsRun(states, steps) && i < |states|
    requires t in states[i].threads && states[i].threads[t].Body? && states[i].threads[t].role.Member?
    ensures var pc := states[i].threads[t];
            && (exists j :: 0 <= j < i && FinishesForm(states[j], steps[j].0, steps[j].1, pc.role.form))
            && forall u :: u in states[i].threads && Holds(states[i].threads[u]) && states[i].threads[u].key == Storm(pc.role.id) ==> u == t
  {
    RunsKeepInv(states, steps, i);
    var s, pc := states[i], states[i].threads[t];
    assert Follows(s, pc);
    FormedWasFinished(states, steps, i, pc.role.form);
    forall u | u in s.threads && Holds(s.threads[u]) && s.threads[u].key == Storm(pc.role.id)
      ensures u == t
    {
      MutualExclusion(states, steps, i, t, u);
    }
  }

  // ----- No deadlock -------------------------------------------------------

  /** A thread that holds a key, or is about to look at the table, can move. */
  lemma BusyCanMove(s: State, t: nat) returns (e: Event)
    requires t in s.threads && (Holds(s.threads[t]) || s.threads[t].Acquire?)
    ensures Enabled(s, t, e) && !e.GiveUp?
  {
    e := match s.threads[t]
      case Acquire(_, _) => TryKey
      case Body(_, _, _) => Finish
      case FormClosed(_, _, _, _) => DropEntry
      case _ => Release;
  }

  lemma KeyWaitersAreNotStuck(s: State, t: nat) returns (u: nat, e: Event)
    requires Inv(s) && t in s.threads && s.threads[t].AwaitKey?
    ensures u in s.threads && Enabled(s, u, e) && !e.GiveUp?
  {
    var pc := s.threads[t];
    if pc.ch in s.closed {
      u, e := t, Wake;
    } else {
      assert Owned(s, pc.key);
      u := s.owner[pc.key];
      e := BusyCanMove(s, u);
    }
  }

  /** While any thread is unfinished, some thread can move, without relying on
      a context to end. */
  lemma NoDeadlock(s: State, t: nat) returns (u: nat, e: Event)
    requires Inv(s) && t in s.threads && !s.threads[t].Done?
    ensures u in s.threads && Enabled(s, u, e) && !e.GiveUp?
  {
    var pc := s.threads[t];
    if pc.AwaitKey? {
      u, e := KeyWaitersAreNotStuck(s, t);
    } else if pc.AwaitForm? {
      assert Follows(s, pc);
      if pc.form in s.formed {
        u, e := t, FormReady;
      } else {
        assert Published(s, pc.id);
        u := s.founder[pc.id];
        if s.threads[u].AwaitKey? {
          u, e := KeyWaitersAreNotStuck(s, u);
        } else {
          e := BusyCanMove(s, u);
        }
      }
    } else {
      u := t;
      e := BusyCanMove(s, t);
    }
  }

  // ----- The table ---------------------------------------------------------

  /** What acquireKey hands back: the key to release, once. */
  class Token {
    const key: Key
    const ch: nat
    var done: bool

    constructor (key: Key, ch: nat)
      ensures this.key == key && this.ch == ch && !done
    {
      this.key, this.ch, done := key, ch, false;
    }
  }

  class Table {
    var inflight: map<Key, nat>
    var closed: set<nat>
    var next: nat
    /** Every token handed out. */
    ghost var tokens: set<Token>

    /** The table's entry is this token's own. */
    ghost predicate Live(token: Token)
      reads this, token
    {
      token.key in inflight && inflight[token.key] == token.ch
    }

    /** A token is good for its entry until it is released, and for no entry
        afterwards. */
    ghost predicate Valid()
      reads this, tokens
    {
      && (forall k :: k in inflight ==> inflight[k] < next && inflight[k] !in closed)
      && (forall k, l :: k in inflight && l in inflight && k != l ==> inflight[k] != inflight[l])
      && (forall c :: c in closed ==> c < next)
      && (forall token :: token in tokens ==> token.ch < next && (Live(token) <==> !token.done))
      && (forall a, b :: a in tokens && b in tokens && a != b ==> a.ch != b.ch)
    }

    constructor ()
      ensures Valid() && inflight == map[] && closed == {} && tokens == {}
    {
      inflight, closed, next, tokens := map[], {}, 0, {};
    }

    /** One turn of the acquire loop: the key with a new open channel, or the
        holder's channel to wait on. */
    method TryAcquire(key: Key) returns (token: Token?, wait: nat)
      requires Valid()
      modifies this
      ensures Valid() && closed == old(closed)
      ensures key in old(inflight) ==>
                token == null && inflight == old(inflight) && tokens == old(tokens) && wait == inflight[key]
      ensures key !in old(inflight) ==>
                && token != null && fresh(token) && token.key == key && !token.done && tokens == old(tokens) + {token}
                && inflight == old(inflight)[key := token.ch] && token.ch !in closed
    {
      if key in inflight {
        return null, inflight[key];
      }
      token := new Token(key, next);
      inflight := inflight[key := next];
      next, wait, tokens := next + 1, 0, tokens + {token};
    }

    /** Frees the key and closes its channel, the first time only. However often
        it is called, every other token that is live stays so. */
    method Release(token: Token)
      requires Valid() && token in tokens
      modifies this, token
      ensures Valid() && token.done && tokens == old(tokens)
      ensures forall other :: other in tokens && other != token ==> other.done == old(other.done)
      ensures old(token.done) ==> inflight == old(inflight) && closed == old(closed)
      ensures !old(token.done) ==> inflight == old(inflight) - {token.key} && closed == old(closed) + {token.ch}
    {
      if token.done {
        return;
      }
      token.done := true;
      inflight := inflight - {token.key};
      closed := closed + {token.ch};
    }

    /** A key is released, taken by another, and released again by the first: the
        later holder keeps it. */
    method ReleaseTwice(first: Token) returns (later: Token?)
      requires Valid() && first in tokens && !first.done
      modifies this, first
      ensures Valid() && later != null && later in tokens && later.key == first.key && !later.done && Live(later)
    {
      Release(first);
      var wait;
      later, wait := TryAcquire(first.key);
      Release(first);
    }
  }
}
