/**
 The turn lock of a conversation and the table it comes from. Two turns of one process and conversation
 exclude each other as long as the table keeps the entries of the locks in use; a lock that is waited for
 but for the moment not locked can be dropped from it, and a run that gets there is built below.
 */
module RunnerLocks {
  import opened Prelude
  import opened LockTable
  import opened RunnerSteps
  import opened RunnerResources

  // ---- while the locks in use stay in the table ----

  predicate InUse(w: Worker) {
    w.lock.Some? && w.task.conv.Some? && (HoldsLock(w) || w.pc.AwaitLock?)
  }

  /** The lock a coroutine holds or waits for is what its process's table has for the conversation. */
  ghost predicate EntryOf(runners: map<nat, Runner>, w: Worker)
    requires InUse(w)
  {
    w.inst in runners && Maps(runners[w.inst].table, w.task.conv.value, w.lock.value)
  }

  ghost predicate Entered(s: World) {
    forall w | w in s.workers && InUse(s.workers[w]) :: EntryOf(s.runners, s.workers[w])
  }

  /** The start of a turn whose eviction loop reaches the entry of a lock in use. */
  ghost predicate EvictsInUse(s: World, st: Step) {
    && st.Queue? && st.q.Begin? && st.w in s.workers && s.workers[st.w].inst in s.runners
    && s.workers[st.w].task.conv.Some?
    && var i := s.workers[st.w].inst;
       var m := Touched(s.runners[i].table, s.workers[st.w].task.conv.value, s.nextLock);
       ReachesInUse(s.workers, i, m, LockedOnes(s))
  }

  ghost predicate ReachesInUse(workers: map<nat, Worker>, i: nat, m: Table<nat>, locked: set<nat>) {
    exists v :: v in workers && InUse(workers[v]) && workers[v].inst == i && ReachesEntry(workers[v], m, locked)
  }

  ghost predicate ReachesEntry(w: Worker, m: Table<nat>, locked: set<nat>)
    requires InUse(w)
  {
    exists k :: 0 <= k < |m| && m[k] == (w.task.conv.value, w.lock.value) && Reached(m, locked, CONV_LOCK_MAX, k)
  }

  ghost predicate SameTables(s: World, s': World) {
    forall i | i in s.runners :: i in s'.runners && s'.runners[i].table == s.runners[i].table
  }

  /** The tables are left alone and no other lock is put in use. */
  ghost predicate UseKept(s: World, s': World) {
    && SameTables(s, s')
    && forall w | w in s'.workers && InUse(s'.workers[w]) ::
         w in s.workers && InUse(s.workers[w]) && s'.workers[w].inst == s.workers[w].inst
         && s'.workers[w].task == s.workers[w].task && s'.workers[w].lock == s.workers[w].lock
  }

  lemma EnteredKept(s: World, s': World)
    requires Entered(s) && UseKept(s, s')
    ensures Entered(s')
  {
    forall w | w in s'.workers && InUse(s'.workers[w]) ensures EntryOf(s'.runners, s'.workers[w]) {
      assert EntryOf(s.runners, s.workers[w]);
    }
  }

  lemma GotoKeepsUse(s: World, s1: World, w: nat, pc: Pc)
    requires w in s.workers && s1.workers == s.workers && SameTables(s, s1)
    requires InUse(s.workers[w].(pc := pc)) ==> InUse(s.workers[w])
    ensures UseKept(s, Goto(s1, w, pc))
  {
  }

  /** Which entries of the table a lookup leaves. */
  lemma EntryStaysIff(t: Table<nat>, conv: string, made: nat, locked: set<nat>, w: Worker)
    requires Distinct(t) && InUse(w) && Maps(t, w.task.conv.value, w.lock.value)
    ensures Maps(AfterLookup(t, conv, made, locked, CONV_LOCK_MAX), w.task.conv.value, w.lock.value)
            <==> !ReachesEntry(w, Touched(t, conv, made), locked)
  {
    var m := Touched(t, conv, made);
    TouchedKeepsEntries(t, conv, made);
    hide Touched;
    var k :| 0 <= k < |m| && m[k] == (w.task.conv.value, w.lock.value);
    DroppedIffReached(m, locked, CONV_LOCK_MAX, k);
    DroppedEntryIsGone(m, Evicted(m, locked, CONV_LOCK_MAX), k);
    assert forall j :: 0 <= j < |m| && m[j] == m[k] ==> j == k;
  }

  /** What the start of a turn does to the coroutines and the tables. */
  lemma BeginEffect(s: World, w: nat, conv: string)
    requires w in s.workers && s.workers[w].inst in s.runners && s.workers[w].task.conv == Some(conv)
    requires s.workers[w].pc.Created?
    ensures var s' := BeginTurn(s, w); var i := s.workers[w].inst; var t := s.runners[i].table;
      && s'.runners == s.runners[i := s.runners[i].(table := AfterLookup(t, conv, s.nextLock, LockedOnes(s), CONV_LOCK_MAX))]
      && w in s'.workers && s'.workers == s.workers[w := s'.workers[w]] && InUse(s'.workers[w])
      && s'.workers[w].inst == i && s'.workers[w].task == s.workers[w].task
      && s'.workers[w].lock == Some(LockFor(t, conv, s.nextLock))
  {
    hide AfterLookup, LockFor;
  }

  lemma BeginStaysIff(s: World, w: nat)
    requires Inv(s) && Entered(s) && w in s.workers && QueueEnabled(s, w, Begin)
    ensures Entered(BeginTurn(s, w)) <==> !EvictsInUse(s, Queue(w, Begin))
  {
    match s.workers[w].task.conv
    case None =>
      hide UseKept, Entered;
      GotoKeepsUse(s, s, w, AwaitSlot);
      EnteredKept(s, BeginTurn(s, w));
    case Some(conv) =>
      assert TableOk(s.runners[s.workers[w].inst].table, s.locks.Keys) && !InUse(s.workers[w]);
      hide Inv;
      BeginnerIsEntered(s, w, conv);
      BeginEffect(s, w, conv);
      hide BeginTurn, AfterLookup, LockFor, Touched, InUse, Entered, LockedOnes, ReachesInUse;
      TurnStaysIff(s, BeginTurn(s, w), w, conv);
  }

  lemma TurnStaysIff(s: World, s': World, w: nat, conv: string)
    requires Entered(s) && w in s.workers && s.workers[w].inst in s.runners && !InUse(s.workers[w])
    requires Distinct(s.runners[s.workers[w].inst].table)
    requires w in s'.workers && s'.workers == s.workers[w := s'.workers[w]]
    requires InUse(s'.workers[w]) && EntryOf(s'.runners, s'.workers[w])
    requires var i := s.workers[w].inst;
      s'.runners == s.runners[i := s.runners[i].(table :=
                                 AfterLookup(s.runners[i].table, conv, s.nextLock, LockedOnes(s), CONV_LOCK_MAX))]
    ensures var i := s.workers[w].inst;
      Entered(s') <==> !ReachesInUse(s.workers, i, Touched(s.runners[i].table, conv, s.nextLock), LockedOnes(s))
  {
    var i := s.workers[w].inst;
    var m := Touched(s.runners[i].table, conv, s.nextLock);
    var locked := LockedOnes(s);
    forall v | v in s.workers && InUse(s.workers[v])
      ensures EntryOf(s'.runners, s.workers[v]) <==> !(s.workers[v].inst == i && ReachesEntry(s.workers[v], m, locked))
    {
      hide AfterLookup, Touched, LockedOnes, ReachesEntry;
      OtherEntry(s, s', i, conv, s.workers[v]);
    }
    hide *;
    EnteredIffOthers(s, s', w, i, m, locked);
  }

  lemma EnteredIffOthers(s: World, s': World, w: nat, i: nat, m: Table<nat>, locked: set<nat>)
    requires w in s.workers && !InUse(s.workers[w]) && s'.workers.Keys == s.workers.Keys
    requires InUse(s'.workers[w]) ==> EntryOf(s'.runners, s'.workers[w])
    requires forall v | v in s.workers && v != w :: s'.workers[v] == s.workers[v]
    requires forall v | v in s.workers && InUse(s.workers[v]) ::
      EntryOf(s'.runners, s.workers[v]) <==> !(s.workers[v].inst == i && ReachesEntry(s.workers[v], m, locked))
    ensures Entered(s') <==> !ReachesInUse(s.workers, i, m, locked)
  {
    hide EntryOf, ReachesEntry, InUse;
    if ReachesInUse(s.workers, i, m, locked) {
      var v :| v in s.workers && InUse(s.workers[v]) && s.workers[v].inst == i && ReachesEntry(s.workers[v], m, locked);
      assert v != w && !EntryOf(s'.runners, s'.workers[v]);
    }
  }

  lemma BeginnerIsEntered(s: World, w: nat, conv: string)
    requires w in s.workers && QueueEnabled(s, w, Begin) && s.workers[w].task.conv == Some(conv)
    requires Distinct(s.runners[s.workers[w].inst].table)
    ensures var s' := BeginTurn(s, w); w in s'.workers && InUse(s'.workers[w]) && EntryOf(s'.runners, s'.workers[w])
  {
    var s' := BeginTurn(s, w);
    var i := s.workers[w].inst;
    var t := s.runners[i].table;
    BeginEffect(s, w, conv);
    LookupSpec(t, conv, s.nextLock, LockedOnes(s), CONV_LOCK_MAX);
    hide BeginTurn, AfterLookup, LockFor, Distinct, LockedOnes, InUse, Maps;
    assert s'.runners[i].table == AfterLookup(t, conv, s.nextLock, LockedOnes(s), CONV_LOCK_MAX);
    assert Maps(s'.runners[i].table, conv, LockFor(t, conv, s.nextLock));
  }

  lemma OtherEntry(s: World, s': World, i: nat, conv: string, v: Worker)
    requires InUse(v) && EntryOf(s.runners, v) && i in s.runners && Distinct(s.runners[i].table)
    requires s'.runners == s.runners[i := s.runners[i].(table :=
                                      AfterLookup(s.runners[i].table, conv, s.nextLock, LockedOnes(s), CONV_LOCK_MAX))]
    ensures EntryOf(s'.runners, v)
            <==> !(v.inst == i && ReachesEntry(v, Touched(s.runners[i].table, conv, s.nextLock), LockedOnes(s)))
  {
    if v.inst == i {
      EntryStaysIff(s.runners[i].table, conv, s.nextLock, LockedOnes(s), v);
    }
    hide ReachesEntry, AfterLookup, Touched;
  }

  /** Every step keeps the locks in use in their tables, except one whose eviction loop reaches such a lock. */
  lemma EnteredStaysIff(s: World, st: Step)
    requires Inv(s) && Entered(s) && Enabled(s, st)
    ensures Entered(Next(s, st)) <==> !EvictsInUse(s, st)
  {
    if st.Queue? && st.q.Begin? {
      BeginStaysIff(s, st.w);
    } else {
      OtherKeepsEntered(s, st);
    }
  }

  lemma OtherKeepsEntered(s: World, st: Step)
    requires Inv(s) && Entered(s) && Enabled(s, st) && !(st.Queue? && st.q.Begin?)
    ensures Entered(Next(s, st))
  {
    hide Entered, UseKept, StreamNext, QueueNext, HandleNext, LeaveNext;
    match st {
      case Stream(e) => StreamKeepsUse(s, e);
      case Queue(w, q) => QueueKeepsUse(s, w, q);
      case Handle(w, h) => HandleKeepsUse(s, w, h);
      case Leave(w, l) => LeaveKeepsUse(s, w, l);
    }
    EnteredKept(s, Next(s, st));
  }

  lemma StreamKeepsUse(s: World, e: StreamStep)
    requires Inv(s) && StreamEnabled(s, e)
    ensures UseKept(s, StreamNext(s, e))
  {
    hide Inv;
    match e {
      case Start(_) =>
      case _ =>
    }
  }

  lemma QueueKeepsUse(s: World, w: nat, q: QueueStep)
    requires w in s.workers && QueueEnabled(s, w, q) && !q.Begin?
    ensures UseKept(s, QueueNext(s, w, q))
  {
    hide UseKept;
    match q
    case Wake =>
      var l := s.workers[w].lock.value;
      GotoKeepsUse(s, s.(locks := s.locks[l := TurnLock(true, s.locks[l].waiters[1..])]), w, PollLease(s.now + CONV_LOCK_TTL));
    case Poll => PollKeepsUse(s, w);
    case PushBack(ok) => GotoKeepsUse(s, AppendOrLose(s, s.workers[w].task, ok), w, Requeued);
    case GiveUp => GotoKeepsUse(s, ReleaseTurnLock(s, w), w, Gone);
  }

  lemma PollKeepsUse(s: World, w: nat)
    requires w in s.workers && QueueEnabled(s, w, Poll)
    ensures UseKept(s, PollOnce(s, w))
  {
    var wk := s.workers[w];
    if s.runners[wk.inst].shutdown {
      GotoKeepsUse(s, s, w, Requeue);
    } else if !Live(s, wk.task.conv.value) {
      assert Leased(s, w, wk.task.conv.value).workers.Keys == s.workers.Keys;
    } else if s.now >= wk.pc.deadline {
      GotoKeepsUse(s, s, w, Requeue);
    }
    hide Live, Goto;
  }

  lemma HandleKeepsUse(s: World, w: nat, h: HandleStep)
    requires w in s.workers && HandleEnabled(s, w, h)
    ensures UseKept(s, HandleNext(s, w, h))
  {
    var t := s.workers[w].task;
    hide UseKept, Closed, TookSlot, StreamingSet, PushedRetry, PushedDead;
    match h
    case TakeSlot =>
      TakeSlotKeepsUse(s, w);
    case SetStreaming(on) => SetStreamingKeepsUse(s, t.msg.value, on);
    case Succeed => GotoKeepsUse(s, s.(finished := s.finished + [t]), w, Leaving(0));
    case Fail => GotoKeepsUse(s, s, w, Failed(s, w).workers[w].pc);
    case PushRetry(ok) => PushRetryKeepsUse(s, w, ok);
    case PushDead(ok) => PushDeadKeepsUse(s, w, ok);
    case Mark(ok) =>
      ClosedIsLocal(s, t, ok);
      GotoKeepsUse(s, Closed(s, t, ok), w, Leaving(0));
  }

  lemma TakeSlotKeepsUse(s: World, w: nat)
    requires w in s.workers && HandleEnabled(s, w, TakeSlot)
    ensures UseKept(s, TookSlot(s, w))
  {
    var s1 := MoveSlot(s, s.workers[w].inst, -1);
    hide UseKept;
    GotoKeepsUse(s, s1.(executed := s1.executed + multiset{s.workers[w].task.id}), w, Handling);
  }

  lemma PushRetryKeepsUse(s: World, w: nat, ok: bool)
    requires w in s.workers && s.workers[w].pc.RetryAppend?
    ensures UseKept(s, PushedRetry(s, w, ok))
  {
    var t := s.workers[w].task;
    hide UseKept;
    GotoKeepsUse(s, AppendOrLose(s, t.(attempt := t.attempt + 1), ok), w, Leaving(RetryDelay(t.attempt + 1)));
  }

  lemma PushDeadKeepsUse(s: World, w: nat, ok: bool)
    requires w in s.workers && s.workers[w].pc.DeadAppend?
    ensures UseKept(s, PushedDead(s, w, ok))
  {
    var t := s.workers[w].task;
    hide UseKept;
    GotoKeepsUse(s, if ok then s.(dead := s.dead + [t]) else s.(lost := s.lost + [t]), w, Marking);
  }

  lemma SetStreamingKeepsUse(s: World, m: nat, on: bool)
    ensures UseKept(s, StreamingSet(s, m, on))
  {
  }

  lemma LeaveKeepsUse(s: World, w: nat, l: LeaveStep)
    requires w in s.workers && LeaveEnabled(s, w, l)
    ensures UseKept(s, LeaveNext(s, w, l))
  {
    hide UseKept;
    match l
    case LeaveSlot =>
      var delay := s.workers[w].pc.delay;
      GotoKeepsUse(s, MoveSlot(s, s.workers[w].inst, 1), w, AfterSlot(s, w, delay));
    case Release =>
      GotoKeepsUse(s, CompareAndDelete(s, s.workers[w].task.conv.value, w), w, Unlocking(s.workers[w].pc.delay));
    case Unlock => GotoKeepsUse(s, ReleaseTurnLock(s, w), w, Asleep(s, s.workers[w].pc.delay));
    case SleepOver => GotoKeepsUse(s, s, w, Gone);
  }

  ghost predicate NeverEvictsInUse(s: World, steps: seq<Step>)
    requires CanRun(s, steps)
    decreases steps
  {
    steps == [] || (!EvictsInUse(s, steps[0]) && NeverEvictsInUse(Next(s, steps[0]), steps[1..]))
  }

  lemma {:induction false} RunStaysEntered(s: World, steps: seq<Step>)
    requires Inv(s) && Entered(s) && CanRun(s, steps) && NeverEvictsInUse(s, steps)
    ensures Entered(After(s, steps))
    decreases steps
  {
    if steps != [] {
      hide Inv, Entered, Enabled, Next, EvictsInUse;
      StepKeepsInv(s, steps[0]);
      EnteredStaysIff(s, steps[0]);
      RunStaysEntered(Next(s, steps[0]), steps[1..]);
    }
  }

  /** Then a process never runs two turns of one conversation at once, nor lets them wait for different locks. */
  lemma OneTurnPerConversation(s: World, v: nat, w: nat)
    requires Reachable(s) && Entered(s) && v in s.workers && w in s.workers
    requires InUse(s.workers[v]) && InUse(s.workers[w])
    requires s.workers[v].inst == s.workers[w].inst && s.workers[v].task.conv == s.workers[w].task.conv
    ensures s.workers[v].lock == s.workers[w].lock
    ensures HoldsLock(s.workers[v]) && HoldsLock(s.workers[w]) ==> v == w
  {
    ReachableInv(s);
    assert EntryOf(s.runners, s.workers[v]) && EntryOf(s.runners, s.workers[w]);
    var t := s.runners[s.workers[v].inst].table;
    assert TableOk(t, s.locks.Keys);
    LockForIsEntry(t, s.workers[v].task.conv.value, s.workers[v].lock.value, 0);
    LockForIsEntry(t, s.workers[w].task.conv.value, s.workers[w].lock.value, 0);
  }

  /** In every run from an initial world without such a lookup, the turns of one process and conversation exclude each other. */
  lemma TurnsExcludeEachOther(s0: World, steps: seq<Step>, v: nat, w: nat)
    requires Initial(s0) && CanRun(s0, steps) && NeverEvictsInUse(s0, steps)
    requires var s := After(s0, steps); v in s.workers && w in s.workers && InUse(s.workers[v]) && InUse(s.workers[w])
    requires var s := After(s0, steps);
      && s.workers[v].inst == s.workers[w].inst && s.workers[v].task.conv == s.workers[w].task.conv
      && HoldsLock(s.workers[v]) && HoldsLock(s.workers[w])
    ensures v == w
  {
    hide CanRun, After, NeverEvictsInUse, InUse, HoldsLock;
    assert Reachable(s0) by { StartIsReachable(s0); }
    ReachableInv(s0);
    RunStaysEntered(s0, steps);
    assert Reachable(After(s0, steps));
    OneTurnPerConversation(After(s0, steps), v, w);
  }

  lemma StartIsReachable(s: World)
    requires Initial(s)
    ensures Reachable(s)
  {
    assert CanRun(s, []) && After(s, []) == s;
  }

  // ---- a run that evicts a lock in use ----

  lemma {:induction false} AfterOneMore(s: World, steps: seq<Step>, st: Step)
    requires CanRun(s, steps) && Enabled(After(s, steps), st)
    ensures CanRun(s, steps + [st]) && After(s, steps + [st]) == Next(After(s, steps), st)
    decreases steps
  {
    hide Enabled, Next;
    if steps == [] {
      assert [] + [st] == [st] && [st][1..] == [];
    } else {
      assert (steps + [st])[1..] == steps[1..] + [st];
      AfterOneMore(Next(s, steps[0]), steps[1..], st);
    }
  }

  lemma StepReaches(s: World, st: Step)
    requires Reachable(s) && Enabled(s, st)
    ensures Reachable(Next(s, st))
  {
    var s0, steps :| Initial(s0) && CanRun(s0, steps) && After(s0, steps) == s;
    AfterOneMore(s0, steps, st);
  }

  /** Process 0 is running and the ids used so far are smaller than the next one. */
  ghost predicate Ready(s: World) {
    && Reachable(s) && 0 in s.runners && !s.runners[0].shutdown
    && forall id | id in s.issued :: id < s.nextEntry
  }

  function Newcomer(s: World, conv: string): Worker {
    Worker(0, Task(s.nextEntry, Some(conv), None, 0), Created, None, 0)
  }

  /** A task of the conversation is submitted, delivered to process 0 and given its coroutine. */
  lemma Arrives(s: World, conv: string) returns (s': World)
    requires Ready(s)
    ensures Ready(s') && s'.workers == s.workers[s.nextWorker := Newcomer(s, conv)]
    ensures s'.nextWorker == s.nextWorker + 1 && s'.now == s.now && s'.leases == s.leases
    ensures s'.runners == s.runners && s'.locks == s.locks && s'.nextLock == s.nextLock
  {
    var e := s.nextEntry;
    var t := Task(e, Some(conv), None, 0);
    StepReaches(s, Stream(Submit(t, false)));
    var s1 := Submitted(s, t, false);
    StepReaches(s1, Stream(Deliver(e, 0)));
    var s2 := Delivered(s1, e, 0);
    StepReaches(s2, Stream(Start(e)));
    s' := Started(s2, e);
    hide Reachable;
  }

  /** Coroutine `w` began a turn of the conversation in process 0, and took its lock or queued up for it. */
  ghost predicate Joined(s: World, s': World, w: nat, conv: string) {
    && 0 in s.runners && 0 in s'.runners && w in s'.workers && w !in s.workers
    && var t := s.runners[0].table; var l := LockFor(t, conv, s.nextLock);
       && s'.runners[0].table == AfterLookup(t, conv, s.nextLock, LockedOnes(s), CONV_LOCK_MAX)
       && s'.runners[0].freeSlots == s.runners[0].freeSlots && s'.leases == s.leases && s'.nextLock == s.nextLock + 1
       && s'.workers == s.workers[w := s'.workers[w]]
       && s'.workers[w].inst == 0 && s'.workers[w].task.conv == Some(conv) && s'.workers[w].lock == Some(l)
       && (l !in s.locks ==> s'.workers[w].pc.PollLease? && s'.locks == s.locks[l := TurnLock(true, [])])
       && (l in s.locks && s.locks[l].locked ==>
             s'.workers[w].pc.AwaitLock? && s'.locks == s.locks[l := s.locks[l].(waiters := s.locks[l].waiters + [w])])
  }

  lemma Joins(s: World, conv: string) returns (s': World, w: nat)
    requires Ready(s)
    ensures Ready(s') && w == s.nextWorker && s'.nextWorker == w + 1 && Joined(s, s', w, conv)
  {
    hide Reachable, AfterLookup, LockFor, LockedOnes, BeginTurn;
    FreshWorker(s);
    w := s.nextWorker;
    var s1 := Arrives(s, conv);
    SameLocked(s, s1);
    BeginReaches(s1, w);
    s' := BeginTurn(s1, w);
    BeginJoins(s1, w, conv);
  }

  lemma FreshWorker(s: World)
    requires Reachable(s)
    ensures s.nextWorker !in s.workers
  {
    ReachableInv(s);
  }

  lemma SameLocked(s: World, s1: World)
    requires s1.locks == s.locks
    ensures LockedOnes(s1) == LockedOnes(s)
  {
  }

  lemma BeginReaches(s: World, w: nat)
    requires Reachable(s) && w in s.workers && QueueEnabled(s, w, Begin)
    ensures Reachable(BeginTurn(s, w))
  {
    StepReaches(s, Queue(w, Begin));
    hide Reachable, BeginTurn;
  }

  lemma BeginJoins(s: World, w: nat, conv: string)
    requires w in s.workers && s.workers[w].pc.Created? && s.workers[w].inst == 0 && s.workers[w].task.conv == Some(conv)
    requires 0 in s.runners
    ensures var s' := BeginTurn(s, w); var t := s.runners[0].table; var l := LockFor(t, conv, s.nextLock);
      && s'.runners == s.runners[0 := s.runners[0].(table := AfterLookup(t, conv, s.nextLock, LockedOnes(s), CONV_LOCK_MAX))]
      && s'.leases == s.leases && s'.nextLock == s.nextLock + 1 && s'.nextWorker == s.nextWorker
      && s'.issued == s.issued && s'.nextEntry == s.nextEntry
      && s'.workers == s.workers[w := s'.workers[w]] && s'.workers[w].lock == Some(l)
      && s'.workers[w].inst == 0 && s'.workers[w].task == s.workers[w].task
      && (l !in s.locks ==> s'.workers[w].pc.PollLease? && s'.locks == s.locks[l := TurnLock(true, [])])
      && (l in s.locks && s.locks[l].locked ==>
            s'.workers[w].pc.AwaitLock? && s'.locks == s.locks[l := s.locks[l].(waiters := s.locks[l].waiters + [w])])
  {
    hide AfterLookup, LockFor, LockedOnes;
    var s1 := LookedUp(s, 0, conv);
    var l := LockFor(s.runners[0].table, conv, s.nextLock);
    assert BeginTurn(s, w) == JoinTurn(s1, w, l) && s1.locks == s.locks && s1.workers == s.workers;
    JoinEffect(s1, w, l);
    hide BeginTurn, JoinTurn;
  }

  lemma JoinEffect(s: World, w: nat, l: nat)
    requires w in s.workers
    ensures var s' := JoinTurn(s, w, l);
      && s'.runners == s.runners && s'.leases == s.leases && s'.nextLock == s.nextLock && s'.nextWorker == s.nextWorker
      && s'.issued == s.issued && s'.nextEntry == s.nextEntry
      && w in s'.workers && s'.workers == s.workers[w := s'.workers[w]] && s'.workers[w].lock == Some(l)
      && s'.workers[w].inst == s.workers[w].inst && s'.workers[w].task == s.workers[w].task
      && (l !in s.locks ==> s'.workers[w].pc.PollLease? && s'.locks == s.locks[l := TurnLock(true, [])])
      && (l in s.locks && s.locks[l].locked ==>
            s'.workers[w].pc.AwaitLock? && s'.locks == s.locks[l := s.locks[l].(waiters := s.locks[l].waiters + [w])])
  {
  }

  function Name(k: nat): string {
    seq(k + 1, _ => 'c')
  }

  /** Process 0 has looked up conversations `Name(0)` to `Name(n)`; the first has a holder and a waiter. */
  ghost predicate Crowd(s: World, n: nat, held: bool) {
    && Ready(s) && s.leases == map[] && s.runners[0].freeSlots == MAX_CONCURRENT
    && FirstConversation(s, held)
    && var t := s.runners[0].table;
       |t| == n + 1 && t[0].1 == 0 && forall k | 0 <= k <= n :: t[k].0 == Name(k)
  }

  ghost predicate FirstConversation(s: World, held: bool) {
    && 0 in s.locks && s.locks[0] == TurnLock(held, [1])
    && 1 in s.workers && s.workers[1].inst == 0 && s.workers[1].task.conv == Some(Name(0))
    && s.workers[1].lock == Some(0) && s.workers[1].pc.AwaitLock?
    && (held ==> 0 in s.workers && s.workers[0].inst == 0 && s.workers[0].task.conv == Some(Name(0))
                 && s.workers[0].lock == Some(0) && s.workers[0].pc.PollLease?)
  }

  lemma FirstTwo() returns (s: World)
    ensures Crowd(s, 0, true)
  {
    var s0 := World(0, map[], map[], map[], 0, map[], 0, [], [], [], multiset{}, map[],
                    map[0 := Runner(false, MAX_CONCURRENT, [])], map[], 0, {}, {});
    assert Initial(s0) && CanRun(s0, []) && After(s0, []) == s0;
    assert Ready(s0);
    var s1, v := Joins(s0, Name(0));
    s := SecondJoins(s0, s1);
  }

  /** The first two lookups of one conversation. */
  lemma FirstLookups(t: Table<nat>, conv: string, made: nat, locked: set<nat>)
    requires t == [] || t == [(conv, 0)]
    ensures LockFor(t, conv, made) == if t == [] then made else 0
    ensures AfterLookup(t, conv, made, locked, CONV_LOCK_MAX) == [(conv, if t == [] then made else 0)]
  {
  }

  lemma SecondJoins(s0: World, s1: World) returns (s: World)
    requires Ready(s1) && Joined(s0, s1, 0, Name(0)) && s1.nextWorker == 1
    requires s0.runners[0] == Runner(false, MAX_CONCURRENT, [])
    requires s0.locks == map[] && s0.leases == map[] && s0.nextLock == 0 && s0.workers == map[]
    ensures Crowd(s, 0, true)
  {
    hide Name, AfterLookup, LockFor, LockedOnes, Reachable;
    FirstLookups([], Name(0), 0, LockedOnes(s0));
    FirstLookups([(Name(0), 0)], Name(0), 1, LockedOnes(s1));
    assert s1.runners[0].table == [(Name(0), 0)] && s1.locks == map[0 := TurnLock(true, [])];
    var w;
    s, w := Joins(s1, Name(0));
    hide Ready;
    assert s.runners[0].table == [(Name(0), 0)];
  }

  lemma NewName(t: Table<nat>, n: nat)
    requires |t| == n + 1 && forall k | 0 <= k <= n :: t[k].0 == Name(k)
    ensures Find(t, Name(n + 1)).None? && Touched(t, Name(n + 1), 0) == t + [(Name(n + 1), 0)]
  {
    forall k | 0 <= k <= n ensures t[k].0 != Name(n + 1) {
      assert |t[k].0| == k + 1 && |Name(n + 1)| == n + 2;
    }
  }

  lemma AnotherJoins(s: World, n: nat) returns (s': World)
    requires Crowd(s, n, true) && n + 1 < CONV_LOCK_MAX
    ensures Crowd(s', n + 1, true)
  {
    var t := s.runners[0].table;
    NewLock(s, n);
    var w;
    s', w := Joins(s, Name(n + 1));
    KeepsFirst(s, s', w, Name(n + 1), true);
    hide Ready, Name, FirstConversation, Joined, LockFor, AfterLookup, Distinct, LockedOnes;
    var t' := s'.runners[0].table;
    assert t' == t + [(Name(n + 1), s.nextLock)];
    assert |t'| == n + 2 && t'[0].1 == 0;
    forall k | 0 <= k <= n + 1 ensures t'[k].0 == Name(k) {
      if k <= n { assert t'[k] == t[k]; }
    }
  }

  /** A turn with a new lock leaves the first conversation's coroutines and lock alone. */
  lemma KeepsFirst(s: World, s': World, w: nat, conv: string, held: bool)
    requires Joined(s, s', w, conv) && FirstConversation(s, held) && s.nextLock !in s.locks
    requires LockFor(s.runners[0].table, conv, s.nextLock) == s.nextLock
    ensures FirstConversation(s', held) && s'.leases == s.leases && s'.workers[w].pc.PollLease?
    ensures 0 in s'.runners && s'.runners[0].freeSlots == s.runners[0].freeSlots
    ensures s'.runners[0].table
            == AfterLookup(s.runners[0].table, conv, s.nextLock, LockedOnes(s), CONV_LOCK_MAX)
  {
    hide AfterLookup, LockFor, Name;
  }

  /** What a lookup of the next conversation comes to. */
  lemma NewLock(s: World, n: nat)
    requires Reachable(s) && 0 in s.runners && 0 in s.locks && |s.runners[0].table| == n + 1
    requires forall k | 0 <= k <= n :: s.runners[0].table[k].0 == Name(k)
    ensures var t := s.runners[0].table; var m := t + [(Name(n + 1), s.nextLock)];
      && LockFor(t, Name(n + 1), s.nextLock) == s.nextLock && s.nextLock !in s.locks && s.nextLock > 0
      && Distinct(m) && AfterLookup(t, Name(n + 1), s.nextLock, LockedOnes(s), CONV_LOCK_MAX)
         == Evicted(m, LockedOnes(s), CONV_LOCK_MAX)
  {
    ReachableInv(s);
    NewName(s.runners[0].table, n);
    TouchedKeepsEntries(s.runners[0].table, Name(n + 1), s.nextLock);
  }

  lemma {:induction false} ManyJoin(s: World, n: nat) returns (s': World)
    requires Crowd(s, 0, true) && n < CONV_LOCK_MAX
    ensures Crowd(s', n, true)
    decreases n
  {
    hide Crowd;
    if n == 0 {
      s' := s;
    } else {
      var s1 := ManyJoin(s, n - 1);
      s' := AnotherJoins(s1, n - 1);
    }
  }

  /** Process 0 runs on, and coroutine 0 has come to `pc` of its turn. */
  ghost predicate HolderAt(s: World, pc: Pc, free: nat, table: Table<nat>) {
    && Ready(s) && s.runners[0].freeSlots == free && s.runners[0].table == table
    && 0 in s.workers && 1 in s.workers
    && s.workers[0].inst == 0 && s.workers[0].task.conv == Some(Name(0)) && s.workers[0].lock == Some(0)
    && s.workers[0].pc == pc
    && s.workers[1].inst == 0 && s.workers[1].task.conv == Some(Name(0)) && s.workers[1].lock == Some(0)
    && s.workers[1].pc.AwaitLock?
    && 0 in s.locks && s.locks[0] == TurnLock(true, [1])
  }

  lemma HolderStarts(s: World, table: Table<nat>) returns (s': World)
    requires 0 in s.workers && s.workers[0].pc.PollLease? && s.leases == map[]
    requires HolderAt(s, s.workers[0].pc, 10, table)
    ensures HolderAt(s', Handling, 9, table)
  {
    hide Reachable, Name;
    StepReaches(s, Queue(0, Poll));
    var s1 := Leased(s, 0, Name(0));
    assert Next(s, Queue(0, Poll)) == s1 && HolderAt(s1, AwaitSlot, 10, table);
    StepReaches(s1, Handle(0, TakeSlot));
    s' := TookSlot(s1, 0);
  }

  lemma HolderFinishes(s: World, table: Table<nat>) returns (s': World)
    requires HolderAt(s, Handling, 9, table)
    ensures HolderAt(s', DropLease(0), 10, table)
  {
    hide Reachable, Name;
    StepReaches(s, Handle(0, Succeed));
    var s1 := Succeeded(s, 0);
    StepReaches(s1, Leave(0, LeaveSlot));
    s' := LeftSlot(s1, 0, 0);
  }

  lemma HolderUnlocks(s: World, table: Table<nat>) returns (s': World)
    requires HolderAt(s, DropLease(0), 10, table)
    ensures Ready(s') && FirstConversation(s', false) && s'.runners[0].table == table
  {
    hide Reachable, Name;
    StepReaches(s, Leave(0, Release));
    var s1 := Goto(CompareAndDelete(s, Name(0), 0), 0, Unlocking(0));
    assert HolderAt(s1, Unlocking(0), 10, table);
    StepReaches(s1, Leave(0, Unlock));
    s' := Goto(ReleaseTurnLock(s1, 0), 0, Gone);
  }

  /** One more conversation drops the first one from the full table. */
  lemma NewcomerEvicts(s: World) returns (s': World)
    requires Ready(s) && FirstConversation(s, false)
    requires var t := s.runners[0].table;
      |t| == CONV_LOCK_MAX && t[0].1 == 0 && forall k | 0 <= k < CONV_LOCK_MAX :: t[k].0 == Name(k)
    ensures Ready(s') && FirstConversation(s', false) && Find(s'.runners[0].table, Name(0)).None?
  {
    var n := CONV_LOCK_MAX - 1;
    var t := s.runners[0].table;
    var m := t + [(Name(n + 1), s.nextLock)];
    NewLock(s, n);
    var w;
    s', w := Joins(s, Name(n + 1));
    KeepsFirst(s, s', w, Name(n + 1), false);
    assert m[0].1 == 0 && 0 !in LockedOnes(s);
    OneDropped(m, LockedOnes(s), CONV_LOCK_MAX);
    hide Ready, Reachable, FirstConversation, Joined, LockFor, AfterLookup, LockedOnes, Evicted;
    assert s'.runners[0].table == m[1..];
    assert forall k | 0 <= k < |m[1..]| :: m[1..][k] == m[k + 1] && m[k + 1].0 != m[0].0;
  }

  /** The dropped conversation gets a second lock, and then the first lock's waiter wakes. */
  lemma SecondLock(s: World) returns (s': World, w: nat)
    requires Ready(s) && FirstConversation(s, false) && Find(s.runners[0].table, Name(0)).None?
    ensures Reachable(s') && 1 in s'.workers && w in s'.workers && w != 1
    ensures HoldsLock(s'.workers[1]) && HoldsLock(s'.workers[w]) && s'.workers[1].inst == s'.workers[w].inst == 0
    ensures s'.workers[1].task.conv == s'.workers[w].task.conv == Some(Name(0))
    ensures s'.workers[1].lock != s'.workers[w].lock
  {
    ReachableInv(s);
    assert s.nextLock !in s.locks;
    var s1;
    s1, w := Joins(s, Name(0));
    KeepsFirst(s, s1, w, Name(0), false);
    hide Reachable, Name, AfterLookup, Inv;
    StepReaches(s1, Queue(1, Wake));
    s' := Woken(s1, 1);
  }

  /**
   A reachable world in which two coroutines of one process hold different locks for the same conversation:
   while the first one's lock passes to its waiter, it is unlocked, and the newcomer to a full table drops it.
   */
  lemma TwoTurnsAtOnce() returns (s: World, w: nat)
    ensures Reachable(s) && 1 in s.workers && w in s.workers && w != 1
    ensures HoldsLock(s.workers[1]) && HoldsLock(s.workers[w]) && s.workers[1].inst == s.workers[w].inst
    ensures s.workers[1].task.conv == s.workers[w].task.conv && s.workers[1].lock != s.workers[w].lock
  {
    var s0 := FirstTwo();
    var full := ManyJoin(s0, CONV_LOCK_MAX - 1);
    var t := full.runners[0].table;
    assert 0 in full.workers && full.workers[0].pc.PollLease? && HolderAt(full, full.workers[0].pc, 10, t);
    hide Reachable, Ready, Name, FirstConversation, HolderAt, HoldsLock;
    var running := HolderStarts(full, t);
    var done := HolderFinishes(running, t);
    var handedOff := HolderUnlocks(done, t);
    var dropped := NewcomerEvicts(handedOff);
    s, w := SecondLock(dropped);
  }
}
