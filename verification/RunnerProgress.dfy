/** No deadlock: whatever slots and turn locks coroutines wait for, somebody they wait for can go on. */
module RunnerProgress {
  import opened Prelude
  import opened RunnerSteps
  import opened RunnerResources

  /** Coroutines and delivered entries belong to known processes; only turns of a conversation need a lease. */
  ghost predicate HomedOn(workers: map<nat, Worker>, pending: map<nat, (nat, Task)>, ids: set<nat>) {
    && (forall w | w in workers :: WorkerHomed(workers[w], ids))
    && (forall e | e in pending :: pending[e].0 in ids)
  }

  predicate WorkerHomed(w: Worker, ids: set<nat>) {
    w.inst in ids && (w.pc.PollLease? || w.pc.DropLease? ==> w.task.conv.Some?)
  }

  ghost predicate Homed(s: World) {
    HomedOn(s.workers, s.pending, s.runners.Keys)
  }

  lemma GotoHomed(s: World, s1: World, w: nat, pc: Pc)
    requires Homed(s) && w in s.workers && s1.workers == s.workers && s1.pending == s.pending
    requires s1.runners.Keys == s.runners.Keys && WorkerHomed(s.workers[w].(pc := pc), s.runners.Keys)
    ensures Homed(Goto(s1, w, pc))
  {
  }

  lemma StreamKeepsHomed(s: World, e: StreamStep)
    requires Homed(s) && StreamEnabled(s, e)
    ensures Homed(StreamNext(s, e))
  {
    match e {
      case Shutdown(i) => assert StreamNext(s, e).runners.Keys == s.runners.Keys;
      case _ =>
    }
  }

  lemma BeginKeepsHomed(s: World, w: nat)
    requires Homed(s) && w in s.workers && QueueEnabled(s, w, Begin)
    ensures Homed(BeginTurn(s, w))
  {
    BeginIsLocal(s, w);
    BeginKeepsRunners(s, w);
    hide BeginTurn;
  }

  lemma BeginKeepsRunners(s: World, w: nat)
    requires w in s.workers && s.workers[w].inst in s.runners
    ensures BeginTurn(s, w).runners.Keys == s.runners.Keys && BeginTurn(s, w).pending == s.pending
    ensures w in BeginTurn(s, w).workers && (s.workers[w].task.conv.None? ==> BeginTurn(s, w).workers[w].pc == AwaitSlot)
  {
    hide LockTable.AfterLookup, LockTable.LockFor, JoinTurn;
    match s.workers[w].task.conv
    case None =>
    case Some(conv) =>
      var i := s.workers[w].inst;
      JoinKeepsHomes(LookedUp(s, i, conv), w, LockTable.LockFor(s.runners[i].table, conv, s.nextLock));
  }

  lemma JoinKeepsHomes(s: World, w: nat, l: nat)
    requires w in s.workers
    ensures var s' := JoinTurn(s, w, l); s'.runners == s.runners && s'.pending == s.pending && w in s'.workers
  {
  }

  lemma QueueKeepsHomed(s: World, w: nat, q: QueueStep)
    requires Homed(s) && Inv(s) && w in s.workers && QueueEnabled(s, w, q)
    ensures Homed(QueueNext(s, w, q))
  {
    hide Homed, BeginTurn;
    match q
    case Begin => BeginKeepsHomed(s, w);
    case Wake => WakeKeepsHomed(s, w);
    case Poll => PollKeepsHomed(s, w);
    case PushBack(ok) => PushBackKeepsHomed(s, w, ok);
    case GiveUp => GiveUpKeepsHomed(s, w, Gone);
  }

  lemma WakeKeepsHomed(s: World, w: nat)
    requires Homed(s) && Inv(s) && w in s.workers && QueueEnabled(s, w, Wake)
    ensures Homed(Woken(s, w))
  {
    var l := s.workers[w].lock.value;
    assert LocksInv(s.workers, s.locks) && s.workers[w].task.conv.Some?;
    hide Inv, LocksInv;
    GotoHomed(s, s.(locks := s.locks[l := TurnLock(true, s.locks[l].waiters[1..])]), w, PollLease(s.now + CONV_LOCK_TTL));
  }

  lemma PollKeepsHomed(s: World, w: nat)
    requires Homed(s) && w in s.workers && QueueEnabled(s, w, Poll)
    ensures Homed(PollOnce(s, w))
  {
    var wk := s.workers[w];
    if s.runners[wk.inst].shutdown {
      GotoHomed(s, s, w, Requeue);
    } else if !Live(s, wk.task.conv.value) {
      hide Live;
    } else if s.now >= wk.pc.deadline {
      GotoHomed(s, s, w, Requeue);
    }
  }

  lemma PushBackKeepsHomed(s: World, w: nat, ok: bool)
    requires Homed(s) && w in s.workers
    ensures Homed(PushedBack(s, w, ok))
  {
    hide Homed;
    assert WorkerHomed(s.workers[w].(pc := Requeued), s.runners.Keys) by { HomeOf(s, w); }
    GotoHomed(s, AppendOrLose(s, s.workers[w].task, ok), w, Requeued);
  }

  lemma HomeOf(s: World, w: nat)
    requires Homed(s) && w in s.workers
    ensures WorkerHomed(s.workers[w], s.runners.Keys)
  {
  }

  lemma GiveUpKeepsHomed(s: World, w: nat, pc: Pc)
    requires Homed(s) && w in s.workers && (pc.Gone? || pc.Backoff?)
    ensures Homed(Goto(ReleaseTurnLock(s, w), w, pc))
  {
    hide Homed;
    HomeOf(s, w);
    GotoHomed(s, ReleaseTurnLock(s, w), w, pc);
  }

  lemma HandleKeepsHomed(s: World, w: nat, h: HandleStep)
    requires Homed(s) && w in s.workers && HandleEnabled(s, w, h)
    ensures Homed(HandleNext(s, w, h))
  {
    var t := s.workers[w].task;
    HomeOf(s, w);
    hide Homed, Closed;
    match h
    case TakeSlot => TakeSlotKeepsHomed(s, w);
    case SetStreaming(on) => SetStreamingKeepsHomed(s, t.msg.value, on);
    case Succeed => GotoHomed(s, s.(finished := s.finished + [t]), w, Leaving(0));
    case Fail => GotoHomed(s, s, w, Failed(s, w).workers[w].pc);
    case PushRetry(ok) =>
      GotoHomed(s, AppendOrLose(s, t.(attempt := t.attempt + 1), ok), w, Leaving(RetryDelay(t.attempt + 1)));
    case PushDead(ok) => GotoHomed(s, if ok then s.(dead := s.dead + [t]) else s.(lost := s.lost + [t]), w, Marking);
    case Mark(ok) =>
      ClosedIsLocal(s, t, ok);
      GotoHomed(s, Closed(s, t, ok), w, Leaving(0));
  }

  lemma TakeSlotKeepsHomed(s: World, w: nat)
    requires Homed(s) && w in s.workers && HandleEnabled(s, w, TakeSlot)
    ensures Homed(TookSlot(s, w))
  {
    HomeOf(s, w);
    hide Homed;
    var s1 := MoveSlot(s, s.workers[w].inst, -1);
    GotoHomed(s, s1.(executed := s1.executed + multiset{s.workers[w].task.id}), w, Handling);
  }

  lemma SetStreamingKeepsHomed(s: World, m: nat, on: bool)
    requires Homed(s)
    ensures Homed(StreamingSet(s, m, on))
  {
    hide HomedOn;
  }

  lemma LeaveKeepsHomed(s: World, w: nat, l: LeaveStep)
    requires Homed(s) && w in s.workers && LeaveEnabled(s, w, l)
    ensures Homed(LeaveNext(s, w, l))
  {
    HomeOf(s, w);
    hide Homed;
    match l
    case LeaveSlot => LeaveSlotKeepsHomed(s, w);
    case Release =>
      GotoHomed(s, CompareAndDelete(s, s.workers[w].task.conv.value, w), w, Unlocking(s.workers[w].pc.delay));
    case Unlock => GiveUpKeepsHomed(s, w, Asleep(s, s.workers[w].pc.delay));
    case SleepOver => GotoHomed(s, s, w, Gone);
  }

  lemma LeaveSlotKeepsHomed(s: World, w: nat)
    requires Homed(s) && w in s.workers && LeaveEnabled(s, w, LeaveSlot)
    ensures Homed(LeaveNext(s, w, LeaveSlot))
  {
    HomeOf(s, w);
    hide Homed;
    GotoHomed(s, MoveSlot(s, s.workers[w].inst, 1), w, AfterSlot(s, w, s.workers[w].pc.delay));
  }

  lemma StepKeepsHomed(s: World, st: Step)
    requires Homed(s) && Inv(s) && Enabled(s, st)
    ensures Homed(Next(s, st))
  {
    hide Homed, Inv, StreamNext, QueueNext, HandleNext, LeaveNext;
    match st
    case Stream(e) => StreamKeepsHomed(s, e);
    case Queue(w, q) => QueueKeepsHomed(s, w, q);
    case Handle(w, h) => HandleKeepsHomed(s, w, h);
    case Leave(w, l) => LeaveKeepsHomed(s, w, l);
  }

  lemma {:induction false} RunKeepsHomed(s: World, steps: seq<Step>)
    requires Homed(s) && Inv(s) && CanRun(s, steps)
    ensures Homed(After(s, steps))
    decreases steps
  {
    hide Homed, Inv, Enabled, Next;
    if steps != [] {
      StepKeepsHomed(s, steps[0]);
      StepKeepsInv(s, steps[0]);
      RunKeepsHomed(Next(s, steps[0]), steps[1..]);
    }
  }

  lemma ReachableHomed(s: World)
    requires Reachable(s)
    ensures Homed(s)
  {
    var s0, steps :| Initial(s0) && CanRun(s0, steps) && After(s0, steps) == s;
    assert CanRun(s0, []) && After(s0, []) == s0;
    assert Reachable(s0);
    ReachableInv(s0);
    RunKeepsHomed(s0, steps);
  }

  // ---- who waits for whom ----

  /** Some step of the coroutine itself is possible now. */
  ghost predicate CanMove(s: World, w: nat) {
    && w in s.workers
    && ((exists q :: QueueEnabled(s, w, q)) || (exists h :: HandleEnabled(s, w, h)) || (exists l :: LeaveEnabled(s, w, l)))
  }

  /** Returned, or asleep until a time to come. */
  predicate Resting(s: World, w: Worker) {
    w.pc.Gone? || (w.pc.Backoff? && s.now < w.pc.until)
  }

  ghost predicate WaitsForSlot(s: World, w: nat, v: nat) {
    && w in s.workers && v in s.workers && s.workers[w].pc.AwaitSlot?
    && s.workers[v].inst == s.workers[w].inst && HoldsSlot(s.workers[v].pc)
  }

  /** `v` holds the turn lock, or is the first in its queue. */
  ghost predicate WaitsForTurn(s: World, w: nat, v: nat) {
    && w in s.workers && v in s.workers && s.workers[w].pc.AwaitLock? && s.workers[w].lock.Some?
    && s.workers[v].lock == s.workers[w].lock && s.workers[w].lock.value in s.locks
    && (HoldsLock(s.workers[v]) || NextInLine(s.locks[s.workers[w].lock.value], v))
  }

  lemma SlotHolderMoves(s: World, w: nat)
    requires Homed(s) && w in s.workers && HoldsSlot(s.workers[w].pc)
    ensures CanMove(s, w)
  {
    assert WorkerHomed(s.workers[w], s.runners.Keys);
    match s.workers[w].pc
    case Handling => assert HandleEnabled(s, w, Succeed);
    case RetryAppend => assert HandleEnabled(s, w, PushRetry(true));
    case DeadAppend => assert HandleEnabled(s, w, PushDead(true));
    case Marking => assert HandleEnabled(s, w, Mark(true));
    case Leaving(_) => assert LeaveEnabled(s, w, LeaveSlot);
  }

  /** A coroutine that waits for no other can move, unless it rests. */
  lemma OtherwiseMoves(s: World, w: nat)
    requires Homed(s) && w in s.workers && !Resting(s, s.workers[w])
    requires !s.workers[w].pc.AwaitLock? && !s.workers[w].pc.AwaitSlot?
    ensures CanMove(s, w)
  {
    assert WorkerHomed(s.workers[w], s.runners.Keys);
    if HoldsSlot(s.workers[w].pc) {
      SlotHolderMoves(s, w);
    }
    assert s.workers[w].pc.Created? ==> QueueEnabled(s, w, Begin);
    assert s.workers[w].pc.PollLease? ==> QueueEnabled(s, w, Poll);
    assert s.workers[w].pc.Requeue? ==> QueueEnabled(s, w, PushBack(true));
    assert s.workers[w].pc.Requeued? ==> QueueEnabled(s, w, GiveUp);
    assert s.workers[w].pc.DropLease? ==> LeaveEnabled(s, w, Release);
    assert s.workers[w].pc.Unlocking? ==> LeaveEnabled(s, w, Unlock);
    assert s.workers[w].pc.Backoff? ==> LeaveEnabled(s, w, SleepOver);
  }

  /** The semaphore is full only of coroutines that can move. */
  lemma SlotIsNotStuck(s: World, w: nat) returns (v: nat)
    requires Homed(s) && Inv(s) && w in s.workers && s.workers[w].pc.AwaitSlot?
    ensures CanMove(s, v) && (v == w || WaitsForSlot(s, w, v))
  {
    var i := s.workers[w].inst;
    assert WorkerHomed(s.workers[w], s.runners.Keys);
    if s.runners[i].freeSlots > 0 {
      assert HandleEnabled(s, w, TakeSlot);
      v := w;
    } else {
      assert |SlotHolders(s.workers, i)| == MAX_CONCURRENT;
      assert SlotHolders(s.workers, i) != {};
      v :| v in SlotHolders(s.workers, i);
      SlotHolderMoves(s, v);
    }
  }

  /** A turn lock has a holder, or a first waiter who can take it. */
  lemma TurnHasSomeone(s: World, w: nat) returns (v: nat)
    requires Inv(s) && w in s.workers && s.workers[w].pc.AwaitLock?
    ensures v in s.workers && WaitsForTurn(s, w, v) && (HoldsLock(s.workers[v]) || CanMove(s, v))
  {
    var l := s.workers[w].lock.value;
    assert LockOk(s.workers, l, s.locks[l]) && w in s.locks[l].waiters;
    if s.locks[l].locked {
      v :| v in s.workers && HoldsLock(s.workers[v]) && s.workers[v].lock == Some(l);
    } else {
      v := s.locks[l].waiters[0];
      assert QueueEnabled(s, v, Wake);
    }
  }

  /**
   In every reachable world each coroutine that does not rest can move, or waits for one that can, or waits
   for its turn behind a holder that waits for a slot of one that can: there is no deadlock.
   */
  lemma NoDeadlock(s: World, w: nat) returns (v: nat, u: nat)
    requires Reachable(s) && w in s.workers && !Resting(s, s.workers[w])
    ensures CanMove(s, u)
    ensures v == w || WaitsForTurn(s, w, v)
    ensures u == v || WaitsForSlot(s, v, u)
  {
    ReachableHomed(s);
    ReachableInv(s);
    hide Reachable, Homed, Inv, CanMove, WaitsForTurn, WaitsForSlot, HoldsLock, Resting;
    if s.workers[w].pc.AwaitLock? {
      v := TurnHasSomeone(s, w);
    } else {
      v := w;
    }
    u := v;
    if s.workers[v].pc.AwaitSlot? {
      u := SlotIsNotStuck(s, v);
    } else if HoldsLock(s.workers[v]) {
      HolderIsAwake(s, v);
      OtherwiseMoves(s, u);
    } else if !s.workers[w].pc.AwaitLock? {
      OtherwiseMoves(s, u);
    }
  }

  lemma HolderIsAwake(s: World, v: nat)
    requires v in s.workers && HoldsLock(s.workers[v])
    ensures !Resting(s, s.workers[v]) && !s.workers[v].pc.AwaitLock?
  {
  }

  // ---- whose turn is next, and how long a coroutine rests ----

  /** A turn that begins takes its lock only if nobody holds it or waits for it, and else queues up last. */
  lemma TurnsQueueUp(s: World, w: nat, conv: string)
    requires w in s.workers && QueueEnabled(s, w, Begin) && s.workers[w].task.conv == Some(conv)
    ensures var l := LockTable.LockFor(s.runners[s.workers[w].inst].table, conv, s.nextLock);
      var s' := Next(s, Queue(w, Begin));
      && w in s'.workers && l in s'.locks
      && if l !in s.locks || (!s.locks[l].locked && s.locks[l].waiters == [])
         then s'.workers[w].pc == PollLease(s.now + CONV_LOCK_TTL) && s'.locks[l] == TurnLock(true, [])
         else s'.workers[w].pc == AwaitLock && s'.locks[l] == s.locks[l].(waiters := s.locks[l].waiters + [w])
  {
    hide LockTable.AfterLookup, LockTable.LockFor;
  }

  /** The first in the queue takes the lock when it is open; nobody passes it. */
  lemma FirstWaiterIsNext(s: World, w: nat)
    requires w in s.workers && s.workers[w].pc.AwaitLock? && s.workers[w].lock.Some?
    ensures var l := s.workers[w].lock.value;
      && (QueueEnabled(s, w, Wake)
          <==> l in s.locks && !s.locks[l].locked && s.locks[l].waiters != [] && s.locks[l].waiters[0] == w)
      && (QueueEnabled(s, w, Wake) ==>
            && Next(s, Queue(w, Wake)).locks[l] == TurnLock(true, s.locks[l].waiters[1..])
            && Next(s, Queue(w, Wake)).workers[w].pc == PollLease(s.now + CONV_LOCK_TTL))
  {
  }

  /** A failed execution is appended again with its count, and its coroutine will rest two, four or eight seconds. */
  lemma RetryRests(s: World, w: nat, ok: bool)
    requires w in s.workers && HandleEnabled(s, w, PushRetry(ok)) && s.workers[w].task.attempt < MAX_RETRIES
    ensures var s' := Next(s, Handle(w, PushRetry(ok))); var a := s.workers[w].task.attempt;
      && w in s'.workers
      && s'.workers[w].pc == Leaving(if a == 0 then 2000 else if a == 1 then 4000 else 8000)
      && (ok ==> s'.stream == s.stream[s.nextEntry := s.workers[w].task.(attempt := a + 1)])
  {
    assert Pow2(1) == 2 && Pow2(2) == 4 && Pow2(3) == 8;
  }

  /** The last failure is not retried, and any other is. */
  lemma FailureRetriesIff(s: World, w: nat)
    requires w in s.workers && HandleEnabled(s, w, Fail)
    ensures Next(s, Handle(w, Fail)).workers[w].pc == if s.workers[w].task.attempt < 3 then RetryAppend else DeadAppend
  {
  }

  /** A payload whose append succeeds is in the stream or among the dead letters, and otherwise lost. */
  lemma AppendsLand(s: World, w: nat, ok: bool)
    requires w in s.workers
    ensures QueueEnabled(s, w, PushBack(ok)) ==>
      var s' := Next(s, Queue(w, PushBack(ok))); var t := s.workers[w].task;
      if ok then s'.stream == s.stream[s.nextEntry := t] && s'.lost == s.lost else s'.stream == s.stream && s'.lost == s.lost + [t]
    ensures HandleEnabled(s, w, PushDead(ok)) ==>
      var s' := Next(s, Handle(w, PushDead(ok))); var t := s.workers[w].task;
      if ok then s'.dead == s.dead + [t] && s'.lost == s.lost else s'.dead == s.dead && s'.lost == s.lost + [t]
  {
  }

  /** A dead letter's message stops streaming exactly if the database takes the change; a refusal is noted. */
  lemma MarkCloses(s: World, w: nat, ok: bool)
    requires w in s.workers && HandleEnabled(s, w, Mark(ok))
    requires s.workers[w].task.conv.Some? && s.workers[w].task.msg.Some?
    ensures var s' := Next(s, Handle(w, Mark(ok))); var t := s.workers[w].task;
      if ok then s'.streaming == s.streaming - {t.msg.value} && s'.unmarked == s.unmarked
      else s'.streaming == s.streaming && s'.unmarked == s.unmarked + {t.id}
  {
  }

  /** Slot, lease and turn lock are given back in this order, and only then a retrying coroutine rests. */
  lemma LeavesInOrder(s: World, w: nat)
    requires w in s.workers
    ensures LeaveEnabled(s, w, LeaveSlot) && s.workers[w].task.conv.Some? ==>
      Next(s, Leave(w, LeaveSlot)).workers[w].pc == DropLease(s.workers[w].pc.delay)
    ensures LeaveEnabled(s, w, Release) ==>
      Next(s, Leave(w, Release)).workers[w].pc == Unlocking(s.workers[w].pc.delay)
    ensures LeaveEnabled(s, w, Unlock) ==>
      Next(s, Leave(w, Unlock)).workers[w].pc == RestFor(s.now, s.workers[w].pc.delay)
    ensures LeaveEnabled(s, w, LeaveSlot) && s.workers[w].task.conv.None? ==>
      Next(s, Leave(w, LeaveSlot)).workers[w].pc == RestFor(s.now, s.workers[w].pc.delay)
    ensures s.workers[w].pc.Backoff? ==> (LeaveEnabled(s, w, SleepOver) <==> s.now >= s.workers[w].pc.until)
  {
  }

  function RestFor(now: nat, delay: nat): Pc {
    if delay == 0 then Gone else Backoff(now + delay)
  }
}
