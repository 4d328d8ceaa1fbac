/** Slots, turn locks and leases are all given back: none is held by a coroutine that sleeps or is done. */
module RunnerResources {
  import opened Prelude
  import opened LockTable
  import opened RunnerSteps
  import RunnerLease

  predicate HoldsSlot(pc: Pc) {
    pc.Handling? || pc.RetryAppend? || pc.DeadAppend? || pc.Marking? || pc.Leaving?
  }

  /** Between acquiring the turn lock of its conversation and releasing it. */
  predicate HoldsLock(w: Worker) {
    && w.lock.Some?
    && (w.pc.PollLease? || w.pc.Requeue? || w.pc.Requeued? || w.pc.AwaitSlot? || HoldsSlot(w.pc)
        || w.pc.DropLease? || w.pc.Unlocking?)
  }

  function SlotHolders(workers: map<nat, Worker>, i: nat): set<nat> {
    set w | w in workers && workers[w].inst == i && HoldsSlot(workers[w].pc)
  }

  ghost predicate SlotsInv(workers: map<nat, Worker>, runners: map<nat, Runner>) {
    forall i | i in runners :: runners[i].freeSlots + |SlotHolders(workers, i)| == MAX_CONCURRENT
  }

  /** One lock: it is locked exactly while it has a holder, and its queue is who waits for it. */
  ghost predicate LockOk(workers: map<nat, Worker>, id: nat, l: TurnLock) {
    && (l.locked ==> exists w :: w in workers && HoldsLock(workers[w]) && workers[w].lock == Some(id))
    && (!l.locked ==> forall w | w in workers && HoldsLock(workers[w]) :: workers[w].lock != Some(id))
    && (forall i | 0 <= i < |l.waiters| ::
          l.waiters[i] in workers && workers[l.waiters[i]].pc.AwaitLock? && workers[l.waiters[i]].lock == Some(id))
    && (forall i, j | 0 <= i < j < |l.waiters| :: l.waiters[i] != l.waiters[j])
  }

  ghost predicate LocksInv(workers: map<nat, Worker>, locks: map<nat, TurnLock>) {
    && (forall l | l in locks :: LockOk(workers, l, locks[l]))
    && (forall v, w | v in workers && w in workers && HoldsLock(workers[v]) && HoldsLock(workers[w])
          && workers[v].lock == workers[w].lock :: v == w)
    && (forall w | w in workers && workers[w].lock.Some? ::
          workers[w].lock.value in locks && workers[w].task.conv.Some?)
    && (forall w | w in workers && workers[w].pc.Created? :: workers[w].lock.None?)
    && (forall w | w in workers && workers[w].pc.AwaitLock? ::
          workers[w].lock.Some? && w in locks[workers[w].lock.value].waiters)
  }

  // ---- slots ----

  function One(b: bool): nat {
    if b then 1 else 0
  }

  lemma HolderCount(workers: map<nat, Worker>, w: nat, v: Worker, i: nat)
    ensures |SlotHolders(workers[w := v], i)| + One(w in SlotHolders(workers, i))
            == |SlotHolders(workers, i)| + One(v.inst == i && HoldsSlot(v.pc))
  {
    var before := SlotHolders(workers, i);
    var after := SlotHolders(workers[w := v], i);
    if v.inst == i && HoldsSlot(v.pc) {
      assert after == before + {w};
    } else {
      assert after == before - {w};
    }
  }

  /** Coroutine `w` becomes `v`; the free slots of its runner change by what it gives or takes. */
  lemma SlotMove(workers: map<nat, Worker>, runners: map<nat, Runner>, w: nat, v: Worker, runners': map<nat, Runner>)
    requires SlotsInv(workers, runners) && runners'.Keys == runners.Keys
    requires w in workers && workers[w].inst == v.inst
    requires forall i | i in runners && i != v.inst :: runners'[i].freeSlots == runners[i].freeSlots
    requires v.inst in runners ==>
      runners'[v.inst].freeSlots + One(HoldsSlot(v.pc)) == runners[v.inst].freeSlots + One(HoldsSlot(workers[w].pc))
    ensures SlotsInv(workers[w := v], runners')
  {
    forall i | i in runners' ensures runners'[i].freeSlots + |SlotHolders(workers[w := v], i)| == MAX_CONCURRENT {
      HolderCount(workers, w, v, i);
    }
  }

  // ---- turn locks ----

  /** A move that neither takes, waits for, nor gives back a turn lock. */
  lemma LockNeutral(workers: map<nat, Worker>, locks: map<nat, TurnLock>, w: nat, v: Worker)
    requires LocksInv(workers, locks) && w in workers && v.lock == workers[w].lock && v.task == workers[w].task
    requires HoldsLock(v) == HoldsLock(workers[w]) && v.pc.AwaitLock? == workers[w].pc.AwaitLock?
    requires v.pc.Created? ==> v.lock.None?
    ensures LocksInv(workers[w := v], locks)
  {
    var ws := workers[w := v];
    forall l | l in locks ensures LockOk(ws, l, locks[l]) {
      assert LockOk(workers, l, locks[l]);
      if locks[l].locked {
        var h :| h in workers && HoldsLock(workers[h]) && workers[h].lock == Some(l);
        assert h in ws && HoldsLock(ws[h]) && ws[h].lock == Some(l);
      }
    }
  }

  lemma LockSpawn(workers: map<nat, Worker>, locks: map<nat, TurnLock>, w: nat, v: Worker)
    requires LocksInv(workers, locks) && w !in workers && v.pc.Created? && v.lock.None?
    ensures LocksInv(workers[w := v], locks)
  {
    var ws := workers[w := v];
    forall l | l in locks ensures LockOk(ws, l, locks[l]) {
      assert LockOk(workers, l, locks[l]);
      if locks[l].locked {
        var h :| h in workers && HoldsLock(workers[h]) && workers[h].lock == Some(l);
        assert h in ws && HoldsLock(ws[h]) && ws[h].lock == Some(l);
      }
    }
  }

  /** `was` is the state of lock `l` before the step: the stored one, or that of a new lock. */
  ghost predicate WasLock(locks: map<nat, TurnLock>, l: nat, was: TurnLock) {
    if l in locks then was == locks[l] else was == TurnLock(false, [])
  }

  /** The locks a step does not touch stay in order, whatever coroutine `w` becomes. */
  lemma OtherLock(workers: map<nat, Worker>, k: nat, l: TurnLock, w: nat, v: Worker)
    requires LockOk(workers, k, l) && w in workers
    requires v.lock == Some(k) ==> !HoldsLock(v)
    requires workers[w].lock == Some(k) ==> !HoldsLock(workers[w]) && !workers[w].pc.AwaitLock?
    ensures LockOk(workers[w := v], k, l)
  {
    var ws := workers[w := v];
    if l.locked {
      var h :| h in workers && HoldsLock(workers[h]) && workers[h].lock == Some(k);
      assert h in ws && HoldsLock(ws[h]) && ws[h].lock == Some(k);
    }
  }

  /** A coroutine that finds the lock free takes it at once. */
  lemma LockTake(workers: map<nat, Worker>, locks: map<nat, TurnLock>, w: nat, v: Worker, l: nat)
    requires LocksInv(workers, locks) && w in workers && workers[w].pc.Created?
    requires WasLock(locks, l, TurnLock(false, []))
    requires HoldsLock(v) && v.lock == Some(l) && v.task.conv.Some? && !v.pc.AwaitLock? && !v.pc.Created?
    ensures LocksInv(workers[w := v], locks[l := TurnLock(true, [])])
  {
    var ws := workers[w := v];
    var ls := locks[l := TurnLock(true, [])];
    assert l in locks ==> LockOk(workers, l, locks[l]);
    assert ws[w] == v;
    forall k | k in ls ensures LockOk(ws, k, ls[k]) {
      if k != l { OtherLock(workers, k, locks[k], w, v); }
    }
    forall x | x in ws && ws[x].pc.AwaitLock? ensures x in ls[ws[x].lock.value].waiters {
      assert x != w && x in locks[workers[x].lock.value].waiters;
    }
  }

  /** The woken waiter takes the lock it waited for. */
  lemma LockWake(workers: map<nat, Worker>, locks: map<nat, TurnLock>, w: nat, v: Worker, l: nat)
    requires LocksInv(workers, locks) && w in workers && workers[w].pc.AwaitLock? && workers[w].lock == Some(l)
    requires l in locks && NextInLine(locks[l], w)
    requires HoldsLock(v) && v.lock == Some(l) && v.task.conv.Some? && !v.pc.AwaitLock? && !v.pc.Created?
    ensures LocksInv(workers[w := v], locks[l := TurnLock(true, locks[l].waiters[1..])])
  {
    var ws := workers[w := v];
    var ls := locks[l := TurnLock(true, locks[l].waiters[1..])];
    assert LockOk(workers, l, locks[l]);
    assert ws[w] == v;
    forall k | k in ls ensures LockOk(ws, k, ls[k]) {
      if k != l { OtherLock(workers, k, locks[k], w, v); }
    }
    forall x | x in ws && ws[x].pc.AwaitLock? ensures x in ls[ws[x].lock.value].waiters {
      assert x != w && x in locks[workers[x].lock.value].waiters;
    }
  }

  lemma LockQueue(workers: map<nat, Worker>, locks: map<nat, TurnLock>, w: nat, v: Worker, l: nat, was: TurnLock)
    requires LocksInv(workers, locks) && w in workers && workers[w].pc.Created?
    requires v.pc.AwaitLock? && v.lock == Some(l) && v.task.conv.Some? && l in locks && was == locks[l]
    ensures LocksInv(workers[w := v], locks[l := was.(waiters := was.waiters + [w])])
  {
    var ws := workers[w := v];
    var ls := locks[l := was.(waiters := was.waiters + [w])];
    assert LockOk(workers, l, locks[l]);
    forall k | k in ls ensures LockOk(ws, k, ls[k]) {
      assert LockOk(workers, k, locks[k]);
      if locks[k].locked {
        var h :| h in workers && HoldsLock(workers[h]) && workers[h].lock == Some(k);
        assert h in ws && HoldsLock(ws[h]) && ws[h].lock == Some(k);
      }
    }
    assert ls[l].waiters[|was.waiters|] == w;
    forall x | x in ws && ws[x].pc.AwaitLock? ensures x in ls[ws[x].lock.value].waiters {
      if x != w { assert x in locks[workers[x].lock.value].waiters; }
    }
  }

  lemma LockGive(workers: map<nat, Worker>, locks: map<nat, TurnLock>, w: nat, v: Worker, l: nat)
    requires LocksInv(workers, locks) && w in workers && HoldsLock(workers[w]) && workers[w].lock == Some(l)
    requires !HoldsLock(v) && v.lock == Some(l) && v.task == workers[w].task
    requires !v.pc.AwaitLock? && !v.pc.Created? && l in locks
    ensures LocksInv(workers[w := v], locks[l := locks[l].(locked := false)])
  {
    var ws := workers[w := v];
    var ls := locks[l := locks[l].(locked := false)];
    forall k | k in ls ensures LockOk(ws, k, ls[k]) {
      assert LockOk(workers, k, locks[k]);
      if ls[k].locked {
        var h :| h in workers && HoldsLock(workers[h]) && workers[h].lock == Some(k);
        assert h in ws && HoldsLock(ws[h]) && ws[h].lock == Some(k);
      }
    }
    forall x | x in ws && ws[x].pc.AwaitLock? ensures x in ls[ws[x].lock.value].waiters {
      assert x in locks[workers[x].lock.value].waiters;
    }
  }

  // ---- the steps ----

  ghost predicate TableOk(t: Table<nat>, locks: set<nat>) {
    Distinct(t) && forall i | 0 <= i < |t| :: t[i].1 in locks
  }

  ghost predicate Inv(s: World) {
    && SlotsInv(s.workers, s.runners) && LocksInv(s.workers, s.locks)
    && (forall i | i in s.runners :: TableOk(s.runners[i].table, s.locks.Keys))
    && (forall l | l in s.locks :: l < s.nextLock)
    && (forall w | w in s.workers :: w < s.nextWorker)
  }

  /** Nothing the invariant looks at differs. */
  ghost predicate Quiet(s: World, s1: World) {
    && s1.workers == s.workers && s1.locks == s.locks && s1.nextLock == s.nextLock && s1.nextWorker == s.nextWorker
    && s1.runners == s.runners
  }

  /** A coroutine moves on without taking or giving back a slot or a turn lock. */
  lemma NeutralGoto(s: World, s1: World, w: nat, pc: Pc)
    requires Inv(s) && Quiet(s, s1) && w in s.workers
    requires var v := s.workers[w].(pc := pc);
      && HoldsLock(v) == HoldsLock(s.workers[w]) && pc.AwaitLock? == s.workers[w].pc.AwaitLock?
      && HoldsSlot(pc) == HoldsSlot(s.workers[w].pc) && !pc.Created?
    ensures Inv(Goto(s1, w, pc))
  {
    var v := s.workers[w].(pc := pc);
    LockNeutral(s.workers, s.locks, w, v);
    SlotMove(s.workers, s.runners, w, v, s.runners);
    hide LocksInv, SlotsInv;
  }

  /** A coroutine moves on and takes a slot (`given == -1`) or gives one back (`given == 1`). */
  lemma SlotGoto(s: World, w: nat, pc: Pc, given: int)
    requires Inv(s) && w in s.workers && s.workers[w].inst in s.runners
    requires s.runners[s.workers[w].inst].freeSlots + given >= 0
    requires One(HoldsSlot(pc)) == One(HoldsSlot(s.workers[w].pc)) - given
    requires var v := s.workers[w].(pc := pc);
      HoldsLock(v) == HoldsLock(s.workers[w]) && pc.AwaitLock? == s.workers[w].pc.AwaitLock? && !pc.Created?
    ensures Inv(Goto(MoveSlot(s, s.workers[w].inst, given), w, pc))
  {
    hide LocksInv, SlotsInv, HoldsLock, HoldsSlot, TableOk;
    var v := s.workers[w].(pc := pc);
    LockNeutral(s.workers, s.locks, w, v);
    SlotMove(s.workers, s.runners, w, v, MoveSlot(s, s.workers[w].inst, given).runners);
  }

  lemma UnlockGoto(s: World, w: nat, pc: Pc)
    requires Inv(s) && w in s.workers && (s.workers[w].pc.Requeued? || s.workers[w].pc.Unlocking?)
    requires pc.Gone? || pc.Backoff?
    ensures Inv(Goto(ReleaseTurnLock(s, w), w, pc))
  {
    hide SlotsInv, TableOk;
    var v := s.workers[w].(pc := pc);
    SlotMove(s.workers, s.runners, w, v, s.runners);
    match s.workers[w].lock
    case None => LockNeutral(s.workers, s.locks, w, v);
    case Some(l) =>
      LockGive(s.workers, s.locks, w, v, l);
      assert s.locks[l := s.locks[l].(locked := false)].Keys == s.locks.Keys;
  }

  lemma StartKeepsInv(s: World, e: nat)
    requires Inv(s) && e in s.pending
    ensures Inv(Started(s, e))
  {
    var v := Worker(s.pending[e].0, s.pending[e].1, Created, None, 0);
    LockSpawn(s.workers, s.locks, s.nextWorker, v);
    forall i | i in s.runners
      ensures s.runners[i].freeSlots + |SlotHolders(s.workers[s.nextWorker := v], i)| == MAX_CONCURRENT
    {
      HolderCount(s.workers, s.nextWorker, v, i);
    }
  }

  lemma JoinKeepsInv(s: World, w: nat, l: nat)
    requires LocksInv(s.workers, s.locks)
    requires w in s.workers && s.workers[w].pc.Created? && s.workers[w].task.conv.Some?
    ensures LocksInv(JoinTurn(s, w, l).workers, JoinTurn(s, w, l).locks)
  {
    var s' := JoinTurn(s, w, l);
    if s'.workers[w].pc.PollLease? {
      LockTake(s.workers, s.locks, w, s'.workers[w], l);
    } else {
      LockQueue(s.workers, s.locks, w, s'.workers[w], l, s.locks[l]);
    }
  }

  lemma TableAfterLookup(t: Table<nat>, conv: string, made: nat, locked: set<nat>, locks: set<nat>)
    requires TableOk(t, locks)
    ensures LockFor(t, conv, made) in locks + {made}
    ensures TableOk(AfterLookup(t, conv, made, locked, CONV_LOCK_MAX), locks + {LockFor(t, conv, made)})
  {
    var m := Touched(t, conv, made);
    var r := AfterLookup(t, conv, made, locked, CONV_LOCK_MAX);
    TouchedKeepsEntries(t, conv, made);
    EvictedSpec(m, locked, CONV_LOCK_MAX);
    forall i | 0 <= i < |r| ensures r[i].1 in locks + {LockFor(t, conv, made)} {
      assert r[i] == m[i + (|m| - |r|)] && m[i + (|m| - |r|)] in m;
      if r[i] in t {
        var k :| 0 <= k < |t| && t[k] == r[i];
      } else {
        assert r[i] == (conv, made);
        assert m[|m| - 1] == (conv, LockFor(t, conv, made));
      }
    }
  }

  lemma LookUpKeepsSlots(s: World, i: nat, conv: string)
    requires SlotsInv(s.workers, s.runners) && i in s.runners
    ensures SlotsInv(s.workers, LookedUp(s, i, conv).runners)
  {
  }

  lemma LookUpKeepsTables(s: World, i: nat, conv: string)
    requires i in s.runners && forall j | j in s.runners :: TableOk(s.runners[j].table, s.locks.Keys)
    ensures var l := LockFor(s.runners[i].table, conv, s.nextLock);
      && l in s.locks.Keys + {s.nextLock}
      && forall j | j in s.runners :: TableOk(LookedUp(s, i, conv).runners[j].table, s.locks.Keys + {l})
  {
    hide AfterLookup, LockFor;
    TableAfterLookup(s.runners[i].table, conv, s.nextLock, LockedOnes(s), s.locks.Keys);
  }

  lemma JoinKeepsRest(s: World, w: nat, l: nat)
    requires w in s.workers && s.workers[w].pc.Created?
    ensures var s' := JoinTurn(s, w, l);
      && s'.runners == s.runners && s'.nextLock == s.nextLock && s'.nextWorker == s.nextWorker
      && s'.locks.Keys == s.locks.Keys + {l} && s'.workers.Keys == s.workers.Keys
  {
    var was := if l in s.locks then s.locks[l] else TurnLock(false, []);
    if !was.locked && was.waiters == [] {
    } else {
    }
  }

  lemma JoinKeepsSlots(s: World, w: nat, l: nat)
    requires w in s.workers && s.workers[w].pc.Created? && SlotsInv(s.workers, s.runners)
    ensures SlotsInv(JoinTurn(s, w, l).workers, s.runners)
  {
    SlotMove(s.workers, s.runners, w, JoinTurn(s, w, l).workers[w], s.runners);
  }

  lemma BeginKeepsInv(s: World, w: nat)
    requires Inv(s) && w in s.workers && s.workers[w].pc.Created? && s.workers[w].inst in s.runners
    ensures Inv(BeginTurn(s, w))
  {
    match s.workers[w].task.conv
    case None => NeutralGoto(s, s, w, AwaitSlot);
    case Some(conv) => BeginTurnKeepsInv(s, w, conv);
  }

  lemma BeginTurnKeepsInv(s: World, w: nat, conv: string)
    requires Inv(s) && w in s.workers && s.workers[w].pc.Created? && s.workers[w].inst in s.runners
    requires s.workers[w].task.conv == Some(conv)
    ensures Inv(BeginTurn(s, w))
  {
    hide AfterLookup, LockFor, JoinTurn, LocksInv, SlotsInv;
    var i := s.workers[w].inst;
    var s1 := LookedUp(s, i, conv);
    var l := LockFor(s.runners[i].table, conv, s.nextLock);
    LookUpKeepsSlots(s, i, conv);
    LookUpKeepsTables(s, i, conv);
    JoinKeepsInv(s1, w, l);
    JoinKeepsRest(s1, w, l);
    JoinKeepsSlots(s1, w, l);
  }

  lemma WakeKeepsLocks(s: World, w: nat, v: Worker)
    requires LocksInv(s.workers, s.locks) && w in s.workers && QueueEnabled(s, w, Wake)
    requires v == s.workers[w].(pc := PollLease(s.now + CONV_LOCK_TTL))
    ensures var l := s.workers[w].lock.value;
      LocksInv(s.workers[w := v], s.locks[l := TurnLock(true, s.locks[l].waiters[1..])])
  {
    LockWake(s.workers, s.locks, w, v, s.workers[w].lock.value);
  }

  lemma WakeKeepsInv(s: World, w: nat)
    requires Inv(s) && w in s.workers && QueueEnabled(s, w, Wake)
    ensures Inv(Woken(s, w))
  {
    hide LocksInv, SlotsInv, TableOk, HoldsLock;
    var v := s.workers[w].(pc := PollLease(s.now + CONV_LOCK_TTL));
    WakeKeepsLocks(s, w, v);
    SlotMove(s.workers, s.runners, w, v, s.runners);
    assert Woken(s, w).locks.Keys == s.locks.Keys;
  }

  lemma PollKeepsInv(s: World, w: nat)
    requires Inv(s) && w in s.workers && QueueEnabled(s, w, Poll)
    ensures Inv(PollOnce(s, w))
  {
    hide LocksInv, SlotsInv, TableOk;
    var conv := s.workers[w].task.conv.value;
    if s.runners[s.workers[w].inst].shutdown {
      NeutralGoto(s, s, w, Requeue);
    } else if !Live(s, conv) {
      var v := Leased(s, w, conv).workers[w];
      LockNeutral(s.workers, s.locks, w, v);
      SlotMove(s.workers, s.runners, w, v, s.runners);
    } else if s.now >= s.workers[w].pc.deadline {
      NeutralGoto(s, s, w, Requeue);
    }
  }

  lemma StreamSteps(s: World, st: StreamStep)
    requires Inv(s) && StreamEnabled(s, st)
    ensures Inv(StreamNext(s, st))
  {
    match st {
      case Start(e) => StartKeepsInv(s, e);
      case _ => hide LocksInv, SlotHolders;
    }
  }

  lemma QueueSteps(s: World, w: nat, st: QueueStep)
    requires Inv(s) && w in s.workers && QueueEnabled(s, w, st)
    ensures Inv(QueueNext(s, w, st))
  {
    hide Inv, BeginTurn, PollOnce, Woken;
    match st {
      case Begin => BeginKeepsInv(s, w);
      case Wake => WakeKeepsInv(s, w);
      case Poll => PollKeepsInv(s, w);
      case PushBack(ok) => NeutralGoto(s, AppendOrLose(s, s.workers[w].task, ok), w, Requeued);
      case GiveUp => UnlockGoto(s, w, Gone);
    }
  }

  lemma TakeSlotKeepsInv(s: World, w: nat)
    requires Inv(s) && w in s.workers && HandleEnabled(s, w, TakeSlot)
    ensures Inv(TookSlot(s, w))
  {
    hide LocksInv, SlotsInv, TableOk;
    SlotGoto(s, w, Handling, -1);
    var s1 := Goto(MoveSlot(s, s.workers[w].inst, -1), w, Handling);
    assert TookSlot(s, w) == s1.(executed := TookSlot(s, w).executed);
  }

  lemma HandleSteps(s: World, w: nat, st: HandleStep)
    requires Inv(s) && w in s.workers && HandleEnabled(s, w, st)
    ensures Inv(HandleNext(s, w, st))
  {
    var t := s.workers[w].task;
    hide Inv, TookSlot, StreamingSet, Closed, PushedRetry, PushedDead;
    match st {
      case TakeSlot => TakeSlotKeepsInv(s, w);
      case SetStreaming(on) => SetStreamingKeepsInv(s, t.msg.value, on);
      case Succeed => NeutralGoto(s, s.(finished := s.finished + [t]), w, Leaving(0));
      case Fail => NeutralGoto(s, s, w, Failed(s, w).workers[w].pc);
      case PushRetry(ok) => PushRetryKeepsInv(s, w, ok);
      case PushDead(ok) => PushDeadKeepsInv(s, w, ok);
      case Mark(ok) =>
        ClosedIsLocal(s, t, ok);
        NeutralGoto(s, Closed(s, t, ok), w, Leaving(0));
    }
  }

  lemma SetStreamingKeepsInv(s: World, m: nat, on: bool)
    requires Inv(s)
    ensures Inv(StreamingSet(s, m, on))
  {
    hide LocksInv, SlotsInv, TableOk;
  }

  lemma PushRetryKeepsInv(s: World, w: nat, ok: bool)
    requires Inv(s) && w in s.workers && s.workers[w].pc.RetryAppend?
    ensures Inv(PushedRetry(s, w, ok))
  {
    hide Inv;
    var t := s.workers[w].task;
    NeutralGoto(s, AppendOrLose(s, t.(attempt := t.attempt + 1), ok), w, Leaving(RetryDelay(t.attempt + 1)));
  }

  lemma PushDeadKeepsInv(s: World, w: nat, ok: bool)
    requires Inv(s) && w in s.workers && s.workers[w].pc.DeadAppend?
    ensures Inv(PushedDead(s, w, ok))
  {
    hide Inv;
    var t := s.workers[w].task;
    NeutralGoto(s, if ok then s.(dead := s.dead + [t]) else s.(lost := s.lost + [t]), w, Marking);
  }

  lemma LeaveSlotKeepsInv(s: World, w: nat)
    requires Inv(s) && w in s.workers && LeaveEnabled(s, w, LeaveSlot)
    ensures Inv(LeaveNext(s, w, LeaveSlot))
  {
    var delay := s.workers[w].pc.delay;
    if s.workers[w].task.conv.Some? {
      SlotGoto(s, w, DropLease(delay), 1);
    } else {
      SlotGoto(s, w, Asleep(s, delay), 1);
    }
  }

  lemma LeaveSteps(s: World, w: nat, st: LeaveStep)
    requires Inv(s) && w in s.workers && LeaveEnabled(s, w, st)
    ensures Inv(LeaveNext(s, w, st))
  {
    match st {
      case LeaveSlot => LeaveSlotKeepsInv(s, w);
      case Release =>
        NeutralGoto(s, CompareAndDelete(s, s.workers[w].task.conv.value, w), w, Unlocking(s.workers[w].pc.delay));
      case Unlock => UnlockGoto(s, w, Asleep(s, s.workers[w].pc.delay));
      case SleepOver => NeutralGoto(s, s, w, Gone);
    }
  }

  lemma StepKeepsInv(s: World, st: Step)
    requires Inv(s) && Enabled(s, st)
    ensures Inv(Next(s, st))
  {
    hide Inv;
    match st {
      case Stream(e) => StreamSteps(s, e);
      case Queue(w, q) => QueueSteps(s, w, q);
      case Handle(w, h) => HandleSteps(s, w, h);
      case Leave(w, l) => LeaveSteps(s, w, l);
    }
  }

  lemma {:induction false} RunKeepsInv(s: World, steps: seq<Step>)
    requires Inv(s) && CanRun(s, steps)
    ensures Inv(After(s, steps))
    decreases steps
  {
    if steps != [] {
      StepKeepsInv(s, steps[0]);
      RunKeepsInv(Next(s, steps[0]), steps[1..]);
    }
  }

  lemma ReachableInv(s: World)
    requires Reachable(s)
    ensures Inv(s)
  {
    var s0, steps :| Initial(s0) && CanRun(s0, steps) && After(s0, steps) == s;
    assert Inv(s0) by {
      forall i | i in s0.runners ensures SlotHolders(s0.workers, i) == {} {
      }
    }
    RunKeepsInv(s0, steps);
  }

  // ---- results ----

  /** Never more than MAX_CONCURRENT coroutines of one process are inside the semaphore. */
  lemma BoundedConcurrency(s: World, i: nat)
    requires Reachable(s) && i in s.runners
    ensures |SlotHolders(s.workers, i)| <= MAX_CONCURRENT
  {
    ReachableInv(s);
  }

  /** Suspended in the back-off sleep, or returned. */
  predicate Idle(pc: Pc) {
    pc.Backoff? || pc.Gone?
  }

  /**
   A coroutine that sleeps before a retry, or has returned, holds nothing: no live lease is its own,
   it waits in no lock's queue, and every locked turn lock is held by another coroutine.
   */
  lemma IdleHoldsNothing(s: World, w: nat)
    requires Reachable(s) && w in s.workers && Idle(s.workers[w].pc)
    ensures forall c | Live(s, c) :: s.leases[c].owner != w
    ensures forall l | l in s.locks :: w !in s.locks[l].waiters
    ensures forall l | l in s.locks && s.locks[l].locked ::
              exists v :: v != w && v in s.workers && HoldsLock(s.workers[v]) && s.workers[v].lock == Some(l)
  {
    ReachableInv(s);
    RunnerLease.ReachableInv(s);
    forall l | l in s.locks && s.locks[l].locked
      ensures exists v :: v != w && v in s.workers && HoldsLock(s.workers[v]) && s.workers[v].lock == Some(l)
    {
      assert LockOk(s.workers, l, s.locks[l]);
      var v :| v in s.workers && HoldsLock(s.workers[v]) && s.workers[v].lock == Some(l);
      assert v != w;
    }
    forall l | l in s.locks ensures w !in s.locks[l].waiters {
      assert LockOk(s.workers, l, s.locks[l]);
    }
  }

  /** When every coroutine is idle, all slots are free, all turn locks open, and no lease is live. */
  lemma QuietWorldIsFree(s: World)
    requires Reachable(s) && forall w | w in s.workers :: Idle(s.workers[w].pc)
    ensures forall i | i in s.runners :: s.runners[i].freeSlots == MAX_CONCURRENT
    ensures forall l | l in s.locks :: !s.locks[l].locked && s.locks[l].waiters == []
    ensures forall c :: !Live(s, c)
  {
    ReachableInv(s);
    assert forall c :: !Live(s, c) by {
      RunnerLease.ReachableInv(s);
    }
    hide Reachable;
    forall i | i in s.runners ensures s.runners[i].freeSlots == MAX_CONCURRENT {
      assert SlotHolders(s.workers, i) == {};
    }
    forall l | l in s.locks ensures !s.locks[l].locked && s.locks[l].waiters == [] {
      assert LockOk(s.workers, l, s.locks[l]);
      assert |s.locks[l].waiters| > 0 ==>
        s.locks[l].waiters[0] in s.workers && !Idle(s.workers[s.locks[l].waiters[0]].pc);
    }
  }
}
