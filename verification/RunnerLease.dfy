/** Mutual exclusion per conversation, across all instances and interleavings. */
module RunnerLease {
  import opened Prelude
  import opened RunnerSteps

  /** The coroutine got the Redis lease of its conversation and has not tried to give it back yet. */
  ghost predicate Holds(w: Worker) {
    && w.task.conv.Some?
    && (w.pc.AwaitSlot? || w.pc.Handling? || w.pc.RetryAppend? || w.pc.DeadAppend? || w.pc.Marking?
        || w.pc.Leaving? || w.pc.DropLease?)
  }

  /** Holding the lease longer than its TTL. */
  ghost predicate Overstays(s: World, w: nat)
    requires w in s.workers
  {
    s.now >= s.workers[w].leasedAt + CONV_LOCK_TTL
  }

  ghost predicate InTime(now: nat, w: Worker) {
    Holds(w) && now < w.leasedAt + CONV_LOCK_TTL
  }

  /** A holder in time owns the lease of its conversation. */
  ghost predicate Backed(now: nat, leases: map<string, Lease>, id: nat, w: Worker) {
    InTime(now, w) ==>
      w.task.conv.value in leases && leases[w.task.conv.value] == Lease(id, w.leasedAt + CONV_LOCK_TTL)
  }

  /** A live lease belongs to a holder in time. */
  ghost predicate Owned(now: nat, workers: map<nat, Worker>, conv: string, l: Lease) {
    now < l.expiresAt ==>
      && l.owner in workers && Holds(workers[l.owner]) && workers[l.owner].task.conv == Some(conv)
      && l.expiresAt == workers[l.owner].leasedAt + CONV_LOCK_TTL
  }

  ghost predicate InvOn(now: nat, workers: map<nat, Worker>, next: nat, leases: map<string, Lease>) {
    && (forall w | w in workers :: w < next && Backed(now, leases, w, workers[w]))
    && (forall c | c in leases :: Owned(now, workers, c, leases[c]))
  }

  ghost predicate Inv(s: World) {
    InvOn(s.now, s.workers, s.nextWorker, s.leases)
  }

  ghost predicate SameHolding(v: Worker, v': Worker) {
    v'.task == v.task && v'.leasedAt == v.leasedAt && (Holds(v') <==> Holds(v))
  }

  lemma MoveKeeps(now: nat, workers: map<nat, Worker>, next: nat, leases: map<string, Lease>, w: nat, v: Worker)
    requires InvOn(now, workers, next, leases)
    requires w in workers && SameHolding(workers[w], v)
    ensures InvOn(now, workers[w := v], next, leases)
  {
  }

  lemma SpawnKeeps(now: nat, workers: map<nat, Worker>, next: nat, leases: map<string, Lease>, v: Worker)
    requires InvOn(now, workers, next, leases) && !Holds(v)
    ensures InvOn(now, workers[next := v], next + 1, leases)
  {
  }

  lemma AcquireKeeps(now: nat, workers: map<nat, Worker>, next: nat, leases: map<string, Lease>, w: nat, v: Worker)
    requires InvOn(now, workers, next, leases)
    requires w in workers && !Holds(workers[w]) && Holds(v) && v.leasedAt == now
    requires v.task.conv.value in leases ==> now >= leases[v.task.conv.value].expiresAt
    ensures InvOn(now, workers[w := v], next, leases[v.task.conv.value := Lease(w, now + CONV_LOCK_TTL)])
  {
  }

  lemma ReleaseKeeps(now: nat, workers: map<nat, Worker>, next: nat, leases: map<string, Lease>, w: nat, v: Worker)
    requires InvOn(now, workers, next, leases)
    requires w in workers && Holds(workers[w]) && !Holds(v)
    ensures var c := workers[w].task.conv.value;
      var mine := c in leases && now < leases[c].expiresAt && leases[c].owner == w;
      InvOn(now, workers[w := v], next, if mine then leases - {c} else leases)
  {
  }

  /** Nothing the invariant looks at differs. */
  ghost predicate Quiet(s: World, s': World) {
    s'.now == s.now && s'.leases == s.leases && s'.nextWorker == s.nextWorker && s'.workers == s.workers
  }

  /** A coroutine moves on without gaining or giving back a lease. */
  lemma GotoKeepsInv(s: World, s': World, w: nat, pc: Pc)
    requires Inv(s) && Quiet(s, s') && w in s.workers && SameHolding(s.workers[w], s.workers[w].(pc := pc))
    ensures Inv(Goto(s', w, pc))
  {
    MoveKeeps(s.now, s.workers, s.nextWorker, s.leases, w, s.workers[w].(pc := pc));
  }

  lemma PollKeepsInv(s: World, w: nat)
    requires Inv(s) && w in s.workers && QueueEnabled(s, w, Poll)
    ensures Inv(PollOnce(s, w))
  {
    hide InvOn;
    var v := PollOnce(s, w).workers[w];
    if v.pc.AwaitSlot? {
      AcquireKeeps(s.now, s.workers, s.nextWorker, s.leases, w, v);
    } else if v.pc.Requeue? {
      MoveKeeps(s.now, s.workers, s.nextWorker, s.leases, w, v);
    }
  }

  lemma StreamSteps(s: World, st: StreamStep)
    requires Inv(s) && StreamEnabled(s, st)
    ensures Inv(StreamNext(s, st))
  {
    match st {
      case Start(e) => SpawnKeeps(s.now, s.workers, s.nextWorker, s.leases, Started(s, e).workers[s.nextWorker]);
      case _ =>
    }
  }

  lemma BeginKeepsInv(s: World, w: nat)
    requires Inv(s) && w in s.workers && QueueEnabled(s, w, Begin)
    ensures Inv(BeginTurn(s, w))
  {
    BeginIsLocal(s, w);
    var s' := BeginTurn(s, w);
    MoveKeeps(s.now, s.workers, s.nextWorker, s.leases, w, s'.workers[w]);
  }

  lemma QueueSteps(s: World, w: nat, st: QueueStep)
    requires Inv(s) && w in s.workers && QueueEnabled(s, w, st)
    ensures Inv(QueueNext(s, w, st))
  {
    match st {
      case Begin => BeginKeepsInv(s, w);
      case Wake =>
        var l := s.workers[w].lock.value;
        GotoKeepsInv(s, s.(locks := s.locks[l := TurnLock(true, s.locks[l].waiters[1..])]), w,
                     PollLease(s.now + CONV_LOCK_TTL));
      case Poll => PollKeepsInv(s, w);
      case PushBack(ok) => GotoKeepsInv(s, AppendOrLose(s, s.workers[w].task, ok), w, Requeued);
      case GiveUp => GotoKeepsInv(s, ReleaseTurnLock(s, w), w, Gone);
    }
  }

  lemma HandleSteps(s: World, w: nat, st: HandleStep)
    requires Inv(s) && w in s.workers && HandleEnabled(s, w, st)
    ensures Inv(HandleNext(s, w, st))
  {
    var t := s.workers[w].task;
    match st {
      case TakeSlot =>
        GotoKeepsInv(s, MoveSlot(s, s.workers[w].inst, -1).(executed := s.executed + multiset{t.id}), w, Handling);
      case SetStreaming(_) =>
      case Succeed => GotoKeepsInv(s, s.(finished := s.finished + [t]), w, Leaving(0));
      case Fail => GotoKeepsInv(s, s, w, Failed(s, w).workers[w].pc);
      case PushRetry(ok) =>
        GotoKeepsInv(s, AppendOrLose(s, t.(attempt := t.attempt + 1), ok), w, Leaving(RetryDelay(t.attempt + 1)));
      case PushDead(ok) =>
        GotoKeepsInv(s, if ok then s.(dead := s.dead + [t]) else s.(lost := s.lost + [t]), w, Marking);
      case Mark(ok) => GotoKeepsInv(s, Closed(s, t, ok), w, Leaving(0));
    }
  }

  lemma LeaveSteps(s: World, w: nat, st: LeaveStep)
    requires Inv(s) && w in s.workers && LeaveEnabled(s, w, st)
    ensures Inv(LeaveNext(s, w, st))
  {
    match st {
      case LeaveSlot =>
        GotoKeepsInv(s, MoveSlot(s, s.workers[w].inst, 1), w, AfterSlot(s, w, s.workers[w].pc.delay));
      case Release => ReleaseKeeps(s.now, s.workers, s.nextWorker, s.leases, w, LeaveNext(s, w, st).workers[w]);
      case Unlock => GotoKeepsInv(s, ReleaseTurnLock(s, w), w, Asleep(s, s.workers[w].pc.delay));
      case SleepOver => GotoKeepsInv(s, s, w, Gone);
    }
  }

  lemma StepKeepsInv(s: World, st: Step)
    requires Inv(s) && Enabled(s, st)
    ensures Inv(Next(s, st))
  {
    match st {
      case Stream(e) => StreamSteps(s, e);
      case Queue(w, q) => QueueSteps(s, w, q);
      case Handle(w, h) => HandleSteps(s, w, h);
      case Leave(w, l) => LeaveSteps(s, w, l);
    }
  }

  lemma {:induction false} RunKeepsInv(s: World, steps: seq<Step>)
    requires Inv(s) && CanRun(s, steps)
    ensures Inv(After(s, steps))
    decreases steps
  {
    if steps != [] {
      StepKeepsInv(s, steps[0]);
      RunKeepsInv(Next(s, steps[0]), steps[1..]);
    }
  }

  lemma ReachableInv(s: World)
    requires Reachable(s)
    ensures Inv(s)
  {
    var s0, steps :| Initial(s0) && CanRun(s0, steps) && After(s0, steps) == s;
    RunKeepsInv(s0, steps);
  }

  /**
   In every reachable world two different coroutines that hold the lease of one conversation include
   one that overstays its TTL. So while no holder overstays (its wait for a slot included), at most
   one `handle` call runs per conversation.
   */
  lemma MutualExclusion(s: World, w1: nat, w2: nat)
    requires Reachable(s)
    requires w1 in s.workers && w2 in s.workers && w1 != w2
    requires Holds(s.workers[w1]) && Holds(s.workers[w2])
    requires s.workers[w1].task.conv == s.workers[w2].task.conv
    ensures Overstays(s, w1) || Overstays(s, w2)
  {
    ReachableInv(s);
  }

  /**
   Giving the lease back late is harmless: whatever the releasing coroutine does, the lease of any
   other coroutine that still holds its own survives the step.
   */
  lemma LateReleaseSparesSuccessor(s: World, w: nat, successor: nat)
    requires Reachable(s) && Enabled(s, Leave(w, Release)) && successor != w
    requires successor in s.workers && Holds(s.workers[successor]) && !Overstays(s, successor)
    ensures var s' := Next(s, Leave(w, Release));
      var c := s.workers[successor].task.conv.value;
      Live(s', c) && s'.leases[c] == s.leases[c] && s'.leases[c].owner == successor
  {
    ReachableInv(s);
  }

  /** A lease released in time is gone at once. */
  lemma TimelyReleaseFrees(s: World, w: nat)
    requires Reachable(s) && Enabled(s, Leave(w, Release)) && !Overstays(s, w)
    ensures !Live(Next(s, Leave(w, Release)), s.workers[w].task.conv.value)
  {
    ReachableInv(s);
  }

  /** No lease of the conversation is stored, or its time is over. */
  predicate Free(s: World, conv: string) {
    conv !in s.leases || s.leases[conv].expiresAt <= s.now
  }

  /** The coroutine goes on to wait for a slot, with the lease for a whole time to live. */
  predicate Gets(s: World, s': World, w: nat, conv: string)
    requires w in s.workers
  {
    && w in s'.workers && s'.workers[w] == s.workers[w].(pc := AwaitSlot, leasedAt := s.now)
    && conv in s'.leases && s'.leases[conv] == Lease(w, s.now + CONV_LOCK_TTL)
  }

  /**
   The outcome of one poll, which looks at the coroutine's own conversation only: it gets the lease, for
   the whole time to live, exactly if the lease is free and the process goes on; it gives up exactly if the
   process shuts down, or the deadline has passed with the lease taken; otherwise nothing changes.
   */
  lemma PollOutcome(s: World, w: nat)
    requires w in s.workers && QueueEnabled(s, w, Poll)
    ensures var s' := Next(s, Queue(w, Poll)); var wk := s.workers[w]; var conv := wk.task.conv.value;
      var down := s.runners[wk.inst].shutdown; var late := s.now >= wk.pc.deadline;
      && (Gets(s, s', w, conv) <==> !down && Free(s, conv))
      && (w in s'.workers && s'.workers[w] == wk.(pc := Requeue) <==> down || (late && !Free(s, conv)))
      && (s' == s <==> !down && !late && !Free(s, conv))
  {
    var wk := s.workers[w];
    var conv := wk.task.conv.value;
    assert Next(s, Queue(w, Poll)) == PollOnce(s, w) && (Live(s, conv) <==> !Free(s, conv));
    hide Live, Free;
    if s.runners[wk.inst].shutdown || Live(s, conv) {
      hide Leased;
    }
  }

  /** A poll that gets the lease writes no other one, and a poll that does not writes none. */
  lemma PollTouchesOwn(s: World, w: nat)
    requires w in s.workers && QueueEnabled(s, w, Poll)
    ensures var s' := Next(s, Queue(w, Poll)); var conv := s.workers[w].task.conv.value;
      && s'.now == s.now && s'.leases - {conv} == s.leases - {conv} && s'.workers - {w} == s.workers - {w}
      && (!Gets(s, s', w, conv) ==> s'.leases == s.leases)
  {
    var wk := s.workers[w];
    var conv := wk.task.conv.value;
    assert Next(s, Queue(w, Poll)) == PollOnce(s, w);
    var t := Leased(s, w, conv);
    assert t.leases - {conv} == s.leases - {conv} && t.workers - {w} == s.workers - {w} && Gets(s, t, w, conv);
    var u := Goto(s, w, Requeue);
    assert u.workers - {w} == s.workers - {w};
    hide Live, Leased, Goto, Gets, Next;
  }

  /** The next poll for the conversation after a release in time gets the lease, from whichever process. */
  lemma PollAfterReleaseGets(s: World, w: nat, next: nat)
    requires Reachable(s) && Enabled(s, Leave(w, Release)) && !Overstays(s, w) && next in s.workers && next != w
    requires QueueEnabled(s, next, Poll) && s.workers[next].task.conv == s.workers[w].task.conv
    requires !s.runners[s.workers[next].inst].shutdown
    ensures var released := Next(s, Leave(w, Release)); var conv := s.workers[w].task.conv.value;
      && Enabled(released, Queue(next, Poll))
      && var s' := Next(released, Queue(next, Poll));
         && next in s'.workers && s'.workers[next].pc == AwaitSlot
         && conv in s'.leases && s'.leases[conv] == Lease(next, s.now + CONV_LOCK_TTL)
  {
    TimelyReleaseFrees(s, w);
    var released := Next(s, Leave(w, Release));
    assert released.workers[next] == s.workers[next] && released.runners == s.runners && released.now == s.now;
    hide Reachable, LeaveNext;
    PollOutcome(released, next);
  }
}
