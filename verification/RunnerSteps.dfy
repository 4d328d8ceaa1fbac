/**
 The runner task protocol as a state machine: any number of runner instances share one task stream,
 and every task read runs as its own coroutine. One step is what happens between two awaits (or the
 server-side effect of one Redis call), so the runs of this machine are the interleavings of
 `Runner.run` and `Runner._run_task` over all instances.
 */
module RunnerSteps {
  import opened Prelude
  import opened LockTable

  const MAX_RETRIES: nat := 3
  const MAX_CONCURRENT: nat := 10
  /** Milliseconds. */
  const CONV_LOCK_TTL: nat := 1_200_000

  /**
   A task payload. `id` identifies the submitted task across requeues, `attempt` is the `_attempt`
   counter the payload carries. A missing and an empty conversation id are both `None`.
   */
  datatype Task = Task(id: nat, conv: Option<string>, msg: Option<nat>, attempt: nat)

  /** Where a coroutine is suspended. The delays are the retry back-off still to be slept. */
  datatype Pc =
    | Created
    | AwaitLock                  // queued behind another turn of the same process
    | PollLease(deadline: nat)   // polling SET NX on acp:run:{conv}
    | Requeue | Requeued         // gave up on the lease: before and after the append
    | AwaitSlot
    | Handling
    | RetryAppend | DeadAppend
    | Marking
    | Leaving(delay: nat)        // about to leave the semaphore
    | DropLease(delay: nat)
    | Unlocking(delay: nat)
    | Backoff(until: nat)
    | Gone

  datatype Worker = Worker(inst: nat, task: Task, pc: Pc, lock: Option<nat>, leasedAt: nat)

  /** The value and expiry of a Redis key acp:run:{conv}; the token is unique to one coroutine. */
  datatype Lease = Lease(owner: nat, expiresAt: nat)

  /** `asyncio.Lock`: the waiters are served in order, and a woken waiter locks when it runs. */
  datatype TurnLock = TurnLock(locked: bool, waiters: seq<nat>)

  datatype Runner = Runner(shutdown: bool, freeSlots: nat, table: Table<nat>)

  datatype World = World(
    now: nat,
    issued: map<nat, Task>,
    stream: map<nat, Task>,
    pending: map<nat, (nat, Task)>,
    nextEntry: nat,
    workers: map<nat, Worker>,
    nextWorker: nat,
    finished: seq<Task>,
    dead: seq<Task>,
    lost: seq<Task>,
    executed: multiset<nat>,
    leases: map<string, Lease>,
    runners: map<nat, Runner>,
    locks: map<nat, TurnLock>,
    nextLock: nat,
    streaming: set<nat>,
    unmarked: set<nat>)

  /** Steps of the task producers, of the read loops, and of time. */
  datatype StreamStep =
    | Tick(d: nat)
    | Submit(t: Task, streams: bool)
    | Deliver(e: nat, i: nat)
    | Start(e: nat)
    | Shutdown(i: nat)
    | Reclaim(e: nat)

  /** Steps of one coroutine up to the semaphore, inside it, and out of it again. */
  datatype QueueStep = Begin | Wake | Poll | PushBack(ok: bool) | GiveUp
  datatype HandleStep =
    | TakeSlot
    | SetStreaming(on: bool)
    | Succeed
    | Fail
    | PushRetry(ok: bool)
    | PushDead(ok: bool)
    | Mark(ok: bool)
  datatype LeaveStep = LeaveSlot | Release | Unlock | SleepOver

  datatype Step =
    | Stream(st: StreamStep)
    | Queue(w: nat, q: QueueStep)
    | Handle(w: nat, h: HandleStep)
    | Leave(w: nat, l: LeaveStep)

  function Live(s: World, conv: string): bool {
    conv in s.leases && s.now < s.leases[conv].expiresAt
  }

  function Pow2(n: nat): nat {
    if n == 0 then 1 else 2 * Pow2(n - 1)
  }

  function RetryDelay(attempt: nat): nat {
    1000 * Min(Pow2(attempt), 60)
  }

  ghost predicate StreamEnabled(s: World, st: StreamStep) {
    match st
    case Tick(d) => true
    case Submit(t, _) =>
      && t.id !in s.issued && t.attempt == 0
      && (t.msg.Some? ==> forall i | i in s.issued :: s.issued[i].msg != t.msg)
    case Deliver(e, i) => e in s.stream && i in s.runners
    case Start(e) => e in s.pending && s.pending[e].0 in s.runners && !s.runners[s.pending[e].0].shutdown
    case Shutdown(i) => i in s.runners
    case Reclaim(e) => e in s.pending && s.pending[e].0 in s.runners && s.runners[s.pending[e].0].shutdown
  }

  ghost predicate QueueEnabled(s: World, w: nat, st: QueueStep)
    requires w in s.workers
  {
    var wk := s.workers[w];
    match st
    case Begin => wk.pc.Created? && wk.inst in s.runners
    case Wake => wk.pc.AwaitLock? && wk.lock.Some? && wk.lock.value in s.locks && NextInLine(s.locks[wk.lock.value], w)
    case Poll => wk.pc.PollLease? && wk.task.conv.Some? && wk.inst in s.runners
    case PushBack(_) => wk.pc.Requeue?
    case GiveUp => wk.pc.Requeued?
  }

  predicate NextInLine(l: TurnLock, w: nat) {
    !l.locked && |l.waiters| > 0 && l.waiters[0] == w
  }

  ghost predicate HandleEnabled(s: World, w: nat, st: HandleStep)
    requires w in s.workers
  {
    var wk := s.workers[w];
    match st
    case TakeSlot => wk.pc.AwaitSlot? && wk.inst in s.runners && s.runners[wk.inst].freeSlots > 0
    case SetStreaming(_) => wk.pc.Handling? && wk.task.msg.Some?
    case Succeed => wk.pc.Handling?
    case Fail => wk.pc.Handling?
    case PushRetry(_) => wk.pc.RetryAppend?
    case PushDead(_) => wk.pc.DeadAppend?
    case Mark(_) => wk.pc.Marking?
  }

  ghost predicate LeaveEnabled(s: World, w: nat, st: LeaveStep)
    requires w in s.workers
  {
    var wk := s.workers[w];
    match st
    case LeaveSlot => wk.pc.Leaving? && wk.inst in s.runners
    case Release => wk.pc.DropLease? && wk.task.conv.Some?
    case Unlock => wk.pc.Unlocking?
    case SleepOver => wk.pc.Backoff? && s.now >= wk.pc.until
  }

  ghost predicate Enabled(s: World, st: Step) {
    match st
    case Stream(e) => StreamEnabled(s, e)
    case Queue(w, q) => w in s.workers && QueueEnabled(s, w, q)
    case Handle(w, h) => w in s.workers && HandleEnabled(s, w, h)
    case Leave(w, l) => w in s.workers && LeaveEnabled(s, w, l)
  }

  function Goto(s: World, w: nat, pc: Pc): World
    requires w in s.workers
  {
    s.(workers := s.workers[w := s.workers[w].(pc := pc)])
  }

  /** The `xadd` of a payload to the task stream. */
  function Append(s: World, t: Task): World {
    s.(stream := s.stream[s.nextEntry := t], nextEntry := s.nextEntry + 1)
  }

  function AppendOrLose(s: World, t: Task, ok: bool): World {
    if ok then Append(s, t) else s.(lost := s.lost + [t])
  }

  function LockedOnes(s: World): set<nat> {
    set l | l in s.locks && s.locks[l].locked
  }

  /** `_get_conv_lock` and the first, possibly immediate, part of `conv_lock.acquire()`. */
  function BeginTurn(s: World, w: nat): World
    requires w in s.workers && s.workers[w].inst in s.runners
  {
    match s.workers[w].task.conv
    case None => Goto(s, w, AwaitSlot)
    case Some(conv) =>
      JoinTurn(LookedUp(s, s.workers[w].inst, conv), w, LockFor(s.runners[s.workers[w].inst].table, conv, s.nextLock))
  }

  /** The table part of `_get_conv_lock`; a new lock would be number `nextLock`. */
  function LookedUp(s: World, i: nat, conv: string): World
    requires i in s.runners
  {
    var t := AfterLookup(s.runners[i].table, conv, s.nextLock, LockedOnes(s), CONV_LOCK_MAX);
    s.(runners := s.runners[i := s.runners[i].(table := t)], nextLock := s.nextLock + 1)
  }

  function JoinTurn(s: World, w: nat, l: nat): World
    requires w in s.workers
  {
    var was := if l in s.locks then s.locks[l] else TurnLock(false, []);
    if !was.locked && was.waiters == [] then
      s.(locks := s.locks[l := TurnLock(true, [])],
         workers := s.workers[w := s.workers[w].(lock := Some(l), pc := PollLease(s.now + CONV_LOCK_TTL))])
    else
      s.(locks := s.locks[l := was.(waiters := was.waiters + [w])],
         workers := s.workers[w := s.workers[w].(lock := Some(l), pc := AwaitLock)])
  }

  /** Beginning a turn touches the coroutine itself and its process's locks, nothing shared. */
  lemma BeginIsLocal(s: World, w: nat)
    requires w in s.workers && s.workers[w].pc.Created? && s.workers[w].inst in s.runners
    ensures var s' := BeginTurn(s, w);
      && w in s'.workers
      && s' == s.(workers := s.workers[w := s'.workers[w]], runners := s'.runners, locks := s'.locks,
                  nextLock := s'.nextLock)
      && s'.workers[w] == s.workers[w].(pc := s'.workers[w].pc, lock := s'.workers[w].lock)
      && (s'.workers[w].pc == AwaitLock || s'.workers[w].pc.PollLease?
          || (s'.workers[w].pc == AwaitSlot && s.workers[w].task.conv.None?))
  {
  }

  function ReleaseTurnLock(s: World, w: nat): World
    requires w in s.workers
  {
    match s.workers[w].lock
    case None => s
    case Some(l) =>
      if l in s.locks then s.(locks := s.locks[l := s.locks[l].(locked := false)]) else s
  }

  /** One turn of the polling loop in `_acquire_conv_redis_lock`. */
  function PollOnce(s: World, w: nat): World
    requires w in s.workers && s.workers[w].pc.PollLease? && s.workers[w].task.conv.Some?
    requires s.workers[w].inst in s.runners
  {
    var wk := s.workers[w];
    var conv := wk.task.conv.value;
    if s.runners[wk.inst].shutdown then Goto(s, w, Requeue)
    else if !Live(s, conv) then Leased(s, w, conv)
    else if s.now >= wk.pc.deadline then Goto(s, w, Requeue)
    else s
  }

  /** `SET key token NX EX ttl` succeeded. */
  function Leased(s: World, w: nat, conv: string): World
    requires w in s.workers
  {
    s.(leases := s.leases[conv := Lease(w, s.now + CONV_LOCK_TTL)],
       workers := s.workers[w := s.workers[w].(pc := AwaitSlot, leasedAt := s.now)])
  }

  function MoveSlot(s: World, i: nat, free: int): World
    requires i in s.runners && s.runners[i].freeSlots + free >= 0
  {
    s.(runners := s.runners[i := s.runners[i].(freeSlots := s.runners[i].freeSlots + free)])
  }

  function AfterSlot(s: World, w: nat, delay: nat): Pc
    requires w in s.workers
  {
    if s.workers[w].task.conv.Some? then DropLease(delay) else Asleep(s, delay)
  }

  function Asleep(s: World, delay: nat): Pc {
    if delay > 0 then Backoff(s.now + delay) else Gone
  }

  /** The compare-and-delete script of `_release_conv_redis_lock`. */
  function CompareAndDelete(s: World, conv: string, token: nat): World {
    if Live(s, conv) && s.leases[conv].owner == token then s.(leases := s.leases - {conv}) else s
  }

  function Submitted(s: World, t: Task, streams: bool): World {
    Append(s, t).(issued := s.issued[t.id := t],
                  streaming := if streams && t.msg.Some? then s.streaming + {t.msg.value} else s.streaming)
  }

  /** `xreadgroup` hands an entry to one consumer; it is then pending until acknowledged. */
  function Delivered(s: World, e: nat, i: nat): World
    requires e in s.stream
  {
    s.(stream := s.stream - {e}, pending := s.pending[e := (i, s.stream[e])])
  }

  /** Acknowledge the entry and create its coroutine. */
  function Started(s: World, e: nat): World
    requires e in s.pending
  {
    s.(pending := s.pending - {e}, nextWorker := s.nextWorker + 1,
       workers := s.workers[s.nextWorker := Worker(s.pending[e].0, s.pending[e].1, Created, None, 0)])
  }

  /** `_reclaim_stale`: an entry left pending by a stopped consumer is appended again. */
  function Reclaimed(s: World, e: nat): World
    requires e in s.pending
  {
    Append(s, s.pending[e].1).(pending := s.pending - {e})
  }

  function Woken(s: World, w: nat): World
    requires w in s.workers && s.workers[w].lock.Some? && s.workers[w].lock.value in s.locks
    requires |s.locks[s.workers[w].lock.value].waiters| > 0
  {
    var l := s.workers[w].lock.value;
    Goto(s.(locks := s.locks[l := TurnLock(true, s.locks[l].waiters[1..])]), w, PollLease(s.now + CONV_LOCK_TTL))
  }

  /** Lease timeout or shutdown: the payload goes back to the stream as it was. */
  function PushedBack(s: World, w: nat, ok: bool): World
    requires w in s.workers
  {
    Goto(AppendOrLose(s, s.workers[w].task, ok), w, Requeued)
  }

  function TookSlot(s: World, w: nat): World
    requires w in s.workers && s.workers[w].inst in s.runners && s.runners[s.workers[w].inst].freeSlots > 0
  {
    Goto(MoveSlot(s, s.workers[w].inst, -1).(executed := s.executed + multiset{s.workers[w].task.id}), w, Handling)
  }

  function StreamingSet(s: World, m: nat, on: bool): World {
    s.(streaming := if on then s.streaming + {m} else s.streaming - {m})
  }

  function Succeeded(s: World, w: nat): World
    requires w in s.workers
  {
    Goto(s.(finished := s.finished + [s.workers[w].task]), w, Leaving(0))
  }

  /** A failed `handle` call retries while the payload's attempt counter allows it. */
  function Failed(s: World, w: nat): World
    requires w in s.workers
  {
    Goto(s, w, if s.workers[w].task.attempt < MAX_RETRIES then RetryAppend else DeadAppend)
  }

  function PushedRetry(s: World, w: nat, ok: bool): World
    requires w in s.workers
  {
    var t := s.workers[w].task;
    Goto(AppendOrLose(s, t.(attempt := t.attempt + 1), ok), w, Leaving(RetryDelay(t.attempt + 1)))
  }

  function PushedDead(s: World, w: nat, ok: bool): World
    requires w in s.workers
  {
    var t := s.workers[w].task;
    Goto(if ok then s.(dead := s.dead + [t]) else s.(lost := s.lost + [t]), w, Marking)
  }

  /** `_mark_task_failed`; a database failure is logged and swallowed. */
  function Closed(s: World, t: Task, ok: bool): World {
    if t.conv.None? || t.msg.None? then s
    else if ok then s.(streaming := s.streaming - {t.msg.value})
    else s.(unmarked := s.unmarked + {t.id})
  }

  lemma ClosedIsLocal(s: World, t: Task, ok: bool)
    ensures var s' := Closed(s, t, ok); s' == s.(streaming := s'.streaming, unmarked := s'.unmarked)
  {
  }

  function LeftSlot(s: World, w: nat, delay: nat): World
    requires w in s.workers && s.workers[w].inst in s.runners
  {
    Goto(MoveSlot(s, s.workers[w].inst, 1), w, AfterSlot(s, w, delay))
  }

  function StreamNext(s: World, st: StreamStep): World
    requires StreamEnabled(s, st)
  {
    match st
    case Tick(d) => s.(now := s.now + d)
    case Submit(t, streams) => Submitted(s, t, streams)
    case Deliver(e, i) => Delivered(s, e, i)
    case Start(e) => Started(s, e)
    case Shutdown(i) => s.(runners := s.runners[i := s.runners[i].(shutdown := true)])
    case Reclaim(e) => Reclaimed(s, e)
  }

  function QueueNext(s: World, w: nat, st: QueueStep): World
    requires w in s.workers && QueueEnabled(s, w, st)
  {
    match st
    case Begin => BeginTurn(s, w)
    case Wake => Woken(s, w)
    case Poll => PollOnce(s, w)
    case PushBack(ok) => PushedBack(s, w, ok)
    case GiveUp => Goto(ReleaseTurnLock(s, w), w, Gone)
  }

  function HandleNext(s: World, w: nat, st: HandleStep): World
    requires w in s.workers && HandleEnabled(s, w, st)
  {
    match st
    case TakeSlot => TookSlot(s, w)
    case SetStreaming(on) => StreamingSet(s, s.workers[w].task.msg.value, on)
    case Succeed => Succeeded(s, w)
    case Fail => Failed(s, w)
    case PushRetry(ok) => PushedRetry(s, w, ok)
    case PushDead(ok) => PushedDead(s, w, ok)
    case Mark(ok) => Goto(Closed(s, s.workers[w].task, ok), w, Leaving(0))
  }

  function LeaveNext(s: World, w: nat, st: LeaveStep): World
    requires w in s.workers && LeaveEnabled(s, w, st)
  {
    match st
    case LeaveSlot => LeftSlot(s, w, s.workers[w].pc.delay)
    case Release =>
      Goto(CompareAndDelete(s, s.workers[w].task.conv.value, w), w, Unlocking(s.workers[w].pc.delay))
    case Unlock => Goto(ReleaseTurnLock(s, w), w, Asleep(s, s.workers[w].pc.delay))
    case SleepOver => Goto(s, w, Gone)
  }

  function Next(s: World, st: Step): World
    requires Enabled(s, st)
  {
    match st
    case Stream(e) => StreamNext(s, e)
    case Queue(w, q) => QueueNext(s, w, q)
    case Handle(w, h) => HandleNext(s, w, h)
    case Leave(w, l) => LeaveNext(s, w, l)
  }

  ghost predicate Initial(s: World) {
    && s.issued == map[] && s.stream == map[] && s.pending == map[] && s.workers == map[]
    && s.finished == [] && s.dead == [] && s.lost == [] && s.executed == multiset{}
    && s.leases == map[] && s.locks == map[] && s.streaming == {} && s.unmarked == {}
    && forall i | i in s.runners :: s.runners[i] == Runner(false, MAX_CONCURRENT, [])
  }

  ghost predicate CanRun(s: World, steps: seq<Step>)
    decreases steps
  {
    steps == [] || (Enabled(s, steps[0]) && CanRun(Next(s, steps[0]), steps[1..]))
  }

  ghost function After(s: World, steps: seq<Step>): World
    requires CanRun(s, steps)
    decreases steps
  {
    if steps == [] then s else After(Next(s, steps[0]), steps[1..])
  }

  /** Every interleaving: the worlds some run from an initial world reaches. */
  ghost predicate Reachable(s: World) {
    exists s0, steps :: Initial(s0) && CanRun(s0, steps) && After(s0, steps) == s
  }
}
