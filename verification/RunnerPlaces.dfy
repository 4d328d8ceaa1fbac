/** No task is lost or duplicated: each is in exactly one place, and is executed a bounded number of times. */
module RunnerPlaces {
  import opened Prelude
  import opened RunnerSteps

  datatype Place =
    | Unread(e: nat)
    | Pending(e: nat)
    | InFlight(w: nat)
    | Finished(i: nat)
    | Dead(i: nat)
    | Lost(i: nat)

  /** The coroutine is what keeps its task: it has neither finished it nor appended it anywhere. */
  predicate Carries(pc: Pc) {
    pc.Created? || pc.AwaitLock? || pc.PollLease? || pc.Requeue? || pc.AwaitSlot? || Executing(pc)
  }

  /** The `handle` call has begun for the task the coroutine carries. */
  predicate Executing(pc: Pc) {
    pc.Handling? || pc.RetryAppend? || pc.DeadAppend?
  }

  /** The task found at a place, if any. */
  function TaskAt(s: World, p: Place): Option<Task> {
    match p
    case Unread(e) => if e in s.stream then Some(s.stream[e]) else None
    case Pending(e) => if e in s.pending then Some(s.pending[e].1) else None
    case InFlight(w) => if w in s.workers && Carries(s.workers[w].pc) then Some(s.workers[w].task) else None
    case Finished(i) => if i < |s.finished| then Some(s.finished[i]) else None
    case Dead(i) => if i < |s.dead| then Some(s.dead[i]) else None
    case Lost(i) => if i < |s.lost| then Some(s.lost[i]) else None
  }

  ghost predicate IsAt(s: World, id: nat, p: Place) {
    TaskAt(s, p).Some? && TaskAt(s, p).value.id == id
  }

  /** How the attempt counter in a payload relates to the executions so far. */
  ghost predicate Counted(s: World, p: Place, t: Task) {
    var done := s.executed[t.id];
    && t.attempt <= MAX_RETRIES
    && match p
       case Unread(_) => done == t.attempt
       case Pending(_) => done == t.attempt
       case InFlight(w) =>
         && w in s.workers
         && done == (if Executing(s.workers[w].pc) then t.attempt + 1 else t.attempt)
         && (s.workers[w].pc.RetryAppend? ==> t.attempt < MAX_RETRIES)
         && (s.workers[w].pc.DeadAppend? ==> t.attempt == MAX_RETRIES)
       case Finished(_) => done == t.attempt + 1
       case Dead(_) => done == t.attempt + 1 && t.attempt == MAX_RETRIES
       case Lost(_) => done <= t.attempt + 1
  }

  /** A payload still names the conversation and message it was submitted with. */
  ghost predicate Genuine(s: World, t: Task) {
    t.id in s.issued && t.conv == s.issued[t.id].conv && t.msg == s.issued[t.id].msg
  }

  ghost predicate PlacedBy(s: World, at: map<nat, Place>) {
    && at.Keys == s.issued.Keys
    && (forall id | id in at :: IsAt(s, id, at[id]))
    && (forall p | TaskAt(s, p).Some? ::
          var t := TaskAt(s, p).value; Genuine(s, t) && at[t.id] == p && Counted(s, p, t))
  }

  /** Stream ids and coroutine ids not yet used are free. */
  ghost predicate Fresh(s: World) {
    && (forall e | e in s.stream :: e < s.nextEntry)
    && (forall e | e in s.pending :: e < s.nextEntry && e !in s.stream)
    && (forall w | w in s.workers :: w < s.nextWorker)
  }

  ghost predicate Books(s: World) {
    && (forall w | w in s.workers :: Genuine(s, s.workers[w].task))
    && (forall id | id in s.issued :: s.issued[id].id == id)
    && (forall id | id !in s.issued :: s.executed[id] == 0)
  }

  /** No two submitted tasks answer the same message. */
  ghost predicate OwnMessages(issued: map<nat, Task>) {
    forall a, b | a in issued && b in issued && issued[a].msg == issued[b].msg && issued[a].msg.Some? :: a == b
  }

  /** A dead-lettered turn is closed, being closed, or its closing failed in the database. */
  ghost predicate Closing(s: World, t: Task) {
    t.conv.Some? && t.msg.Some? && t.msg.value in s.streaming ==>
      t.id in s.unmarked || exists w :: w in s.workers && s.workers[w].pc.Marking? && s.workers[w].task == t
  }

  ghost predicate Inv(s: World, at: map<nat, Place>) {
    && PlacedBy(s, at) && Fresh(s) && Books(s) && OwnMessages(s.issued)
    && forall i | 0 <= i < |s.dead| :: Closing(s, s.dead[i])
  }

  /** The task at `from` is now at `to`, as `t`; every other place is as it was. */
  ghost predicate Moved(s: World, s': World, from: Place, to: Place, t: Task) {
    && TaskAt(s, from).Some? && TaskAt(s, from).value.id == t.id
    && (from != to ==> TaskAt(s', from).None? && TaskAt(s, to).None?) && TaskAt(s', to) == Some(t)
    && (forall p | p != from && p != to :: TaskAt(s', p) == TaskAt(s, p))
    && s'.issued == s.issued
    && (forall id | id != t.id :: s'.executed[id] == s.executed[id])
    && (forall w | w in s.workers && InFlight(w) != from :: w in s'.workers && s'.workers[w] == s.workers[w])
  }

  lemma MoveKeepsPlaces(s: World, s': World, at: map<nat, Place>, from: Place, to: Place, t: Task)
    requires PlacedBy(s, at) && Moved(s, s', from, to, t) && Genuine(s, t) && Counted(s', to, t)
    ensures PlacedBy(s', at[t.id := to])
  {
    var at' := at[t.id := to];
    forall p | TaskAt(s', p).Some?
      ensures var u := TaskAt(s', p).value; Genuine(s', u) && at'[u.id] == p && Counted(s', p, u)
    {
      if p != to {
        var u := TaskAt(s', p).value;
        assert TaskAt(s, p) == Some(u);
        assert at[u.id] == p != from == at[t.id];
      }
    }
    forall id | id in at' ensures IsAt(s', id, at'[id]) {
      if id != t.id {
        assert IsAt(s, id, at[id]) && at[id] != from;
      }
    }
  }

  /** No task moves: only coroutines that carry nothing may have moved on. */
  ghost predicate Still(s: World, s': World) {
    && s'.issued == s.issued && s'.executed == s.executed
    && s'.stream == s.stream && s'.pending == s.pending
    && s'.finished == s.finished && s'.dead == s.dead && s'.lost == s.lost
    && (forall w | w in s.workers && Carries(s.workers[w].pc) :: w in s'.workers && s'.workers[w] == s.workers[w])
    && (forall w | w in s'.workers && Carries(s'.workers[w].pc) :: w in s.workers && s'.workers[w] == s.workers[w])
  }

  lemma StillKeepsPlaces(s: World, s': World, at: map<nat, Place>)
    requires PlacedBy(s, at) && Still(s, s')
    ensures PlacedBy(s', at)
  {
    forall p ensures TaskAt(s', p) == TaskAt(s, p) {
    }
    forall id | id in at ensures IsAt(s', id, at[id]) {
      assert IsAt(s, id, at[id]);
    }
  }

  /** A coroutine that carries nothing moves on to another such place in its code. */
  lemma IdleGoto(s: World, s1: World, w: nat, pc: Pc)
    requires w in s.workers && !Carries(s.workers[w].pc) && !Carries(pc)
    requires s1.issued == s.issued && s1.executed == s.executed && s1.stream == s.stream && s1.pending == s.pending
    requires s1.finished == s.finished && s1.dead == s.dead && s1.lost == s.lost && s1.workers == s.workers
    ensures Still(s, Goto(s1, w, pc))
  {
  }

  /** Coroutine `w` keeps its task and moves on; no stream or log changes. */
  ghost predicate Keeps(s: World, s1: World, w: nat) {
    && w in s.workers && w in s1.workers && s1.workers == s.workers[w := s1.workers[w]]
    && Carries(s.workers[w].pc) && Carries(s1.workers[w].pc) && s1.workers[w].task == s.workers[w].task
    && s1.issued == s.issued && s1.stream == s.stream && s1.pending == s.pending
    && s1.finished == s.finished && s1.dead == s.dead && s1.lost == s.lost
  }

  lemma Stays(s: World, s1: World, at: map<nat, Place>, w: nat)
    requires PlacedBy(s, at) && Keeps(s, s1, w) && Counted(s1, InFlight(w), s.workers[w].task)
    requires forall id | id != s.workers[w].task.id :: s1.executed[id] == s.executed[id]
    ensures PlacedBy(s1, at)
  {
    var t := s.workers[w].task;
    assert TaskAt(s, InFlight(w)) == Some(t);
    forall p | p != InFlight(w) ensures TaskAt(s1, p) == TaskAt(s, p) {
    }
    MoveKeepsPlaces(s, s1, at, InFlight(w), InFlight(w), t);
    assert at[t.id := InFlight(w)] == at;
  }

  /** The same, for a move that neither starts nor fails an execution. */
  lemma StaysQuietly(s: World, s1: World, at: map<nat, Place>, w: nat)
    requires PlacedBy(s, at) && MovesOn(s, s1, w)
    ensures PlacedBy(s1, at)
  {
    assert TaskAt(s, InFlight(w)) == Some(s.workers[w].task);
    Stays(s, s1, at, w);
  }

  // ---- one lemma per step: where the task is afterwards ----

  lemma SubmitMoves(s: World, at: map<nat, Place>, t: Task, streams: bool)
    requires PlacedBy(s, at) && Fresh(s) && StreamEnabled(s, Submit(t, streams)) && s.executed[t.id] == 0
    ensures PlacedBy(Submitted(s, t, streams), at[t.id := Unread(s.nextEntry)])
  {
    var s' := Submitted(s, t, streams);
    var at' := at[t.id := Unread(s.nextEntry)];
    assert forall p | TaskAt(s, p).Some? :: TaskAt(s, p).value.id != t.id;
    SubmitAdds(s, t, streams);
    hide Submitted, TaskAt;
    forall p | TaskAt(s', p).Some?
      ensures var u := TaskAt(s', p).value; Genuine(s', u) && at'[u.id] == p && Counted(s', p, u)
    {
      if p != Unread(s.nextEntry) { assert TaskAt(s', p) == TaskAt(s, p); }
    }
    forall id | id in at' ensures IsAt(s', id, at'[id]) {
      if id != t.id { assert IsAt(s, id, at[id]); }
    }
  }

  lemma SubmitAdds(s: World, t: Task, streams: bool)
    requires Fresh(s)
    ensures var s' := Submitted(s, t, streams);
      && TaskAt(s, Unread(s.nextEntry)).None? && TaskAt(s', Unread(s.nextEntry)) == Some(t)
      && (forall p | p != Unread(s.nextEntry) :: TaskAt(s', p) == TaskAt(s, p))
      && s'.issued == s.issued[t.id := t] && s'.executed == s.executed && s'.workers == s.workers
  {
  }

  lemma DeliverMoves(s: World, at: map<nat, Place>, e: nat, i: nat)
    requires PlacedBy(s, at) && Fresh(s) && e in s.stream
    ensures PlacedBy(Delivered(s, e, i), at[s.stream[e].id := Pending(e)])
  {
    assert TaskAt(s, Unread(e)) == Some(s.stream[e]);
    MoveKeepsPlaces(s, Delivered(s, e, i), at, Unread(e), Pending(e), s.stream[e]);
  }

  lemma StartMoves(s: World, at: map<nat, Place>, e: nat)
    requires PlacedBy(s, at) && Fresh(s) && e in s.pending
    ensures PlacedBy(Started(s, e), at[s.pending[e].1.id := InFlight(s.nextWorker)])
  {
    var t := s.pending[e].1;
    assert TaskAt(s, Pending(e)) == Some(t);
    assert Genuine(s, t) && Counted(s, Pending(e), t);
    StartMoved(s, e);
    hide Moved;
    MoveKeepsPlaces(s, Started(s, e), at, Pending(e), InFlight(s.nextWorker), t);
  }

  lemma StartMoved(s: World, e: nat)
    requires Fresh(s) && e in s.pending
    ensures Moved(s, Started(s, e), Pending(e), InFlight(s.nextWorker), s.pending[e].1)
  {
  }

  lemma ReclaimMoves(s: World, at: map<nat, Place>, e: nat)
    requires PlacedBy(s, at) && Fresh(s) && e in s.pending
    ensures PlacedBy(Reclaimed(s, e), at[s.pending[e].1.id := Unread(s.nextEntry)])
  {
    assert TaskAt(s, Pending(e)) == Some(s.pending[e].1);
    MoveKeepsPlaces(s, Reclaimed(s, e), at, Pending(e), Unread(s.nextEntry), s.pending[e].1);
  }

  lemma StreamMoves(s: World, at: map<nat, Place>, st: StreamStep) returns (at': map<nat, Place>)
    requires PlacedBy(s, at) && Fresh(s) && StreamEnabled(s, st) && (st.Submit? ==> s.executed[st.t.id] == 0)
    ensures PlacedBy(StreamNext(s, st), at')
  {
    match st {
      case Submit(t, streams) =>
        SubmitMoves(s, at, t, streams);
        at' := at[t.id := Unread(s.nextEntry)];
      case Deliver(e, i) =>
        DeliverMoves(s, at, e, i);
        at' := at[s.stream[e].id := Pending(e)];
      case Start(e) =>
        StartMoves(s, at, e);
        at' := at[s.pending[e].1.id := InFlight(s.nextWorker)];
      case Reclaim(e) =>
        ReclaimMoves(s, at, e);
        at' := at[s.pending[e].1.id := Unread(s.nextEntry)];
      case _ =>
        StillKeepsPlaces(s, StreamNext(s, st), at);
        at' := at;
    }
  }

  /** The task of coroutine `w` leaves it: `s1` has it in its new place, and `w` moves on without it. */
  lemma Departs(s: World, s1: World, at: map<nat, Place>, w: nat, pc: Pc, to: Place, t: Task)
    returns (at': map<nat, Place>)
    requires PlacedBy(s, at) && w in s.workers && Carries(s.workers[w].pc) && !Carries(pc)
    requires t.id == s.workers[w].task.id && t.conv == s.workers[w].task.conv && t.msg == s.workers[w].task.msg
    requires !to.InFlight? && TaskAt(s, to).None? && TaskAt(s1, to) == Some(t)
    requires forall p | p != to :: TaskAt(s1, p) == TaskAt(s, p)
    requires s1.issued == s.issued && s1.executed == s.executed && s1.workers == s.workers
    requires Counted(s, to, t)
    ensures PlacedBy(Goto(s1, w, pc), at')
  {
    var s' := Goto(s1, w, pc);
    assert TaskAt(s, InFlight(w)) == Some(s.workers[w].task);
    forall p | p != InFlight(w) && p != to ensures TaskAt(s', p) == TaskAt(s, p) {
      assert TaskAt(s1, p) == TaskAt(s, p);
    }
    assert TaskAt(s', to) == TaskAt(s1, to);
    MoveKeepsPlaces(s, s', at, InFlight(w), to, t);
    at' := at[t.id := to];
  }

  lemma AppendMoves(s: World, at: map<nat, Place>, w: nat, pc: Pc, t: Task, ok: bool) returns (at': map<nat, Place>)
    requires PlacedBy(s, at) && Fresh(s) && w in s.workers && Carries(s.workers[w].pc) && !Carries(pc)
    requires t.id == s.workers[w].task.id && t.conv == s.workers[w].task.conv && t.msg == s.workers[w].task.msg
    requires s.executed[t.id] == t.attempt <= MAX_RETRIES
    ensures PlacedBy(Goto(AppendOrLose(s, t, ok), w, pc), at')
  {
    var to := if ok then Unread(s.nextEntry) else Lost(|s.lost|);
    at' := Departs(s, AppendOrLose(s, t, ok), at, w, pc, to, t);
  }

  lemma CountedInFlight(s: World, at: map<nat, Place>, w: nat)
    requires PlacedBy(s, at) && w in s.workers && Carries(s.workers[w].pc)
    ensures Counted(s, InFlight(w), s.workers[w].task)
  {
    assert TaskAt(s, InFlight(w)) == Some(s.workers[w].task);
  }

  /** Coroutine `w` moves on with its task, without starting an execution. */
  ghost predicate MovesOn(s: World, s1: World, w: nat) {
    Keeps(s, s1, w) && s1.executed == s.executed && !Executing(s.workers[w].pc) && !Executing(s1.workers[w].pc)
  }

  lemma GotoMovesOn(s: World, w: nat, pc: Pc)
    requires w in s.workers && Carries(s.workers[w].pc) && Carries(pc)
    requires !Executing(s.workers[w].pc) && !Executing(pc)
    ensures MovesOn(s, Goto(s, w, pc), w)
  {
  }

  lemma BeginMovesOn(s: World, w: nat)
    requires w in s.workers && s.workers[w].pc.Created? && s.workers[w].inst in s.runners
    ensures MovesOn(s, BeginTurn(s, w), w)
  {
    hide BeginTurn;
    BeginIsLocal(s, w);
  }

  lemma PollMovesOn(s: World, w: nat)
    requires w in s.workers && QueueEnabled(s, w, Poll)
    ensures MovesOn(s, PollOnce(s, w), w)
  {
    var conv := s.workers[w].task.conv.value;
    if s.runners[s.workers[w].inst].shutdown {
      GotoMovesOn(s, w, Requeue);
    } else if !Live(s, conv) {
      assert PollOnce(s, w) == Leased(s, w, conv);
    } else if s.now >= s.workers[w].pc.deadline {
      GotoMovesOn(s, w, Requeue);
    } else {
      assert s.workers == s.workers[w := s.workers[w]];
    }
  }

  lemma QueueMoves(s: World, at: map<nat, Place>, w: nat, st: QueueStep) returns (at': map<nat, Place>)
    requires PlacedBy(s, at) && Fresh(s) && w in s.workers && QueueEnabled(s, w, st)
    ensures PlacedBy(QueueNext(s, w, st), at')
  {
    match st {
      case PushBack(ok) =>
        CountedInFlight(s, at, w);
        at' := AppendMoves(s, at, w, Requeued, s.workers[w].task, ok);
      case GiveUp =>
        IdleMoves(s, ReleaseTurnLock(s, w), at, w, Gone);
        at' := at;
      case _ =>
        if st.Begin? { BeginMovesOn(s, w); } else if st.Poll? { PollMovesOn(s, w); }
        StaysQuietly(s, QueueNext(s, w, st), at, w);
        at' := at;
    }
  }

  lemma PushDeadMoves(s: World, at: map<nat, Place>, w: nat, ok: bool) returns (at': map<nat, Place>)
    requires PlacedBy(s, at) && w in s.workers && s.workers[w].pc.DeadAppend?
    ensures PlacedBy(PushedDead(s, w, ok), at')
  {
    var t := s.workers[w].task;
    CountedInFlight(s, at, w);
    if ok {
      at' := Departs(s, s.(dead := s.dead + [t]), at, w, Marking, Dead(|s.dead|), t);
    } else {
      at' := Departs(s, s.(lost := s.lost + [t]), at, w, Marking, Lost(|s.lost|), t);
    }
  }

  lemma SucceedMoves(s: World, at: map<nat, Place>, w: nat) returns (at': map<nat, Place>)
    requires PlacedBy(s, at) && w in s.workers && s.workers[w].pc.Handling?
    ensures PlacedBy(Succeeded(s, w), at')
  {
    var t := s.workers[w].task;
    CountedInFlight(s, at, w);
    at' := Departs(s, s.(finished := s.finished + [t]), at, w, Leaving(0), Finished(|s.finished|), t);
  }

  lemma PushRetryMoves(s: World, at: map<nat, Place>, w: nat, ok: bool) returns (at': map<nat, Place>)
    requires PlacedBy(s, at) && Fresh(s) && w in s.workers && s.workers[w].pc.RetryAppend?
    ensures PlacedBy(PushedRetry(s, w, ok), at')
  {
    var t := s.workers[w].task;
    CountedInFlight(s, at, w);
    at' := AppendMoves(s, at, w, Leaving(RetryDelay(t.attempt + 1)), t.(attempt := t.attempt + 1), ok);
  }

  /** Work that moves no task: `s1` differs from `s` in nothing a place is made of. */
  lemma IdleMoves(s: World, s1: World, at: map<nat, Place>, w: nat, pc: Pc)
    requires PlacedBy(s, at)
    requires w in s.workers && !Carries(s.workers[w].pc) && !Carries(pc)
    requires s1.issued == s.issued && s1.executed == s.executed && s1.stream == s.stream && s1.pending == s.pending
    requires s1.finished == s.finished && s1.dead == s.dead && s1.lost == s.lost && s1.workers == s.workers
    ensures PlacedBy(Goto(s1, w, pc), at)
  {
    IdleGoto(s, s1, w, pc);
    StillKeepsPlaces(s, Goto(s1, w, pc), at);
  }

  lemma TakeSlotMoves(s: World, at: map<nat, Place>, w: nat)
    requires PlacedBy(s, at) && w in s.workers && HandleEnabled(s, w, TakeSlot)
    ensures PlacedBy(TookSlot(s, w), at)
  {
    CountedInFlight(s, at, w);
    Stays(s, TookSlot(s, w), at, w);
  }

  lemma FailMoves(s: World, at: map<nat, Place>, w: nat)
    requires PlacedBy(s, at) && w in s.workers && HandleEnabled(s, w, Fail)
    ensures PlacedBy(Failed(s, w), at)
  {
    CountedInFlight(s, at, w);
    Stays(s, Failed(s, w), at, w);
  }

  lemma SetStreamingMoves(s: World, at: map<nat, Place>, w: nat, st: HandleStep)
    requires PlacedBy(s, at) && w in s.workers && HandleEnabled(s, w, st) && st.SetStreaming?
    ensures PlacedBy(HandleNext(s, w, st), at)
  {
    StillKeepsPlaces(s, HandleNext(s, w, st), at);
  }

  lemma MarkMoves(s: World, at: map<nat, Place>, w: nat, ok: bool)
    requires PlacedBy(s, at) && w in s.workers && s.workers[w].pc.Marking?
    ensures PlacedBy(Goto(Closed(s, s.workers[w].task, ok), w, Leaving(0)), at)
  {
    ClosedIsLocal(s, s.workers[w].task, ok);
    IdleMoves(s, Closed(s, s.workers[w].task, ok), at, w, Leaving(0));
  }

  /** The steps that take the task away from its coroutine. */
  lemma RetireMoves(s: World, at: map<nat, Place>, w: nat, st: HandleStep) returns (at': map<nat, Place>)
    requires PlacedBy(s, at) && Fresh(s) && w in s.workers && HandleEnabled(s, w, st)
    requires st.Succeed? || st.PushRetry? || st.PushDead?
    ensures PlacedBy(HandleNext(s, w, st), at')
  {
    match st {
      case Succeed => at' := SucceedMoves(s, at, w);
      case PushRetry(ok) => at' := PushRetryMoves(s, at, w, ok);
      case PushDead(ok) => at' := PushDeadMoves(s, at, w, ok);
    }
  }

  lemma HandleMoves(s: World, at: map<nat, Place>, w: nat, st: HandleStep) returns (at': map<nat, Place>)
    requires PlacedBy(s, at) && Fresh(s) && w in s.workers && HandleEnabled(s, w, st)
    ensures PlacedBy(HandleNext(s, w, st), at')
  {
    at' := at;
    match st {
      case TakeSlot => TakeSlotMoves(s, at, w);
      case SetStreaming(_) => SetStreamingMoves(s, at, w, st);
      case Fail => FailMoves(s, at, w);
      case Mark(ok) => MarkMoves(s, at, w, ok);
      case _ => at' := RetireMoves(s, at, w, st);
    }
  }

  lemma LeaveMoves(s: World, at: map<nat, Place>, w: nat, st: LeaveStep)
    requires PlacedBy(s, at) && Fresh(s) && w in s.workers && LeaveEnabled(s, w, st)
    ensures PlacedBy(LeaveNext(s, w, st), at)
  {
    match st {
      case LeaveSlot => IdleMoves(s, MoveSlot(s, s.workers[w].inst, 1), at, w, AfterSlot(s, w, s.workers[w].pc.delay));
      case Release =>
        IdleMoves(s, CompareAndDelete(s, s.workers[w].task.conv.value, w), at, w, Unlocking(s.workers[w].pc.delay));
      case Unlock => IdleMoves(s, ReleaseTurnLock(s, w), at, w, Asleep(s, s.workers[w].pc.delay));
      case SleepOver => IdleMoves(s, s, at, w, Gone);
    }
  }

  // ---- the rest of the invariant ----

  lemma StepMoves(s: World, at: map<nat, Place>, st: Step) returns (at': map<nat, Place>)
    requires PlacedBy(s, at) && Fresh(s) && Books(s) && Enabled(s, st)
    ensures PlacedBy(Next(s, st), at')
  {
    match st {
      case Stream(e) => at' := StreamMoves(s, at, e);
      case Queue(w, q) => at' := QueueMoves(s, at, w, q);
      case Handle(w, h) => at' := HandleMoves(s, at, w, h);
      case Leave(w, l) => LeaveMoves(s, at, w, l); at' := at;
    }
  }

  /** What any step may do to the ids in use. */
  ghost predicate Ids(s: World, s': World) {
    && s'.nextEntry >= s.nextEntry && s'.nextWorker >= s.nextWorker
    && (forall e | e in s'.stream :: e in s.stream || s.nextEntry == e < s'.nextEntry)
    && (forall e | e in s'.pending :: (e in s.pending || e in s.stream) && e !in s'.stream)
    && (forall w | w in s'.workers :: w in s.workers || s.nextWorker == w < s'.nextWorker)
  }

  lemma StreamIds(s: World, st: StreamStep)
    requires Fresh(s) && StreamEnabled(s, st)
    ensures Ids(s, StreamNext(s, st))
  {
    match st {
      case Tick(_) =>
      case Submit(_, _) =>
      case Deliver(_, _) =>
      case Start(_) =>
      case Shutdown(_) =>
      case Reclaim(_) =>
    }
  }

  /** What a coroutine's step may do to the shared records. */
  ghost predicate Local(s: World, s': World, w: nat) {
    && w in s.workers && w in s'.workers && s'.workers == s.workers[w := s'.workers[w]]
    && s'.workers[w].task == s.workers[w].task
    && s'.nextWorker == s.nextWorker && s'.pending == s.pending && s'.issued == s.issued
    && ((s'.stream == s.stream && s'.nextEntry == s.nextEntry)
        || (s'.nextEntry == s.nextEntry + 1 && s.nextEntry in s'.stream
            && s'.stream == s.stream[s.nextEntry := s'.stream[s.nextEntry]]))
    && (forall id | id != s.workers[w].task.id :: s'.executed[id] == s.executed[id])
  }

  lemma QueueLocal(s: World, w: nat, st: QueueStep)
    requires w in s.workers && QueueEnabled(s, w, st)
    ensures Local(s, QueueNext(s, w, st), w)
  {
    match st {
      case Begin => BeginIsLocal(s, w);
      case Wake =>
      case Poll => PollMovesOn(s, w); PollKeepsRest(s, w);
      case PushBack(ok) =>
      case GiveUp =>
    }
  }

  lemma PollKeepsRest(s: World, w: nat)
    requires w in s.workers && QueueEnabled(s, w, Poll)
    ensures var s' := PollOnce(s, w); s' == s.(workers := s'.workers, leases := s'.leases)
  {
  }

  lemma PushRetryLocal(s: World, w: nat, ok: bool)
    requires w in s.workers
    ensures Local(s, PushedRetry(s, w, ok), w)
  {
  }

  lemma PushDeadLocal(s: World, w: nat, ok: bool)
    requires w in s.workers
    ensures Local(s, PushedDead(s, w, ok), w)
  {
  }

  lemma HandleLocal(s: World, w: nat, st: HandleStep)
    requires w in s.workers && HandleEnabled(s, w, st)
    ensures Local(s, HandleNext(s, w, st), w)
  {
    hide PushedRetry, PushedDead;
    match st {
      case TakeSlot =>
      case SetStreaming(_) => assert s.workers == s.workers[w := s.workers[w]];
      case Succeed =>
      case Fail =>
      case PushRetry(ok) => PushRetryLocal(s, w, ok);
      case PushDead(ok) => PushDeadLocal(s, w, ok);
      case Mark(ok) => ClosedIsLocal(s, s.workers[w].task, ok);
    }
  }

  lemma LeaveLocal(s: World, w: nat, st: LeaveStep)
    requires w in s.workers && LeaveEnabled(s, w, st)
    ensures Local(s, LeaveNext(s, w, st), w)
  {
    match st {
      case LeaveSlot =>
      case Release =>
      case Unlock =>
      case SleepOver =>
    }
  }

  lemma LocalKeepsIds(s: World, s': World, w: nat)
    requires Fresh(s) && Books(s) && Local(s, s', w)
    ensures Fresh(s') && Books(s')
  {
    assert Genuine(s, s.workers[w].task);
  }

  lemma StreamKeepsBooks(s: World, at: map<nat, Place>, st: StreamStep)
    requires PlacedBy(s, at) && Books(s) && StreamEnabled(s, st)
    ensures Books(StreamNext(s, st))
  {
    match st {
      case Tick(_) =>
      case Submit(_, _) =>
      case Deliver(_, _) =>
      case Start(e) => assert TaskAt(s, Pending(e)) == Some(s.pending[e].1);
      case Shutdown(_) =>
      case Reclaim(_) =>
    }
  }

  lemma StepKeepsIds(s: World, at: map<nat, Place>, st: Step)
    requires PlacedBy(s, at) && Fresh(s) && Books(s) && Enabled(s, st)
    ensures Fresh(Next(s, st)) && Books(Next(s, st))
  {
    match st {
      case Stream(e) => StreamIds(s, e); StreamKeepsBooks(s, at, e);
      case Queue(w, q) => QueueLocal(s, w, q); LocalKeepsIds(s, Next(s, st), w);
      case Handle(w, h) => HandleLocal(s, w, h); LocalKeepsIds(s, Next(s, st), w);
      case Leave(w, l) => LeaveLocal(s, w, l); LocalKeepsIds(s, Next(s, st), w);
    }
  }

  // ---- dead-lettered turns are closed ----

  ghost predicate AllClosing(s: World) {
    forall i | 0 <= i < |s.dead| :: Closing(s, s.dead[i])
  }

  /** No turn is dead-lettered, re-opened, or dropped half closed. */
  ghost predicate Dull(s: World, s': World) {
    && s'.dead == s.dead && s'.streaming == s.streaming && s'.unmarked == s.unmarked
    && forall w | w in s.workers && s.workers[w].pc.Marking? :: w in s'.workers && s'.workers[w] == s.workers[w]
  }

  lemma DullKeepsClosing(s: World, s': World)
    requires AllClosing(s) && Dull(s, s')
    ensures AllClosing(s')
  {
    forall i | 0 <= i < |s'.dead| ensures Closing(s', s'.dead[i]) {
      assert Closing(s, s.dead[i]);
    }
  }

  lemma SubmitKeepsClosing(s: World, at: map<nat, Place>, t: Task, streams: bool)
    requires PlacedBy(s, at) && AllClosing(s) && StreamEnabled(s, Submit(t, streams))
    ensures AllClosing(Submitted(s, t, streams))
  {
    var s' := Submitted(s, t, streams);
    forall i | 0 <= i < |s'.dead| ensures Closing(s', s'.dead[i]) {
      assert TaskAt(s, Dead(i)) == Some(s.dead[i]);
      assert Genuine(s, s.dead[i]) && Closing(s, s.dead[i]);
    }
  }

  lemma SetStreamingKeepsClosing(s: World, at: map<nat, Place>, w: nat, on: bool)
    requires PlacedBy(s, at) && Books(s) && OwnMessages(s.issued) && AllClosing(s)
    requires w in s.workers && s.workers[w].pc.Handling? && s.workers[w].task.msg.Some?
    ensures AllClosing(StreamingSet(s, s.workers[w].task.msg.value, on))
  {
    var t := s.workers[w].task;
    var s' := StreamingSet(s, t.msg.value, on);
    forall i | 0 <= i < |s'.dead| ensures Closing(s', s'.dead[i]) {
      assert TaskAt(s, Dead(i)) == Some(s.dead[i]) && TaskAt(s, InFlight(w)) == Some(t);
      assert at[s.dead[i].id] == Dead(i) && at[t.id] == InFlight(w);
      assert s.dead[i].msg != t.msg;
      assert Closing(s, s.dead[i]);
    }
  }

  lemma PushDeadKeepsClosing(s: World, w: nat, ok: bool)
    requires AllClosing(s) && w in s.workers && s.workers[w].pc.DeadAppend?
    ensures AllClosing(PushedDead(s, w, ok))
  {
    var s' := PushedDead(s, w, ok);
    forall i | 0 <= i < |s'.dead| ensures Closing(s', s'.dead[i]) {
      if i < |s.dead| {
        assert s'.dead[i] == s.dead[i] && Closing(s, s.dead[i]);
        forall v | v in s.workers && s.workers[v].pc.Marking? ensures v in s'.workers && s'.workers[v] == s.workers[v] {
        }
      } else {
        assert s'.workers[w].pc.Marking? && s'.workers[w].task == s'.dead[i];
      }
    }
  }

  lemma MarkKeepsClosing(s: World, w: nat, ok: bool)
    requires AllClosing(s) && w in s.workers && s.workers[w].pc.Marking?
    ensures AllClosing(Goto(Closed(s, s.workers[w].task, ok), w, Leaving(0)))
  {
    var s' := Goto(Closed(s, s.workers[w].task, ok), w, Leaving(0));
    ClosedIsLocal(s, s.workers[w].task, ok);
    forall i | 0 <= i < |s'.dead| ensures Closing(s', s'.dead[i]) {
      assert Closing(s, s.dead[i]);
      if s.dead[i] != s.workers[w].task {
        forall v | v in s.workers && v != w ensures v in s'.workers && s'.workers[v] == s.workers[v] {
        }
      }
    }
  }

  lemma StreamKeepsClosing(s: World, at: map<nat, Place>, st: StreamStep)
    requires PlacedBy(s, at) && Fresh(s) && AllClosing(s) && StreamEnabled(s, st)
    ensures AllClosing(StreamNext(s, st))
  {
    if st.Submit? {
      SubmitKeepsClosing(s, at, st.t, st.streams);
    } else {
      DullKeepsClosing(s, StreamNext(s, st));
    }
  }

  lemma QueueKeepsClosing(s: World, w: nat, st: QueueStep)
    requires AllClosing(s) && w in s.workers && QueueEnabled(s, w, st)
    ensures AllClosing(QueueNext(s, w, st))
  {
    QueueLocal(s, w, st);
    QueueIsDull(s, w, st);
    DullKeepsClosing(s, QueueNext(s, w, st));
  }

  lemma QueueIsDull(s: World, w: nat, st: QueueStep)
    requires w in s.workers && QueueEnabled(s, w, st)
    ensures Dull(s, QueueNext(s, w, st))
  {
    match st {
      case Begin => BeginIsLocal(s, w);
      case Wake =>
      case Poll => PollMovesOn(s, w); PollKeepsRest(s, w);
      case PushBack(ok) =>
      case GiveUp =>
    }
  }

  lemma HandleKeepsClosing(s: World, at: map<nat, Place>, w: nat, st: HandleStep)
    requires PlacedBy(s, at) && Books(s) && OwnMessages(s.issued) && AllClosing(s)
    requires w in s.workers && HandleEnabled(s, w, st)
    ensures AllClosing(HandleNext(s, w, st))
  {
    match st {
      case SetStreaming(on) => SetStreamingKeepsClosing(s, at, w, on);
      case PushDead(ok) => PushDeadKeepsClosing(s, w, ok);
      case Mark(ok) => MarkKeepsClosing(s, w, ok);
      case _ => OtherHandleDull(s, w, st); DullKeepsClosing(s, HandleNext(s, w, st));
    }
  }

  lemma OtherHandleDull(s: World, w: nat, st: HandleStep)
    requires w in s.workers && HandleEnabled(s, w, st) && !st.SetStreaming? && !st.PushDead? && !st.Mark?
    ensures Dull(s, HandleNext(s, w, st))
  {
    match st {
      case TakeSlot =>
      case Succeed =>
      case Fail =>
      case PushRetry(ok) =>
    }
  }

  lemma LeaveIsDull(s: World, w: nat, st: LeaveStep)
    requires w in s.workers && LeaveEnabled(s, w, st)
    ensures Dull(s, LeaveNext(s, w, st))
  {
    match st {
      case LeaveSlot =>
      case Release =>
      case Unlock =>
      case SleepOver =>
    }
  }

  lemma StepKeepsClosing(s: World, at: map<nat, Place>, st: Step)
    requires Inv(s, at) && Enabled(s, st)
    ensures AllClosing(Next(s, st))
  {
    match st {
      case Stream(e) => StreamKeepsClosing(s, at, e);
      case Queue(w, q) => QueueKeepsClosing(s, w, q);
      case Handle(w, h) => HandleKeepsClosing(s, at, w, h);
      case Leave(w, l) => LeaveIsDull(s, w, l); DullKeepsClosing(s, Next(s, st));
    }
  }

  lemma StepKeepsMessages(s: World, st: Step)
    requires OwnMessages(s.issued) && Enabled(s, st)
    ensures OwnMessages(Next(s, st).issued)
  {
    match st {
      case Stream(e) =>
        if e.Submit? { assert Next(s, st).issued == s.issued[e.t.id := e.t]; }
      case Queue(w, q) => QueueLocal(s, w, q);
      case Handle(w, h) => HandleLocal(s, w, h);
      case Leave(w, l) => LeaveLocal(s, w, l);
    }
  }

  // ---- over whole runs ----

  lemma {:induction false} RunKeepsInv(s: World, at: map<nat, Place>, steps: seq<Step>)
    returns (at': map<nat, Place>)
    requires Inv(s, at) && CanRun(s, steps)
    ensures Inv(After(s, steps), at')
    decreases steps
  {
    if steps == [] {
      at' := at;
    } else {
      var next := StepMoves(s, at, steps[0]);
      StepKeepsIds(s, at, steps[0]);
      StepKeepsClosing(s, at, steps[0]);
      StepKeepsMessages(s, steps[0]);
      at' := RunKeepsInv(Next(s, steps[0]), next, steps[1..]);
    }
  }

  lemma InitialInv(s: World)
    requires Initial(s)
    ensures Inv(s, map[])
  {
    forall p ensures TaskAt(s, p).None? {
    }
  }

  lemma ReachableInv(s: World) returns (at: map<nat, Place>)
    requires Reachable(s)
    ensures Inv(s, at)
  {
    var s0, steps :| Initial(s0) && CanRun(s0, steps) && After(s0, steps) == s;
    InitialInv(s0);
    at := RunKeepsInv(s0, map[], steps);
  }

  /** Conservation: in every reachable world every submitted task is in one place and in no other. */
  lemma InExactlyOnePlace(s: World, id: nat)
    requires Reachable(s) && id in s.issued
    ensures exists p :: IsAt(s, id, p) && forall q :: IsAt(s, id, q) ==> q == p
  {
    var at := ReachableInv(s);
    assert IsAt(s, id, at[id]);
    forall q | IsAt(s, id, q) ensures q == at[id] {
    }
  }

  /** No task is executed more than MAX_RETRIES + 1 times, lease timeouts or not. */
  lemma ExecutedAtMost(s: World, id: nat)
    requires Reachable(s)
    ensures s.executed[id] <= MAX_RETRIES + 1
  {
    var at := ReachableInv(s);
    if id in s.issued {
      assert IsAt(s, id, at[id]);
      assert Counted(s, at[id], TaskAt(s, at[id]).value);
    }
  }

  /** Before it runs, a task's attempt counter is the number of its failed executions: a requeue keeps it. */
  lemma AttemptCountsExecutions(s: World, id: nat, p: Place)
    requires Reachable(s) && IsAt(s, id, p) && (p.Unread? || p.Pending?)
    ensures TaskAt(s, p).value.attempt == s.executed[id]
  {
    var at := ReachableInv(s);
    assert Counted(s, p, TaskAt(s, p).value);
  }

  /**
   A task in the dead letter queue was executed exactly MAX_RETRIES + 1 times, and its message is
   not left in "streaming" once `_mark_task_failed` is past, unless the database refused the write.
   */
  lemma DeadLetterMeans(s: World, i: nat)
    requires Reachable(s) && i < |s.dead|
    ensures s.executed[s.dead[i].id] == MAX_RETRIES + 1
    ensures s.dead[i].conv.Some? && s.dead[i].msg.Some? && s.dead[i].msg.value in s.streaming ==>
              s.dead[i].id in s.unmarked
              || exists w :: w in s.workers && s.workers[w].pc.Marking? && s.workers[w].task == s.dead[i]
  {
    var at := ReachableInv(s);
    assert TaskAt(s, Dead(i)) == Some(s.dead[i]);
    assert Counted(s, Dead(i), s.dead[i]) && Closing(s, s.dead[i]);
  }

  /** Every append of the step succeeds. */
  predicate Appends(st: Step) {
    match st
    case Queue(_, PushBack(ok)) => ok
    case Handle(_, PushRetry(ok)) => ok
    case Handle(_, PushDead(ok)) => ok
    case _ => true
  }

  lemma HandleLosesNothing(s: World, w: nat, h: HandleStep)
    requires w in s.workers && HandleEnabled(s, w, h) && Appends(Handle(w, h))
    ensures HandleNext(s, w, h).lost == s.lost
  {
    match h {
      case Mark(ok) => ClosedIsLocal(s, s.workers[w].task, ok);
      case _ =>
    }
  }

  lemma QueueLosesNothing(s: World, w: nat, q: QueueStep)
    requires w in s.workers && QueueEnabled(s, w, q) && Appends(Queue(w, q))
    ensures QueueNext(s, w, q).lost == s.lost
  {
    match q {
      case Begin => BeginIsLocal(s, w);
      case Poll => PollKeepsRest(s, w);
      case _ =>
    }
  }

  lemma StepLosesNothing(s: World, st: Step)
    requires Enabled(s, st) && Appends(st)
    ensures Next(s, st).lost == s.lost
  {
    match st {
      case Stream(e) =>
      case Queue(w, q) => hide QueueNext; QueueLosesNothing(s, w, q);
      case Handle(w, h) => hide HandleNext; HandleLosesNothing(s, w, h);
      case Leave(w, l) =>
    }
  }

  /** While every append succeeds no task is lost. */
  lemma {:induction false} NothingLost(s: World, steps: seq<Step>)
    requires CanRun(s, steps) && forall i | 0 <= i < |steps| :: Appends(steps[i])
    ensures After(s, steps).lost == s.lost
    decreases steps
  {
    if steps != [] {
      StepLosesNothing(s, steps[0]);
      NothingLost(Next(s, steps[0]), steps[1..]);
    }
  }
}
