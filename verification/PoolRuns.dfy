/** Every run of the session pool: what each piece of code between two awaits keeps and loses. */
module PoolRuns {
  import opened Prelude
  import opened SessionPool

  /** The code between two awaits, of whichever coroutine. */
  datatype Step =
    | Begin(f: int, key: string, profile: Profile, mcp: Mcp, alive: bool, now: int)
    | Warm(f: int, alive: bool)
    | Spawn(f: int)
    | End(f: int, cancelled: bool)
    | Finish(f: int)
    | StartFill(f: int, profile: Profile, refill: bool, target: nat)
    | EndFill(f: int)
    | Drop(key: string)
    | StartClose(filed: seq<int>, deques: seq<Profile>)
    | GoOnClosing(deques: seq<Profile>)

  /** One `close_all` at a time, which goes through the deques in the order the dictionary has at that point. */
  ghost predicate CanStep(s: State, st: Step) {
    match st
    case Begin(f, _, _, _, _, _) => f !in s.flights
    case Warm(f, _) => Seeking(s, f)
    case Spawn(f) => Seeking(s, f)
    case End(f, _) => f in s.flights
    case Finish(f) => Holding(s, f) && s.flights[f].task.ForKey?
    case StartFill(f, _, _, _) => f !in s.flights
    case EndFill(f) => Holding(s, f) && s.flights[f].task.ForDeque?
    case Drop(_) => true
    case StartClose(filed, deques) => s.closing.NotClosing? && ListsFiled(s, filed) && ListsDeques(s, deques)
    case GoOnClosing(deques) => !s.closing.NotClosing? && ListsDeques(s, deques)
  }

  ghost function After(s: State, st: Step): State
    requires CanStep(s, st)
  {
    match st
    case Begin(f, key, profile, mcp, alive, now) => Called(s, f, key, profile, mcp, alive, now)
    case Warm(f, alive) => WarmTaken(s, f, alive)
    case Spawn(f) => SpawnedFor(s, f)
    case End(f, cancelled) => Ended(s, f, cancelled)
    case Finish(f) => Finished(s, f)
    case StartFill(f, profile, refill, target) => FillBegun(s, f, profile, refill, target)
    case EndFill(f) => FillEnded(s, f)
    case Drop(key) => Dropped(s, key)
    case StartClose(filed, deques) => CloseStarted(s, filed, deques)
    case GoOnClosing(deques) => ClosedOn(s, deques)
  }

  /**
   The clients a step loses: the one a cancelled call held, one overwritten, one whose deque is gone,
   and those that `close_all` forgets without having stopped them.
   */
  ghost function Losses(s: State, st: Step): set<int>
    requires CanStep(s, st)
  {
    match st
    case End(f, cancelled) => if cancelled && Holding(s, f) then {s.flights[f].client.value} else {}
    case Finish(f) => Live(s, s.flights[f].task.key)
    case EndFill(f) => if Orphaned(s, f) then {s.flights[f].client.value} else {}
    case StartClose(filed, deques) => CloseLosses(s.(closing := Stopping(filed)), deques)
    case GoOnClosing(deques) => CloseLosses(s, deques)
    case _ => {}
  }

  /** The lost clients that a step stops after all. */
  function Finds(s: State, st: Step): set<int> {
    match st
    case StartClose(filed, _) => CloseFinds(s.(closing := Stopping(filed)))
    case GoOnClosing(_) => CloseFinds(s)
    case _ => {}
  }

  /** Every step keeps each client in exactly one place, and loses exactly those. */
  lemma StepKeeps(s: State, st: Step)
    requires Consistent(s) && CanStep(s, st)
    ensures Consistent(After(s, st))
    ensures LostIn(After(s, st).place) == LostIn(s.place) + Losses(s, st) - Finds(s, st)
  {
    hide Consistent, LostIn, CloseLosses, CloseFinds, ClosedOn, ListsDeques, Called, Live, WarmTaken, Dropped, Finished,
      FillBegun, FillEnded, Ended, SpawnedFor;
    match st
    case Begin(f, key, profile, mcp, alive, now) => CalledKeeps(s, f, key, profile, mcp, alive, now);
    case Warm(f, alive) => WarmTakenKeeps(s, f, alive);
    case Spawn(f) => SpawnedKeeps(s, f);
    case End(f, cancelled) => EndedKeeps(s, f, cancelled);
    case Finish(f) => FinishedKeeps(s, f);
    case StartFill(f, profile, refill, target) => FillBegunKeeps(s, f, profile, refill, target);
    case EndFill(f) => FillEndedKeeps(s, f);
    case Drop(key) => DroppedKeeps(s, key);
    case StartClose(filed, deques) =>
      ListedIsConsistent(s, filed);
      ClosedOnKeeps(s.(closing := Stopping(filed)), deques);
    case GoOnClosing(deques) => ClosedOnKeeps(s, deques);
  }

  predicate SameKey(a: Task, b: Task) {
    a.ForKey? && b.ForKey? && a.key == b.key
  }

  predicate Refilling(g: Flight) {
    g.task.ForDeque? && g.task.deque.Some?
  }

  /** Calls under way are for different keys, and those keys are empty; no refill looks at a cleared deque. */
  ghost predicate Serial(s: State) {
    && (forall f :: f in s.flights && s.flights[f].task.ForKey? ==> s.flights[f].task.key !in s.clients)
    && (forall f, g :: f in s.flights && g in s.flights && SameKey(s.flights[f].task, s.flights[g].task) ==> f == g)
    && (forall f :: f in s.flights ==> !Orphaned(s, f))
    && CloseReaches(s)
  }

  /** A `close_all` under way has every client that is filed or warm still before it, and no refill is under way. */
  ghost predicate CloseReaches(s: State) {
    && (s.closing.Stopping? ==> forall c :: c in s.place && s.place[c].AtKey? ==> c in s.closing.todo)
    && (s.closing.Draining? ==> forall p :: p in s.warm && s.warm[p] != [] ==> p in s.closing.left)
    && (!s.closing.NotClosing? ==> forall f :: f in s.flights ==> !Refilling(s.flights[f]))
  }

  /**
   `get` calls for one key wait for one another, nothing is cancelled, and while `close_all` runs no
   refill does, and no call files a client or adds one to a deque.
   */
  ghost predicate Orderly(s: State, st: Step) {
    match st
    case Begin(_, key, _, _, _, _) => forall f :: f in s.flights && s.flights[f].task.ForKey? ==> s.flights[f].task.key != key
    case End(_, cancelled) => !cancelled
    case Finish(_) => s.closing.NotClosing?
    case EndFill(_) => s.closing.NotClosing?
    case StartFill(_, _, refill, _) => refill ==> s.closing.NotClosing?
    case StartClose(_, _) => forall f :: f in s.flights ==> !Refilling(s.flights[f])
    case _ => true
  }

  lemma StepStaysSerial(s: State, st: Step)
    requires Consistent(s) && Serial(s) && CanStep(s, st) && Orderly(s, st)
    ensures Serial(After(s, st)) && Losses(s, st) == {}
  {
    match st
    case Begin(f, key, profile, mcp, alive, now) => BeginStaysSerial(s, f, key, profile, mcp, alive, now);
    case Warm(f, alive) => WarmStaysSerial(s, f, alive);
    case StartFill(f, profile, refill, target) => FillStaysSerial(s, f, profile, refill, target);
    case Finish(f) => FinishStaysSerial(s, f);
    case EndFill(f) => EndFillStaysSerial(s, f);
    case StartClose(filed, deques) =>
      ListedIsConsistent(s, filed);
      FiledIsListed(s, filed);
      CloseStaysSerial(s.(closing := Stopping(filed)), deques);
    case GoOnClosing(deques) => CloseStaysSerial(s, deques);
    case _ => LessStaysSerial(s, After(s, st));
  }

  /** Fewer calls with the same tasks, fewer filed and warm clients. */
  lemma LessStaysSerial(s: State, s': State)
    requires Serial(s) && s'.epoch == s.epoch && s'.closing == s.closing
    requires s'.clients.Keys <= s.clients.Keys && s'.warm.Keys <= s.warm.Keys
    requires forall f :: f in s'.flights ==> f in s.flights && s'.flights[f].task == s.flights[f].task
    requires forall c :: c in s'.place && s'.place[c].AtKey? ==> c in s.place && s.place[c].AtKey?
    requires forall p :: p in s'.warm && s'.warm[p] != [] ==> s.warm[p] != []
    ensures Serial(s')
  {
  }

  lemma BeginStaysSerial(s: State, f: int, key: string, profile: Profile, mcp: Mcp, alive: bool, now: int)
    requires Serial(s) && f !in s.flights && Orderly(s, Begin(f, key, profile, mcp, alive, now))
    ensures Serial(After(s, Begin(f, key, profile, mcp, alive, now)))
  {
    var s' := s.(lastUsed := s.lastUsed[key := now]);
    assert Serial(s');
    BegunStaysSerial(s', f, key, profile, mcp);
    hide Hit, Begun, Serial;
  }

  lemma BegunStaysSerial(s: State, f: int, key: string, profile: Profile, mcp: Mcp)
    requires Serial(s) && f !in s.flights
    requires forall g :: g in s.flights && s.flights[g].task.ForKey? ==> s.flights[g].task.key != key
    ensures Serial(Begun(s, f, key, profile, mcp))
  {
    assert Dropped(s, key).clients.Keys == s.clients.Keys - {key};
    LessStaysSerial(s, Dropped(s, key));
    var s' := if key in s.clients then Dropped(s, key) else s;
    assert s'.flights == s.flights && key !in s'.clients;
    hide Dropped;
    CallStaysSerial(s', f, key, Flight(profile, None, ForKey(key, mcp)));
    hide Serial;
  }

  lemma CallStaysSerial(s: State, f: int, key: string, g: Flight)
    requires Serial(s) && f !in s.flights && key !in s.clients && g.task.ForKey? && g.task.key == key
    requires forall g :: g in s.flights && s.flights[g].task.ForKey? ==> s.flights[g].task.key != key
    ensures Serial(s.(flights := s.flights[f := g]))
  {
  }

  lemma WarmStaysSerial(s: State, f: int, alive: bool)
    requires Serial(s) && Seeking(s, f)
    ensures Serial(WarmTaken(s, f, alive))
  {
    if WarmReady(s, f) {
      var s' := WarmTaken(s, f, alive);
      assert s'.clients == s.clients && s'.warm.Keys == s.warm.Keys;
      assert forall g :: g in s'.flights ==> g in s.flights && s'.flights[g].task == s.flights[g].task;
      assert forall c :: c in s'.place && s'.place[c].AtKey? ==> c in s.place && s.place[c].AtKey?;
      assert forall p :: p in s'.warm && s'.warm[p] != [] ==> s.warm[p] != [];
      hide *;
      LessStaysSerial(s, s');
    }
  }

  lemma FillStaysSerial(s: State, f: int, profile: Profile, refill: bool, target: nat)
    requires Consistent(s) && Serial(s) && f !in s.flights && (refill ==> s.closing.NotClosing?)
    ensures Serial(FillBegun(s, f, profile, refill, target))
  {
    hide Full;
  }

  lemma FinishStaysSerial(s: State, f: int)
    requires Serial(s) && CanStep(s, Finish(f)) && s.closing.NotClosing?
    ensures Serial(Finished(s, f)) && Losses(s, Finish(f)) == {}
  {
    hide Overwritten;
  }

  lemma EndFillStaysSerial(s: State, f: int)
    requires Serial(s) && CanStep(s, EndFill(f)) && s.closing.NotClosing?
    ensures Serial(FillEnded(s, f)) && Losses(s, EndFill(f)) == {}
  {
  }

  lemma FiledIsListed(s: State, filed: seq<int>)
    requires Consistent(s) && Serial(s) && ListsFiled(s, filed)
    requires forall f :: f in s.flights ==> !Refilling(s.flights[f])
    ensures Serial(s.(closing := Stopping(filed)))
  {
    forall c | c in s.place && s.place[c].AtKey? ensures c in filed {
      assert s.clients[s.place[c].key] == c;
    }
  }

  lemma CloseStaysSerial(s: State, deques: seq<Profile>)
    requires Consistent(s) && Serial(s) && ListsDeques(s, deques)
    ensures Serial(ClosedOn(s, deques)) && CloseLosses(s, deques) == {}
  {
    assert Waiting(Cleared(s, deques)) == Waiting(s);
    hide Consistent, LostIn, Waiting, AllDrained, Drained, Cleared, NextStopped, ListsDeques, Serial;
    match s.closing
    case NotClosing =>
    case Stopping(todo) =>
      if todo != [] {
        NextStaysSerial(s);
      } else {
        ClearedKeeps(s, deques);
        ClearedStaysSerial(s, deques);
        DrainStaysSerial(Cleared(s, deques), deques, |s.warm|);
      }
    case Draining(left, size) => DrainStaysSerial(s, left, size);
  }

  lemma NextStaysSerial(s: State)
    requires Serial(s) && s.closing.Stopping? && s.closing.todo != []
    ensures Serial(NextStopped(s))
  {
  }

  lemma ClearedStaysSerial(s: State, deques: seq<Profile>)
    requires Serial(s) && s.closing == Stopping([]) && ListsDeques(s, deques)
    ensures Serial(Cleared(s, deques)) && Filed(s) == {}
    ensures Cleared(s, deques).closing == Draining(deques, |s.warm|)
  {
    assert forall c :: c in s.place ==> !s.place[c].AtKey?;
  }

  lemma DrainStaysSerial(s: State, left: seq<Profile>, size: nat)
    requires Consistent(s) && Serial(s) && s.closing == Draining(left, size)
    ensures Serial(Drained(s, left, size)) && (AllDrained(s, left, size) ==> Waiting(s) == {})
  {
    AllDrainedMeans(s, left, size);
    var pending := Pending(left, s.warm);
    PendingMeans(left, s.warm);
    hide Pending, Waiting, AllDrained, Consistent, KeyedAt, WarmAt, HandAt, KeysFit, WarmFits, HandFits, DequesKnown, LostIn;
    assert Serial(Aborted(s));
    hide Serial, Emptied, NextDrained, Empty, Aborted;
    if pending != [] {
      PopStaysSerial(s, pending, size);
    } else {
      EmptiedStaysSerial(s);
    }
  }

  lemma AllDrainedMeans(s: State, left: seq<Profile>, size: nat)
    requires Consistent(s) && Serial(s) && s.closing == Draining(left, size)
    ensures AllDrained(s, left, size) ==> Waiting(s) == {}
  {
    assert forall c :: c in s.place && s.place[c].InWarm? ==> !Empty(s.warm, s.place[c].profile);
    if AllDrained(s, left, size) {
      assert forall p :: p in s.warm ==> Empty(s.warm, p);
    }
  }

  lemma PopStaysSerial(s: State, left: seq<Profile>, size: nat)
    requires Serial(s) && s.closing.Draining? && left != [] && !Empty(s.warm, left[0])
    requires forall p :: p in s.closing.left && !Empty(s.warm, p) ==> p in left
    ensures Serial(NextDrained(s, left, size))
  {
    var s1 := s.(closing := Draining(left, size));
    assert Serial(s1);
    LessStaysSerial(s1, NextDrained(s, left, size));
  }

  lemma EmptiedStaysSerial(s: State)
    requires Serial(s) && s.closing.Draining?
    ensures Serial(Emptied(s))
  {
  }

  ghost predicate Runs(first: State, steps: seq<Step>, last: State)
    decreases steps
  {
    if steps == [] then first == last
    else CanStep(first, steps[0]) && Runs(After(first, steps[0]), steps[1..], last)
  }

  ghost predicate RunsOrderly(first: State, steps: seq<Step>, last: State)
    decreases steps
  {
    if steps == [] then first == last
    else CanStep(first, steps[0]) && Orderly(first, steps[0]) && RunsOrderly(After(first, steps[0]), steps[1..], last)
  }

  /**
   In every orderly run each spawned client is always in exactly one of: one key, one warm deque, one
   running call, stopped. None is lost.
   */
  lemma {:induction false} NoneLost(first: State, steps: seq<Step>, last: State)
    requires Consistent(first) && Serial(first) && LostIn(first.place) == {} && RunsOrderly(first, steps, last)
    ensures Consistent(last) && Serial(last) && LostIn(last.place) == {}
    decreases steps
  {
    if steps != [] {
      hide Consistent, Serial, LostIn, CanStep, Orderly, After, Losses, Finds;
      StepKeeps(first, steps[0]);
      StepStaysSerial(first, steps[0]);
      NoneLost(After(first, steps[0]), steps[1..], last);
    }
  }

  /** What is lost after the steps: at each one its losses join, and what it stops after all leaves. */
  ghost function Toll(s: State, steps: seq<Step>, lost: set<int>): set<int>
    requires exists last :: Runs(s, steps, last)
    decreases steps
  {
    if steps == [] then lost
    else
      assert forall last :: Runs(s, steps, last) ==> Runs(After(s, steps[0]), steps[1..], last);
      Toll(After(s, steps[0]), steps[1..], lost + Losses(s, steps[0]) - Finds(s, steps[0]))
  }

  /** In every run, orderly or not, each client is in one place, and exactly the toll of its steps is lost. */
  lemma {:induction false} LostExactly(first: State, steps: seq<Step>, last: State)
    requires Consistent(first) && Runs(first, steps, last)
    ensures Consistent(last) && LostIn(last.place) == Toll(first, steps, LostIn(first.place))
    decreases steps
  {
    if steps != [] {
      hide Consistent, LostIn, CanStep, After, Losses, Finds;
      StepKeeps(first, steps[0]);
      LostExactly(After(first, steps[0]), steps[1..], last);
    }
  }

  lemma {:induction false} RunsJoin(first: State, steps: seq<Step>, middle: State, more: seq<Step>, last: State)
    requires Runs(first, steps, middle) && Runs(middle, more, last)
    ensures Runs(first, steps + more, last)
    decreases steps
  {
    if steps == [] {
      assert steps + more == more;
    } else {
      assert (steps + more)[1..] == steps[1..] + more;
      hide CanStep, After;
      RunsJoin(After(first, steps[0]), steps[1..], middle, more, last);
    }
  }

  /**
   A call that files its client while `close_all` waits for another one to stop: the maps are emptied
   over it. Nothing is cancelled, no two calls share a key and no refill runs.
   */
  lemma GetDuringCloseLoses() returns (last: State)
    ensures Runs(EMPTY, [Begin(0, "a", None, None, true, 0), Spawn(0), Finish(0), Begin(1, "b", None, None, true, 1), Spawn(1)]
                        + [StartClose([0], []), Finish(1), GoOnClosing([])], last)
    ensures last.closing.NotClosing? && last.clients == map[] && LostIn(last.place) == {1}
  {
    var filed := OneFiled();
    var both := AnotherInHand(filed);
    var open := [Begin(0, "a", None, None, true, 0), Spawn(0), Finish(0)];
    var more := [Begin(1, "b", None, None, true, 1), Spawn(1)];
    hide Runs;
    RunsJoin(EMPTY, open, filed, more, both);
    last := FiledWhileClosing(both);
    assert open + more == [Begin(0, "a", None, None, true, 0), Spawn(0), Finish(0), Begin(1, "b", None, None, true, 1), Spawn(1)];
    RunsJoin(EMPTY, open + more, both, [StartClose([0], []), Finish(1), GoOnClosing([])], last);
  }

  lemma OneFiled() returns (s: State)
    ensures Runs(EMPTY, [Begin(0, "a", None, None, true, 0), Spawn(0), Finish(0)], s)
    ensures s == State(map["a" := 0], map["a" := None], map["a" := None], map["a" := 0], map[], 0, map[], 1,
                       map[0 := None], map[0 := None], map[0 := AtKey("a")], NotClosing)
  {
    var s1 := After(EMPTY, Begin(0, "a", None, None, true, 0));
    var s2 := After(s1, Spawn(0));
    s := After(s2, Finish(0));
  }

  lemma AnotherInHand(s: State) returns (s': State)
    requires s == State(map["a" := 0], map["a" := None], map["a" := None], map["a" := 0], map[], 0, map[], 1,
                        map[0 := None], map[0 := None], map[0 := AtKey("a")], NotClosing)
    ensures Runs(s, [Begin(1, "b", None, None, true, 1), Spawn(1)], s')
    ensures s'.clients == map["a" := 0] && s'.warm == map[] && s'.closing.NotClosing?
    ensures s'.flights == map[1 := Flight(None, Some(1), ForKey("b", None))]
    ensures s'.place == map[0 := AtKey("a"), 1 := InHand(1)]
  {
    var s1 := After(s, Begin(1, "b", None, None, true, 1));
    s' := After(s1, Spawn(1));
  }

  lemma FiledWhileClosing(s: State) returns (last: State)
    requires s.clients == map["a" := 0] && s.warm == map[] && s.closing.NotClosing?
    requires s.flights == map[1 := Flight(None, Some(1), ForKey("b", None))]
    requires s.place == map[0 := AtKey("a"), 1 := InHand(1)]
    ensures Runs(s, [StartClose([0], []), Finish(1), GoOnClosing([])], last)
    ensures last.closing.NotClosing? && last.clients == map[] && LostIn(last.place) == {1}
  {
    assert s.clients["a"] == 0 && s.clients.Values == {0} && s.place.Keys == {0, 1};
    var s1 := StartsStopping(s);
    var s2 := FilesSecond(s1);
    last := ClosesOver(s2);
    hide After, CanStep;
    assert Runs(last, [], last) && Runs(s2, [GoOnClosing([])], last) && Runs(s1, [Finish(1), GoOnClosing([])], last);
  }

  lemma StartsStopping(s: State) returns (s': State)
    requires s.clients.Values == {0} && s.clients.Keys == {"a"} && s.warm == map[] && s.closing.NotClosing?
    requires s.flights == map[1 := Flight(None, Some(1), ForKey("b", None))]
    requires s.place.Keys == {0, 1} && s.place[1] == InHand(1)
    ensures CanStep(s, StartClose([0], [])) && s' == After(s, StartClose([0], []))
    ensures s'.clients.Keys == {"a"} && s'.warm == map[] && s'.closing == Stopping([]) && s'.flights == s.flights
    ensures s'.place.Keys == {0, 1} && s'.place[0] == Stopped && s'.place[1] == InHand(1)
  {
    s' := NextStopped(s.(closing := Stopping([0])));
  }

  lemma FilesSecond(s: State) returns (s': State)
    requires s.clients.Keys == {"a"} && s.warm == map[] && s.closing == Stopping([])
    requires s.flights == map[1 := Flight(None, Some(1), ForKey("b", None))]
    requires s.place.Keys == {0, 1} && s.place[0] == Stopped && s.place[1] == InHand(1)
    ensures CanStep(s, Finish(1)) && s' == After(s, Finish(1))
    ensures s'.warm == map[] && s'.closing == Stopping([])
    ensures s'.place.Keys == {0, 1} && s'.place[0] == Stopped && s'.place[1] == AtKey("b")
  {
    s' := Finished(s, 1);
  }

  lemma ClosesOver(s: State) returns (last: State)
    requires s.warm == map[] && s.closing == Stopping([])
    requires s.place.Keys == {0, 1} && s.place[0] == Stopped && s.place[1] == AtKey("b")
    ensures CanStep(s, GoOnClosing([])) && last == After(s, GoOnClosing([]))
    ensures last.closing.NotClosing? && last.clients == map[] && LostIn(last.place) == {1}
  {
    var s' := Cleared(s, []);
    last := Emptied(s');
    assert After(s, GoOnClosing([])) == Drained(s', [], 0) == last;
  }

  // ---- the last use of a key ----

  /** Nothing but the start of a `get` notes a use: a respawned key has none, and is never idle, until its next `get`. */
  lemma {:induction false} NoUseUntilBegin(first: State, steps: seq<Step>, last: State, key: string)
    requires Runs(first, steps, last) && key !in first.lastUsed
    requires forall i :: 0 <= i < |steps| && steps[i].Begin? ==> steps[i].key != key
    ensures key !in last.lastUsed
    decreases steps
  {
    if steps != [] {
      StepUses(first, steps[0]);
      NoUseUntilBegin(After(first, steps[0]), steps[1..], last, key);
    }
  }

  lemma StepUses(s: State, st: Step)
    requires CanStep(s, st)
    ensures After(s, st).lastUsed.Keys <= s.lastUsed.Keys + if st.Begin? then {st.key} else {}
  {
    match st
    case Begin(f, key, profile, mcp, alive, now) => hide Hit, CanStep;
    case StartClose(filed, deques) => CloseUses(s.(closing := Stopping(filed)), deques);
    case GoOnClosing(deques) => CloseUses(s, deques);
    case _ => hide WarmReady, Full, Overwritten, Orphaned, CanStep;
  }

  lemma CloseUses(s: State, deques: seq<Profile>)
    ensures ClosedOn(s, deques).lastUsed.Keys <= s.lastUsed.Keys
  {
    if s.closing.Stopping? {
      DrainedUses(Cleared(s, deques), deques, |s.warm|);
    } else if s.closing.Draining? {
      DrainedUses(s, s.closing.left, s.closing.size);
    }
    hide Drained;
  }

  lemma DrainedUses(s: State, left: seq<Profile>, size: nat)
    ensures Drained(s, left, size).lastUsed == s.lastUsed
  {
    assert Emptied(s).lastUsed == s.lastUsed && Aborted(s).lastUsed == s.lastUsed;
    var pending := Pending(left, s.warm);
    assert pending != [] ==> NextDrained(s, pending, size).lastUsed == s.lastUsed;
    hide Pending, Empty, Emptied, NextDrained, Aborted;
  }

  lemma EmptyIsSerial()
    ensures Serial(EMPTY)
  {
  }

  /** From a new pool on: in every run exactly the toll of its steps is lost, and in an orderly one nothing. */
  lemma FromNewPool(steps: seq<Step>, last: State)
    requires Runs(EMPTY, steps, last)
    ensures Consistent(last) && LostIn(last.place) == Toll(EMPTY, steps, {})
    ensures RunsOrderly(EMPTY, steps, last) ==> LostIn(last.place) == {}
  {
    EmptyIsConsistent();
    EmptyIsSerial();
    hide Consistent, Serial, LostIn, Runs, RunsOrderly, Toll;
    LostExactly(EMPTY, steps, last);
    if RunsOrderly(EMPTY, steps, last) {
      NoneLost(EMPTY, steps, last);
    }
  }
}
