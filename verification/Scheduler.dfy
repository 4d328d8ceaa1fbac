/**
 The cron scheduler: one tick over the task rows, and any number of API workers whose ticks exclude
 one another by a Redis lock with a time to live. Next runs are parameters, known only to be strictly
 later than the time they are computed from.
 */
module Scheduler {
  import opened Prelude

  const MAX_ENQUEUE_PER_TICK := 50
  const TICK_INTERVAL := 60
  const LOCK_TTL := TICK_INTERVAL + 5

  datatype Status = Never | Running | Failed | Other

  datatype Task = Task(enabled: bool, ownerActive: bool, nextRun: Option<int>, status: Status, failCount: nat,
                       lastRun: Option<int>, updatedAt: int)

  type Rows = map<int, Task>

  /** An occurrence of a task, put on the prompt stream by a tick that began at `at`. */
  datatype Firing = Firing(task: int, occurrence: int, at: int)

  // ---- one tick ----

  function Stale(rows: Rows, now: int, timeout: nat): set<int> {
    set id | id in rows && rows[id].enabled && rows[id].status == Running && rows[id].updatedAt < now - 2 * timeout
  }

  function Due(rows: Rows, now: int): set<int> {
    set id | id in rows && rows[id].enabled && rows[id].ownerActive && rows[id].nextRun.Some? && rows[id].nextRun.value <= now
  }

  /** What `LIMIT 50` without an order may return. */
  predicate Limited(due: set<int>, all: set<int>) {
    due <= all && |due| == Min(MAX_ENQUEUE_PER_TICK, |all|)
  }

  predicate Later(next: map<int, int>, ids: set<int>, now: int) {
    forall id :: id in ids ==> id in next && next[id] > now
  }

  function Reclaimed(t: Task, next: int): Task {
    t.(status := Failed, failCount := t.failCount + 1, nextRun := Some(next))
  }

  function Fired(t: Task, now: int, ok: bool, next: int): Task {
    if ok then t.(lastRun := Some(now), status := Running, nextRun := Some(next))
    else t.(status := Failed, nextRun := Some(next))
  }

  /** One row after the tick. */
  function Ticked(t: Task, now: int, stale: bool, due: bool, ok: bool, next: int): Task {
    var a := if stale then Reclaimed(t, next) else t;
    var b := if due then Fired(a, now, ok, next) else a;
    if stale || due then b.(updatedAt := now) else b
  }

  /** The rows the tick commits; `failed` are the tasks whose prompt could not be put on the stream. */
  function TickedRows(rows: Rows, now: int, stale: set<int>, due: set<int>, failed: set<int>, next: map<int, int>): Rows
    requires Later(next, stale + due, now)
  {
    map id | id in rows ::
      if id in stale + due then Ticked(rows[id], now, id in stale, id in due, id !in failed, next[id]) else rows[id]
  }

  /** Every task a tick selects ends with a next run in the future, and no other row changes. */
  lemma SelectedEndsInFuture(rows: Rows, now: int, stale: set<int>, due: set<int>, failed: set<int>, next: map<int, int>, id: int)
    requires Later(next, stale + due, now) && id in rows
    ensures var t := TickedRows(rows, now, stale, due, failed, next)[id];
      if id in stale + due then t.nextRun.Some? && t.nextRun.value > now && t.enabled == rows[id].enabled
      else t == rows[id]
  {
  }

  /**
   A reclaimed task that is due is still selected by the same tick: the query sees its committed next
   run. It fires at once unless the limit cuts it off, and ends as running with one more failure.
   */
  lemma ReclaimedStillFires(rows: Rows, now: int, timeout: nat, due: set<int>, failed: set<int>, next: map<int, int>, id: int)
    requires Later(next, Stale(rows, now, timeout) + due, now) && Limited(due, Due(rows, now))
    requires id in Stale(rows, now, timeout) && id in Due(rows, now)
    requires |Due(rows, now)| <= MAX_ENQUEUE_PER_TICK && id !in failed
    ensures id in due
    ensures var t := TickedRows(rows, now, Stale(rows, now, timeout), due, failed, next)[id];
      t.status == Running && t.lastRun == Some(now) && t.failCount == rows[id].failCount + 1
  {
    hide Stale;
    SameSize(due, Due(rows, now));
  }

  lemma SameSize(a: set<int>, b: set<int>)
    requires a <= b && |a| >= |b|
    ensures a == b
  {
    assert b == a + (b - a);
  }

  class TaskTable {
    var rows: Rows
    var stream: seq<Firing>

    constructor (rows: Rows)
      ensures this.rows == rows && stream == []
    {
      this.rows := rows;
      stream := [];
    }

    /**
     One tick, in one transaction. `staleRows` and `dueRows` are the query results; the due query reads
     the rows as they were last committed.
     */
    method Tick(now: int, timeout: nat, staleRows: seq<int>, dueRows: seq<int>, failed: set<int>, next: map<int, int>)
      returns (count: nat)
      requires Lists(staleRows, Stale(rows, now, timeout)) && Distinct(dueRows)
      requires Limited(SetOf(dueRows), Due(rows, now)) && Later(next, SetOf(staleRows) + SetOf(dueRows), now)
      modifies this
      ensures rows == TickedRows(old(rows), now, SetOf(staleRows), SetOf(dueRows), failed, next)
      ensures count == |SetOf(dueRows) - failed| <= MAX_ENQUEUE_PER_TICK && |stream| == |old(stream)| + count
      ensures old(stream) <= stream && FiredOnce(old(rows), SetOf(dueRows) - failed, now, stream[|old(stream)|..])
    {
      hide Limited, Ticked, Due, SetOf, FiredOnce, TickedRows;
      DueAreRows(rows, now, SetOf(dueRows));
      StaleAreRows(rows, now, timeout);
      var session := Reclaim(now, staleRows, next);
      count, session := FireDue(now, SetOf(staleRows), dueRows, failed, next, session);
      DueIsLimited(rows, now, SetOf(dueRows), failed);
      rows := session;
    }

    /** The loop over the stale tasks, on the rows of the session. */
    method Reclaim(now: int, staleRows: seq<int>, next: map<int, int>) returns (session: Rows)
      requires Later(next, SetOf(staleRows), now) && SetOf(staleRows) <= rows.Keys && Distinct(staleRows)
      ensures session == Partly(rows, now, SetOf(staleRows), {}, {}, next)
    {
      session := rows;
      NothingYet(rows, now, next);
      hide Partly, SetOf, Distinct;
      for i := 0 to |staleRows|
        invariant session == Partly(rows, now, SetOf(staleRows[..i]), {}, {}, next)
      {
        var id := staleRows[i];
        NextOf(staleRows, i);
        StaleStep(rows, now, SetOf(staleRows[..i]), next, id);
        session := session[id := Reclaimed(session[id], next[id]).(updatedAt := now)];
      }
      assert staleRows[..|staleRows|] == staleRows;
    }

    /** The loop over the due tasks: the occurrence put on the stream is the committed one. */
    method FireDue(now: int, stale: set<int>, dueRows: seq<int>, failed: set<int>, next: map<int, int>, reclaimed: Rows)
      returns (count: nat, session: Rows)
      requires Later(next, stale + SetOf(dueRows), now) && Distinct(dueRows)
      requires forall id :: id in SetOf(dueRows) ==> id in rows && rows[id].nextRun.Some?
      requires reclaimed == Partly(rows, now, stale, {}, {}, next)
      modifies this`stream
      ensures session == TickedRows(rows, now, stale, SetOf(dueRows), failed, next)
      ensures count == |SetOf(dueRows) - failed| && |stream| == |old(stream)| + count
      ensures old(stream) <= stream && FiredOnce(rows, SetOf(dueRows) - failed, now, stream[|old(stream)|..])
    {
      session, count := reclaimed, 0;
      ghost var was := |stream|;
      NoneDueYet(rows, now, stale, failed, next);
      NoneFired(rows, now);
      assert SetOf(dueRows[..0]) - failed == {} && stream[was..] == [] && SetOf(dueRows[..0]) == {};
      hide Partly, SetOf, Distinct, FiredOnce, Fired, Ticked, TickedRows;
      for i := 0 to |dueRows|
        invariant session == Partly(rows, now, stale, SetOf(dueRows[..i]), failed, next)
        invariant count == |SetOf(dueRows[..i]) - failed| && |stream| == was + count && old(stream) <= stream
        invariant FiredOnce(rows, SetOf(dueRows[..i]) - failed, now, stream[was..])
      {
        var id := dueRows[i];
        NextOf(dueRows, i);
        ghost var done := SetOf(dueRows[..i]);
        DueStep(rows, now, stale, done, failed, next, id);
        assert id in rows && rows[id].nextRun.Some?;
        OneMore(done, failed, id);
        if id !in failed {
          FiredMore(rows, done - failed, now, stream, was, Firing(id, rows[id].nextRun.value, now));
          stream := stream + [Firing(id, rows[id].nextRun.value, now)];
          count := count + 1;
        }
        assert FiredOnce(rows, done + {id} - failed, now, stream[was..]);
        session := session[id := Fired(session[id], now, id !in failed, next[id]).(updatedAt := now)];
      }
      assert dueRows[..|dueRows|] == dueRows;
      PartlyIsAll(rows, now, stale, SetOf(dueRows), failed, next);
    }
  }

  function SetOf(list: seq<int>): set<int> {
    set x | x in list
  }

  predicate Distinct(list: seq<int>) {
    forall i, j :: 0 <= i < j < |list| ==> list[i] != list[j]
  }

  predicate Lists(list: seq<int>, ids: set<int>) {
    Distinct(list) && SetOf(list) == ids
  }

  lemma NextOf(list: seq<int>, i: nat)
    requires Distinct(list) && i < |list|
    ensures list[i] in SetOf(list) && list[i] !in SetOf(list[..i]) && SetOf(list[..i + 1]) == SetOf(list[..i]) + {list[i]}
  {
    assert list[..i + 1] == list[..i] + [list[i]];
  }

  lemma OneMore(done: set<int>, failed: set<int>, id: int)
    requires id !in done
    ensures done + {id} - failed == if id in failed then done - failed else done - failed + {id}
    ensures |done + {id} - failed| == |done - failed| + if id in failed then 0 else 1
  {
    assert done + {id} - failed == (done - failed) + if id in failed then {} else {id};
  }

  lemma NothingYet(rows: Rows, now: int, next: map<int, int>)
    ensures rows == Partly(rows, now, SetOf([]), {}, {}, next)
  {
  }

  lemma PartlyIsAll(rows: Rows, now: int, stale: set<int>, due: set<int>, failed: set<int>, next: map<int, int>)
    requires Later(next, stale + due, now)
    ensures Partly(rows, now, stale, due, failed, next) == TickedRows(rows, now, stale, due, failed, next)
  {
    hide Ticked;
    var a, b := Partly(rows, now, stale, due, failed, next), TickedRows(rows, now, stale, due, failed, next);
    assert a.Keys == rows.Keys && b.Keys == rows.Keys;
    forall id | id in rows ensures a[id] == b[id] {
      if id in stale + due { assert id in next; }
    }
  }

  /** Each of the tasks is fired once, at this time, for the next run its row had, and nothing else is. */
  ghost predicate FiredOnce(rows: Rows, tasks: set<int>, now: int, firings: seq<Firing>) {
    && (forall k :: 0 <= k < |firings| ==>
          var f := firings[k];
          f.task in tasks && f.task in rows && f.at == now && rows[f.task].nextRun == Some(f.occurrence))
    && (forall j, k :: 0 <= j < k < |firings| ==> firings[j].task != firings[k].task)
    && (forall id :: id in tasks ==> exists k :: 0 <= k < |firings| && firings[k].task == id)
  }

  lemma NoneFired(rows: Rows, now: int)
    ensures FiredOnce(rows, {}, now, [])
  {
  }

  lemma FiredMore(rows: Rows, tasks: set<int>, now: int, stream: seq<Firing>, was: nat, f: Firing)
    requires was <= |stream| && FiredOnce(rows, tasks, now, stream[was..])
    requires f.task !in tasks && f.task in rows && f.at == now && rows[f.task].nextRun == Some(f.occurrence)
    ensures FiredOnce(rows, tasks + {f.task}, now, (stream + [f])[was..])
  {
    var before, after := stream[was..], (stream + [f])[was..];
    assert after == before + [f];
    forall id | id in tasks + {f.task} ensures exists k :: 0 <= k < |after| && after[k].task == id {
      if id in tasks {
        var k :| 0 <= k < |before| && before[k].task == id;
        assert after[k].task == id;
      } else {
        assert after[|before|].task == id;
      }
    }
  }

  /**
   What a tick puts on the stream: nothing of a disabled task, a deactivated owner or the future; and
   with at most fifty such tasks due, each of them whose prompt could be put there.
   */
  lemma TickFires(rows: Rows, now: int, due: set<int>, failed: set<int>, firings: seq<Firing>)
    requires Limited(due, Due(rows, now)) && FiredOnce(rows, due - failed, now, firings)
    ensures forall k | 0 <= k < |firings| :: MayFire(rows, now, firings[k].task)
    ensures |Due(rows, now)| <= 50 ==>
      forall id | MayFire(rows, now, id) && id !in failed :: exists k :: 0 <= k < |firings| && firings[k].task == id
  {
    if |Due(rows, now)| <= 50 {
      SameSize(due, Due(rows, now));
      forall id | MayFire(rows, now, id) && id !in failed ensures exists k :: 0 <= k < |firings| && firings[k].task == id {
        assert id in due - failed;
      }
    }
  }

  /** An enabled task of an active owner, whose next run has come. */
  predicate MayFire(rows: Rows, now: int, id: int) {
    id in rows && rows[id].enabled && rows[id].ownerActive && rows[id].nextRun.Some? && now >= rows[id].nextRun.value
  }

  /** How each row ends: fired, failed to fire, reclaimed only, or as it was. */
  lemma TickOutcome(rows: Rows, now: int, timeout: nat, due: set<int>, failed: set<int>, next: map<int, int>, id: int)
    requires Later(next, Stale(rows, now, timeout) + due, now) && Limited(due, Due(rows, now)) && id in rows
    ensures var t := TickedRows(rows, now, Stale(rows, now, timeout), due, failed, next)[id];
      var stale := rows[id].enabled && rows[id].status == Running && now - rows[id].updatedAt > 2 * timeout;
      && t.failCount == rows[id].failCount + (if stale then 1 else 0)
      && t.lastRun == (if id in due && id !in failed then Some(now) else rows[id].lastRun)
      && t.status == (if id in due && id !in failed then Running else if stale || id in due then Failed else rows[id].status)
      && (!stale && id !in due ==> t == rows[id])
  {
    hide Due;
  }

  /** A task a tick has fired is reclaimed, if nothing writes its row meanwhile, exactly by ticks more than two timeouts later. */
  lemma ReclaimedIff(rows: Rows, now: int, timeout: nat, due: set<int>, failed: set<int>, next: map<int, int>, id: int, later: int)
    requires Later(next, Stale(rows, now, timeout) + due, now) && Limited(due, Due(rows, now)) && id in due - failed
    ensures id in Stale(TickedRows(rows, now, Stale(rows, now, timeout), due, failed, next), later, timeout)
            <==> later > now + 2 * timeout
  {
    assert id in Due(rows, now);
  }

  lemma DueAreRows(rows: Rows, now: int, due: set<int>)
    requires Limited(due, Due(rows, now))
    ensures due <= Due(rows, now) <= rows.Keys && forall id :: id in due ==> rows[id].nextRun.Some?
  {
  }

  lemma StaleAreRows(rows: Rows, now: int, timeout: nat)
    ensures Stale(rows, now, timeout) <= rows.Keys
  {
  }

  lemma DueIsLimited(rows: Rows, now: int, due: set<int>, failed: set<int>)
    requires Limited(due, Due(rows, now))
    ensures |due - failed| <= MAX_ENQUEUE_PER_TICK
  {
    SubsetSize(due - failed, due);
  }

  lemma StaleStep(rows: Rows, now: int, stale: set<int>, next: map<int, int>, id: int)
    requires id in rows && id in next && id !in stale
    ensures var s := Partly(rows, now, stale, {}, {}, next);
      s.Keys == rows.Keys
      && Partly(rows, now, stale + {id}, {}, {}, next) == s[id := Reclaimed(s[id], next[id]).(updatedAt := now)]
  {
  }

  lemma DueStep(rows: Rows, now: int, stale: set<int>, due: set<int>, failed: set<int>, next: map<int, int>, id: int)
    requires id in rows && id in next && id !in due
    ensures var s := Partly(rows, now, stale, due, failed, next);
      s.Keys == rows.Keys
      && Partly(rows, now, stale, due + {id}, failed, next)
         == s[id := Fired(s[id], now, id !in failed, next[id]).(updatedAt := now)]
  {
  }

  lemma NoneDueYet(rows: Rows, now: int, stale: set<int>, failed: set<int>, next: map<int, int>)
    ensures Partly(rows, now, stale, {}, failed, next) == Partly(rows, now, stale, {}, {}, next)
  {
    var a, b := Partly(rows, now, stale, {}, failed, next), Partly(rows, now, stale, {}, {}, next);
    assert a.Keys == rows.Keys && b.Keys == rows.Keys;
    forall id | id in rows ensures a[id] == b[id] {
    }
  }

  /** `TickedRows` while the loops are still at work. */
  ghost function Partly(rows: Rows, now: int, stale: set<int>, due: set<int>, failed: set<int>, next: map<int, int>): Rows {
    map id | id in rows ::
      if id in stale + due && id in next then Ticked(rows[id], now, id in stale, id in due, id !in failed, next[id]) else rows[id]
  }

  // ---- many workers ----

  /** What a worker is doing: the rows it read, and the selected tasks still to fire, with the next runs read. */
  datatype Phase =
    | Locked(expiry: int)
    | Ticking(expiry: int, at: int, read: Rows, stale: set<int>, todo: map<int, int>, done: set<int>, failed: set<int>)

  /**
   A toggle or an update that has loaded its row and computed its next run, and not yet committed.
   `others`: the name, prompt, cron or another column is changed as well.
   */
  datatype Edit = Edit(task: int, loaded: Task, enabled: bool, next: Option<int>, others: bool, computedAt: int)

  /** A commit writes only the columns whose value differs from the one that was loaded. */
  function Written(row: Task, loaded: Task, changed: Task, at: int): Task {
    row.(enabled := if changed.enabled != loaded.enabled then changed.enabled else row.enabled,
         nextRun := if changed.nextRun != loaded.nextRun then changed.nextRun else row.nextRun,
         status := if changed.status != loaded.status then changed.status else row.status,
         failCount := if changed.failCount != loaded.failCount then changed.failCount else row.failCount,
         lastRun := if changed.lastRun != loaded.lastRun then changed.lastRun else row.lastRun,
         updatedAt := if changed != loaded then at else row.updatedAt)
  }

  /** The rows after a tick that read `read` and made `ticked` of it has committed. */
  function CommittedRows(rows: Rows, read: Rows, ticked: Rows, ids: set<int>, at: int): Rows {
    map id | id in rows ::
      if id in ids && id in read && id in ticked then Written(rows[id], read[id], ticked[id], at) else rows[id]
  }

  /** Nobody else wrote meanwhile: what the tick made of the rows is what they become. */
  lemma UndisturbedCommit(rows: Rows, now: int, stale: set<int>, due: set<int>, failed: set<int>, next: map<int, int>)
    requires Later(next, stale + due, now) && stale + due <= rows.Keys
    ensures var ticked := TickedRows(rows, now, stale, due, failed, next);
      CommittedRows(rows, rows, ticked, stale + due, now) == ticked
  {
    var ticked := TickedRows(rows, now, stale, due, failed, next);
    forall id | id in rows ensures CommittedRows(rows, rows, ticked, stale + due, now)[id] == ticked[id] {
    }
  }

  function EditedRow(row: Task, d: Edit, now: int): Task {
    var t := Written(row, d.loaded, d.loaded.(enabled := d.enabled, nextRun := d.next), now);
    if d.others then t.(updatedAt := now) else t
  }

  datatype World = World(now: int, lock: Option<int>, rows: Rows, workers: map<int, Phase>, edits: map<int, Edit>,
                         stream: seq<Firing>)

  datatype Step =
    | Pass(seconds: nat)
    | Acquire(w: int)
    | Select(w: int, timeout: nat, due: set<int>)
    | Enqueue(w: int, id: int, ok: bool)
    | Commit(w: int, next: map<int, int>)
    | Crash(w: int)
    | BeginEdit(e: int, id: int, enabled: bool, computed: int, others: bool)
    | CommitEdit(e: int)
    | Report(id: int, status: Status, active: bool)   // the runner's outcome, or the owner (de)activated

  predicate LockFree(w: World) {
    w.lock.None? || w.lock.value <= w.now
  }

  predicate CanStep(w: World, s: Step) {
    match s
    case Pass(_) => true
    case Acquire(k) => k !in w.workers && LockFree(w)
    case Select(k, timeout, due) => k in w.workers && w.workers[k].Locked? && Limited(due, Due(w.rows, w.now))
    case Enqueue(k, id, _) => k in w.workers && w.workers[k].Ticking? && id in w.workers[k].todo
    case Commit(k, next) =>
      && k in w.workers && w.workers[k].Ticking? && w.workers[k].todo == map[]
      && Later(next, w.workers[k].stale + w.workers[k].done, w.workers[k].at)
    case Crash(k) => k in w.workers
    case BeginEdit(e, id, _, next, _) => e !in w.edits && id in w.rows && next > w.now
    case CommitEdit(e) => e in w.edits && w.edits[e].task in w.rows
    case Report(id, _, _) => id in w.rows
  }

  function TodoOf(rows: Rows, now: int, due: set<int>): map<int, int>
    requires due <= Due(rows, now)
  {
    map id | id in due :: rows[id].nextRun.value
  }

  /** The tick's own record after it has dealt with one more task. */
  function Dealt(p: Phase, id: int, ok: bool): Phase
    requires p.Ticking?
  {
    p.(todo := p.todo - {id}, done := p.done + {id}, failed := if ok then p.failed else p.failed + {id})
  }

  function StreamWith(stream: seq<Firing>, p: Phase, id: int, ok: bool): seq<Firing>
    requires p.Ticking? && id in p.todo
  {
    if ok then stream + [Firing(id, p.todo[id], p.at)] else stream
  }

  function After(w: World, s: Step): World
    requires CanStep(w, s)
  {
    match s
    case Pass(seconds) => w.(now := w.now + seconds)
    case Acquire(k) => w.(lock := Some(w.now + LOCK_TTL), workers := w.workers[k := Locked(w.now + LOCK_TTL)])
    case Select(k, timeout, due) =>
      w.(workers := w.workers[k := Ticking(w.workers[k].expiry, w.now, w.rows, Stale(w.rows, w.now, timeout),
                                           TodoOf(w.rows, w.now, due), {}, {})])
    case Enqueue(k, id, ok) =>
      var p := w.workers[k];
      w.(workers := w.workers[k := Dealt(p, id, ok)], stream := StreamWith(w.stream, p, id, ok))
    case Commit(k, next) =>
      var p := w.workers[k];
      w.(rows := CommittedRows(w.rows, p.read, TickedRows(p.read, p.at, p.stale, p.done, p.failed, next),
                               p.stale + p.done, w.now),
         workers := w.workers - {k}, lock := None)
    case Crash(k) => w.(workers := w.workers - {k})
    case BeginEdit(e, id, enabled, next, others) =>
      w.(edits := w.edits[e := Edit(id, w.rows[id], enabled, if enabled then Some(next) else None, others, w.now)])
    case CommitEdit(e) =>
      var d := w.edits[e];
      w.(rows := w.rows[d.task := EditedRow(w.rows[d.task], d, w.now)],
         edits := w.edits - {e})
    case Report(id, status, active) =>
      w.(rows := w.rows[id := w.rows[id].(status := status, ownerActive := active, updatedAt := w.now)])
  }

  ghost predicate Ahead(stream: seq<Firing>, id: int, occurrence: int) {
    forall i :: 0 <= i < |stream| && stream[i].task == id ==> stream[i].occurrence < occurrence
  }

  /** A tick under way has already dealt with the task, and its commit will set the next run. */
  predicate DealtWith(w: World, id: int) {
    exists k :: k in w.workers && w.workers[k].Ticking? && id in w.workers[k].done
  }

  /** No firing of the task began after this time. */
  ghost predicate NoneSince(stream: seq<Firing>, id: int, time: int) {
    forall i :: 0 <= i < |stream| && stream[i].task == id ==> stream[i].at <= time
  }

  /**
   What a run needs of its environment: ticks end before their lock does, a worker that has begun to
   fire does not crash before its commit, and an edit that changes the next run commits before the one it
   computed is due, or with no tick having fired its task since it computed, or during a tick whose own
   commit comes later. An edit that computed the next run it had loaded may commit at any time.
   */
  ghost predicate Timely(w: World, s: Step) {
    match s
    case Pass(seconds) => forall k :: k in w.workers ==> w.now + seconds < w.workers[k].expiry
    case Crash(k) => k in w.workers && (w.workers[k].Ticking? ==> w.workers[k].done == {})
    case CommitEdit(e) => e in w.edits && EditInTime(w, w.edits[e])
    case _ => true
  }

  ghost predicate EditInTime(w: World, d: Edit) {
    d.next.Some? && d.next != d.loaded.nextRun ==>
      w.now < d.next.value || NoneSince(w.stream, d.task, d.computedAt) || DealtWith(w, d.task)
  }

  // ---- what every timely run keeps ----

  /** A worker at work holds the lock, so it is the only one. */
  ghost predicate OneWorker(w: World) {
    && (forall k :: k in w.workers ==> w.lock == Some(w.workers[k].expiry) && w.now < w.workers[k].expiry)
    && (forall j, k :: j in w.workers && k in w.workers ==> j == k)
  }

  /** The occurrences fired for one task strictly increase. */
  ghost predicate Increasing(stream: seq<Firing>) {
    forall i, j :: 0 <= i < j < |stream| && stream[i].task == stream[j].task ==>
      stream[i].occurrence < stream[j].occurrence
  }

  ghost predicate FiredBy(stream: seq<Firing>, now: int) {
    forall i :: 0 <= i < |stream| ==> stream[i].occurrence <= stream[i].at <= now
  }

  /** The edit enables the task and leaves the next run in the row as it is. */
  predicate Wakes(d: Edit) {
    d.enabled && !d.loaded.enabled && d.next == d.loaded.nextRun
  }

  /** A disabled task that no edit under way enables with the next run it has. */
  ghost predicate Asleep(w: World, id: int) {
    id in w.rows && !w.rows[id].enabled && forall e :: e in w.edits && w.edits[e].task == id ==> !Wakes(w.edits[e])
  }

  /** A next run is later than all that has been fired for its task, or the task is not going to fire it. */
  ghost predicate NextOk(w: World) {
    forall id :: id in w.rows && w.rows[id].nextRun.Some? && !DealtWith(w, id) ==>
      Ahead(w.stream, id, w.rows[id].nextRun.value) || Asleep(w, id)
  }

  /** So is what the tick under way has still to fire; nothing was fired after that tick began. */
  ghost predicate TickOk(w: World) {
    forall k :: k in w.workers && w.workers[k].Ticking? ==> PhaseOk(w.rows, w.stream, w.now, w.workers[k])
  }

  ghost predicate PhaseOk(rows: Rows, stream: seq<Firing>, now: int, p: Phase)
    requires p.Ticking?
  {
    && p.at <= now && FiredBy(stream, p.at)
    && (forall id :: id in p.todo ==> p.todo[id] <= p.at && id !in p.done && Ahead(stream, id, p.todo[id]))
    && p.done <= rows.Keys && p.todo.Keys <= rows.Keys && p.failed <= p.done && p.done <= Due(p.read, p.at)
    && p.todo.Keys <= Due(p.read, p.at)
    && |p.todo.Keys + p.done| <= MAX_ENQUEUE_PER_TICK
  }

  /** An edit's next run is later than the time it is computed from. */
  ghost predicate EditsOk(w: World) {
    forall e :: e in w.edits ==>
      w.edits[e].next.Some? == w.edits[e].enabled && (w.edits[e].enabled ==> w.edits[e].computedAt < w.edits[e].next.value)
  }

  ghost predicate Inv(w: World) {
    EditsOk(w) && OneWorker(w) && Increasing(w.stream) && FiredBy(w.stream, w.now) && NextOk(w) && TickOk(w)
  }

  ghost predicate Initial(w: World) {
    w.lock.None? && w.workers == map[] && w.edits == map[] && w.stream == []
  }

  lemma InitialInv(w: World)
    requires Initial(w)
    ensures Inv(w)
  {
  }

  lemma AppendIncreases(stream: seq<Firing>, f: Firing, now: int)
    requires Increasing(stream) && Ahead(stream, f.task, f.occurrence) && FiredBy(stream, now) && f.occurrence <= f.at <= now
    ensures Increasing(stream + [f]) && FiredBy(stream + [f], now)
  {
  }

  lemma AheadOfMore(stream: seq<Firing>, f: Firing, id: int, occurrence: int)
    requires Ahead(stream, id, occurrence) && f.task != id
    ensures Ahead(stream + [f], id, occurrence)
  {
  }

  lemma EnqueueKeepsInv(w: World, k: int, id: int, ok: bool)
    requires Inv(w) && CanStep(w, Enqueue(k, id, ok))
    ensures Inv(After(w, Enqueue(k, id, ok)))
  {
    var p := w.workers[k];
    assert PhaseOk(w.rows, w.stream, w.now, p);
    var f := Firing(id, p.todo[id], p.at);
    AppendIncreases(w.stream, f, p.at);
    AppendIncreases(w.stream, f, w.now);
    EnqueueKeepsPhase(w.rows, w.stream, w.now, p, id, ok);
    EnqueueKeepsNext(w, k, id, ok);
    hide Increasing, Ahead, FiredBy, Limited, Due, PhaseOk, NextOk, Dealt;
  }

  lemma EnqueueKeepsPhase(rows: Rows, stream: seq<Firing>, now: int, p: Phase, id: int, ok: bool)
    requires p.Ticking? && PhaseOk(rows, stream, now, p) && id in p.todo && Increasing(stream)
    ensures PhaseOk(rows, StreamWith(stream, p, id, ok), now, Dealt(p, id, ok))
  {
    var f := Firing(id, p.todo[id], p.at);
    AppendIncreases(stream, f, p.at);
    hide Increasing, Ahead, FiredBy;
    var p' := Dealt(p, id, ok);
    assert p'.todo.Keys + p'.done == p.todo.Keys + p.done;
    forall x | x in p'.todo ensures Ahead(stream + [f], x, p'.todo[x]) && x in p.todo && x !in p'.done {
      AheadOfMore(stream, f, x, p.todo[x]);
    }
  }

  lemma EnqueueKeepsNext(w: World, k: int, id: int, ok: bool)
    requires OneWorker(w) && NextOk(w) && CanStep(w, Enqueue(k, id, ok))
    ensures NextOk(After(w, Enqueue(k, id, ok)))
  {
    hide Ahead;
    var w' := After(w, Enqueue(k, id, ok));
    forall x | x in w.rows && w.rows[x].nextRun.Some? && !DealtWith(w', x)
      ensures Ahead(w'.stream, x, w.rows[x].nextRun.value) || Asleep(w', x)
    {
      assert k in w'.workers && w'.workers[k].Ticking? && id in w'.workers[k].done;
      NotDealtWith(w, w', k, x);
      if Ahead(w.stream, x, w.rows[x].nextRun.value) {
        AheadOfMore(w.stream, Firing(id, w.workers[k].todo[id], w.workers[k].at), x, w.rows[x].nextRun.value);
      } else {
        assert Asleep(w, x);
      }
    }
  }

  lemma NotDealtWith(w: World, w': World, k: int, x: int)
    requires OneWorker(w) && k in w.workers && w.workers[k].Ticking?
    requires k in w'.workers && w'.workers[k].Ticking? && w.workers[k].done <= w'.workers[k].done && !DealtWith(w', x)
    ensures !DealtWith(w, x) && x !in w'.workers[k].done
  {
  }

  lemma SelectKeepsInv(w: World, k: int, timeout: nat, due: set<int>)
    requires Inv(w) && CanStep(w, Select(k, timeout, due))
    ensures Inv(After(w, Select(k, timeout, due)))
  {
    hide Increasing, Ahead, FiredBy;
    var w' := After(w, Select(k, timeout, due));
    var p' := w'.workers[k];
    assert p'.todo.Keys == due == p'.todo.Keys + p'.done;
    assert forall x :: !DealtWith(w, x) && !DealtWith(w', x) && (Asleep(w', x) <==> Asleep(w, x));
    forall id | id in p'.todo ensures Ahead(w'.stream, id, p'.todo[id]) && p'.todo[id] <= p'.at && id in w.rows {
      assert id in Due(w.rows, w.now) && !Asleep(w, id);
    }
    assert PhaseOk(w'.rows, w'.stream, w'.now, p');
  }

  lemma CommitKeepsInv(w: World, k: int, next: map<int, int>)
    requires Inv(w) && CanStep(w, Commit(k, next))
    ensures Inv(After(w, Commit(k, next)))
  {
    hide Increasing, Ahead, FiredBy, NextOk, TickedRows, CommittedRows, Limited, Due, PhaseOk;
    CommitKeepsNext(w, k, next);
    assert forall j :: j in w.workers ==> j == k;
    assert w.workers - {k} == map[];
  }

  lemma CommitKeepsNext(w: World, k: int, next: map<int, int>)
    requires NextOk(w) && OneWorker(w) && TickOk(w) && CanStep(w, Commit(k, next))
    ensures NextOk(After(w, Commit(k, next)))
  {
    var p := w.workers[k];
    assert PhaseOk(w.rows, w.stream, w.now, p);
    assert FiredBy(w.stream, p.at) by { PhaseFired(w.rows, w.stream, w.now, p); }
    assert p.done <= Due(p.read, p.at);
    hide Ahead, Limited, Due, TickedRows, CommittedRows, PhaseOk, TickOk;
    var w' := After(w, Commit(k, next));
    forall id | id in w'.rows && w'.rows[id].nextRun.Some?
      ensures Ahead(w'.stream, id, w'.rows[id].nextRun.value) || Asleep(w', id)
    {
      CommittedRow(w.rows, p, next, w.now, id);
      if w'.rows[id].nextRun != w.rows[id].nextRun || id in p.done {
        LaterIsAhead(w.stream, p.at, id, w'.rows[id].nextRun.value);
      } else {
        assert !DealtWith(w, id);
      }
    }
  }

  /** A tick's commit enables and disables nothing, and every next run it writes is in its future. */
  lemma CommittedRow(rows: Rows, p: Phase, next: map<int, int>, now: int, id: int)
    requires p.Ticking? && Later(next, p.stale + p.done, p.at) && p.done <= Due(p.read, p.at)
    ensures var rows' := CommittedRows(rows, p.read, TickedRows(p.read, p.at, p.stale, p.done, p.failed, next), p.stale + p.done, now);
      && rows'.Keys == rows.Keys
      && (id in rows ==>
            && rows'[id].enabled == rows[id].enabled
            && (rows'[id].nextRun != rows[id].nextRun || id in p.done ==> rows'[id].nextRun.Some? && rows'[id].nextRun.value > p.at))
  {
    if id in p.read {
      SelectedEndsInFuture(p.read, p.at, p.stale, p.done, p.failed, next, id);
    }
  }

  lemma PhaseFired(rows: Rows, stream: seq<Firing>, now: int, p: Phase)
    requires p.Ticking? && PhaseOk(rows, stream, now, p)
    ensures FiredBy(stream, p.at)
  {
  }

  lemma LaterIsAhead(stream: seq<Firing>, at: int, id: int, next: int)
    requires FiredBy(stream, at) && next > at
    ensures Ahead(stream, id, next)
  {
  }

  /** In time, a next run an edit writes is later than everything fired: no firing ran ahead of its own tick. */
  lemma InTimeIsAhead(w: World, d: Edit)
    requires FiredBy(w.stream, w.now) && EditInTime(w, d) && (d.next.Some? ==> d.computedAt < d.next.value)
    ensures d.next.Some? && d.next != d.loaded.nextRun ==>
      Ahead(w.stream, d.task, d.next.value) || DealtWith(w, d.task)
  {
  }

  lemma EditKeepsInv(w: World, e: int)
    requires Inv(w) && CanStep(w, CommitEdit(e))
    requires EditIsSafe(w, e) || DealtWith(w, w.edits[e].task)
    ensures Inv(After(w, CommitEdit(e)))
  {
    hide Limited, Due, Increasing, Ahead, FiredBy, PhaseOk;
    var w' := After(w, CommitEdit(e));
    assert w'.rows.Keys == w.rows.Keys;
    assert forall x :: DealtWith(w', x) <==> DealtWith(w, x);
    forall k | k in w.workers && w.workers[k].Ticking? ensures PhaseOk(w'.rows, w'.stream, w'.now, w.workers[k]) {
      PhaseStays(w.rows, w'.rows, w.stream, w.now, w.now, w.workers[k]);
    }
    forall id | id in w'.rows && w'.rows[id].nextRun.Some? && !DealtWith(w', id)
      ensures Ahead(w'.stream, id, w'.rows[id].nextRun.value) || Asleep(w', id)
    {
      assert Asleep(w, id) && id != w.edits[e].task ==> Asleep(w', id);
      assert Asleep(w, id) ==> id != w.edits[e].task || !Wakes(w.edits[e]);
    }
  }

  lemma PhaseStays(rows: Rows, rows': Rows, stream: seq<Firing>, now: int, later: int, p: Phase)
    requires p.Ticking? && PhaseOk(rows, stream, now, p) && rows'.Keys == rows.Keys && now <= later
    ensures PhaseOk(rows', stream, later, p)
  {
  }

  lemma FiredByLater(stream: seq<Firing>, now: int, later: int)
    requires FiredBy(stream, now)
    ensures now <= later ==> FiredBy(stream, later)
  {
  }

  lemma OtherKeepsInv(w: World, s: Step)
    requires Inv(w) && CanStep(w, s) && Timely(w, s) && (s.Pass? || s.Acquire? || s.Crash?)
    ensures Inv(After(w, s))
  {
    FiredByLater(w.stream, w.now, After(w, s).now);
    hide Limited, Due, Increasing, Ahead, FiredBy, PhaseOk;
    var w' := After(w, s);
    forall x | x in w.rows && DealtWith(w, x) ensures DealtWith(w', x) {
      var k :| k in w.workers && w.workers[k].Ticking? && x in w.workers[k].done;
      assert !s.Crash?;
      assert k in w'.workers && w'.workers[k] == w.workers[k];
    }
    forall k | k in w'.workers && w'.workers[k].Ticking? ensures PhaseOk(w'.rows, w'.stream, w'.now, w'.workers[k]) {
      PhaseStays(w.rows, w'.rows, w.stream, w.now, w'.now, w.workers[k]);
    }
    assert forall id :: Asleep(w', id) <==> Asleep(w, id);
  }

  lemma BeginEditKeepsInv(w: World, s: Step)
    requires Inv(w) && CanStep(w, s) && s.BeginEdit?
    ensures Inv(After(w, s))
  {
    hide Limited, Due, Increasing, Ahead, PhaseOk, TickOk, OneWorker;
    var w' := After(w, s);
    assert forall x :: DealtWith(w', x) <==> DealtWith(w, x);
    forall id | Asleep(w, id) && w.rows[id].nextRun.Some? && !Ahead(w.stream, id, w.rows[id].nextRun.value)
      ensures Asleep(w', id)
    {
      BehindIsPast(w.stream, w.now, id, w.rows[id].nextRun.value);
    }
    assert TickOk(w') && OneWorker(w') by { SameTicks(w, w'); }
  }

  lemma SameTicks(w: World, w': World)
    requires TickOk(w) && OneWorker(w)
    requires w'.workers == w.workers && w'.rows == w.rows && w'.stream == w.stream && w'.now == w.now && w'.lock == w.lock
    ensures TickOk(w') && OneWorker(w')
  {
  }

  /** What is not ahead of the firings is not ahead of the clock, so no newly computed next run equals it. */
  lemma BehindIsPast(stream: seq<Firing>, now: int, id: int, occurrence: int)
    requires FiredBy(stream, now) && !Ahead(stream, id, occurrence)
    ensures occurrence <= now
  {
  }

  lemma ReportKeepsInv(w: World, id: int, status: Status, active: bool)
    requires Inv(w) && CanStep(w, Report(id, status, active))
    ensures Inv(After(w, Report(id, status, active)))
  {
    hide Limited, Due, Increasing, Ahead, FiredBy, PhaseOk;
    var w' := After(w, Report(id, status, active));
    assert w'.rows.Keys == w.rows.Keys;
    assert forall x :: (DealtWith(w', x) <==> DealtWith(w, x)) && (Asleep(w', x) <==> Asleep(w, x));
    forall k | k in w.workers && w.workers[k].Ticking? ensures PhaseOk(w'.rows, w'.stream, w'.now, w.workers[k]) {
      PhaseStays(w.rows, w'.rows, w.stream, w.now, w.now, w.workers[k]);
    }
  }

  lemma StepKeepsInv(w: World, s: Step)
    requires Inv(w) && CanStep(w, s) && Timely(w, s)
    ensures Inv(After(w, s))
  {
    hide After;
    if s.CommitEdit? { InTimeIsAhead(w, w.edits[s.e]); }
    hide Inv, CanStep, Timely;
    match s
    case Enqueue(k, id, ok) => EnqueueKeepsInv(w, k, id, ok);
    case Select(k, timeout, due) => SelectKeepsInv(w, k, timeout, due);
    case Commit(k, next) => CommitKeepsInv(w, k, next);
    case CommitEdit(e) => EditKeepsInv(w, e);
    case Report(id, status, active) => ReportKeepsInv(w, id, status, active);
    case BeginEdit(_, _, _, _, _) => BeginEditKeepsInv(w, s);
    case _ => OtherKeepsInv(w, s);
  }

  /** `last` is reached from `first` by the steps, each of them possible and timely. */
  ghost predicate Runs(first: World, steps: seq<Step>, last: World)
    decreases steps
  {
    if steps == [] then first == last
    else CanStep(first, steps[0]) && Timely(first, steps[0]) && Runs(After(first, steps[0]), steps[1..], last)
  }

  lemma {:induction false} RunKeepsInv(first: World, steps: seq<Step>, last: World)
    requires Inv(first) && Runs(first, steps, last)
    ensures Inv(last)
    decreases steps
  {
    hide Inv, CanStep, After, Timely;
    if steps != [] {
      StepKeepsInv(first, steps[0]);
      RunKeepsInv(After(first, steps[0]), steps[1..], last);
    }
  }

  /** No occurrence is put on the stream twice: in every timely run each task's strictly increase. */
  lemma OccurrencesIncrease(first: World, steps: seq<Step>, last: World)
    requires Initial(first) && Runs(first, steps, last)
    ensures Increasing(last.stream)
  {
    hide Initial, Runs, OneWorker, NextOk, TickOk, Increasing, FiredBy;
    InitialInv(first);
    RunKeepsInv(first, steps, last);
  }

  /** At every moment of a timely run at most one worker is between taking and releasing the lock. */
  lemma TicksExcludeEachOther(first: World, steps: seq<Step>, last: World, j: int, k: int)
    requires Initial(first) && Runs(first, steps, last) && j in last.workers && k in last.workers
    ensures j == k
  {
    hide Initial, Runs, NextOk, TickOk, Increasing, FiredBy;
    InitialInv(first);
    RunKeepsInv(first, steps, last);
  }

  /** The tick under way has dealt with at most fifty tasks. */
  lemma TickIsBounded(first: World, steps: seq<Step>, last: World, k: int)
    requires Initial(first) && Runs(first, steps, last) && k in last.workers && last.workers[k].Ticking?
    ensures |last.workers[k].done| <= MAX_ENQUEUE_PER_TICK
  {
    hide Initial, Runs, NextOk, OneWorker, Ahead, Increasing, FiredBy;
    InitialInv(first);
    RunKeepsInv(first, steps, last);
    var p := last.workers[k];
    assert PhaseOk(last.rows, last.stream, last.now, p);
    SubsetSize(p.done, p.todo.Keys + p.done);
  }

  // ---- the pieces of a tick that nobody disturbs make up the tick ----

  /** The tick of worker `k` has dealt with the tasks `done`, as one tick over the rows it read would have. */
  ghost predicate Underway(first: World, w: World, k: int, stale: set<int>, due: set<int>, done: set<int>, failed: set<int>) {
    && w.rows == first.rows && w.now == first.now && w.edits == first.edits
    && k in w.workers && w.workers - {k} == first.workers - {k} && w.workers[k].Ticking? && done <= due
    && var p := w.workers[k];
       && p.at == first.now && p.read == first.rows && p.stale == stale && p.todo.Keys == due - done
       && p.done == done && p.failed == failed * done
       && (forall id :: id in p.todo ==> id in first.rows && first.rows[id].nextRun == Some(p.todo[id]))
       && |first.stream| <= |w.stream| && w.stream[..|first.stream|] == first.stream
       && FiredOnce(first.rows, done - failed, first.now, w.stream[|first.stream|..])
  }

  lemma SelectStarts(w: World, k: int, timeout: nat, due: set<int>, failed: set<int>) returns (w': World)
    requires k !in w.workers && LockFree(w) && Limited(due, Due(w.rows, w.now))
    ensures Runs(w, [Acquire(k), Select(k, timeout, due)], w')
    ensures Underway(w, w', k, Stale(w.rows, w.now, timeout), due, {}, failed)
  {
    var w1 := After(w, Acquire(k));
    w' := After(w1, Select(k, timeout, due));
    SelectedIsUnderway(w, w1, k, timeout, due, failed);
    hide Underway, Limited, Due, FiredOnce, Stale;
    assert CanStep(w, Acquire(k)) && Timely(w, Acquire(k));
    assert CanStep(w1, Select(k, timeout, due)) && Timely(w1, Select(k, timeout, due));
    hide CanStep, Timely, After, Runs;
    RunsFrom(w1, Select(k, timeout, due), [], w');
    RunsFrom(w, Acquire(k), [Select(k, timeout, due)], w');
    assert [Select(k, timeout, due)] + [] == [Select(k, timeout, due)];
    assert [Acquire(k)] + [Select(k, timeout, due)] == [Acquire(k), Select(k, timeout, due)];
  }

  lemma SelectedIsUnderway(w: World, w1: World, k: int, timeout: nat, due: set<int>, failed: set<int>)
    requires w1 == w.(lock := w1.lock, workers := w1.workers) && k in w1.workers && w1.workers[k].Locked?
    requires w1.workers - {k} == w.workers - {k} && Limited(due, Due(w.rows, w.now))
    ensures Underway(w, After(w1, Select(k, timeout, due)), k, Stale(w.rows, w.now, timeout), due, {}, failed)
  {
    var w' := After(w1, Select(k, timeout, due));
    NoneFired(w.rows, w.now);
    assert w'.stream[|w.stream|..] == [] && failed * {} == {} && {} - failed == {} && due - {} == due;
    assert w'.workers - {k} == w1.workers - {k};
    assert forall id :: id in due ==> id in Due(w.rows, w.now);
    hide Limited, FiredOnce, Stale;
  }

  lemma EnqueueGoesOn(first: World, w: World, k: int, stale: set<int>, due: set<int>, done: set<int>, failed: set<int>, id: int)
    returns (w': World)
    requires Underway(first, w, k, stale, due, done, failed) && id in due - done
    ensures CanStep(w, Enqueue(k, id, id !in failed)) && w' == After(w, Enqueue(k, id, id !in failed))
    ensures Underway(first, w', k, stale, due, done + {id}, failed)
  {
    hide FiredOnce, Limited, Due, Stale;
    w' := After(w, Enqueue(k, id, id !in failed));
    var p, p' := w.workers[k], w'.workers[k];
    OneMore(done, failed, id);
    EnqueueFires(first, w.stream, p, done, failed, id);
    assert w'.workers - {k} == w.workers - {k};
    assert p'.todo.Keys == due - (done + {id}) && p'.failed == failed * (done + {id});
  }

  lemma EnqueueFires(first: World, stream: seq<Firing>, p: Phase, done: set<int>, failed: set<int>, id: int)
    requires p.Ticking? && p.at == first.now && id in p.todo && id !in done && id in first.rows
    requires first.rows[id].nextRun == Some(p.todo[id]) && |first.stream| <= |stream| && stream[..|first.stream|] == first.stream
    requires FiredOnce(first.rows, done - failed, first.now, stream[|first.stream|..])
    ensures var stream' := StreamWith(stream, p, id, id !in failed);
      && |first.stream| <= |stream'| && stream'[..|first.stream|] == first.stream
      && FiredOnce(first.rows, done + {id} - failed, first.now, stream'[|first.stream|..])
  {
    OneMore(done, failed, id);
    if id !in failed {
      FiredMore(first.rows, done - failed, first.now, stream, |first.stream|, Firing(id, p.todo[id], first.now));
    }
    hide FiredOnce;
  }

  lemma {:induction false} EnqueueRest(first: World, w: World, k: int, stale: set<int>, due: set<int>, done: set<int>, failed: set<int>)
    returns (steps: seq<Step>, w': World)
    requires Underway(first, w, k, stale, due, done, failed)
    ensures Runs(w, steps, w') && Underway(first, w', k, stale, due, due, failed)
    decreases due - done
  {
    hide Underway, Runs;
    if forall id :: id in due ==> id in done {
      assert due == done by { DoneIsDue(first, w, k, stale, due, done, failed); }
      steps, w' := [], w;
      assert Runs(w, [], w) by { NoSteps(w); }
    } else {
      var id :| id in due && id !in done;
      var w1 := EnqueueGoesOn(first, w, k, stale, due, done, failed, id);
      var rest;
      rest, w' := EnqueueRest(first, w1, k, stale, due, done + {id}, failed);
      RunsFrom(w, Enqueue(k, id, id !in failed), rest, w');
      steps := [Enqueue(k, id, id !in failed)] + rest;
    }
  }

  lemma DoneIsDue(first: World, w: World, k: int, stale: set<int>, due: set<int>, done: set<int>, failed: set<int>)
    requires Underway(first, w, k, stale, due, done, failed)
    ensures done <= due
  {
  }

  lemma NoSteps(w: World)
    ensures Runs(w, [], w)
  {
  }

  /** The commit writes exactly the rows of one tick, with just the failures that were met. */
  lemma CommitEnds(first: World, w: World, k: int, stale: set<int>, due: set<int>, failed: set<int>, next: map<int, int>)
    returns (last: World)
    requires Underway(first, w, k, stale, due, due, failed) && Later(next, stale + due, first.now)
    requires stale + due <= first.rows.Keys
    ensures CanStep(w, Commit(k, next)) && last == After(w, Commit(k, next))
    ensures last.rows == TickedRows(first.rows, first.now, stale, due, failed, next)
    ensures last.stream == w.stream && last.workers == first.workers - {k} && last.lock == None
  {
    assert w.workers[k].todo == map[];
    last := After(w, Commit(k, next));
    UndisturbedCommit(first.rows, first.now, stale, due, failed * due, next);
    SameFailures(first.rows, first.now, stale, due, failed, next);
  }

  lemma SameFailures(rows: Rows, now: int, stale: set<int>, due: set<int>, failed: set<int>, next: map<int, int>)
    requires Later(next, stale + due, now)
    ensures TickedRows(rows, now, stale, due, failed * due, next) == TickedRows(rows, now, stale, due, failed, next)
  {
    var a, b := TickedRows(rows, now, stale, due, failed * due, next), TickedRows(rows, now, stale, due, failed, next);
    forall id | id in rows ensures a[id] == b[id] {
    }
  }

  /**
   Taking the lock, selecting, firing the selected tasks in any order and committing, with nobody in between,
   is one tick: the same rows, each selected task that did not fail fired once, the lock free again.
   */
  lemma PiecesAreTick(w: World, k: int, timeout: nat, due: set<int>, failed: set<int>, next: map<int, int>)
    returns (steps: seq<Step>, last: World)
    requires k !in w.workers && LockFree(w) && Limited(due, Due(w.rows, w.now))
    requires Later(next, Stale(w.rows, w.now, timeout) + due, w.now)
    ensures exists middle :: Runs(w, [Acquire(k), Select(k, timeout, due)], middle) && Runs(middle, steps, last)
    ensures last.rows == TickedRows(w.rows, w.now, Stale(w.rows, w.now, timeout), due, failed, next)
    ensures |w.stream| <= |last.stream| && last.stream[..|w.stream|] == w.stream
    ensures FiredOnce(w.rows, due - failed, w.now, last.stream[|w.stream|..])
    ensures last.workers == w.workers - {k} && last.lock == None
  {
    StaleAreRows(w.rows, w.now, timeout);
    DueAreRows(w.rows, w.now, due);
    var stale := Stale(w.rows, w.now, timeout);
    hide Runs, Limited, Due, Stale, FiredOnce, TickedRows, Underway, After;
    var w1 := SelectStarts(w, k, timeout, due, failed);
    var rest, w2 := EnqueueRest(w, w1, k, stale, due, {}, failed);
    last := CommitEnds(w, w2, k, stale, due, failed, next);
    FiredAll(w, w2, k, stale, due, failed);
    steps := rest + [Commit(k, next)];
    RunsLonger(w1, rest, w2, Commit(k, next));
  }

  lemma FiredAll(first: World, w: World, k: int, stale: set<int>, due: set<int>, failed: set<int>)
    requires Underway(first, w, k, stale, due, due, failed)
    ensures |first.stream| <= |w.stream| && w.stream[..|first.stream|] == first.stream
    ensures FiredOnce(first.rows, due - failed, first.now, w.stream[|first.stream|..])
  {
  }

  lemma {:induction false} RunsLonger(first: World, steps: seq<Step>, last: World, st: Step)
    requires Runs(first, steps, last) && CanStep(last, st) && Timely(last, st)
    ensures Runs(first, steps + [st], After(last, st))
    decreases steps
  {
    hide CanStep, Timely, After;
    if steps == [] {
      assert [] + [st] == [st] && [st][1..] == [];
    } else {
      assert (steps + [st])[1..] == steps[1..] + [st];
      RunsLonger(After(first, steps[0]), steps[1..], last, st);
    }
  }

  /** What an edit's commit does to each column of its row, and to no other row. */
  lemma EditWrites(w: World, e: int, id: int)
    requires CanStep(w, CommitEdit(e)) && id in w.rows
    ensures var d := w.edits[e]; var w' := After(w, CommitEdit(e)); var row := w.rows[id];
      && id in w'.rows && e !in w'.edits && w'.stream == w.stream && w'.workers == w.workers
      && var t := w'.rows[id];
         if id != d.task then t == row
         else
           && t.enabled == (if d.enabled == d.loaded.enabled then row.enabled else d.enabled)
           && t.nextRun == (if d.next == d.loaded.nextRun then row.nextRun else d.next)
           && t.updatedAt == (if d.others || d.enabled != d.loaded.enabled || d.next != d.loaded.nextRun then w.now else row.updatedAt)
           && t == row.(enabled := t.enabled, nextRun := t.nextRun, updatedAt := t.updatedAt)
  {
  }

  // ---- between ticks: exactly the safe edits ----

  /** Any subset of the due tasks of the size the limit allows, with a given one in it. */
  lemma {:induction false} PickDue(all: set<int>, id: int, n: nat) returns (due: set<int>)
    requires id in all && 1 <= n <= |all|
    ensures due <= all && |due| == n && id in due
    decreases n
  {
    if n == 1 {
      due := {id};
    } else {
      due := PickDue(all, id, n - 1);
      if forall x :: x in all ==> x in due {
        SubsetSize(all, due);
        assert false;
      }
      var x :| x in all && x !in due;
      due := due + {x};
    }
  }

  lemma NotIncreasing(stream: seq<Firing>, f: Firing)
    requires !Ahead(stream, f.task, f.occurrence)
    ensures !Increasing(stream + [f])
  {
    var i :| 0 <= i < |stream| && stream[i].task == f.task && stream[i].occurrence >= f.occurrence;
    assert (stream + [f])[i] == stream[i] && (stream + [f])[|stream|] == f;
  }

  /** A worker takes the free lock, selects the task and fires it. */
  function FiredBySomeone(w: World, k: int, due: set<int>, id: int): (r: World)
    requires k !in w.workers && LockFree(w) && Limited(due, Due(w.rows, w.now)) && id in due
    ensures r.stream == w.stream + [Firing(id, w.rows[id].nextRun.value, w.now)]
  {
    After(After(After(w, Acquire(k)), Select(k, 0, due)), Enqueue(k, id, true))
  }

  /** An idle world in which the task's next run is not later than what was fired has a timely run that repeats it. */
  lemma BehindRepeats(w: World, id: int) returns (steps: seq<Step>, last: World)
    requires w.workers == map[] && id in w.rows && w.rows[id].enabled && w.rows[id].nextRun.Some?
    requires !Ahead(w.stream, id, w.rows[id].nextRun.value)
    ensures Runs(w, steps, last) && !Increasing(last.stream)
  {
    hide Increasing, Ahead, Limited;
    var w1 := After(w, Report(id, Other, true));
    var d := Max(0, Max(w.rows[id].nextRun.value - w.now, if w.lock.Some? then w.lock.value - w.now else 0));
    var w2 := After(w1, Pass(d));
    var all := Due(w2.rows, w2.now);
    assert id in all && LockFree(w2);
    SubsetSize({id}, all);
    var due := PickDue(all, id, Min(MAX_ENQUEUE_PER_TICK, |all|));
    assert Limited(due, all) by { IsLimited(due, all); }
    last := FiredBySomeone(w2, 0, due, id);
    NotIncreasing(w.stream, Firing(id, w.rows[id].nextRun.value, w2.now));
    steps := [Report(id, Other, true), Pass(d), Acquire(0), Select(0, 0, due), Enqueue(0, id, true)];
    FiveSteps(w, steps);
  }

  lemma IsLimited(due: set<int>, all: set<int>)
    requires due <= all && |due| == Min(MAX_ENQUEUE_PER_TICK, |all|)
    ensures Limited(due, all)
  {
  }

  lemma RunsFrom(w: World, st: Step, rest: seq<Step>, last: World)
    requires CanStep(w, st) && Timely(w, st)
    ensures Runs(After(w, st), rest, last) ==> Runs(w, [st] + rest, last)
    ensures rest == [] ==> Runs(w, [st] + rest, After(w, st))
  {
    assert ([st] + rest)[1..] == rest;
  }

  lemma FiveSteps(w: World, steps: seq<Step>)
    requires |steps| == 5
    requires CanStep(w, steps[0]) && Timely(w, steps[0])
    requires var w1 := After(w, steps[0]); CanStep(w1, steps[1]) && Timely(w1, steps[1])
    requires var w2 := After(After(w, steps[0]), steps[1]); CanStep(w2, steps[2]) && Timely(w2, steps[2])
    requires var w3 := After(After(After(w, steps[0]), steps[1]), steps[2]); CanStep(w3, steps[3]) && Timely(w3, steps[3])
    requires var w4 := After(After(After(After(w, steps[0]), steps[1]), steps[2]), steps[3]);
      CanStep(w4, steps[4]) && Timely(w4, steps[4])
    ensures Runs(w, steps, After(After(After(After(After(w, steps[0]), steps[1]), steps[2]), steps[3]), steps[4]))
  {
    hide CanStep, Timely, After, Runs;
    var w1 := After(w, steps[0]);
    var w2 := After(w1, steps[1]);
    var w3 := After(w2, steps[2]);
    var w4 := After(w3, steps[3]);
    var last := After(w4, steps[4]);
    RunsFrom(w4, steps[4], steps[5..], last);
    RunsFrom(w3, steps[3], steps[4..], last);
    RunsFrom(w2, steps[2], steps[3..], last);
    RunsFrom(w1, steps[1], steps[2..], last);
    RunsFrom(w, steps[0], steps[1..], last);
    assert [steps[4]] + steps[5..] == steps[4..] && [steps[3]] + steps[4..] == steps[3..];
    assert [steps[2]] + steps[3..] == steps[2..] && [steps[1]] + steps[2..] == steps[1..] && [steps[0]] + steps[1..] == steps;
  }

  /**
   The edit disables the task, or computed the next run it had loaded, or one later than all that was
   fired; or another edit has disabled the task meanwhile and none under way enables it again as it is.
   */
  ghost predicate EditIsSafe(w: World, e: int)
    requires CanStep(w, CommitEdit(e))
  {
    var d := w.edits[e];
    || d.next.None? || d.next == d.loaded.nextRun || Ahead(w.stream, d.task, d.next.value)
    || (d.enabled == d.loaded.enabled && !w.rows[d.task].enabled
        && forall f :: f in w.edits && f != e && w.edits[f].task == d.task ==> !Wakes(w.edits[f]))
  }

  /**
   Exactly which edits are safe between two ticks: after the commit every timely run goes on with strictly
   increasing occurrences if and only if the edit is of one of these kinds.
   */
  lemma EditIsSafeIff(w: World, e: int)
    requires Inv(w) && w.workers == map[] && CanStep(w, CommitEdit(e))
    ensures EditIsSafe(w, e)
            <==> forall steps, last :: Runs(After(w, CommitEdit(e)), steps, last) ==> Increasing(last.stream)
  {
    var w' := After(w, CommitEdit(e));
    if EditIsSafe(w, e) {
      EditKeepsInv(w, e);
      hide Inv, CanStep, EditIsSafe, Increasing, Runs;
      forall steps, last | Runs(w', steps, last) ensures Increasing(last.stream) {
        IncreasesFrom(w', steps, last);
      }
    } else {
      hide Increasing, Runs, Inv, Ahead;
      var steps, last := UnsafeRepeats(w, e);
    }
  }

  lemma IncreasesFrom(first: World, steps: seq<Step>, last: World)
    requires Inv(first) && Runs(first, steps, last)
    ensures Increasing(last.stream)
  {
    RunKeepsInv(first, steps, last);
    hide Increasing, Runs;
  }

  lemma UnsafeRepeats(w: World, e: int) returns (steps: seq<Step>, last: World)
    requires Inv(w) && w.workers == map[] && CanStep(w, CommitEdit(e)) && !EditIsSafe(w, e)
    ensures Runs(After(w, CommitEdit(e)), steps, last) && !Increasing(last.stream)
  {
    hide Ahead, Increasing, Runs;
    var d := w.edits[e];
    var w' := After(w, CommitEdit(e));
    assert w'.rows[d.task].nextRun == d.next;
    if w'.rows[d.task].enabled {
      steps, last := BehindRepeats(w', d.task);
    } else {
      var f :| f in w.edits && f != e && w.edits[f].task == d.task && Wakes(w.edits[f]);
      var w2 := After(w', CommitEdit(f));
      assert w2.rows[d.task].enabled && w2.rows[d.task].nextRun == d.next;
      var rest;
      rest, last := BehindRepeats(w2, d.task);
      RunsFrom(w', CommitEdit(f), rest, last);
      steps := [CommitEdit(f)] + rest;
    }
  }

  // ---- each part of timeliness is needed: reachable runs that fire one occurrence twice ----

  /** Which part of timeliness a run does without, in one step. */
  datatype Fault = LateEdit | Overrun | CrashInTick

  predicate IsFault(f: Fault, st: Step) {
    (f.LateEdit? && st.CommitEdit?) || (f.Overrun? && st.Pass?) || (f.CrashInTick? && st.Crash?)
  }

  /** A run of `n` steps from a world in which nothing has happened, in which just `faults` steps are untimely. */
  ghost predicate Reached(w: World, f: Fault, faults: nat, n: nat)
    decreases n, 0
  {
    if n == 0 then Initial(w) && faults == 0
    else exists v, st :: CanStep(v, st) && w == After(v, st) && GoesOn(v, f, faults, n - 1, st)
  }

  ghost predicate GoesOn(v: World, f: Fault, faults: nat, n: nat, st: Step)
    decreases n, 1
  {
    if Timely(v, st) then Reached(v, f, faults, n)
    else faults > 0 && IsFault(f, st) && Reached(v, f, faults - 1, n)
  }

  lemma ReachOne(v: World, f: Fault, faults: nat, n: nat, st: Step) returns (w: World)
    requires Reached(v, f, faults, n) && CanStep(v, st) && Timely(v, st)
    ensures w == After(v, st) && Reached(w, f, faults, n + 1)
  {
    w := After(v, st);
    assert GoesOn(v, f, faults, n, st);
    hide After, CanStep, Timely;
  }

  lemma FaultOne(v: World, f: Fault, n: nat, st: Step) returns (w: World)
    requires Reached(v, f, 0, n) && CanStep(v, st) && !Timely(v, st) && IsFault(f, st)
    ensures w == After(v, st) && Reached(w, f, 1, n + 1)
  {
    w := After(v, st);
    assert GoesOn(v, f, 1, n, st);
    hide After, CanStep, Timely;
  }

  function OneTask(enabled: bool, next: Option<int>): Task {
    Task(enabled, true, next, Never, 0, None, 0)
  }

  lemma OneDue(rows: Rows, now: int)
    requires rows.Keys == {1} && rows[1].enabled && rows[1].ownerActive && rows[1].nextRun.Some? && rows[1].nextRun.value <= now
    ensures Due(rows, now) == {1} && Limited({1}, Due(rows, now)) && TodoOf(rows, now, {1}) == map[1 := rows[1].nextRun.value]
  {
    assert Due(rows, now) == {1};
  }

  /** A worker takes the lock and selects the one task, which is due. */
  lemma LockAndSelect(v: World, f: Fault, faults: nat, n: nat, k: int, next: int) returns (w: World, stale: set<int>)
    requires Reached(v, f, faults, n) && k !in v.workers && LockFree(v) && next <= v.now
    requires v.rows.Keys == {1} && v.rows[1].enabled && v.rows[1].ownerActive && v.rows[1].nextRun == Some(next)
    ensures Reached(w, f, faults, n + 2)
    ensures stale <= {1}
    ensures w == v.(lock := Some(v.now + LOCK_TTL),
                    workers := v.workers[k := Ticking(v.now + LOCK_TTL, v.now, v.rows, stale, map[1 := next], {}, {})])
  {
    hide Reached;
    OneDue(v.rows, v.now);
    var u := ReachOne(v, f, faults, n, Acquire(k));
    w := ReachOne(u, f, faults, n + 1, Select(k, 0, {1}));
    stale := Stale(v.rows, v.now, 0);
    assert v.workers[k := Locked(v.now + LOCK_TTL)][k := w.workers[k]] == v.workers[k := w.workers[k]];
  }

  /** The selected task is fired, once more if the stream has the occurrence already. */
  lemma Fire(v: World, f: Fault, faults: nat, n: nat, k: int, next: int) returns (w: World)
    requires Reached(v, f, faults, n) && k in v.workers && v.workers[k].Ticking? && v.workers[k].todo == map[1 := next]
    requires v.workers[k].done == {} && v.workers[k].failed == {}
    ensures Reached(w, f, faults, n + 1)
    ensures w == v.(workers := v.workers[k := v.workers[k].(todo := map[], done := {1})],
                    stream := v.stream + [Firing(1, next, v.workers[k].at)])
  {
    hide Reached;
    w := ReachOne(v, f, faults, n, Enqueue(k, 1, true));
    assert map[1 := next] - {1} == map[];
    assert {} + {1} == {1};
  }

  lemma Twice(stream: seq<Firing>, a: int, b: int)
    requires stream == [Firing(1, 10, a), Firing(1, 10, b)]
    ensures !Increasing(stream)
  {
    assert stream[0].task == stream[1].task;
  }

  lemma StartsReached(w: World, f: Fault)
    requires Initial(w)
    ensures Reached(w, f, 0, 0)
  {
  }

  /**
   Two overlapping calls enable a disabled task, and both compute 10 as its next run. One commits, a tick
   fires the occurrence and sets the next one, and the other's commit sets the row back to 10.
   */
  lemma LateEditRepeats() returns (w: World, n: nat)
    ensures Reached(w, LateEdit, 1, n) && !Increasing(w.stream)
  {
    hide Reached;
    var v, m := EnabledOnce();
    var w1, stale1 := LockAndSelect(v, LateEdit, 0, m, 1, 10);
    var w2 := Fire(w1, LateEdit, 0, m + 2, 1, 10);
    var w3 := CommitTick(w2, LateEdit, m + 3, 1);
    assert !Timely(w3, CommitEdit(8)) by {
      assert w3.stream[0] == Firing(1, 10, 10) && w3.edits[8].computedAt == 9;
    }
    var w4 := FaultOne(w3, LateEdit, m + 4, CommitEdit(8));
    assert w4.rows[1].nextRun == Some(10) && w4.rows[1].enabled && w4.rows[1].ownerActive && w4.rows.Keys == {1};
    var w5, stale5 := LockAndSelect(w4, LateEdit, 1, m + 5, 2, 10);
    w := Fire(w5, LateEdit, 1, m + 7, 2, 10);
    n := m + 8;
    Twice(w.stream, 10, 10);
  }

  /** Both calls have loaded the disabled task, and one has committed; then the task is due. */
  lemma EnabledOnce() returns (v: World, n: nat)
    ensures Reached(v, LateEdit, 0, n)
    ensures v.now == 10 && v.lock == None && v.workers == map[] && v.stream == [] && v.rows.Keys == {1}
    ensures v.rows[1].enabled && v.rows[1].ownerActive && v.rows[1].nextRun == Some(10)
    ensures v.edits == map[8 := Edit(1, OneTask(false, None), true, Some(10), false, 9)]
  {
    hide Reached;
    var task := OneTask(false, None);
    var w0 := World(9, None, map[1 := task], map[], map[], []);
    assert Reached(w0, LateEdit, 0, 0) by { StartsReached(w0, LateEdit); }
    var w1 := ReachOne(w0, LateEdit, 0, 0, BeginEdit(7, 1, true, 10, false));
    var w2 := ReachOne(w1, LateEdit, 0, 1, BeginEdit(8, 1, true, 10, false));
    assert w2.edits == map[7 := Edit(1, task, true, Some(10), false, 9), 8 := Edit(1, task, true, Some(10), false, 9)];
    var w3 := ReachOne(w2, LateEdit, 0, 2, CommitEdit(7));
    v := ReachOne(w3, LateEdit, 0, 3, Pass(1));
    n := 4;
  }

  /** The tick's commit, with the next run a minute later. */
  lemma CommitTick(v: World, f: Fault, n: nat, k: int) returns (w: World)
    requires Reached(v, f, 0, n) && v.workers.Keys == {k} && v.workers[k].Ticking? && v.workers[k].todo == map[]
    requires v.workers[k].stale <= {1} && v.workers[k].done == {1}
    requires v.rows.Keys == {1} && v.rows[1].ownerActive && v.rows[1].enabled
    ensures Reached(w, f, 0, n + 1)
    ensures w.now == v.now && w.lock == None && w.workers == map[] && w.edits == v.edits && w.stream == v.stream
    ensures w.rows.Keys == {1} && w.rows[1].ownerActive
  {
    hide Reached;
    var next := map[1 := v.workers[k].at + 60];
    w := ReachOne(v, f, 0, n, Commit(k, next));
    assert v.workers - {k} == map[];
  }

  /** A tick that outlives its lock fires the occurrence another worker has fired meanwhile. */
  lemma OverrunRepeats() returns (w: World, n: nat)
    ensures Reached(w, Overrun, 1, n) && !Increasing(w.stream)
  {
    hide Reached;
    var w0 := World(10, None, map[1 := OneTask(true, Some(10))], map[], map[], []);
    assert Reached(w0, Overrun, 0, 0) by { StartsReached(w0, Overrun); }
    var w1, stale1 := LockAndSelect(w0, Overrun, 0, 0, 1, 10);
    var w2 := FaultOne(w1, Overrun, 2, Pass(LOCK_TTL));
    var w3, stale3 := LockAndSelect(w2, Overrun, 1, 3, 2, 10);
    var w4 := Fire(w3, Overrun, 1, 5, 2, 10);
    w := Fire(w4, Overrun, 1, 6, 1, 10);
    n := 7;
    Twice(w.stream, 75, 10);
  }

  /** A worker that crashes between firing and its commit leaves the occurrence to be fired again. */
  lemma CrashRepeats() returns (w: World, n: nat)
    ensures Reached(w, CrashInTick, 1, n) && !Increasing(w.stream)
  {
    hide Reached;
    var w0 := World(10, None, map[1 := OneTask(true, Some(10))], map[], map[], []);
    assert Reached(w0, CrashInTick, 0, 0) by { StartsReached(w0, CrashInTick); }
    var w1, stale1 := LockAndSelect(w0, CrashInTick, 0, 0, 1, 10);
    var w2 := Fire(w1, CrashInTick, 0, 2, 1, 10);
    var w3 := FaultOne(w2, CrashInTick, 3, Crash(1));
    assert w3.workers == map[];
    var w4 := ReachOne(w3, CrashInTick, 1, 4, Pass(LOCK_TTL));
    var w5, stale5 := LockAndSelect(w4, CrashInTick, 1, 5, 2, 10);
    w := Fire(w5, CrashInTick, 1, 7, 2, 10);
    n := 8;
    Twice(w.stream, 10, 75);
  }
}
