/**
 The runner's in-process table of per-conversation turn locks: an ordered dictionary, kept in
 order of last use, whose oldest unlocked entries are dropped once it outgrows a cap.

 The table operations are specified on values, for any kind of lock reference, so that the
 imperative table below and the runner protocol share one definition.
 */
module LockTable {
  import opened Prelude

  const CONV_LOCK_MAX: nat := 1024

  /** Oldest entry first, as `OrderedDict` iterates. */
  type Table<L> = seq<(string, L)>

  ghost predicate Distinct<L>(t: Table<L>) {
    forall i, j | 0 <= i < j < |t| :: t[i].0 != t[j].0
  }

  function Find<L>(t: Table<L>, conv: string): (r: Option<nat>)
    ensures r.Some? ==> r.value < |t| && t[r.value].0 == conv
    ensures r.None? <==> forall i | 0 <= i < |t| :: t[i].0 != conv
  {
    if |t| == 0 then None
    else if t[0].0 == conv then Some(0)
    else match Find(t[1..], conv)
      case None => assert forall i | 1 <= i < |t| :: t[i] == t[1..][i - 1]; None
      case Some(i) => Some(i + 1)
  }

  ghost predicate Maps<L>(t: Table<L>, conv: string, lock: L) {
    (conv, lock) in t
  }

  /** Move an existing entry to the young end, or append a new one. */
  function Touched<L>(t: Table<L>, conv: string, made: L): (r: Table<L>)
    ensures |r| > 0 && r[|r| - 1].0 == conv
  {
    match Find(t, conv)
    case None => t + [(conv, made)]
    case Some(i) => t[..i] + t[i + 1..] + [t[i]]
  }

  /** Drop oldest entries while the table is over the cap and its oldest lock is not locked. */
  function Evicted<L(==)>(t: Table<L>, locked: set<L>, cap: nat): (r: Table<L>)
    ensures |r| <= |t| && r == t[|t| - |r|..]
  {
    if |t| > cap && t[0].1 !in locked then Evicted(t[1..], locked, cap) else t
  }

  function AfterLookup<L(==)>(t: Table<L>, conv: string, made: L, locked: set<L>, cap: nat): Table<L> {
    Evicted(Touched(t, conv, made), locked, cap)
  }

  function LockFor<L>(t: Table<L>, conv: string, made: L): L {
    match Find(t, conv)
    case None => made
    case Some(i) => t[i].1
  }

  lemma TouchedKeepsEntries<L>(t: Table<L>, conv: string, made: L)
    requires Distinct(t)
    ensures Distinct(Touched(t, conv, made))
    ensures forall e :: e in t ==> e in Touched(t, conv, made)
    ensures forall e :: e in Touched(t, conv, made) ==> e in t || e == (conv, made)
    ensures Touched(t, conv, made)[|Touched(t, conv, made)| - 1] == (conv, LockFor(t, conv, made))
  {
    match Find(t, conv) {
      case None =>
      case Some(i) =>
        var r := Touched(t, conv, made);
        assert forall k | 0 <= k < |r| :: r[k] == if k < i then t[k] else if k < |t| - 1 then t[k + 1] else t[i];
        forall e | e in t ensures e in r {
          var k :| 0 <= k < |t| && t[k] == e;
          assert r[if k < i then k else if k == i then |r| - 1 else k - 1] == e;
        }
    }
  }

  lemma {:induction false} EvictedSpec<L>(t: Table<L>, locked: set<L>, cap: nat)
    requires Distinct(t)
    ensures var r := Evicted(t, locked, cap);
      && Distinct(r)
      && (|r| <= cap || r[0].1 in locked)
      && (forall i | 0 <= i < |t| - |r| :: t[i].1 !in locked)
      && (cap > 0 && |t| > 0 ==> |r| > 0)
  {
    if |t| > cap && t[0].1 !in locked {
      EvictedSpec(t[1..], locked, cap);
      var r := Evicted(t[1..], locked, cap);
      forall i | 0 <= i < |t| - |r| ensures t[i].1 !in locked {
        if i > 0 { assert t[i] == t[1..][i - 1]; }
      }
    }
  }

  /**
   What one lookup promises, for every table, cap and set of locked locks: the lock returned is
   the table's entry for the conversation; an entry whose lock is locked survives, so a later
   lookup gives the same lock; nothing is invented; and the table respects the cap unless its
   oldest entry is locked.
   */
  lemma LookupSpec<L>(t: Table<L>, conv: string, made: L, locked: set<L>, cap: nat)
    requires Distinct(t) && cap > 0
    ensures var r := AfterLookup(t, conv, made, locked, cap);
      && Distinct(r)
      && Maps(r, conv, LockFor(t, conv, made))
      && (forall c, l :: Maps(t, c, l) && l in locked ==> Maps(r, c, l) && LockFor(r, c, made) == l)
      && (forall c, l :: Maps(r, c, l) ==> Maps(t, c, l) || (c, l) == (conv, made))
      && (|r| <= cap || r[0].1 in locked)
  {
    hide Touched, Evicted, LockFor;
    TouchedKeepsEntries(t, conv, made);
    var m := Touched(t, conv, made);
    EvictedSpec(m, locked, cap);
    var r := Evicted(m, locked, cap);
    assert r[|r| - 1] == m[|m| - 1];
    forall c, l | Maps(t, c, l) && l in locked ensures Maps(r, c, l) && LockFor(r, c, made) == l {
      var k :| 0 <= k < |m| && m[k] == (c, l);
      assert r[k - (|m| - |r|)] == m[k];
      LockForIsEntry(r, c, l, made);
    }
  }

  lemma LockForIsEntry<L>(t: Table<L>, conv: string, lock: L, made: L)
    requires Distinct(t) && Maps(t, conv, lock)
    ensures LockFor(t, conv, made) == lock
  {
    var k :| 0 <= k < |t| && t[k] == (conv, lock);
    assert Find(t, conv).Some?;
  }

  /** The loop reaches entry `i`: the table is over the cap there and nothing up to `i` is locked. */
  ghost predicate Reached<L>(m: Table<L>, locked: set<L>, cap: nat, i: nat)
    requires i < |m|
  {
    i < |m| - cap && forall j | 0 <= j <= i :: m[j].1 !in locked
  }

  lemma {:induction false} DroppedIffReached<L>(m: Table<L>, locked: set<L>, cap: nat, i: nat)
    requires i < |m|
    ensures i < |m| - |Evicted(m, locked, cap)| <==> Reached(m, locked, cap, i)
  {
    if |m| > cap && m[0].1 !in locked && i > 0 {
      DroppedIffReached(m[1..], locked, cap, i - 1);
      assert forall j | 0 < j <= i :: m[j] == m[1..][j - 1];
      assert Reached(m[1..], locked, cap, i - 1) <==> Reached(m, locked, cap, i);
    }
  }

  lemma DroppedEntryIsGone<L>(m: Table<L>, r: Table<L>, i: nat)
    requires Distinct(m) && |r| <= |m| && r == m[|m| - |r|..] && i < |m|
    ensures m[i] in r <==> i >= |m| - |r|
  {
    assert forall k | 0 <= k < |r| :: r[k] == m[k + (|m| - |r|)];
    if i >= |m| - |r| {
      assert r[i - (|m| - |r|)] == m[i];
    }
  }

  /**
   A lock is *in use* when it is locked or has waiters. Between a release and the moment the woken
   waiter runs, a lock is in use but not locked, and the eviction loop looks at `locked()` only.
   A lookup keeps every in-use entry exactly when the loop reaches no in-use entry.
   */
  lemma InUseSurvivesIff<L>(m: Table<L>, locked: set<L>, inUse: set<L>, cap: nat)
    requires Distinct(m)
    ensures (forall i | 0 <= i < |m| && m[i].1 in inUse :: m[i] in Evicted(m, locked, cap))
            <==> (forall i | 0 <= i < |m| && Reached(m, locked, cap, i) :: m[i].1 !in inUse)
  {
    var r := Evicted(m, locked, cap);
    forall i | 0 <= i < |m| ensures m[i] in r <==> !Reached(m, locked, cap, i) {
      DroppedIffReached(m, locked, cap, i);
      DroppedEntryIsGone(m, r, i);
    }
  }

  /** A table one over the cap loses its oldest entry unless that is locked. */
  lemma OneDropped<L>(m: Table<L>, locked: set<L>, cap: nat)
    requires |m| == cap + 1 && m[0].1 !in locked
    ensures Evicted(m, locked, cap) == m[1..]
  {
  }
}

/** The imperative table: `Runner._conv_locks` and `Runner._get_conv_lock`. */
module ConvLocks {
  import opened Prelude
  import opened LockTable

  /** `asyncio.Lock`, as far as the table looks at it. */
  class TurnLock {
    var locked: bool
    constructor ()
      ensures !locked
    {
      locked := false;
    }
  }

  class ConvLockTable {
    var entries: Table<TurnLock>

    ghost predicate Valid()
      reads this
    {
      Distinct(entries)
    }

    ghost function Locked(): (r: set<TurnLock>)
      reads this, set e | e in entries :: e.1
      ensures forall e | e in entries :: e.1 in r <==> e.1.locked
    {
      set e | e in entries && e.1.locked :: e.1
    }

    constructor ()
      ensures Valid() && entries == []
    {
      entries := [];
    }

    method GetConvLock(conv: string) returns (lock: TurnLock)
      requires Valid()
      modifies this
      ensures Valid()
      ensures Find(old(entries), conv).None? ==> fresh(lock) && !lock.locked
      ensures lock == LockFor(old(entries), conv, lock)
      ensures entries == AfterLookup(old(entries), conv, lock, old(Locked()), CONV_LOCK_MAX)
      ensures Maps(entries, conv, lock)
      ensures |entries| <= CONV_LOCK_MAX || entries[0].1.locked
    {
      ghost var before := entries;
      ghost var locked := Locked();
      var at := Find(entries, conv);
      if at.None? {
        lock := new TurnLock();
        entries := entries + [(conv, lock)];
      } else {
        lock := entries[at.value].1;
        entries := entries[..at.value] + entries[at.value + 1..] + [entries[at.value]];
      }
      assert entries == Touched(before, conv, lock);
      forall k | 0 <= k < |entries| ensures entries[k].1.locked <==> entries[k].1 in locked {
        TouchedKeepsEntries(before, conv, lock);
        assert entries[k] in before || entries[k] == (conv, lock);
      }
      EvictIdle(locked);
      LookupSpec(before, conv, lock, locked, CONV_LOCK_MAX);
    }

    /** The eviction loop of a lookup. */
    method EvictIdle(ghost locked: set<TurnLock>)
      requires forall k | 0 <= k < |entries| :: entries[k].1.locked <==> entries[k].1 in locked
      modifies this
      ensures entries == Evicted(old(entries), locked, CONV_LOCK_MAX)
      ensures |entries| <= CONV_LOCK_MAX || entries[0].1.locked
    {
      ghost var touched := entries;
      ghost var gone: nat := 0;
      while |entries| > CONV_LOCK_MAX
        invariant gone <= |touched| && entries == touched[gone..]
        invariant Evicted(entries, locked, CONV_LOCK_MAX) == Evicted(touched, locked, CONV_LOCK_MAX)
        decreases |entries|
      {
        assert entries[0] == touched[gone];
        if entries[0].1.locked {
          break;
        }
        entries := entries[1..];
        gone := gone + 1;
      }
    }
  }
}
