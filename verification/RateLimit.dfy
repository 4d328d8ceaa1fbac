/** Fixed-window counters: message sends, and login attempts per address and per account. */
module RateLimit {
  import opened Prelude
  import opened RedisModel
  import Text

  const SEND_WINDOW: nat := 60

  datatype Limits = Limits(globalPerMin: nat, loginIp: nat, loginUser: nat, loginWindow: nat)

  function Lower(s: string): string {
    if s == "" then "" else [if 'A' <= s[0] <= 'Z' then (s[0] as int + 32) as char else s[0]] + Lower(s[1..])
  }

  function AccountKey(username: string): (k: Key)
    ensures k.LoginUserCount?
  {
    LoginUserCount(Lower(Text.Strip(username)))
  }

  // ---- one call ----

  datatype Call =
    | Send(user: string, limit: nat)         // the limit in force when the call reads it
    | Login(ip: string, username: string)    // an empty address or name stands for a missing one
    | ClearLogin(ip: string, username: string)

  /** The counters a call increments, in order; the second only if the first allows. */
  function FirstHit(l: Limits, c: Call): Option<(Key, nat)> {
    match c
    case Send(user, limit) => Some((SendCount(user), limit))
    case Login(ip, username) =>
      if ip != "" then Some((LoginIpCount(ip), l.loginIp))
      else if username != "" then Some((AccountKey(username), l.loginUser))
      else None
    case ClearLogin(_, _) => None
  }

  function SecondHit(l: Limits, c: Call): Option<(Key, nat)> {
    match c
    case Send(_, _) => Some((GlobalSendCount, l.globalPerMin))
    case Login(ip, username) => if ip != "" && username != "" then Some((AccountKey(username), l.loginUser)) else None
    case ClearLogin(_, _) => None
  }

  function Window(l: Limits, k: Key): nat {
    if k.LoginIpCount? || k.LoginUserCount? then l.loginWindow else SEND_WINDOW
  }

  /** `hit`: is the counter, after the increment, within the limit? */
  function HitAllowed(l: Limits, db: Db, now: nat, h: (Key, nat)): bool {
    Bumped(View(db, h.0), now, Window(l, h.0)).value <= h.1
  }

  function HitDb(l: Limits, db: Db, now: nat, h: (Key, nat)): Db {
    IncrExpire(db, now, h.0, Window(l, h.0))
  }

  /** The store after a call, and whether the call was let through. */
  function Apply(l: Limits, db: Db, now: nat, c: Call): (Db, bool) {
    match c
    case ClearLogin(_, username) => (if username != "" then db - {AccountKey(username)} else db, true)
    case _ =>
      match FirstHit(l, c)
      case None => (db, true)
      case Some(h1) =>
        var db1 := HitDb(l, db, now, h1);
        if !HitAllowed(l, db, now, h1) then (db1, false)
        else match SecondHit(l, c)
             case None => (db1, true)
             case Some(h2) => (HitDb(l, db1, now, h2), HitAllowed(l, db1, now, h2))
  }

  // ---- what one call answers, read off the counters ----

  /** How often a live counter was hit. */
  function Used(db: Db, now: nat, k: Key): int {
    if Exists(db, now, k) then db[k].value else 0
  }

  /** A send is let through exactly while the user and the platform are below their caps. */
  lemma SendAllowedIff(l: Limits, db: Db, now: nat, user: string, limit: nat)
    ensures Apply(l, db, now, Send(user, limit)).1
            <==> Used(db, now, SendCount(user)) < limit && Used(db, now, GlobalSendCount) < l.globalPerMin
  {
  }

  /** It counts for the user in any case, and for the platform exactly if the user is below the cap. */
  lemma SendCounts(l: Limits, db: Db, now: nat, user: string, limit: nat, k: Key)
    ensures View(Apply(l, db, now, Send(user, limit)).0, k)
            == if k == SendCount(user) || (k == GlobalSendCount && Used(db, now, SendCount(user)) < limit)
               then Some(Bumped(View(db, k), now, 60)) else View(db, k)
  {
  }

  /** A login attempt is let through exactly while the address and the account, where given, are below theirs. */
  lemma LoginAllowedIff(l: Limits, db: Db, now: nat, ip: string, username: string)
    ensures Apply(l, db, now, Login(ip, username)).1
            <==> && (ip != "" ==> Used(db, now, LoginIpCount(ip)) < l.loginIp)
                 && (username != "" ==> Used(db, now, AccountKey(username)) < l.loginUser)
  {
    hide AccountKey;
  }

  /** It counts for the address in any case, and for the account exactly if the address is below its limit. */
  lemma LoginCounts(l: Limits, db: Db, now: nat, ip: string, username: string, k: Key)
    ensures View(Apply(l, db, now, Login(ip, username)).0, k)
            == if (ip != "" && k == LoginIpCount(ip))
                  || (username != "" && k == AccountKey(username)
                      && (ip != "" ==> Used(db, now, LoginIpCount(ip)) < l.loginIp))
               then Some(Bumped(View(db, k), now, l.loginWindow)) else View(db, k)
  {
    hide AccountKey;
  }

  predicate SameLetter(a: char, b: char) {
    || a == b
    || ('a' <= a <= 'z' && a as int == b as int + 32)
    || ('a' <= b <= 'z' && b as int == a as int + 32)
  }

  /** Two names share an account counter exactly if, without the blanks around them, they differ in letter case only. */
  lemma SameAccountIff(a: string, b: string)
    ensures AccountKey(a) == AccountKey(b)
            <==> var s, t := Text.Strip(a), Text.Strip(b); |s| == |t| && forall i | 0 <= i < |s| :: SameLetter(s[i], t[i])
  {
    LowerAt(Text.Strip(a));
    LowerAt(Text.Strip(b));
    hide Lower, Text.Strip;
    var s, t := Text.Strip(a), Text.Strip(b);
    if Lower(s) == Lower(t) {
      forall i | 0 <= i < |s| ensures SameLetter(s[i], t[i]) {
        assert Lower(s)[i] == Lower(t)[i];
      }
    }
    if |s| == |t| && forall i | 0 <= i < |s| :: SameLetter(s[i], t[i]) {
      assert Lower(s) == Lower(t);
    }
  }

  lemma {:induction false} LowerAt(s: string)
    ensures |Lower(s)| == |s|
    ensures forall i | 0 <= i < |s| :: Lower(s)[i] == if 'A' <= s[i] <= 'Z' then (s[i] as int + 32) as char else s[i]
  {
    if s != "" {
      LowerAt(s[1..]);
    }
  }

  // ---- many calls at once ----

  /**
   What happens between two awaits of a call: its first hit (or the whole of a clear), and its second
   hit. Any order of the events of any number of calls is an interleaving.
   */
  datatype Event = First(id: nat, call: Call) | Second(id: nat)

  /** The store, and the calls whose first hit was allowed and whose second is to come. */
  datatype Guard = Guard(db: Db, pending: map<nat, Call>)

  predicate Clears(c: Call, k: Key) {
    c.ClearLogin? && c.username != "" && k == AccountKey(c.username)
  }

  /** The counter an event hits, and the limit it is held to. */
  function HitOf(l: Limits, g: Guard, e: Event): Option<(Key, nat)> {
    match e
    case First(_, call) => FirstHit(l, call)
    case Second(id) => if id in g.pending then SecondHit(l, g.pending[id]) else None
  }

  /** The event increments counter `k` and is within its limit there. */
  predicate GrantedOn(l: Limits, g: Guard, now: nat, e: Event, k: Key) {
    var h := HitOf(l, g, e);
    h.Some? && h.value.0 == k && HitAllowed(l, g.db, now, h.value)
  }

  function AfterEvent(l: Limits, g: Guard, now: nat, e: Event): Guard {
    var db := if HitOf(l, g, e).Some? then HitDb(l, g.db, now, HitOf(l, g, e).value) else g.db;
    match e
    case First(id, ClearLogin(_, username)) => g.(db := if username != "" then g.db - {AccountKey(username)} else g.db)
    case First(id, call) =>
      var h := FirstHit(l, call);
      Guard(db, if h.Some? && HitAllowed(l, g.db, now, h.value) && SecondHit(l, call).Some?
                then g.pending[id := call] else g.pending)
    case Second(id) => Guard(db, g.pending - {id})
  }

  /** A call that is not interleaved with another is its one or two events. */
  lemma CallIsItsEvents(l: Limits, db: Db, now: nat, c: Call)
    ensures var g0 := Guard(db, map[]);
      var g1 := AfterEvent(l, g0, now, First(0, c));
      var g2 := AfterEvent(l, g1, now, Second(0));
      if SecondHit(l, c).Some? && GrantedOn(l, g0, now, First(0, c), FirstHit(l, c).value.0)
      then Apply(l, db, now, c) == (g2.db, GrantedOn(l, g1, now, Second(0), SecondHit(l, c).value.0))
      else Apply(l, db, now, c)
           == (g1.db, FirstHit(l, c).None? || GrantedOn(l, g0, now, First(0, c), FirstHit(l, c).value.0))
  {
    hide HitDb, AccountKey;
    assert 0 in map[0 := c];
  }

  /** An event moves the entry of a counter by at most one run of the script, unless it clears it. */
  lemma EventOnKey(l: Limits, g: Guard, now: nat, e: Event, k: Key)
    requires !(e.First? && Clears(e.call, k))
    ensures View(AfterEvent(l, g, now, e).db, k)
            == if HitOf(l, g, e).Some? && HitOf(l, g, e).value.0 == k then Some(Bumped(View(g.db, k), now, Window(l, k)))
               else View(g.db, k)
  {
  }

  datatype Timed = Timed(at: nat, event: Event)

  ghost predicate Ordered(events: seq<Timed>, from: nat) {
    && (forall i | 0 <= i < |events| :: from <= events[i].at)
    && (forall i, j | 0 <= i < j < |events| :: events[i].at <= events[j].at)
  }

  /** How many events of the run are granted on counter `k` at a time within [start, start + span]. */
  function Grants(l: Limits, g: Guard, events: seq<Timed>, k: Key, start: nat, span: nat): nat
    decreases events
  {
    if events == [] then 0
    else
      var t := events[0];
      (if GrantedOn(l, g, t.at, t.event, k) && start <= t.at <= start + span then 1 else 0)
      + Grants(l, AfterEvent(l, g, t.at, t.event), events[1..], k, start, span)
  }

  /** No call of the run clears `k`, or hits it under a limit above `cap`. */
  ghost predicate Capped(l: Limits, events: seq<Timed>, k: Key, cap: nat) {
    && (k == GlobalSendCount ==> l.globalPerMin <= cap)
    && (k.LoginUserCount? ==> l.loginUser <= cap)
    && forall i | 0 <= i < |events| && events[i].event.First? ::
        !Clears(events[i].event.call, k) && WithinCap(FirstHit(l, events[i].event.call), k, cap)
  }

  predicate WithinCap(h: Option<(Key, nat)>, k: Key, cap: nat) {
    h.Some? && h.value.0 == k ==> h.value.1 <= cap
  }

  /** A counter as the script leaves it: at least 1, and expiring within one window. */
  ghost predicate CounterOk(e: Option<Entry>, now: nat, seconds: nat) {
    e.Some? ==> e.value.value >= 1 && e.value.expiresAt <= now + 1000 * seconds
  }

  /**
   A bound on the grants still to come in [start, start + span], where span is the window in
   milliseconds: what the running counter leaves, and one more window or two.
   */
  function Potential(e: Option<Entry>, now: nat, start: nat, span: nat, cap: nat): nat {
    if now > start + span then 0
    else match e
      case Some(c) =>
        if Alive(c, now) then
          if c.expiresAt > start + span then Max(0, cap - c.value)
          else if c.expiresAt > start then Max(0, cap - c.value) + cap
          else 2 * cap
        else if now > start then cap else 2 * cap
      case None => if now > start then cap else 2 * cap
  }

  lemma PotentialDecreasesWithTime(e: Option<Entry>, now: nat, later: nat, start: nat, span: nat, cap: nat)
    requires now <= later
    ensures Potential(e, later, start, span, cap) <= Potential(e, now, start, span, cap)
  {
  }

  lemma PotentialPaysForGrant(e: Option<Entry>, now: nat, start: nat, seconds: nat, limit: nat, cap: nat)
    requires limit <= cap && seconds > 0 && CounterOk(e, now, seconds)
    ensures var span := 1000 * seconds;
      var e' := Bumped(e, now, seconds);
      Potential(Some(e'), now, start, span, cap)
        + (if e'.value <= limit && start <= now <= start + span then 1 else 0)
      <= Potential(e, now, start, span, cap)
  {
  }

  lemma {:induction false} GrantsWithinPotential(l: Limits, g: Guard, events: seq<Timed>, k: Key, from: nat, start: nat, cap: nat)
    requires Ordered(events, from) && Capped(l, events, k, cap)
    requires CounterOk(View(g.db, k), from, Window(l, k)) && Window(l, k) > 0
    ensures Grants(l, g, events, k, start, 1000 * Window(l, k))
            <= Potential(View(g.db, k), from, start, 1000 * Window(l, k), cap)
    decreases events
  {
    if events != [] {
      var t := events[0];
      var w := Window(l, k);
      PotentialDecreasesWithTime(View(g.db, k), from, t.at, start, 1000 * w, cap);
      EventOnKey(l, g, t.at, t.event, k);
      var h := HitOf(l, g, t.event);
      if h.Some? && h.value.0 == k {
        PotentialPaysForGrant(View(g.db, k), t.at, start, w, h.value.1, cap);
      }
      assert forall i | 0 <= i < |events[1..]| :: events[1..][i] == events[i + 1];
      hide AfterEvent, HitOf, Bumped;
      GrantsWithinPotential(l, AfterEvent(l, g, t.at, t.event), events[1..], k, t.at, start, cap);
    }
  }

  /**
   Any counter whose limits stay at or below `cap` and which is never cleared grants at most
   2 * cap hits in any interval of the window's length, whatever else happens in the run.
   */
  lemma WindowBound(l: Limits, g: Guard, events: seq<Timed>, k: Key, from: nat, start: nat, cap: nat)
    requires Ordered(events, from) && Capped(l, events, k, cap)
    requires CounterOk(View(g.db, k), from, Window(l, k)) && Window(l, k) > 0
    ensures Grants(l, g, events, k, start, 1000 * Window(l, k)) <= 2 * cap
  {
    GrantsWithinPotential(l, g, events, k, from, start, cap);
  }

  /** During the life of one key at most `cap` hits are granted, counting those already made. */
  lemma {:induction false} LifetimeBound(l: Limits, g: Guard, events: seq<Timed>, k: Key, from: nat, cap: nat)
    requires Ordered(events, from) && Capped(l, events, k, cap)
    requires k in g.db && g.db[k].value >= 0 && forall i | 0 <= i < |events| :: events[i].at < g.db[k].expiresAt
    ensures Grants(l, g, events, k, 0, g.db[k].expiresAt) <= Max(0, cap - g.db[k].value)
    decreases events
  {
    if events != [] {
      var t := events[0];
      EventOnKey(l, g, t.at, t.event, k);
      assert forall i | 0 <= i < |events[1..]| :: events[1..][i] == events[i + 1];
      var g' := AfterEvent(l, g, t.at, t.event);
      assert k in g'.db by { assert View(g'.db, k).Some?; }
      hide AfterEvent;
      LifetimeBound(l, g', events[1..], k, t.at, cap);
    }
  }

  /** A send is let through by its second hit. */
  predicate LetThrough(l: Limits, g: Guard, now: nat, e: Event) {
    e.Second? && e.id in g.pending && g.pending[e.id].Send? && GrantedOn(l, g, now, e, GlobalSendCount)
  }

  /** How many sends are let through within [start, start + span]. */
  function SendsAllowed(l: Limits, g: Guard, events: seq<Timed>, start: nat, span: nat): nat
    decreases events
  {
    if events == [] then 0
    else
      var t := events[0];
      (if LetThrough(l, g, t.at, t.event) && start <= t.at <= start + span then 1 else 0)
      + SendsAllowed(l, AfterEvent(l, g, t.at, t.event), events[1..], start, span)
  }

  lemma {:induction false} SendsAreGlobalGrants(l: Limits, g: Guard, events: seq<Timed>, start: nat, span: nat)
    ensures SendsAllowed(l, g, events, start, span) <= Grants(l, g, events, GlobalSendCount, start, span)
    decreases events
  {
    hide AfterEvent, GrantedOn;
    if events != [] {
      var t := events[0];
      SendsAreGlobalGrants(l, AfterEvent(l, g, t.at, t.event), events[1..], start, span);
    }
  }

  /**
   All users together send at most twice the global cap in any 60-second interval, whatever their
   own limits are and however the hits of their calls, of logins and of clears are interleaved.
   */
  lemma GlobalSendBound(l: Limits, g: Guard, events: seq<Timed>, from: nat, start: nat)
    requires Ordered(events, from) && CounterOk(View(g.db, GlobalSendCount), from, SEND_WINDOW)
    ensures SendsAllowed(l, g, events, start, 60_000) <= 2 * l.globalPerMin
  {
    SendsAreGlobalGrants(l, g, events, start, 60_000);
    WindowBound(l, g, events, GlobalSendCount, from, start, l.globalPerMin);
  }

  /** Attempts from one address that get past the address guard within [start, start + span]. */
  function PastIpGuard(l: Limits, g: Guard, events: seq<Timed>, ip: string, start: nat, span: nat): nat
    decreases events
  {
    if events == [] then 0
    else
      var t := events[0];
      (if Attempt(t.event, ip) && GrantedOn(l, g, t.at, t.event, LoginIpCount(ip)) && start <= t.at <= start + span
       then 1 else 0)
      + PastIpGuard(l, AfterEvent(l, g, t.at, t.event), events[1..], ip, start, span)
  }

  predicate Attempt(e: Event, ip: string) {
    e.First? && e.call.Login? && e.call.ip == ip
  }

  lemma {:induction false} PastIpGuardIsGrants(l: Limits, g: Guard, events: seq<Timed>, ip: string, start: nat, span: nat)
    ensures PastIpGuard(l, g, events, ip, start, span) <= Grants(l, g, events, LoginIpCount(ip), start, span)
    decreases events
  {
    hide AfterEvent, GrantedOn;
    if events != [] {
      var t := events[0];
      PastIpGuardIsGrants(l, AfterEvent(l, g, t.at, t.event), events[1..], ip, start, span);
    }
  }

  /** One address gets past its guard at most twice its limit per window, clears or not. */
  lemma LoginIpBound(l: Limits, g: Guard, events: seq<Timed>, ip: string, from: nat, start: nat)
    requires Ordered(events, from) && l.loginWindow > 0
    requires CounterOk(View(g.db, LoginIpCount(ip)), from, l.loginWindow)
    ensures PastIpGuard(l, g, events, ip, start, 1000 * l.loginWindow) <= 2 * l.loginIp
  {
    PastIpGuardIsGrants(l, g, events, ip, start, 1000 * l.loginWindow);
    WindowBound(l, g, events, LoginIpCount(ip), from, start, l.loginIp);
  }

  function WithoutClears(events: seq<Timed>): seq<Timed> {
    if events == [] then []
    else
      var e := events[0].event;
      (if e.First? && e.call.ClearLogin? then [] else [events[0]]) + WithoutClears(events[1..])
  }

  /** No sequence of `clear_login` calls changes what one address gets: without them it gets the same. */
  lemma ClearsChangeNothing(l: Limits, g: Guard, events: seq<Timed>, ip: string, start: nat, span: nat)
    ensures PastIpGuard(l, g, events, ip, start, span) == PastIpGuard(l, g, WithoutClears(events), ip, start, span)
  {
    SameForIp(l, g, g, events, ip, start, span);
  }

  lemma {:induction false} SameForIp(l: Limits, g: Guard, u: Guard, events: seq<Timed>, ip: string, start: nat, span: nat)
    requires View(g.db, LoginIpCount(ip)) == View(u.db, LoginIpCount(ip))
    ensures PastIpGuard(l, g, events, ip, start, span) == PastIpGuard(l, u, WithoutClears(events), ip, start, span)
    decreases events
  {
    if events != [] {
      var t := events[0];
      var k := LoginIpCount(ip);
      EventOnKey(l, g, t.at, t.event, k);
      EventOnKey(l, u, t.at, t.event, k);
      assert GrantedOn(l, g, t.at, t.event, k) == GrantedOn(l, u, t.at, t.event, k);
      var g' := AfterEvent(l, g, t.at, t.event);
      hide AfterEvent, GrantedOn, Bumped;
      if t.event.First? && t.event.call.ClearLogin? {
        SameForIp(l, g', u, events[1..], ip, start, span);
        assert [] + WithoutClears(events[1..]) == WithoutClears(events[1..]);
      } else {
        SameForIp(l, g', AfterEvent(l, u, t.at, t.event), events[1..], ip, start, span);
        assert ([t] + WithoutClears(events[1..]))[1..] == WithoutClears(events[1..]);
      }
    }
  }

  /** A window of 0 seconds guards nothing: each entry is gone at once, and every attempt is the first. */
  lemma ZeroWindowAdmitsAll(l: Limits, db: Db, now: nat, ip: string)
    requires l.loginWindow == 0 && l.loginIp >= 1 && CounterOk(View(db, LoginIpCount(ip)), now, 0)
    ensures var h := (LoginIpCount(ip), l.loginIp);
      HitAllowed(l, db, now, h) && CounterOk(View(HitDb(l, db, now, h), LoginIpCount(ip)), now, 0)
  {
  }

  /** A clear leaves every counter but the account counter as it is. */
  lemma ClearLeavesIpCounter(l: Limits, db: Db, now: nat, ip: string, username: string, k: Key)
    requires !k.LoginUserCount?
    ensures View(Apply(l, db, now, ClearLogin(ip, username)).0, k) == View(db, k)
  {
  }

  // ---- the methods ----

  datatype Dimension = Ip | Account

  class RateLimiter {
    const redis: RedisServer
    const limits: Limits

    constructor (redis: RedisServer, limits: Limits)
      ensures this.redis == redis && this.limits == limits
    {
      this.redis := redis;
      this.limits := limits;
    }

    /** Every counter in the store is as the script leaves it. */
    ghost predicate Valid()
      reads redis
    {
      forall k | k in redis.db && Exists(redis.db, redis.now, k) :: redis.db[k].value >= 1
    }

    method Hit(k: Key, limit: nat, seconds: nat) returns (allowed: bool, remaining: int)
      requires Valid() && seconds == Window(limits, k)
      modifies redis`db
      ensures Valid()
      ensures redis.db == HitDb(limits, old(redis.db), redis.now, (k, limit))
      ensures allowed == HitAllowed(limits, old(redis.db), redis.now, (k, limit))
      ensures remaining == Max(0, limit - redis.db[k].value)
    {
      var cur := redis.RunIncrScript(k, seconds);
      allowed := cur <= limit;
      remaining := Max(0, limit - cur);
    }

    method AllowSend(user: string, limit: nat) returns (allowed: bool)
      requires Valid()
      modifies redis`db
      ensures Valid()
      ensures (redis.db, allowed) == Apply(limits, old(redis.db), redis.now, Send(user, limit))
    {
      var remaining;
      allowed, remaining := Hit(SendCount(user), limit, 60);
      if allowed {
        allowed, remaining := Hit(GlobalSendCount, limits.globalPerMin, 60);
      }
    }

    method CheckLogin(ip: string, username: string) returns (allowed: bool, denied: Option<Dimension>)
      requires Valid()
      modifies redis`db
      ensures Valid()
      ensures (redis.db, allowed) == Apply(limits, old(redis.db), redis.now, Login(ip, username))
      ensures allowed <==> denied.None?
      ensures denied == Some(Ip) <==>
              ip != "" && !HitAllowed(limits, old(redis.db), redis.now, (LoginIpCount(ip), limits.loginIp))
    {
      denied := None;
      if ip != "" {
        var ok, remaining := Hit(LoginIpCount(ip), limits.loginIp, limits.loginWindow);
        if !ok {
          return false, Some(Ip);
        }
      }
      if username != "" {
        var ok, remaining := Hit(AccountKey(username), limits.loginUser, limits.loginWindow);
        if !ok {
          return false, Some(Account);
        }
      }
      allowed := true;
    }

    method ClearLogin(ip: string, username: string)
      requires Valid()
      modifies redis`db
      ensures Valid()
      ensures redis.db == Apply(limits, old(redis.db), redis.now, Call.ClearLogin(ip, username)).0
    {
      if username != "" {
        redis.Delete(AccountKey(username));
      }
    }
  }
}
