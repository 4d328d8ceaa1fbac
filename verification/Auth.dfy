/**
 Token issuance, rotation and revocation. A token is its claims; times in claims are whole seconds,
 the clock is in milliseconds.
 */
module Tokens {
  import opened Prelude
  import opened RedisModel

  datatype Kind = Access | Refresh

  datatype Claims = Claims(sub: string, kind: Kind, jti: Option<string>, iat: nat, exp: nat)

  /** Lifetimes in seconds: `access_token_ttl_minutes * 60`, `refresh_token_ttl_days * 86_400`. */
  datatype Settings = Settings(accessTtl: nat, refreshTtl: nat)

  function Seconds(ms: nat): nat {
    ms / 1000
  }

  function Ttl(cfg: Settings, kind: Kind): nat {
    if kind.Access? then cfg.accessTtl else cfg.refreshTtl
  }

  /** `create_token` reads the clock twice: first for `exp`, later for `iat`. */
  function CreateToken(cfg: Settings, sub: string, kind: Kind, jti: string, t1: nat, t2: nat): Claims {
    Claims(sub, kind, Some(jti), Seconds(t2), Seconds(t1 + 1000 * Ttl(cfg, kind)))
  }

  /** What is known of every token the server signed. */
  ghost predicate Genuine(cfg: Settings, c: Claims) {
    c.jti.Some? && c.exp <= c.iat + Ttl(cfg, c.kind)
  }

  lemma CreatedIsGenuine(cfg: Settings, sub: string, kind: Kind, jti: string, t1: nat, t2: nat)
    requires t1 <= t2
    ensures Genuine(cfg, CreateToken(cfg, sub, kind, jti, t1, t2))
  {
  }

  // ---- checks ----

  /** The expiry part of `decode_token` (section 4.1.4 of RFC 7519). */
  predicate Unexpired(now: nat, c: Claims) {
    now < 1000 * c.exp
  }

  function BlacklistKey(jti: Option<string>): Key {
    match jti
    case None => BlacklistSentinel
    case Some(j) => Blacklist(j)
  }

  /** The watermark in force; 0 stands for none. */
  function Watermark(db: Db, now: nat, user: string): int {
    match Get(db, now, RevokeBefore(user))
    case None => 0
    case Some(w) => w
  }

  predicate Revoked(db: Db, now: nat, c: Claims) {
    || Exists(db, now, BlacklistKey(c.jti))
    || (Watermark(db, now, c.sub) != 0 && c.iat < Watermark(db, now, c.sub))
  }

  /** The token part of `user_from_access_token`. */
  predicate AcceptsAccess(db: Db, now: nat, c: Claims) {
    Unexpired(now, c) && c.kind.Access? && !Revoked(db, now, c)
  }

  /** The checks of `refresh_tokens`. */
  predicate AcceptsRefresh(db: Db, now: nat, c: Claims) {
    Unexpired(now, c) && c.kind.Refresh? && !Revoked(db, now, c)
  }

  /** No endpoint takes the token. */
  predicate Rejected(db: Db, now: nat, c: Claims) {
    !AcceptsAccess(db, now, c) && !AcceptsRefresh(db, now, c)
  }

  // ---- writes: a value computed at time `from` and stored at time `at` ----

  function BlacklistToken(db: Db, from: nat, at: nat, c: Claims): Db {
    match c.jti
    case None => db
    case Some(j) => SetEx(db, at, Blacklist(j), 1, Max(Max(c.exp - Seconds(from), 1), 1))
  }

  function RevokeAll(cfg: Settings, db: Db, from: nat, at: nat, user: string): Db {
    SetEx(db, at, RevokeBefore(user), Seconds(from), Max(cfg.refreshTtl + 60, 1))
  }

  datatype Write =
    | Black(from: nat, at: nat, c: Claims)
    | Mark(from: nat, at: nat, user: string)

  function Written(cfg: Settings, db: Db, w: Write): Db {
    match w
    case Black(from, at, c) => BlacklistToken(db, from, at, c)
    case Mark(from, at, user) => RevokeAll(cfg, db, from, at, user)
  }

  function AllWritten(cfg: Settings, db: Db, ws: seq<Write>): Db
    decreases ws
  {
    if ws == [] then db else AllWritten(cfg, Written(cfg, db, ws[0]), ws[1..])
  }

  /** Stores take effect in this order, after their values were computed. */
  ghost predicate Sensible(ws: seq<Write>) {
    forall i | 0 <= i < |ws| :: ws[i].from <= ws[i].at
  }

  /** Token ids are unique: blacklisting under this token's id is blacklisting this token. */
  ghost predicate OwnId(c: Claims, ws: seq<Write>) {
    forall i | 0 <= i < |ws| :: ws[i].Black? && ws[i].c.jti == c.jti ==> ws[i].c.exp == c.exp
  }

  /** Every stored watermark for the token's user is computed in a second after its `iat`. */
  ghost predicate MarksAbove(c: Claims, ws: seq<Write>) {
    forall i | 0 <= i < |ws| :: ws[i].Mark? && ws[i].user == c.sub ==> c.iat < Seconds(ws[i].from)
  }

  /** When the watermark stored last was computed, if one computed at `from` was stored before `ws`. */
  function LastMark(user: string, from: nat, ws: seq<Write>): nat
    decreases ws
  {
    if ws == [] then from
    else LastMark(user, if ws[0].Mark? && ws[0].user == user then ws[0].from else from, ws[1..])
  }

  // ---- blacklisting is for good ----

  ghost predicate Blacklisted(db: Db, c: Claims) {
    c.jti.Some? && Blacklist(c.jti.value) in db && db[Blacklist(c.jti.value)].expiresAt >= 1000 * c.exp
  }

  /** The entry lives for what was left of the token's life when it was computed, and a second at least. */
  lemma BlacklistLifetime(db: Db, from: nat, at: nat, c: Claims)
    requires c.jti.Some?
    ensures var db' := BlacklistToken(db, from, at, c); var left := if c.exp > Seconds(from) then c.exp - Seconds(from) else 1;
      forall later: nat :: Exists(db', later, Blacklist(c.jti.value)) <==> later < at + 1000 * left
    ensures forall k | k != Blacklist(c.jti.value) :: View(BlacklistToken(db, from, at, c), k) == View(db, k)
  {
  }

  lemma BlacklistOutlivesToken(db: Db, from: nat, at: nat, c: Claims)
    requires from <= at && c.jti.Some?
    ensures Blacklisted(BlacklistToken(db, from, at, c), c)
  {
  }

  lemma {:induction false} StaysBlacklisted(cfg: Settings, db: Db, c: Claims, ws: seq<Write>)
    requires Blacklisted(db, c) && Sensible(ws) && OwnId(c, ws)
    ensures Blacklisted(AllWritten(cfg, db, ws), c)
    decreases ws
  {
    if ws != [] {
      var w := ws[0];
      if w.Black? && w.c.jti == c.jti {
        BlacklistOutlivesToken(db, w.from, w.at, w.c);
      }
      assert forall i | 0 <= i < |ws[1..]| :: ws[1..][i] == ws[i + 1];
      StaysBlacklisted(cfg, Written(cfg, db, w), c, ws[1..]);
    }
  }

  /**
   Once a token is blacklisted it is rejected at every later time, whatever revocation writes follow:
   the entry outlives the token, and after that the token has expired.
   */
  lemma BlacklistedForever(cfg: Settings, db: Db, from: nat, at: nat, c: Claims, ws: seq<Write>, later: nat)
    requires from <= at && c.jti.Some? && Sensible(ws) && OwnId(c, ws)
    ensures Rejected(AllWritten(cfg, BlacklistToken(db, from, at, c), ws), later, c)
  {
    BlacklistOutlivesToken(db, from, at, c);
    StaysBlacklisted(cfg, BlacklistToken(db, from, at, c), c, ws);
  }

  // ---- a watermark is for good ----

  ghost predicate Marked(db: Db, c: Claims) {
    && RevokeBefore(c.sub) in db
    && db[RevokeBefore(c.sub)].value > c.iat
    && db[RevokeBefore(c.sub)].expiresAt >= 1000 * c.exp
  }

  lemma MarkOutlivesToken(cfg: Settings, db: Db, from: nat, at: nat, c: Claims)
    requires from <= at && Genuine(cfg, c) && c.iat < Seconds(from) && cfg.accessTtl <= cfg.refreshTtl + 61
    ensures Marked(RevokeAll(cfg, db, from, at, c.sub), c)
  {
    assert from >= 1000 * Seconds(from);
  }

  lemma {:induction false} StaysMarked(cfg: Settings, db: Db, c: Claims, ws: seq<Write>)
    requires Genuine(cfg, c) && cfg.accessTtl <= cfg.refreshTtl + 61
    requires Marked(db, c) && Sensible(ws) && MarksAbove(c, ws)
    ensures Marked(AllWritten(cfg, db, ws), c)
    decreases ws
  {
    if ws != [] {
      var w := ws[0];
      if w.Mark? && w.user == c.sub {
        MarkOutlivesToken(cfg, db, w.from, w.at, c);
      }
      assert forall i | 0 <= i < |ws[1..]| :: ws[1..][i] == ws[i + 1];
      StaysMarked(cfg, Written(cfg, db, w), c, ws[1..]);
    }
  }

  /**
   Once a watermark above a token's `iat` was set, the token is rejected at every later time, provided
   an access token does not outlive a refresh token by more than 61 seconds, and the watermarks stored
   later for the user are above its `iat` too.
   */
  lemma WatermarkedForever(cfg: Settings, db: Db, from: nat, at: nat, c: Claims, ws: seq<Write>, later: nat)
    requires Genuine(cfg, c) && cfg.accessTtl <= cfg.refreshTtl + 61
    requires from <= at && c.iat < Seconds(from) && Sensible(ws) && MarksAbove(c, ws)
    ensures Rejected(AllWritten(cfg, RevokeAll(cfg, db, from, at, c.sub), ws), later, c)
  {
    MarkOutlivesToken(cfg, db, from, at, c);
    StaysMarked(cfg, RevokeAll(cfg, db, from, at, c.sub), c, ws);
  }

  /** The user's watermark is the one computed at `from`, with its full lifetime from then on. */
  ghost predicate MarkedAt(cfg: Settings, db: Db, user: string, from: nat) {
    && RevokeBefore(user) in db
    && db[RevokeBefore(user)].value == Seconds(from)
    && db[RevokeBefore(user)].expiresAt >= from + 1000 * Max(cfg.refreshTtl + 60, 1)
  }

  lemma {:induction false} LastMarkIsStored(cfg: Settings, db: Db, user: string, from: nat, ws: seq<Write>)
    requires MarkedAt(cfg, db, user, from) && Sensible(ws)
    ensures MarkedAt(cfg, AllWritten(cfg, db, ws), user, LastMark(user, from, ws))
    decreases ws
  {
    if ws != [] {
      var w := ws[0];
      assert forall i | 0 <= i < |ws[1..]| :: ws[1..][i] == ws[i + 1];
      LastMarkIsStored(cfg, Written(cfg, db, w), user, if w.Mark? && w.user == user then w.from else from, ws[1..]);
    }
  }

  /**
   The watermark stored last decides: after any later writes, a token neither expired nor blacklisted
   is rejected exactly when the last watermark stored for its user was computed in a second after its
   `iat`. Calls that overlap can store an older watermark over a newer one.
   */
  lemma LastMarkDecides(cfg: Settings, db: Db, from: nat, at: nat, c: Claims, ws: seq<Write>, later: nat)
    requires Genuine(cfg, c) && cfg.accessTtl <= cfg.refreshTtl + 61 && from <= at && Sensible(ws)
    requires var db' := AllWritten(cfg, RevokeAll(cfg, db, from, at, c.sub), ws);
      Unexpired(later, c) && !Exists(db', later, BlacklistKey(c.jti))
    ensures Rejected(AllWritten(cfg, RevokeAll(cfg, db, from, at, c.sub), ws), later, c)
            <==> c.iat < Seconds(LastMark(c.sub, from, ws))
  {
    LastMarkIsStored(cfg, RevokeAll(cfg, db, from, at, c.sub), c.sub, from, ws);
    var m := LastMark(c.sub, from, ws);
    assert m >= 1000 * Seconds(m);
  }

  /**
   A token revoked in second 11 is accepted in second 13: a second call for its user, which computed its
   watermark at 10.5 seconds and was held up until 12, has lowered it to the token's own second.
   */
  lemma LateStoreRevives()
    ensures var cfg := Settings(3600, 86_400);
      var c := Claims("user", Access, Some("id"), 10, 3610);
      var revoked := RevokeAll(cfg, map[], 11_000, 11_000, "user");
      var late := [Mark(10_500, 12_000, "user")];
      && Genuine(cfg, c) && Sensible(late)
      && Rejected(revoked, 11_000, c) && AcceptsAccess(AllWritten(cfg, revoked, late), 13_000, c)
  {
    var cfg := Settings(3600, 86_400);
    var c := Claims("user", Access, Some("id"), 10, 3610);
    var revoked := RevokeAll(cfg, map[], 11_000, 11_000, "user");
    var late := [Mark(10_500, 12_000, "user")];
    assert AllWritten(cfg, revoked, late) == AllWritten(cfg, Written(cfg, revoked, late[0]), []);
  }

  /** The lifetimes for which a watermark always outlives the tokens issued before it: exactly these. */
  lemma WatermarkOutlivesIff(cfg: Settings)
    ensures cfg.accessTtl <= cfg.refreshTtl + 61
            <==> forall c, from, later {:trigger Rejected(RevokeAll(cfg, map[], from, from, c.sub), later, c)} ::
                   Genuine(cfg, c) && c.iat < Seconds(from) ==>
                     Rejected(RevokeAll(cfg, map[], from, from, c.sub), later, c)
  {
    if cfg.accessTtl <= cfg.refreshTtl + 61 {
      forall c, from, later | Genuine(cfg, c) && c.iat < Seconds(from)
        ensures Rejected(RevokeAll(cfg, map[], from, from, c.sub), later, c)
      {
        MarkOutlivesToken(cfg, map[], from, from, c);
      }
    } else {
      // Issued in second 0 for the longest access lifetime, revoked in second 1, used as the mark lapses.
      var c := Claims("user", Access, Some("id"), 0, cfg.accessTtl);
      var later := 1000 + 1000 * (cfg.refreshTtl + 60);
      assert Genuine(cfg, c) && c.iat < Seconds(1000);
      assert !Rejected(RevokeAll(cfg, map[], 1000, 1000, c.sub), later, c);
    }
  }

  // ---- rotation: a refresh token is exchanged at most once ----

  /**
   A call to the auth service with the times of its steps. A refresh checks at `check`; when it
   succeeds it computes the blacklist entry at `from` and stores it at `at`.
   */
  datatype Call =
    | RefreshCall(c: Claims, active: bool, check: nat, from: nat, at: nat)
    | LogoutCall(c: Claims, from: nat, at: nat)
    | RevokeCall(user: string, from: nat, at: nat)

  predicate Exchanges(db: Db, call: Call) {
    call.RefreshCall? && call.active && AcceptsRefresh(db, call.check, call.c)
  }

  function AfterCall(cfg: Settings, db: Db, call: Call): Db {
    match call
    case RefreshCall(c, _, _, from, at) => if Exchanges(db, call) then BlacklistToken(db, from, at, c) else db
    case LogoutCall(c, from, at) => if Unexpired(from, c) then BlacklistToken(db, from, at, c) else db
    case RevokeCall(user, from, at) => RevokeAll(cfg, db, from, at, user)
  }

  /** How often a run of calls, each ending before the next begins, exchanges the token. */
  function Exchanged(cfg: Settings, db: Db, calls: seq<Call>, c: Claims): nat
    decreases calls
  {
    if calls == [] then 0
    else
      (if Exchanges(db, calls[0]) && calls[0].c == c then 1 else 0)
      + Exchanged(cfg, AfterCall(cfg, db, calls[0]), calls[1..], c)
  }

  ghost predicate CallsOk(calls: seq<Call>, c: Claims) {
    forall i | 0 <= i < |calls| ::
      calls[i].from <= calls[i].at && (!calls[i].RevokeCall? && calls[i].c.jti == c.jti ==> calls[i].c.exp == c.exp)
  }

  lemma {:induction false} NeverExchangedAgain(cfg: Settings, db: Db, calls: seq<Call>, c: Claims)
    requires Blacklisted(db, c) && CallsOk(calls, c)
    ensures Exchanged(cfg, db, calls, c) == 0
    decreases calls
  {
    if calls != [] {
      assert forall i | 0 <= i < |calls[1..]| :: calls[1..][i] == calls[i + 1];
      var call := calls[0];
      if !call.RevokeCall? && call.c.jti == c.jti {
        BlacklistOutlivesToken(db, call.from, call.at, call.c);
      }
      NeverExchangedAgain(cfg, AfterCall(cfg, db, call), calls[1..], c);
    }
  }

  /** In any run of non-overlapping calls, from any store, a genuine refresh token is exchanged at most once. */
  lemma {:induction false} ExchangedAtMostOnce(cfg: Settings, db: Db, calls: seq<Call>, c: Claims)
    requires c.jti.Some? && CallsOk(calls, c)
    ensures Exchanged(cfg, db, calls, c) <= 1
    decreases calls
  {
    if calls != [] {
      assert forall i | 0 <= i < |calls[1..]| :: calls[1..][i] == calls[i + 1];
      var call := calls[0];
      if Exchanges(db, call) && call.c == c {
        BlacklistOutlivesToken(db, call.from, call.at, c);
        NeverExchangedAgain(cfg, AfterCall(cfg, db, call), calls[1..], c);
      } else {
        ExchangedAtMostOnce(cfg, AfterCall(cfg, db, call), calls[1..], c);
      }
    }
  }

  /** A token given to a logout before it expires is never exchanged afterwards. */
  lemma LogoutEndsExchange(cfg: Settings, db: Db, from: nat, at: nat, c: Claims, calls: seq<Call>)
    requires c.jti.Some? && from <= at && Unexpired(from, c) && CallsOk(calls, c)
    ensures Exchanged(cfg, AfterCall(cfg, db, LogoutCall(c, from, at)), calls, c) == 0
  {
    BlacklistOutlivesToken(db, from, at, c);
    NeverExchangedAgain(cfg, BlacklistToken(db, from, at, c), calls, c);
  }

  // ---- overlapping refreshes of one token ----

  /** The two awaited pieces of a refresh: the check of the token, and the store of its blacklist entry. */
  datatype Event = Check(call: nat, at: nat) | Store(call: nat, from: nat, at: nat)

  /** The store after the events, and the calls whose check passed; only these store anything. */
  function Replayed(db: Db, c: Claims, passed: set<nat>, events: seq<Event>): (Db, set<nat>)
    decreases events
  {
    if events == [] then (db, passed)
    else match events[0]
      case Check(k, at) => Replayed(db, c, if AcceptsRefresh(db, at, c) then passed + {k} else passed, events[1..])
      case Store(k, from, at) =>
        Replayed(if k in passed then BlacklistToken(db, from, at, c) else db, c, passed, events[1..])
  }

  function Succeed(db: Db, c: Claims, events: seq<Event>): set<nat> {
    Replayed(db, c, {}, events).1
  }

  function Callers(events: seq<Event>): set<nat> {
    set e | e in events :: e.call
  }

  /** Every call checks once and before it stores, and computes what it stores before it stores it. */
  ghost predicate CallsInOrder(events: seq<Event>) {
    && (forall i, j :: 0 <= i < j < |events| && events[i].Check? && events[j].Check? ==> events[i].call != events[j].call)
    && (forall j :: 0 <= j < |events| && events[j].Store? ==>
          events[j].from <= events[j].at && exists i :: 0 <= i < j && events[i].Check? && events[i].call == events[j].call)
  }

  ghost predicate NoStoreBeforeCheck(events: seq<Event>) {
    forall i, j :: 0 <= i < j < |events| && events[i].Store? ==> !events[j].Check?
  }

  lemma {:induction false} ReplayedConcat(db: Db, c: Claims, passed: set<nat>, a: seq<Event>, b: seq<Event>)
    ensures var (d, p) := Replayed(db, c, passed, a); Replayed(db, c, passed, a + b) == Replayed(d, c, p, b)
    decreases a
  {
    hide AcceptsRefresh, BlacklistToken;
    if a == [] {
      assert a + b == b;
    } else {
      assert (a + b)[1..] == a[1..] + b;
      match a[0]
      case Check(k, at) => ReplayedConcat(db, c, if AcceptsRefresh(db, at, c) then passed + {k} else passed, a[1..], b);
      case Store(k, from, at) => ReplayedConcat(if k in passed then BlacklistToken(db, from, at, c) else db, c, passed, a[1..], b);
    }
  }

  /** Only a call's own check lets it pass, and what has passed stays so. */
  lemma {:induction false} PassedByCheck(db: Db, c: Claims, passed: set<nat>, events: seq<Event>, k: nat)
    ensures k in passed ==> k in Replayed(db, c, passed, events).1
    ensures (forall e :: e in events && e.Check? ==> e.call != k) && k !in passed ==> k !in Replayed(db, c, passed, events).1
    decreases events
  {
    hide AcceptsRefresh, BlacklistToken;
    if events != [] {
      match events[0]
      case Check(x, at) => PassedByCheck(db, c, if AcceptsRefresh(db, at, c) then passed + {x} else passed, events[1..], k);
      case Store(x, from, at) => PassedByCheck(if x in passed then BlacklistToken(db, from, at, c) else db, c, passed, events[1..], k);
    }
  }

  /** Once an entry is stored no further check passes. */
  lemma {:induction false} NonePassesAfter(db: Db, c: Claims, passed: set<nat>, events: seq<Event>)
    requires Blacklisted(db, c) && forall e :: e in events && e.Store? ==> e.from <= e.at
    ensures Replayed(db, c, passed, events).1 == passed
    decreases events
  {
    if events != [] {
      var e := events[0];
      if e.Store? {
        BlacklistOutlivesToken(db, e.from, e.at, c);
        NonePassesAfter(if e.call in passed then BlacklistToken(db, e.from, e.at, c) else db, c, passed, events[1..]);
      } else {
        NonePassesAfter(db, c, passed, events[1..]);
      }
    }
  }

  /** While no check follows a store, every check sees the store as it was. */
  lemma {:induction false} AllPass(db: Db, c: Claims, passed: set<nat>, events: seq<Event>, k: nat)
    requires NoStoreBeforeCheck(events) && forall e :: e in events && e.Check? ==> AcceptsRefresh(db, e.at, c)
    requires exists i :: 0 <= i < |events| && events[i].Check? && events[i].call == k
    ensures k in Replayed(db, c, passed, events).1
    decreases events
  {
    hide AcceptsRefresh, BlacklistToken;
    var i :| 0 <= i < |events| && events[i].Check? && events[i].call == k;
    assert events[0].Check?;
    if i == 0 {
      PassedByCheck(db, c, passed + {k}, events[1..], k);
    } else {
      assert events[1..][i - 1] == events[i];
      AllPass(db, c, passed + {events[0].call}, events[1..], k);
    }
  }

  /** A check after another call's store does not pass, if that call passed. */
  lemma LateCheckFails(db: Db, c: Claims, events: seq<Event>, i: nat, j: nat)
    requires c.jti.Some? && CallsInOrder(events) && i < j < |events| && events[i].Store? && events[j].Check?
    requires events[i].call in Succeed(db, c, events)
    ensures events[j].call !in Succeed(db, c, events)
  {
    hide AcceptsRefresh, BlacklistToken, Replayed, CallsInOrder;
    var before, after := events[..i], events[i + 1..];
    var (d, p) := Replayed(db, c, {}, before);
    var k, m := events[i].call, events[j].call;
    assert events == before + ([events[i]] + after);
    ReplayedConcat(db, c, {}, before, [events[i]] + after);
    NoOtherCheck(events, i, k);
    PassedByCheck(d, c, p, [events[i]] + after, k);
    StoreTakesEffect(d, c, p, events[i], after);
    BlacklistOutlivesToken(d, events[i].from, events[i].at, c);
    assert forall e :: e in after && e.Store? ==> e.from <= e.at by { StoresAreSensible(events, i); }
    NonePassesAfter(BlacklistToken(d, events[i].from, events[i].at, c), c, p, after);
    OnlyCheck(events, i, j);
    PassedByCheck(db, c, {}, before, m);
  }

  lemma StoreTakesEffect(db: Db, c: Claims, passed: set<nat>, e: Event, rest: seq<Event>)
    requires e.Store? && e.call in passed
    ensures Replayed(db, c, passed, [e] + rest) == Replayed(BlacklistToken(db, e.from, e.at, c), c, passed, rest)
  {
    assert ([e] + rest)[1..] == rest;
  }

  lemma StoresAreSensible(events: seq<Event>, i: nat)
    requires CallsInOrder(events) && i < |events|
    ensures events[i].Store? ==> events[i].from <= events[i].at
    ensures forall e :: e in events[i + 1..] && e.Store? ==> e.from <= e.at
  {
  }

  /** A call that stores at `i` has checked before, so it checks no more. */
  lemma NoOtherCheck(events: seq<Event>, i: nat, k: nat)
    requires CallsInOrder(events) && i < |events| && events[i].Store? && events[i].call == k
    ensures events[i].from <= events[i].at
    ensures forall e :: e in [events[i]] + events[i + 1..] && e.Check? ==> e.call != k
  {
    var h :| 0 <= h < i && events[h].Check? && events[h].call == k;
    forall e | e in [events[i]] + events[i + 1..] && e.Check? ensures e.call != k {
      var x :| i <= x < |events| && events[x] == e;
    }
  }

  lemma OnlyCheck(events: seq<Event>, i: nat, j: nat)
    requires CallsInOrder(events) && i < j < |events| && events[j].Check?
    ensures forall e :: e in events[..i] && e.Check? ==> e.call != events[j].call
  {
  }

  /**
   Any number of refreshes of one token, in any interleaving of their checks and stores, while the token is
   acceptable but for them: all of them succeed exactly if no check follows the store of another call.
   */
  lemma AllSucceedIff(db: Db, c: Claims, events: seq<Event>)
    requires c.jti.Some? && CallsInOrder(events)
    requires forall e :: e in events && e.Check? ==> AcceptsRefresh(db, e.at, c)
    ensures Succeed(db, c, events) >= Callers(events) <==> NoStoreBeforeCheck(events)
  {
    hide AcceptsRefresh, Replayed;
    if NoStoreBeforeCheck(events) {
      forall e | e in events ensures e.call in Succeed(db, c, events) {
        CallerChecks(events, e);
        AllPass(db, c, {}, events, e.call);
      }
    } else {
      var i, j :| 0 <= i < j < |events| && events[i].Store? && events[j].Check?;
      assert events[i].call in Callers(events) && events[j].call in Callers(events);
      if events[i].call in Succeed(db, c, events) {
        LateCheckFails(db, c, events, i, j);
      }
    }
  }

  lemma CallerChecks(events: seq<Event>, e: Event)
    requires CallsInOrder(events) && e in events
    ensures exists i :: 0 <= i < |events| && events[i].Check? && events[i].call == e.call
  {
  }

  /** Two refreshes of one token that both check before either stores both succeed. */
  lemma OverlapExchangesTwice()
    ensures var c := Claims("user", Refresh, Some("id"), 10, 86_410);
      Succeed(map[], c, [Check(0, 11_000), Check(1, 11_001), Store(0, 11_002, 11_003), Store(1, 11_004, 11_005)]) == {0, 1}
  {
    var c := Claims("user", Refresh, Some("id"), 10, 86_410);
    var s0, s1 := Store(0, 11_002, 11_003), Store(1, 11_004, 11_005);
    assert [Check(0, 11_000), Check(1, 11_001), s0, s1][1..] == [Check(1, 11_001), s0, s1];
    assert [Check(1, 11_001), s0, s1][1..] == [s0, s1] && [s0, s1][1..] == [s1] && [s1][1..] == [];
    assert AcceptsRefresh(map[], 11_000, c) && AcceptsRefresh(map[], 11_001, c);
  }
}

/** `auth_service.py` and the token checks of `deps.py`, over a Redis server. */
module Auth {
  import opened Prelude
  import opened RedisModel
  import opened Tokens

  datatype AuthError = InvalidToken | WrongType | TokenRevoked | NoSuchUser
  datatype Result<T> = Ok(value: T) | Err(error: AuthError)

  class AuthService {
    const redis: RedisServer
    const cfg: Settings

    constructor (redis: RedisServer, cfg: Settings)
      ensures this.redis == redis && this.cfg == cfg
    {
      this.redis := redis;
      this.cfg := cfg;
    }

    method TokenRevocationState(jti: Option<string>, user: string) returns (blacklisted: bool, revokeBefore: int)
      ensures blacklisted == Exists(redis.db, redis.now, BlacklistKey(jti))
      ensures revokeBefore == Watermark(redis.db, redis.now, user)
      ensures forall c: Claims :: c.jti == jti && c.sub == user ==>
        (Revoked(redis.db, redis.now, c) <==> blacklisted || (revokeBefore != 0 && c.iat < revokeBefore))
    {
      blacklisted := Exists(redis.db, redis.now, BlacklistKey(jti));
      var w := Get(redis.db, redis.now, RevokeBefore(user));
      revokeBefore := if w.Some? then w.value else 0;
    }

    method BlacklistJti(jti: string, ttl: int)
      modifies redis`db
      ensures redis.db == SetEx(old(redis.db), redis.now, Blacklist(jti), 1, Max(ttl, 1))
      ensures forall c: Claims, later: nat :: c.jti == Some(jti) && 1000 * c.exp <= redis.now + 1000 * Max(ttl, 1) ==>
        Rejected(redis.db, later, c)
      ensures forall c: Claims, later: nat :: c.jti != Some(jti) ==>
        (Rejected(redis.db, later, c) <==> Rejected(old(redis.db), later, c))
    {
      redis.SetWithTtl(Blacklist(jti), 1, Max(ttl, 1));
    }

    /** `token` is None when its signature does not verify; `active` says the account exists and is active. */
    method UserFromAccessToken(token: Option<Claims>, active: bool) returns (r: Result<string>)
      ensures r.Ok? <==> token.Some? && active && AcceptsAccess(redis.db, redis.now, token.value)
      ensures r.Ok? ==> r.value == token.value.sub
    {
      if token.None? || !Unexpired(redis.now, token.value) {
        return Err(InvalidToken);
      }
      var c := token.value;
      if !c.kind.Access? {
        return Err(WrongType);
      }
      var blacklisted, revokeBefore := TokenRevocationState(c.jti, c.sub);
      if blacklisted {
        return Err(TokenRevoked);
      }
      if revokeBefore != 0 && c.iat < revokeBefore {
        return Err(TokenRevoked);
      }
      if !active {
        return Err(NoSuchUser);
      }
      r := Ok(c.sub);
    }

    /** Rotation: the consumed token is blacklisted and a new pair is issued under the ids given. */
    method RefreshTokens(token: Option<Claims>, active: bool, accessId: string, refreshId: string)
      returns (r: Result<(Claims, Claims)>)
      modifies redis`db
      ensures r.Ok? <==> token.Some? && active && AcceptsRefresh(old(redis.db), redis.now, token.value)
      ensures redis.db == if r.Ok? then BlacklistToken(old(redis.db), redis.now, redis.now, token.value)
                          else old(redis.db)
      ensures r.Ok? && token.value.jti.Some? ==> Rejected(redis.db, redis.now, token.value)
      ensures r.Ok? ==> && r.value.0.sub == r.value.1.sub == token.value.sub
                        && r.value.0.kind.Access? && r.value.1.kind.Refresh?
                        && Genuine(cfg, r.value.0) && Genuine(cfg, r.value.1)
    {
      if token.None? || !Unexpired(redis.now, token.value) {
        return Err(InvalidToken);
      }
      var c := token.value;
      if !c.kind.Refresh? {
        return Err(WrongType);
      }
      var blacklisted, revokeBefore := TokenRevocationState(c.jti, c.sub);
      if blacklisted {
        return Err(TokenRevoked);
      }
      if revokeBefore != 0 && c.iat < revokeBefore {
        return Err(TokenRevoked);
      }
      if !active {
        return Err(NoSuchUser);
      }
      if c.jti.Some? {
        BlacklistJti(c.jti.value, Max(c.exp - Seconds(redis.now), 1));
      }
      var now := redis.now;
      r := Ok((CreateToken(cfg, c.sub, Access, accessId, now, now), CreateToken(cfg, c.sub, Refresh, refreshId, now, now)));
    }

    /** What the loop of `logout` leaves in the store. */
    static function LoggedOut(db: Db, now: nat, tokens: seq<Option<Claims>>): Db {
      if tokens == [] then db
      else
        var rest := LoggedOut(db, now, tokens[..|tokens| - 1]);
        var t := tokens[|tokens| - 1];
        if t.Some? && Unexpired(now, t.value) then BlacklistToken(rest, now, now, t.value) else rest
    }

    /** Each token still decodable is blacklisted; missing and undecodable ones are skipped. */
    method Logout(tokens: seq<Option<Claims>>)
      modifies redis`db
      ensures redis.db == LoggedOut(old(redis.db), redis.now, tokens)
    {
      var now := Seconds(redis.now);
      for i := 0 to |tokens|
        invariant redis.db == LoggedOut(old(redis.db), redis.now, tokens[..i])
      {
        assert tokens[..i + 1][..i] == tokens[..i];
        var tok := tokens[i];
        if tok.None? || !Unexpired(redis.now, tok.value) {
          continue;
        }
        if tok.value.jti.Some? {
          BlacklistJti(tok.value.jti.value, Max(tok.value.exp - now, 1));
        }
      }
      assert tokens[..|tokens|] == tokens;
    }

    method RevokeAllUserTokens(user: string)
      modifies redis`db
      ensures redis.db == RevokeAll(cfg, old(redis.db), redis.now, redis.now, user)
      ensures cfg.accessTtl <= cfg.refreshTtl + 61 ==>
        forall c: Claims, later: nat :: Genuine(cfg, c) && c.sub == user && c.iat < Seconds(redis.now) ==>
          Rejected(redis.db, later, c)
      ensures forall c: Claims, later: nat :: c.sub == user && c.iat >= Seconds(redis.now) && Unexpired(later, c) ==>
        (Rejected(redis.db, later, c) <==> Exists(old(redis.db), later, BlacklistKey(c.jti)))
    {
      ghost var before := redis.db;
      redis.SetWithTtl(RevokeBefore(user), Seconds(redis.now), Max(cfg.refreshTtl + 60, 1));
      forall c: Claims | Genuine(cfg, c) && c.sub == user && c.iat < Seconds(redis.now) && cfg.accessTtl <= cfg.refreshTtl + 61
        ensures Marked(redis.db, c)
      {
        MarkOutlivesToken(cfg, before, redis.now, redis.now, c);
      }
    }
  }

  /** After a logout every token it was given is rejected from then on, in whichever order they come. */
  lemma {:induction false} LogoutRejects(cfg: Settings, db: Db, now: nat, tokens: seq<Option<Claims>>, i: nat, later: nat)
    requires i < |tokens| && tokens[i].Some? && tokens[i].value.jti.Some? && now <= later
    requires forall k | 0 <= k < |tokens| :: tokens[k].Some? && tokens[k].value.jti == tokens[i].value.jti ==> tokens[k] == tokens[i]
    ensures Rejected(AuthService.LoggedOut(db, now, tokens), later, tokens[i].value)
    decreases tokens
  {
    var c := tokens[i].value;
    if Unexpired(now, c) {
      LogoutBlacklists(db, now, tokens, i);
    }
  }

  lemma {:induction false} LogoutBlacklists(db: Db, now: nat, tokens: seq<Option<Claims>>, i: nat)
    requires i < |tokens| && tokens[i].Some? && tokens[i].value.jti.Some? && Unexpired(now, tokens[i].value)
    requires forall k | 0 <= k < |tokens| :: tokens[k].Some? && tokens[k].value.jti == tokens[i].value.jti ==> tokens[k] == tokens[i]
    ensures Blacklisted(AuthService.LoggedOut(db, now, tokens), tokens[i].value)
    decreases tokens
  {
    var last := tokens[|tokens| - 1];
    var c := tokens[i].value;
    if last.Some? && last.value.jti == c.jti {
      BlacklistOutlivesToken(AuthService.LoggedOut(db, now, tokens[..|tokens| - 1]), now, now, c);
    } else {
      LogoutBlacklists(db, now, tokens[..|tokens| - 1], i);
    }
  }
}
