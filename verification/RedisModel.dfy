/** Redis string keys with a time to live, under an explicit clock in milliseconds. */
module RedisModel {
  import opened Prelude

  /** The key families of the rate limiter and of token revocation. */
  datatype Key =
    | SendCount(user: string)        // rl:msg:{user}
    | GlobalSendCount                // rl:global:msg
    | LoginIpCount(ip: string)       // rl:login:ip:{ip}
    | LoginUserCount(name: string)   // rl:login:user:{name}
    | Blacklist(jti: string)         // jwt:blacklist:{jti}
    | BlacklistSentinel              // the key probed for a token without a jti
    | RevokeBefore(user: string)     // auth:revoke:{user}

  datatype Entry = Entry(value: int, expiresAt: nat)
  type Db = map<Key, Entry>

  predicate Alive(e: Entry, now: nat) {
    now < e.expiresAt
  }

  predicate Exists(db: Db, now: nat, k: Key) {
    k in db && Alive(db[k], now)
  }

  function Get(db: Db, now: nat, k: Key): Option<int> {
    if Exists(db, now, k) then Some(db[k].value) else None
  }

  /** `SET k v EX seconds`. */
  function SetEx(db: Db, now: nat, k: Key, v: int, seconds: nat): Db {
    db[k := Entry(v, now + 1000 * seconds)]
  }

  /** What one run of the increment script does to the entry of its key. */
  function Bumped(e: Option<Entry>, now: nat, seconds: nat): Entry {
    match e
    case Some(c) => if Alive(c, now) then Entry(c.value + 1, c.expiresAt) else Entry(1, now + 1000 * seconds)
    case None => Entry(1, now + 1000 * seconds)
  }

  function View(db: Db, k: Key): Option<Entry> {
    if k in db then Some(db[k]) else None
  }

  /** INCR, and EXPIRE when the counter was just created, in one script. */
  function IncrExpire(db: Db, now: nat, k: Key, seconds: nat): Db {
    db[k := Bumped(View(db, k), now, seconds)]
  }

  class RedisServer {
    var db: Db
    var now: nat

    constructor ()
      ensures db == map[]
    {
      db := map[];
      now := 0;
    }

    method SetWithTtl(k: Key, v: int, seconds: nat)
      modifies this`db
      ensures db == SetEx(old(db), now, k, v, seconds)
      ensures forall later: nat :: Get(db, later, k) == if later < now + 1000 * seconds then Some(v) else None
      ensures forall other, later: nat :: other != k ==> Get(db, later, other) == Get(old(db), later, other)
    {
      db := db[k := Entry(v, now + 1000 * seconds)];
    }

    method Delete(k: Key)
      modifies this`db
      ensures db == old(db) - {k}
    {
      db := db - {k};
    }

    method RunIncrScript(k: Key, seconds: nat) returns (cur: int)
      requires Exists(db, now, k) ==> db[k].value >= 1
      modifies this`db
      ensures db == IncrExpire(old(db), now, k, seconds) && cur == db[k].value
    {
      if Exists(db, now, k) {
        cur := db[k].value + 1;
        db := db[k := db[k].(value := cur)];
      } else {
        cur := 1;
        db := db[k := Entry(cur, 0)];
      }
      if cur == 1 {
        db := db[k := db[k].(expiresAt := now + 1000 * seconds)];
      }
    }
  }
}
