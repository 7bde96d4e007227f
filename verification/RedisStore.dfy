/**
 The part of Redis that the application relies on: keys with an optional expiry instant,
 a clock in milliseconds, and commands that are atomic at one instant.

 One convention is used everywhere: a key is live at `now` if and only if `now < expireAt`.
 The functions say what each command computes; the class carries the same commands as
 updates in place and is proved against those functions.
 */
module RedisStore {
  import opened Wrappers

  datatype Entry<V> = Entry(value: V, expireAt: Option<int>)

  type Db<K, V> = map<K, Entry<V>>

  predicate Unexpired(expireAt: Option<int>, now: int) {
    expireAt.None? || now < expireAt.value
  }

  predicate Live<K, V>(db: Db<K, V>, now: int, key: K) {
    key in db && Unexpired(db[key].expireAt, now)
  }

  /** GET */
  function Lookup<K, V>(db: Db<K, V>, now: int, key: K): Option<V> {
    if Live(db, now, key) then Some(db[key].value) else None
  }

  /** PTTL: -2 for a missing key, -1 for a key without expiry, else the remaining milliseconds. */
  function Pttl<K, V>(db: Db<K, V>, now: int, key: K): int {
    if !Live(db, now, key) then -2
    else if db[key].expireAt.None? then -1
    else db[key].expireAt.value - now
  }

  /** SET key value PX ttlMs */
  function SetPx<K, V>(db: Db<K, V>, now: int, key: K, value: V, ttlMs: int): Db<K, V> {
    db[key := Entry(value, Some(now + ttlMs))]
  }

  /** The expiry instant of a cache write: a non-positive number of seconds means no expiry. */
  function CacheExpiry(now: int, ttlSeconds: int): Option<int> {
    if ttlSeconds > 0 then Some(now + 1000 * ttlSeconds) else None
  }

  /** SET key value [EX ttlSeconds] */
  function SetCache<K, V>(db: Db<K, V>, now: int, key: K, value: V, ttlSeconds: int): Db<K, V> {
    db[key := Entry(value, CacheExpiry(now, ttlSeconds))]
  }

  /** SET key value PX ttlMs NX: writes only over a missing or expired key. */
  function SetNx<K, V>(db: Db<K, V>, now: int, key: K, value: V, ttlMs: int): Db<K, V> {
    if Live(db, now, key) then db else SetPx(db, now, key, value, ttlMs)
  }

  /** The compare-and-delete script of a lock release. */
  function CompareAndDelete<K, V(==)>(db: Db<K, V>, now: int, key: K, value: V): Db<K, V> {
    if Lookup(db, now, key) == Some(value) then db - {key} else db
  }

  class Redis<K(==), V(==)> {
    var db: Db<K, V>
    var now: int

    constructor (now: int)
      ensures db == map[] && this.now == now
    {
      db := map[];
      this.now := now;
    }

    method AcquireLock(key: K, value: V, ttlMs: int) returns (acquired: bool)
      modifies this`db
      ensures acquired <==> !Live(old(db), now, key)
      ensures db == SetNx(old(db), now, key, value, ttlMs)
      ensures acquired && ttlMs > 0 ==> Lookup(db, now, key) == Some(value) && Pttl(db, now, key) == ttlMs
      ensures forall k :: k != key ==> Lookup(db, now, k) == Lookup(old(db), now, k)
    {
      acquired := false;
      if !(key in db && Unexpired(db[key].expireAt, now)) {
        db := db[key := Entry(value, Some(now + ttlMs))];
        acquired := true;
      }
    }

    method ReleaseLock(key: K, value: V) returns (released: bool)
      modifies this`db
      ensures released <==> Lookup(old(db), now, key) == Some(value)
      ensures db == CompareAndDelete(old(db), now, key, value)
      ensures released ==> !Live(db, now, key)
      ensures forall k, v :: Lookup(old(db), now, k) == Some(v) && (k != key || v != value) ==>
                               Lookup(db, now, k) == Some(v)
    {
      var holder := GetCache(key);
      released := holder == Some(value);
      if released {
        db := db - {key};
      }
    }

    method GetCache(key: K) returns (value: Option<V>)
      ensures value == Lookup(db, now, key)
    {
      value := if key in db && Unexpired(db[key].expireAt, now) then Some(db[key].value) else None;
    }

    method SetCacheValue(key: K, value: V, ttlSeconds: int)
      modifies this`db
      ensures db == SetCache(old(db), now, key, value, ttlSeconds)
      ensures Lookup(db, now, key) == Some(value)
      ensures Pttl(db, now, key) == if ttlSeconds > 0 then 1000 * ttlSeconds else -1
      ensures forall k :: k != key ==> Lookup(db, now, k) == Lookup(old(db), now, k)
    {
      if ttlSeconds > 0 {
        db := db[key := Entry(value, Some(now + 1000 * ttlSeconds))];
      } else {
        db := db[key := Entry(value, None)];
      }
    }

    method DelCache(key: K)
      modifies this`db
      ensures db == old(db) - {key}
      ensures !Live(db, now, key)
    {
      db := db - {key};
    }

    method Exists(key: K) returns (found: bool)
      ensures found <==> Live(db, now, key)
    {
      found := key in db && Unexpired(db[key].expireAt, now);
    }

    method RemainingMs(key: K) returns (pttl: int)
      ensures pttl == Pttl(db, now, key)
    {
      if !(key in db && Unexpired(db[key].expireAt, now)) {
        return -2;
      }
      match db[key].expireAt
      case None => return -1;
      case Some(at) => return at - now;
    }

    /** PEXPIRE */
    method SetExpiry(key: K, ttlMs: int)
      modifies this`db
      ensures db == if Live(old(db), now, key)
                    then old(db)[key := Entry(old(db)[key].value, Some(now + ttlMs))] else old(db)
    {
      if key in db && Unexpired(db[key].expireAt, now) {
        db := db[key := Entry(db[key].value, Some(now + ttlMs))];
      }
    }

    /** SET key value PX ttlMs */
    method SetWithTtl(key: K, value: V, ttlMs: int)
      modifies this`db
      ensures db == SetPx(old(db), now, key, value, ttlMs)
    {
      db := db[key := Entry(value, Some(now + ttlMs))];
    }

    /** A write that keeps the key's expiry, as INCR does; an expired key starts afresh without one. */
    method SetKeepTtl(key: K, value: V)
      modifies this`db
      ensures db == old(db)[key := Entry(value, if Live(old(db), now, key) then old(db)[key].expireAt else None)]
    {
      var expireAt := if key in db && Unexpired(db[key].expireAt, now) then db[key].expireAt else None;
      db := db[key := Entry(value, expireAt)];
    }
  }
}
