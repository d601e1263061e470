/** The part of Redis the service relies on: integer counters with an optional expiry.
    Time is in milliseconds.  An expired key still occupies the map and is treated as absent. */
module Redis {

  datatype Option<+T> = None | Some(value: T)

  datatype Entry = Entry(value: int, expireAt: Option<int>)

  type Db<!K> = map<K, Entry>

  predicate Live<K>(db: Db<K>, k: K, now: int) {
    k in db && (db[k].expireAt.Some? ==> now < db[k].expireAt.value)
  }

  /** The value a command reads: an absent or expired counter counts from zero. */
  function Value<K>(db: Db<K>, k: K, now: int): int {
    if Live(db, k, now) then db[k].value else 0
  }

  /** INCRBY (and DECRBY, with a negative amount): a live key keeps its expiry, a new one has none. */
  function IncrBy<K>(db: Db<K>, k: K, n: int, now: int): Db<K> {
    db[k := Entry(Value(db, k, now) + n, if Live(db, k, now) then db[k].expireAt else None)]
  }

  /** EXPIRE: a time to live of zero or less leaves a key that is no longer live. */
  function Expire<K>(db: Db<K>, k: K, ttl: int, now: int): Db<K> {
    if Live(db, k, now) then db[k := db[k].(expireAt := Some(now + ttl))] else db
  }

  /** INCRBY followed by an EXPIRE exactly when the counter reads as fresh: the idiom of the
      script, of the whitelist path and of the aggregate counters. */
  function Count<K>(db: Db<K>, k: K, n: int, ttl: int, now: int): Db<K> {
    var db' := IncrBy(db, k, n, now);
    if Value(db', k, now) == n then Expire(db', k, ttl, now) else db'
  }

  /** A Redis server as the service sees it: every method is one atomic command. */
  class Server<K(==)> {
    var db: Db<K>
    var now: int

    constructor (now: int)
      ensures db == map[] && this.now == now
    {
      db := map[];
      this.now := now;
    }

    method Get(k: K) returns (r: Option<int>)
      ensures r == if Live(db, k, now) then Some(db[k].value) else None
    {
      if Live(db, k, now) {
        r := Some(db[k].value);
      } else {
        r := None;
      }
    }

    method IncrementBy(k: K, n: int) returns (r: int)
      modifies this`db
      ensures db == IncrBy(old(db), k, n, now)
      ensures r == Value(db, k, now)
    {
      db := IncrBy(db, k, n, now);
      r := db[k].value;
    }

    method SetExpiry(k: K, ttl: int)
      modifies this`db
      ensures db == Expire(old(db), k, ttl, now)
    {
      db := Expire(db, k, ttl, now);
    }
  }
}
