/** Calls of different clients never meet. */
module Isolation {
  import opened Redis
  import opened LimiterKeys
  import opened RateLimit

  predicate SameAt(a: Db<string>, b: Db<string>, key: string) {
    (key in a <==> key in b) && (key in a ==> a[key] == b[key])
  }

  /** A call touches no key but the two counters of its own client and day. */
  lemma Frame(m: Mode, whitelist: seq<string>, db: Db<string>, call: Call, key: string)
    requires key != SecKey(call.client) && key != DayKey(call.client, DayOf(call))
    ensures SameAt(Allow(m, whitelist, db, call).0, db, key)
  {
  }

  /** Quotas never change during a run. */
  lemma QuotasFixed(m: Mode, whitelist: seq<string>, db: Db<string>, call: Call, c: Client)
    ensures Quota(Allow(m, whitelist, db, call).0, SecQuotaKey(c)) == Quota(db, SecQuotaKey(c))
    ensures Quota(Allow(m, whitelist, db, call).0, DayQuotaKey(c)) == Quota(db, DayQuotaKey(c))
  {
    FamiliesDisjoint(c, call.client, DayOf(call));
    Frame(m, whitelist, db, call, SecQuotaKey(c));
    Frame(m, whitelist, db, call, DayQuotaKey(c));
  }

  predicate SameKeys(a: Db<string>, b: Db<string>, c: Client, day: nat) {
    && SameAt(a, b, SecQuotaKey(c)) && SameAt(a, b, DayQuotaKey(c))
    && SameAt(a, b, SecKey(c)) && SameAt(a, b, DayKey(c, day))
  }

  /** All a call can see of the store. */
  predicate SameFor(a: Db<string>, b: Db<string>, call: Call) {
    SameKeys(a, b, call.client, DayOf(call))
  }

  lemma CountLocal(a: Db<string>, b: Db<string>, k: string, key: string, n: int, ttl: int, now: int)
    requires SameAt(a, b, k) && SameAt(a, b, key)
    ensures SameAt(Count(a, k, n, ttl, now), Count(b, k, n, ttl, now), key)
  {
  }

  lemma CountKeeps(a: Db<string>, b: Db<string>, c: Client, day: nat, k: string, n: int, ttl: int, now: int)
    requires SameKeys(a, b, c, day) && SameAt(a, b, k)
    ensures SameKeys(Count(a, k, n, ttl, now), Count(b, k, n, ttl, now), c, day)
  {
    CountLocal(a, b, k, SecQuotaKey(c), n, ttl, now);
    CountLocal(a, b, k, DayQuotaKey(c), n, ttl, now);
    CountLocal(a, b, k, SecKey(c), n, ttl, now);
    CountLocal(a, b, k, DayKey(c, day), n, ttl, now);
  }

  lemma DayStageLocal(m: Mode, a: Db<string>, b: Db<string>, c: Client, day: nat, n: int, now: int)
    requires SameKeys(a, b, c, day)
    ensures DayStage(m, a, c, day, n, now).1 == DayStage(m, b, c, day, n, now).1
    ensures SameKeys(DayStage(m, a, c, day, n, now).0, DayStage(m, b, c, day, n, now).0, c, day)
  {
    hide SecQuotaKey, DayQuotaKey, SecKey, DayKey, Count;
    CountKeeps(a, b, c, day, DayKey(c, day), n, DAY_COUNTER_TTL, now);
  }

  /** A call's verdict and what it leaves behind depend on its own four keys only. */
  lemma Locality(m: Mode, whitelist: seq<string>, a: Db<string>, b: Db<string>, call: Call)
    requires SameFor(a, b, call)
    ensures Allow(m, whitelist, a, call).1 == Allow(m, whitelist, b, call).1
    ensures SameFor(Allow(m, whitelist, a, call).0, Allow(m, whitelist, b, call).0, call)
  {
    hide SecQuotaKey, DayQuotaKey, SecKey, DayKey, Count, DayStage;
    var c, day := call.client, DayOf(call);
    CountKeeps(a, b, c, day, DayKey(c, day), call.n, DAY_COUNTER_TTL, call.now);
    var ttl := SecondTtl(m.window, call.n);
    CountKeeps(a, b, c, day, SecKey(c), call.n, ttl, call.now);
    DayStageLocal(m, Count(a, SecKey(c), call.n, ttl, call.now), Count(b, SecKey(c), call.n, ttl, call.now),
                  c, day, call.n, call.now);
  }

  /** A call of another client changes nothing a call can see. */
  lemma Invisible(m: Mode, whitelist: seq<string>, db: Db<string>, x: Call, y: Call)
    requires x.client != y.client
    ensures SameFor(Allow(m, whitelist, db, x).0, db, y)
  {
    KeysInjective(x.client, y.client, DayOf(x), DayOf(y));
    FamiliesDisjoint(x.client, y.client, DayOf(y));
    FamiliesDisjoint(y.client, x.client, DayOf(x));
    Frame(m, whitelist, db, x, SecQuotaKey(y.client));
    Frame(m, whitelist, db, x, DayQuotaKey(y.client));
    Frame(m, whitelist, db, x, SecKey(y.client));
    Frame(m, whitelist, db, x, DayKey(y.client, DayOf(y)));
  }

  /** Calls of different clients commute: same verdicts, same store, in either order. */
  lemma Commute(m: Mode, whitelist: seq<string>, db: Db<string>, x: Call, y: Call)
    requires x.client != y.client
    ensures var (dx, vx) := Allow(m, whitelist, db, x);
            var (dy, vy) := Allow(m, whitelist, db, y);
            Allow(m, whitelist, dx, y).1 == vy && Allow(m, whitelist, dy, x).1 == vx &&
            Allow(m, whitelist, dx, y).0 == Allow(m, whitelist, dy, x).0
  {
    var dx, dy := Allow(m, whitelist, db, x).0, Allow(m, whitelist, db, y).0;
    Invisible(m, whitelist, db, x, y);
    Invisible(m, whitelist, db, y, x);
    Locality(m, whitelist, dx, db, y);
    Locality(m, whitelist, dy, db, x);
    var xy, yx := Allow(m, whitelist, dx, y).0, Allow(m, whitelist, dy, x).0;
    forall key
      ensures SameAt(xy, yx, key)
    {
      SameEitherWay(m, whitelist, db, x, y, key);
    }
    SameEverywhere(xy, yx);
  }

  lemma SameEitherWay(m: Mode, whitelist: seq<string>, db: Db<string>, x: Call, y: Call, key: string)
    requires x.client != y.client
    ensures SameAt(Allow(m, whitelist, Allow(m, whitelist, db, x).0, y).0,
                   Allow(m, whitelist, Allow(m, whitelist, db, y).0, x).0, key)
  {
    hide Allow;
    var dx, dy := Allow(m, whitelist, db, x).0, Allow(m, whitelist, db, y).0;
    Invisible(m, whitelist, db, x, y);
    Invisible(m, whitelist, db, y, x);
    Locality(m, whitelist, dx, db, y);
    Locality(m, whitelist, dy, db, x);
    Invisible(m, whitelist, dx, y, x);
    Invisible(m, whitelist, dy, x, y);
    if key != SecKey(x.client) && key != DayKey(x.client, DayOf(x)) {
      Frame(m, whitelist, db, x, key);
      Frame(m, whitelist, dy, x, key);
    }
    if key != SecKey(y.client) && key != DayKey(y.client, DayOf(y)) {
      Frame(m, whitelist, db, y, key);
      Frame(m, whitelist, dx, y, key);
    }
  }

  lemma SameEverywhere(a: Db<string>, b: Db<string>)
    requires forall key :: SameAt(a, b, key)
    ensures a == b
  {
    assert forall key :: SameAt(a, b, key) ==> (key in a <==> key in b);
  }

  /** A run of two calls and a rest, taken apart. */
  lemma AdmittedTwo(m: Mode, whitelist: seq<string>, db: Db<string>, a: Call, b: Call, rest: seq<Call>, of: Call -> bool)
    ensures var (db1, v1) := Allow(m, whitelist, db, a);
            var (db2, v2) := Allow(m, whitelist, db1, b);
            Admitted(m, whitelist, db, [a, b] + rest, of) ==
            (if v1 == Passed && of(a) then a.n else 0) + (if v2 == Passed && of(b) then b.n else 0) +
            Admitted(m, whitelist, db2, rest, of)
  {
  }

  /** A store holding the two quotas of one client and nothing else. */
  function BareQuotas(c: Client, q: int, dayQuota: int): (db: Db<string>)
    ensures SecQuotaKey(c) != DayQuotaKey(c)
    ensures db == map[SecQuotaKey(c) := Entry(q, None), DayQuotaKey(c) := Entry(dayQuota, None)]
    ensures Quota(db, SecQuotaKey(c)) == (if q > 0 then q else 0)
    ensures Quota(db, DayQuotaKey(c)) == (if dayQuota > 0 then dayQuota else 0)
    ensures SecKey(c) !in db && forall day :: DayKey(c, day) !in db
  {
    FamiliesDisjoint(c, c, 0);
    assert forall day :: DayKey(c, day) != SecQuotaKey(c) && DayKey(c, day) != DayQuotaKey(c) by {
      forall day ensures DayKey(c, day) != SecQuotaKey(c) && DayKey(c, day) != DayQuotaKey(c) {
        FamiliesDisjoint(c, c, day);
      }
    }
    map[SecQuotaKey(c) := Entry(q, None), DayQuotaKey(c) := Entry(dayQuota, None)]
  }

  /** With room under both quotas a call passes and is counted on both counters. */
  lemma PassesIf(whitelist: seq<string>, db: Db<string>, call: Call, q: int, dayQuota: int)
    requires call.client.apiKey !in whitelist && call.n > 0
    requires SecQuotaKey(call.client) in db && db[SecQuotaKey(call.client)] == Entry(q, None)
    requires DayQuotaKey(call.client) in db && db[DayQuotaKey(call.client)] == Entry(dayQuota, None)
    requires Value(db, SecKey(call.client), call.now) + call.n <= q
    requires Value(db, DayKey(call.client, DayOf(call)), call.now) + call.n <= dayQuota
    ensures var (db', v) := Allow(LIVE_MODE, whitelist, db, call);
            var s, d := SecKey(call.client), DayKey(call.client, DayOf(call));
            && v == Passed
            && SameAt(db', db, SecQuotaKey(call.client)) && SameAt(db', db, DayQuotaKey(call.client))
            && SameAt(db', Count(db, s, call.n, 1000 * call.n, call.now), s)
            && SameAt(db', Count(db, d, call.n, DAY_COUNTER_TTL, call.now), d)
  {
    hide DayKey, DayQuotaKey, SecKey, SecQuotaKey, DayOf;
    FamiliesDisjoint(call.client, call.client, DayOf(call));
  }

  /** Room under a quota the call can see. */
  predicate Room(db: Db<string>, quotaKey: string, key: string, call: Call) {
    Live(db, quotaKey, call.now) && Value(db, key, call.now) + call.n <= db[quotaKey].value
  }

  /** What each verdict means, in terms of the store before the call. */
  lemma VerdictMeans(m: Mode, whitelist: seq<string>, db: Db<string>, call: Call)
    ensures var (db', v) := Allow(m, whitelist, db, call);
            var c, day := call.client, DayKey(call.client, DayOf(call));
            var listed := c.apiKey in whitelist;
            var secRoom, dayRoom := Room(db, SecQuotaKey(c), SecKey(c), call), Room(db, DayQuotaKey(c), day, call);
            && (v == Passed <==> listed || (call.n > 0 && secRoom && dayRoom))
            && (v == Failed <==> !listed && call.n <= 0)
            && (v == Unauthorized <==>
                  (!listed && call.n > 0 &&
                   (!Live(db, SecQuotaKey(c), call.now) || (secRoom && !Live(db, DayQuotaKey(c), call.now)))))
            && (listed ==> SameAt(db', db, SecKey(c)) && day in db' && db'[day].value == Value(db, day, call.now) + call.n)
  {
    hide DayKey, DayQuotaKey, SecKey, SecQuotaKey, DayOf;
    FamiliesDisjoint(call.client, call.client, DayOf(call));
  }
}
