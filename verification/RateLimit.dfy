/** The limiter script, its Go wrapper, and runs of calls from many clients over one store. */
module RateLimit {
  import opened Redis
  import opened LimiterKeys
  import opened Calendar

  const ALLOW := 1
  const NOT_EXIST := -1
  const EXCEED_SECOND_LIMIT := -2
  const EXCEED_DAY_LIMIT := -3

  const HOUR_MS := 3600000
  const DAY_COUNTER_TTL := 129600 * 1000
  const HOUR_STAT_TTL := 90 * 60000
  const DAY_STAT_TTL := 36 * HOUR_MS

  /** How long the second counter lives: n seconds in the script, a constant in its older listing. */
  datatype Window = PerUnit | Fixed(ms: int)

  function SecondTtl(w: Window, n: int): int {
    match w
    case PerUnit => n * 1000
    case Fixed(ms) => ms
  }

  datatype Mode = Mode(window: Window, revert: bool)

  /** What the service passes to the script. */
  const LIVE_MODE := Mode(PerUnit, true)

  /** The script from its second counter on. */
  function Script(m: Mode, db: Db<string>, c: Client, day: nat, n: int, now: int): (Db<string>, int) {
    if !Live(db, SecQuotaKey(c), now) then
      (db, NOT_EXIST)
    else
      var counted := Count(db, SecKey(c), n, SecondTtl(m.window, n), now);
      if Value(db, SecKey(c), now) + n > db[SecQuotaKey(c)].value then
        (counted, EXCEED_SECOND_LIMIT)
      else
        DayStage(m, counted, c, day, n, now)
  }

  function DayStage(m: Mode, db: Db<string>, c: Client, day: nat, n: int, now: int): (Db<string>, int) {
    if !Live(db, DayQuotaKey(c), now) then
      (db, NOT_EXIST)
    else
      var quota := db[DayQuotaKey(c)].value;
      var counted := Count(db, DayKey(c, day), n, DAY_COUNTER_TTL, now);
      var current := Value(db, DayKey(c, day), now) + n;
      if current <= quota then
        (counted, ALLOW)
      else if m.revert then
        (IncrBy(counted, DayKey(c, day), quota - current, now), EXCEED_DAY_LIMIT)
      else
        (counted, EXCEED_DAY_LIMIT)
  }

  /** One call of `Allow`: `stamp` is the clock the service reads, `now` the one Redis reads. */
  datatype Call = Call(client: Client, n: int, stamp: nat, now: int)

  datatype Verdict = Passed | RateLimited | Unauthorized | Failed

  function DayOf(call: Call): nat {
    DayOfMonth(DayIndex(call.stamp))
  }

  function Interpret(code: int): Verdict {
    if code == NOT_EXIST then Unauthorized
    else if code != ALLOW then RateLimited
    else Passed
  }

  function Allow(m: Mode, whitelist: seq<string>, db: Db<string>, call: Call): (Db<string>, Verdict) {
    if call.client.apiKey in whitelist then
      (Count(db, DayKey(call.client, DayOf(call)), call.n, DAY_COUNTER_TTL, call.now), Passed)
    else if call.n <= 0 then
      (db, Failed)
    else
      var (db', code) := Script(m, db, call.client, DayOf(call), call.n, call.now);
      (db', Interpret(code))
  }

  /** The calls of a run reach Redis one after the other. */
  predicate Ordered(calls: seq<Call>, since: int) {
    calls == [] || (since <= calls[0].now && Ordered(calls[1..], calls[0].now))
  }

  /** The script's return code, where the script runs at all. */
  function Code(m: Mode, whitelist: seq<string>, db: Db<string>, call: Call): Option<int> {
    if call.client.apiKey in whitelist || call.n <= 0 then None
    else Some(Script(m, db, call.client, DayOf(call), call.n, call.now).1)
  }

  function Codes(m: Mode, whitelist: seq<string>, db: Db<string>, calls: seq<Call>): seq<Option<int>>
    decreases calls
  {
    if calls == [] then [] else
      [Code(m, whitelist, db, calls[0])] + Codes(m, whitelist, Allow(m, whitelist, db, calls[0]).0, calls[1..])
  }

  function After(m: Mode, whitelist: seq<string>, db: Db<string>, calls: seq<Call>): Db<string>
    decreases calls
  {
    if calls == [] then db else After(m, whitelist, Allow(m, whitelist, db, calls[0]).0, calls[1..])
  }

  /** Units admitted by a run, over the calls `of` selects. */
  function Admitted(m: Mode, whitelist: seq<string>, db: Db<string>, calls: seq<Call>, of: Call -> bool): int
    decreases calls
  {
    if calls == [] then 0 else
      var (db', v) := Allow(m, whitelist, db, calls[0]);
      (if v == Passed && of(calls[0]) then calls[0].n else 0) + Admitted(m, whitelist, db', calls[1..], of)
  }

  /** A quota as the script can see it; an absent one admits nothing. */
  function Quota(db: Db<string>, key: string): nat {
    if key in db && db[key].value > 0 then db[key].value else 0
  }

  // ---- The imperative wrapper ----

  /** The aggregate counters, and the daily transfer counters of a client; their key names come from a
      package that is not part of this model, so a key is its chain or client and its hour or day. */
  datatype StatKey = ChainHour(chain: nat, hour: nat) | ChainDay(chain: nat, day: nat)
                   | TotalHour(hour: nat) | TotalDay(day: nat)
                   | BandwidthDay(client: Client, up: bool, day: nat)

  function HourIndex(t: nat): nat {
    t / HOUR_MS
  }

  /** The four aggregate counters an admitted call adds to. */
  function Tally(stats: Db<StatKey>, chain: nat, stamp: nat, n: int, now: int): Db<StatKey> {
    var s1 := Count(stats, ChainHour(chain, HourIndex(stamp)), n, HOUR_STAT_TTL, now);
    var s2 := Count(s1, ChainDay(chain, DayIndex(stamp)), n, DAY_STAT_TTL, now);
    var s3 := Count(s2, TotalHour(HourIndex(stamp)), n, HOUR_STAT_TTL, now);
    Count(s3, TotalDay(DayIndex(stamp)), n, DAY_STAT_TTL, now)
  }

  class RateLimiter {
    const rdb: Server<string>
    const stats: Server<StatKey>
    const whitelist: seq<string>

    constructor (rdb: Server<string>, stats: Server<StatKey>, whitelist: seq<string>)
      ensures this.rdb == rdb && this.stats == stats && this.whitelist == whitelist
    {
      this.rdb, this.stats, this.whitelist := rdb, stats, whitelist;
    }

    method CheckInWhiteList(apiKey: string) returns (inWhitelist: bool)
      ensures inWhitelist <==> apiKey in whitelist
    {
      inWhitelist := false;
      for i := 0 to |whitelist|
        invariant !inWhitelist && apiKey !in whitelist[..i]
      {
        if whitelist[i] == apiKey {
          inWhitelist := true;
          break;
        }
      }
    }

    method AllowWhitelist(call: Call) returns (inWhitelist: bool)
      requires rdb.now == call.now
      modifies rdb`db
      ensures inWhitelist <==> call.client.apiKey in whitelist
      ensures rdb.db == if inWhitelist then Allow(LIVE_MODE, whitelist, old(rdb.db), call).0 else old(rdb.db)
    {
      inWhitelist := CheckInWhiteList(call.client.apiKey);
      if inWhitelist {
        var key := WhitelistKey(call.client.chain, call.client.apiKey, DayOf(call));
        WhitelistKeyIsDayKey(call.client, DayOf(call));
        var count := rdb.IncrementBy(key, call.n);
        if count == call.n {
          rdb.SetExpiry(key, 36 * HOUR_MS);
        }
      }
    }

    /** The script from its day quota on, command by command. */
    method RunDayStage(c: Client, day: nat, n: int, revert: bool) returns (code: int)
      modifies rdb`db
      ensures (rdb.db, code) == DayStage(Mode(PerUnit, revert), old(rdb.db), c, day, n, rdb.now)
    {
      FamiliesDisjoint(c, c, day);
      var dayQuota := rdb.Get(DayQuotaKey(c));
      if dayQuota.None? {
        return NOT_EXIST;
      }
      var current := rdb.IncrementBy(DayKey(c, day), n);
      if current == n {
        rdb.SetExpiry(DayKey(c, day), 129600 * 1000);
      }
      if current > dayQuota.value {
        if revert {
          var _ := rdb.IncrementBy(DayKey(c, day), -(current - dayQuota.value));
        }
        return EXCEED_DAY_LIMIT;
      }
      return ALLOW;
    }

    /** The script, command by command. */
    method RunScript(c: Client, day: nat, n: int, revert: bool) returns (code: int)
      modifies rdb`db
      ensures (rdb.db, code) == Script(Mode(PerUnit, revert), old(rdb.db), c, day, n, rdb.now)
    {
      FamiliesDisjoint(c, c, day);
      var secQuota := rdb.Get(SecQuotaKey(c));
      if secQuota.None? {
        return NOT_EXIST;
      }
      var current := rdb.IncrementBy(SecKey(c), n);
      if current == n {
        rdb.SetExpiry(SecKey(c), n * 1000);
      }
      if current > secQuota.value {
        return EXCEED_SECOND_LIMIT;
      }
      code := RunDayStage(c, day, n, revert);
    }

    method RedisAllow(call: Call, revert: bool) returns (code: Option<int>)
      modifies rdb`db
      ensures code.None? <==> call.n <= 0
      ensures code.None? ==> rdb.db == old(rdb.db)
      ensures code.Some? ==> (rdb.db, code.value) ==
                             Script(Mode(PerUnit, revert), old(rdb.db), call.client, DayOf(call), call.n, rdb.now)
    {
      if call.n <= 0 {
        return None;
      }
      var c := RunScript(call.client, DayOf(call), call.n, revert);
      return Some(c);
    }

    method IncreaseAndSetExpire(key: StatKey, value: int, expireTime: int)
      modifies stats`db
      ensures stats.db == if expireTime > 0 then Count(old(stats.db), key, value, expireTime, stats.now)
                          else IncrBy(old(stats.db), key, value, stats.now)
    {
      var result := stats.IncrementBy(key, value);
      if result == value && expireTime > 0 {
        stats.SetExpiry(key, expireTime);
      }
    }

    /** With no other request in between, a call is one `Allow` step, and it adds to the four
        aggregates exactly when the script admitted it. */
    method AllowCall(call: Call) returns (v: Verdict)
      requires rdb as object != stats
      requires rdb.now == stats.now == call.now
      modifies rdb`db, stats`db
      ensures (rdb.db, v) == Allow(LIVE_MODE, whitelist, old(rdb.db), call)
      ensures stats.db == if v == Passed && call.client.apiKey !in whitelist
                          then Tally(old(stats.db), call.client.chain, call.stamp, call.n, call.now)
                          else old(stats.db)
    {
      var inWhitelist := AllowWhitelist(call);
      if inWhitelist {
        return Passed;
      }
      var res := RedisAllow(call, true);
      if res.None? {
        return Failed;
      }
      if res.value == ALLOW && call.n > 0 {
        IncreaseAndSetExpire(ChainHour(call.client.chain, HourIndex(call.stamp)), call.n, 90 * 60000);
        IncreaseAndSetExpire(ChainDay(call.client.chain, DayIndex(call.stamp)), call.n, 36 * HOUR_MS);
        IncreaseAndSetExpire(TotalHour(HourIndex(call.stamp)), call.n, 90 * 60000);
        IncreaseAndSetExpire(TotalDay(DayIndex(call.stamp)), call.n, 36 * HOUR_MS);
      }
      if res.value == NOT_EXIST {
        return Unauthorized;
      }
      if res.value != ALLOW {
        return RateLimited;
      }
      return Passed;
    }
  }
}
