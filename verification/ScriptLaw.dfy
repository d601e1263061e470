/** The limiter spelled out: what one call reads and writes, in literal key texts and plain numbers. */
module ScriptLaw {
  import opened Redis
  import opened LimiterKeys
  import opened Calendar
  import opened RateLimit

  /** What GET returns. */
  function Shown<K>(db: Db<K>, key: K, now: int): Option<int> {
    if key !in db then None
    else match db[key].expireAt
      case None => Some(db[key].value)
      case Some(at) => if now < at then Some(db[key].value) else None
  }

  function OrZero(v: Option<int>): int {
    if v.Some? then v.value else 0
  }

  /** The counter after INCRBY n, and EXPIRE ttl if it then reads n. */
  function Counted<K>(db: Db<K>, key: K, n: int, ttl: int, now: int): Entry {
    var was := Shown(db, key, now);
    Entry(OrZero(was) + n, if OrZero(was) == 0 then Some(now + ttl) else db[key].expireAt)
  }

  /** The return code, from the two quotas and the two counters as they are before the call. */
  function CodeOf(secQuota: Option<int>, dayQuota: Option<int>, sec: int, day: int, n: int): int {
    if secQuota.None? then -1
    else if sec + n > secQuota.value then -2
    else if dayQuota.None? then -1
    else if day + n > dayQuota.value then -3
    else 1
  }

  /** Nothing changed but the two counters. */
  ghost predicate OnlyAt(db: Db<string>, db': Db<string>, sec: string, day: string) {
    forall key | key != sec && key != day :: (key in db' <==> key in db) && (key in db ==> db'[key] == db[key])
  }

  /** The four keys of a client whose chain reads `chain`, on a day of the month that reads `day`. */
  lemma KeyTexts(chain: string, apiKey: string, day: string)
    requires Numeral(chain) && Numeral(day)
    ensures var c := Client(Parse(chain), apiKey);
            var field := chain + ":{" + apiKey + "}";
            && SecQuotaKey(c) == "q:s:" + field && DayQuotaKey(c) == "q:d:" + field
            && SecKey(c) == "s:" + field && DayKey(c, Parse(day)) == "d:" + field + ":" + day
  {
    DecimalParses(chain);
    DecimalParses(day);
    hide Numeral, Parse, Decimal;
    var c := Client(Parse(chain), apiKey);
    var field := chain + ":{" + apiKey + "}";
    assert chain + ":" + HashTag(apiKey) == field;
    assert DayKey(c, Parse(day)) == "d:" + field + ":" + day;
  }

  lemma CountMeans<K>(db: Db<K>, key: K, n: int, ttl: int, now: int)
    ensures Count(db, key, n, ttl, now) == db[key := Counted(db, key, n, ttl, now)]
    ensures Value(db, key, now) == OrZero(Shown(db, key, now))
  {
  }

  /** What a call leaves at its day key. */
  predicate DayLeft(db: Db<string>, db': Db<string>, key: string, code: int, n: int, quota: Option<int>, revert: bool, now: int) {
    if (code == 1 || code == -3) && quota.Some? then
      var e := Counted(db, key, n, 129600000, now);
      key in db' && db'[key] == if code == -3 && revert then e.(value := quota.value) else e
    else (key in db' <==> key in db) && (key in db ==> db'[key] == db[key])
  }

  predicate SecLeft(db: Db<string>, db': Db<string>, key: string, n: int, quota: Option<int>, ttl: int, now: int) {
    if quota.Some? then key in db' && db'[key] == Counted(db, key, n, ttl, now)
    else (key in db' <==> key in db) && (key in db ==> db'[key] == db[key])
  }

  lemma DayStageMeans(m: Mode, db: Db<string>, c: Client, day: nat, n: int, now: int)
    requires n > 0
    ensures var key, quota := DayKey(c, day), Shown(db, DayQuotaKey(c), now);
            var (db', code) := DayStage(m, db, c, day, n, now);
            && code == (if quota.None? then -1 else if OrZero(Shown(db, key, now)) + n > quota.value then -3 else 1)
            && OnlyAt(db, db', key, key)
            && DayLeft(db, db', key, code, n, quota, m.revert, now)
  {
    FamiliesDisjoint(c, c, day);
    CountMeans(db, DayKey(c, day), n, 129600000, now);
    hide DayKey, DayQuotaKey, Count;
  }

  /** The script on any store: the code it returns, the two counters it leaves, and that it leaves
      everything else alone. */
  lemma ScriptMeans(m: Mode, db: Db<string>, chain: string, apiKey: string, day: string, n: int, now: int)
    requires Numeral(chain) && Numeral(day) && n > 0
    ensures var field := chain + ":{" + apiKey + "}";
            var sec, dayKey := "s:" + field, "d:" + field + ":" + day;
            var secQuota, dayQuota := Shown(db, "q:s:" + field, now), Shown(db, "q:d:" + field, now);
            var (db', code) := Script(m, db, Client(Parse(chain), apiKey), Parse(day), n, now);
            && code == CodeOf(secQuota, dayQuota, OrZero(Shown(db, sec, now)), OrZero(Shown(db, dayKey, now)), n)
            && OnlyAt(db, db', sec, dayKey)
            && SecLeft(db, db', sec, n, secQuota, if m.window.Fixed? then m.window.ms else 1000 * n, now)
            && DayLeft(db, db', dayKey, code, n, dayQuota, m.revert, now)
  {
    KeyTexts(chain, apiKey, day);
    var c := Client(Parse(chain), apiKey);
    hide SecQuotaKey, DayQuotaKey, SecKey, DayKey, Parse, Numeral;
    KeyedScriptMeans(m, db, c, Parse(day), n, now);
  }

  lemma KeyedScriptMeans(m: Mode, db: Db<string>, c: Client, day: nat, n: int, now: int)
    requires n > 0
    ensures var sec, dayKey := SecKey(c), DayKey(c, day);
            var secQuota, dayQuota := Shown(db, SecQuotaKey(c), now), Shown(db, DayQuotaKey(c), now);
            var (db', code) := Script(m, db, c, day, n, now);
            && code == CodeOf(secQuota, dayQuota, OrZero(Shown(db, sec, now)), OrZero(Shown(db, dayKey, now)), n)
            && OnlyAt(db, db', sec, dayKey)
            && SecLeft(db, db', sec, n, secQuota, if m.window.Fixed? then m.window.ms else 1000 * n, now)
            && DayLeft(db, db', dayKey, code, n, dayQuota, m.revert, now)
  {
    FamiliesDisjoint(c, c, day);
    var ttl := SecondTtl(m.window, n);
    CountMeans(db, SecKey(c), n, ttl, now);
    var counted := db[SecKey(c) := Counted(db, SecKey(c), n, ttl, now)];
    DayStageMeans(m, counted, c, day, n, now);
    hide SecQuotaKey, DayQuotaKey, SecKey, DayKey, Count, DayStage, Counted;
  }

  /** A first call on given quotas: -2 exactly beyond the second quota, else -3 exactly beyond the day
      quota, else 1. */
  lemma FirstCallCodes(m: Mode, db: Db<string>, chain: string, apiKey: string, day: string, n: int, now: int,
                       secQuota: int, dayQuota: int)
    requires Numeral(chain) && Numeral(day) && n > 0
    requires var field := chain + ":{" + apiKey + "}";
             && "q:s:" + field in db && db["q:s:" + field] == Entry(secQuota, None)
             && "q:d:" + field in db && db["q:d:" + field] == Entry(dayQuota, None)
             && "s:" + field !in db && "d:" + field + ":" + day !in db
    ensures var code := Script(m, db, Client(Parse(chain), apiKey), Parse(day), n, now).1;
            && (code == -2 <==> n > secQuota)
            && (code == -3 <==> n <= secQuota && n > dayQuota)
            && (code == 1 <==> n <= secQuota && n <= dayQuota)
  {
    ScriptMeans(m, db, chain, apiKey, day, n, now);
  }

  /** What the service makes of a return code. */
  function VerdictOf(code: int): Verdict {
    if code == 1 then Passed else if code == -1 then Unauthorized else RateLimited
  }

  /** A call of the service, made on a date of the calendar: a whitelisted client is counted on the day
      key and passes, a call of nothing fails, and any other runs the script, which reverts. */
  lemma AllowMeans(whitelist: seq<string>, db: Db<string>, call: Call, chain: string, date: Date, day: string)
    requires Numeral(chain) && Parse(chain) == call.client.chain
    requires Valid(date) && DayNumber(date) * 86400000 <= call.stamp < (DayNumber(date) + 1) * 86400000
    requires date.year >= 1970 && Numeral(day) && Parse(day) == date.day
    ensures var field := chain + ":{" + call.client.apiKey + "}";
            var sec, dayKey := "s:" + field, "d:" + field + ":" + day;
            var secQuota, dayQuota := Shown(db, "q:s:" + field, call.now), Shown(db, "q:d:" + field, call.now);
            var code := CodeOf(secQuota, dayQuota, OrZero(Shown(db, sec, call.now)), OrZero(Shown(db, dayKey, call.now)), call.n);
            var (db', v) := Allow(LIVE_MODE, whitelist, db, call);
            if call.client.apiKey in whitelist then
              v == Passed && db' == db[dayKey := Counted(db, dayKey, call.n, 129600000, call.now)]
            else if call.n <= 0 then v == Failed && db' == db
            else
              && v == VerdictOf(code) && OnlyAt(db, db', sec, dayKey)
              && SecLeft(db, db', sec, call.n, secQuota, 1000 * call.n, call.now)
              && DayLeft(db, db', dayKey, code, call.n, dayQuota, true, call.now)
  {
    DayNumberIsDate(date);
    assert DayIndex(call.stamp) == DayNumber(date) && DayOf(call) == Parse(day);
    KeyTexts(chain, call.client.apiKey, day);
    CountMeans(db, DayKey(call.client, DayOf(call)), call.n, 129600000, call.now);
    hide Parse, Numeral, DayKey, DayOf, Counted, Count, Script;
    if call.n > 0 {
      ScriptMeans(LIVE_MODE, db, chain, call.client.apiKey, day, call.n, call.now);
    }
  }

  /** The four aggregate counters of an admitted call: 90 minutes for those of the hour, 36 hours for
      those of the day. */
  lemma TallyMeans(stats: Db<StatKey>, chain: nat, stamp: nat, n: int, now: int)
    ensures var ch, cd := ChainHour(chain, stamp / 3600000), ChainDay(chain, stamp / 86400000);
            var th, td := TotalHour(stamp / 3600000), TotalDay(stamp / 86400000);
            Tally(stats, chain, stamp, n, now) ==
            stats[ch := Counted(stats, ch, n, 5400000, now)][cd := Counted(stats, cd, n, 129600000, now)]
                 [th := Counted(stats, th, n, 5400000, now)][td := Counted(stats, td, n, 129600000, now)]
  {
    var ch, cd := ChainHour(chain, stamp / 3600000), ChainDay(chain, stamp / 86400000);
    var th, td := TotalHour(stamp / 3600000), TotalDay(stamp / 86400000);
    var s1 := stats[ch := Counted(stats, ch, n, 5400000, now)];
    var s2 := s1[cd := Counted(stats, cd, n, 129600000, now)];
    var s3 := s2[th := Counted(stats, th, n, 5400000, now)];
    CountMeans(stats, ch, n, 5400000, now);
    CountMeans(s1, cd, n, 129600000, now);
    CountMeans(s2, th, n, 5400000, now);
    CountMeans(s3, td, n, 129600000, now);
    hide Count;
  }
}
