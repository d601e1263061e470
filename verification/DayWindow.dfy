/** What the day counter guarantees over whole runs, although its key holds only the day of the month. */
module DayWindow {
  import opened Redis
  import opened LimiterKeys
  import opened Calendar
  import opened RateLimit
  import opened Isolation

  /** The clock the service stamps calls with and the clock of Redis may differ by up to six hours,
      network latency included. */
  const SKEW := 6 * HOUR_MS

  predicate InStep(call: Call) {
    -SKEW <= call.now - call.stamp <= SKEW
  }

  predicate Synchronised(calls: seq<Call>) {
    forall x | x in calls :: InStep(x)
  }

  function OnDay(c: Client, day: nat): Call -> bool {
    (x: Call) => x.client == c && DayIndex(x.stamp) == day
  }

  /** The times at which Redis can run a call stamped with the given day. */
  function Opens(day: nat): int {
    day * DAY_MS - SKEW
  }

  function Closes(day: nat): int {
    (day + 1) * DAY_MS + SKEW
  }

  function CounterOf(c: Client, day: nat): string {
    DayKey(c, DayOfMonth(day))
  }

  /** The quota as stored, if any; it may even be negative. */
  function Stored(db: Db<string>, c: Client): int {
    if DayQuotaKey(c) in db then db[DayQuotaKey(c)].value else 0
  }

  /** The counter the given day will find: gone before the day opens, or alive until it closes. */
  predicate Sound(db: Db<string>, c: Client, day: nat, t: int) {
    var k := CounterOf(c, day);
    k in db ==>
      && db[k].expireAt.Some?
      && db[k].expireAt.value <= t + DAY_COUNTER_TTL
      && (db[k].expireAt.value <= Opens(day) ||
          (db[k].expireAt.value >= Closes(day) &&
           (db[k].value >= 0 || (Stored(db, c) < 0 && db[k].value >= Stored(db, c)))))
  }

  /** What is left of the quota for that day. */
  function Budget(db: Db<string>, c: Client, day: nat): nat {
    var k, q := CounterOf(c, day), Quota(db, DayQuotaKey(c));
    if k in db && db[k].expireAt.Some? && db[k].expireAt.value >= Closes(day) then
      (if 0 <= db[k].value <= q then q - db[k].value else 0)
    else q
  }

  /** What one call does to the day counter it names. */
  lemma OwnStep(m: Mode, whitelist: seq<string>, db: Db<string>, call: Call)
    requires call.client.apiKey !in whitelist
    ensures var (db', v) := Allow(m, whitelist, db, call);
            var k, q := DayKey(call.client, DayOf(call)), Stored(db, call.client);
            var counted := Count(db, k, call.n, DAY_COUNTER_TTL, call.now);
            || (v != Passed && SameAt(db', db, k))
            || (call.n > 0 && v == Passed && Value(db, k, call.now) + call.n <= q &&
                DayQuotaKey(call.client) in db && SameAt(db', counted, k))
            || (call.n > 0 && v != Passed && Value(db, k, call.now) + call.n > q && SameAt(db', counted, k))
            || (call.n > 0 && v != Passed && Value(db, k, call.now) + call.n > q &&
                k in db' && db'[k] == counted[k].(value := q))
  {
    FamiliesDisjoint(call.client, call.client, DayOf(call));
  }

  /** Days that share a day-of-month number are too far apart to share a counter. */
  lemma DaysApart(call: Call, day: nat)
    requires InStep(call) && DayOfMonth(DayIndex(call.stamp)) == DayOfMonth(day)
    ensures DayIndex(call.stamp) < day ==> call.now + DAY_COUNTER_TTL <= Opens(day)
    ensures DayIndex(call.stamp) == day ==> Opens(day) <= call.now < Closes(day)
    ensures DayIndex(call.stamp) > day ==> call.now >= Closes(day)
  {
    var d := DayIndex(call.stamp);
    assert d * DAY_MS <= call.stamp < (d + 1) * DAY_MS;
    if d < day {
      RecursAfter28Days(d, day);
    } else if d > day {
      RecursAfter28Days(day, d);
    }
  }

  lemma DayStep(m: Mode, whitelist: seq<string>, db: Db<string>, call: Call, c: Client, day: nat, t: int)
    requires c.apiKey !in whitelist && InStep(call) && Sound(db, c, day, t)
    requires t <= call.now < Closes(day)
    ensures var (db', v) := Allow(m, whitelist, db, call);
            && Sound(db', c, day, call.now)
            && Budget(db', c, day) + (if v == Passed && OnDay(c, day)(call) then call.n else 0) <= Budget(db, c, day)
  {
    hide Allow, DayKey, DayQuotaKey, SecKey, SecQuotaKey, DayOfMonth;
    var (db', v) := Allow(m, whitelist, db, call);
    var k := CounterOf(c, day);
    KeysInjective(c, call.client, DayOfMonth(day), DayOf(call));
    FamiliesDisjoint(c, c, DayOfMonth(day));
    FamiliesDisjoint(call.client, c, DayOfMonth(day));
    FamiliesDisjoint(c, call.client, DayOf(call));
    Frame(m, whitelist, db, call, DayQuotaKey(c));
    if DayKey(call.client, DayOf(call)) == k {
      OwnStep(m, whitelist, db, call);
      DaysApart(call, day);
    } else {
      Frame(m, whitelist, db, call, k);
    }
  }

  lemma {:induction false} NoneAfter(m: Mode, whitelist: seq<string>, db: Db<string>, calls: seq<Call>,
                                     c: Client, day: nat, t: int)
    requires Ordered(calls, t) && Synchronised(calls) && t >= Closes(day)
    ensures Admitted(m, whitelist, db, calls, OnDay(c, day)) == 0
    decreases calls
  {
    if calls != [] {
      hide Allow;
      DaysApartStamp(calls[0], day);
      NoneAfter(m, whitelist, Allow(m, whitelist, db, calls[0]).0, calls[1..], c, day, calls[0].now);
    }
  }

  lemma DaysApartStamp(call: Call, day: nat)
    requires InStep(call) && call.now >= Closes(day)
    ensures DayIndex(call.stamp) != day
  {
  }

  lemma {:induction false} DayRun(m: Mode, whitelist: seq<string>, db: Db<string>, calls: seq<Call>,
                                  c: Client, day: nat, t: int)
    requires c.apiKey !in whitelist && Ordered(calls, t) && Synchronised(calls) && Sound(db, c, day, t)
    ensures Admitted(m, whitelist, db, calls, OnDay(c, day)) <= Budget(db, c, day)
    decreases calls
  {
    if calls != [] {
      hide Allow, Sound, Budget;
      var call, db' := calls[0], Allow(m, whitelist, db, calls[0]).0;
      if call.now >= Closes(day) {
        DaysApartStamp(call, day);
        NoneAfter(m, whitelist, db', calls[1..], c, day, call.now);
      } else {
        DayStep(m, whitelist, db, call, c, day, t);
        DayRun(m, whitelist, db', calls[1..], c, day, call.now);
      }
    }
  }

  /** On every UTC calendar day of every run, a client that is not whitelisted is admitted at most
      its day quota: no counter is shared by two days, and none expires within its day.  The run may
      start from an empty store or from any store the limiter leaves behind (`RunsLeaveSound`). */
  lemma CalendarDayBound(m: Mode, whitelist: seq<string>, db: Db<string>, calls: seq<Call>,
                         c: Client, day: nat, since: int)
    requires c.apiKey !in whitelist && Ordered(calls, since) && Synchronised(calls)
    requires Sound(db, c, day, since)
    ensures Admitted(m, whitelist, db, calls, OnDay(c, day)) <= Quota(db, DayQuotaKey(c))
  {
    DayRun(m, whitelist, db, calls, c, day, since);
  }

  /** A call that names the counter, whitelisted or not, at any time. */
  lemma OwnSound(m: Mode, whitelist: seq<string>, db: Db<string>, call: Call, day: nat, t: int)
    requires InStep(call) && Sound(db, call.client, day, t) && t <= call.now && DayOf(call) == DayOfMonth(day)
    requires call.client.apiKey in whitelist ==> call.n >= 0
    ensures Sound(Allow(m, whitelist, db, call).0, call.client, day, call.now)
  {
    hide DayKey, DayQuotaKey, SecKey, SecQuotaKey, DayOfMonth;
    DaysApart(call, day);
    FamiliesDisjoint(call.client, call.client, DayOf(call));
    Frame(m, whitelist, db, call, DayQuotaKey(call.client));
    if call.client.apiKey !in whitelist {
      hide Allow;
      OwnStep(m, whitelist, db, call);
    }
  }

  lemma SoundStep(m: Mode, whitelist: seq<string>, db: Db<string>, call: Call, c: Client, day: nat, t: int)
    requires InStep(call) && Sound(db, c, day, t) && t <= call.now
    requires call.client.apiKey in whitelist ==> call.n >= 0
    ensures Sound(Allow(m, whitelist, db, call).0, c, day, call.now)
  {
    hide Allow, DayKey, DayQuotaKey, SecKey, SecQuotaKey, DayOfMonth;
    KeysInjective(c, call.client, DayOfMonth(day), DayOf(call));
    if DayKey(call.client, DayOf(call)) == CounterOf(c, day) {
      OwnSound(m, whitelist, db, call, day, t);
    } else {
      FamiliesDisjoint(c, call.client, DayOf(call));
      FamiliesDisjoint(call.client, c, DayOfMonth(day));
      Frame(m, whitelist, db, call, DayQuotaKey(c));
      Frame(m, whitelist, db, call, CounterOf(c, day));
    }
  }

  /** Every run leaves a store the day bound can start from, for every client and every day, past or to
      come; so does one that starts from such a store, as one without the client's counters is. */
  lemma {:induction false} RunsLeaveSound(m: Mode, whitelist: seq<string>, db: Db<string>, calls: seq<Call>,
                                          c: Client, day: nat, since: int)
    requires Ordered(calls, since) && Synchronised(calls)
    requires forall x | x in calls && x.client.apiKey in whitelist :: x.n >= 0
    requires CounterOf(c, day) !in db || Sound(db, c, day, since)
    ensures Sound(After(m, whitelist, db, calls), c, day, if calls == [] then since else calls[|calls| - 1].now)
    decreases calls
  {
    if calls != [] {
      hide Sound;
      SoundStep(m, whitelist, db, calls[0], c, day, since);
      RunsLeaveSound(m, whitelist, Allow(m, whitelist, db, calls[0]).0, calls[1..], c, day, calls[0].now);
    }
  }

  /** Six hours is the most the clocks may disagree: one millisecond more, and a client gets its day
      quota twice on one day. */
  lemma SkewBoundIsExact(c: Client, q: nat, day: nat)
    requires q >= 1
    ensures var early := Call(c, q, day * DAY_MS, day * DAY_MS - SKEW);
            var late := Call(c, q, (day + 1) * DAY_MS - 1, (day + 1) * DAY_MS - 1 + SKEW + 1);
            && InStep(early) && !InStep(late) && late.now - late.stamp == SKEW + 1
            && Admitted(LIVE_MODE, [], BareQuotas(c, 2 * q, q), [early, late], OnDay(c, day)) == 2 * q
  {
    var early := Call(c, q, day * DAY_MS, day * DAY_MS - SKEW);
    var late := Call(c, q, (day + 1) * DAY_MS - 1, (day + 1) * DAY_MS - 1 + SKEW + 1);
    var db := BareQuotas(c, 2 * q, q);
    FamiliesDisjoint(c, c, DayOfMonth(day));
    assert DayOf(early) == DayOf(late) == DayOfMonth(day);
    AdmittedTwo(LIVE_MODE, [], db, early, late, [], OnDay(c, day));
    assert [early, late] + [] == [early, late];
    hide DayKey, DayQuotaKey, SecKey, SecQuotaKey, Allow;
    PassesIf([], db, early, 2 * q, q);
    PassesIf([], Allow(LIVE_MODE, [], db, early).0, late, 2 * q, q);
  }
}
