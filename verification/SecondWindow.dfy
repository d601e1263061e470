/** What the second counter guarantees over whole runs: a bound on every time interval. */
module SecondWindow {
  import opened Redis
  import opened LimiterKeys
  import opened RateLimit
  import opened Isolation

  function InInterval(c: Client, lo: int, hi: int): Call -> bool {
    (x: Call) => x.client == c && lo <= x.now < hi
  }

  /** How many windows of at least a second can open in [from, hi). */
  function WindowsIn(from: int, hi: int): nat {
    if from >= hi then 0 else (hi - from + 999) / 1000
  }

  predicate AtLeastOneSecond(m: Mode) {
    m.window.Fixed? ==> m.window.ms >= 1000
  }

  /** What the limiter can still admit for c before hi, once the clock has reached t. */
  function Budget(db: Db<string>, c: Client, q: nat, t: int, hi: int): int {
    if Live(db, SecKey(c), t) then
      var e := db[SecKey(c)];
      (if e.value <= q then q - e.value else 0) +
      (if e.expireAt.Some? then q * WindowsIn(e.expireAt.value, hi) else 0)
    else
      q * WindowsIn(t, hi)
  }

  /** The second counter only ever grows from an admitted or rejected positive amount. */
  predicate Sound(db: Db<string>, c: Client) {
    SecKey(c) in db ==> db[SecKey(c)].value >= 1
  }

  lemma MulMono(q: nat, a: nat, b: nat)
    requires a <= b
    ensures q * a <= q * b
  {
  }

  lemma MulNext(q: nat, a: nat, b: nat)
    requires a + 1 <= b
    ensures q * a + q <= q * b
  {
    assert q * a + q == q * (a + 1);
    MulMono(q, a + 1, b);
  }

  /** Time passing cannot raise the budget. */
  lemma BudgetAges(db: Db<string>, c: Client, q: nat, t: int, t': int, hi: int)
    requires t <= t'
    ensures Budget(db, c, q, t', hi) <= Budget(db, c, q, t, hi)
  {
    MulMono(q, WindowsIn(t', hi), WindowsIn(t, hi));
    if Live(db, SecKey(c), t) && !Live(db, SecKey(c), t') {
      MulMono(q, WindowsIn(t', hi), WindowsIn(db[SecKey(c)].expireAt.value, hi));
    }
  }

  /** What one call does to its client's second counter. */
  lemma OwnStep(m: Mode, db: Db<string>, c: Client, day: nat, n: int, now: int)
    requires n > 0
    ensures var (db', code) := Script(m, db, c, day, n, now);
            var counted := Count(db, SecKey(c), n, SecondTtl(m.window, n), now);
            && (code == ALLOW ==> Value(db, SecKey(c), now) + n <= Quota(db, SecQuotaKey(c)))
            && (SecKey(c) in db' ==> (SecKey(c) in db && db'[SecKey(c)] == db[SecKey(c)]) || db'[SecKey(c)] == counted[SecKey(c)])
            && (code == ALLOW ==> SecKey(c) in db' && db'[SecKey(c)] == counted[SecKey(c)])
            && (SecKey(c) in db ==> SecKey(c) in db')
  {
    FamiliesDisjoint(c, c, day);
  }

  lemma CountedBudget(m: Mode, db: Db<string>, c: Client, q: nat, n: int, t: int, hi: int)
    requires AtLeastOneSecond(m) && Sound(db, c) && n > 0 && t < hi
    ensures var counted := Count(db, SecKey(c), n, SecondTtl(m.window, n), t);
            && Sound(counted, c)
            && Budget(counted, c, q, t, hi) + (if Value(db, SecKey(c), t) + n <= q then n else 0) <= Budget(db, c, q, t, hi)
  {
    var k, ttl := SecKey(c), SecondTtl(m.window, n);
    var counted := Count(db, k, n, ttl, t);
    assert ttl >= 1000;
    if !Live(db, k, t) {
      assert counted[k] == Entry(n, Some(t + ttl));
      MulNext(q, WindowsIn(t + ttl, hi), WindowsIn(t, hi));
    }
  }

  /** One step: the admitted units come out of the budget. */
  lemma BudgetStep(m: Mode, whitelist: seq<string>, db: Db<string>, call: Call, c: Client, q: nat, t: int, hi: int)
    requires AtLeastOneSecond(m) && c.apiKey !in whitelist && Sound(db, c)
    requires q == Quota(db, SecQuotaKey(c)) && t <= call.now < hi
    ensures var (db', v) := Allow(m, whitelist, db, call);
            && Sound(db', c)
            && Budget(db', c, q, call.now, hi) + (if v == Passed && call.client == c then call.n else 0)
               <= Budget(db, c, q, t, hi)
  {
    var (db', v) := Allow(m, whitelist, db, call);
    BudgetAges(db, c, q, t, call.now, hi);
    if call.client == c && call.n > 0 {
      OwnStep(m, db, c, DayOf(call), call.n, call.now);
      CountedBudget(m, db, c, q, call.n, call.now, hi);
    } else if call.client != c {
      KeysInjective(c, call.client, 0, 0);
      FamiliesDisjoint(c, call.client, DayOf(call));
      Frame(m, whitelist, db, call, SecKey(c));
    }
  }

  /** Nothing is admitted in an interval that is over. */
  lemma {:induction false} NoneAfter(m: Mode, whitelist: seq<string>, db: Db<string>, calls: seq<Call>,
                                     c: Client, t: int, lo: int, hi: int)
    requires Ordered(calls, t) && t >= hi
    ensures Admitted(m, whitelist, db, calls, InInterval(c, lo, hi)) == 0
    decreases calls
  {
    if calls != [] {
      NoneAfter(m, whitelist, Allow(m, whitelist, db, calls[0]).0, calls[1..], c, calls[0].now, lo, hi);
    }
  }

  lemma {:induction false} BudgetRun(m: Mode, whitelist: seq<string>, db: Db<string>, calls: seq<Call>,
                                     c: Client, q: nat, t: int, lo: int, hi: int)
    requires AtLeastOneSecond(m) && c.apiKey !in whitelist && Sound(db, c)
    requires q == Quota(db, SecQuotaKey(c)) && Ordered(calls, t)
    ensures Admitted(m, whitelist, db, calls, InInterval(c, lo, hi)) <= Budget(db, c, q, t, hi)
    decreases calls
  {
    if calls != [] {
      var call, db' := calls[0], Allow(m, whitelist, db, calls[0]).0;
      if call.now >= hi {
        NoneAfter(m, whitelist, db', calls[1..], c, call.now, lo, hi);
      } else {
        BudgetStep(m, whitelist, db, call, c, q, t, hi);
        QuotasFixed(m, whitelist, db, call, c);
        BudgetRun(m, whitelist, db', calls[1..], c, q, call.now, lo, hi);
      }
    }
  }

  /** The most a client can get through in an interval of so many seconds. */
  function Most(q: nat, seconds: nat): int {
    if q == 0 then 0 else (seconds + 1) * q - 1
  }

  /** In any half-open interval of T seconds of any run, a client that is not whitelisted is
      admitted fewer than T + 1 second quotas, whatever other clients do meanwhile. */
  lemma {:induction false} IntervalBound(m: Mode, whitelist: seq<string>, db: Db<string>, calls: seq<Call>,
                                         c: Client, since: int, lo: int, seconds: nat)
    requires AtLeastOneSecond(m) && c.apiKey !in whitelist && Sound(db, c)
    requires Ordered(calls, since) && seconds >= 1
    ensures Admitted(m, whitelist, db, calls, InInterval(c, lo, lo + 1000 * seconds))
            <= Most(Quota(db, SecQuotaKey(c)), seconds)
    decreases calls
  {
    var q, hi := Quota(db, SecQuotaKey(c)), lo + 1000 * seconds;
    if calls == [] {
      MulMono(q, 1, seconds + 1);
    } else if calls[0].now < lo {
      QuotasFixed(m, whitelist, db, calls[0], c);
      BudgetStep(m, whitelist, db, calls[0], c, q, calls[0].now, hi);
      IntervalBound(m, whitelist, Allow(m, whitelist, db, calls[0]).0, calls[1..], c, calls[0].now, lo, seconds);
    } else {
      BudgetRun(m, whitelist, db, calls, c, q, lo, lo, hi);
      OpeningBudget(db, c, q, lo, seconds);
    }
  }

  /** At the start of an interval at most one inherited window is open. */
  lemma OpeningBudget(db: Db<string>, c: Client, q: nat, lo: int, seconds: nat)
    requires Sound(db, c) && seconds >= 1
    ensures Budget(db, c, q, lo, lo + 1000 * seconds) <= Most(q, seconds)
  {
    var hi := lo + 1000 * seconds;
    assert WindowsIn(lo, hi) == seconds;
    assert (seconds + 1) * q == q * seconds + q;
    if Live(db, SecKey(c), lo) && db[SecKey(c)].expireAt.Some? {
      MulMono(q, WindowsIn(db[SecKey(c)].expireAt.value, hi), seconds);
    } else {
      MulMono(q, 0, seconds);
    }
  }

  // ---- The bound is exact ----

  /** A unit that opens a window, then the rest of the quota in the same instant. */
  function Burst(c: Client, q: nat, stamp: nat, t: int): seq<Call> {
    [Call(c, 1, stamp, t), Call(c, q - 1, stamp, t)]
  }

  /** One burst each time the one-second window of the previous burst is over. */
  function Bursts(c: Client, q: nat, stamp: nat, t: int, k: nat): seq<Call>
    decreases k
  {
    if k == 0 then [] else Burst(c, q, stamp, t) + Bursts(c, q, stamp, t + 1000, k - 1)
  }

  /** c has quotas q and dayQuota, no open window at t, and at most spent units on its day counter. */
  predicate Ready(db: Db<string>, c: Client, day: nat, q: nat, dayQuota: int, t: int, spent: int) {
    && SecQuotaKey(c) in db && db[SecQuotaKey(c)] == Entry(q, None)
    && DayQuotaKey(c) in db && db[DayQuotaKey(c)] == Entry(dayQuota, None)
    && !Live(db, SecKey(c), t)
    && (DayKey(c, day) in db ==> 0 <= db[DayKey(c, day)].value <= spent)
  }

  lemma BurstPasses(whitelist: seq<string>, db: Db<string>, c: Client, q: nat, dayQuota: int,
                    stamp: nat, t: int, spent: nat)
    requires q >= 1 && c.apiKey !in whitelist
    requires Ready(db, c, DayOf(Call(c, 1, stamp, t)), q, dayQuota, t, spent) && spent + q <= dayQuota
    ensures var calls := Burst(c, q, stamp, t);
            var (db1, v1) := Allow(LIVE_MODE, whitelist, db, calls[0]);
            var (db2, v2) := Allow(LIVE_MODE, whitelist, db1, calls[1]);
            && v1 == Passed && (v2 == Passed || q == 1)
            && Ready(db2, c, DayOf(calls[0]), q, dayQuota, t + 1000, spent + q)
  {
    hide DayKey, DayQuotaKey, SecKey, SecQuotaKey, DayOf, Allow;
    var first, second := Call(c, 1, stamp, t), Call(c, q - 1, stamp, t);
    SameDay(first, second);
    PassesIf(whitelist, db, first, q, dayQuota);
    if q > 1 {
      PassesIf(whitelist, Allow(LIVE_MODE, whitelist, db, first).0, second, q, dayQuota);
    } else {
      RefusesNothing(whitelist, Allow(LIVE_MODE, whitelist, db, first).0, second);
    }
  }

  lemma SameDay(x: Call, y: Call)
    requires x.stamp == y.stamp
    ensures DayOf(x) == DayOf(y)
  {
  }

  /** A call for no units fails and changes nothing. */
  lemma RefusesNothing(whitelist: seq<string>, db: Db<string>, call: Call)
    requires call.client.apiKey !in whitelist && call.n <= 0
    ensures Allow(LIVE_MODE, whitelist, db, call) == (db, Failed)
  {
  }

  lemma BurstAdmits(whitelist: seq<string>, db: Db<string>, c: Client, q: nat, dayQuota: int,
                    stamp: nat, t: int, spent: nat, rest: seq<Call>, lo: int, hi: int)
    returns (db2: Db<string>)
    requires q >= 1 && c.apiKey !in whitelist && lo <= t < hi
    requires Ready(db, c, DayOf(Call(c, 1, stamp, t)), q, dayQuota, t, spent) && spent + q <= dayQuota
    ensures Ready(db2, c, DayOf(Call(c, 1, stamp, t)), q, dayQuota, t + 1000, spent + q)
    ensures Admitted(LIVE_MODE, whitelist, db, Burst(c, q, stamp, t) + rest, InInterval(c, lo, hi)) ==
            q + Admitted(LIVE_MODE, whitelist, db2, rest, InInterval(c, lo, hi))
  {
    var calls := Burst(c, q, stamp, t);
    BurstPasses(whitelist, db, c, q, dayQuota, stamp, t, spent);
    AdmittedTwo(LIVE_MODE, whitelist, db, calls[0], calls[1], rest, InInterval(c, lo, hi));
    db2 := Allow(LIVE_MODE, whitelist, Allow(LIVE_MODE, whitelist, db, calls[0]).0, calls[1]).0;
  }

  lemma {:induction false} BurstsPass(whitelist: seq<string>, db: Db<string>, c: Client, q: nat, dayQuota: int,
                                      stamp: nat, t: int, k: nat, spent: nat, lo: int, hi: int)
    requires q >= 1 && c.apiKey !in whitelist && lo <= t && t + 1000 * k < hi + 1000
    requires Ready(db, c, DayOf(Call(c, 1, stamp, t)), q, dayQuota, t, spent) && spent + q * k <= dayQuota
    ensures Admitted(LIVE_MODE, whitelist, db, Bursts(c, q, stamp, t, k), InInterval(c, lo, hi)) == q * k
    decreases k
  {
    hide Allow;
    if k > 0 {
      MulNext(q, k - 1, k);
      MulMono(q, 0, k - 1);
      assert q * k == q * (k - 1) + q;
      var rest := Bursts(c, q, stamp, t + 1000, k - 1);
      var db2 := BurstAdmits(whitelist, db, c, q, dayQuota, stamp, t, spent, rest, lo, hi);
      BurstsPass(whitelist, db2, c, q, dayQuota, stamp, t + 1000, k - 1, spent + q, lo, hi);
    }
  }

  lemma {:induction false} BurstsOrdered(c: Client, q: nat, stamp: nat, t: int, k: nat)
    ensures Ordered(Bursts(c, q, stamp, t, k), t)
    decreases k
  {
    if k > 0 {
      var rest := Bursts(c, q, stamp, t + 1000, k - 1);
      BurstsOrdered(c, q, stamp, t + 1000, k - 1);
      assert (Burst(c, q, stamp, t) + rest)[1..][1..] == rest;
      OrderedEarlier(rest, t, t + 1000);
    }
  }

  lemma OrderedEarlier(calls: seq<Call>, t: int, t': int)
    requires t <= t' && Ordered(calls, t')
    ensures Ordered(calls, t)
  {
  }

  /** A burst straddling lo: its opening unit comes just too early to count. */
  function Straddle(c: Client, q: nat, lo: nat): seq<Call> {
    [Call(c, 1, lo, lo - 1), Call(c, q - 1, lo, lo)]
  }

  lemma StraddlePasses(db: Db<string>, c: Client, q: nat, dayQuota: int, lo: nat)
    requires q >= 1 && dayQuota >= q
    requires db == map[SecQuotaKey(c) := Entry(q, None), DayQuotaKey(c) := Entry(dayQuota, None)]
    ensures var calls := Straddle(c, q, lo);
            var (db1, v1) := Allow(LIVE_MODE, [], db, calls[0]);
            var (db2, v2) := Allow(LIVE_MODE, [], db1, calls[1]);
            && v1 == Passed && (v2 == Passed || q == 1)
            && Ready(db2, c, DayOf(calls[0]), q, dayQuota, lo + 999, q)
  {
    hide DayKey, DayQuotaKey, SecKey, SecQuotaKey, DayOf, Allow;
    var calls := Straddle(c, q, lo);
    FamiliesDisjoint(c, c, DayOf(calls[0]));
    SameDay(calls[0], calls[1]);
    PassesIf([], db, calls[0], q, dayQuota);
    if q > 1 {
      PassesIf([], Allow(LIVE_MODE, [], db, calls[0]).0, calls[1], q, dayQuota);
    } else {
      RefusesNothing([], Allow(LIVE_MODE, [], db, calls[0]).0, calls[1]);
    }
  }

  lemma StraddleAdmits(db: Db<string>, c: Client, q: nat, dayQuota: int, lo: nat, rest: seq<Call>, hi: int)
    returns (db2: Db<string>)
    requires q >= 1 && dayQuota >= q && lo < hi
    requires db == map[SecQuotaKey(c) := Entry(q, None), DayQuotaKey(c) := Entry(dayQuota, None)]
    ensures Ready(db2, c, DayOf(Call(c, 1, lo, lo - 1)), q, dayQuota, lo + 999, q)
    ensures Admitted(LIVE_MODE, [], db, Straddle(c, q, lo) + rest, InInterval(c, lo, hi)) ==
            q - 1 + Admitted(LIVE_MODE, [], db2, rest, InInterval(c, lo, hi))
  {
    var calls := Straddle(c, q, lo);
    StraddlePasses(db, c, q, dayQuota, lo);
    AdmittedTwo(LIVE_MODE, [], db, calls[0], calls[1], rest, InInterval(c, lo, hi));
    db2 := Allow(LIVE_MODE, [], Allow(LIVE_MODE, [], db, calls[0]).0, calls[1]).0;
  }

  lemma StraddleOrdered(c: Client, q: nat, lo: nat, rest: seq<Call>)
    requires Ordered(rest, lo)
    ensures Ordered(Straddle(c, q, lo) + rest, lo - 1)
  {
  }

  lemma MostSplit(q: nat, seconds: nat)
    requires q >= 1
    ensures Most(q, seconds) == q - 1 + q * seconds
  {
  }

  /** For every quota and every interval length the bound of `IntervalBound` is reached. */
  lemma IntervalBoundReached(c: Client, q: nat, dayQuota: int, lo: nat, seconds: nat)
    requires q >= 1 && seconds >= 1 && dayQuota >= q + q * seconds
    ensures var db, calls := BareQuotas(c, q, dayQuota), Straddle(c, q, lo) + Bursts(c, q, lo, lo + 999, seconds);
            && Ordered(calls, lo - 1)
            && Admitted(LIVE_MODE, [], db, calls, InInterval(c, lo, lo + 1000 * seconds)) == Most(q, seconds)
  {
    hide Allow;
    MulMono(q, 0, seconds);
    var hi, rest := lo + 1000 * seconds, Bursts(c, q, lo, lo + 999, seconds);
    var db2 := StraddleAdmits(BareQuotas(c, q, dayQuota), c, q, dayQuota, lo, rest, hi);
    BurstsPass([], db2, c, q, dayQuota, lo, lo + 999, seconds, q, lo, hi);
    BurstsOrdered(c, q, lo, lo + 999, seconds);
    OrderedEarlier(rest, lo, lo + 999);
    StraddleOrdered(c, q, lo, rest);
    MostSplit(q, seconds);
  }

  // ---- What the counter holds while its window is open ----

  /** The call gets to the second counter. */
  predicate Counted(whitelist: seq<string>, db: Db<string>, call: Call, c: Client) {
    call.client == c && c.apiKey !in whitelist && call.n > 0 && Live(db, SecQuotaKey(c), call.now)
  }

  /** Units of all calls of c that get to the second counter, admitted or not. */
  function Asked(m: Mode, whitelist: seq<string>, db: Db<string>, calls: seq<Call>, c: Client): nat
    decreases calls
  {
    if calls == [] then 0 else
      (if Counted(whitelist, db, calls[0], c) then calls[0].n else 0) +
      Asked(m, whitelist, Allow(m, whitelist, db, calls[0]).0, calls[1..], c)
  }

  predicate Open(db: Db<string>, c: Client, units: nat, end: int) {
    units >= 1 && SecKey(c) in db && db[SecKey(c)] == Entry(units, Some(end))
  }

  lemma OpenStep(m: Mode, whitelist: seq<string>, db: Db<string>, call: Call, c: Client, units: nat, end: int)
    requires c.apiKey !in whitelist && Open(db, c, units, end) && call.now < end
    ensures Open(Allow(m, whitelist, db, call).0, c, units + (if Counted(whitelist, db, call, c) then call.n else 0), end)
  {
    hide SecKey, DayKey, SecQuotaKey, DayQuotaKey, DayOf;
    FamiliesDisjoint(c, c, DayOf(call));
    if call.client != c {
      KeysInjective(c, call.client, 0, 0);
      FamiliesDisjoint(c, call.client, DayOf(call));
      Frame(m, whitelist, db, call, SecKey(c));
    }
  }

  lemma {:induction false} OpenRun(m: Mode, whitelist: seq<string>, db: Db<string>, calls: seq<Call>, c: Client,
                                   units: nat, end: int)
    requires c.apiKey !in whitelist && Open(db, c, units, end)
    requires forall x | x in calls :: x.now < end
    ensures Open(After(m, whitelist, db, calls), c, units + Asked(m, whitelist, db, calls, c), end)
    decreases calls
  {
    if calls != [] {
      hide Allow, Open;
      var db' := Allow(m, whitelist, db, calls[0]).0;
      OpenStep(m, whitelist, db, calls[0], c, units, end);
      var n := if Counted(whitelist, db, calls[0], c) then calls[0].n else 0;
      OpenRun(m, whitelist, db', calls[1..], c, units + n, end);
    }
  }

  /** Until the window closes the counter holds the units of all calls since it opened, rejected ones
      included; and a call is turned down for the second exactly when they no longer fit the quota. */
  lemma WindowLaw(m: Mode, whitelist: seq<string>, db: Db<string>, calls: seq<Call>, x: Call, units: nat, end: int)
    requires x.client.apiKey !in whitelist && Open(db, x.client, units, end)
    requires x.now < end && (forall y | y in calls :: y.now < end)
    requires Counted(whitelist, After(m, whitelist, db, calls), x, x.client)
    ensures var db' := After(m, whitelist, db, calls);
            var asked := units + Asked(m, whitelist, db, calls, x.client) + x.n;
            && (Code(m, whitelist, db', x) == Some(EXCEED_SECOND_LIMIT) <==> asked > db'[SecQuotaKey(x.client)].value)
            && Value(Allow(m, whitelist, db', x).0, SecKey(x.client), x.now) == asked
  {
    OpenRun(m, whitelist, db, calls, x.client, units, end);
    OpenStep(m, whitelist, After(m, whitelist, db, calls), x, x.client,
             units + Asked(m, whitelist, db, calls, x.client), end);
    hide Allow;
  }
}
