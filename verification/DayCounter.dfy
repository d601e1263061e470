/** One lifetime of a day counter: what it holds, and which calls it lets through. */
module DayCounter {
  import opened Redis
  import opened LimiterKeys
  import opened RateLimit
  import opened Isolation

  /** The call gets past the second counter and finds a day quota. */
  predicate Reaches(whitelist: seq<string>, db: Db<string>, call: Call) {
    var c := call.client;
    && c.apiKey !in whitelist && call.n > 0
    && Live(db, SecQuotaKey(c), call.now) && Value(db, SecKey(c), call.now) + call.n <= db[SecQuotaKey(c)].value
    && Live(db, DayQuotaKey(c), call.now)
  }

  predicate Names(call: Call, c: Client, day: nat) {
    call.client == c && DayOf(call) == day
  }

  /** Units of the calls of a run that reach c's counter for a day of the month. */
  function Asked(m: Mode, whitelist: seq<string>, db: Db<string>, calls: seq<Call>, c: Client, day: nat): (units: nat)
    decreases calls
  {
    if calls == [] then 0 else
      (if Names(calls[0], c, day) && Reaches(whitelist, db, calls[0]) then calls[0].n else 0) +
      Asked(m, whitelist, Allow(m, whitelist, db, calls[0]).0, calls[1..], c, day)
  }

  function LastTime(calls: seq<Call>, t: int): int {
    if calls == [] then t else calls[|calls| - 1].now
  }

  /** What the counter shows after so many units were asked for. */
  function Shown(m: Mode, q: int, asked: int): int {
    if m.revert && asked > q && asked > 0 then q else asked
  }

  predicate Counts(m: Mode, db: Db<string>, k: string, q: int, asked: nat, t: int, from: int) {
    if asked == 0 then !Live(db, k, t) else
      k in db && db[k].value == Shown(m, q, asked) && db[k].expireAt.Some? && db[k].expireAt.value >= from + DAY_COUNTER_TTL
  }

  predicate HasQuota(db: Db<string>, c: Client, q: int) {
    DayQuotaKey(c) in db && db[DayQuotaKey(c)].value == q
  }

  /** Every call belongs to the lifetime that can begin no earlier than `from`. */
  predicate Within(calls: seq<Call>, from: int) {
    forall x | x in calls :: from <= x.now < from + DAY_COUNTER_TTL
  }

  /** The verdict of a call at the day stage, and the counter it leaves. */
  lemma CounterStep(m: Mode, whitelist: seq<string>, db: Db<string>, call: Call, c: Client, day: nat,
                    q: int, asked: nat, t: int, from: int)
    requires c.apiKey !in whitelist && HasQuota(db, c, q) && from <= t <= call.now < from + DAY_COUNTER_TTL
    requires Counts(m, db, DayKey(c, day), q, asked, t, from)
    ensures var (db', v) := Allow(m, whitelist, db, call);
            var hit := Names(call, c, day) && Reaches(whitelist, db, call);
            && HasQuota(db', c, q)
            && Counts(m, db', DayKey(c, day), q, asked + (if hit then call.n else 0), call.now, from)
            && (hit ==> v == if asked + call.n <= q then Passed else RateLimited)
  {
    hide DayKey, DayQuotaKey, SecKey, SecQuotaKey, DayOf;
    KeysInjective(c, call.client, day, DayOf(call));
    FamiliesDisjoint(c, c, day);
    FamiliesDisjoint(c, call.client, DayOf(call));
    FamiliesDisjoint(call.client, c, day);
    FamiliesDisjoint(call.client, call.client, DayOf(call));
    if Names(call, c, day) {
      OwnCounterStep(m, whitelist, db, call, q, asked, t, from);
    } else {
      hide Allow;
      Frame(m, whitelist, db, call, DayQuotaKey(c));
      Frame(m, whitelist, db, call, DayKey(c, day));
    }
  }

  lemma OwnCounterStep(m: Mode, whitelist: seq<string>, db: Db<string>, call: Call,
                       q: int, asked: nat, t: int, from: int)
    requires call.client.apiKey !in whitelist && HasQuota(db, call.client, q)
    requires from <= t <= call.now < from + DAY_COUNTER_TTL
    requires Counts(m, db, DayKey(call.client, DayOf(call)), q, asked, t, from)
    ensures var (db', v) := Allow(m, whitelist, db, call);
            var hit := Reaches(whitelist, db, call);
            && HasQuota(db', call.client, q)
            && Counts(m, db', DayKey(call.client, DayOf(call)), q, asked + (if hit then call.n else 0), call.now, from)
            && (hit ==> v == if asked + call.n <= q then Passed else RateLimited)
  {
    hide DayKey, DayQuotaKey, SecKey, SecQuotaKey, DayOf;
    var c := call.client;
    FamiliesDisjoint(c, c, DayOf(call));
    if Reaches(whitelist, db, call) {
      var counted := Count(db, SecKey(c), call.n, SecondTtl(m.window, call.n), call.now);
      assert Allow(m, whitelist, db, call).0 == DayStage(m, counted, c, DayOf(call), call.n, call.now).0;
    }
  }

  lemma {:induction false} CounterRun(m: Mode, whitelist: seq<string>, db: Db<string>, calls: seq<Call>, c: Client,
                                      day: nat, q: int, asked: nat, t: int, from: int)
    requires c.apiKey !in whitelist && HasQuota(db, c, q) && from <= t
    requires Ordered(calls, t) && Within(calls, from)
    requires Counts(m, db, DayKey(c, day), q, asked, t, from)
    ensures HasQuota(After(m, whitelist, db, calls), c, q)
    ensures Counts(m, After(m, whitelist, db, calls), DayKey(c, day), q,
                   asked + Asked(m, whitelist, db, calls, c, day), LastTime(calls, t), from)
    decreases calls
  {
    hide Allow, Counts, DayKey;
    if calls != [] {
      var call, db' := calls[0], Allow(m, whitelist, db, calls[0]).0;
      CounterStep(m, whitelist, db, call, c, day, q, asked, t, from);
      var n := if Names(call, c, day) && Reaches(whitelist, db, call) then call.n else 0;
      CounterRun(m, whitelist, db', calls[1..], c, day, q, asked + n, call.now, from);
      assert LastTime(calls, t) == LastTime(calls[1..], call.now);
    }
  }

  /** Within one lifetime of a day counter: after any calls, the counter is the sum of all units asked
      for, clamped to the quota when reverting; and the next call that reaches it is admitted exactly
      when that sum, itself included, still fits the quota. */
  lemma LifetimeLaw(m: Mode, whitelist: seq<string>, db: Db<string>, calls: seq<Call>, x: Call, q: int, from: int)
    requires x.client.apiKey !in whitelist && HasQuota(db, x.client, q)
    requires !Live(db, DayKey(x.client, DayOf(x)), from)
    requires Ordered(calls + [x], from) && Within(calls + [x], from)
    requires Reaches(whitelist, After(m, whitelist, db, calls), x)
    ensures var asked := Asked(m, whitelist, db, calls, x.client, DayOf(x));
            var (db', v) := Allow(m, whitelist, After(m, whitelist, db, calls), x);
            && Value(After(m, whitelist, db, calls), DayKey(x.client, DayOf(x)), x.now) == Shown(m, q, asked)
            && Value(db', DayKey(x.client, DayOf(x)), x.now) == Shown(m, q, asked + x.n)
            && v == if asked + x.n <= q then Passed else RateLimited
  {
    hide Allow, DayKey, Reaches;
    OrderedSplit(calls, [x], from);
    assert x in calls + [x];
    assert Within(calls, from) by {
      assert forall y | y in calls :: y in calls + [x];
    }
    var asked := Asked(m, whitelist, db, calls, x.client, DayOf(x));
    CounterRun(m, whitelist, db, calls, x.client, DayOf(x), q, 0, from, from);
    CounterStep(m, whitelist, After(m, whitelist, db, calls), x, x.client, DayOf(x), q, asked,
                LastTime(calls, from), from);
  }

  lemma {:induction false} OrderedSplit(a: seq<Call>, b: seq<Call>, t: int)
    requires Ordered(a + b, t)
    ensures Ordered(a, t) && Ordered(b, LastTime(a, t)) && t <= LastTime(a, t)
    decreases a
  {
    if a == [] {
      assert a + b == b;
    } else {
      assert (a + b)[1..] == a[1..] + b;
      OrderedSplit(a[1..], b, a[0].now);
    }
  }

  lemma {:induction false} AskedSplit(m: Mode, whitelist: seq<string>, db: Db<string>, a: seq<Call>, b: seq<Call>,
                                      c: Client, day: nat)
    ensures Asked(m, whitelist, db, a + b, c, day) ==
            Asked(m, whitelist, db, a, c, day) + Asked(m, whitelist, After(m, whitelist, db, a), b, c, day)
    decreases a
  {
    hide Allow, Reaches;
    if a == [] {
      assert a + b == b;
    } else {
      assert (a + b)[1..] == a[1..] + b;
      AskedSplit(m, whitelist, Allow(m, whitelist, db, a[0]).0, a[1..], b, c, day);
    }
  }

  /** After one rejection at the day stage, no later call of the lifetime is admitted, however small. */
  lemma RejectedForGood(m: Mode, whitelist: seq<string>, db: Db<string>, before: seq<Call>, x: Call,
                        between: seq<Call>, y: Call, q: int, from: int)
    requires x.client.apiKey !in whitelist && HasQuota(db, x.client, q)
    requires Names(y, x.client, DayOf(x)) && !Live(db, DayKey(x.client, DayOf(x)), from)
    requires Ordered(before + [x] + between + [y], from) && Within(before + [x] + between + [y], from)
    requires Reaches(whitelist, After(m, whitelist, db, before), x)
    requires Allow(m, whitelist, After(m, whitelist, db, before), x).1 != Passed
    requires Reaches(whitelist, After(m, whitelist, db, before + [x] + between), y)
    ensures Allow(m, whitelist, After(m, whitelist, db, before + [x] + between), y).1 == RateLimited
  {
    hide Allow, DayKey;
    var all := before + [x] + between + [y];
    assert all == (before + [x]) + (between + [y]);
    OrderedSplit(before + [x], between + [y], from);
    assert Within(before + [x], from) by {
      assert forall z | z in before + [x] :: z in all;
    }
    LifetimeLaw(m, whitelist, db, before, x, q, from);
    LifetimeLaw(m, whitelist, db, before + [x] + between, y, q, from);
    AskedSplit(m, whitelist, db, before + [x], between, x.client, DayOf(x));
    AskedSplit(m, whitelist, db, before, [x], x.client, DayOf(x));
    var c, day, db1 := x.client, DayOf(x), After(m, whitelist, db, before);
    assert [x][1..] == [];
    assert Asked(m, whitelist, db1, [x], c, day) == x.n;
  }
}
