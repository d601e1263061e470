/** The aggregate counters under concurrency: INCRBY and EXPIRE are separate commands, and the commands
    of many requests interleave. */
module Aggregates {
  import opened Redis
  import opened Calendar
  import opened LimiterKeys
  import opened RateLimit

  /** One call of IncreaseAndSetExpire. */
  datatype Job = Job(key: StatKey, value: int, ttl: int)

  /** A request working through its calls; `expire` is set between its INCRBY and its EXPIRE. */
  datatype Process = Process(stamp: nat, todo: seq<Job>, expire: Option<Job>)

  datatype State = State(db: Db<StatKey>, procs: seq<Process>)

  datatype Event =
    | Admit(chain: nat, stamp: nat, n: int)
    | Start(stamp: nat, jobs: seq<Job>)
    | Increment(pid: nat, now: int)
    | SetExpiry(pid: nat, now: int)

  const EMPTY := State(map[], [])

  /** The calls `Allow` makes after the script admitted n units. */
  function TallyJobs(chain: nat, stamp: nat, n: int): seq<Job> {
    [Job(ChainHour(chain, HourIndex(stamp)), n, HOUR_STAT_TTL),
     Job(ChainDay(chain, DayIndex(stamp)), n, DAY_STAT_TTL),
     Job(TotalHour(HourIndex(stamp)), n, HOUR_STAT_TTL),
     Job(TotalDay(DayIndex(stamp)), n, DAY_STAT_TTL)]
  }

  predicate Positive(j: Job) {
    j.value >= 1 && j.ttl > 0
  }

  predicate StartsPositive(e: Event) {
    e.Start? ==> forall j | j in e.jobs :: Positive(j)
  }

  predicate Enabled(s: State, e: Event) {
    match e
    case Admit(_, _, n) => n >= 1
    case Start(_, _) => true
    case Increment(pid, _) => pid < |s.procs| && s.procs[pid].expire.None? && s.procs[pid].todo != []
    case SetExpiry(pid, _) => pid < |s.procs| && s.procs[pid].expire.Some?
  }

  function Step(s: State, e: Event): State
    requires Enabled(s, e)
  {
    match e
    case Admit(chain, stamp, n) => s.(procs := s.procs + [Process(stamp, TallyJobs(chain, stamp, n), None)])
    case Start(stamp, jobs) => s.(procs := s.procs + [Process(stamp, jobs, None)])
    case Increment(pid, now) =>
      var p := s.procs[pid];
      var j := p.todo[0];
      var result := Value(s.db, j.key, now) + j.value;
      State(IncrBy(s.db, j.key, j.value, now),
            s.procs[pid := p.(todo := p.todo[1..], expire := if result == j.value then Some(j) else None)])
    case SetExpiry(pid, now) =>
      var p := s.procs[pid];
      State(Expire(s.db, p.expire.value.key, p.expire.value.ttl, now), s.procs[pid := p.(expire := None)])
  }

  predicate Possible(s: State, events: seq<Event>)
    decreases events
  {
    events == [] || (Enabled(s, events[0]) && Possible(Step(s, events[0]), events[1..]))
  }

  function Final(s: State, events: seq<Event>): State
    requires Possible(s, events)
    decreases events
  {
    if events == [] then s else Final(Step(s, events[0]), events[1..])
  }

  /** Left alone, the two commands are what `Count` does in one. */
  lemma JobAlone(s: State, pid: nat, now: int)
    requires Enabled(s, Increment(pid, now)) && Positive(s.procs[pid].todo[0])
    ensures var j := s.procs[pid].todo[0];
            var s' := Step(s, Increment(pid, now));
            (if s'.procs[pid].expire.Some? then Step(s', SetExpiry(pid, now)) else s').db
            == Count(s.db, j.key, j.value, j.ttl, now)
  {
  }

  function CountAll(db: Db<StatKey>, jobs: seq<Job>, now: int): Db<StatKey>
    decreases jobs
  {
    if jobs == [] then db else CountAll(Count(db, jobs[0].key, jobs[0].value, jobs[0].ttl, now), jobs[1..], now)
  }

  /** An admitted call that nobody interrupts leaves the same counters as its jobs one by one. */
  lemma TallyIsItsJobs(db: Db<StatKey>, chain: nat, stamp: nat, n: int, now: int)
    ensures Tally(db, chain, stamp, n, now) == CountAll(db, TallyJobs(chain, stamp, n), now)
  {
    hide Count;
    var jobs := TallyJobs(chain, stamp, n);
    assert jobs[1..][1..] == jobs[2..] && jobs[2..][1..] == jobs[3..] && jobs[3..][1..] == [];
    var s1 := Count(db, jobs[0].key, n, jobs[0].ttl, now);
    var s2 := Count(s1, jobs[1].key, n, jobs[1].ttl, now);
    var s3 := Count(s2, jobs[2].key, n, jobs[2].ttl, now);
    assert CountAll(s3, jobs[3..], now) == Tally(db, chain, stamp, n, now);
    assert CountAll(s2, jobs[2..], now) == CountAll(s3, jobs[3..], now);
    assert CountAll(s1, jobs[1..], now) == CountAll(s2, jobs[2..], now);
  }

  // ---- Exactly one caller sets the expiry of each counter ----

  predicate Pending(s: State, k: StatKey, i: int) {
    0 <= i < |s.procs| && s.procs[i].expire.Some? && s.procs[i].expire.value.key == k
  }

  predicate Unexpiring(s: State, k: StatKey) {
    k in s.db && s.db[k].expireAt.None?
  }

  ghost predicate OneSetter(s: State, k: StatKey) {
    && (k in s.db ==> s.db[k].value >= 1)
    && (Unexpiring(s, k) <==> exists i :: Pending(s, k, i))
    && (forall i, j | Pending(s, k, i) && Pending(s, k, j) :: i == j)
  }

  predicate WellFormed(s: State) {
    forall i | 0 <= i < |s.procs| ::
      && (forall j | j in s.procs[i].todo :: Positive(j))
      && (s.procs[i].expire.Some? ==> Positive(s.procs[i].expire.value))
  }

  lemma SetterStep(s: State, e: Event, k: StatKey)
    requires Enabled(s, e) && StartsPositive(e) && WellFormed(s) && OneSetter(s, k)
    ensures WellFormed(Step(s, e)) && OneSetter(Step(s, e), k)
    ensures e.Increment? && Pending(Step(s, e), k, e.pid) ==> !Live(s.db, k, e.now)
    ensures e.Increment? && s.procs[e.pid].todo[0].key == k && !Live(s.db, k, e.now) ==> Pending(Step(s, e), k, e.pid)
    ensures e.SetExpiry? && Pending(s, k, e.pid) ==> Unexpiring(s, k) && !Unexpiring(Step(s, e), k)
  {
    var s' := Step(s, e);
    match e {
      case Admit(_, _, _) =>
        assert forall i :: Pending(s', k, i) <==> Pending(s, k, i);
      case Start(_, _) =>
        assert forall i :: Pending(s', k, i) <==> Pending(s, k, i);
      case Increment(pid, now) =>
        assert s.procs[pid].todo[0] in s.procs[pid].todo;
        assert forall i | i != pid :: Pending(s', k, i) <==> Pending(s, k, i);
        assert !Pending(s, k, pid);
        assert Pending(s', k, pid) <==> s.procs[pid].todo[0].key == k && !Live(s.db, k, now);
        assert Unexpiring(s', k) <==> Unexpiring(s, k) || Pending(s', k, pid);
      case SetExpiry(pid, now) =>
        assert forall i | i != pid :: Pending(s', k, i) <==> Pending(s, k, i);
        assert !Pending(s', k, pid);
        assert Pending(s, k, pid) <==> s.procs[pid].expire.value.key == k;
        assert Unexpiring(s', k) <==> Unexpiring(s, k) && !Pending(s, k, pid);
    }
  }

  /** Lifetimes of k that a run opens, and EXPIREs of k that it carries out. */
  function Opened(s: State, events: seq<Event>, k: StatKey): nat
    requires Possible(s, events)
    decreases events
  {
    if events == [] then 0 else
      var e := events[0];
      (if e.Increment? && s.procs[e.pid].todo[0].key == k && !Live(s.db, k, e.now) then 1 else 0)
      + Opened(Step(s, e), events[1..], k)
  }

  function ExpiriesSet(s: State, events: seq<Event>, k: StatKey): nat
    requires Possible(s, events)
    decreases events
  {
    if events == [] then 0 else
      var e := events[0];
      (if e.SetExpiry? && Pending(s, k, e.pid) then 1 else 0) + ExpiriesSet(Step(s, e), events[1..], k)
  }

  function Owed(s: State, k: StatKey): nat {
    if Unexpiring(s, k) then 1 else 0
  }

  lemma {:induction false} SetterRun(s: State, events: seq<Event>, k: StatKey)
    requires Possible(s, events) && (forall e | e in events :: StartsPositive(e)) && WellFormed(s) && OneSetter(s, k)
    ensures OneSetter(Final(s, events), k)
    ensures Owed(s, k) + Opened(s, events, k) == ExpiriesSet(s, events, k) + Owed(Final(s, events), k)
    decreases events
  {
    if events != [] {
      var e := events[0];
      SetterStep(s, e, k);
      SetterRun(Step(s, e), events[1..], k);
      OwedStep(s, e, k);
    }
  }

  lemma OwedStep(s: State, e: Event, k: StatKey)
    requires Enabled(s, e) && StartsPositive(e) && WellFormed(s) && OneSetter(s, k)
    ensures Owed(s, k) + (if e.Increment? && s.procs[e.pid].todo[0].key == k && !Live(s.db, k, e.now) then 1 else 0)
            == (if e.SetExpiry? && Pending(s, k, e.pid) then 1 else 0) + Owed(Step(s, e), k)
  {
  }

  /** In every run of positive amounts from an empty store: each lifetime of a counter sees exactly one EXPIRE, except that
      the last one may still be owed it by the one caller between its two commands; and when nobody is
      between the two commands, every counter has an expiry. */
  lemma OneExpiryPerLifetime(events: seq<Event>, k: StatKey)
    requires Possible(EMPTY, events) && forall e | e in events :: StartsPositive(e)
    ensures var s := Final(EMPTY, events);
            && Opened(EMPTY, events, k) == ExpiriesSet(EMPTY, events, k) + Owed(s, k)
            && (Unexpiring(s, k) <==> exists i :: Pending(s, k, i))
            && (forall i, j | Pending(s, k, i) && Pending(s, k, j) :: i == j)
  {
    SetterRun(EMPTY, events, k);
  }

  /** What a run comes to. */
  predicate Comes(s: State, events: seq<Event>, k: StatKey, births: nat, expiries: nat, end: State) {
    && Possible(s, events) && Final(s, events) == end
    && Opened(s, events, k) == births && ExpiriesSet(s, events, k) == expiries
  }

  lemma ComesFirst(s: State, e: Event, rest: seq<Event>, k: StatKey, births: nat, expiries: nat, end: State)
    requires Enabled(s, e) && Comes(Step(s, e), rest, k, births, expiries, end)
    ensures Comes(s, [e] + rest, k,
                  births + (if e.Increment? && s.procs[e.pid].todo[0].key == k && !Live(s.db, k, e.now) then 1 else 0),
                  expiries + (if e.SetExpiry? && Pending(s, k, e.pid) then 1 else 0), end)
  {
  }

  /** A first amount of zero, which a pin request charges, breaks this: when a second call comes in the
      same lifetime it still finds the counter at zero and moves the expiry, whatever its own amount.
      With any other first amount it does not. */
  lemma ZeroAmountsMoveTheExpiry(c: Client, up: bool, stamp: nat, a: nat, b: nat, ttl: int, t0: int, t1: int)
    requires t0 <= t1 < t0 + ttl
    ensures var k := BandwidthDay(c, up, DayIndex(stamp));
            var run := [Start(stamp, [Job(k, a, ttl), Job(k, b, ttl)])] +
                       ([Increment(0, t0)] + ([SetExpiry(0, t0)] + ([Increment(0, t1)] + [])));
            && Comes(EMPTY, run, k, 1, 1, Second(k, stamp, a, b, ttl, t0))
            && (Enabled(Second(k, stamp, a, b, ttl, t0), SetExpiry(0, t1)) <==> a == 0)
            && (a == 0 ==> Step(Second(k, stamp, a, b, ttl, t0), SetExpiry(0, t1)).db[k].expireAt == Some(t1 + ttl))
  {
    var k := BandwidthDay(c, up, DayIndex(stamp));
    var first, second := Job(k, a, ttl), Job(k, b, ttl);
    var s1 := State(map[], [Process(stamp, [first, second], None)]);
    var s2 := State(map[k := Entry(a, None)], [Process(stamp, [second], Some(first))]);
    var s3 := State(map[k := Entry(a, Some(t0 + ttl))], [Process(stamp, [second], None)]);
    var s4 := Second(k, stamp, a, b, ttl, t0);
    FirstLife(k, stamp, first, second, t0);
    assert [second][1..] == [] && Step(s3, Increment(0, t1)) == s4;
    NothingComes(s4, k);
    hide Comes, Step;
    ComesFirst(s3, Increment(0, t1), [], k, 0, 0, s4);
    ComesFirst(s2, SetExpiry(0, t0), [Increment(0, t1)] + [], k, 0, 0, s4);
    ComesFirst(s1, Increment(0, t0), [SetExpiry(0, t0)] + ([Increment(0, t1)] + []), k, 0, 1, s4);
    ComesFirst(EMPTY, Start(stamp, [first, second]),
               [Increment(0, t0)] + ([SetExpiry(0, t0)] + ([Increment(0, t1)] + [])), k, 1, 1, s4);
  }

  /** The first of two calls, alone: it opens a lifetime and sets its expiry. */
  lemma FirstLife(k: StatKey, stamp: nat, first: Job, second: Job, t0: int)
    requires first.key == k
    ensures var s1 := State(map[], [Process(stamp, [first, second], None)]);
            var s2 := State(map[k := Entry(first.value, None)], [Process(stamp, [second], Some(first))]);
            && Step(EMPTY, Start(stamp, [first, second])) == s1 && Step(s1, Increment(0, t0)) == s2 && Pending(s2, k, 0)
            && Step(s2, SetExpiry(0, t0)) ==
               State(map[k := Entry(first.value, Some(t0 + first.ttl))], [Process(stamp, [second], None)])
  {
    assert [first, second][1..] == [second];
  }

  /** After two increments in one lifetime, the first of which has set its expiry. */
  function Second(k: StatKey, stamp: nat, a: nat, b: nat, ttl: int, t0: int): State {
    State(map[k := Entry(a + b, Some(t0 + ttl))], [Process(stamp, [], if a == 0 then Some(Job(k, b, ttl)) else None)])
  }

  lemma NothingComes(s: State, k: StatKey)
    ensures Comes(s, [], k, 0, 0, s)
  {
  }

  // ---- Conservation ----

  /** How far the time of any command may lie from the stamp its request carries. */
  const LAG := 15 * 60000

  predicate InBucket(stamp: nat, k: StatKey) {
    match k
    case ChainHour(_, h) => HourIndex(stamp) == h
    case TotalHour(h) => HourIndex(stamp) == h
    case ChainDay(_, d) => DayIndex(stamp) == d
    case TotalDay(d) => DayIndex(stamp) == d
    case BandwidthDay(_, _, d) => DayIndex(stamp) == d
  }

  function Ttl(k: StatKey): int {
    if k.ChainHour? || k.TotalHour? then HOUR_STAT_TTL else DAY_STAT_TTL
  }

  /** When the counter of a bucket can expire at the earliest. */
  function Deadline(k: StatKey): int {
    (match k
     case ChainHour(_, h) => h * HOUR_MS
     case TotalHour(h) => h * HOUR_MS
     case ChainDay(_, d) => d * DAY_MS
     case TotalDay(d) => d * DAY_MS
     case BandwidthDay(_, _, d) => d * DAY_MS) - LAG + Ttl(k)
  }

  /** Every command runs close to its request's stamp, and only admissions start requests. */
  predicate Prompt(s: State, events: seq<Event>)
    requires Possible(s, events)
    decreases events
  {
    events == [] ||
    (var e := events[0];
     && !e.Start?
     && (e.Increment? || e.SetExpiry? ==> -LAG <= e.now - s.procs[e.pid].stamp <= LAG)
     && Prompt(Step(s, e), events[1..]))
  }

  function JobSum(jobs: seq<Job>, k: StatKey): int {
    if jobs == [] then 0 else (if jobs[0].key == k then jobs[0].value else 0) + JobSum(jobs[1..], k)
  }

  function Outstanding(procs: seq<Process>, k: StatKey): int {
    if procs == [] then 0 else JobSum(procs[0].todo, k) + Outstanding(procs[1..], k)
  }

  function ChargedBy(e: Event, k: StatKey): int {
    if e.Admit? then JobSum(TallyJobs(e.chain, e.stamp, e.n), k) else 0
  }

  /** Units of the admissions of a run that belong in k. */
  function Charged(events: seq<Event>, k: StatKey): int {
    if events == [] then 0 else ChargedBy(events[0], k) + Charged(events[1..], k)
  }

  lemma {:induction false} OutstandingUpdate(procs: seq<Process>, i: nat, p: Process, k: StatKey)
    requires i < |procs|
    ensures Outstanding(procs[i := p], k) == Outstanding(procs, k) - JobSum(procs[i].todo, k) + JobSum(p.todo, k)
  {
    if i == 0 {
      assert procs[i := p][1..] == procs[1..];
    } else {
      assert procs[i := p][1..] == procs[1..][i - 1 := p];
      OutstandingUpdate(procs[1..], i - 1, p, k);
    }
  }

  lemma {:induction false} OutstandingAppend(procs: seq<Process>, p: Process, k: StatKey)
    ensures Outstanding(procs + [p], k) == Outstanding(procs, k) + JobSum(p.todo, k)
  {
    if procs == [] {
      assert procs + [p] == [p] && [p][1..] == [];
    } else {
      assert (procs + [p])[1..] == procs[1..] + [p];
      OutstandingAppend(procs[1..], p, k);
    }
  }

  predicate Placed(p: Process) {
    && (forall j | j in p.todo :: Positive(j) && InBucket(p.stamp, j.key) && j.ttl == Ttl(j.key))
    && (p.expire.Some? ==> var j := p.expire.value; Positive(j) && InBucket(p.stamp, j.key) && j.ttl == Ttl(j.key))
  }

  /** Up to its deadline a counter holds everything charged to it that is no longer outstanding. */
  predicate Balanced(s: State, k: StatKey, charged: int) {
    && (forall i | 0 <= i < |s.procs| :: Placed(s.procs[i]))
    && (if k in s.db then s.db[k].value else 0) + Outstanding(s.procs, k) == charged
    && (k in s.db && s.db[k].expireAt.Some? ==> s.db[k].expireAt.value >= Deadline(k))
  }

  lemma CommandBeforeDeadline(stamp: nat, now: int, k: StatKey)
    requires InBucket(stamp, k) && -LAG <= now - stamp <= LAG
    ensures now < Deadline(k) <= now + Ttl(k)
  {
    assert HourIndex(stamp) * HOUR_MS <= stamp < (HourIndex(stamp) + 1) * HOUR_MS;
    assert DayIndex(stamp) * DAY_MS <= stamp < (DayIndex(stamp) + 1) * DAY_MS;
  }

  lemma AdmitBalance(s: State, chain: nat, stamp: nat, n: int, k: StatKey, charged: int)
    requires n >= 1 && Balanced(s, k, charged)
    ensures Balanced(Step(s, Admit(chain, stamp, n)), k, charged + JobSum(TallyJobs(chain, stamp, n), k))
  {
    hide JobSum;
    OutstandingAppend(s.procs, Process(stamp, TallyJobs(chain, stamp, n), None), k);
  }

  lemma IncrementBalance(s: State, pid: nat, now: int, k: StatKey, charged: int)
    requires Enabled(s, Increment(pid, now)) && Balanced(s, k, charged)
    requires -LAG <= now - s.procs[pid].stamp <= LAG
    ensures Balanced(Step(s, Increment(pid, now)), k, charged)
  {
    var p, s' := s.procs[pid], Step(s, Increment(pid, now));
    var j := p.todo[0];
    assert j in p.todo;
    CommandBeforeDeadline(p.stamp, now, j.key);
    OutstandingUpdate(s.procs, pid, s'.procs[pid], k);
    hide Deadline, InBucket, Ttl, Outstanding;
    assert JobSum(p.todo, k) == (if j.key == k then j.value else 0) + JobSum(p.todo[1..], k);
  }

  lemma SetExpiryBalance(s: State, pid: nat, now: int, k: StatKey, charged: int)
    requires Enabled(s, SetExpiry(pid, now)) && Balanced(s, k, charged)
    requires -LAG <= now - s.procs[pid].stamp <= LAG
    ensures Balanced(Step(s, SetExpiry(pid, now)), k, charged)
  {
    var p, s' := s.procs[pid], Step(s, SetExpiry(pid, now));
    CommandBeforeDeadline(p.stamp, now, p.expire.value.key);
    OutstandingUpdate(s.procs, pid, s'.procs[pid], k);
    hide Deadline, InBucket, Ttl, JobSum, Outstanding;
  }

  lemma BalanceStep(s: State, e: Event, k: StatKey, charged: int)
    requires Enabled(s, e) && !e.Start? && Balanced(s, k, charged)
    requires e.Increment? || e.SetExpiry? ==> -LAG <= e.now - s.procs[e.pid].stamp <= LAG
    ensures Balanced(Step(s, e), k, charged + ChargedBy(e, k))
  {
    hide Balanced, Step;
    match e {
      case Admit(chain, stamp, n) => AdmitBalance(s, chain, stamp, n, k, charged);
      case Increment(pid, now) => IncrementBalance(s, pid, now, k, charged);
      case SetExpiry(pid, now) => SetExpiryBalance(s, pid, now, k, charged);
    }
  }

  lemma {:induction false} BalanceRun(s: State, events: seq<Event>, k: StatKey, charged: int)
    requires Possible(s, events) && Prompt(s, events) && Balanced(s, k, charged)
    ensures Balanced(Final(s, events), k, charged + Charged(events, k))
    decreases events
  {
    hide Balanced;
    if events != [] {
      BalanceStep(s, events[0], k, charged);
      BalanceRun(Step(s, events[0]), events[1..], k, charged + ChargedBy(events[0], k));
    }
  }

  predicate Quiescent(s: State) {
    forall i | 0 <= i < |s.procs| :: s.procs[i].todo == [] && s.procs[i].expire.None?
  }

  lemma {:induction false} NothingOutstanding(procs: seq<Process>, k: StatKey)
    requires forall p | p in procs :: p.todo == []
    ensures Outstanding(procs, k) == 0
  {
    if procs != [] {
      NothingOutstanding(procs[1..], k);
    }
  }

  /** At a quiescent point before its deadline, a counter reads exactly what was admitted to its bucket. */
  lemma CounterIsAdmitted(events: seq<Event>, k: StatKey, t: int)
    requires Possible(EMPTY, events) && Prompt(EMPTY, events)
    requires Quiescent(Final(EMPTY, events)) && t < Deadline(k)
    ensures Value(Final(EMPTY, events).db, k, t) == Charged(events, k)
  {
    BalanceRun(EMPTY, events, k, 0);
    NothingOutstanding(Final(EMPTY, events).procs, k);
  }

  /** Units admitted with a stamp on the given day. */
  function AdmittedOn(events: seq<Event>, day: nat): int {
    if events == [] then 0 else
      (if events[0].Admit? && DayIndex(events[0].stamp) == day then events[0].n else 0) + AdmittedOn(events[1..], day)
  }

  function AdmittedIn(events: seq<Event>, hour: nat): int {
    if events == [] then 0 else
      (if events[0].Admit? && HourIndex(events[0].stamp) == hour then events[0].n else 0) + AdmittedIn(events[1..], hour)
  }

  /** The readings of the first so many chains' day (hour) counters, added up. */
  function ChainDays(db: Db<StatKey>, day: nat, chains: nat, t: int): int {
    if chains == 0 then 0 else ChainDays(db, day, chains - 1, t) + Value(db, ChainDay(chains - 1, day), t)
  }

  function ChainHours(db: Db<StatKey>, hour: nat, chains: nat, t: int): int {
    if chains == 0 then 0 else ChainHours(db, hour, chains - 1, t) + Value(db, ChainHour(chains - 1, hour), t)
  }

  /** The same for what was charged to them. */
  function ChargedDays(events: seq<Event>, day: nat, chains: nat): int {
    if chains == 0 then 0 else ChargedDays(events, day, chains - 1) + Charged(events, ChainDay(chains - 1, day))
  }

  function ChargedHours(events: seq<Event>, hour: nat, chains: nat): int {
    if chains == 0 then 0 else ChargedHours(events, hour, chains - 1) + Charged(events, ChainHour(chains - 1, hour))
  }

  lemma JobSums(chain: nat, stamp: nat, n: int, c: nat, i: nat)
    ensures var jobs := TallyJobs(chain, stamp, n);
            && JobSum(jobs, TotalDay(i)) == (if DayIndex(stamp) == i then n else 0)
            && JobSum(jobs, TotalHour(i)) == (if HourIndex(stamp) == i then n else 0)
            && JobSum(jobs, ChainDay(c, i)) == (if c == chain && DayIndex(stamp) == i then n else 0)
            && JobSum(jobs, ChainHour(c, i)) == (if c == chain && HourIndex(stamp) == i then n else 0)
  {
    var jobs := TallyJobs(chain, stamp, n);
    FourJobs(jobs, TotalDay(i));
    FourJobs(jobs, TotalHour(i));
    FourJobs(jobs, ChainDay(c, i));
    FourJobs(jobs, ChainHour(c, i));
  }

  lemma FourJobs(jobs: seq<Job>, k: StatKey)
    requires |jobs| == 4
    ensures JobSum(jobs, k) == (if jobs[0].key == k then jobs[0].value else 0) + (if jobs[1].key == k then jobs[1].value else 0)
                             + (if jobs[2].key == k then jobs[2].value else 0) + (if jobs[3].key == k then jobs[3].value else 0)
  {
    var a, b, c := jobs[1..], jobs[2..], jobs[3..];
    assert jobs[1..] == a && a[1..] == b && b[1..] == c && c[1..] == [];
    assert JobSum(c, k) == if jobs[3].key == k then jobs[3].value else 0;
    assert JobSum(b, k) == (if jobs[2].key == k then jobs[2].value else 0) + JobSum(c, k);
    assert JobSum(a, k) == (if jobs[1].key == k then jobs[1].value else 0) + JobSum(b, k);
  }

  lemma {:induction false} TotalsCharged(events: seq<Event>, i: nat)
    ensures Charged(events, TotalDay(i)) == AdmittedOn(events, i)
    ensures Charged(events, TotalHour(i)) == AdmittedIn(events, i)
  {
    if events != [] {
      TotalsCharged(events[1..], i);
      if events[0].Admit? {
        JobSums(events[0].chain, events[0].stamp, events[0].n, 0, i);
      }
    }
  }

  /** An admission of one chain adds to the sum over chains exactly when its chain is among them. */
  lemma {:induction false} ChargedHead(events: seq<Event>, i: nat, chains: nat)
    requires events != []
    ensures ChargedDays(events, i, chains) == ChargedDays(events[1..], i, chains) +
            (if events[0].Admit? && events[0].chain < chains && DayIndex(events[0].stamp) == i then events[0].n else 0)
    ensures ChargedHours(events, i, chains) == ChargedHours(events[1..], i, chains) +
            (if events[0].Admit? && events[0].chain < chains && HourIndex(events[0].stamp) == i then events[0].n else 0)
  {
    if chains > 0 {
      ChargedHead(events, i, chains - 1);
      if events[0].Admit? {
        JobSums(events[0].chain, events[0].stamp, events[0].n, chains - 1, i);
      }
    }
  }

  lemma {:induction false} ChainsCharged(events: seq<Event>, i: nat, chains: nat)
    requires forall e | e in events && e.Admit? :: e.chain < chains
    ensures ChargedDays(events, i, chains) == AdmittedOn(events, i)
    ensures ChargedHours(events, i, chains) == AdmittedIn(events, i)
  {
    if events == [] {
      NoChains(i, chains);
    } else {
      ChargedHead(events, i, chains);
      ChainsCharged(events[1..], i, chains);
    }
  }

  lemma {:induction false} NoChains(i: nat, chains: nat)
    ensures ChargedDays([], i, chains) == 0 && ChargedHours([], i, chains) == 0
  {
    if chains > 0 {
      NoChains(i, chains - 1);
    }
  }

  lemma {:induction false} ReadingsCharged(events: seq<Event>, i: nat, chains: nat, t: int)
    requires Possible(EMPTY, events) && Prompt(EMPTY, events) && Quiescent(Final(EMPTY, events))
    ensures t < Deadline(TotalDay(i)) ==> ChainDays(Final(EMPTY, events).db, i, chains, t) == ChargedDays(events, i, chains)
    ensures t < Deadline(TotalHour(i)) ==> ChainHours(Final(EMPTY, events).db, i, chains, t) == ChargedHours(events, i, chains)
  {
    if chains > 0 {
      ReadingsCharged(events, i, chains - 1, t);
      if t < Deadline(TotalDay(i)) {
        CounterIsAdmitted(events, ChainDay(chains - 1, i), t);
      }
      if t < Deadline(TotalHour(i)) {
        CounterIsAdmitted(events, ChainHour(chains - 1, i), t);
      }
    }
  }

  /** Conservation.  At every quiescent point before a bucket's counters may expire, the total counter
      of the day (hour) equals the sum of the per-chain counters and the units admitted in it. */
  lemma Conservation(events: seq<Event>, i: nat, t: int)
    requires Possible(EMPTY, events) && Prompt(EMPTY, events) && Quiescent(Final(EMPTY, events))
    requires forall e | e in events && e.Admit? :: e.chain < 256
    ensures var db := Final(EMPTY, events).db;
            && (t < Deadline(TotalDay(i)) ==> Value(db, TotalDay(i), t) == ChainDays(db, i, 256, t) == AdmittedOn(events, i))
            && (t < Deadline(TotalHour(i)) ==> Value(db, TotalHour(i), t) == ChainHours(db, i, 256, t) == AdmittedIn(events, i))
  {
    ReadingsCharged(events, i, 256, t);
    ChainsCharged(events, i, 256);
    TotalsCharged(events, i);
    if t < Deadline(TotalDay(i)) {
      CounterIsAdmitted(events, TotalDay(i), t);
    }
    if t < Deadline(TotalHour(i)) {
      CounterIsAdmitted(events, TotalHour(i), t);
    }
  }

  /** The deadlines outlast their buckets: a quarter of an hour beyond the hour, and far beyond the day. */
  lemma DeadlinesOutlastBuckets(stamp: nat, k: StatKey)
    requires InBucket(stamp, k)
    ensures stamp + LAG < Deadline(k)
  {
  }

  // ---- The counters against the limiter ----

  function OnlyAdmits(events: seq<Event>): seq<Event> {
    if events == [] then [] else (if events[0].Admit? then [events[0]] else []) + OnlyAdmits(events[1..])
  }

  /** The admissions a run of limiter calls causes: one for every call the script admits. */
  function Admissions(m: Mode, whitelist: seq<string>, db: Db<string>, calls: seq<Call>): seq<Event>
    decreases calls
  {
    if calls == [] then [] else
      var x := calls[0];
      var (db', v) := RateLimit.Allow(m, whitelist, db, x);
      (if v == Passed && x.client.apiKey !in whitelist then [Admit(x.client.chain, x.stamp, x.n)] else [])
      + Admissions(m, whitelist, db', calls[1..])
  }

  function LimitedOn(whitelist: seq<string>, day: nat): Call -> bool {
    (x: Call) => x.client.apiKey !in whitelist && DayIndex(x.stamp) == day
  }

  function LimitedIn(whitelist: seq<string>, hour: nat): Call -> bool {
    (x: Call) => x.client.apiKey !in whitelist && HourIndex(x.stamp) == hour
  }

  lemma {:induction false} OnlyAdmitsCount(events: seq<Event>, i: nat)
    ensures AdmittedOn(OnlyAdmits(events), i) == AdmittedOn(events, i)
    ensures AdmittedIn(OnlyAdmits(events), i) == AdmittedIn(events, i)
  {
    if events != [] {
      var rest := OnlyAdmits(events[1..]);
      OnlyAdmitsCount(events[1..], i);
      assert ([events[0]] + rest)[1..] == rest && [] + rest == rest;
    }
  }

  lemma {:induction false} AdmissionsCount(m: Mode, whitelist: seq<string>, db: Db<string>, calls: seq<Call>, i: nat)
    ensures AdmittedOn(Admissions(m, whitelist, db, calls), i) == Admitted(m, whitelist, db, calls, LimitedOn(whitelist, i))
    ensures AdmittedIn(Admissions(m, whitelist, db, calls), i) == Admitted(m, whitelist, db, calls, LimitedIn(whitelist, i))
    decreases calls
  {
    hide RateLimit.Allow;
    if calls != [] {
      var x, db' := calls[0], RateLimit.Allow(m, whitelist, db, calls[0]).0;
      var rest := Admissions(m, whitelist, db', calls[1..]);
      AdmissionsCount(m, whitelist, db', calls[1..], i);
      assert ([Admit(x.client.chain, x.stamp, x.n)] + rest)[1..] == rest && [] + rest == rest;
    }
  }

  /** If the admissions in an interleaved run are those of a run of the limiter, the total counters
      read, at every quiescent point, exactly the units the script admitted that day and that hour. */
  lemma TotalsMatchLimiter(events: seq<Event>, m: Mode, whitelist: seq<string>, db: Db<string>, calls: seq<Call>, i: nat, t: int)
    requires Possible(EMPTY, events) && Prompt(EMPTY, events) && Quiescent(Final(EMPTY, events))
    requires OnlyAdmits(events) == Admissions(m, whitelist, db, calls)
    ensures var stats := Final(EMPTY, events).db;
            && (t < Deadline(TotalDay(i)) ==>
                  Value(stats, TotalDay(i), t) == Admitted(m, whitelist, db, calls, LimitedOn(whitelist, i)))
            && (t < Deadline(TotalHour(i)) ==>
                  Value(stats, TotalHour(i), t) == Admitted(m, whitelist, db, calls, LimitedIn(whitelist, i)))
  {
    hide RateLimit.Allow;
    AdmissionsCount(m, whitelist, db, calls, i);
    OnlyAdmitsCount(events, i);
    TotalsCharged(events, i);
    if t < Deadline(TotalDay(i)) {
      CounterIsAdmitted(events, TotalDay(i), t);
    }
    if t < Deadline(TotalHour(i)) {
      CounterIsAdmitted(events, TotalHour(i), t);
    }
  }
}
