/** IPFS transfer quotas: a request is checked first, forwarded, and charged afterwards. */
module IpfsQuota {
  import opened Redis
  import opened Calendar
  import RateLimit

  datatype Field = Storage | TransferUp | TransferDown

  datatype Direction = Upload | Download

  const TWO64 := 0x1_0000_0000_0000_0000

  /** Conversion to and addition of 64-bit unsigned integers. */
  function ToU64(x: int): nat {
    x % TWO64
  }

  function Add64(a: nat, x: int): nat {
    ToU64(a + ToU64(x))
  }

  /** The field a direction is charged to. */
  function FieldOf(d: Direction): Field {
    if d == Upload then TransferUp else TransferDown
  }

  /** Uploads are also checked against the storage limit. */
  predicate Applies(f: Field, d: Direction) {
    f == FieldOf(d) || (f == Storage && d == Upload)
  }

  type Usage = map<Field, nat>

  /** A missing limit reads as zero. */
  function Limit(limits: Usage, f: Field): nat {
    if f in limits then limits[f] else 0
  }

  function Projected(usage: Usage, f: Field, size: int, d: Direction): nat
    requires f in usage
  {
    if Applies(f, d) then Add64(usage[f], size) else usage[f]
  }

  /** Every usage field that is present stays below its limit. */
  predicate Passes(usage: Usage, limits: Usage, size: int, d: Direction) {
    forall f | f in usage :: Projected(usage, f, size, d) < Limit(limits, f)
  }

  /** A field, if the record has it, has room for so much more, in 64-bit arithmetic; or is below its limit. */
  predicate Room(usage: Usage, limits: Usage, f: Field, size: int) {
    f in usage ==> (usage[f] + size) % TWO64 < if f in limits then limits[f] else 0
  }

  predicate Under(usage: Usage, limits: Usage, f: Field) {
    f in usage ==> usage[f] < if f in limits then limits[f] else 0
  }

  lemma ModInner(a: nat, x: int)
    ensures (a + x % TWO64) % TWO64 == (a + x) % TWO64
  {
  }

  lemma ProjectedMeans(usage: Usage, limits: Usage, f: Field, size: int, d: Direction)
    requires f in usage
    ensures Projected(usage, f, size, d) < Limit(limits, f) <==>
            if (d == Upload && f != TransferDown) || (d == Download && f == TransferDown) then Room(usage, limits, f, size)
            else Under(usage, limits, f)
  {
    ModInner(usage[f], size);
  }

  /** The check, field by field: an upload needs room for its size in transfer and in storage, a download
      in transfer only; a field of the other direction must still be below its own limit. */
  lemma PassesMeans(usage: Usage, limits: Usage, size: int, d: Direction)
    ensures d == Upload ==>
              (Passes(usage, limits, size, d) <==>
                 Room(usage, limits, TransferUp, size) && Room(usage, limits, Storage, size) && Under(usage, limits, TransferDown))
    ensures d == Download ==>
              (Passes(usage, limits, size, d) <==>
                 Room(usage, limits, TransferDown, size) && Under(usage, limits, TransferUp) && Under(usage, limits, Storage))
  {
    forall f | f in usage
      ensures Projected(usage, f, size, d) < Limit(limits, f) <==>
              if (d == Upload && f != TransferDown) || (d == Download && f == TransferDown) then Room(usage, limits, f, size)
              else Under(usage, limits, f)
    {
      ProjectedMeans(usage, limits, f, size, d);
    }
    hide Projected, Limit;
  }

  function HIncrBy(usage: Usage, f: Field, n: nat): Usage {
    usage[f := Used(usage, f) + n]
  }

  /** A request between its check and its charge.  Pinning checks the size of the object but charges
      nothing: the size it computes is lost in an inner scope. */
  datatype Job = Job(dir: Direction, size: nat, pin: bool)

  function ChargeOf(j: Job): nat {
    if j.pin then 0 else j.size
  }

  /** What charging a request changes: the usage record, the limiter's store and the daily counters. */
  datatype Ledger = Ledger(usage: Usage, db: Db<string>, stats: Db<RateLimit.StatKey>)

  /** A whitelisted client is only counted; the others' transfer adds to the daily counter and the usage. */
  function Charged(whitelist: seq<string>, l: Ledger, call: RateLimit.Call, size: nat, d: Direction): Ledger {
    if call.client.apiKey in whitelist then
      l.(db := RateLimit.Allow(RateLimit.LIVE_MODE, whitelist, l.db, call).0)
    else
      var bandwidth := RateLimit.BandwidthDay(call.client, d == Upload, DayIndex(call.stamp));
      l.(usage := HIncrBy(l.usage, FieldOf(d), size),
         stats := Count(l.stats, bandwidth, size, RateLimit.DAY_STAT_TTL, call.now))
  }

  class Limiter {
    var usage: Usage
    const limits: Usage
    const rateLimiter: RateLimit.RateLimiter

    constructor (usage: Usage, limits: Usage, rateLimiter: RateLimit.RateLimiter)
      ensures this.usage == usage && this.limits == limits && this.rateLimiter == rateLimiter
    {
      this.usage, this.limits, this.rateLimiter := usage, limits, rateLimiter;
    }

    /** The servers run at the time of the call, which is of one unit. */
    predicate Serves(call: RateLimit.Call)
      reads rateLimiter.rdb, rateLimiter.stats
    {
      rateLimiter.rdb as object != rateLimiter.stats && rateLimiter.rdb.now == rateLimiter.stats.now == call.now && call.n == 1
    }

    function Books(): Ledger
      reads this, rateLimiter.rdb, rateLimiter.stats
    {
      Ledger(usage, rateLimiter.rdb.db, rateLimiter.stats.db)
    }

    /** The fields are visited in no particular order. */
    method CheckIPFSLimit(fileSize: int, bwType: Direction) returns (ok: bool)
      ensures ok == Passes(usage, limits, fileSize, bwType)
      ensures bwType == Upload ==>
                (ok <==> Room(usage, limits, TransferUp, fileSize) && Room(usage, limits, Storage, fileSize)
                         && Under(usage, limits, TransferDown))
      ensures bwType == Download ==>
                (ok <==> Room(usage, limits, TransferDown, fileSize) && Under(usage, limits, TransferUp)
                         && Under(usage, limits, Storage))
    {
      PassesMeans(usage, limits, fileSize, bwType);
      hide Room, Under;
      var rest := usage.Keys;
      while rest != {}
        invariant rest <= usage.Keys
        invariant forall f | f in usage && f !in rest :: Projected(usage, f, fileSize, bwType) < Limit(limits, f)
        decreases |rest|
      {
        var k :| k in rest;
        rest := rest - {k};
        var used := usage[k];
        if (k == Storage || k == TransferUp) && bwType == Upload {
          used := Add64(used, fileSize);
        }
        if k == TransferDown && bwType == Download {
          used := Add64(used, fileSize);
        }
        var limit := if k in limits then limits[k] else 0;
        if used >= limit {
          return false;
        }
      }
      return true;
    }

    /** What charging comes to: a whitelisted client is only counted on its day key; any other client's
        transfer goes to the field and to the daily counter of its direction, and nowhere else. */
    twostate predicate Hooked(call: RateLimit.Call, size: nat, d: Direction)
      reads this, rateLimiter.rdb, rateLimiter.stats
    {
      var listed := call.client.apiKey in rateLimiter.whitelist;
      var up, down := if TransferUp in old(usage) then old(usage)[TransferUp] else 0,
                      if TransferDown in old(usage) then old(usage)[TransferDown] else 0;
      && usage == (if listed then old(usage) else if d == Upload then old(usage)[TransferUp := up + size]
                   else old(usage)[TransferDown := down + size])
      && rateLimiter.rdb.db == (if listed
           then RateLimit.Allow(RateLimit.LIVE_MODE, rateLimiter.whitelist, old(rateLimiter.rdb.db), call).0
           else old(rateLimiter.rdb.db))
      && rateLimiter.stats.db == if listed then old(rateLimiter.stats.db)
           else Count(old(rateLimiter.stats.db), RateLimit.BandwidthDay(call.client, d == Upload, call.stamp / 86400000),
                      size, 129600000, call.now)
    }

    method BandwidthHook(call: RateLimit.Call, fileSize: nat, bwType: Direction)
      requires Serves(call)
      modifies this`usage, rateLimiter.rdb`db, rateLimiter.stats`db
      ensures Books() == Charged(rateLimiter.whitelist, old(Books()), call, fileSize, bwType)
      ensures Hooked(call, fileSize, bwType)
    {
      var inWhitelist := rateLimiter.AllowWhitelist(call);
      if inWhitelist {
        return;
      }
      var day := DayIndex(call.stamp);
      match bwType {
        case Upload =>
          rateLimiter.IncreaseAndSetExpire(RateLimit.BandwidthDay(call.client, true, day), fileSize, 36 * RateLimit.HOUR_MS);
          usage := HIncrBy(usage, TransferUp, fileSize);
        case Download =>
          rateLimiter.IncreaseAndSetExpire(RateLimit.BandwidthDay(call.client, false, day), fileSize, 36 * RateLimit.HOUR_MS);
          usage := HIncrBy(usage, TransferDown, fileSize);
      }
    }

    /** A request on its own: check, forward, and charge if the node answered 200.  Paths that transfer
        nothing, and pins of files the user has, are forwarded without check or charge. */
    method Proxy(job: Option<Job>, call: RateLimit.Call, answered200: bool) returns (admitted: bool)
      requires Serves(call)
      modifies this`usage, rateLimiter.rdb`db, rateLimiter.stats`db
      ensures admitted == (job.None? || Passes(old(usage), limits, job.value.size, job.value.dir))
      ensures Books() == if admitted && answered200 && job.Some?
                         then Charged(rateLimiter.whitelist, old(Books()), call, ChargeOf(job.value), job.value.dir)
                         else old(Books())
      ensures if admitted && answered200 && job.Some? then Hooked(call, if job.value.pin then 0 else job.value.size, job.value.dir)
              else Books() == old(Books())
    {
      hide Passes, Charged, Room, Under;
      if job.Some? {
        admitted := CheckIPFSLimit(job.value.size, job.value.dir);
        if admitted && answered200 {
          BandwidthHook(call, if job.value.pin then 0 else job.value.size, job.value.dir);
        }
      } else {
        admitted := true;
      }
    }
  }

  // ---- Concurrent requests ----

  datatype State = State(usage: Usage, inFlight: seq<Job>)

  datatype Event = Check(job: Job) | Charge(i: nat) | Abort(i: nat) | AddStorage(n: nat)

  predicate Enabled(st: State, e: Event) {
    e.Charge? || e.Abort? ==> e.i < |st.inFlight|
  }

  function Without(jobs: seq<Job>, i: nat): seq<Job>
    requires i < |jobs|
  {
    jobs[..i] + jobs[i + 1..]
  }

  function Step(limits: Usage, st: State, e: Event): State
    requires Enabled(st, e)
  {
    match e
    case Check(job) => if Passes(st.usage, limits, job.size, job.dir) then st.(inFlight := st.inFlight + [job]) else st
    case Charge(i) =>
      State(HIncrBy(st.usage, FieldOf(st.inFlight[i].dir), ChargeOf(st.inFlight[i])), Without(st.inFlight, i))
    case Abort(i) => st.(inFlight := Without(st.inFlight, i))
    case AddStorage(n) => st.(usage := HIncrBy(st.usage, Storage, n))
  }

  /** A request that nothing interferes with is a check and, if admitted, a charge or nothing: its steps
      change the usage as `Limiter.Proxy` does for a client that is not whitelisted. */
  lemma RequestAlone(limits: Usage, st: State, job: Job, answered200: bool, l: Ledger, whitelist: seq<string>, call: RateLimit.Call)
    requires l.usage == st.usage && call.client.apiKey !in whitelist
    ensures var n, admitted := |st.inFlight|, Passes(st.usage, limits, job.size, job.dir);
            var checked := Step(limits, st, Check(job));
            var next := if answered200 then Charge(n) else Abort(n);
            && (admitted <==> checked != st)
            && (admitted ==> Enabled(checked, next))
            && (if admitted then Step(limits, checked, next) else checked) ==
               State(if admitted && answered200 then Charged(whitelist, l, call, ChargeOf(job), job.dir).usage else st.usage,
                     st.inFlight)
  {
    var jobs := st.inFlight + [job];
    assert Without(jobs, |st.inFlight|) == st.inFlight && |jobs| != |st.inFlight|;
  }

  /** Sizes and number of the requests in flight in one direction. */
  function Pending(jobs: seq<Job>, d: Direction): nat {
    if jobs == [] then 0 else (if jobs[0].dir == d then jobs[0].size else 0) + Pending(jobs[1..], d)
  }

  function Number(jobs: seq<Job>, d: Direction): nat {
    if jobs == [] then 0 else (if jobs[0].dir == d then 1 else 0) + Number(jobs[1..], d)
  }

  lemma {:induction false} PendingConcat(a: seq<Job>, b: seq<Job>, d: Direction)
    ensures Pending(a + b, d) == Pending(a, d) + Pending(b, d)
    ensures Number(a + b, d) == Number(a, d) + Number(b, d)
  {
    if a == [] {
      assert a + b == b;
    } else {
      assert (a + b)[1..] == a[1..] + b;
      PendingConcat(a[1..], b, d);
    }
  }

  lemma PendingWithout(jobs: seq<Job>, i: nat, d: Direction)
    requires i < |jobs|
    ensures Pending(jobs, d) == Pending(Without(jobs, i), d) + (if jobs[i].dir == d then jobs[i].size else 0)
    ensures Number(jobs, d) == Number(Without(jobs, i), d) + (if jobs[i].dir == d then 1 else 0)
  {
    assert jobs == jobs[..i] + jobs[i..] && jobs[i..][1..] == jobs[i + 1..];
    PendingConcat(jobs[..i], jobs[i..], d);
    PendingConcat(jobs[..i], jobs[i + 1..], d);
  }

  lemma {:induction false} PendingAtMost(jobs: seq<Job>, d: Direction, m: nat)
    requires forall j | j in jobs && j.dir == d :: j.size <= m
    ensures Pending(jobs, d) <= Number(jobs, d) * m
  {
    if jobs != [] {
      PendingAtMost(jobs[1..], d, m);
      assert jobs[0] in jobs;
      assert (Number(jobs[1..], d) + 1) * m == Number(jobs[1..], d) * m + m;
    }
  }

  /** Every state of the run has at most k requests of size at most m in flight in direction d. */
  predicate Bounded(limits: Usage, st: State, events: seq<Event>, d: Direction, k: nat, m: nat)
    decreases events
  {
    && Number(st.inFlight, d) <= k
    && (forall j | j in st.inFlight && j.dir == d :: j.size <= m)
    && (events == [] || (Enabled(st, events[0]) && Bounded(limits, Step(limits, st, events[0]), events[1..], d, k, m)))
  }

  function Final(limits: Usage, st: State, events: seq<Event>, d: Direction, k: nat, m: nat): State
    requires Bounded(limits, st, events, d, k, m)
    decreases events
  {
    if events == [] then st else Final(limits, Step(limits, st, events[0]), events[1..], d, k, m)
  }

  /** A field that nothing was charged to yet is absent. */
  function Used(usage: Usage, f: Field): nat {
    if f in usage then usage[f] else 0
  }

  /** What an event adds to a field. */
  function AddedBy(st: State, e: Event, f: Field): nat
    requires Enabled(st, e)
  {
    match e
    case Charge(i) =>
      var j := st.inFlight[i];
      if !j.pin && (if j.dir == Upload then f == TransferUp else f == TransferDown) then j.size else 0
    case AddStorage(n) => if f == Storage then n else 0
    case _ => 0
  }

  function AddedTo(limits: Usage, st: State, events: seq<Event>, f: Field, d: Direction, k: nat, m: nat): nat
    requires Bounded(limits, st, events, d, k, m)
    decreases events
  {
    if events == [] then 0 else
      AddedBy(st, events[0], f) + AddedTo(limits, Step(limits, st, events[0]), events[1..], f, d, k, m)
  }

  /** In every interleaving a usage field reads what it read at the start and what was charged to it. */
  lemma {:induction false} UsageIsCharged(limits: Usage, st: State, events: seq<Event>, f: Field, d: Direction, k: nat, m: nat)
    requires Bounded(limits, st, events, d, k, m)
    ensures Used(Final(limits, st, events, d, k, m).usage, f) == Used(st.usage, f) + AddedTo(limits, st, events, f, d, k, m)
    decreases events
  {
    if events != [] {
      UsageIsCharged(limits, Step(limits, st, events[0]), events[1..], f, d, k, m);
    }
  }

  /** Usage and what is about to be charged. */
  function Committed(st: State, d: Direction): nat {
    Used(st.usage, FieldOf(d)) + Pending(st.inFlight, d)
  }

  predicate Below(limits: Usage, st: State, d: Direction, k: nat, m: nat) {
    Committed(st, d) < Limit(limits, FieldOf(d)) + (k - 1) * m
  }

  /** The check can see the direction's field, or one request alone cannot reach its limit. */
  predicate Guarded(limits: Usage, st: State, d: Direction, m: nat) {
    FieldOf(d) in st.usage || m < Limit(limits, FieldOf(d))
  }

  lemma Times(a: nat, b: nat, m: nat)
    requires a <= b
    ensures a * m <= b * m
  {
  }

  lemma OneMore(k: nat, m: nat)
    requires k >= 1
    ensures k * m == (k - 1) * m + m
  {
  }

  /** With room for one more request, those in flight take at most k - 1 times m. */
  lemma OthersAtMost(jobs: seq<Job>, d: Direction, k: nat, m: nat)
    requires Number(jobs, d) <= k - 1 && forall j | j in jobs && j.dir == d :: j.size <= m
    ensures Pending(jobs, d) <= (k - 1) * m
  {
    PendingAtMost(jobs, d, m);
    Times(Number(jobs, d), k - 1, m);
  }

  lemma AppendOne(jobs: seq<Job>, job: Job, d: Direction)
    ensures Pending(jobs + [job], d) == Pending(jobs, d) + (if job.dir == d then job.size else 0)
    ensures Number(jobs + [job], d) == Number(jobs, d) + (if job.dir == d then 1 else 0)
  {
    PendingConcat(jobs, [job], d);
    assert [job][1..] == [];
  }

  /** `others` stands for k - 1 times m: an admitted request fits the limit on top of the usage. */
  lemma AdmittedFits(limits: Usage, st: State, job: Job, d: Direction, others: nat, m: nat)
    requires job.dir == d && job.size <= m && Pending(st.inFlight, d) <= others
    requires FieldOf(d) in st.usage && Passes(st.usage, limits, job.size, d)
    requires Committed(st, d) < Limit(limits, FieldOf(d)) + others && Limit(limits, FieldOf(d)) + others + m < TWO64
    ensures st.usage[FieldOf(d)] + job.size + Pending(st.inFlight, d) < Limit(limits, FieldOf(d)) + others
  {
    var f := FieldOf(d);
    assert Projected(st.usage, f, job.size, d) == st.usage[f] + job.size;
  }

  lemma CheckStep(limits: Usage, st: State, job: Job, d: Direction, k: nat, m: nat)
    requires k >= 1 && Limit(limits, FieldOf(d)) + k * m < TWO64 && Below(limits, st, d, k, m) && Guarded(limits, st, d, m)
    requires Bounded(limits, st, [Check(job)], d, k, m)
    ensures Below(limits, Step(limits, st, Check(job)), d, k, m)
  {
    var st' := Step(limits, st, Check(job));
    AppendOne(st.inFlight, job, d);
    OneMore(k, m);
    if Passes(st.usage, limits, job.size, job.dir) && job.dir == d {
      assert [Check(job)][1..] == [] && Bounded(limits, st', [], d, k, m);
      assert job in st'.inFlight;
      OthersAtMost(st.inFlight, d, k, m);
      if FieldOf(d) in st.usage {
        AdmittedFits(limits, st, job, d, (k - 1) * m, m);
      }
    }
  }

  lemma BelowStep(limits: Usage, st: State, e: Event, d: Direction, k: nat, m: nat)
    requires k >= 1 && Limit(limits, FieldOf(d)) + k * m < TWO64 && Below(limits, st, d, k, m) && Guarded(limits, st, d, m)
    requires Bounded(limits, st, [e], d, k, m)
    ensures Below(limits, Step(limits, st, e), d, k, m) && Guarded(limits, Step(limits, st, e), d, m)
  {
    match e {
      case Check(job) => CheckStep(limits, st, job, d, k, m);
      case Charge(i) => PendingWithout(st.inFlight, i, d);
      case Abort(i) => PendingWithout(st.inFlight, i, d);
      case AddStorage(_) =>
    }
  }

  /** Overshoot is bounded: with at most k requests of size at most m in flight in one direction, its
      usage plus everything in flight stays below the limit plus k - 1 times m in every reachable state. */
  lemma {:induction false} OvershootBound(limits: Usage, st: State, events: seq<Event>, d: Direction, k: nat, m: nat)
    requires k >= 1 && Limit(limits, FieldOf(d)) + k * m < TWO64 && Guarded(limits, st, d, m)
    requires Below(limits, st, d, k, m) && Bounded(limits, st, events, d, k, m)
    ensures Below(limits, Final(limits, st, events, d, k, m), d, k, m)
    decreases events
  {
    if events != [] {
      var st' := Step(limits, st, events[0]);
      assert [events[0]][1..] == [] && Bounded(limits, st', [], d, k, m);
      BelowStep(limits, st, events[0], d, k, m);
      OvershootBound(limits, st', events[1..], d, k, m);
    }
  }

  /** One request at a time never reaches the limit. */
  lemma NeverReachedAlone(limits: Usage, st: State, events: seq<Event>, d: Direction, m: nat)
    requires Limit(limits, FieldOf(d)) + m < TWO64 && Guarded(limits, st, d, m)
    requires Committed(st, d) < Limit(limits, FieldOf(d)) && Bounded(limits, st, events, d, 1, m)
    ensures Committed(Final(limits, st, events, d, 1, m), d) < Limit(limits, FieldOf(d))
  {
    OvershootBound(limits, st, events, d, 1, m);
  }

  // ---- The bound is exact ----

  /** k requests of size m are checked before any of them is charged. */
  function Rush(d: Direction, m: nat, k: nat): seq<Event> {
    if k == 0 then [] else [Check(Job(d, m, false))] + Rush(d, m, k - 1)
  }

  /** They all pass if one of them does. */
  lemma {:induction false} RushFills(limits: Usage, st: State, d: Direction, m: nat, k: nat, most: nat)
    requires Passes(st.usage, limits, m, d) && |st.inFlight| + k <= most && Uniform(st.inFlight, d, m)
    ensures Bounded(limits, st, Rush(d, m, k), d, most, m)
    ensures var end := Final(limits, st, Rush(d, m, k), d, most, m);
            && end.usage == st.usage && Committed(end, d) == Committed(st, d) + k * m
            && |end.inFlight| == |st.inFlight| + k && Uniform(end.inFlight, d, m)
    decreases k
  {
    NumberAtMost(st.inFlight, d);
    if k > 0 {
      var job := Job(d, m, false);
      AppendOne(st.inFlight, job, d);
      OneMore(k, m);
      hide Passes, Committed;
      RushFills(limits, Step(limits, st, Check(job)), d, m, k - 1, most);
    }
  }

  lemma {:induction false} NumberAtMost(jobs: seq<Job>, d: Direction)
    ensures Number(jobs, d) <= |jobs|
  {
    if jobs != [] {
      NumberAtMost(jobs[1..], d);
    }
  }

  function Settle(k: nat): seq<Event> {
    if k == 0 then [] else [Charge(0)] + Settle(k - 1)
  }

  /** Every request in flight goes one way, is charged its size, and is at most m. */
  predicate Uniform(jobs: seq<Job>, d: Direction, m: nat) {
    forall j | j in jobs :: j.dir == d && !j.pin && j.size <= m
  }

  lemma ChargeFirst(limits: Usage, st: State, d: Direction, m: nat)
    requires st.inFlight != [] && Uniform(st.inFlight, d, m)
    ensures var st' := Step(limits, st, Charge(0));
            && Committed(st', d) == Committed(st, d)
            && st'.inFlight == st.inFlight[1..] && Uniform(st'.inFlight, d, m)
  {
    assert st.inFlight[0] in st.inFlight && Without(st.inFlight, 0) == st.inFlight[1..];
  }

  lemma BoundedFirst(limits: Usage, st: State, e: Event, rest: seq<Event>, d: Direction, k: nat, m: nat)
    requires Bounded(limits, st, [], d, k, m) && Enabled(st, e) && Bounded(limits, Step(limits, st, e), rest, d, k, m)
    ensures Bounded(limits, st, [e] + rest, d, k, m)
    ensures Final(limits, st, [e] + rest, d, k, m) == Final(limits, Step(limits, st, e), rest, d, k, m)
  {
    assert ([e] + rest)[1..] == rest;
  }

  /** Charging everything in flight turns what was committed into usage. */
  lemma {:induction false} SettleCharges(limits: Usage, st: State, d: Direction, m: nat, most: nat)
    requires |st.inFlight| <= most && Uniform(st.inFlight, d, m)
    ensures Bounded(limits, st, Settle(|st.inFlight|), d, most, m)
    ensures var end := Final(limits, st, Settle(|st.inFlight|), d, most, m);
            Used(end.usage, FieldOf(d)) == Committed(st, d) && end.inFlight == []
    decreases |st.inFlight|
  {
    NumberAtMost(st.inFlight, d);
    if st.inFlight != [] {
      ChargeFirst(limits, st, d, m);
      assert Bounded(limits, st, [], d, most, m) && Enabled(st, Charge(0));
      hide Committed, Bounded, Final, Step, Uniform;
      var n := |st.inFlight|;
      SettleCharges(limits, Step(limits, st, Charge(0)), d, m, most);
      BoundedFirst(limits, st, Charge(0), Settle(n - 1), d, most, m);
    }
  }

  /** k concurrent requests of size m that pass their checks, and are then charged. */
  function Burst(d: Direction, m: nat, k: nat): seq<Event> {
    Rush(d, m, k) + Settle(k)
  }

  /** One run after another. */
  lemma {:induction false} BoundedConcat(limits: Usage, st: State, a: seq<Event>, b: seq<Event>, d: Direction, k: nat, m: nat)
    requires Bounded(limits, st, a, d, k, m) && Bounded(limits, Final(limits, st, a, d, k, m), b, d, k, m)
    ensures Bounded(limits, st, a + b, d, k, m)
    ensures Final(limits, st, a + b, d, k, m) == Final(limits, Final(limits, st, a, d, k, m), b, d, k, m)
    decreases a
  {
    if a == [] {
      assert a + b == b;
    } else {
      assert (a + b)[1..] == a[1..] + b;
      BoundedConcat(limits, Step(limits, st, a[0]), a[1..], b, d, k, m);
    }
  }

  /** A burst takes the usage itself up by k times m if one of its requests would pass. */
  lemma BurstCharges(limits: Usage, usage: Usage, d: Direction, m: nat, k: nat)
    requires Passes(usage, limits, m, d)
    ensures var st := State(usage, []);
            && Bounded(limits, st, Burst(d, m, k), d, k, m)
            && var end := Final(limits, st, Burst(d, m, k), d, k, m);
               end.inFlight == [] && Used(end.usage, FieldOf(d)) == Used(usage, FieldOf(d)) + k * m
  {
    var st := State(usage, []);
    RushFills(limits, st, d, m, k, k);
    var full := Final(limits, st, Rush(d, m, k), d, k, m);
    SettleCharges(limits, full, d, m, k);
    BoundedConcat(limits, st, Rush(d, m, k), Settle(k), d, k, m);
  }

  /** The bound is reached: from a usage with room for one more request, k concurrent ones take the usage
      itself to the limit plus k - 1 times m, less one. */
  lemma OvershootReached(limit: nat, d: Direction, m: nat, k: nat)
    requires k >= 1 && m < limit < TWO64
    ensures var f := FieldOf(d);
            var limits, st := map[f := limit], State(map[f := limit - 1 - m], []);
            && Guarded(limits, st, d, m) && Below(limits, st, d, k, m) && Bounded(limits, st, Burst(d, m, k), d, k, m)
            && Used(Final(limits, st, Burst(d, m, k), d, k, m).usage, f) == limit + (k - 1) * m - 1
  {
    var f := FieldOf(d);
    assert Passes(map[f := limit - 1 - m], map[f := limit], m, d);
    BurstCharges(map[f := limit], map[f := limit - 1 - m], d, m, k);
    Times(0, k - 1, m);
    OneMore(k, m);
    hide Passes, Bounded, Final;
  }

  // ---- Records without the field ----

  /** A fresh record has no field for a direction before the first charge to it, and the check cannot
      see what is in flight.  Still every run keeps the bound, if and only if one request alone stays
      below the limit. */
  lemma AbsentFieldBoundIff(limits: Usage, usage: Usage, d: Direction, k: nat, m: nat)
    requires FieldOf(d) !in usage && Passes(usage, limits, m, d)
    requires k >= 1 && Limit(limits, FieldOf(d)) + k * m < TWO64
    ensures m < Limit(limits, FieldOf(d)) <==>
            (forall events | Bounded(limits, State(usage, []), events, d, k, m) ::
               Below(limits, Final(limits, State(usage, []), events, d, k, m), d, k, m))
  {
    var st := State(usage, []);
    OneMore(k, m);
    if m < Limit(limits, FieldOf(d)) {
      Times(0, k - 1, m);
      forall events | Bounded(limits, st, events, d, k, m)
        ensures Below(limits, Final(limits, st, events, d, k, m), d, k, m)
      {
        OvershootBound(limits, st, events, d, k, m);
      }
    } else {
      BurstCharges(limits, usage, d, m, k);
      assert !Below(limits, Final(limits, st, Burst(d, m, k), d, k, m), d, k, m);
    }
  }
}
