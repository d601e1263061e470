/** From a client's message to upstream: bind, then limit by cost, then forward. */
module Pipeline {
  import opened Redis
  import opened LimiterKeys
  import opened Calendar
  import opened RateLimit
  import opened JsonRpc
  import SecondWindow
  import DayWindow

  datatype Filters = Filters(httpBlack: seq<string>, wsBlack: seq<string>, justWhite: seq<string>, erigon: seq<string>)

  datatype Transport = Http | WebSocket

  /** What can use up a client's quota on one chain.  `hit` says that the response cache answered. */
  datatype Traffic =
    | Message(client: Client, transport: Transport, req: Request, stamp: nat, now: int, hit: bool)
    | Tendermint(client: Client, path: string, stamp: nat, now: int, hit: bool)
    | Notification(client: Client, stamp: nat, now: int)

  /** The message gets as far as the limiter. */
  predicate Binds(f: Filters, whitelist: seq<string>, e: Traffic) {
    match e
    case Message(client, transport, req, _, _, _) =>
      forall call | call in Calls(req) ::
        && call.rpcMethod != "" && call.rpcMethod !in (if transport == Http then f.httpBlack else f.wsBlack)
        && (client.apiKey in whitelist || call.rpcMethod !in f.justWhite)
    case Tendermint(client, path, _, _, _) => path != "/" && path != client.apiKey && path !in f.httpBlack
    case Notification(_, _, _) => true
  }

  /** What the limiter is asked. */
  function CallOf(e: Traffic): Call {
    match e
    case Message(client, _, req, stamp, now, _) => Call(client, Cost(req), stamp, now)
    case Tendermint(client, _, stamp, now, _) => Call(client, 1, stamp, now)
    case Notification(client, stamp, now) => Call(client, 1, stamp, now)
  }

  /** Individual calls that reach upstream once the limiter let the message pass: a batch always goes
      upstream as a whole, a single call unless the cache answers it. */
  function Upstream(e: Traffic): nat {
    match e
    case Message(_, _, Single(_), _, _, hit) => if hit then 0 else 1
    case Message(_, _, Batch(calls), _, _, _) => |calls|
    case Tendermint(_, _, _, _, hit) => if hit then 0 else 1
    case Notification(_, _, _) => 0
  }

  function Serve(f: Filters, whitelist: seq<string>, db: Db<string>, e: Traffic): (Db<string>, nat) {
    if !Binds(f, whitelist, e) then (db, 0) else
      var (db', v) := Allow(LIVE_MODE, whitelist, db, CallOf(e));
      (db', if v == Passed then Upstream(e) else 0)
  }

  /** Individual calls a run sends upstream, over the traffic whose limiter call `of` selects. */
  function Forwarded(f: Filters, whitelist: seq<string>, db: Db<string>, run: seq<Traffic>, of: Call -> bool): nat
    decreases run
  {
    if run == [] then 0 else
      var (db', k) := Serve(f, whitelist, db, run[0]);
      (if of(CallOf(run[0])) then k else 0) + Forwarded(f, whitelist, db', run[1..], of)
  }

  /** The limiter calls behind a run. */
  function LimiterCalls(f: Filters, whitelist: seq<string>, run: seq<Traffic>): seq<Call> {
    if run == [] then [] else
      (if Binds(f, whitelist, run[0]) then [CallOf(run[0])] else []) + LimiterCalls(f, whitelist, run[1..])
  }

  predicate Timely(run: seq<Traffic>, since: int) {
    run == [] || (since <= run[0].now && Timely(run[1..], run[0].now))
  }

  lemma {:induction false} CallsOrdered(f: Filters, whitelist: seq<string>, run: seq<Traffic>, since: int)
    requires Timely(run, since)
    ensures Ordered(LimiterCalls(f, whitelist, run), since)
    ensures forall x | x in LimiterCalls(f, whitelist, run) :: exists e :: e in run && x == CallOf(e)
  {
    if run != [] {
      var rest := LimiterCalls(f, whitelist, run[1..]);
      CallsOrdered(f, whitelist, run[1..], run[0].now);
      assert ([CallOf(run[0])] + rest)[1..] == rest && [] + rest == rest;
      SecondWindow.OrderedEarlier(rest, since, run[0].now);
      forall x | x in LimiterCalls(f, whitelist, run)
        ensures exists e :: e in run && x == CallOf(e)
      {
        if x in rest {
          var e :| e in run[1..] && x == CallOf(e);
          assert e in run;
        } else {
          assert run[0] in run;
        }
      }
    }
  }

  /** Every individual call sent upstream was paid for. */
  lemma {:induction false} ForwardedIsAdmitted(f: Filters, whitelist: seq<string>, db: Db<string>, run: seq<Traffic>,
                                               of: Call -> bool)
    ensures Forwarded(f, whitelist, db, run, of)
            <= Admitted(LIVE_MODE, whitelist, db, LimiterCalls(f, whitelist, run), of)
    decreases run
  {
    if run != [] {
      hide Allow, Binds;
      var e, db' := run[0], Serve(f, whitelist, db, run[0]).0;
      ForwardedIsAdmitted(f, whitelist, db', run[1..], of);
      var rest := LimiterCalls(f, whitelist, run[1..]);
      assert ([CallOf(e)] + rest)[1..] == rest && [] + rest == rest;
      assert Upstream(e) <= CallOf(e).n;
    }
  }

  /** End to end: of everything a client that is not whitelisted sends on a calendar day, over HTTP and
      WebSocket, in single calls and batches, at most its day quota of individual calls goes upstream. */
  lemma UpstreamDayBound(f: Filters, whitelist: seq<string>, db: Db<string>, run: seq<Traffic>,
                         c: Client, day: nat, since: int)
    requires c.apiKey !in whitelist && Timely(run, since) && DayWindow.Sound(db, c, day, since)
    requires forall e | e in run :: DayWindow.InStep(CallOf(e))
    ensures Forwarded(f, whitelist, db, run, DayWindow.OnDay(c, day)) <= Quota(db, DayQuotaKey(c))
  {
    CallsOrdered(f, whitelist, run, since);
    ForwardedIsAdmitted(f, whitelist, db, run, DayWindow.OnDay(c, day));
    DayWindow.CalendarDayBound(LIVE_MODE, whitelist, db, LimiterCalls(f, whitelist, run), c, day, since);
  }

  /** The same for any interval of seconds. */
  lemma UpstreamIntervalBound(f: Filters, whitelist: seq<string>, db: Db<string>, run: seq<Traffic>,
                              c: Client, since: int, lo: int, seconds: nat)
    requires c.apiKey !in whitelist && Timely(run, since) && SecondWindow.Sound(db, c) && seconds >= 1
    ensures Forwarded(f, whitelist, db, run, SecondWindow.InInterval(c, lo, lo + 1000 * seconds))
            <= SecondWindow.Most(Quota(db, SecQuotaKey(c)), seconds)
  {
    CallsOrdered(f, whitelist, run, since);
    ForwardedIsAdmitted(f, whitelist, db, run, SecondWindow.InInterval(c, lo, lo + 1000 * seconds));
    SecondWindow.IntervalBound(LIVE_MODE, whitelist, db, LimiterCalls(f, whitelist, run), c, since, lo, seconds);
  }

  // ---- The handlers ----

  /** What a handler does with a message: answer an error, or send so many calls upstream. */
  datatype Outcome = Answered(error: RpcError) | Sent(calls: nat, route: Route)

  class JsonRpcHandler {
    const chain: nat
    const filters: Filters
    const limiter: RateLimiter

    constructor (chain: nat, filters: Filters, limiter: RateLimiter)
      ensures this.chain == chain && this.filters == filters && this.limiter == limiter
    {
      this.chain, this.filters, this.limiter := chain, filters, limiter;
    }

    predicate Ready(now: int)
      reads this, limiter, limiter.rdb, limiter.stats
    {
      limiter.rdb as object != limiter.stats && limiter.rdb.now == limiter.stats.now == now
    }

    /** What a call to the limiter leaves in its store and in the aggregates. */
    twostate predicate Limited(call: Call)
      reads this, limiter, limiter.rdb, limiter.stats
    {
      var (db', v) := Allow(LIVE_MODE, limiter.whitelist, old(limiter.rdb.db), call);
      && limiter.rdb.db == db'
      && limiter.stats.db == if v == Passed && call.client.apiKey !in limiter.whitelist
                             then Tally(old(limiter.stats.db), chain, call.stamp, call.n, call.now)
                             else old(limiter.stats.db)
    }

    method Limit(apiKey: string, n: int, stamp: nat, now: int) returns (err: Option<RpcError>)
      requires Ready(now)
      modifies limiter.rdb`db, limiter.stats`db
      ensures Limited(Call(Client(chain, apiKey), n, stamp, now))
      ensures var v := Allow(LIVE_MODE, limiter.whitelist, old(limiter.rdb.db), Call(Client(chain, apiKey), n, stamp, now)).1;
              && (err.None? <==> v == Passed)
              && (err == Some(TooManyRequests) <==> v == RateLimited)
              && (err == Some(JsonRpc.Unauthorized) <==> v == RateLimit.Unauthorized)
              && (err == Some(InternalServerError) <==> v == Failed)
    {
      var v := limiter.AllowCall(Call(Client(chain, apiKey), n, stamp, now));
      match v {
        case Passed => return None;
        case RateLimited => return Some(TooManyRequests);
        case Unauthorized => return Some(JsonRpc.Unauthorized);
        case Failed => return Some(InternalServerError);
      }
    }

    /** The answer to a message that got as far as the limiter. */
    predicate Answers(r: Outcome, v: Verdict) {
      && (r.Sent? <==> v == Passed)
      && (r == Answered(TooManyRequests) <==> v == RateLimited)
      && (r == Answered(JsonRpc.Unauthorized) <==> v == RateLimit.Unauthorized)
      && (r == Answered(InternalServerError) <==> v == Failed)
    }

    /** One HTTP request, or one message of a WebSocket connection. */
    method Handle(apiKey: string, transport: Transport, req: Request, stamp: nat, now: int, hit: bool) returns (r: Outcome)
      requires Ready(now)
      modifies limiter.rdb`db, limiter.stats`db
      ensures var black := if transport == Http then filters.httpBlack else filters.wsBlack;
              var listed := apiKey in limiter.whitelist;
              var cost := if req.Batch? && |req.calls| > 1 then |req.calls| else 1;
              var call := Call(Client(chain, apiKey), cost, stamp, now);
              if forall x | x in Calls(req) :: x.rpcMethod != "" && x.rpcMethod !in black && (listed || x.rpcMethod !in filters.justWhite)
              then
                Limited(call) && Answers(r, Allow(LIVE_MODE, limiter.whitelist, old(limiter.rdb.db), call).1)
              else
                && limiter.rdb.db == old(limiter.rdb.db) && limiter.stats.db == old(limiter.stats.db)
                && exists i | 0 <= i < |Calls(req)| ::
                     && FirstOffence(Calls(req), i, listed, black, filters.justWhite)
                     && r == Answered(if Calls(req)[i].rpcMethod == "" then ParseError else UnsupportedMethod(Calls(req)[i].id))
      ensures r.Sent? ==> r.calls == (if req.Batch? then |req.calls| else if hit then 0 else 1)
                          && (r.route == Erigon <==> exists x :: x in Calls(req) && x.rpcMethod in filters.erigon)
      ensures (limiter.rdb.db, if r.Sent? then r.calls else 0) ==
              Serve(filters, limiter.whitelist, old(limiter.rdb.db),
                    Message(Client(chain, apiKey), transport, req, stamp, now, hit))
    {
      var inWhitelist := limiter.CheckInWhiteList(apiKey);
      var black := if transport == Http then filters.httpBlack else filters.wsBlack;
      var bound := Bind(req, inWhitelist, black, filters.justWhite, filters.erigon);
      if bound.Refused? {
        return Answered(bound.error);
      }
      var err := Limit(apiKey, Cost(bound.req), stamp, now);
      if err.Some? {
        return Answered(err.value);
      }
      match bound.req {
        case Batch(calls) => return Sent(|calls|, bound.route);
        case Single(_) => return Sent(if hit then 0 else 1, bound.route);
      }
    }

    /** A Tendermint request, with its path as split off the URI: methods reserved for whitelisted keys
        play no part here. */
    method TendermintHttp(apiKey: string, path: string, stamp: nat, now: int, hit: bool) returns (r: Outcome)
      requires Ready(now)
      modifies limiter.rdb`db, limiter.stats`db
      ensures var call := Call(Client(chain, apiKey), 1, stamp, now);
              if path != "/" && path != apiKey && path !in filters.httpBlack then
                Limited(call) && Answers(r, Allow(LIVE_MODE, limiter.whitelist, old(limiter.rdb.db), call).1)
              else
                && limiter.rdb.db == old(limiter.rdb.db) && limiter.stats.db == old(limiter.stats.db)
                && r == Answered(if path == "/" || path == apiKey then ParseError else UnsupportedMethod(None))
      ensures r.Sent? ==> r.calls == (if hit then 0 else 1) && r.route == Geth
      ensures (limiter.rdb.db, if r.Sent? then r.calls else 0) ==
              Serve(filters, limiter.whitelist, old(limiter.rdb.db), Tendermint(Client(chain, apiKey), path, stamp, now, hit))
    {
      if path == "/" || path == apiKey {
        return Answered(ParseError);
      }
      var isBlack := In(path, filters.httpBlack);
      if isBlack {
        return Answered(UnsupportedMethod(None));
      }
      var err := Limit(apiKey, 1, stamp, now);
      if err.Some? {
        return Answered(err.value);
      }
      return Sent(if hit then 0 else 1, Geth);
    }

    /** A subscription notification that has been written to the client costs one unit; the writer goes on
        only if the limiter lets it. */
    method Notified(apiKey: string, stamp: nat, now: int) returns (goesOn: bool)
      requires Ready(now)
      modifies limiter.rdb`db, limiter.stats`db
      ensures Limited(Call(Client(chain, apiKey), 1, stamp, now))
      ensures goesOn <==> Allow(LIVE_MODE, limiter.whitelist, old(limiter.rdb.db), Call(Client(chain, apiKey), 1, stamp, now)).1 == Passed
      ensures (limiter.rdb.db, 0) ==
              Serve(filters, limiter.whitelist, old(limiter.rdb.db), Notification(Client(chain, apiKey), stamp, now))
    {
      var err := Limit(apiKey, 1, stamp, now);
      return err.None?;
    }
  }
}
