/** The response cache in front of upstream, shared by the JSON-RPC and the Tendermint proxies. */
module ResponseCache {
  import opened Redis
  import opened LimiterKeys
  import opened JsonRpc

  /** What upstream is asked. */
  datatype Query = Rpc(rpcMethod: string, params: Json) | Path(path: string, urlQuery: string)

  /** A response as parsed. */
  datatype Reply = Reply(id: Option<Json>, version: string, error: Option<Json>, result: Option<Json>)

  /** A cached value: the bare result for JSON-RPC, the whole response for Tendermint. */
  datatype Payload = Result(json: Json) | Whole(reply: Reply)

  datatype Cached = Cached(payload: Payload, expireAt: Option<int>)

  type Cache = map<string, Cached>

  /** One proxy per chain; md5 is rendered in hex. */
  datatype Setup = Setup(md5: string -> string, cacheTime: nat -> int, cacheable: nat -> seq<string>)

  /** A client's call. */
  datatype Ask = Ask(chain: nat, query: Query, id: Option<Json>, version: string)

  function Name(q: Query): string {
    if q.Rpc? then q.rpcMethod else q.path
  }

  function Preimage(q: Query): string {
    if q.Rpc? then q.params else q.path + q.urlQuery
  }

  function KeyOf(md5: string -> string, chain: nat, q: Query): string {
    (if q.Rpc? then "rpc:" else "tendermint:") +
    (Decimal(chain) + ":" + (Name(q) + ":" + md5(Preimage(q))))
  }

  predicate Cacheable(s: Setup, chain: nat, q: Query) {
    Name(q) in s.cacheable(chain)
  }

  predicate Usable(p: Payload) {
    p.Result? ==> p.json != ""
  }

  function Lookup(s: Setup, cache: Cache, chain: nat, q: Query, now: int): Option<Payload> {
    var key := KeyOf(s.md5, chain, q);
    if Cacheable(s, chain, q) && key in cache
       && (cache[key].expireAt.Some? ==> now < cache[key].expireAt.value) && Usable(cache[key].payload)
    then Some(cache[key].payload)
    else None
  }

  /** A cached result goes out under the caller's own id and version; a Tendermint response as it came. */
  function FromCache(ask: Ask, p: Payload): Reply {
    match p
    case Result(json) => Reply(ask.id, ask.version, None, Some(json))
    case Whole(reply) => reply
  }

  function PayloadOf(q: Query, reply: Reply): Payload
    requires reply.result.Some?
  {
    if q.Rpc? then Result(reply.result.value) else Whole(reply)
  }

  /** SET with an expiration of zero or less stores the value for good. */
  function Expiry(cacheTime: int, now: int): Option<int> {
    if cacheTime > 0 then Some(now + cacheTime) else None
  }

  /** Only cacheable queries answered with a result are stored. */
  function Store(s: Setup, cache: Cache, chain: nat, q: Query, reply: Reply, now: int): Cache {
    if Cacheable(s, chain, q) && reply.result.Some? then
      cache[KeyOf(s.md5, chain, q) := Cached(PayloadOf(q, reply), Expiry(s.cacheTime(chain), now))]
    else cache
  }

  /** Hex digits, so no colon. */
  ghost predicate Hex(md5: string -> string) {
    forall x :: ':' !in md5(x)
  }

  predicate NoCollision(md5: string -> string, x: string, y: string) {
    md5(x) == md5(y) ==> x == y
  }

  /** A key belongs to one query only, whatever colons a method or path contains. */
  lemma KeyDetermines(md5: string -> string, c: nat, q: Query, d: nat, r: Query)
    requires Hex(md5) && NoCollision(md5, Preimage(q), Preimage(r))
    requires KeyOf(md5, c, q) == KeyOf(md5, d, r)
    ensures c == d && q == r
  {
    var hq, hr := md5(Preimage(q)), md5(Preimage(r));
    var x, y := Name(q) + ":" + hq, Name(r) + ":" + hr;
    assert KeyOf(md5, c, q)[0] == if q.Rpc? then 'r' else 't';
    assert KeyOf(md5, d, r)[0] == if r.Rpc? then 'r' else 't';
    var n := if q.Rpc? then 4 else 11;
    assert KeyOf(md5, c, q)[n..] == Decimal(c) + ":" + x;
    assert KeyOf(md5, d, r)[n..] == Decimal(d) + ":" + y;
    SplitFirst(Decimal(c), x, Decimal(d), y);
    DecimalInjective(c, d);
    SplitLast(Name(q), hq, Name(r), hr);
    if q.Path? {
      assert q.urlQuery == Preimage(q)[|q.path|..] && r.urlQuery == Preimage(r)[|r.path|..];
    }
  }

  /** The key's text, for a chain that reads `chain`. */
  lemma KeyText(md5: string -> string, chain: string, name: string, rest: string)
    requires Numeral(chain)
    ensures KeyOf(md5, Parse(chain), Rpc(name, rest)) == "rpc:" + chain + ":" + name + ":" + md5(rest)
    ensures KeyOf(md5, Parse(chain), Path(name, rest)) == "tendermint:" + chain + ":" + name + ":" + md5(name + rest)
  {
    DecimalParses(chain);
    Fields("rpc:", chain, name, md5(rest));
    Fields("tendermint:", chain, name, md5(name + rest));
  }

  lemma Fields(family: string, chain: string, name: string, hash: string)
    ensures family + (chain + ":" + (name + ":" + hash)) == family + chain + ":" + name + ":" + hash
  {
  }

  // ---- The proxy ----

  class Proxy {
    const setup: Setup
    const chain: nat
    var cache: Cache
    var requestID: int

    constructor (setup: Setup, chain: nat)
      ensures this.setup == setup && this.chain == chain && cache == map[] && requestID == 0
    {
      this.setup, this.chain := setup, chain;
      cache, requestID := map[], 0;
    }

    /** A single call or a Tendermint request, with what upstream would answer (nothing when it fails).
        A batch bypasses all of this. */
    method Call(ask: Ask, upstream: Option<Reply>, now: int) returns (r: Option<Reply>)
      requires ask.chain == chain
      modifies this
      ensures requestID == old(requestID) + 1
      ensures var key := KeyOf(setup.md5, chain, ask.query);
              var listed := (if ask.query.Rpc? then ask.query.rpcMethod else ask.query.path) in setup.cacheable(chain);
              if listed && key in old(cache) && (old(cache)[key].expireAt.None? || now < old(cache)[key].expireAt.value)
                 && old(cache)[key].payload != Result("")
              then
                && cache == old(cache)
                && r == Some(match old(cache)[key].payload
                             case Result(json) => Reply(ask.id, ask.version, None, Some(json))
                             case Whole(reply) => reply)
              else
                && r == upstream
                && cache == if listed && upstream.Some? && upstream.value.result.Some?
                            then old(cache)[key := Cached(
                              if ask.query.Rpc? then Result(upstream.value.result.value) else Whole(upstream.value),
                              if setup.cacheTime(chain) > 0 then Some(now + setup.cacheTime(chain)) else None)]
                            else old(cache)
      ensures var hit := Lookup(setup, old(cache), chain, ask.query, now);
              if hit.Some? then r == Some(FromCache(ask, hit.value)) && cache == old(cache)
              else r == upstream &&
                   cache == if upstream.Some? then Store(setup, old(cache), chain, ask.query, upstream.value, now) else old(cache)
    {
      requestID := requestID + 1;
      var cacheKey: Option<string> := None;
      var key := KeyOf(setup.md5, chain, ask.query);
      if Name(ask.query) in setup.cacheable(chain) {
        cacheKey := Some(key);
        if key in cache && (cache[key].expireAt.Some? ==> now < cache[key].expireAt.value) && Usable(cache[key].payload) {
          return Some(FromCache(ask, cache[key].payload));
        }
      }
      if upstream.None? {
        return None;
      }
      if cacheKey.Some? && upstream.value.result.Some? {
        cache := cache[cacheKey.value := Cached(PayloadOf(ask.query, upstream.value), Expiry(setup.cacheTime(chain), now))];
      }
      return upstream;
    }
  }

  // ---- Many requests at once ----

  datatype Flight = Flight(ask: Ask, reply: Option<Reply>)

  datatype Stored = Stored(chain: nat, query: Query, reply: Reply, at: int)

  /** The cache, the requests that missed it, and what has happened so far: every upstream reply with
      the call it answered, and every store. */
  datatype State = State(cache: Cache, flights: seq<Flight>, replies: seq<(Ask, Reply)>, stores: seq<Stored>)

  const EMPTY := State(map[], [], [], [])

  /** Lookups, upstream replies and stores of different requests interleave freely. */
  datatype Event = Arrive(ask: Ask, now: int) | Answer(i: nat, reply: Reply, now: int) | Keep(i: nat, now: int)

  predicate Enabled(st: State, e: Event) {
    match e
    case Arrive(_, _) => true
    case Answer(i, _, _) => i < |st.flights| && st.flights[i].reply.None?
    case Keep(i, _) => i < |st.flights| && st.flights[i].reply.Some? && st.flights[i].reply.value.result.Some?
  }

  function Step(s: Setup, st: State, e: Event): State
    requires Enabled(st, e)
  {
    match e
    case Arrive(ask, now) =>
      if Lookup(s, st.cache, ask.chain, ask.query, now).Some? then st
      else st.(flights := st.flights + [Flight(ask, None)])
    case Answer(i, reply, _) =>
      st.(flights := st.flights[i := st.flights[i].(reply := Some(reply))],
          replies := st.replies + [(st.flights[i].ask, reply)])
    case Keep(i, now) =>
      var f := st.flights[i];
      if Cacheable(s, f.ask.chain, f.ask.query) then
        st.(cache := Store(s, st.cache, f.ask.chain, f.ask.query, f.reply.value, now),
            stores := st.stores + [Stored(f.ask.chain, f.ask.query, f.reply.value, now)])
      else st
  }

  predicate Possible(s: Setup, st: State, events: seq<Event>, t: int)
    decreases events
  {
    events == [] ||
    (t <= events[0].now && Enabled(st, events[0]) && Possible(s, Step(s, st, events[0]), events[1..], events[0].now))
  }

  function Final(s: Setup, st: State, events: seq<Event>, t: int): State
    requires Possible(s, st, events, t)
    decreases events
  {
    if events == [] then st else Final(s, Step(s, st, events[0]), events[1..], events[0].now)
  }

  /** A store that accounts for a cache entry. */
  predicate Accounts(s: Setup, x: Stored, key: string, c: Cached) {
    && KeyOf(s.md5, x.chain, x.query) == key && x.reply.result.Some?
    && c == Cached(PayloadOf(x.query, x.reply), Expiry(s.cacheTime(x.chain), x.at))
  }

  /** A reply upstream really gave to this query. */
  predicate Genuine(st: State, chain: nat, q: Query, reply: Reply) {
    exists r | r in st.replies :: r.0.chain == chain && r.0.query == q && r.1 == reply
  }

  predicate Sound(s: Setup, st: State, t: int) {
    && (forall key | key in st.cache :: exists x | x in st.stores :: Accounts(s, x, key, st.cache[key]))
    && (forall x | x in st.stores :: x.at <= t && x.reply.result.Some? && Genuine(st, x.chain, x.query, x.reply))
    && (forall f | f in st.flights && f.reply.Some? :: Genuine(st, f.ask.chain, f.ask.query, f.reply.value))
  }

  lemma GenuineStays(s: Setup, st: State, e: Event, chain: nat, q: Query, reply: Reply)
    requires Enabled(st, e) && Genuine(st, chain, q, reply)
    ensures Genuine(Step(s, st, e), chain, q, reply)
  {
    var r :| r in st.replies && r.0.chain == chain && r.0.query == q && r.1 == reply;
    assert r in Step(s, st, e).replies;
  }

  lemma SoundStep(s: Setup, st: State, e: Event, t: int)
    requires Enabled(st, e) && Sound(s, st, t) && t <= e.now
    ensures Sound(s, Step(s, st, e), e.now)
  {
    var st' := Step(s, st, e);
    forall x | x in st'.stores
      ensures x.at <= e.now && x.reply.result.Some? && Genuine(st', x.chain, x.query, x.reply)
    {
      if x in st.stores {
        GenuineStays(s, st, e, x.chain, x.query, x.reply);
      } else {
        var f := st.flights[e.i];
        GenuineStays(s, st, e, f.ask.chain, f.ask.query, f.reply.value);
      }
    }
    forall f | f in st'.flights && f.reply.Some?
      ensures Genuine(st', f.ask.chain, f.ask.query, f.reply.value)
    {
      if f in st.flights {
        GenuineStays(s, st, e, f.ask.chain, f.ask.query, f.reply.value);
      } else {
        assert (f.ask, f.reply.value) in st'.replies;
      }
    }
    forall key | key in st'.cache
      ensures exists x | x in st'.stores :: Accounts(s, x, key, st'.cache[key])
    {
      if key in st.cache && st'.cache[key] == st.cache[key] {
        var x :| x in st.stores && Accounts(s, x, key, st.cache[key]);
        assert x in st'.stores;
      } else {
        var f := st.flights[e.i];
        var x := Stored(f.ask.chain, f.ask.query, f.reply.value, e.now);
        assert x in st'.stores && Accounts(s, x, key, st'.cache[key]);
      }
    }
  }

  lemma {:induction false} SoundRun(s: Setup, st: State, events: seq<Event>, t: int, end: int)
    requires Possible(s, st, events, t) && Sound(s, st, t)
    requires forall e | e in events :: e.now <= end
    requires t <= end
    ensures Sound(s, Final(s, st, events, t), end)
    decreases events
  {
    if events != [] {
      SoundStep(s, st, events[0], t);
      SoundRun(s, Step(s, st, events[0]), events[1..], events[0].now, end);
    }
  }

  /** The call that this store served. */
  predicate Fresh(s: Setup, x: Stored, ask: Ask, now: int) {
    && x.chain == ask.chain && x.query == ask.query && x.at <= now
    && (s.cacheTime(x.chain) > 0 ==> now - s.cacheTime(x.chain) < x.at)
  }

  /** In every interleaving, whatever is served from the cache comes from a store of the last cache
      time, of a reply upstream really gave to the same chain and query; a JSON-RPC result goes out under
      the caller's own id and version. */
  lemma BoundedStaleness(s: Setup, events: seq<Event>, since: int, ask: Ask, now: int) returns (x: Stored)
    requires Hex(s.md5) && Possible(s, EMPTY, events, since) && since <= now
    requires forall e | e in events :: e.now <= now
    requires forall x | x in Final(s, EMPTY, events, since).stores :: NoCollision(s.md5, Preimage(x.query), Preimage(ask.query))
    requires Lookup(s, Final(s, EMPTY, events, since).cache, ask.chain, ask.query, now).Some?
    ensures var st := Final(s, EMPTY, events, since);
            var served := FromCache(ask, Lookup(s, st.cache, ask.chain, ask.query, now).value);
            && x in st.stores && Fresh(s, x, ask, now) && Genuine(st, ask.chain, ask.query, x.reply)
            && x.reply.result.Some?
            && (ask.query.Rpc? ==> served == Reply(ask.id, ask.version, None, x.reply.result))
            && (ask.query.Path? ==> served == x.reply)
  {
    var st := Final(s, EMPTY, events, since);
    var key := KeyOf(s.md5, ask.chain, ask.query);
    SoundRun(s, EMPTY, events, since, now);
    x :| x in st.stores && Accounts(s, x, key, st.cache[key]);
    KeyDetermines(s.md5, x.chain, x.query, ask.chain, ask.query);
  }

  // ---- Caching refines not caching ----

  /** An upstream whose error and result depend on the chain and the query alone, and which echoes the
      caller's id under version "2.0". */
  datatype Content = Content(error: Option<Json>, result: Option<Json>)

  type Upstream = (nat, Query) -> Content

  function Direct(u: Upstream, ask: Ask): Reply {
    Reply(ask.id, "2.0", u(ask.chain, ask.query).error, u(ask.chain, ask.query).result)
  }

  /** Every upstream reply of the run is the one that upstream gives. */
  predicate Follows(s: Setup, u: Upstream, st: State, events: seq<Event>, t: int)
    requires Possible(s, st, events, t)
    decreases events
  {
    events == [] ||
    (var e := events[0];
     && (e.Answer? ==> e.reply == Direct(u, st.flights[e.i].ask))
     && Follows(s, u, Step(s, st, e), events[1..], e.now))
  }

  lemma {:induction false} RepliesFollow(s: Setup, u: Upstream, st: State, events: seq<Event>, t: int)
    requires Possible(s, st, events, t) && Follows(s, u, st, events, t)
    requires forall r | r in st.replies :: r.1 == Direct(u, r.0)
    ensures forall r | r in Final(s, st, events, t).replies :: r.1 == Direct(u, r.0)
    decreases events
  {
    if events != [] {
      RepliesFollow(s, u, Step(s, st, events[0]), events[1..], events[0].now);
    }
  }

  /** What a single call gets at a given moment: the cache's answer, or upstream's. */
  function Response(s: Setup, u: Upstream, cache: Cache, ask: Ask, now: int): Reply {
    var hit := Lookup(s, cache, ask.chain, ask.query, now);
    if hit.Some? then FromCache(ask, hit.value) else Direct(u, ask)
  }

  /** For a client speaking version "2.0", a JSON-RPC call gets the same id, version and result through
      the cache as straight from upstream, cacheable or not; and exactly the same response unless
      upstream answers the query with an error beside a result. */
  lemma CacheRefinesUpstream(s: Setup, u: Upstream, events: seq<Event>, since: int, ask: Ask, now: int)
    requires Hex(s.md5) && Possible(s, EMPTY, events, since) && since <= now
    requires Follows(s, u, EMPTY, events, since)
    requires forall e | e in events :: e.now <= now
    requires forall x | x in Final(s, EMPTY, events, since).stores :: NoCollision(s.md5, Preimage(x.query), Preimage(ask.query))
    requires ask.query.Rpc? && ask.version == "2.0"
    ensures var st := Final(s, EMPTY, events, since);
            var got, direct := Response(s, u, st.cache, ask, now), Direct(u, ask);
            && got.id == direct.id && got.version == direct.version && got.result == direct.result
            && (got == direct <==> (Lookup(s, st.cache, ask.chain, ask.query, now).Some? ==> direct.error.None?))
  {
    var st := Final(s, EMPTY, events, since);
    if Lookup(s, st.cache, ask.chain, ask.query, now).Some? {
      var x := BoundedStaleness(s, events, since, ask, now);
      RepliesFollow(s, u, EMPTY, events, since);
    }
  }

  /** A stored result of a listed method or path answers every lookup of its query until the cache time
      is over, and for good if that is not positive; and it leaves every other query's lookups alone. */
  lemma StoredUntilExpiry(s: Setup, cache: Cache, chain: nat, q: Query, reply: Reply, at: int,
                          otherChain: nat, other: Query, now: int)
    requires (if q.Rpc? then q.rpcMethod else q.path) in s.cacheable(chain)
    requires reply.result.Some? && (q.Rpc? ==> reply.result.value != "")
    requires Hex(s.md5) && NoCollision(s.md5, Preimage(q), Preimage(other))
    ensures var cache' := Store(s, cache, chain, q, reply, at);
            && Lookup(s, cache', chain, q, now) ==
               (if s.cacheTime(chain) <= 0 || now < at + s.cacheTime(chain)
                then Some(if q.Rpc? then Result(reply.result.value) else Whole(reply)) else None)
            && ((otherChain, other) != (chain, q) ==>
                  Lookup(s, cache', otherChain, other, now) == Lookup(s, cache, otherChain, other, now))
  {
    if KeyOf(s.md5, chain, q) == KeyOf(s.md5, otherChain, other) {
      KeyDetermines(s.md5, chain, q, otherChain, other);
    }
  }

  // ---- Exactly what is served from the cache ----

  /** The method or path of a query is on the chain's list of cacheable ones. */
  predicate Listed(s: Setup, chain: nat, q: Query) {
    (if q.Rpc? then q.rpcMethod else q.path) in s.cacheable(chain)
  }

  /** What keeping a reply records: listed queries only, and always. */
  lemma KeepMeans(s: Setup, st: State, i: nat, now: int)
    requires Enabled(st, Keep(i, now))
    ensures var f := st.flights[i];
            Step(s, st, Keep(i, now)).stores == st.stores +
              if (if f.ask.query.Rpc? then f.ask.query.rpcMethod else f.ask.query.path) in s.cacheable(f.ask.chain)
              then [Stored(f.ask.chain, f.ask.query, f.reply.value, now)] else []
  {
    assert st.stores + [] == st.stores;
  }

  /** The last store under a key, and the last one of a query. */
  function LastUnder(md5: string -> string, stores: seq<Stored>, key: string): Option<Stored> {
    if stores == [] then None else
      var x := stores[|stores| - 1];
      if KeyOf(md5, x.chain, x.query) == key then Some(x) else LastUnder(md5, stores[..|stores| - 1], key)
  }

  function LastStore(stores: seq<Stored>, chain: nat, q: Query): Option<Stored> {
    if stores == [] then None else
      var x := stores[|stores| - 1];
      if x.chain == chain && x.query == q then Some(x) else LastStore(stores[..|stores| - 1], chain, q)
  }

  lemma {:induction false} LastIsLast(md5: string -> string, stores: seq<Stored>, chain: nat, q: Query)
    requires Hex(md5) && forall x | x in stores :: NoCollision(md5, Preimage(x.query), Preimage(q))
    ensures LastUnder(md5, stores, KeyOf(md5, chain, q)) == LastStore(stores, chain, q)
  {
    if stores != [] {
      var n := |stores| - 1;
      if KeyOf(md5, stores[n].chain, stores[n].query) == KeyOf(md5, chain, q) {
        KeyDetermines(md5, stores[n].chain, stores[n].query, chain, q);
      }
      hide KeyOf;
      LastIsLast(md5, stores[..n], chain, q);
    }
  }

  /** Every entry is that of the last store under its key, and only listed queries are ever stored. */
  ghost predicate Exact(s: Setup, st: State) {
    && (forall x | x in st.stores :: Listed(s, x.chain, x.query))
    && (forall key :: key in st.cache <==> LastUnder(s.md5, st.stores, key).Some?)
    && (forall key | key in st.cache :: Accounts(s, LastUnder(s.md5, st.stores, key).value, key, st.cache[key]))
  }

  lemma LastUnderAppend(md5: string -> string, stores: seq<Stored>, x: Stored, key: string)
    ensures LastUnder(md5, stores + [x], key) ==
            if KeyOf(md5, x.chain, x.query) == key then Some(x) else LastUnder(md5, stores, key)
  {
    assert (stores + [x])[..|stores|] == stores;
  }

  lemma ExactStep(s: Setup, st: State, e: Event)
    requires Enabled(st, e) && Exact(s, st)
    ensures Exact(s, Step(s, st, e))
  {
    if e.Keep? {
      var st' := Step(s, st, e);
      KeepMeans(s, st, e.i, e.now);
      if st'.stores != st.stores {
        var x := Stored(st.flights[e.i].ask.chain, st.flights[e.i].ask.query, st.flights[e.i].reply.value, e.now);
        hide KeyOf, LastUnder, Expiry;
        forall key
          ensures key in st'.cache <==> LastUnder(s.md5, st'.stores, key).Some?
          ensures key in st'.cache ==> Accounts(s, LastUnder(s.md5, st'.stores, key).value, key, st'.cache[key])
        {
          LastUnderAppend(s.md5, st.stores, x, key);
        }
      }
    }
  }

  lemma {:induction false} ExactRun(s: Setup, st: State, events: seq<Event>, t: int)
    requires Possible(s, st, events, t) && Exact(s, st)
    ensures Exact(s, Final(s, st, events, t))
    decreases events
  {
    if events != [] {
      hide Exact;
      ExactStep(s, st, events[0]);
      ExactRun(s, Step(s, st, events[0]), events[1..], events[0].now);
    }
  }

  /** In every interleaving: a call is answered from the cache if and only if its method or path is listed
      and its query's last store is neither over nor empty, and then with what that store kept; and
      nothing is ever stored for a query that is not listed. */
  lemma ServedIff(s: Setup, events: seq<Event>, since: int, ask: Ask, now: int)
    requires Hex(s.md5) && Possible(s, EMPTY, events, since)
    requires forall x | x in Final(s, EMPTY, events, since).stores :: NoCollision(s.md5, Preimage(x.query), Preimage(ask.query))
    ensures var st := Final(s, EMPTY, events, since);
            var listed := (if ask.query.Rpc? then ask.query.rpcMethod else ask.query.path) in s.cacheable(ask.chain);
            var last := LastStore(st.stores, ask.chain, ask.query);
            && (last.Some? ==> last.value.reply.result.Some?)
            && Lookup(s, st.cache, ask.chain, ask.query, now) ==
               (if listed && last.Some? && (s.cacheTime(ask.chain) <= 0 || now < last.value.at + s.cacheTime(ask.chain))
                   && (ask.query.Rpc? ==> last.value.reply.result.value != "")
                then Some(if ask.query.Rpc? then Result(last.value.reply.result.value) else Whole(last.value.reply)) else None)
            && (!listed ==> last.None? && KeyOf(s.md5, ask.chain, ask.query) !in st.cache)
  {
    var st := Final(s, EMPTY, events, since);
    ExactRun(s, EMPTY, events, since);
    LastIsLast(s.md5, st.stores, ask.chain, ask.query);
    LastFound(st.stores, ask.chain, ask.query);
    hide KeyOf, LastStore, LastUnder;
  }

  lemma {:induction false} LastFound(stores: seq<Stored>, chain: nat, q: Query)
    ensures var last := LastStore(stores, chain, q);
            last.Some? ==> last.value in stores && last.value.chain == chain && last.value.query == q
  {
    if stores != [] {
      LastFound(stores[..|stores| - 1], chain, q);
    }
  }

  predicate Leads(s: Setup, st: State, events: seq<Event>, t: int, end: State) {
    Possible(s, st, events, t) && Final(s, st, events, t) == end
  }

  lemma Arrived(s: Setup, st: State, t: int)
    ensures Leads(s, st, [], t, st)
  {
  }

  lemma LeadsFirst(s: Setup, st: State, e: Event, rest: seq<Event>, end: State)
    requires Enabled(st, e) && Leads(s, Step(s, st, e), rest, e.now, end)
    ensures Leads(s, st, [e] + rest, e.now, end)
  {
  }

  /** The steps of a call that nothing overlaps. */
  function CallSteps(i: nat, ask: Ask, hit: bool, upstream: Option<Reply>, now: int): seq<Event> {
    [Arrive(ask, now)] + (if hit || upstream.None? then [] else
      [Answer(i, upstream.value, now)] + (if upstream.value.result.None? then [] else [Keep(i, now)] + []))
  }

  /** They change the cache as `Proxy.Call` does. */
  lemma CallAlone(s: Setup, st: State, ask: Ask, upstream: Option<Reply>, now: int)
    ensures var hit := Lookup(s, st.cache, ask.chain, ask.query, now);
            var steps := CallSteps(|st.flights|, ask, hit.Some?, upstream, now);
            exists end :: Leads(s, st, steps, now, end) && end.cache == if hit.Some? || upstream.None? then st.cache
                 else Store(s, st.cache, ask.chain, ask.query, upstream.value, now)
  {
    var i, arrived := |st.flights|, Step(s, st, Arrive(ask, now));
    var hit := Lookup(s, st.cache, ask.chain, ask.query, now).Some?;
    hide Lookup, Store;
    if hit || upstream.None? {
      LeadsFirst(s, st, Arrive(ask, now), [], arrived);
    } else {
      var answer, keep := Answer(i, upstream.value, now), Keep(i, now);
      var answered := Step(s, arrived, answer);
      hide Leads;
      if upstream.value.result.None? {
        Arrived(s, answered, now);
        LeadsFirst(s, arrived, answer, [], answered);
        LeadsFirst(s, st, Arrive(ask, now), [answer] + [], answered);
      } else {
        var kept := Step(s, answered, keep);
        Arrived(s, kept, now);
        LeadsFirst(s, answered, keep, [], kept);
        LeadsFirst(s, arrived, answer, [keep] + [], kept);
        LeadsFirst(s, st, Arrive(ask, now), [answer] + ([keep] + []), kept);
      }
    }
  }
}
