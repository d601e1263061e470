/** Reverting the day counter after a rejection is invisible to clients. */
module RevertModes {
  import opened Redis
  import opened LimiterKeys
  import opened RateLimit
  import opened Isolation

  function Min(a: int, b: int): int {
    if a <= b then a else b
  }

  /** How a day counter of the reverting run (in r) relates to that of the plain run (in p). */
  predicate CountersAgree(r: Db<string>, p: Db<string>, k: string, q: int) {
    if q >= 1 then
      && (k in r <==> k in p)
      && (k in r ==> r[k].expireAt == p[k].expireAt && p[k].value >= 1 && r[k].value == Min(q, p[k].value))
    else
      // The reverted counter sits at the quota; at quota 0 it looks fresh each time and outlives the plain one.
      && (k in r ==> r[k].value == q)
      && (k in p ==> p[k].value >= 1)
  }

  predicate AgreeAt(whitelist: seq<string>, r: Db<string>, p: Db<string>, c: Client, day: nat) {
    && SameAt(r, p, SecQuotaKey(c)) && SameAt(r, p, DayQuotaKey(c)) && SameAt(r, p, SecKey(c))
    && if c.apiKey in whitelist || DayQuotaKey(c) !in r then SameAt(r, p, DayKey(c, day))
       else CountersAgree(r, p, DayKey(c, day), r[DayQuotaKey(c)].value)
  }

  ghost predicate Agree(whitelist: seq<string>, r: Db<string>, p: Db<string>) {
    forall c, day :: AgreeAt(whitelist, r, p, c, day)
  }

  function Reverting(w: Window): Mode { Mode(w, true) }

  function Plain(w: Window): Mode { Mode(w, false) }

  lemma DayStageAgrees(w: Window, whitelist: seq<string>, r: Db<string>, p: Db<string>, c: Client, day: nat, n: int, now: int)
    requires AgreeAt(whitelist, r, p, c, day) && c.apiKey !in whitelist && n > 0
    ensures var (r', x) := DayStage(Reverting(w), r, c, day, n, now);
            var (p', y) := DayStage(Plain(w), p, c, day, n, now);
            x == y && AgreeAt(whitelist, r', p', c, day)
  {
    hide DayKey, DayQuotaKey, SecKey, SecQuotaKey;
    FamiliesDisjoint(c, c, day);
  }

  lemma CountAgrees(whitelist: seq<string>, r: Db<string>, p: Db<string>, c: Client, day: nat, k: string,
                    n: int, ttl: int, now: int)
    requires AgreeAt(whitelist, r, p, c, day)
    requires k == SecKey(c) || (k == DayKey(c, day) && c.apiKey in whitelist)
    ensures AgreeAt(whitelist, Count(r, k, n, ttl, now), Count(p, k, n, ttl, now), c, day)
  {
    hide DayKey, DayQuotaKey, SecKey, SecQuotaKey;
    FamiliesDisjoint(c, c, day);
  }

  lemma OwnAgrees(w: Window, whitelist: seq<string>, r: Db<string>, p: Db<string>, call: Call)
    requires AgreeAt(whitelist, r, p, call.client, DayOf(call))
    ensures Code(Reverting(w), whitelist, r, call) == Code(Plain(w), whitelist, p, call)
    ensures AgreeAt(whitelist, Allow(Reverting(w), whitelist, r, call).0, Allow(Plain(w), whitelist, p, call).0,
                    call.client, DayOf(call))
  {
    hide DayKey, DayQuotaKey, SecKey, SecQuotaKey, Count, DayStage, AgreeAt;
    var c, day, n, now := call.client, DayOf(call), call.n, call.now;
    assert SameAt(r, p, SecQuotaKey(c)) && SameAt(r, p, SecKey(c)) by {
      ReadsAgree(whitelist, r, p, c, day);
    }
    if c.apiKey in whitelist {
      CountAgrees(whitelist, r, p, c, day, DayKey(c, day), n, DAY_COUNTER_TTL, now);
    } else if n > 0 {
      var ttl := SecondTtl(w, n);
      CountAgrees(whitelist, r, p, c, day, SecKey(c), n, ttl, now);
      DayStageAgrees(w, whitelist, Count(r, SecKey(c), n, ttl, now), Count(p, SecKey(c), n, ttl, now), c, day, n, now);
    }
  }

  lemma ReadsAgree(whitelist: seq<string>, r: Db<string>, p: Db<string>, c: Client, day: nat)
    requires AgreeAt(whitelist, r, p, c, day)
    ensures SameAt(r, p, SecQuotaKey(c)) && SameAt(r, p, SecKey(c))
  {
  }

  /** The call leaves every other counter as it was, in both runs. */
  lemma OtherAgrees(w: Window, whitelist: seq<string>, r: Db<string>, p: Db<string>, call: Call, c: Client, day: nat)
    requires AgreeAt(whitelist, r, p, call.client, DayOf(call)) && AgreeAt(whitelist, r, p, c, day)
    ensures AgreeAt(whitelist, Allow(Reverting(w), whitelist, r, call).0, Allow(Plain(w), whitelist, p, call).0, c, day)
  {
    hide Allow, DayKey, DayQuotaKey, SecKey, SecQuotaKey;
    OwnAgrees(w, whitelist, r, p, call);
    if c != call.client || day != DayOf(call) {
      KeysInjective(c, call.client, day, DayOf(call));
      FamiliesDisjoint(c, call.client, DayOf(call));
      FamiliesDisjoint(call.client, c, day);
      Frame(Reverting(w), whitelist, r, call, DayKey(c, day));
      Frame(Plain(w), whitelist, p, call, DayKey(c, day));
      Frame(Reverting(w), whitelist, r, call, DayQuotaKey(c));
      Frame(Plain(w), whitelist, p, call, DayQuotaKey(c));
      Frame(Reverting(w), whitelist, r, call, SecQuotaKey(c));
      Frame(Plain(w), whitelist, p, call, SecQuotaKey(c));
      if c != call.client {
        Frame(Reverting(w), whitelist, r, call, SecKey(c));
        Frame(Plain(w), whitelist, p, call, SecKey(c));
      }
    }
  }

  /** The same calls from agreeing stores get the same return codes at every step, whether or not the
      script reverts, and the stores agree again at the end. */
  lemma {:induction false} SameCodes(w: Window, whitelist: seq<string>, r: Db<string>, p: Db<string>, calls: seq<Call>)
    requires Agree(whitelist, r, p)
    ensures Codes(Reverting(w), whitelist, r, calls) == Codes(Plain(w), whitelist, p, calls)
    ensures Agree(whitelist, After(Reverting(w), whitelist, r, calls), After(Plain(w), whitelist, p, calls))
    decreases calls
  {
    hide Allow, Code, AgreeAt;
    if calls != [] {
      var call := calls[0];
      var r', p' := Allow(Reverting(w), whitelist, r, call).0, Allow(Plain(w), whitelist, p, call).0;
      OwnAgrees(w, whitelist, r, p, call);
      forall c, day
        ensures AgreeAt(whitelist, r', p', c, day)
      {
        OtherAgrees(w, whitelist, r, p, call, c, day);
      }
      SameCodes(w, whitelist, r', p', calls[1..]);
    }
  }

  /** A store without day counters agrees with itself. */
  lemma FreshStoreAgrees(whitelist: seq<string>, db: Db<string>)
    requires forall c, day :: DayKey(c, day) !in db
    ensures Agree(whitelist, db, db)
  {
  }

  /** Where stores agree, the reverted counter reads as the plain one clamped to the quota, at any time
      and for every quota, zero included. */
  lemma ClampedCounter(whitelist: seq<string>, r: Db<string>, p: Db<string>, c: Client, day: nat, q: nat, t: int)
    requires Agree(whitelist, r, p) && c.apiKey !in whitelist
    requires DayQuotaKey(c) in p && p[DayQuotaKey(c)].value == q
    ensures Value(r, DayKey(c, day), t) == Min(q, Value(p, DayKey(c, day), t))
  {
    assert AgreeAt(whitelist, r, p, c, day);
  }
}
