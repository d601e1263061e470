# A Dafny model of chain-api

chain-api is a gateway in front of blockchain nodes.  It admits calls by api key against a quota per
second and a quota per day kept in Redis, answers some calls from a response cache, picks a healthy node
per chain, relays WebSocket frames, and accounts for IPFS transfer and storage.  This project models those
parts and proves what they guarantee over whole runs: any number of calls, in any interleaving, from any
number of clients.  `dafny verify dfyconfig.toml` checks it.

## Modules

| file | what it holds |
|---|---|
| `Redis.dfy` | integer counters with expiry, the commands used on them, and `Count`, the INCRBY-then-EXPIRE idiom |
| `LimiterKeys.dfy` | the limiter's key names as strings: rendering inverts parsing, injective, four disjoint families |
| `Calendar.dfy` | UTC days and days of the month |
| `RateLimit.dfy` | the Lua script, its Go wrapper, runs of calls; the imperative `RateLimiter` |
| `ScriptLaw.dfy` | the limiter spelled out in key texts, numbers and dates, for any store |
| `Isolation.dfy` | calls of different clients commute |
| `SecondWindow.dfy` | what the second counter holds; the bound on every time interval, and that it is exact |
| `DayWindow.dfy` | the bound on every calendar day, and how far the clocks may disagree |
| `DayCounter.dfy` | one lifetime of a day counter: its value and which calls it lets through |
| `RevertModes.dfy` | reverting and not reverting are the same to clients |
| `Aggregates.dfy` | the aggregate counters under concurrency: one EXPIRE per lifetime, conservation |
| `JsonRpc.dfy` | requests, their cost, and binding against blacklists |
| `Pipeline.dfy` | bind, limit, forward: the end-to-end bounds on upstream calls |
| `ResponseCache.dfy` | the cache under any interleaving: exactly what is served, how stale it is; caching refines not caching |
| `NodeHealth.dfy` | health rounds and node selection |
| `Failover.dfy` | requests scanning the flags while a round stores them |
| `IpfsQuota.dfy` | transfer quotas: check, forward, charge, and the exact overshoot |
| `IpfsStorage.dfy` | storage charged against storage recorded, for any uploads in any interleaving |
| `Relay.dfy` | order and completeness of relayed WebSocket frames |

Where the source changes state step by step, a class has the same fields and methods, and each method is
proved equal to a function of the old state; the theorems are about runs of those functions.  Concurrency
is a step relation: an event names who moves, `Possible` says that a list of events can happen in that
order, and every theorem holds for all such lists.

## What the model takes as given

- Redis commands do not fail and each script run is one atomic step; a key is gone once its time to live
  has passed.  Time is in milliseconds.  Lua's numbers are taken to be exact.
- Quotas and the whitelist are written by somebody else and stay fixed; the quotas' fixity over a run is
  a lemma, since no call writes a quota key.
- The service and Redis read clocks that may differ, network latency included: by up to six hours for
  the day bound (`SkewBoundIsExact` shows that this is the most), and by up to a quarter of an hour for
  the aggregate counters, which hour counters of 90 minutes need.
- Aggregate keys come from `cachekey`, which is not part of this model, and are taken to be injective in
  their chain and their hour or day.  `BatchFistOrCreateFiles` is not part of this model either and is
  taken as first-or-create by user and content id.
- md5 is a parameter; a theorem that needs it says that the strings it compares do not collide.
- Block numbers are below 2^63, and sums of sizes fit 64 bits where a lemma says so.  The storage charge
  itself is in wrapping unsigned 64-bit arithmetic.
- Requests are taken as parsed, single or batch; JSON `null` as a whole request is excluded.

## What the source does that its documentation or intent does not say

- The second window lasts n seconds for a call of n units (ratelimit/v1/lua/ratelimit.lua:21); the older
  listing in ratelimit/v1/lua/README.md:38 says one second.  The interval bound covers both.
- With a day quota of 0 the reverted counter looks fresh each time, and every call moves its expiry.
- A usage record without a direction's field hides everything in flight from the check until the first
  charge creates the field: a missing Redis hash reads as an empty one and not as an error
  (ratelimit/v1/ratelimit_ipfs.go:97-98), so the record is never filled from the user's data.  Runs that
  start there keep the overshoot bound exactly if one request alone stays below the limit:
  `AbsentFieldBoundIff`.
- Pinning charges no transfer: the size is assigned to a variable of an inner scope
  (pkg/handler/ipfsHandler.go:260).  A first charge of 0 to a daily counter lets the next
  one move its expiry, and no other first charge does: `ZeroAmountsMoveTheExpiry`.
- An upload charges what it records exactly if nothing of non-zero size is new to its lookups, or the new
  sizes that recording adds nothing for come to the wrapper directory that is subtracted: `AddConservesIff`.  A list that repeats
  a new id, a recorded wrapper directory around a new file, and uploads that overlap can each break this, and
  can make up for one another; `OverlapBalance` says by how much, for any interleaving.
- The subtraction of the wrapper's size wraps around exactly if something is new but less than that size.
- The goroutine that writes to a WebSocket client takes a frame before it writes it; if the write fails that
  frame is lost while the relay is still open (pkg/handler/jsonRpcHandler.go:298-300): `WriterLosesOne`.
- A round whose best block number is within the tolerated lag, as when every probe fails, marks every
  endpoint healthy, even those that are not configured: `DegenerateRound`.

## Model

| member | source | states |
|---|---|---|
| SecondWindow.IntervalBound | ratelimit/v1/lua/ratelimit.lua:19-26 | in every half-open interval of T seconds of every run a client that is not whitelisted is admitted at most (T + 1)Q - 1 units (0 if Q is 0), for windows of n seconds or any constant of at least one |
| SecondWindow.IntervalBoundReached | ratelimit/v1/lua/ratelimit.lua:19-26 | for every Q, T and large enough day quota a run reaches that bound exactly |
| SecondWindow.WindowLaw | ratelimit/v1/lua/ratelimit.lua:19-26 | while a window is open the counter holds the units of all calls, rejected ones included, and a call gets -2 exactly when they exceed the quota |
| SecondWindow.BudgetStep | ratelimit/v1/lua/ratelimit.lua:14-26 | each call's admitted units come out of what the open window and the windows still to open leave |
| DayWindow.CalendarDayBound | ratelimit/v1/lua/ratelimit.lua:28-45 | on every UTC calendar day a client that is not whitelisted is admitted at most its day quota, though the key holds only the day of the month; from any store whose counter of that number is gone before the day opens or lasts until it closes |
| DayWindow.RunsLeaveSound | ratelimit/v1/lua/ratelimit.lua:28-45 | every run, whitelisted calls included, leaves for every client and day a store that the day bound can start from |
| DayWindow.DaysApart | ratelimit/v1/lua/ratelimit.lua:12-35 | a counter outlives every call stamped with its day and is gone before any day with the same number |
| DayWindow.DayStep | ratelimit/v1/lua/ratelimit.lua:28-45 | the invariant behind the day bound: the counter a day finds is gone before it opens or alive until it closes, and admissions come out of what it leaves |
| DayWindow.SkewBoundIsExact | ratelimit/v1/lua.go:27 | with clocks one millisecond further apart than six hours a client gets its quota twice on one day |
| Calendar.RecursAfter28Days | ratelimit/v1/lua.go:27 | two different days with the same day of the month are at least 28 days apart |
| Calendar.DateOfIsGregorian | ratelimit/v1/lua.go:27 | the date of day n, counted forward from 1970, is the Gregorian date whose closed-form day number is n |
| Calendar.DayNumberIsDate | ratelimit/v1/lua.go:27 | and every Gregorian date from 1970 on is the date of its day number |
| DayCounter.LifetimeLaw | ratelimit/v1/lua/ratelimit.lua:28-45 | within a lifetime the day counter is the sum of all units asked for, clamped to the quota when reverting, and a call is admitted exactly when that sum still fits |
| DayCounter.RejectedForGood | ratelimit/v1/lua/ratelimit.lua:38-43 | after one -3 no later call of the lifetime is admitted, however small |
| RevertModes.SameCodes | ratelimit/v1/lua/ratelimit.lua:33-43 | the same calls with revert on and off get the same return codes at every step, for all quotas |
| RevertModes.ClampedCounter | ratelimit/v1/lua/ratelimit.lua:38-41 | the reverted counter reads min(day quota, plain counter) at any time, day quota 0 included |
| RevertModes.OwnAgrees | ratelimit/v1/lua/ratelimit.lua:14-45 | one call keeps the two runs related and gets the same code in both |
| LimiterKeys.KeysInjective | ratelimit/v1/lua/ratelimit.lua:8-12 | no two clients (and days) share a key of any family, whatever characters api keys contain |
| LimiterKeys.FamiliesDisjoint | ratelimit/v1/lua/ratelimit.lua:8-12 | the four key families never meet |
| LimiterKeys.WhitelistKeyIsDayKey | ratelimit/v1/ratelimit.go:55 | the key the whitelist path formats is the script's day key |
| LimiterKeys.DecimalInjective | ratelimit/v1/lua.go:27 | decimal rendering of chain ids and days is injective |
| LimiterKeys.DecimalParses | ratelimit/v1/lua.go:25-27 | every numeral is the rendering of the number it parses to |
| LimiterKeys.ParsesBack | ratelimit/v1/lua.go:25-27 | and every rendering is a numeral that parses to its number |
| Isolation.Commute | ratelimit/v1/ratelimit.go:88-127 | calls of different clients commute: same verdicts and same store in either order |
| Isolation.Locality | ratelimit/v1/lua/ratelimit.lua:8-45 | a call's verdict and what it leaves depend on its client's four keys only |
| Isolation.QuotasFixed | ratelimit/v1/lua/ratelimit.lua:14-45 | no call changes a quota |
| Isolation.VerdictMeans | ratelimit/v1/ratelimit.go:88-127 | when a call passes, fails, or is unauthorised, in terms of the room both counters have, in both directions; a whitelisted call always passes and is counted on the day key |
| RateLimit.RateLimiter.RunScript | ratelimit/v1/lua/ratelimit.lua:1-45 | the script command by command leaves the store and returns the code of `Script` |
| RateLimit.RateLimiter.RunDayStage | ratelimit/v1/lua/ratelimit.lua:28-45 | the day half of the script: count, expire when fresh, revert down to the quota |
| RateLimit.RateLimiter.RedisAllow | ratelimit/v1/lua.go:15-28 | refuses n <= 0 untouched, otherwise runs the script on the tagged key and the day of the month |
| RateLimit.RateLimiter.CheckInWhiteList | ratelimit/v1/ratelimit.go:71-80 | true exactly for keys in the whitelist |
| RateLimit.RateLimiter.AllowWhitelist | ratelimit/v1/ratelimit.go:45-69 | counts on the day key of a whitelisted client and touches nothing otherwise |
| RateLimit.RateLimiter.AllowCall | ratelimit/v1/ratelimit.go:88-127 | a call is one `Allow` step, and adds to the four aggregates exactly when the script admitted it |
| RateLimit.RateLimiter.IncreaseAndSetExpire | pkg/utils/cache.go:12-30 | run alone, increments the counter and sets a positive expiry exactly when it was fresh |
| ScriptLaw.ScriptMeans | ratelimit/v1/lua/ratelimit.lua:1-45 | on any store: the return code from what the keys "q:s:", "q:d:", "s:" and "d:" followed by chain, api key and day show, the two counters it leaves with their expiries, and nothing else changed; with and without revert |
| ScriptLaw.FirstCallCodes | ratelimit/v1/lua/ratelimit.lua:8-45 | a first call of n units under quotas s and d gets -2 iff n > s, else -3 iff n > d, else 1 |
| ScriptLaw.AllowMeans | ratelimit/v1/ratelimit.go:45-127 | a call made on a calendar date: what it answers and leaves, whitelisted, of no units, or limited with revert on the key of that day of the month |
| ScriptLaw.TallyMeans | ratelimit/v1/ratelimit.go:107-114 | the four aggregates of an admitted call and their expiries of 90 minutes and 36 hours |
| Aggregates.OneExpiryPerLifetime | pkg/utils/cache.go:20-29 | with positive amounts, in every interleaving each lifetime of a counter gets exactly one EXPIRE, owed by the only caller between the two commands; when there is none every counter has an expiry |
| Aggregates.ZeroAmountsMoveTheExpiry | pkg/utils/cache.go:20-29 | of two calls in one lifetime of a daily transfer counter, the second moves the expiry if and only if the first added 0 |
| Aggregates.SetterStep | pkg/utils/cache.go:20-29 | the invariant: a counter lacks an expiry exactly while one caller is about to set it |
| Aggregates.JobAlone | pkg/utils/cache.go:20-29 | the two commands without interference are `Count` |
| Aggregates.TallyIsItsJobs | ratelimit/v1/ratelimit.go:107-114 | an uninterrupted admission leaves the counters of its four increments |
| Aggregates.Conservation | ratelimit/v1/ratelimit.go:107-114 | at quiescent points the total counter of a day or hour equals the sum of the 256 chain counters and the units admitted in it |
| Aggregates.TotalsMatchLimiter | ratelimit/v1/ratelimit.go:101-114 | and equals the units the script admitted in the limiter run that caused the increments |
| Aggregates.CounterIsAdmitted | ratelimit/v1/ratelimit.go:107-114 | each single counter reads what was admitted to its bucket |
| Aggregates.BalanceStep | ratelimit/v1/ratelimit.go:107-114 | the invariant: counter plus outstanding increments equals what was charged |
| Aggregates.DeadlinesOutlastBuckets | ratelimit/v1/ratelimit.go:109-113 | expiries of 90 minutes and 36 hours outlast their hour and day |
| JsonRpc.Cost | pkg/jsonrpc/jsonrpc.go:25-35 | a request costs the number of its calls, and at least one |
| JsonRpc.Find | pkg/utils/array.go:3-10 | the first index of a string, or -1 exactly if absent |
| JsonRpc.In | pkg/utils/array.go:12-14 | list membership |
| JsonRpc.ValidateReq | pkg/handler/jsonRpcHandler.go:62-72 | a call is fine exactly if its method is non-empty and not blacklisted; else which error |
| JsonRpc.Bind | pkg/handler/jsonRpcHandler.go:74-107 | accepts exactly requests whose every call has a non-empty method outside the blacklist and, unless the key is whitelisted, outside the methods reserved for whitelisted keys; the first offending call is reported; Erigon exactly when some call asks for it |
| Pipeline.UpstreamDayBound | pkg/handler/jsonRpcHandler.go:180-221 | individual calls sent upstream for a client on a calendar day, over HTTP and WebSocket, batches counted by member, stay within its day quota |
| Pipeline.UpstreamIntervalBound | pkg/handler/jsonRpcHandler.go:340-352 | the same for every interval of seconds and the second quota |
| Pipeline.ForwardedIsAdmitted | pkg/handler/jsonRpcHandler.go:193-204 | every individual call sent upstream was paid for in an admitted limiter call |
| Pipeline.JsonRpcHandler.Handle | pkg/handler/jsonRpcHandler.go:180-221 | which messages bind, for which transport and key; which error is answered in which case; how many calls go upstream and where; the limiter store and the aggregates that are left |
| Pipeline.JsonRpcHandler.TendermintHttp | pkg/handler/jsonRpcHandler.go:223-244 | the same for a Tendermint request, which costs one unit |
| Pipeline.JsonRpcHandler.Notified | pkg/handler/jsonRpcHandler.go:302-308 | a delivered subscription notification costs one unit, and the writer goes on only if it is admitted |
| Pipeline.JsonRpcHandler.Limit | pkg/handler/jsonRpcHandler.go:141-155 | how the limiter's verdict becomes an error |
| ResponseCache.BoundedStaleness | pkg/proxy/jsonRpcProxy.go:92-153 | in every interleaving a cached answer comes from a store within the last cache time of a reply upstream gave to the same chain and query, under the caller's id and version |
| ResponseCache.CacheRefinesUpstream | pkg/proxy/jsonRpcProxy.go:92-149 | with a fixed echoing upstream a single call gets the same id, version and result as directly; the same response exactly unless a cached answer drops an error beside the result |
| ResponseCache.KeyDetermines | pkg/proxy/jsonRpcProxy.go:118-119 | cache keys determine chain and query, across both families |
| ResponseCache.StoredUntilExpiry | pkg/proxy/jsonRpcProxy.go:151-153 | a stored result answers its query exactly until the cache time is over, for good if that is not positive, and no other query |
| ResponseCache.ServedIff | pkg/proxy/jsonRpcProxy.go:113-153 | in every interleaving a call is answered from the cache if and only if its method or path is listed and its query's last store is neither over nor empty, and then with that store's result; nothing is stored for one that is not listed |
| ResponseCache.KeepMeans | pkg/proxy/jsonRpcProxy.go:196-201 | a reply with a result is stored exactly for listed methods and paths |
| ResponseCache.CallAlone | pkg/proxy/jsonRpcProxy.go:92-204 | the steps of a call that nothing overlaps leave the cache that `Proxy.Call` leaves |
| ResponseCache.KeyText | pkg/proxy/tendermintRpcProxy.go:49-54 | the text of the cache keys of both families |
| ResponseCache.SoundStep | pkg/proxy/tendermintRpcProxy.go:49-117 | the invariant: every cache entry is accounted for by a store of a genuine reply |
| ResponseCache.Proxy.Call | pkg/proxy/jsonRpcProxy.go:92-204 | one call through either proxy: a listed one with a live, non-empty entry is answered from it and changes nothing; any other gets upstream's answer, and a listed one's result is stored |
| NodeHealth.RpcHandler.CheckNodes | pkg/handler/rpcHandler.go:288-409 | a round sets each flag it judges exactly if its number is within the lag of the best number seen, and leaves the third flag alone: WebSocket on Tron, extra write elsewhere |
| NodeHealth.RpcHandler.StoreFlags | pkg/handler/rpcHandler.go:321-325 | which flags a round stores and which it does not touch |
| NodeHealth.RpcHandler.ProbeNode | pkg/handler/rpcHandler.go:343-389 | which numbers a node's probes record, per chain type |
| NodeHealth.Max | pkg/handler/rpcHandler.go:390 | the greatest element, 0 for none |
| NodeHealth.BestMeans | pkg/handler/rpcHandler.go:340-390 | per chain type, the best number of a round is the greatest that any endpoint answered, 0 if none did |
| NodeHealth.EvmRound | pkg/handler/rpcHandler.go:392-396 | EVM and SVM: the flags are set exactly for endpoints that answered close enough to the best, WebSocket only when not behind HTTP, and at least one is set |
| NodeHealth.TronRound | pkg/handler/rpcHandler.go:288-338 | the same for Tron with its extra write API |
| NodeHealth.AptosRound | pkg/handler/rpcHandler.go:353-361 | Aptos: the HTTP flag is set exactly for nodes that answered close enough to the best, and at least one is; no WebSocket flag is |
| NodeHealth.DegenerateRound | pkg/handler/rpcHandler.go:392-396 | a best number within the lag sets every flag; a negative lag clears every flag |
| NodeHealth.UnprobedSecond | pkg/handler/rpcHandler.go:363-388 | Aptos and unknown chains: WebSocket flags are set exactly if the best number is within the lag; unknown chains have best number 0 |
| NodeHealth.RpcHandler.GetHealthyNode | pkg/handler/rpcHandler.go:93-100 | the least index with its flag set, or none exactly if no flag is |
| NodeHealth.RpcHandler.GetHealthyWsNode | pkg/handler/rpcHandler.go:111-118 | the same for the WebSocket flag |
| NodeHealth.RpcHandler.GetHealthyExtraWriteNode | pkg/handler/rpcHandler.go:102-109 | the same for the extra write flag |
| NodeHealth.Node.constructor | pkg/handler/rpcHandler.go:70-80 | flags start set exactly for configured endpoints |
| Failover.RacingScan | pkg/handler/rpcHandler.go:93-118 | a scan racing with rounds returns a node judged healthy, and passes only nodes judged unhealthy, in some round it could see; it does not fail if one is healthy in all of them |
| Failover.RacingScanAnswered | pkg/handler/rpcHandler.go:340-396 | on EVM and SVM chains the node a racing scan returns answered within the lag in a round the scan could see, and a node that did in all of them keeps the scan from failing |
| Failover.ScanWindow | pkg/handler/rpcHandler.go:93-118 | the rounds a scan can see: from the newest stored in full when it began to the newest at its end |
| Failover.ScanAlone | pkg/handler/rpcHandler.go:93-118 | a scan that no store interrupts returns the first node whose flag is set, or fails if none is |
| Failover.WrittenStep | pkg/handler/rpcHandler.go:392-396 | the invariant: each flag holds the newest round's judgement once stored, before that the previous one's |
| Failover.SoundStep | pkg/handler/rpcHandler.go:321-325 | writer and reader steps keep what every scan may conclude |
| IpfsQuota.OvershootBound | pkg/handler/ipfs_proxy.go:36-56 | with at most K requests of at most M bytes in flight, usage plus what is in flight stays below limit + (K - 1)M in every reachable state, if the usage field is present or M is below the limit |
| IpfsQuota.NeverReachedAlone | pkg/handler/ipfs_proxy.go:143-153 | with one request at a time usage never reaches the limit |
| IpfsQuota.OvershootReached | ratelimit/v1/ratelimit_ipfs.go:76-91 | k concurrent requests take the usage itself to limit + (k - 1)M - 1, the most the bound allows |
| IpfsQuota.SettleCharges | pkg/handler/ipfs_proxy.go:143-153 | once every transfer in flight has been charged, usage equals what usage and flight added up to before |
| IpfsQuota.AbsentFieldBoundIff | ratelimit/v1/ratelimit_ipfs.go:76-142 | from a record without the field, every run keeps the bound if and only if M is below the limit |
| IpfsQuota.BurstCharges | pkg/handler/ipfs_proxy.go:143-153 | k requests checked before any is charged all pass if one does, and take the usage up by kM |
| IpfsQuota.Limiter.CheckIPFSLimit | ratelimit/v1/ratelimit_ipfs.go:56-92 | passes exactly if every usage field present stays below its limit, in 64-bit arithmetic |
| IpfsQuota.Limiter.BandwidthHook | ratelimit/v1/ratelimit_ipfs.go:23-54 | a whitelisted client is only counted on its day key; any other client's size is added to the usage field and the daily counter of its direction, and to nothing else |
| IpfsQuota.Limiter.Proxy | pkg/handler/ipfs_proxy.go:36-153 | check, forward, charge on status 200 only; a pin charges nothing; other paths are neither checked nor charged |
| IpfsQuota.PassesMeans | ratelimit/v1/ratelimit_ipfs.go:76-91 | the check field by field: uploads need room in transfer and storage, downloads in transfer, and the other fields must be below their limits |
| IpfsQuota.RequestAlone | pkg/handler/ipfs_proxy.go:36-153 | a request that nothing interferes with is the run check, then charge or abort, and leaves the usage that `Limiter.Proxy` leaves |
| IpfsQuota.UsageIsCharged | ratelimit/v1/ratelimit_ipfs.go:41-49 | in every interleaving a usage field reads its start and what was charged to it |
| IpfsStorage.StorageConserved | service/ipfsService.go:142-191 | over any sequence of uploads of any users, total storage equals the recorded files, wrapper directories aside, at all times if and only if every upload of the user is exact |
| IpfsStorage.AddConservesIff | service/ipfsService.go:147-191 | any one upload, repeated ids or not, charges what it records if and only if nothing is new or what recording loses is the wrapper's size; the subtraction wraps around only if the wrapper is already recorded |
| IpfsStorage.OverlapConservesIff | service/ipfsService.go:165-191 | the same for an upload whose lookups saw an earlier table than it records into, and when exactly the subtraction wraps around |
| IpfsStorage.OverlapBalance | service/ipfsService.go:142-191 | in every interleaving of lookups, charges and recordings, total storage differs from the recorded files by exactly what the recorded uploads drifted |
| IpfsStorage.NoDriftIff | service/ipfsService.go:165-191 | a recording in such a run drifts by nothing if and only if nothing was new or what it loses is the wrapper's size |
| IpfsStorage.Accounting | service/ipfsService.go:165-191 | recording adds everything the lookups did not find, less wrappers and files present by then |
| IpfsStorage.ProperExactIff | service/ipfsService.go:147-191 | a list without repetition is exact if and only if its wrapper is not recorded while something listed is new |
| IpfsStorage.UploadAlone | service/ipfsService.go:142-191 | an upload whose steps nothing overlaps comes to one `Step` |
| IpfsStorage.DuplicateIsChargedTwice | service/ipfsService.go:166-175 | a new id listed twice is charged twice and recorded once, whatever the table |
| IpfsStorage.OverlapChargesTwice | service/ipfsService.go:166-191 | a run of two overlapping uploads of one new file charges it twice and records it once |
| IpfsStorage.Service.Add | service/ipfsService.go:142-191 | an upload is one `Step`: charge, then record |
| IpfsStorage.Service.SumNew | service/ipfsService.go:166-175 | sums the sizes of unrecorded files modulo 2^64 |
| IpfsStorage.Service.BuildRows | service/ipfsService.go:152-165 | the rows an upload asks for |
| Relay.RelayOrder | pkg/proxy/websocket.go:109-229 | in every interleaving the client gets a prefix of each upstream's frames in order; before close nothing is missing but the frame in hand and one frame over all senders that the writer took; closed stays closed |
| Relay.WriterLosesOne | pkg/handler/jsonRpcHandler.go:270-303 | a run in which the writer loses a frame and nothing is closed |
| Relay.NothingAfterTheWriter | pkg/handler/jsonRpcHandler.go:270-303 | once the writer is gone nothing reaches the client |
| Relay.OrderStep | pkg/proxy/websocket.go:37-52 | each step keeps delivered, at the writer and in hand together equal to what was read, until a drop |
| Relay.TakenIsGiven | pkg/proxy/websocket.go:131-178 | in every interleaving what a sender has taken is every frame it was given: batches and decodable frames in order |
| Relay.ReaderStops | pkg/proxy/websocket.go:131-149 | a reader that fails to read or decode is finished for good |
| Relay.NothingAfterClose | pkg/proxy/websocket.go:37-52 | once closed nothing gets past the relay but what a sender has on the channel, and nothing once the channel is closed |
| Relay.SendAlone | pkg/proxy/websocket.go:37-52 | the relay's steps for a send nothing interferes with come to what `Client.Send` does |
| Relay.Client.Send | pkg/proxy/websocket.go:37-52 | sends unless closed; a closed channel is recovered by closing the client |
| Relay.Client.SetClosed | pkg/proxy/websocket.go:31-35 | sets closed and nothing else |

## Left out

- RateLimit.RateLimiter.AllowCall: runs its commands at one instant with nothing in between; `Aggregates` interleaves the increments of many calls.
- Relay.Client.Send: does not block; in the relay's steps a send waits until the writer takes its frame.
- Pipeline.UpstreamDayBound: counts a call on the day its admission is stamped with, because a call admitted just before midnight may reach upstream just after it.
- Pipeline.JsonRpcHandler.Handle: takes the cache's answer as an input, so the bound holds whatever the cache does; an upstream failure after the forward changes the answer only.
- ResponseCache.BoundedStaleness: measures age from the store, because the time between an upstream reply and its store is not bounded by the source.
- NodeHealth.RpcHandler.CheckNodes: probes are inputs and are taken as done before the flags are stored.
- IpfsQuota.OvershootBound: transfer of one direction in whole requests; the limiter call at the start of each request is that of `RateLimit`.
- IpfsStorage.StorageConserved: sizes fit 64 bits together; the storage usage field in Redis gets the same amounts.
- The WebSocket table of pending requests, id overwriting and the subscription test: they depend on Go's dynamic types; every decodable frame is relayed.
- An upstream frame that is empty after trimming, on which the reader indexes out of range.
- JSON decoding, jq queries, configuration parsing, number parsing and the rendering of responses.
- HTTP, WebSocket and Redis transport, timeouts, logging and metrics; Erigon call statistics; node error counters.
- Masking of node addresses, path and gateway handling, header copying, pinning itself, user and gateway lookup.
- Wiring of chains and their method lists.
