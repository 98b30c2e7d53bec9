# Holmes traffic filter, modelled in Dafny

Holmes reads web access-log records from a Redis queue on its first
connection (`redisConn1`). It decides for each record whether the request
came from a human (YES), a bot (NO) or is still undecided (UNKNOWN). The
client sets and the buffers live on the second connection (`redisConn2`),
and the per-minute counters of the outcomes on the third (`redisConn3`).

The decision is a cascade of four stages, each of which also bumps counters:

- the user agent;
- a `/prop/view/` page;
- a 2xx status;
- a white-listed client.

A `/prop/view/` page with a 2xx status, whose user agent passes, from a
client not yet white-listed, is buffered in the client's watching list
`WL_<addr>`. A non-2xx view is counted but never buffered. When that client
later requests a page outside `/prop/view/` on the search host
(`^s.anjuke.com`) with a passing user agent, the buffer is drained; a view
page on the search host is buffered like any other, and a rejected user
agent drains nothing. Each buffered view is judged by its referer and
counted at its own minute. The client is white-listed if any buffered view
had a referer that is neither `-` nor contains `my.anjuke.com`.

The model has these modules:

- `Redis` is the key-value store the filter uses. `Store` is a value with
  counter hashes, sets and lists; the observers `HashValue`, `Members` and
  `List` give the defaults Redis gives for a missing key. `RedisConn` is a
  class holding one server's keyspace, with one method per command the
  filter issues.
- `GoStrings` holds the string tests the filter uses: `strings.ToLower`,
  `strings.Contains`, the anchored regular expressions `^/prop/view/` and
  `^2` as prefix tests, and `^s.anjuke.com` with its two unescaped dots as
  wildcards.
- `FilterSpec` gives every filter function as a pure function. The input is
  the state of the two stores (`World`: `conn` for sets and lists, `stats`
  for counters) together with the record. The output is the verdict and the
  new state.
- `Filter` is the program as written: methods that issue the store commands
  one by one on two `RedisConn` objects. Each method is proved to compute
  exactly its `FilterSpec` counterpart. This includes the counted pop loop
  of `ProcessWatchingList`, with its loop invariant.
- `Stages`, `Correlation`, `Invariants` and `Scenarios` prove what the
  filter promises, about the `FilterSpec` functions:
  - stage by stage;
  - for the drain, in closed form;
  - over any number of loop iterations;
  - on the end-to-end scenarios.

The functions the filter calls but whose code is not part of this model are
fields of `Externals`, as uninterpreted functions:

- `GetLog` parses a line.
- `AccessLog.String` serialises a record.
- `LogTimeMinString` gives a record's minute.
- `Parse` is the user-agent classifier.

The correlation engine rests on one assumption about them, stated as
`RoundTrip`: re-parsing a serialised record gives back its referer and its
minute. Only the lemmas that need it require it.

## Model

| member | source | states |
|---|---|---|
| Filter.DoFilter | src/holmes/filter.go:72-74 | the program's cascade returns the verdict and leaves both stores as `FilterSpec.DoFilter` says |
| Filter.UserAgentFilter | src/holmes/filter.go:76-102 | the UA stage's commands give exactly `FilterSpec.UserAgentFilter`'s verdict and stores |
| Filter.URIFilter | src/holmes/filter.go:104-115 | the URI stage's commands give exactly `FilterSpec.URIFilter`'s verdict and stores |
| Filter.HttpCodeFilter | src/holmes/filter.go:117-126 | the status stage's commands give exactly `FilterSpec.HttpCodeFilter`'s verdict and stores |
| Filter.RefererFilter | src/holmes/filter.go:128-160 | the referer test touches only the counter store and gives exactly `FilterSpec.RefererFilter`'s verdict and counters |
| Filter.WhiteIpFilter | src/holmes/filter.go:186-193 | the white-list stage's commands give exactly `FilterSpec.WhiteIpFilter`'s verdict and stores |
| Filter.AddRefererList | src/holmes/filter.go:195-199 | the two SADDs leave the set store as `FilterSpec.AddRefererList` says |
| Filter.DelRefererList | src/holmes/filter.go:201-205 | SREM and DEL leave the set store as `FilterSpec.DelRefererList` says |
| Filter.AddWatchingList | src/holmes/filter.go:207-212 | HINCRBY, SADD and LPUSH leave both stores as `FilterSpec.AddWatchingList` says |
| Filter.DelWatchingList | src/holmes/filter.go:214-217 | SREM and DEL leave the set store as `FilterSpec.DelWatchingList` says |
| Filter.AddWhiteList | src/holmes/filter.go:219-221 | the SADD leaves the set store as `FilterSpec.AddWhiteList` says |
| Filter.Analysis | src/holmes/filter.go:227-233 | only a search-host request triggers the drain; the stores end as `FilterSpec.Analysis` says |
| Filter.ProcessWatchingList | src/holmes/filter.go:235-260 | draining the buffer, then deleting it and the page URLs and white-listing on the trust flag, gives exactly `FilterSpec.ProcessWatchingList` |
| Filter.DrainBuffer | src/holmes/filter.go:237-254 | popping the buffer LLEN times from the left empties it, keeps every other key, and leaves the counters and the trust flag of `FilterSpec.Drain` (loop invariant) |
| Filter.DrainStep | src/holmes/filter.go:240-253 | one round pops the left end, moves the counters as `FilterSpec.DrainEntry` says, and the drain of the rest then completes the drain of the whole buffer |
| Filter.FilterIteration | src/holmes/filter.go:40-63 | one iteration on a dequeued line gives exactly `FilterSpec.FilterIteration`: a timeout line does nothing |
| Redis.Store.HashIncrby | src/holmes/redis.go:164-174 | HINCRBY adds the signed delta to one field and touches no other field, set or list |
| Redis.Store.SetAdd | src/holmes/redis.go:334-344 | SADD adds the member to one set and changes no other key |
| Redis.Store.SetRem | src/holmes/redis.go:346-356 | SREM removes the member from one set and changes no other key |
| Redis.Store.ListLeftPush | src/holmes/redis.go:214-226 | LPUSH makes the item the new left end, so the list grows by one, and changes no other key |
| Redis.Store.ListLeftPop | src/holmes/redis.go:228-244 | LPOP returns and removes the left end; on an empty list it returns "" and changes nothing |
| Redis.Store.KeyDel | src/holmes/redis.go:83-93 | DEL empties the key whatever its type and keeps every other key |
| Redis.PushThenPop | src/holmes/redis.go:214-244 | LPUSH then LPOP on one key gives back the pushed item and the list as it was |
| Redis.PushOrder | src/holmes/redis.go:214-226 | two LPUSHes leave the later item at the left end |
| Redis.RedisConn.HashIncrby | src/holmes/redis.go:164-174 | the connection's keyspace becomes `Store.HashIncrby` of the old one; returns the field's new value |
| Redis.RedisConn.SetAdd | src/holmes/redis.go:334-344 | the keyspace becomes `Store.SetAdd` of the old one; returns 1 iff the member is new |
| Redis.RedisConn.SetRem | src/holmes/redis.go:346-356 | the keyspace becomes `Store.SetRem` of the old one; returns 1 iff the member was there |
| Redis.RedisConn.SetIsMember | src/holmes/redis.go:358-368 | returns 1 iff the member is in the set, else 0 |
| Redis.RedisConn.ListLen | src/holmes/redis.go:182-192 | returns the length of the list, 0 for a missing key |
| Redis.RedisConn.ListLeftPush | src/holmes/redis.go:214-226 | the keyspace becomes `Store.ListLeftPush` of the old one; returns the new length |
| Redis.RedisConn.ListLeftPop | src/holmes/redis.go:228-244 | the keyspace and result are those of `Store.ListLeftPop` on the old keyspace |
| Redis.RedisConn.KeyDel | src/holmes/redis.go:83-93 | the keyspace becomes `Store.KeyDel` of the old one; returns 1 iff the key held a non-empty list, a non-empty set or a hash field, since a list or set emptied by LPOP or SREM no longer exists |
| Redis.PopLastThenDel | src/holmes/redis.go:83-93 | after LPUSH then LPOP on a fresh key, DEL finds nothing to remove |
| Redis.RemLastThenDel | src/holmes/redis.go:83-93 | after SADD then SREM of the same member on a fresh key, DEL finds nothing to remove |
| GoStrings.ToLower | src/holmes/filter.go:78 | the result has the same length and no upper-case letter; each upper-case letter becomes its lower-case partner in place and every other character is kept |
| GoStrings.ToLowerIdempotent | src/holmes/filter.go:78 | lower-casing an already lower-cased string changes nothing |
| GoStrings.ContainsIffOccurs | src/holmes/filter.go:140 | the left-to-right scan of `strings.Contains` finds `sub` exactly when `sub` occurs at some index |
| GoStrings.FirstCharAbsent | src/holmes/filter.go:140 | a string in which the first character of `sub` appears at no index where `sub` would fit does not contain `sub` |
| GoStrings.SearchHostWildcards | src/holmes/filter.go:228 | the unescaped dots of `^s.anjuke.com` match any character except a newline, so `sXanjukeYcom` matches and `www.anjuke.com` does not |
| FilterSpec.KeysDistinct | src/holmes/filter.go:187-220 | `Referer_<addr>` and `WL_<addr>` never collide with `WhiteList`, `WatchingList`, `RefererList` or with each other |
| FilterSpec.CountersDistinct | src/holmes/filter.go:52-61 | the nine counter hashes are distinct, and no per-status counter is one of them |
| Stages.UserAgentRejected | src/holmes/filter.go:78-88 | a UA that is "-", contains bot or spider in lower case, or is unknown to the classifier gives NO; the only change is ua_not_pass of the minute plus one |
| Stages.AfterUserAgentEffects | src/holmes/filter.go:89-97 | on a pass, ua_pass of the minute and ua_statistic of the lower-cased family go up by one, the client joins RefererList and `http://`+host+URI joins `Referer_<addr>`; nothing else changes |
| Stages.UserAgentPassed | src/holmes/filter.go:89-98 | a passing UA adds one to ua_pass of the minute and to ua_statistic of the lower-cased family; it adds the client to RefererList and `http://`+host+URI to `Referer_<addr>`; then the URI stage decides |
| Stages.NonViewPage | src/holmes/filter.go:111-114 | a page outside `/prop/view/` gives UNKNOWN, leaves vppv_total unchanged, and drains the buffer iff the host is the search host |
| Stages.ViewPage | src/holmes/filter.go:108-110 | a `/prop/view/` page adds one to vppv_total of the minute, then the status stage decides |
| Stages.HttpCodeCounted | src/holmes/filter.go:117-126 | the status counter of the record's code goes up exactly once; a non-2xx code gives UNKNOWN without touching the watching list |
| Stages.WhiteListedClient | src/holmes/filter.go:187-188 | a white-listed client gives YES with no change |
| Stages.NewClientBuffered | src/holmes/filter.go:189-191 | any other client gives UNKNOWN; it joins WatchingList, its buffer gains exactly one record at the front, and vppv_watching of the minute goes up by one |
| Stages.DoFilterVerdict | src/holmes/filter.go:72-126 | NO iff the UA is rejected; YES iff the UA passes, the page is a view page, the status is 2xx and the client is white-listed |
| Stages.WhiteListedViewIsHuman | src/holmes/filter.go:186-193 | a YES never creates a watching entry or moves the watching counter |
| Stages.DoFilterCounterFrame | src/holmes/filter.go:72-126 | the cascade never touches total_request, nor any counter outside those of the filter stages |
| Stages.YesLeavesEffective | src/holmes/filter.go:72-126 | a YES from the cascade leaves vppv_effective unchanged |
| Stages.IterationTotal | src/holmes/filter.go:51-62 | an iteration on a non-empty line adds exactly 1 to total_request of the record's minute and leaves every other minute's total_request as it was |
| Stages.IterationEffective | src/holmes/filter.go:51-62 | when DoFilter says YES, an iteration adds exactly 1 in all to vppv_effective of the record's minute and nothing to any other minute |
| Stages.IterationCounters | src/holmes/filter.go:51-62 | an iteration on a non-empty line adds exactly 1 to total_request of the minute, and 1 to vppv_effective iff DoFilter says YES |
| Stages.EmptyLineIsNoOp | src/holmes/filter.go:40-43 | a timeout (empty line) changes nothing |
| Correlation.RefererOutcomes | src/holmes/filter.go:140-159 | RefererFilter has three outcomes: `my.anjuke.com` gives NO with from_my plus one; otherwise "-" gives NO with no_referer plus one; otherwise YES with no change |
| Correlation.DrainEntryCounters | src/holmes/filter.go:240-253 | one drained record moves watching down one at its own minute, and moves effective, from_my or no_referer up one by its referer class |
| Correlation.DrainWatching | src/holmes/filter.go:239-254 | over N records, the watching counter of each minute drops by the number of records of that minute, only the four drain counters move, and the trust flag ends set iff some record is judged human |
| Correlation.DrainClasses | src/holmes/filter.go:240-250 | over N records, effective, from_my and no_referer of each minute rise by the number of records of that minute with the matching referer class |
| Correlation.DrainCounters | src/holmes/filter.go:239-254 | both of the above: over N records, the counters of each minute change by the count of records of that minute (of each class); the trust flag ends set iff some record is judged human |
| Correlation.CountPartition | src/holmes/filter.go:140-159 | every buffered record has exactly one referer class |
| Correlation.CountHumanBound | src/holmes/filter.go:245-250 | at most N of N records are judged human |
| Correlation.DecrementsPerEntry | src/holmes/filter.go:253 | there are exactly N watching decrements, those at minute m being the records of minute m |
| Correlation.ProcessWatchingListCounters | src/holmes/filter.go:235-254 | draining N records gives N watching decrements and k <= N effective increments at the records' own minutes; no other counter moves |
| Correlation.CleanupKeys | src/holmes/filter.go:255-259 | the deletions remove the buffer, `Referer_<addr>` and the client's memberships of WatchingList and RefererList, keeping every other member of both sets; the white list gains the client iff trusted |
| Correlation.ProcessWatchingListKeys | src/holmes/filter.go:235-260 | afterwards `WL_<addr>`, `Referer_<addr>` and the client's WatchingList and RefererList memberships are gone while the other clients' memberships stay; the client is white-listed iff k > 0; no other key changes |
| Correlation.ClassBelowHuman | src/holmes/filter.go:245-250 | at any minute the human records are at most all human records |
| Correlation.HumanWitness | src/holmes/filter.go:245-250 | when some record is human, there is a minute holding a human record |
| Correlation.HumanIffEffective | src/holmes/filter.go:245-250 | some record is human iff some minute has a human record |
| Correlation.WhiteListedIffEffective | src/holmes/filter.go:235-260 | a client not yet white-listed becomes white-listed by the drain iff the drain raises `vppv_effective` at some minute |
| Correlation.EffectivePerEntry | src/holmes/filter.go:245-250 | the effective increments number exactly k, the records judged human, and those at minute m are the human records of minute m |
| Correlation.EffectiveIncrements | src/holmes/filter.go:235-254 | draining N records raises `vppv_effective` exactly k <= N times in all, at the human records' own minutes |
| Correlation.NoHumanCounts | src/holmes/filter.go:140-159 | when no buffered record is judged human, no count of human records is positive |
| Correlation.SelfReferralsGainNoTrust | src/holmes/filter.go:235-260 | when every buffered record's referer contains `my.anjuke.com`, the client is white-listed afterwards only if it already was and `vppv_effective` does not move at any minute |
| Invariants.EmptyWorldConsistent | src/holmes/filter.go:28-33 | on empty stores the watching counter of every minute equals the number of buffered records of it (zero) |
| Invariants.AddWatchingListConsistent | src/holmes/filter.go:207-212 | buffering a record keeps "watching[m] = records of minute m buffered over all clients" (under the round trip) |
| Invariants.ProcessWatchingListConsistent | src/holmes/filter.go:235-260 | draining and deleting a buffer keeps that equation |
| Invariants.WhiteIpConsistent | src/holmes/filter.go:186-193 | the white-list stage keeps that equation |
| Invariants.HttpCodeConsistent | src/holmes/filter.go:117-126 | the status stage keeps that equation |
| Invariants.URIConsistent | src/holmes/filter.go:104-115 | the URI stage keeps that equation |
| Invariants.DoFilterConsistent | src/holmes/filter.go:72-126 | the cascade keeps that equation |
| Invariants.IterationConsistent | src/holmes/filter.go:45-63 | one iteration keeps that equation |
| Invariants.RunConsistent | src/holmes/filter.go:35-69 | any number of iterations keeps it |
| Invariants.WatchingCounterMatchesBuffers | src/holmes/filter.go:35-69 | from empty stores, after any sequence of lines, vppv_watching[m] equals the number of buffered `WL_*` records of minute m |
| Invariants.WhiteIpWhiteListGrows | src/holmes/filter.go:186-193 | the white-list stage never removes a client from WhiteList |
| Invariants.HttpCodeWhiteListGrows | src/holmes/filter.go:117-126 | the status stage never removes a client from WhiteList |
| Invariants.URIWhiteListGrows | src/holmes/filter.go:104-115 | the URI stage never removes a client from WhiteList, whether or not it drains a buffer |
| Invariants.DoFilterWhiteListGrows | src/holmes/filter.go:72-126 | the cascade never removes a client from WhiteList |
| Invariants.IterationWhiteListGrows | src/holmes/filter.go:45-63 | one iteration never removes a client from WhiteList |
| Invariants.RunWhiteListGrows | src/holmes/filter.go:35-69 | no sequence of iterations removes a client from WhiteList |
| Scenarios.ScenarioA | src/holmes/filter.go:80-82 | UA "-" on empty stores gives NO and ua_not_pass of the minute 1 |
| Scenarios.ScenarioB | src/holmes/filter.go:104-126 | a browser's `/prop/view/123` with 200 from a new client gives UNKNOWN; the client is watched and vppv_watching of the minute is 1 |
| Scenarios.ScenarioBPath | src/holmes/filter.go:76-122 | in scenario B the record passes the UA, URI and status stages and reaches the white-list stage |
| Scenarios.ViewedFromEmptyState | src/holmes/filter.go:95-119 | before the white-list stage in scenario B nothing is white-listed or buffered and the correlation counters of the minute are 0 |
| Scenarios.TriggerDrainsB | src/holmes/filter.go:207-212 | after B, the client's buffer holds exactly B's record, which re-parses to B's minute and referer class |
| Scenarios.ScenarioC | src/holmes/filter.go:235-260 | after B, a search-host request of the client with the buffered referer outside the site gives vppv_effective 1 and vppv_watching 0 at B's minute, with the client white-listed |
| Scenarios.ScenarioD | src/holmes/filter.go:235-260 | after B with a `my.anjuke.com` referer, vppv_effective stays 0, vppv_from_my at B's minute is 1 and the client is not white-listed |
| Scenarios.DrainSingle | src/holmes/filter.go:239-258 | draining a one-record buffer moves each counter of the record's minute by its class and white-lists iff the record is human |
| Scenarios.BufferNewestFirst | src/holmes/filter.go:211 | two buffered views of a client sit newest first, so the drain judges the later one first |

The drain runs newest first: `AddWatchingList` pushes with LPUSH and
`ProcessWatchingList` pops with LPOP (`Scenarios.BufferNewestFirst`,
`FilterSpec.Drain`). No counter depends on the order, because each record
is counted at its own minute.

## Left out

- The queue consumer: the blocking right pop on the first server with its 5-second timeout, the endless loop and the timestamped log line on a timeout. The model takes a line already dequeued, "" meaning the timeout, as `FilterIteration`, and a sequence of them as `FilterRun`.
- The first Redis connection (the queue) and all connection set-up and closing.
- `fmt.Printf`/`log` output, and the `log.Panic`/`panic` paths on store errors: in the model every store command succeeds.
- The regular-expression engine: the three patterns are replaced by the equivalent prefix and wildcard tests in `GoStrings`.
- `GetLog`, `AccessLog.String`, `LogTimeMinString` and `Parse`: their code is not part of this model. They are uninterpreted fields of `Externals`.
- GoStrings.ToLower: lower-cases ASCII letters only; Go's Unicode case mapping is not modelled.
- Integer widths: counters and lengths are unbounded integers. The Go code's `int64` replies and the `int(listLen)` conversion cannot overflow at any reachable size.
- Redis.Store: a list or set emptied by LPOP or SREM stays in the model's maps as an empty entry; every observer, and the DEL reply through `KeyExists`, treats it as an absent key, as a server does.
- Redis type errors (a command on a key of the wrong type): the filter never mixes types under one key, and the stores are modelled as separate typed maps.
- Concurrency: another process writing the same keys between the LLEN and the pops of `ProcessWatchingList`, or between the steps of any function. The model runs each function alone and has the two connections distinct (`conn != conn3`).
- Filter.ProcessWatchingList: the pops that empty the buffer are not visible in `FilterSpec.ProcessWatchingList`, because the DEL that follows removes the key either way. The loop invariant tracks them.
- Filter.RefererFilter: the Go code also passes the set and list connection, which this function never uses; the model drops that parameter.
- `AddIgnoreList` is never called, and the commented-out filters (GUID, IP, DNS lookup, HTTP fetch) are not code.
- The store operations the filter does not use: key listing, key type, string get/set, hash get/set, list range, right-side pushes and pops, set cardinality and members, and the slowlog reader.
- The configuration file reader and the program entry point: these are file I/O and start-up glue.
