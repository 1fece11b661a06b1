# Platform-layer core: connection pool, keyspace executor, auth token cache, DNS hosts

This project models five parts of a Go service platform layer:

- **Per-host connection-slot pool** (`gocassa/pool.go`, module `Pool`).
  - Every host of a keyspace configuration owns `NumConns` slots.
  - A slot is in one of three places:
    - an established connection waiting in the host's established channel;
    - a nil token waiting in the host's unestablished channel;
    - a connection that is checked out.
  - `checkout` prefers a waiting connection, and dials the host for a token or a closed connection. A failed dial gives the token back. When nothing is waiting, `checkout` times out with a nil connection.
  - `checkin` reports the outcome to the host selector and queues a live connection again.
  - The class `ConnectionPool` keeps a ghost count of outstanding checkouts per host. Its invariant `Valid` is slot conservation: waiting connections, tokens and checkouts add up to `NumConns` for every host.
- **Keyspace executor** (`gocassa/executor.go`, module `Executor`).
  - Lazy, one-time `init`.
  - `switchConfig` closes the current session, installs the new configuration and records its hash on success.
  - `reloadSession` switches only when the hash changes.
  - `Query` and `Execute` run with a guard against a nil session.
  - `ExecuteAtomically` always fails.
  - The registry `gocqlConnector` keeps one executor per keyspace.
  - The lifecycle invariant: the watcher runs exactly when the executor is initialised, and an initialised executor holds a session.
- **Memcache token cache** (`auth/cache.go`, module `AuthCache`).
  - The memcache server is a map field.
  - `doFetch` is the pure five-way classification `Classify` of what `Get` returns:
    - an error;
    - a miss;
    - the `invalid` placeholder;
    - an undecodable value;
    - a user.
  - Store, invalidate and purge write or delete one key.
- **In-memory reference cacher** (`auth/cache_test.go`, module `AuthTestCache`): two maps and a failure switch, with their precedence rules.
- **DNS hosts** (`dns/dns.go`, module `Dns`).
  - The dotted host name of a role.
  - `Hosts`, which resolves that name and returns the textual addresses sorted into Go's string order. The model stands in for `sort.Strings` with an in-place insertion sort of its own and promises only the result: sorted, and a permutation of the input.

The following are inputs of the methods:
- the host selector's pick;
- the outcome of each driver, memcache and resolver call;
- the set of connections the driver reports closed;
- the token decoder.

The configuration hash is a constructor parameter of `Executor` and `Registry`.

`common.dfy` holds the shared `Option`, `Result`, `Error` and `Byte` definitions.

## Model

| member | source | states |
|---|---|---|
| Pool.Select | gocassa/pool.go:59-74 | The priority select takes the first waiting established connection when there is one and only otherwise a nil token; exactly one slot leaves the host's two channels. |
| Pool.Take | gocassa/pool.go:59-85 | No dial happens exactly when a waiting connection exists and is not closed, and that connection is vended. Otherwise the dial's outcome is vended and a failed dial returns the token. Waiting connections, tokens and the vended connection add up to the slots offered before. |
| Pool.ReuseThenCheckin | gocassa/pool.go:59-111 | A reused connection checked back in rejoins the back of its host's established queue; the queue holds the same connections as before, none lost or duplicated, and the tokens are untouched. |
| Pool.UpdateHost | gocassa/pool.go:29-46 | Replacing one host's waiting connections, tokens and checkout count by ones of the same total keeps every host's slot total at `NumConns`. |
| Pool.ConnectionPool.constructor | gocassa/pool.go:23-31 | A pool before `init`: the given hosts and capacity, no channels, no active connections. |
| Pool.ConnectionPool.Init | gocassa/pool.go:33-48 | After `init` every configured host has an empty established channel, exactly `NumConns` nil tokens and nothing checked out; `activeConns` is empty and slot conservation holds. |
| Pool.ConnectionPool.Checkout | gocassa/pool.go:52-104 | A host with nothing waiting (or outside the configuration) times out with a nil connection and no state change. Otherwise the result and the new channels are those of `Take`: only a successful dial is appended to `activeConns`, and a vended connection counts as checked out. Slot conservation is preserved. |
| Pool.ConnectionPool.TakeSlot | gocassa/pool.go:59-85 | The state change of `checkout` once the picked host offers a slot, stated through `Take`. |
| Pool.ConnectionPool.Connect | gocassa/pool.go:114-136 | A successful dial appends exactly the new connection to `activeConns` and returns it; a failed one returns nil and changes nothing. |
| Pool.ConnectionPool.Checkin | gocassa/pool.go:106-112 | The outcome is always reported for the pick. A live connection is appended to its host's established channel, which stays within `NumConns` (the send never blocks), and its checkout ends. A nil connection changes no channel. Slot conservation is preserved. |
| Pool.ConnectionPool.Pick | gocassa/pool.go:138-140 | The driver is never handed a connection by `Pick`. |
| Pool.ConnectionPool.Size | gocassa/pool.go:142-146 | The size is the number of tracked active connections. |
| Pool.ConnectionPool.Close | gocassa/pool.go:152-159 | Every tracked connection is closed, in dial order, and the list is emptied; the host channels are not touched. |
| Pool.ConnectionReuse | gocassa/pool_test.go:56-67 | Checkout, checkin without error, checkout again: the same host and the same connection come back, and only one connection was ever dialled. |
| Pool.Exhaustion | gocassa/pool.go:64-73 | With one slot per host and it checked out, the next checkout of that host degrades to a nil connection. |
| Pool.DialFailureKeepsSlot | gocassa/pool.go:79-84 | A failed dial leaks no slot: the next checkout of the host dials again and succeeds. |
| Executor.Executor.constructor | gocassa/executor.go:173-175 | A new executor for a keyspace is uninitialised, without configuration, session or watcher. |
| Executor.Executor.SwitchConfig | gocassa/executor.go:57-73 | The current session, if any, is closed and the new configuration installed. Only a created session replaces the session and the recorded hash; a creation error is returned with both unchanged. The lifecycle invariant is preserved. |
| Executor.Executor.Init | gocassa/executor.go:32-55 | An initialised executor returns nil and is untouched. A load error is returned with nothing changed. A switch error is returned with the executor still uninitialised. Success starts the watcher and marks the executor initialised. |
| Executor.InitError | gocassa/executor.go:32-55 | The error `init` reports: none once initialised, else the load error, else the session-creation error, else none. |
| Executor.Executor.ReloadSession | gocassa/executor.go:89-111 | A load error or an unchanged hash changes nothing; a changed hash switches the configuration, and a retry is requested exactly when session creation failed. |
| Executor.Executor.Query | gocassa/executor.go:113-137 | The lazy `init` has its full effect (see `Init`): on success the executor is initialised, watching and holds the new session, configuration and hash; a failed load changes nothing; a failed switch leaves it uninitialised. An `init` error is returned without rows. A nil session gives "No open session". Otherwise every scanned row is returned in order with the iterator's close error. Under the lifecycle invariant the nil-session guard never fires. |
| Executor.Executor.Execute | gocassa/executor.go:139-156 | The same lazy `init` effect and the same guards as `Query`, then the statement's execution error; under the lifecycle invariant the nil-session guard never fires. |
| Executor.Executor.ExecuteAtomically | gocassa/executor.go:158-160 | Every call fails with "Execute atomically is not implemented yet". |
| Executor.Registry.constructor | gocassa/executor.go:17-20 | The registry starts empty. |
| Executor.Registry.Connector | gocassa/executor.go:162-179 | A registered keyspace gets its executor back with the registry unchanged; a new one gets a fresh executor in the zero state of `&gocqlExecutor{ks: ks}` (uninitialised, no watcher, no configuration, no session, hash 0, nothing closed; the lifecycle invariant holds) registered under it; no other entry changes and every entry stays under its own keyspace. |
| Executor.ConnectorTwice | gocassa/executor.go:162-179 | Two requests for one keyspace return the same executor and leave one entry. |
| Executor.FailedSwitchRetries | gocassa/executor.go:57-105 | After a failed switch the closed session stays installed and a retry is requested; a direct second call of `reloadSession` with the same configuration would switch to the new session, a call the blocked watcher never makes. |
| Executor.StrandedAfterFailedSwitch | gocassa/executor.go:32-105 | After the watcher's switch fails, the reachable calls (`init`, `Query`) leave the executor on the session it has already closed, and every later query is sent to that closed session, returning no rows and the closed session's error. |
| Executor.QueryInitialisesOnce | gocassa/executor.go:32-55 | The first query initialises the executor with its session; a second query keeps that session whatever its own `init` inputs are. |
| AuthCache.Get | auth/cache.go:84 | `mc.Get` on the modelled store: the call's failure, else the stored item exactly when the key is present, else a miss. |
| AuthCache.Classify | auth/cache.go:83-111 | An error is reported exactly for a failed `Get`, with no user and no hit. A miss is neither hit nor error. The fetch is a hit exactly for the placeholder or a value that decodes. A user is returned exactly for a non-placeholder value that decodes, and it is the decoded user. |
| AuthCache.StoreTtl | auth/cache.go:39-42 | The TTL is 0 for a user with the zero expiry, else the seconds left. |
| AuthCache.InvalidateThenFetch | auth/cache.go:60-101 | After an invalidation, fetching the same session is a hit without a user and without error. |
| AuthCache.StoreThenFetch | auth/cache.go:38-110 | After storing a user whose token decodes, fetching the session gives that decoded user as a hit. A token byte-equal to the placeholder reads back as invalidated. |
| AuthCache.PurgeThenFetch | auth/cache.go:124-130 | After a purge, fetching the session is a miss without error. |
| AuthCache.OtherKeysUnaffected | auth/cache.go:43-125 | Writing or deleting one key changes no `Get` of another key. |
| AuthCache.MemcacheCacher.constructor | auth/cache.go:27 | The cacher over a given store. |
| AuthCache.MemcacheCacher.DoStore | auth/cache.go:38-48 | The user's token is written under its session id with `StoreTtl`, unless the `Set` fails; the `Set` error is returned. |
| AuthCache.MemcacheCacher.Store | auth/cache.go:31-36 | Exactly the effect and result of `doStore`. |
| AuthCache.MemcacheCacher.DoInvalidate | auth/cache.go:60-66 | The `invalid` placeholder is written under the session id for 3600 seconds, unless the `Set` fails; the `Set` error is returned. |
| AuthCache.MemcacheCacher.Invalidate | auth/cache.go:53-58 | Exactly the effect and result of `doInvalidate`. |
| AuthCache.MemcacheCacher.DoFetch | auth/cache.go:83-111 | The result is `Classify` of the store's `Get` for the session; the store is only read. |
| AuthCache.MemcacheCacher.Fetch | auth/cache.go:71-81 | Exactly the result of `doFetch`. |
| AuthCache.MemcacheCacher.DoPurge | auth/cache.go:124-130 | The session id is deleted unless `Delete` fails; the `Delete` error is returned. |
| AuthCache.MemcacheCacher.Purge | auth/cache.go:116-122 | Exactly the effect and result of `doPurge`. |
| AuthTestCache.TestCache.constructor | auth/cache_test.go:14-19 | Both maps empty, no failure. |
| AuthTestCache.TestCache.Store | auth/cache_test.go:21-27 | With failure set: "Simulated failure" and no change. Otherwise the session id maps to the user, overwriting any earlier one; no other entry changes. |
| AuthTestCache.TestCache.Invalidate | auth/cache_test.go:29-38 | With failure set: "Simulated failure" and no change. Otherwise the session is marked invalidated and any stored user for it is removed; no other entry changes. |
| AuthTestCache.TestCache.Fetch | auth/cache_test.go:40-51 | Failure first. Then an invalidated session is a hit without a user, even with a user stored. Then a stored user is a hit with that user. Anything else is a miss. |
| AuthTestCache.TestCache.Purge | auth/cache_test.go:53-64 | With failure set: "Simulated failure" and no change. Otherwise the session leaves both maps, present or not, and the purge succeeds; no other entry changes. |
| AuthTestCache.StoreAfterInvalidate | auth/cache_test.go:21-51 | Invalidate then store then fetch: the reference cache still reports the session invalidated, while the memcache cacher returns the stored user. |
| AuthTestCache.PurgeForgets | auth/cache_test.go:53-64 | After store, invalidate and purge, a fetch is a miss, and purging an absent session succeeds. |
| Dns.HostName | dns/dns.go:19-23 | The host name of a role is `role.region.i.env.hailocab.net`: the role, the region, the scope `i`, the environment and the domain, joined by dots. |
| Dns.HostNameLabels | dns/dns.go:19-23 | When role, region and environment contain no dot, splitting the host name at dots gives back role, region, `i`, environment, `hailocab`, `net`: the name determines its parts. |
| Dns.SplitJoinDots | dns/dns.go:22 | Splitting dot-joined pieces gives back every piece but the last, followed by the labels of the last, when no other piece has a dot. |
| Dns.LessEqTotal | dns/dns.go:40 | Go's string order is total. |
| Dns.LessEqTransitive | dns/dns.go:40 | Go's string order is transitive. |
| Dns.LessEqAntisymmetric | dns/dns.go:40 | Go's string order is antisymmetric. |
| Dns.SortedPermutationUnique | dns/dns.go:40 | Two sorted sequences with the same multiset are equal, so the sorted host list depends on the lookup result only. |
| Dns.Shown | dns/dns.go:34-38 | The textual forms of the addresses, one per address, in lookup order. |
| Dns.InsertInto | dns/dns.go:40 | One insertion step extends the sorted prefix by one element, leaves the elements after it untouched, and permutes the array. |
| Dns.SortStrings | dns/dns.go:40 | `sort.Strings` leaves the slice sorted and a permutation of what it held. |
| Dns.Hosts | dns/dns.go:26-43 | A lookup error is returned as is. Otherwise the result has one entry per address, is sorted, and is a permutation of the addresses' textual forms; an empty lookup gives an empty list without error. |

## Left out

- Locks, double-checked locking, goroutines and the 5-second timer are not modelled; every operation runs sequentially. A checkout that finds the picked host's two channels empty takes the timeout branch, and the race between a late check-in and the timer is not modelled.
- The epsilon-greedy host selector is a foreign, randomised library. Its pick is an input of `Checkout`, and `Mark` is only recorded in `marks`.
- Driver calls are inputs or outputs: `gocql.Connect` is a dial outcome, `Closed()` a set of closed connections, `Close()` the list `Close` returns, and `CreateSession`, the query iterator and `Exec` are outcomes given to the executor.
- Pool.ConnectionPool.Checkout: the dial outcome is not assumed to be a new connection; an id already in `activeConns` is accepted. `gocql.Connect` always returns a new connection, and no stated property depends on that, since slot conservation counts slots.
- `HandleError` and `SetHosts` do nothing in the source and are not modelled. `gocassa/singlepool.go` is not part of this model.
- The unestablished channels only ever carry nil, so each is modelled as a count of tokens.
- Pool.ConnectionPool.Checkin: requires that the checkout's host has a connection checked out when the checkout carries one, which every checkout `Checkout` vends satisfies; a forged checkout is not modelled.
- The `watchConfig` loop and its change subscription are not modelled. `Init` records in `watching` that the watcher was started. `ReloadSession` returns `retry` when it would send on the retry channel; that channel is unbuffered and received only by the watcher making the send, so the send blocks the watcher forever and no later change reaches `reloadSession`. The model does not represent the blocked watcher; the scenario `StrandedAfterFailedSwitch` shows the state it leaves.
- `getKsConfig`, `ksConfig.hash`, `ksConfig.String` and `FromSessionToken` are not part of this model. Their results are inputs; the hash is a function the executor is built with.
- The gocassa `Connection` that wraps each executor in the registry is not modelled; the registry holds the executor itself.
- `Query` and `Execute` do not model the statement text or its parameters, only the rows the session yields and the errors it reports.
- Executor.Executor.SwitchConfig: the new session is created after the old one is closed, so a failed creation leaves the closed session installed. When the failure happens in the watcher, nothing switches again for the life of the process: the watcher is blocked in its retry send, and `init` does nothing once the executor is initialised. There is no moment at which a working new session is ready to swap in.
- Logging, timing and the instrumentation counters are not modelled.
- AuthCache.StoreTtl: the TTL is the seconds left, given as an input; the clock arithmetic and the float-to-`int32` conversion are not modelled.
- Memcache item expiry is not modelled: an item stays in the store until it is overwritten or deleted.
- AuthCache.MemcacheCacher.Purge: the doc promise that purging a missing session counts as success (auth/cache.go:113-115) holds only when `Delete` reports no error for a missing key. That depends on the memcache wrapper, which is not part of this model; the outcome of `Delete` is an input.
- Dns.Hosts: the region, the environment name and the resolver are inputs. An error is `Err` with no host list; the nil slice of an empty lookup is `Ok([])`.
- Dns.HostName: the `%s` formatting is modelled on strings (`seq<char>`), with no encoding.
