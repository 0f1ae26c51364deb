# Read-through cache of the rcfg Go client

This project models `RcfgClient`, the client of a remote key/value
configuration service (package `client`, `main.go`), and proves how its local
cache behaves.

The client holds a base address, a freshness window `CacheFor` and a map
`localCache` from a composite key `db|key` to the last value fetched for that
key together with the time of that fetch (`lastUpdated`).

- `Get(db, key)` serves the stored value when one exists and
  `now - lastUpdated <= CacheFor`. Otherwise it issues one request. A status-200
  answer is stored with the current time and returned. A failed request, a
  failed body read or any other status returns `""` and an error, and the map
  is left exactly as it was.
- `Add`, `Set` and `SetWithTTL` issue one request each and return its body
  whatever the status. They never read or write the map, so a write does not
  invalidate the cached value of its key.

The model has two modules.

- `Client` (`client.dfy`) holds the entry, error and reply types, the
  composite key with its inverse `SplitKey`, and the miss test `IsMiss`. It
  also holds `GetStep`, the specification of one `Get`, and `Forward`, the
  specification of the pass-through calls. The class `RcfgClient` has the
  `localCache` map field. Its `Get` method updates that field in place and is
  proved against `GetStep`.
- `CacheTraces` (`traces.dfy`) replays a sequence of timed calls. Its lemmas
  relate several calls to each other.

The network is an argument `FetchOutcome`: `TransportErr`, `ReadErr` or
`Resp(status, body)`. It says what the single request of a call would yield,
and `Get` consults it only on a miss. The clock is an integer argument `now`.
Each reply records in `fetched` whether a request was issued.

Two consequences of the code are worth stating, since a reader might expect
otherwise:

- The miss test is a strict `>` (main.go:50), so the freshness window is
  closed at its end. An entry fetched at `T` is still served at `T + CacheFor`
  and first refetched at `T + CacheFor + 1`. A window read as half-open would
  make `T + CacheFor` a miss; the code makes it a hit (`FreshnessBoundary`).
- `mergeDbAndKey` joins namespace and key with `|`. Two distinct
  (namespace, key) pairs therefore share one cache entry as soon as a namespace
  contains `|` (`MergeCollides`), and a `Get` of one may then be answered with
  the value fetched for the other. Keys are unique only for namespaces without
  `|` (`MergeInjective`).

## Model

| member | source | states |
|---|---|---|
| `Client.MergeDbAndKey` | main.go:30-32 | the composite key is the namespace, then one separator character, then the key |
| `Client.SplitMergeRoundTrip` | main.go:30-32 | splitting a composite key at its first separator gives back the pair, for a namespace without the separator |
| `Client.MergeInjective` | main.go:30-32 | two pairs whose namespaces contain no separator have the same composite key only if they are equal |
| `Client.MergeCollides` | main.go:30-32 | namespace d+sep+m with key k and namespace d with key m+sep+k are distinct pairs with the same composite key |
| `Client.IsMiss` | main.go:49-50 | a key is a miss when it is absent, or when its entry is strictly older than the window, that is when `now` lies after `lastUpdated + CacheFor` |
| `Client.Succeeded` | main.go:62 | a fetch succeeds for a response with status exactly 200, and never for a failed request or body read |
| `Client.FreshnessBoundary` | main.go:50 | an entry exactly `CacheFor` old is a hit and one a tick older is a miss |
| `Client.GetStep` | main.go:47-70 | a request is issued exactly on a miss. A hit returns the stored value with no error and leaves the cache unchanged. A status-200 miss returns the body and stores `(body, now)` at the key, leaving every other entry unchanged. Any other miss returns `""` with the matching error and leaves the whole cache unchanged |
| `Client.Forward` | main.go:34-45 | a pass-through issues one request and returns its body whatever the status. Only a failed request or body read gives an error, with `""` |
| `Client.RcfgClient.constructor` | main.go:22-28 | a new client keeps the given address and window and has an empty cache |
| `Client.RcfgClient.Add` | main.go:34-45 | returns what `Forward` specifies and has no write frame, so the cache cannot change |
| `Client.RcfgClient.Get` | main.go:47-70 | the returned value, error and request flag, and the new `localCache`, are those `GetStep` gives for the old cache |
| `Client.RcfgClient.Set` | main.go:72-83 | returns what `Forward` specifies and has no write frame, so the cached value of the key is not invalidated |
| `Client.RcfgClient.SetWithTTL` | main.go:85-96 | like `Set`, with the expiry hint only forwarded |
| `CacheTraces.Apply` | main.go:47-96 | no call removes an entry. Every changed or new entry is stamped with the time of the call, and only a `Get` of that very key changes it |
| `CacheTraces.Run` | main.go:47-96 | replaying calls in order yields one reply per call |
| `CacheTraces.StampsNeverDecrease` | main.go:65 | with a clock that never goes back, every stored key stays in the cache and its stamp never decreases, and afterwards no stamp lies after the last call, so the property chains from one stretch of calls to the next |
| `CacheTraces.WritesLeaveCache` | main.go:72-96 | any sequence of `Add`, `Set` and `SetWithTTL` calls leaves the cache exactly as it was |
| `CacheTraces.FreshEntryServesReads` | main.go:49-50 | while an entry is fresh, every `Get` of its key returns the stored value with no request and no error, whatever calls come between |
| `CacheTraces.GetAfterWritesIsStale` | main.go:72-83 | a `Get` within the window right after writes to the key returns the value fetched before the writes |
| `CacheTraces.FailedGetIsInvisible` | main.go:53-64 | after a failed `Get`, later calls reply and leave the cache exactly as if it had not been made |
| `CacheTraces.WindowScenario` | main.go:47-70 | with a window of 5: a miss at 0 returns "v1", a hit at 2 returns "v1" with no request, and a miss at 6 returns "v2" |
| `CacheTraces.SetScenario` | main.go:72-83 | after a fetch of "v1" at 0 and a `Set` of "v2" at 3, a `Get` at 3 returns "v1" with no request |

## Left out

- HTTP transport and body reading (`http.Get`, `ioutil.ReadAll`). They are foreign I/O, so the model takes their combined result as the `FetchOutcome` argument.
- Building the request URL with `fmt.Sprintf`. Its arguments (`db`, `key`, `value`, `ttl`) are accepted and not used.
- The text of errors. Errors are tags (`TransportError`, `ReadError`, `StatusError(status, body)`), and the status error keeps the code and the body.
- `log.Println` calls, because they are only logging side effects.
- The real clock. `time.Since` and `time.Now` are replaced by the integer argument `now`, in abstract units rather than `time.Duration` nanoseconds. There is no 64-bit saturation and no clock skew.
- The second clock reading. Go reads the clock once for the miss test (main.go:50) and again after the response arrives for the stamp (main.go:65). The model uses one reading `now` for both, so a stored stamp is the time the `Get` was made.
- `Url` and `CacheFor` are exported and assignable fields in Go. The model makes them `const`, because no code in the package changes them after construction.
- Clients not built by `NewRcfgClient`. `RcfgClient` is exported while `localCache` is not, so a caller outside the package can write a struct literal or a zero value whose map is nil. Such a client misses on every `Get`, and its first status-200 miss panics at main.go:65 when it assigns into the nil map. The model covers only clients built by the constructor, whose cache starts as an empty map, so this panic cannot arise in it.
- The map holds pointers in Go. The model stores entry values, since no entry is shared or mutated after it is stored.
- Concurrent use of the unsynchronised map. Only single-threaded sequences of calls are modelled.
- The dependency-graph operations (deps, all deps, add dep, remove dep, dependents). They are not part of this model, because `main.go` does not define them.
