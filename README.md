# Caching proxy request pipeline, modelled in Dafny

This project models two parts of the request pipeline of the tiogo caching proxy, which sits in front of the Tenable.io API:

- **Request-attribute extraction** (`pkg/proxy/middleware/context.go`). `InitialCtx` parses the `X-ApiKeys` header into `AccessKey`/`SecretKey`. It fills the cache-control flags `SkipOnHit` and `WriteOnReturn` from their headers, or from the process defaults when a header is empty. The route stages (`ExportCtx`, `ExportChunkCtx`, `ScannersCtx`, `AgentGroupCtx`, `AgentCtx`) then write identifiers and pagination bounds into the same per-request attribute map. The accessors read that map.
- **Cache orchestration and hit/miss accounting** (`pkg/proxy/server.go`). A `Server` optionally holds a disk cache and a metrics sink. `NewServer` copies the configuration and, when asked, calls `EnableCache`. `cacheClear`, `cacheStore` and `cacheFetch` do nothing without a disk cache. Otherwise they derive a filename, call the disk cache, and bump exactly one labelled counter.

Files:

- `wrappers.dfy`: `Option`, `Result`, `Outcome`.
- `faults.dfy`: the Go panics and fatal exits, as typed faults:
  - `MissingValue`: `keys[1]` out of range;
  - `NotPopulated`: the failed type assertion in `ContextMap`;
  - `NilMetrics`: `CacheInc` called on a nil sink;
  - `NilConfig`: `log.Fatalf` in `NewServer`.
- `gostrings.dfy`: `strings.Split` and `strings.ToLower` as functions on `seq<char>`. `Join` is the reference against which `Split` is proved.
- `middleware.dfy`: `context.go`.
  - The pure specification: `Segment`, `ParseApiKeys`, `Credentials`, `InitialAttributes`, `WithAttribute`, `ScannerAttributes`, with lemmas.
  - The class `RequestContext`. Its field `ctxMap: Option<Attributes>` is the map stored in the request context; it is `None` until `InitialCtx` runs. Its methods are the middleware stages.
- `proxy.dfy`: `server.go`.
  - Classes `Metrics` (a counter map keyed by service and outcome), `Disk` (a map from filename to content, plus a ghost log of the requests made of it) and `Server`.
  - `NewServer`.

How the imperative code is modelled:
- `InitialCtx` is a method with its `for` loop over the `;`-segments. Its postcondition ties the attached map to the function `InitialAttributes`. `InitialAttributes` is in turn proved equal to the independent reference `Credentials`: for each credential, the second `=`-piece of the last segment that names it.
- The route stages mutate the shared map in place. Each is specified by `WithAttribute` or `ScannerAttributes`, which state that only the stage's keys change.
- The server's cache operations state which counter moves under which condition, and what may happen to the disk cache. On every path, the disk's content and the other counters stay unchanged wherever the Go code leaves them alone.

Collaborators whose code is not part of this model are parameters. The `Collaborators` value holds three arbitrary functions:
- `tenable.ToCacheFilename`;
- the pretty-printer's `Prettify`;
- `filepath.Join`.

## Model

| member | source | states |
|---|---|---|
| `GoStrings.Split` | pkg/proxy/middleware/context.go:35-37 | `strings.Split` on one separator always gives at least one piece. No piece contains the separator, and joining the pieces gives back the input. |
| `Middleware.SegmentsRoundTrip` | pkg/proxy/middleware/context.go:35-36 | The loop's segments lose and reorder nothing: no segment's text contains `;`, and the texts rejoined with `;` give back the X-ApiKeys header. |
| `GoStrings.SplitJoin` | pkg/proxy/middleware/context.go:35-37 | Split undoes Join for every non-empty list of separator-free pieces, so the two are inverse. This is what fixes which piece is `keys[0]` and which is `keys[1]`. |
| `GoStrings.ToLower` | pkg/proxy/middleware/context.go:39-42 | Lower-casing keeps the length and lower-cases each character in place (ASCII letters). |
| `GoStrings.ToLowerMatches` | pkg/proxy/middleware/context.go:38-43 | For an all-lower-case word, `ToLower(s) == word` holds exactly when each character of `s` is the word's letter in either case. This is the case-insensitive match against `accesskey`/`secretkey`. |
| `Middleware.SecondPieceKept` | pkg/proxy/middleware/context.go:37-43 | A segment `key=value=tail` stores `value` under the credential `key` names, so the text after a second `=` is dropped. A key that names no credential leaves the map unchanged. |
| `Middleware.BareKeyFaults` | pkg/proxy/middleware/context.go:37-43 | A segment that names a credential but has no `=` is the index-out-of-range fault, reported as `MissingValue(segment)`. |
| `Middleware.LastMatch` | pkg/proxy/middleware/context.go:36-45 | Returns the index of the last segment naming a credential: that segment names it, no later one does, and `None` means no segment does. |
| `Middleware.ParseApiKeysSpec` | pkg/proxy/middleware/context.go:35-45 | Without a faulting segment, the loop's map equals the reference `Credentials`: each credential holds the second `=`-piece of the last segment naming it, and is absent when none does. Later segments overwrite earlier ones. |
| `Middleware.ParseApiKeysFault` | pkg/proxy/middleware/context.go:36-43 | The loop faults if and only if some segment names a credential without a `=`. The fault names the first such segment. |
| `Middleware.ParsePrefixFailure` | pkg/proxy/middleware/context.go:36-43 | Once a prefix of the segments faults, the whole header faults the same way: the loop does not resume after a panic. |
| `Middleware.ParseIgnoresUnrecognised` | pkg/proxy/middleware/context.go:38-45 | A segment that names neither credential can be removed from any position without changing the result. |
| `Middleware.InitialAttributesSpec` | pkg/proxy/middleware/context.go:33-55 | InitialCtx has two outcomes. It faults on the first credential segment without a value. Otherwise it yields exactly the reference credentials plus the two flags, each flag the header value or the default's text when the header is empty. |
| `Middleware.InitialFlags` | pkg/proxy/middleware/context.go:47-55 | After InitialCtx, `SkipOnHit` is present and equals its header when that is non-empty, and otherwise `"true"`/`"false"` after `DefaultCacheSkipOnHit`. The same holds for `WriteOnReturn`. |
| `Middleware.InitialDomain` | pkg/proxy/middleware/context.go:33-55 | The map InitialCtx builds always holds `SkipOnHit` and `WriteOnReturn`, and holds no keys besides those two, `AccessKey` and `SecretKey`. |
| `Middleware.InitialCredential` | pkg/proxy/middleware/context.go:35-78 | After InitialCtx, `AccessKey` (and likewise `SecretKey`) is present if and only if some segment names it. Its accessor then reads the second `=`-piece of the last such segment, and `""` when there is none. |
| `Middleware.InitialDefaultFlags` | pkg/proxy/middleware/context.go:26-55 | With both cache-control headers empty and the package's initial defaults, both flags read `"true"`. |
| `Middleware.WithAttribute` | pkg/proxy/middleware/context.go:107-157 | A one-attribute stage sets its key to the route parameter verbatim, adds no other key, and leaves every other entry as it was. |
| `Middleware.ScannerAttributes` | pkg/proxy/middleware/context.go:128-137 | After ScannersCtx, `ScannerID` is the route parameter verbatim. `Offset` and `Limit` are the query values, with `"0"`/`"5000"` substituted exactly when the query value is empty. Only these three keys are added or changed. |
| `Middleware.RequestContext.ContextMap` | pkg/proxy/middleware/context.go:21-24 | Gives the attached map, or the `NotPopulated` fault exactly when InitialCtx has not attached one (the failed forced cast). |
| `Middleware.RequestContext.Attribute` | pkg/proxy/middleware/context.go:62-105 | Each accessor gives the attribute's value, `""` when the map lacks the key, and `NotPopulated` when no map is attached. |
| `Middleware.RequestContext.InitialCtx` | pkg/proxy/middleware/context.go:30-60 | The loop attaches exactly the map `InitialAttributes` describes. On a credential segment without `=` it returns that fault and the context is unchanged. |
| `Middleware.RequestContext.ExportCtx` | pkg/proxy/middleware/context.go:107-114 | Overwrites only `ExportUUID` in the shared map, in place. It faults with `NotPopulated`, changing nothing, when no map is attached. |
| `Middleware.RequestContext.ExportChunkCtx` | pkg/proxy/middleware/context.go:116-123 | The same as ExportCtx, for `ChunkID`. |
| `Middleware.RequestContext.ScannersCtx` | pkg/proxy/middleware/context.go:125-141 | Updates the shared map to `ScannerAttributes` of the old map, in place. It faults with `NotPopulated`, changing nothing, when no map is attached. |
| `Middleware.RequestContext.AgentGroupCtx` | pkg/proxy/middleware/context.go:142-149 | The same as ExportCtx, for `GroupID`. |
| `Middleware.RequestContext.AgentCtx` | pkg/proxy/middleware/context.go:150-157 | The same as ExportCtx, for `AgentID`. |
| `Proxy.Bump` | pkg/proxy/server.go:132-134 | One increment moves the named (service, outcome) counter up by exactly one and no other counter. |
| `Proxy.Metrics.CacheInc` | pkg/proxy/server.go:133 | A `CacheInc` call replaces the counters by `Bump` of the old counters. |
| `Proxy.Disk.constructor` | pkg/proxy/server.go:124 | `cache.NewDisk` records the folder, the key and the crypto flag it is given. |
| `Proxy.Disk.Store` | pkg/proxy/server.go:153 | Logs one Store request with the disk's answer. On success, the disk holds the given content under the name. On failure, the content does not change. |
| `Proxy.Disk.Fetch` | pkg/proxy/server.go:163 | Logs one Fetch request with what it returned, and leaves the content unchanged. A fetch without an error returns the stored content, or empty bytes when there is no entry. |
| `Proxy.Disk.Clear` | pkg/proxy/server.go:139 | Logs one Clear request with the disk's answer. On success, no entry remains under the name. On failure, the content does not change. |
| `Proxy.Server.constructor` | pkg/proxy/server.go:37 | The zero `Server` that NewServer fills in: no disk cache, no metrics, empty settings. |
| `Proxy.Server.EnableCache` | pkg/proxy/server.go:118-126 | Installs a fresh disk cache over the given folder with the given key. Crypto is on if and only if the key is non-empty. Only `diskCache` changes. |
| `Proxy.Server.CacheClear` | pkg/proxy/server.go:128-140 | See notes (1) and (2) below. With a disk cache: (service, Invalidate) moves by exactly one when a sink is present, even if the context then turns out unpopulated; with a populated context, exactly one Clear request for `Join(".", disk folder, derived name)` is logged, and the content changes exactly as that request's answer says; `NotPopulated` makes no request and changes no content. |
| `Proxy.Server.CacheStore` | pkg/proxy/server.go:141-155 | See notes (1) and (2) below. With a disk cache: (service, Store) moves by exactly one when a sink is present, whatever the store's outcome; with a populated context, exactly one Store request of the prettified bytes under the derived name is logged, and the content changes exactly as that request's answer says; `NotPopulated` makes no request and changes no content. |
| `Proxy.Server.CacheFetch` | pkg/proxy/server.go:156-172 | See notes (1) and (3) below. With a disk cache, a populated context and a sink, exactly one of (service, Hit) and (service, Miss) moves. It is Hit if and only if the fetch returned no error and non-empty bytes, so an empty successful fetch is a Miss. With a populated context, exactly one Fetch request under the derived name is logged. With a sink, the result is exactly what that fetch returned, bytes and error. `NotPopulated` makes no request, and the content never changes. |
| `Proxy.NewServer` | pkg/proxy/server.go:36-65 | A nil config is the fatal `NilConfig`. Otherwise `ServiceBaseURL`, `ListenPort`, `CacheFolder` and `MetricsListenPort` are copied from the config and the given metrics sink is kept. A fresh disk cache exists if and only if `CacheResponse` is set, built over the configured folder and key, with crypto on exactly when the key is non-empty. |

Shared behaviour of the three cache operations, cited from the table:

1. Without a disk cache the operation returns at once. It touches no counter, and `CacheFetch` returns empty bytes with no error.
2. The counter moves before the forced cast of the context, so when the context is unpopulated the counter has still moved and the operation then faults. The disk's error is discarded by the Go code; the method hands it back as a ghost out-parameter so that its contract can say how the content changed.
3. The forced cast of the context comes before the fetch. Without a sink, the Miss branch calls `CacheInc` on nil, which is the `NilMetrics` fault.

All three operations use the derived name even when the key deriver also returns an error.

Notes on behaviour kept as the code has it:
- The flags are stored as the header strings, not parsed as booleans. `fmt.Sprintf("%v", b)` is modelled as `FormatBool`.
- Without a disk cache, no counter moves at all: the early return comes before any `CacheInc`.
- `cacheClear` gives `Disk.Clear` the joined path `Join(".", folder, name)`, while `cacheStore` and `cacheFetch` give the derived name alone. The model keys the disk by whatever name each call receives. Whether the two name the same file depends on `cache.Disk`, which is not part of this model.

## Left out

- `ListenAndServe`, `ListenAndServeMetrics` and `hookShutdownSignal` (pkg/proxy/server.go:66-116): goroutines, OS signals, network listeners and context cancellation.
- The `http.Server` with its timeouts, `chi.NewRouter`, and the `Context`, `Router`, `HTTP`, `Finished` and `Log` fields: library wiring with no cache logic.
- The `Content-Type: application/json` response header written by `InitialCtx`: an I/O side effect.
- Calls into the next handler (`next.ServeHTTP`) and `context.WithValue`: each stage returns its outcome, and the request context is the `RequestContext` object whose map the stages share.
- `chi.URLParam`, `r.URL.Query().Get` and `r.Header.Get`: their results are plain string parameters.
- `DefaultCacheSkipOnHit` and `DefaultWriteOnReturn` as mutable package variables: their values are passed in as `CacheDefaults`, and `InitialDefaults` holds the package's initial values.
- `GoStrings.ToLower`: maps only ASCII letters. Go's `strings.ToLower` also maps other Unicode letters, for instance the Kelvin sign U+212A to `k`. In Go, a key spelled with such letters can match `accesskey`; in the model it cannot.
- `cache.Disk`: encryption, atomic rename, directory creation and path resolution are not part of this model. `Proxy.Disk.Store`, `Proxy.Disk.Fetch` and `Proxy.Disk.Clear` choose failure freely; the server's contracts are stated in terms of the answer each request got. `Proxy.Disk.constructor` promises nothing about entries already in the folder.
- `tenable.ToCacheFilename`, `Prettify` and `filepath.Join`: arbitrary functions in `Collaborators`. Key derivation, canonicalisation and path cleaning are not modelled.
- `metrics.CacheInc`: modelled as incrementing one entry of a counter map. Prometheus registration and exposition are left out.
- `Proxy.Server.CacheFetch`: when the sink is nil, the model reports the `NilMetrics` fault instead of a result. Whether Go's `CacheInc` tolerates a nil receiver depends on code that is not part of this model.
- Go panics and `log.Fatalf` become the typed faults of `faults.dfy`. Recovery by the HTTP server is not modelled.
