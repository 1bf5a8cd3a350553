/** Cache orchestration and hit/miss accounting (pkg/proxy/server.go): a server that
    optionally holds a disk cache and a metrics sink, and the three cache operations
    the request handlers call. */
module Proxy {
  import opened Wrappers
  import opened Faults
  import opened Middleware

  newtype byte = b: int | 0 <= b < 256

  type Bytes = seq<byte>

  /** tenable.EndPointType: the logical remote operation a cache key is derived for. */
  type EndPoint = string

  /** metrics.EndPointType: the service label of a counter. */
  type Service = string

  /** The response writer's header, all the prettifier may consult. */
  type ResponseHeader = map<string, string>

  /** metrics.Methods.Cache: the outcome label of a cache counter. */
  datatype CacheMethod = Hit | Miss | Store | Invalidate

  type CounterKey = (Service, CacheMethod)

  type Counters = map<CounterKey, nat>

  /** A counter's value; a counter never incremented reads 0. */
  function Tally(counters: Counters, key: CounterKey): nat
  {
    if key in counters then counters[key] else 0
  }

  /** The counters after one increment: the named counter moves up by one and no other
      counter moves. */
  function Bump(counters: Counters, key: CounterKey): (r: Counters)
    ensures Tally(r, key) == Tally(counters, key) + 1
    ensures forall k :: k != key ==> Tally(r, k) == Tally(counters, k)
    ensures r.Keys == counters.Keys + {key}
  {
    counters[key := Tally(counters, key) + 1]
  }

  /** The metrics sink: one counter per (service, outcome). */
  class Metrics {
    var counts: Counters

    constructor ()
      ensures counts == map[]
    {
      counts := map[];
    }

    /** CacheInc: increment the counter of (service, outcome). */
    method CacheInc(service: Service, outcome: CacheMethod)
      modifies this
      ensures counts == Bump(old(counts), (service, outcome))
    {
      counts := Bump(counts, (service, outcome));
    }
  }

  /** What a fetch from the disk cache hands back: the bytes and the error. */
  datatype Fetched = Fetched(bytes: Bytes, err: Option<Error>)

  /** A request the server made of the disk cache, with the disk's answer. */
  datatype Request =
    | StoreRequest(name: string, data: Bytes, err: Option<Error>)
    | FetchRequest(name: string, fetched: Fetched)
    | ClearRequest(name: string, err: Option<Error>)

  /** The disk cache, seen from the server: a folder, the crypto settings, and the
      plaintext content stored under each filename. Whether an operation fails is not
      determined here (encryption, atomic writes and I/O belong to the disk cache). */
  class Disk {
    const cacheFolder: string
    const cryptoKey: string
    const useCrypto: bool
    var files: map<string, Bytes>
    /** Every request made of this disk cache so far, oldest first. */
    ghost var requests: seq<Request>

    /** cache.NewDisk(cacheFolder, cryptoKey, useCrypto). What the folder already holds
        is not part of the model. */
    constructor (cacheFolder: string, cryptoKey: string, useCrypto: bool)
      ensures this.cacheFolder == cacheFolder && this.cryptoKey == cryptoKey && this.useCrypto == useCrypto
      ensures requests == []
    {
      this.cacheFolder := cacheFolder;
      this.cryptoKey := cryptoKey;
      this.useCrypto := useCrypto;
      files := map[];
      requests := [];
    }

    /** The results a fetch of `name` may have: without an error, the stored content, or
        nothing when there is no entry. */
    predicate MayFetch(name: string, f: Fetched)
      reads this
    {
      f.err.None? ==> (name in files && f.bytes == files[name]) || (name !in files && f.bytes == [])
    }

    /** Store: on success `data` is the content under `name`; on failure nothing changes. */
    method Store(name: string, data: Bytes) returns (err: Option<Error>)
      modifies this`files, this`requests
      ensures requests == old(requests) + [StoreRequest(name, data, err)]
      ensures err.None? ==> files == old(files)[name := data]
      ensures err.Some? ==> files == old(files)
    {
      var failed: bool :| true;
      if failed {
        err := Some(Error("store failed"));
      } else {
        files := files[name := data];
        err := None;
      }
      requests := requests + [StoreRequest(name, data, err)];
    }

    /** Fetch: read the content under `name`, or fail. */
    method Fetch(name: string) returns (f: Fetched)
      modifies this`requests
      ensures requests == old(requests) + [FetchRequest(name, f)]
      ensures MayFetch(name, f)
    {
      var failed: bool :| true;
      if failed || name !in files {
        f := Fetched([], Some(Error("fetch failed")));
      } else {
        f := Fetched(files[name], None);
      }
      requests := requests + [FetchRequest(name, f)];
    }

    /** Clear: on success there is no entry under `name`; on failure nothing changes. */
    method Clear(name: string) returns (err: Option<Error>)
      modifies this`files, this`requests
      ensures requests == old(requests) + [ClearRequest(name, err)]
      ensures err.None? ==> files == old(files) - {name}
      ensures err.Some? ==> files == old(files)
    {
      var failed: bool :| true;
      if failed {
        err := Some(Error("clear failed"));
      } else {
        files := files - {name};
        err := None;
      }
      requests := requests + [ClearRequest(name, err)];
    }
  }

  /** The functions of other packages the cache operations call, whose code is not part
      of this model: tenable.ToCacheFilename, the pretty-printer's Prettify and
      filepath.Join. */
  datatype Collaborators = Collaborators(
    toCacheFilename: (EndPoint, Attributes) -> (string, Option<Error>),
    prettify: (ResponseHeader, Bytes) -> Bytes,
    joinPath: seq<string> -> string)

  /** A cache fetch's counter outcome: Hit exactly when the fetch returned bytes and no
      error; an empty successful fetch is a Miss. */
  function Classify(f: Fetched): CacheMethod
  {
    if f.err.None? && |f.bytes| > 0 then Hit else Miss
  }

  /** config.Server: the settings NewServer reads. */
  datatype ServerConfig = ServerConfig(
    serviceBaseUrl: string,
    listenPort: string,
    cacheFolder: string,
    metricsListenPort: string,
    cacheResponse: bool,
    cacheKey: string)

  /** config.Config, of which only the server section is read. */
  datatype Config = Config(server: ServerConfig)

  /** The proxy server's cache-related state. */
  class Server {
    const collab: Collaborators
    var serviceBaseUrl: string
    var listenPort: string
    var cacheFolder: string
    var metricsListenPort: string
    var diskCache: Option<Disk>
    var metrics: Option<Metrics>

    /** The zero Server: no cache, no metrics, empty settings. */
    constructor (collab: Collaborators)
      ensures this.collab == collab
      ensures serviceBaseUrl == "" && listenPort == "" && cacheFolder == "" && metricsListenPort == ""
      ensures diskCache == None && metrics == None
    {
      this.collab := collab;
      serviceBaseUrl, listenPort, cacheFolder, metricsListenPort := "", "", "", "";
      diskCache, metrics := None, None;
    }

    /** The disk cache and the metrics sink, the objects the cache operations change. */
    function Parts(): set<object>
      reads this
    {
      var disk: set<object> := if diskCache.Some? then {diskCache.value} else {};
      var sink: set<object> := if metrics.Some? then {metrics.value} else {};
      disk + sink
    }

    /** The name the cache key deriver gives the request; its error is ignored. */
    function DerivedName(endPoint: EndPoint, attrs: Attributes): string
    {
      collab.toCacheFilename(endPoint, attrs).0
    }

    /** EnableCache: a fresh disk cache over `cacheFolder`, with crypto enabled exactly
        when the key is non-empty. */
    method EnableCache(cacheFolder: string, cryptoKey: string)
      modifies this`diskCache
      ensures diskCache.Some? && fresh(diskCache.value)
      ensures diskCache.value.cacheFolder == cacheFolder && diskCache.value.cryptoKey == cryptoKey
      ensures diskCache.value.useCrypto <==> cryptoKey != ""
    {
      var useCrypto := false;
      if cryptoKey != "" {
        useCrypto := true;
      }
      var disk := new Disk(cacheFolder, cryptoKey, useCrypto);
      diskCache := Some(disk);
    }

    /** cacheClear: without a disk cache, nothing. Otherwise bump (service, Invalidate)
        when there is a metrics sink, then make one Clear request of the disk for
        Join(".", folder, derived name). The clear's error is discarded; `answer` is the
        disk's answer, for the contract only. */
    method CacheClear(r: RequestContext, endPoint: EndPoint, service: Service)
      returns (o: Outcome<Fault>, ghost answer: Option<Error>)
      modifies Parts()
      ensures diskCache.None? ==> o == Pass
      ensures metrics.Some? ==>
                metrics.value.counts == if diskCache.Some? then Bump(old(metrics.value.counts), (service, Invalidate))
                                        else old(metrics.value.counts)
      ensures diskCache.Some? ==> (o == Fail(NotPopulated) <==> r.ctxMap.None?) && (o == Pass <==> r.ctxMap.Some?)
      ensures diskCache.Some? && r.ctxMap.None? ==>
                diskCache.value.files == old(diskCache.value.files) &&
                diskCache.value.requests == old(diskCache.value.requests)
      ensures diskCache.Some? && r.ctxMap.Some? ==>
                var disk := diskCache.value;
                var path := collab.joinPath([".", disk.cacheFolder, DerivedName(endPoint, r.ctxMap.value)]);
                && disk.requests == old(disk.requests) + [ClearRequest(path, answer)]
                && (answer.None? ==> disk.files == old(disk.files) - {path})
                && (answer.Some? ==> disk.files == old(disk.files))
    {
      answer := None;
      if diskCache.None? {
        return Pass, answer;
      }
      var disk := diskCache.value;
      if metrics.Some? {
        metrics.value.CacheInc(service, Invalidate);
      }
      match r.ContextMap()
      case Failure(e) =>
        o := Fail(e);
      case Success(m) =>
        var (filename, _) := collab.toCacheFilename(endPoint, m);
        filename := collab.joinPath([".", disk.cacheFolder, filename]);
        answer := disk.Clear(filename);
        o := Pass;
    }

    /** cacheStore: without a disk cache, nothing. Otherwise bump (service, Store) when
        there is a metrics sink, then make one Store request of the disk: the prettified
        bytes under the derived name. The store's error is discarded; `answer` is the
        disk's answer, for the contract only. */
    method CacheStore(w: ResponseHeader, r: RequestContext, bb: Bytes, endPoint: EndPoint, service: Service)
      returns (o: Outcome<Fault>, ghost answer: Option<Error>)
      modifies Parts()
      ensures diskCache.None? ==> o == Pass
      ensures metrics.Some? ==>
                metrics.value.counts == if diskCache.Some? then Bump(old(metrics.value.counts), (service, Store))
                                        else old(metrics.value.counts)
      ensures diskCache.Some? ==> (o == Fail(NotPopulated) <==> r.ctxMap.None?) && (o == Pass <==> r.ctxMap.Some?)
      ensures diskCache.Some? && r.ctxMap.None? ==>
                diskCache.value.files == old(diskCache.value.files) &&
                diskCache.value.requests == old(diskCache.value.requests)
      ensures diskCache.Some? && r.ctxMap.Some? ==>
                var disk := diskCache.value;
                var name := DerivedName(endPoint, r.ctxMap.value);
                var data := collab.prettify(w, bb);
                && disk.requests == old(disk.requests) + [StoreRequest(name, data, answer)]
                && (answer.None? ==> disk.files == old(disk.files)[name := data])
                && (answer.Some? ==> disk.files == old(disk.files))
    {
      answer := None;
      if diskCache.None? {
        return Pass, answer;
      }
      var disk := diskCache.value;
      if metrics.Some? {
        metrics.value.CacheInc(service, Store);
      }
      match r.ContextMap()
      case Failure(e) =>
        o := Fail(e);
      case Success(m) =>
        var (filename, _) := collab.toCacheFilename(endPoint, m);
        var prettyCache := collab.prettify(w, bb);
        answer := disk.Store(filename, prettyCache);
        o := Pass;
    }

    /** cacheFetch: without a disk cache, empty bytes and no error. Otherwise fetch under the
        derived name, bump (service, Hit) when the fetch returned bytes and no error and
        (service, Miss) otherwise, and return what the fetch returned. With no metrics sink
        the Miss branch calls CacheInc on nil, a fault here. The disk's content is never
        changed. `fetched` is what the one Fetch request returned, for the contract only. */
    method CacheFetch(r: RequestContext, endPoint: EndPoint, service: Service)
      returns (res: Result<Fetched, Fault>, ghost fetched: Fetched)
      modifies Parts()
      ensures diskCache.None? ==> res == Success(Fetched([], None))
      ensures diskCache.Some? ==> diskCache.value.files == old(diskCache.value.files)
      ensures metrics.Some? && (diskCache.None? || r.ctxMap.None?) ==>
                metrics.value.counts == old(metrics.value.counts)
      ensures diskCache.Some? && r.ctxMap.None? ==>
                res == Failure(NotPopulated) && diskCache.value.requests == old(diskCache.value.requests)
      ensures diskCache.Some? && r.ctxMap.Some? ==>
                var disk := diskCache.value;
                var name := DerivedName(endPoint, r.ctxMap.value);
                disk.requests == old(disk.requests) + [FetchRequest(name, fetched)] && disk.MayFetch(name, fetched)
      ensures diskCache.Some? && r.ctxMap.Some? && metrics.None? ==> res == Failure(NilMetrics)
      ensures diskCache.Some? && r.ctxMap.Some? && metrics.Some? ==>
                && res == Success(fetched)
                && metrics.value.counts == Bump(old(metrics.value.counts), (service, Classify(fetched)))
    {
      fetched := Fetched([], None);
      if diskCache.None? {
        return Success(Fetched([], None)), fetched;
      }
      var disk := diskCache.value;
      match r.ContextMap()
      case Failure(e) =>
        res := Failure(e);
      case Success(m) =>
        var (filename, _) := collab.toCacheFilename(endPoint, m);
        var got := disk.Fetch(filename);
        fetched := got;
        if got.err.None? && |got.bytes| > 0 && metrics.Some? {
          metrics.value.CacheInc(service, Hit);
          res := Success(got);
        } else if metrics.None? {
          res := Failure(NilMetrics);
        } else {
          metrics.value.CacheInc(service, Miss);
          res := Success(got);
        }
    }
  }

  /** NewServer: a nil config is fatal; otherwise the settings are copied from the
      config, the disk cache is enabled exactly when CacheResponse is set, and the
      metrics sink is the one given. */
  method NewServer(config: Option<Config>, metrics: Option<Metrics>, collab: Collaborators)
    returns (r: Result<Server, Fault>)
    ensures config.None? ==> r == Failure(NilConfig)
    ensures config.Some? ==> r.Success? && fresh(r.value)
    ensures config.Some? ==>
              var c := config.value.server;
              var s := r.value;
              && s.collab == collab
              && s.serviceBaseUrl == c.serviceBaseUrl && s.listenPort == c.listenPort
              && s.cacheFolder == c.cacheFolder && s.metricsListenPort == c.metricsListenPort
              && s.metrics == metrics
              && (s.diskCache.Some? <==> c.cacheResponse)
              && (c.cacheResponse ==>
                    && fresh(s.diskCache.value)
                    && s.diskCache.value.cacheFolder == c.cacheFolder
                    && s.diskCache.value.cryptoKey == c.cacheKey
                    && (s.diskCache.value.useCrypto <==> c.cacheKey != ""))
  {
    if config.None? {
      return Failure(NilConfig);
    }
    var c := config.value.server;
    var server := new Server(collab);
    server.serviceBaseUrl := c.serviceBaseUrl;
    server.listenPort := c.listenPort;
    server.cacheFolder := c.cacheFolder;
    server.metricsListenPort := c.metricsListenPort;
    if c.cacheResponse {
      server.EnableCache(c.cacheFolder, c.cacheKey);
    }
    server.metrics := metrics;
    r := Success(server);
  }
}
