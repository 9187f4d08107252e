/**
 * The base server of `baseapp/server.go`: the `Server` object, the
 * `NewServer` builder, the accessors and the pre-listen part of `Start`.
 */
module BaseApp {
  import opened BaseTypes
  import opened Decimal
  import opened Builder
  import Goji

  /** What `Start` makes happen outside the server, in order. */
  datatype LifecycleEvent = RunInit(action: InitMetrics) | Listen(addr: string)

  /** `Address + ":" + strconv.Itoa(Port)`, line 99. */
  function BindAddress(c: HTTPConfig): (addr: string)
    ensures |addr| == |c.address| + 1 + |Itoa(c.port)|
    ensures addr[..|c.address|] == c.address && addr[|c.address|] == ':'
    ensures addr[|c.address| + 1..] == Itoa(c.port)
    // the separator is the last ':': the decimal port contains none
    ensures forall i :: |c.address| < i < |addr| ==> addr[i] != ':'
  {
    c.address + ":" + Itoa(c.port)
  }

  /**
   * The bind address determines the configuration: the host is everything
   * before its last ':' and the port is the decimal number after it.
   */
  lemma BindAddressRoundTrip(c: HTTPConfig)
    ensures SplitHostPort(BindAddress(c)) == Some((c.address, Itoa(c.port)))
    ensures ParseBindAddress(BindAddress(c)) == Some(c)
  {
    SplitAtLastColon(c.address, Itoa(c.port));
    ItoaRoundTrip(c.port);
  }

  /** Distinct configurations bind distinct addresses. */
  lemma BindAddressInjective(c: HTTPConfig, d: HTTPConfig)
    requires BindAddress(c) == BindAddress(d)
    ensures c == d
  {
    BindAddressRoundTrip(c);
    BindAddressRoundTrip(d);
  }

  /** Position of the last ':' in `s`, if any. */
  function LastColon(s: string): (r: Option<nat>)
    ensures r.Some? ==> r.value < |s| && s[r.value] == ':'
    ensures r.Some? ==> forall i :: r.value < i < |s| ==> s[i] != ':'
    ensures r.None? ==> forall i :: 0 <= i < |s| ==> s[i] != ':'
  {
    if s == [] then None
    else if s[|s| - 1] == ':' then Some(|s| - 1)
    else LastColon(s[..|s| - 1])
  }

  /** Splits a bind address into host and port text at its last ':'. */
  function SplitHostPort(addr: string): (r: Option<(string, string)>)
    ensures r.Some? ==> addr == r.value.0 + ":" + r.value.1
  {
    match LastColon(addr)
    case None => None
    case Some(k) => Some((addr[..k], addr[k + 1..]))
  }

  /** Reads a configuration back from a bind address. */
  function ParseBindAddress(addr: string): (r: Option<HTTPConfig>)
    ensures r.Some? ==> exists k :: 0 <= k < |addr| && addr[k] == ':' && r.value.address == addr[..k]
  {
    match SplitHostPort(addr)
    case None => None
    case Some((host, port)) =>
      match ParseInt(port)
      case None => None
      case Some(p) => Some(HTTPConfig(host, p))
  }

  /** The last ':' of `host + ":" + port` is the separator when `port` has none. */
  lemma SplitAtLastColon(host: string, port: string)
    requires forall i :: 0 <= i < |port| ==> port[i] != ':'
    ensures SplitHostPort(host + ":" + port) == Some((host, port))
  {
    var s := host + ":" + port;
    var r := LastColon(s);
    assert s[|host|] == ':';
    assert r.Some? && r.value == |host| by {
      assert forall i :: |host| < i < |s| ==> s[i] == port[i - |host| - 1];
    }
    assert s[..|host|] == host;
    assert s[|host| + 1..] == port;
  }

  /**
   * The base server. `initDone` is the sequential view of the `sync.Once`
   * guard; `history` and `starts` record what `Start` has done so far.
   */
  class Server {
    var config: HTTPConfig
    var middleware: Option<seq<Middleware>>
    var logger: Logger
    var mux: Goji.Mux
    var registry: Registry
    var initMetrics: Option<InitMetrics>
    var initDone: bool
    ghost var history: seq<LifecycleEvent>
    ghost var starts: nat

    /** The once-guard has fired exactly when there is an initialiser and `Start` ran. */
    ghost predicate Valid()
      reads this
    {
      && initDone == (initMetrics.Some? && starts > 0)
      && history == StartHistory(initMetrics, BindAddress(config), starts)
    }

    /** The fields a `Param` may set. */
    function Snapshot(): (f: Fields)
      reads this
      ensures f.config == config && f.middleware == middleware && f.logger == logger
      ensures f.registry == registry && f.initMetrics == initMetrics
    {
      Builder.Fields(config, middleware, logger, registry, initMetrics)
    }

    /** The skeleton of lines 47-54, with a fresh mux. */
    constructor Skeleton(c: HTTPConfig)
      ensures Valid() && Snapshot() == Builder.Skeleton(c)
      ensures fresh(mux) && mux.uses == []
      ensures !initDone && history == [] && starts == 0
    {
      config := c;
      middleware := None;
      logger := NopLogger;
      mux := new Goji.Mux();
      registry := DefaultRegistry;
      initMetrics := None;
      initDone := false;
      history := [];
      starts := 0;
    }

    /** `s.HTTPConfig()`: the stored configuration. */
    function HTTPConfig(): (c: BaseTypes.HTTPConfig)
      reads this
      ensures c == config
    {
      config
    }

    /** `s.Mux()`: the server's own mux object, not a copy. */
    function Mux(): (m: Goji.Mux)
      reads this
      ensures m == mux
    {
      mux
    }

    /** `s.Logger()`: the stored logger. */
    function Logger(): (l: BaseTypes.Logger)
      reads this
      ensures l == logger
    {
      logger
    }

    /** `s.Registry()`: the stored registry handle. */
    function Registry(): (r: BaseTypes.Registry)
      reads this
      ensures r == registry
    {
      registry
    }

    /** `p(base)`: the param updates the fields it may set and reports its error. */
    method ApplyParam(p: Param) returns (err: Option<Error>)
      modifies this`config, this`middleware, this`logger, this`registry, this`initMetrics
      ensures (Snapshot(), err) == p.apply(old(Snapshot()))
    {
      var (f, e) := p.apply(Snapshot());
      config, middleware, logger, registry, initMetrics :=
        f.config, f.middleware, f.logger, f.registry, f.initMetrics;
      err := e;
    }

    /**
     * The parameter loop of `NewServer`: applies `params` in order and stops
     * at the first error. `invoked` counts the params called.
     */
    method RunParams(params: seq<Param>) returns (err: Option<Error>, ghost invoked: nat)
      modifies this`config, this`middleware, this`logger, this`registry, this`initMetrics
      ensures ApplyParams(old(Snapshot()), params) == Applied(Snapshot(), err, invoked)
    {
      ghost var start := Snapshot();
      invoked := 0;
      for i := 0 to |params|
        invariant ApplyParams(start, params[..i]) == Applied(Snapshot(), None, i)
        invariant invoked == i
      {
        var e := ApplyParam(params[i]);
        invoked := i + 1;
        assert params[..i + 1][..i] == params[..i];
        assert ApplyParams(start, params[..i + 1]) == Applied(Snapshot(), e, i + 1);
        if e.Some? {
          ErrorStopsApplication(start, params, i + 1);
          return e, invoked;
        }
      }
      assert params[..|params|] == params;
      err := None;
    }

    /** The registration loop of `NewServer`: `mux.Use` for each middleware, in list order. */
    method UseMiddleware()
      modifies mux
      ensures mux.uses == old(mux.uses) + Elements(middleware)
    {
      var chain := Elements(middleware);
      for i := 0 to |chain|
        invariant mux.uses == old(mux.uses) + chain[..i]
      {
        mux.Use(chain[i]);
      }
      assert chain[..|chain|] == chain;
    }

    /**
     * The pre-listen part of `Start` followed by the listen step: runs the
     * metrics initialiser through the once-guard, then listens on the bind
     * address and returns the listener's error. `listen` stands for
     * `http.ListenAndServe`, which only ever returns a non-nil error.
     */
    method Start(listen: string -> Error) returns (err: Error)
      requires Valid()
      modifies this`initDone, this`history, this`starts
      ensures Valid() && starts == old(starts) + 1
      ensures history == old(history) + StartEvents(initMetrics, old(initDone), BindAddress(config))
      ensures err == listen(BindAddress(config))
    {
      var addr := BindAddress(config);
      ghost var events := StartEvents(initMetrics, initDone, addr);
      StartHistoryStep(initMetrics, addr, starts);
      if initMetrics.Some? {
        if !initDone {
          history := history + [RunInit(initMetrics.value)];
          initDone := true;
        }
      }
      history := history + [Listen(addr)];
      starts := starts + 1;
      assert history == old(history) + events;
      err := listen(addr);
    }
  }

  /** One call of `Start`, given whether the once-guard has already fired. */
  function StartEvents(im: Option<InitMetrics>, done: bool, addr: string): (events: seq<LifecycleEvent>)
    ensures 1 <= |events| <= 2 && events[|events| - 1] == Listen(addr)
    ensures |events| == 2 <==> im.Some? && !done
    ensures |events| == 2 ==> events[0] == RunInit(im.value)
  {
    (if im.Some? && !done then [RunInit(im.value)] else []) + [Listen(addr)]
  }

  /** What `n` calls of `Start` on a fresh server make happen. */
  function StartHistory(im: Option<InitMetrics>, addr: string, n: nat): (h: seq<LifecycleEvent>)
    ensures |h| == n + (if im.Some? && n > 0 then 1 else 0)
  {
    if n == 0 then [] else StartHistory(im, addr, n - 1) + StartEvents(im, im.Some? && n - 1 > 0, addr)
  }

  /** One more `Start` call appends that call's events. */
  lemma StartHistoryStep(im: Option<InitMetrics>, addr: string, n: nat)
    ensures StartHistory(im, addr, n + 1) == StartHistory(im, addr, n) + StartEvents(im, im.Some? && n > 0, addr)
  {
  }

  /** Number of times the initialiser ran in `h`. */
  function InitRuns(h: seq<LifecycleEvent>): (k: nat)
    ensures k <= |h|
  {
    if h == [] then 0 else InitRuns(h[..|h| - 1]) + (if h[|h| - 1].RunInit? then 1 else 0)
  }

  /**
   * After `n` calls of `Start`: the initialiser ran once if it is set and
   * `Start` was called, never otherwise, and before the first listen; every
   * call listened on the bind address exactly once.
   */
  lemma {:induction false} StartHistoryShape(im: Option<InitMetrics>, addr: string, n: nat)
    ensures StartHistory(im, addr, n)
         == (if im.Some? && n > 0 then [RunInit(im.value)] else []) + seq(n, _ => Listen(addr))
  {
    if n > 0 {
      StartHistoryShape(im, addr, n - 1);
      var listens := seq(n, _ => Listen(addr));
      assert listens == seq(n - 1, _ => Listen(addr)) + [Listen(addr)];
    }
  }

  /** The initialiser runs at most once across any number of `Start` calls, and only when set. */
  lemma {:induction false} InitRunsAtMostOnce(im: Option<InitMetrics>, addr: string, n: nat)
    ensures InitRuns(StartHistory(im, addr, n)) == (if im.Some? && n > 0 then 1 else 0)
  {
    StartHistoryShape(im, addr, n);
    NoRunsInListens(addr, n);
    var listens := seq(n, _ => Listen(addr));
    if im.Some? && n > 0 {
      InitRunsAppend([RunInit(im.value)], listens);
    } else {
      assert [] + listens == listens;
    }
  }

  lemma {:induction false} NoRunsInListens(addr: string, n: nat)
    ensures InitRuns(seq(n, _ => Listen(addr))) == 0
  {
    if n > 0 {
      var listens := seq(n, _ => Listen(addr));
      assert listens[..n - 1] == seq(n - 1, _ => Listen(addr));
      NoRunsInListens(addr, n - 1);
    }
  }

  lemma {:induction false} InitRunsAppend(a: seq<LifecycleEvent>, b: seq<LifecycleEvent>)
    ensures InitRuns(a + b) == InitRuns(a) + InitRuns(b)
    decreases |b|
  {
    if b == [] {
      assert a + b == a;
    } else {
      assert (a + b)[..|a + b| - 1] == a + b[..|b| - 1];
      InitRunsAppend(a, b[..|b| - 1]);
    }
  }

  /**
   * `NewServer`: builds the skeleton, applies the params in order and
   * returns the partial server with the first error; otherwise falls back
   * to the default chain when middleware is still nil and registers every
   * middleware with the mux in list order. `invoked` and `defaultRequested`
   * count the calls made to the params and to the default-chain collaborator.
   */
  method NewServer(c: HTTPConfig, params: seq<Param>,
                   defaultMiddleware: (Logger, Registry) -> Option<seq<Middleware>>)
    returns (s: Server, err: Option<Error>, ghost invoked: nat, ghost defaultRequested: bool)
    ensures fresh(s) && fresh(s.mux) && s.Valid()
    ensures !s.initDone && s.history == []
    ensures Build(c, params, defaultMiddleware) == Built(s.Snapshot(), err, invoked, defaultRequested, s.mux.uses)
  {
    s := new Server.Skeleton(c);
    defaultRequested := false;
    err, invoked := s.RunParams(params);
    if err.Some? {
      return;
    }
    if s.middleware.None? {
      s.middleware := defaultMiddleware(s.logger, s.registry);
      defaultRequested := true;
    }
    s.UseMiddleware();
    err := None;
  }
}
