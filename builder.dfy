/**
 * The meaning of `NewServer` as pure functions: the skeleton server, the
 * in-order application of the `Param`s with an early exit on the first
 * error, the default-middleware fallback and the resulting `Use` calls.
 * The imperative `BaseApp.NewServer` is proved to compute exactly `Build`.
 */
module Builder {
  import opened BaseTypes

  /**
   * The fields of a `Server` that a `Param` may set. `middleware` is `None`
   * for Go's nil slice and `Some([])` for an empty non-nil one.
   */
  datatype Fields = Fields(
    config: HTTPConfig,
    middleware: Option<seq<Middleware>>,
    logger: Logger,
    registry: Registry,
    initMetrics: Option<InitMetrics>)

  /** `type Param func(b *Server) error`: a transformer that may fail (`Some`). */
  datatype Param = Param(apply: Fields -> (Fields, Option<Error>))

  /** Lines 47-54: the config given, nil middleware, no-op logger, default registry. */
  function Skeleton(c: HTTPConfig): (f: Fields)
    ensures f.config == c && f.middleware.None? && f.initMetrics.None?
    ensures f.logger == NopLogger && f.registry == DefaultRegistry
  {
    Fields(c, None, NopLogger, DefaultRegistry, None)
  }

  /** What the parameter loop leaves behind: the server, the error, how many params ran. */
  datatype Applied = Applied(fields: Fields, err: Option<Error>, invoked: nat)

  /**
   * Applies `ps` in order to `f`; the last param sees the server as left by
   * all the ones before it, and nothing runs after an error.
   */
  function ApplyParams(f: Fields, ps: seq<Param>): (r: Applied)
    ensures r.invoked <= |ps|
    ensures r.err.None? ==> r.invoked == |ps|
    ensures r.err.Some? ==> r.invoked >= 1
    decreases |ps|
  {
    if ps == [] then Applied(f, None, 0)
    else
      var before := ApplyParams(f, ps[..|ps| - 1]);
      if before.err.Some? then before
      else
        var (g, e) := ps[|ps| - 1].apply(before.fields);
        Applied(g, e, |ps|)
  }

  /** Ranging over a slice: a nil slice has no elements. */
  function Elements(m: Option<seq<Middleware>>): (s: seq<Middleware>)
    ensures m.Some? ==> s == m.value
    ensures m.None? ==> s == []
  {
    if m.Some? then m.value else []
  }

  /**
   * The outcome of `NewServer`: the server's fields, the returned error,
   * how many params ran, whether the default chain was requested, and the
   * middleware passed to `mux.Use`, in call order.
   */
  datatype Built = Built(
    fields: Fields,
    err: Option<Error>,
    invoked: nat,
    defaultRequested: bool,
    uses: seq<Middleware>)

  function Build(c: HTTPConfig, ps: seq<Param>,
                 defaultMiddleware: (Logger, Registry) -> Option<seq<Middleware>>): (b: Built)
    // an error is returned with the partial server, and nothing follows it
    ensures var a := ApplyParams(Skeleton(c), ps);
      a.err.Some? ==> b == Built(a.fields, a.err, a.invoked, false, [])
    // the error and the invocation count are those of the parameter loop:
    // nil exactly when every param succeeded, and then every param ran
    ensures var a := ApplyParams(Skeleton(c), ps); b.err == a.err && b.invoked == a.invoked
    ensures b.err.None? ==> b.invoked == |ps|
    // the default is requested exactly when no param set middleware, with the params' logger and registry
    ensures var a := ApplyParams(Skeleton(c), ps);
      a.err.None? ==>
        && b.defaultRequested == a.fields.middleware.None?
        && b.fields.middleware == (if a.fields.middleware.None?
                                   then defaultMiddleware(a.fields.logger, a.fields.registry)
                                   else a.fields.middleware)
        && b.fields == a.fields.(middleware := b.fields.middleware)
    // the mux sees the resolved chain, in list order
    ensures b.err.None? ==> b.uses == Elements(b.fields.middleware)
  {
    var a := ApplyParams(Skeleton(c), ps);
    if a.err.Some? then Built(a.fields, a.err, a.invoked, false, [])
    else
      var requested := a.fields.middleware.None?;
      var mw := if requested then defaultMiddleware(a.fields.logger, a.fields.registry)
                else a.fields.middleware;
      Built(a.fields.(middleware := mw), None, a.invoked, requested, Elements(mw))
  }

  /**
   * Once a prefix of the params has failed, the params after it change
   * nothing: they are never invoked and the outcome is the prefix's.
   */
  lemma {:induction false} ErrorStopsApplication(f: Fields, ps: seq<Param>, k: nat)
    requires k <= |ps|
    requires ApplyParams(f, ps[..k]).err.Some?
    ensures ApplyParams(f, ps) == ApplyParams(f, ps[..k])
    decreases |ps|
  {
    if k < |ps| {
      var init := ps[..|ps| - 1];
      assert init[..k] == ps[..k];
      ErrorStopsApplication(f, init, k);
    } else {
      assert ps[..k] == ps;
    }
  }

  /**
   * If the params before `k` all succeed and param `k` fails, the loop
   * returns exactly param `k`'s error and the server as param `k` left it,
   * after invoking exactly `k + 1` params.
   */
  lemma FirstErrorIsReturned(f: Fields, ps: seq<Param>, k: nat)
    requires k < |ps|
    requires ApplyParams(f, ps[..k]).err.None?
    requires ps[k].apply(ApplyParams(f, ps[..k]).fields).1.Some?
    ensures ApplyParams(f, ps)
         == Applied(ps[k].apply(ApplyParams(f, ps[..k]).fields).0,
                    ps[k].apply(ApplyParams(f, ps[..k]).fields).1, k + 1)
  {
    var pre := ps[..k + 1];
    assert pre[..|pre| - 1] == ps[..k];
    ErrorStopsApplication(f, ps, k + 1);
  }

  /**
   * Conversely, every error the loop returns is the error of the param at
   * position `invoked - 1`, run on the server as all earlier params left it,
   * and all of those earlier params succeeded.
   */
  lemma {:induction false} ErrorComesFromLastInvoked(f: Fields, ps: seq<Param>)
    requires ApplyParams(f, ps).err.Some?
    ensures var r := ApplyParams(f, ps); var k := r.invoked - 1;
      && ApplyParams(f, ps[..k]).err.None?
      && ps[k].apply(ApplyParams(f, ps[..k]).fields) == (r.fields, r.err)
    decreases |ps|
  {
    var init := ps[..|ps| - 1];
    var before := ApplyParams(f, init);
    if before.err.Some? {
      ErrorComesFromLastInvoked(f, init);
      var k := before.invoked - 1;
      assert init[..k] == ps[..k];
    } else {
      assert ps[..|ps| - 1] == init;
    }
  }

  /**
   * Compositionality: applying `ps` equals applying its first `k` params
   * and then, if they succeeded, the rest from where they left the server.
   */
  lemma {:induction false} ApplyParamsSplit(f: Fields, ps: seq<Param>, k: nat)
    requires k <= |ps|
    requires ApplyParams(f, ps[..k]).err.None?
    ensures var pre := ApplyParams(f, ps[..k]);
      var rest := ApplyParams(pre.fields, ps[k..]);
      ApplyParams(f, ps) == rest.(invoked := k + rest.invoked)
    decreases |ps|
  {
    if k == |ps| {
      assert ps[..k] == ps;
      assert ps[k..] == [];
    } else {
      var init := ps[..|ps| - 1];
      assert init[..k] == ps[..k];
      ApplyParamsSplit(f, init, k);
      assert ps[k..][..|ps[k..]| - 1] == init[k..];
    }
  }

  /** A param that never changes the config. */
  ghost predicate KeepsConfig(p: Param) {
    forall f :: p.apply(f).0.config == f.config
  }

  ghost predicate KeepsLogger(p: Param) {
    forall f :: p.apply(f).0.logger == f.logger
  }

  ghost predicate KeepsRegistry(p: Param) {
    forall f :: p.apply(f).0.registry == f.registry
  }

  /** Fields that no param touches keep the values they had before the loop. */
  lemma {:induction false} UntouchedFieldsKept(f: Fields, ps: seq<Param>)
    ensures (forall i :: 0 <= i < |ps| ==> KeepsConfig(ps[i])) ==>
      ApplyParams(f, ps).fields.config == f.config
    ensures (forall i :: 0 <= i < |ps| ==> KeepsLogger(ps[i])) ==>
      ApplyParams(f, ps).fields.logger == f.logger
    ensures (forall i :: 0 <= i < |ps| ==> KeepsRegistry(ps[i])) ==>
      ApplyParams(f, ps).fields.registry == f.registry
    decreases |ps|
  {
    if ps != [] {
      var init := ps[..|ps| - 1];
      UntouchedFieldsKept(f, init);
      var before := ApplyParams(f, init);
      var last := ps[|ps| - 1];
      if before.err.None? {
        var g := last.apply(before.fields).0;
        assert KeepsConfig(last) ==> g.config == before.fields.config;
        assert KeepsLogger(last) ==> g.logger == before.fields.logger;
        assert KeepsRegistry(last) ==> g.registry == before.fields.registry;
      }
    }
  }

  /**
   * With no params that touch them, `NewServer` keeps the skeleton's config,
   * no-op logger and default registry; with no params at all it also resolves
   * the default chain from that logger and registry.
   */
  lemma BuildKeepsSkeleton(c: HTTPConfig, ps: seq<Param>,
                           defaultMiddleware: (Logger, Registry) -> Option<seq<Middleware>>)
    ensures (forall i :: 0 <= i < |ps| ==> KeepsConfig(ps[i])) ==>
      Build(c, ps, defaultMiddleware).fields.config == c
    ensures (forall i :: 0 <= i < |ps| ==> KeepsLogger(ps[i])) ==>
      Build(c, ps, defaultMiddleware).fields.logger == NopLogger
    ensures (forall i :: 0 <= i < |ps| ==> KeepsRegistry(ps[i])) ==>
      Build(c, ps, defaultMiddleware).fields.registry == DefaultRegistry
    ensures ps == [] ==>
      Build(c, ps, defaultMiddleware)
        == Built(Skeleton(c).(middleware := defaultMiddleware(NopLogger, DefaultRegistry)), None, 0, true,
                 Elements(defaultMiddleware(NopLogger, DefaultRegistry)))
  {
    UntouchedFieldsKept(Skeleton(c), ps);
  }
}
