/** The `Collector` middleware: consumers register for paths (`Collect`); each
    request is either collected, with the handler running on capturing wrappers
    and one consumer receiving the resulting `Metrics`, or passed through
    untouched (`ServeHTTP`, `shouldCollect`). The inner handler, the custom
    router and the consumers are code outside the library: the handler's calls
    come from a script, the router's opt-in decision from a function, and calls
    into them are recorded in a log. */
module Collectors {
  import opened Common
  import opened Net
  import opened LimitedBuffers
  import opened RequestBodyReaders
  import opened ResponseWriters
  import opened Requests
  import HttpMetrics
  import opened Options
  import opened Paths
  import opened Exchanges
  import opened Handlers
  import opened PlainWriters

  /** A `MetricsFunc`, told apart by an identity. */
  type ConsumerId = nat

  /** The `http.HandlerFunc` that `routerHandler(fn)` builds around a consumer. */
  datatype HandlerFunc = RouterHandler(fn: ConsumerId)

  /** The `http.Handler` `shouldCollect` picks to receive the metrics: a
      registered handler func, or the custom router. */
  datatype Target = Route(f: HandlerFunc) | Router(router: Handler)

  /** A call from the library into code outside it. */
  datatype Event =
    | RouterConsulted(router: Handler, line: RequestLine)           // CustomRouter.ServeHTTP(&req, r)
    | HandlerServed(handler: Handler, line: RequestLine, wrapped: bool)  // Handler.ServeHTTP(w, r)
    | RouterServed(router: Handler, metrics: HttpMetrics.Metrics, request: Request)  // router.ServeHTTP(metrics, r)
    | ConsumerCalled(fn: ConsumerId, metrics: HttpMetrics.Metrics)   // fn(metrics)

  /** The calls made into outside code, in order. */
  class CallLog {
    var events: seq<Event>

    constructor ()
      ensures events == []
    {
      events := [];
    }
  }

  /** What a custom router does when handed a `*MetricsRequest` over an options
      copy: whether it sets `Collect`, and the options it leaves in the copy. */
  type RouterDecision = (Handler, RequestLine, Settings) -> (bool, Settings)

  /** The calls a handler makes for a request, given the body it will read. */
  type Behaviour = (Handler, RequestLine, StreamState) -> seq<Action>

  // ----------------------------------------------------------- routerHandler

  /** What the func built by `routerHandler(f.fn)` does when served `w`: it calls
      the consumer with `w` when `w` is a `Metrics`, and nothing else. */
  function RouterHandlerEvents(f: HandlerFunc, w: HttpMetrics.ResponseWriterValue): (events: seq<Event>)
    ensures w.MetricsValue? ==> events == [ConsumerCalled(f.fn, w.metrics)]
    ensures !w.MetricsValue? ==> events == []
  {
    if w.MetricsValue? then [ConsumerCalled(f.fn, w.metrics)] else []
  }

  /** `fakeRequest(r)`: the request itself, body included. */
  function FakeRequest(r: Request): (fake: Request)
    ensures fake == r
  {
    r
  }

  /** `router.ServeHTTP(metrics, fakeRequest(r))`: exactly one consumer hears of
      the request, the one the target stands for. */
  function DeliveryEvents(t: Target, m: HttpMetrics.Metrics, r: Request): (events: seq<Event>)
    ensures |events| == 1
    ensures t.Route? ==> events == [ConsumerCalled(t.f.fn, m)]
    ensures t.Router? ==> events == [RouterServed(t.router, m, r)]
  {
    match t
    case Route(f) => RouterHandlerEvents(f, HttpMetrics.MetricsValue(m))
    case Router(router) => [RouterServed(router, m, FakeRequest(r))]
  }

  // ------------------------------------------------------------ registration

  /** The collector's routing state: route key to handler func, and the default. */
  datatype Routing = Routing(routes: map<string, HandlerFunc>, defaultHandler: Option<HandlerFunc>)

  /** What one path registers: nothing but the default for "*", its route key
      otherwise. */
  function KeyOf(p: string): (key: Option<string>)
    ensures key.None? <==> Pattern(p) == "*"
    ensures key.Some? ==> IsRouteKey(key.value)
  {
    RouteKeyShape(p);
    if Pattern(p) == "*" then None else Some(RouteKey(p))
  }

  /** What each of `paths` registers, in order. */
  function Entries(paths: seq<string>): (entries: seq<Option<string>>)
    ensures |entries| == |paths|
    ensures forall e :: e in entries && e.Some? ==> IsRouteKey(e.value)
    decreases |paths|
  {
    if paths == [] then []
    else Entries(paths[..|paths| - 1]) + [KeyOf(paths[|paths| - 1])]
  }

  /** Registering `f` under each entry from left to right: `None` sets the
      default, a key overwrites the route under it. */
  function RegisterEntries(routing: Routing, f: HandlerFunc, entries: seq<Option<string>>): (r: Routing)
    ensures forall k :: k in routing.routes ==> k in r.routes
    ensures forall k :: k in r.routes ==> k in routing.routes || Some(k) in entries
    ensures routing.defaultHandler.Some? ==> r.defaultHandler.Some?
    decreases |entries|
  {
    if entries == [] then routing
    else
      var r := RegisterEntries(routing, f, entries[..|entries| - 1]);
      var e := entries[|entries| - 1];
      if e.None? then r.(defaultHandler := Some(f))
      else r.(routes := r.routes[e.value := f])
  }

  /** The keys among `entries`. */
  function KeysOf(entries: seq<Option<string>>): set<string>
    decreases |entries|
  {
    if entries == [] then {}
    else
      var e := entries[|entries| - 1];
      KeysOf(entries[..|entries| - 1]) + (if e.None? then {} else {e.value})
  }

  /** Registering `f` for `paths` from left to right: a path whose pattern is "*"
      sets the default, any other overwrites the entry under its route key. */
  function Register(routing: Routing, f: HandlerFunc, paths: seq<string>): (r: Routing)
    ensures forall k :: k in routing.routes ==> k in r.routes
    ensures forall k :: k in r.routes ==> k in routing.routes || IsRouteKey(k)
    ensures routing.defaultHandler.Some? ==> r.defaultHandler.Some?
  {
    RegisterEntries(routing, f, Entries(paths))
  }

  /** The route keys `paths` register. */
  function RegisteredKeys(paths: seq<string>): set<string>
  {
    KeysOf(Entries(paths))
  }

  /** Whether one of `paths` normalises to "*". */
  predicate HasStar(paths: seq<string>)
  {
    None in Entries(paths)
  }

  /** The shape of every route key: a leading slash, no trailing slash except for
      "/" itself, and no upper-case letter. */
  predicate IsRouteKey(key: string)
  {
    |key| >= 1 && key[0] == '/' && (key[|key| - 1] == '/' ==> key == "/") && IsLower(key)
  }

  /** One more path registers one more entry. */
  lemma EntriesSnoc(paths: seq<string>, i: nat)
    requires i < |paths|
    ensures Entries(paths[..i + 1]) == Entries(paths[..i]) + [KeyOf(paths[i])]
  {
    assert paths[..i + 1][..i] == paths[..i];
  }

  /** Registering one more path: "*" sets the default, any other path its key. */
  lemma RegisterSnoc(routing: Routing, f: HandlerFunc, paths: seq<string>, i: nat)
    requires i < |paths|
    ensures var r := Register(routing, f, paths[..i]);
      Register(routing, f, paths[..i + 1])
      == if Pattern(paths[i]) == "*" then r.(defaultHandler := Some(f))
         else r.(routes := r.routes[RouteKey(paths[i]) := f])
  {
    EntriesSnoc(paths, i);
    var es := Entries(paths[..i]) + [KeyOf(paths[i])];
    assert es[..|es| - 1] == Entries(paths[..i]);
  }

  /** Each entry is what its path registers. */
  lemma {:induction false} EntriesIndex(paths: seq<string>, i: nat)
    requires i < |paths|
    ensures Entries(paths)[i] == KeyOf(paths[i])
    decreases |paths|
  {
    if i < |paths| - 1 {
      var init := paths[..|paths| - 1];
      EntriesIndex(init, i);
      assert init[i] == paths[i];
    }
  }

  /** A key is among `entries` exactly when some entry holds it. */
  lemma {:induction false} KeysOfIndex(entries: seq<Option<string>>, k: string)
    ensures k in KeysOf(entries) <==> Some(k) in entries
    decreases |entries|
  {
    if entries != [] {
      var init := entries[..|entries| - 1];
      KeysOfIndex(init, k);
      assert entries == init + [entries[|entries| - 1]];
    }
  }

  /** Registering entries adds exactly their keys, each pointing at `f`, and
      leaves every other route alone. */
  lemma {:induction false} RegisterEntriesRoutes(routing: Routing, f: HandlerFunc, entries: seq<Option<string>>)
    ensures var r := RegisterEntries(routing, f, entries);
      r.routes.Keys == routing.routes.Keys + KeysOf(entries) &&
      (forall k :: k in KeysOf(entries) ==> r.routes[k] == f) &&
      (forall k :: k in routing.routes && k !in KeysOf(entries) ==> r.routes[k] == routing.routes[k])
    decreases |entries|
  {
    if entries != [] {
      RegisterEntriesRoutes(routing, f, entries[..|entries| - 1]);
    }
  }

  /** Registering entries sets the default exactly when one of them is `None`. */
  lemma {:induction false} RegisterEntriesDefault(routing: Routing, f: HandlerFunc, entries: seq<Option<string>>)
    ensures RegisterEntries(routing, f, entries).defaultHandler
         == (if None in entries then Some(f) else routing.defaultHandler)
    decreases |entries|
  {
    if entries != [] {
      var init := entries[..|entries| - 1];
      RegisterEntriesDefault(routing, f, init);
      assert entries == init + [entries[|entries| - 1]];
    }
  }

  /** Registration adds exactly the keys of the paths, all pointing at `f`
      (overwriting earlier entries), and leaves every other entry as it was. */
  lemma RegisterRoutes(routing: Routing, f: HandlerFunc, paths: seq<string>)
    ensures var r := Register(routing, f, paths);
      r.routes.Keys == routing.routes.Keys + RegisteredKeys(paths) &&
      (forall k :: k in RegisteredKeys(paths) ==> r.routes[k] == f) &&
      (forall k :: k in routing.routes && k !in RegisteredKeys(paths) ==> r.routes[k] == routing.routes[k])
  {
    RegisterEntriesRoutes(routing, f, Entries(paths));
  }

  /** Registration makes `f` the default exactly when one of the paths is "*". */
  lemma RegisterDefault(routing: Routing, f: HandlerFunc, paths: seq<string>)
    ensures Register(routing, f, paths).defaultHandler
         == (if exists i :: 0 <= i < |paths| && Pattern(paths[i]) == "*" then Some(f) else routing.defaultHandler)
  {
    RegisterEntriesDefault(routing, f, Entries(paths));
    var es := Entries(paths);
    if None in es {
      var i :| 0 <= i < |es| && es[i] == None;
      EntriesIndex(paths, i);
    }
    if exists i :: 0 <= i < |paths| && Pattern(paths[i]) == "*" {
      var i :| 0 <= i < |paths| && Pattern(paths[i]) == "*";
      EntriesIndex(paths, i);
    }
  }

  /** Every route key has the form `IsRouteKey`. */
  lemma RouteKeyShape(p: string)
    ensures IsRouteKey(RouteKey(p))
  {
    RouteKeyIsFound(p);
  }

  /** Every key the paths register is the route key of one of them, and so has
      the form `IsRouteKey`; every path other than "*" registers its route key. */
  lemma RegisteredKeysShape(paths: seq<string>)
    ensures forall k :: k in RegisteredKeys(paths) ==> IsRouteKey(k)
    ensures forall i :: 0 <= i < |paths| && Pattern(paths[i]) != "*" ==> RouteKey(paths[i]) in RegisteredKeys(paths)
  {
    var es := Entries(paths);
    forall k | k in RegisteredKeys(paths)
      ensures IsRouteKey(k)
    {
      KeysOfIndex(es, k);
      var i :| 0 <= i < |es| && es[i] == Some(k);
      EntriesIndex(paths, i);
      RouteKeyShape(paths[i]);
    }
    forall i | 0 <= i < |paths| && Pattern(paths[i]) != "*"
      ensures RouteKey(paths[i]) in RegisteredKeys(paths)
    {
      EntriesIndex(paths, i);
      KeysOfIndex(es, RouteKey(paths[i]));
    }
  }

  // ---------------------------------------------------------------- decision

  /** The outcome of `shouldCollect`: nothing, a route hit, the custom router
      opting in (with the options it left in the copy), or the default. */
  datatype Choice =
    | Skip
    | ByRoute(f: HandlerFunc)
    | ByRouter(router: Handler, options: Settings)
    | ByDefault(f: HandlerFunc)
  {
    function Target(): Target
      requires !Skip?
    {
      if ByRouter? then Router(router) else Route(f)
    }
  }

  /** Whether `shouldCollect` hands the request to the custom router: the request
      has a URL, its lower-cased path is no route key, and there is a router. */
  predicate Consults(routing: Routing, shared: Settings, line: Option<RequestLine>)
  {
    line.Some? && line.value.url.Some? &&
    LookupKey(line.value.url.value.path) !in routing.routes && shared.customRouter.Some?
  }

  /** `shouldCollect`'s decision chain; the first rule that applies wins. */
  function Choose(routing: Routing, shared: Settings, line: Option<RequestLine>, decide: RouterDecision): (c: Choice)
    ensures c.ByRouter? ==> Consults(routing, shared, line)
  {
    if line.None? || line.value.url.None? then Skip
    else
      var key := LookupKey(line.value.url.value.path);
      if key in routing.routes then ByRoute(routing.routes[key])
      else if shared.customRouter.Some? && decide(shared.customRouter.value, line.value, shared).0 then
        ByRouter(shared.customRouter.value, decide(shared.customRouter.value, line.value, shared).1)
      else if routing.defaultHandler.Some? then ByDefault(routing.defaultHandler.value)
      else Skip
  }

  /** `Choose` read back rule by rule, as a reference for readers rather than an
      independent property: no URL skips; a route hit wins without consulting
      the router; a router that sets Collect wins with the copy it rewrote;
      otherwise the default, if any; and nothing else is ever chosen. The
      promises built on it are `RegisteredPathIsCollected`,
      `DefaultCollectsTheRest` and `NoUrlIsSkipped`. */
  lemma ChooseChain(routing: Routing, shared: Settings, line: Option<RequestLine>, decide: RouterDecision)
    ensures var c := Choose(routing, shared, line, decide);
      (line.None? || line.value.url.None? ==> c == Skip && !Consults(routing, shared, line)) &&
      (line.Some? && line.value.url.Some? && LookupKey(line.value.url.value.path) in routing.routes ==>
         c == ByRoute(routing.routes[LookupKey(line.value.url.value.path)]) && !Consults(routing, shared, line)) &&
      (Consults(routing, shared, line) && decide(shared.customRouter.value, line.value, shared).0 ==>
         c == ByRouter(shared.customRouter.value, decide(shared.customRouter.value, line.value, shared).1)) &&
      (line.Some? && line.value.url.Some? && LookupKey(line.value.url.value.path) !in routing.routes &&
       !(Consults(routing, shared, line) && decide(shared.customRouter.value, line.value, shared).0) ==>
         c == if routing.defaultHandler.Some? then ByDefault(routing.defaultHandler.value) else Skip)
  {
  }

  /** A request for a path registered with `Collect(fn, paths...)` goes to `fn`,
      whatever the custom router or the default would say. */
  lemma RegisteredPathIsCollected(routing: Routing, fn: ConsumerId, paths: seq<string>, p: string,
                                  shared: Settings, verb: string, decide: RouterDecision)
    requires p in paths && Pattern(p) != "*"
    ensures var line := RequestLine(verb, Some(Url(RouteKey(p))));
      Choose(Register(routing, RouterHandler(fn), paths), shared, Some(line), decide) == ByRoute(RouterHandler(fn))
  {
    RegisteredKeysShape(paths);
    RegisterRoutes(routing, RouterHandler(fn), paths);
    RouteKeyIsFound(p);
  }

  /** Once `Collect(fn)` set the default, every request with a URL that no route
      and no custom router takes goes to `fn`, with the shared options. */
  lemma DefaultCollectsTheRest(routing: Routing, fn: ConsumerId, shared: Settings, line: RequestLine,
                               decide: RouterDecision)
    requires line.url.Some? && LookupKey(line.url.value.path) !in routing.routes
    requires shared.customRouter.Some? ==> !decide(shared.customRouter.value, line, shared).0
    ensures Choose(routing.(defaultHandler := Some(RouterHandler(fn))), shared, Some(line), decide)
         == ByDefault(RouterHandler(fn))
    ensures !Consults(routing, shared, Some(line)) <==> shared.customRouter.None?
  {
  }

  /** Nothing is collected for a missing request or a request without a URL. */
  lemma NoUrlIsSkipped(routing: Routing, shared: Settings, line: Option<RequestLine>, decide: RouterDecision)
    requires line.None? || line.value.url.None?
    ensures Choose(routing, shared, line, decide) == Skip
    ensures !Consults(routing, shared, line)
  {
  }

  // -------------------------------------------------------- what is reported

  /** `reqBodyReader.Body()` after the handler: the capped prefix of what it read,
      or, if it never read, one read of up to the limit. */
  function RequestBodyOf(v: View, limit: int): (body: seq<byte>)
    ensures |body| <= Max(0, limit)
    ensures v.read ==> body <= v.consumed
    ensures !v.read ==> body <= Flatten(v.wire.stream.pending)
    ensures !v.read && v.wire.stream.closed ==> body == []
  {
    if v.read then Capture(limit, v.consumed)
    else if limit > 0 then StreamRead(v.wire.stream, limit).data
    else []
  }

  /** The body stream once `Body()` has run. */
  function StreamAfter(v: View, limit: int): (after: StreamState)
    ensures after.closed == v.wire.stream.closed
    ensures v.read || limit <= 0 ==> after == v.wire.stream
    ensures !v.read ==> RequestBodyOf(v, limit) + Flatten(after.pending) == Flatten(v.wire.stream.pending)
  {
    if !v.read && limit > 0 then StreamRead(v.wire.stream, limit).next else v.wire.stream
  }

  /** The record a consumer receives, read off the wrappers after a run ending in `v`. */
  ghost predicate Reports(m: HttpMetrics.Metrics, v: View, s: Settings, r: Request, elapsed: HttpMetrics.Duration)
    reads m.responseWriter.Objects()
  {
    m.duration == elapsed && m.request.request == r &&
    m.response.code == v.status &&
    m.response.writtenBodyBytes == v.written &&
    m.response.header == v.wire.client.header &&
    m.response.body == (if s.collectResponseBody > 0 then Capture(s.collectResponseBody, v.offered) else []) &&
    (m.responseWriter.Mirrored? <==> s.collectResponseBody > 0) &&
    m.responseWriter.Valid() && m.responseWriter.Base().custom == v.custom &&
    m.request.consumedBodyBytes == |v.consumed| &&
    m.request.body == RequestBodyOf(v, s.collectRequestBody)
  }

  /** What the reported values mean for a handler that made the calls `script`
      on a transport that started as `client` and `stream`: the code is the last
      one passed to WriteHeader (0 if none), the counter is the number of bytes
      the client received, the response body is the capped prefix of all bytes
      written, the request body is a capped prefix of the body the client sent,
      each custom metric is the value the handler last stored under its key,
      and until the handler returns the client saw the same as without the
      middleware. */
  lemma {:induction false} ReportedValues(client: ClientState, stream: StreamState, script: seq<Action>,
                                          s: Settings)
    ensures var v := Run(Start(client, stream), script);
      v.wire == WireRun(Wire(client, stream), script) &&
      v.status == LastOr(Codes(script), 0) &&
      v.written == |v.wire.client.sent| - |client.sent| &&
      v.offered == Payload(script) &&
      (v.read <==> Reads(script)) &&
      |v.consumed| <= |Flatten(stream.pending)| &&
      RequestBodyOf(v, s.collectRequestBody) <= Flatten(stream.pending) &&
      |RequestBodyOf(v, s.collectRequestBody)| <= Max(0, s.collectRequestBody) &&
      (forall key :: LastMetric(script, key).Some? ==>
         key in v.custom && v.custom[key] == LastMetric(script, key).value) &&
      (forall key :: LastMetric(script, key).None? ==> key !in v.custom)
  {
    var v0 := Start(client, stream);
    var v := Run(v0, script);
    RunIsTransparent(v0, script);
    RunStatus(v0, script);
    RunWrittenIsSent(v0, script);
    RunOffered(v0, script);
    RunConsumed(v0, script);
    RunReadFlag(v0, script);
    var whole := Flatten(stream.pending);
    assert v.consumed + Flatten(v.wire.stream.pending) == whole;
    assert whole[..|v.consumed|] == v.consumed;
    var limit := s.collectRequestBody;
    if v.read {
      assert RequestBodyOf(v, limit) <= v.consumed;
    } else if limit > 0 {
      var o := StreamRead(v.wire.stream, limit);
      assert o.data <= Flatten(v.wire.stream.pending);
    }
    forall key
      ensures LastMetric(script, key).Some? ==> key in v.custom && v.custom[key] == LastMetric(script, key).value
      ensures LastMetric(script, key).None? ==> key !in v.custom
    {
      RunCustom(v0, script, key);
    }
  }

  // --------------------------------------------------------------- collector

  class Collector {
    const options: CollectOptions       // Options
    var routes: map<string, HandlerFunc>
    var defaultHandler: Option<HandlerFunc>

    /** Every route key has the shape registration gives it. */
    ghost predicate Valid()
      reads this
    {
      forall k :: k in routes ==> IsRouteKey(k)
    }

    /** The routing state. */
    function Table(): Routing
      reads this
    {
      Routing(routes, defaultHandler)
    }

    /** `New(options)`: a nil handler becomes `http.DefaultServeMux`; no routes and
        no default yet. */
    constructor New(literal: Literal)
      ensures Valid() && fresh(options) && options.Value() == WithDefaultHandler(literal)
      ensures routes == map[] && defaultHandler == None
    {
      options := new CollectOptions(WithDefaultHandler(literal));
      routes := map[];
      defaultHandler := None;
    }

    /** `Collect(fn, paths...)`: with no paths, `fn` becomes the default; otherwise
        each path is registered in turn. */
    method Collect(fn: ConsumerId, paths: seq<string>)
      requires Valid()
      modifies this
      ensures Valid()
      ensures paths == [] ==> Table() == old(Table()).(defaultHandler := Some(RouterHandler(fn)))
      ensures paths != [] ==> Table() == Register(old(Table()), RouterHandler(fn), paths)
    {
      var handler := RouterHandler(fn);
      if |paths| == 0 {
        defaultHandler := Some(handler);
        return;
      }
      for i := 0 to |paths|
        invariant Valid()
        invariant Table() == Register(old(Table()), handler, paths[..i])
      {
        RegisterSnoc(old(Table()), handler, paths, i);
        var p := ToLower(Clean(ToSlash(paths[i])));
        if p == "*" {
          defaultHandler := Some(handler);
        } else {
          p := "/" + Trim(p);
          assert p == RouteKey(paths[i]);
          RouteKeyShape(paths[i]);
          routes := routes[p := handler];
        }
      }
      assert paths[..|paths|] == paths;
    }

    /** `shouldCollect(r)`: the handler to deliver the metrics to and the options
        to collect with, or neither. A route hit and the router get a private
        copy of the options; the default gets the collector's own. */
    method ShouldCollect(r: Request?, decide: RouterDecision, log: CallLog) returns (router: Option<Target>, opts: CollectOptions?)
      modifies log
      ensures var line := if r == null then None else Some(r.Line());
        var c := Choose(Table(), options.Value(), line, decide);
        (c.Skip? ==> router.None? && opts == null) &&
        (!c.Skip? ==> router == Some(c.Target()) && opts != null) &&
        (c.ByRoute? ==> fresh(opts) && opts.Value() == options.Value()) &&
        (c.ByRouter? ==> fresh(opts) && opts.Value() == c.options) &&
        (c.ByDefault? ==> opts == options) &&
        log.events == old(log.events) +
          (if Consults(Table(), options.Value(), line) then [RouterConsulted(options.customRouter.value, line.value)] else [])
    {
      if r == null || r.url.None? {
        return None, null;
      }
      var copy := new CollectOptions(options.Value());
      var req := new HttpMetrics.MetricsRequest(copy);
      var key := LookupKey(r.url.value.path);
      if key in routes {
        return Some(Route(routes[key])), copy;
      }
      if options.customRouter.Some? {
        ConsultRouter(options.customRouter.value, req, FakeRequest(r), decide, log);
        if req.collect {
          return Some(Router(options.customRouter.value)), copy;
        }
      }
      if defaultHandler.Some? {
        return Some(Route(defaultHandler.value)), options;
      }
      return None, null;
    }

    /** `ServeHTTP(w, r)`. */
    method ServeHTTP(w: ClientWriter, r: Request, behaviour: Behaviour, decide: RouterDecision,
                     log: CallLog, elapsed: HttpMetrics.Duration)
      requires r.body.Original?
      modifies w, r, r.body.stream, log
      ensures var line := r.Line();
        var c := Choose(Table(), options.Value(), Some(line), decide);
        var asked := if Consults(Table(), options.Value(), Some(line))
          then [RouterConsulted(options.customRouter.value, line)] else [];
        var stream := old(r.body).stream;
        var stream0 := old(r.body.stream.state);
        (c.Skip? ==>
          r.body == old(r.body) &&
          log.events == old(log.events) + asked + [HandlerServed(options.handler, line, false)] &&
          Wire(w.state, stream.state) == WireRun(Wire(old(w.state), stream0), behaviour(options.handler, line, stream0))) &&
        (!c.Skip? ==>
          var s := if c.ByRouter? then c.options else options.Value();
          Collected(c.Target(), s, behaviour(s.handler, line, stream0), old(w.state), stream0,
                    old(log.events) + asked, elapsed, w, r, stream, log))
    {
      var router, opts := ShouldCollect(r, decide, log);
      if router.Some? && opts != null {
        ServeCollected(router.value, opts, w, r, behaviour, log, elapsed);
        return;
      }
      var stream := r.body.stream;
      var line := r.Line();
      var script := behaviour(options.handler, line, stream.state);
      log.events := log.events + [HandlerServed(options.handler, line, false)];
      ServeOriginal(script, w, stream);
    }
  }

  /** `CustomRouter.ServeHTTP(&req, r)`: the router may set `req.Collect` and
      rewrite the options copy `req` points to. */
  method ConsultRouter(router: Handler, req: HttpMetrics.MetricsRequest, r: Request, decide: RouterDecision, log: CallLog)
    modifies req, req.options, log
    ensures var d := decide(router, r.Line(), old(req.options.Value()));
      req.collect == d.0 && req.options.Value() == d.1
    ensures log.events == old(log.events) + [RouterConsulted(router, r.Line())]
  {
    var d := decide(router, r.Line(), req.options.Value());
    log.events := log.events + [RouterConsulted(router, r.Line())];
    req.collect := d.0;
    req.options.Assign(d.1);
  }

  /** The state a collected request leaves: the body was replaced by a capturing
      reader over the original stream, the handler ran once on the wrappers,
      then exactly one delivery carried the metrics read off them. */
  ghost predicate Collected(target: Target, s: Settings, script: seq<Action>, client0: ClientState,
                            stream0: StreamState, events0: seq<Event>, elapsed: HttpMetrics.Duration,
                            w: ClientWriter, r: Request, stream: ChunkStream, log: CallLog)
    reads *
  {
    var v := Run(Start(client0, stream0), script);
    r.body.Captured? && r.body.reader.body == stream &&
    w.state == v.wire.client &&
    stream.state == StreamAfter(v, s.collectRequestBody) &&
    |log.events| == |events0| + 2 &&
    var e := log.events[|log.events| - 1];
    (e.RouterServed? || e.ConsumerCalled?) &&
    var m := e.metrics;
    log.events == events0 + [HandlerServed(s.handler, r.Line(), true)] + DeliveryEvents(target, m, r) &&
    Reports(m, v, s, r, elapsed)
  }

  /** The writer `ServeHTTP` wraps `w` in: the body-keeping one exactly when the
      response-body limit is positive. */
  method NewCapturingWriter(w: ClientWriter, limit: int) returns (rw: CapturingWriter)
    ensures rw.Valid() && fresh(rw.Objects()) && rw.Client() == w
    ensures rw.Mirrored? <==> limit > 0
    ensures rw.Mirrored? ==> rw.Limit() == limit
    ensures rw.Base().statusCode == 0 && rw.Base().written == 0
    ensures rw.Base().offered == [] && rw.Base().custom == map[]
  {
    if limit > 0 {
      rw := NewResponseWriterWithBody(w, limit);
    } else {
      rw := NewResponseWriterWithoutBody(w);
    }
  }

  /** Reads the metrics off the wrappers once the handler has returned. */
  method ReadMetrics(rw: CapturingWriter, reader: RequestBodyReader, r: Request, elapsed: HttpMetrics.Duration,
                     ghost s: Settings) returns (m: HttpMetrics.Metrics)
    requires rw.Valid() && reader.Valid() && reader.buf !in rw.Objects()
    requires rw.Mirrored? <==> s.collectResponseBody > 0
    requires rw.Mirrored? ==> rw.Limit() == s.collectResponseBody
    requires reader.buf.maxSize == s.collectRequestBody
    modifies reader, reader.body
    ensures m.responseWriter == rw
    ensures Reports(m, old(Snapshot(rw, reader)), s, r, elapsed)
    ensures reader.body.state == StreamAfter(old(Snapshot(rw, reader)), s.collectRequestBody)
  {
    var header := rw.Header();
    var body := rw.Body();
    var code := rw.StatusCode();
    var written := rw.WrittenBodyBytes();
    var requestBody, _ := reader.Body();
    var consumed := reader.ConsumedBodyBytes();
    m := HttpMetrics.Metrics(elapsed, HttpMetrics.Request(r, requestBody, consumed),
                             HttpMetrics.Response(code, body, written, header), rw);
  }

  /** Wraps `w` and `r.Body`, then runs the handler once through the wrappers. */
  method RunWrapped(opts: CollectOptions, w: ClientWriter, r: Request, behaviour: Behaviour, log: CallLog)
      returns (rw: CapturingWriter, reader: RequestBodyReader, script: seq<Action>)
    requires r.body.Original?
    modifies w, r, r.body.stream, log
    ensures script == behaviour(opts.handler, r.Line(), old(r.body.stream.state))
    ensures r.body == Captured(reader) && fresh(reader) && fresh(reader.buf) && reader.body == old(r.body).stream
    ensures rw.Valid() && reader.Valid() && reader.buf !in rw.Objects() && rw.Client() == w
    ensures rw.Mirrored? <==> opts.collectResponseBody > 0
    ensures rw.Mirrored? ==> rw.Limit() == opts.collectResponseBody
    ensures reader.buf.maxSize == opts.collectRequestBody
    ensures Snapshot(rw, reader) == Run(Start(old(w.state), old(r.body.stream.state)), script)
    ensures log.events == old(log.events) + [HandlerServed(opts.handler, r.Line(), true)]
  {
    rw := NewCapturingWriter(w, opts.collectResponseBody);
    var stream := r.body.stream;
    reader := new RequestBodyReader(stream, opts.collectRequestBody);
    r.body := Captured(reader);
    var line := r.Line();
    script := behaviour(opts.handler, line, stream.state);
    log.events := log.events + [HandlerServed(opts.handler, line, true)];
    assert Snapshot(rw, reader) == Start(old(w.state), old(stream.state));
    ServeWrapped(script, rw, reader);
  }

  /** The collecting branch of `ServeHTTP`. */
  method ServeCollected(target: Target, opts: CollectOptions, w: ClientWriter, r: Request, behaviour: Behaviour,
                        log: CallLog, elapsed: HttpMetrics.Duration)
    requires r.body.Original?
    modifies w, r, r.body.stream, log
    ensures var s := opts.Value();
      var stream0 := old(r.body.stream.state);
      r.body.Captured? && fresh(r.body.reader) &&
      Collected(target, s, behaviour(s.handler, r.Line(), stream0), old(w.state), stream0,
                old(log.events), elapsed, w, r, old(r.body).stream, log)
  {
    var rw, reader, script := RunWrapped(opts, w, r, behaviour, log);
    ghost var v := Snapshot(rw, reader);
    ghost var events1 := log.events;
    var m := ReadMetrics(rw, reader, r, elapsed, opts.Value());
    assert w.state == v.wire.client;
    log.events := log.events + DeliveryEvents(target, m, FakeRequest(r));
    assert log.events == events1 + DeliveryEvents(target, m, r);
  }
}
