/** How the service is wired: the two handler chains `setupServeMux` builds from the
    configuration, the patterns it registers them under, and which chain a request
    path reaches. */
module Routes {
  import opened Wrappers
  import opened Failures
  import opened Http
  import opened Store
  import opened Storage
  import opened Pipeline
  import Handlers

  /** The configuration fields the wiring depends on. */
  datatype Config = Config(realIPHeader: string, remoteUserHeader: string)

  /** The user layer both chains get. */
  function UserLayer(conf: Config): (l: Layer)
    ensures IsUserLayer(l)
    ensures conf.remoteUserHeader != "" <==> l == RemoteUserLayer(conf.remoteUserHeader)
    ensures conf.remoteUserHeader == "" <==> l == StaticUserLayer("test")
  {
    if conf.remoteUserHeader != "" then RemoteUserLayer(conf.remoteUserHeader) else StaticUserLayer("test")
  }

  /** The chain for "/": recovery, user, the optional real-IP layer, then `dbHandler`
      around `indexHandler`. */
  function RootChain(conf: Config): (h: Handler)
    ensures h.transactional && h.endpoint == IndexEndpoint
    ensures |h.layers| >= 2 && h.layers[0] == RecoverLayer && h.layers[1] == UserLayer(conf)
    ensures |h.layers| == 3 <==> conf.realIPHeader != ""
    ensures |h.layers| == 3 ==> h.layers[2] == RealIPLayer(conf.realIPHeader)
    ensures |h.layers| <= 3
  {
    Handler([RecoverLayer, UserLayer(conf)] + (if conf.realIPHeader != "" then [RealIPLayer(conf.realIPHeader)] else []),
            true, IndexEndpoint)
  }

  /** The chain for "/_admin": recovery, user, then `dbHandler` around `adminHandler`. */
  function AdminChain(conf: Config): (h: Handler)
    ensures h.transactional && h.endpoint == AdminEndpoint
    ensures h.layers == [RecoverLayer, UserLayer(conf)]
  {
    Handler([RecoverLayer, UserLayer(conf)], true, AdminEndpoint)
  }

  /** Wraps `h` in one more layer on the outside. */
  function Wrap(layer: Layer, h: Handler): (r: Handler)
    ensures |r.layers| == |h.layers| + 1 && r.layers[0] == layer && r.layers[1..] == h.layers
    ensures r.transactional == h.transactional && r.endpoint == h.endpoint
  {
    h.(layers := [layer] + h.layers)
  }

  // ---------------------------------------------------------------------------
  // The multiplexer

  /** A registered handler: a chain and the database its `dbHandler` uses, or the
      handler the `expvar` package registers for "/debug/vars". */
  datatype Route = Route(chain: Handler, db: Db) | Expvar

  const DebugVars: string := "/debug/vars"

  /** `http.DefaultServeMux` as the program finds it: importing `expvar` has already
      registered its handler for "/debug/vars". */
  const DefaultPatterns: map<string, Route> := map[DebugVars := Expvar]

  /** The patterns after a registration, and whether `Handle` returned or panicked. */
  datatype Registration = Registration(patterns: map<string, Route>, outcome: Outcome)

  /** `ServeMux.Handle(pattern, handler)`: an empty pattern and a pattern registered
      before are refused with a panic; otherwise the route is added. */
  function Register(patterns: map<string, Route>, pattern: string, route: Route): (r: Registration)
    ensures r.outcome.Normal? <==> pattern != "" && pattern !in patterns
    ensures r.outcome.Normal? ==> r.patterns == patterns[pattern := route]
    ensures r.outcome.Panic? ==> r.patterns == patterns
    ensures pattern == "" ==> r.outcome == Panic(StringValue("http: invalid pattern"))
    ensures pattern != "" && pattern in patterns ==>
      r.outcome == Panic(StringValue("http: multiple registrations for " + pattern))
  {
    if pattern == "" then Registration(patterns, Panic(StringValue("http: invalid pattern")))
    else if pattern in patterns then Registration(patterns, Panic(StringValue("http: multiple registrations for " + pattern)))
    else Registration(patterns[pattern := route], Normal)
  }

  /** Which registered pattern serves `path`: the pattern equal to the path, and
      otherwise the catch-all "/". */
  function Match(patterns: map<string, Route>, path: string): (r: Option<string>)
    ensures r.Some? ==> r.value in patterns
    ensures path in patterns ==> r == Some(path)
    ensures path !in patterns ==> (r.Some? <==> "/" in patterns) && (r.Some? ==> r.value == "/")
  {
    if path in patterns then Some(path)
    else if "/" in patterns then Some("/")
    else None
  }

  /** The databases the routes registered in `patterns` use. */
  function Databases(patterns: map<string, Route>): set<object> {
    set p | p in patterns.Values && p.Route? :: p.db
  }

  /** The request multiplexer. */
  class ServeMux {
    var patterns: map<string, Route>

    /** `http.DefaultServeMux`, holding the "/debug/vars" route of `expvar`. */
    constructor ()
      ensures patterns == DefaultPatterns
    {
      patterns := DefaultPatterns;
    }

    /** `Handle(pattern, handler)`. */
    method Handle(pattern: string, route: Route) returns (outcome: Outcome)
      modifies this
      ensures var reg := Register(old(patterns), pattern, route);
        patterns == reg.patterns && outcome == reg.outcome
    {
      if pattern == "" {
        outcome := Panic(StringValue("http: invalid pattern"));
      } else if pattern in patterns {
        outcome := Panic(StringValue("http: multiple registrations for " + pattern));
      } else {
        patterns := patterns[pattern := route];
        outcome := Normal;
      }
    }

    /** Serves a request with the handler its path selects; a path no pattern covers
        gets a 404. `expvar`'s handler answers with the JSON of the published variables. */
    method ServeHTTP(w: ResponseWriter, r: Handlers.Request, env: Env) returns (outcome: Outcome)
      requires r.ctx.tx.None?
      modifies w, r, Databases(patterns)
      ensures Match(patterns, r.path).None? ==>
        w.Value() == old(w.Value()).NotFound() && outcome == Normal && r.remoteAddr == old(r.remoteAddr)
      ensures Match(patterns, r.path).Some? && patterns[Match(patterns, r.path).value].Expvar? ==>
        && w.Value() == old(w.Value()).SetHeader("Content-Type", "application/json; charset=utf-8").Write(env.expvars)
        && outcome == Normal && r.remoteAddr == old(r.remoteAddr)
      ensures Match(patterns, r.path).Some? && patterns[Match(patterns, r.path).value].Route? ==>
        var route := patterns[Match(patterns, r.path).value];
        var sv := Pipeline.Serve(route.chain, old(w.Value()), old(route.db.Value()), old(r.Value()), env);
        && w.Value() == sv.resp && route.db.Value() == sv.db && outcome == sv.outcome
        && r.remoteAddr == FinalAddr(route.chain.layers, old(r.Value()))
    {
      match Match(patterns, r.path)
      case None =>
        Http.NotFound(w);
        outcome := Normal;
      case Some(pattern) =>
        match patterns[pattern]
        case Expvar =>
          w.SetHeader("Content-Type", "application/json; charset=utf-8");
          w.Write(env.expvars);
          outcome := Normal;
        case Route(chain, db) =>
          var _, o := Handlers.Serve(chain, w, r, db, env);
          outcome := o;
    }
  }

  // ---------------------------------------------------------------------------
  // expvar

  /** The names published after a `Publish`, and whether it returned or panicked. */
  datatype Publication = Publication(names: set<string>, outcome: Outcome)

  /** `expvar.Publish(name, v)` (and `expvar.NewString(name)`, which publishes): a name
      may be published once; publishing it again panics through `log.Panicln`. */
  function PublishName(names: set<string>, name: string): (r: Publication)
    ensures r.outcome.Normal? <==> name !in names
    ensures r.outcome.Normal? ==> r.names == names + {name}
    ensures r.outcome.Panic? ==>
      r.names == names && r.outcome == Panic(StringValue("Reuse of exported var name: " + name + "\n"))
  {
    if name in names then Publication(names, Panic(StringValue("Reuse of exported var name: " + name + "\n")))
    else Publication(names + {name}, Normal)
  }

  /** The process-wide registry of published variables. */
  class Vars {
    var names: set<string>

    /** As the program finds it: `expvar` itself publishes "cmdline" and "memstats". */
    constructor ()
      ensures names == {"cmdline", "memstats"}
    {
      names := {"cmdline", "memstats"};
    }

    method Publish(name: string) returns (outcome: Outcome)
      modifies this
      ensures var p := PublishName(old(names), name);
        names == p.names && outcome == p.outcome
    {
      if name in names {
        outcome := Panic(StringValue("Reuse of exported var name: " + name + "\n"));
      } else {
        names := names + {name};
        outcome := Normal;
      }
    }
  }

  // ---------------------------------------------------------------------------
  // setupServeMux

  /** The variables `setupServeMux` publishes, in order. */
  const SetupVars: seq<string> := ["gitrev", "revdate", "config"]

  /** Published names and registered patterns after `setupServeMux`, and how it ended. */
  datatype Wiring = Wiring(names: set<string>, patterns: map<string, Route>, outcome: Outcome)

  /** `setupServeMux(db)` on values: publish the three variables, then register "/" and
      "/_admin"; the first panic ends it, leaving what was done before. */
  function Setup(names: set<string>, patterns: map<string, Route>, db: Db, conf: Config): (r: Wiring)
    ensures r.outcome.Normal? <==>
      (forall v :: v in SetupVars ==> v !in names) && "/" !in patterns && "/_admin" !in patterns
    ensures r.outcome.Normal? ==>
      && r.names == names + {"gitrev", "revdate", "config"}
      && r.patterns == patterns["/" := Route(RootChain(conf), db)]["/_admin" := Route(AdminChain(conf), db)]
    ensures "gitrev" in names ==>
      r == Wiring(names, patterns, Panic(StringValue("Reuse of exported var name: " + "gitrev" + "\n")))
    ensures forall p :: p in patterns ==> p in r.patterns && r.patterns[p] == patterns[p]
    ensures names <= r.names
  {
    var g := PublishName(names, "gitrev");
    if g.outcome.Panic? then Wiring(g.names, patterns, g.outcome)
    else
      var v := PublishName(g.names, "revdate");
      if v.outcome.Panic? then Wiring(v.names, patterns, v.outcome)
      else
        var c := PublishName(v.names, "config");
        if c.outcome.Panic? then Wiring(c.names, patterns, c.outcome)
        else
          var root := Register(patterns, "/", Route(RootChain(conf), db));
          if root.outcome.Panic? then Wiring(c.names, root.patterns, root.outcome)
          else
            var admin := Register(root.patterns, "/_admin", Route(AdminChain(conf), db));
            Wiring(c.names, admin.patterns, admin.outcome)
  }

  /** `setupServeMux(db)`: publishes the build and configuration variables, builds both
      chains step by step and registers them on the multiplexer. */
  method SetupServeMux(db: Db, conf: Config, mux: ServeMux, vars: Vars) returns (outcome: Outcome)
    modifies mux, vars
    ensures var wiring := Setup(old(vars.names), old(mux.patterns), db, conf);
      vars.names == wiring.names && mux.patterns == wiring.patterns && outcome == wiring.outcome
  {
    outcome := vars.Publish("gitrev");
    if outcome.Panic? { return; }
    outcome := vars.Publish("revdate");
    if outcome.Panic? { return; }
    outcome := vars.Publish("config");
    if outcome.Panic? { return; }
    var handler := Handler([], true, IndexEndpoint);
    if conf.realIPHeader != "" {
      handler := Wrap(RealIPLayer(conf.realIPHeader), handler);
    }
    var admin := Handler([], true, AdminEndpoint);
    if conf.remoteUserHeader != "" {
      handler := Wrap(RemoteUserLayer(conf.remoteUserHeader), handler);
      admin := Wrap(RemoteUserLayer(conf.remoteUserHeader), admin);
    } else {
      handler := Wrap(StaticUserLayer("test"), handler);
      admin := Wrap(StaticUserLayer("test"), admin);
    }
    handler := Wrap(RecoverLayer, handler);
    admin := Wrap(RecoverLayer, admin);
    assert handler.layers == RootChain(conf).layers;
    assert admin.layers == AdminChain(conf).layers;
    outcome := mux.Handle("/", Route(handler, db));
    if outcome.Panic? { return; }
    outcome := mux.Handle("/_admin", Route(admin, db));
  }

  /** On the program's fresh registry and `http.DefaultServeMux`, `setupServeMux` returns
      normally and the multiplexer then holds exactly three routes. */
  lemma SetupOnDefaultMux(db: Db, conf: Config)
    ensures var wiring := Setup({"cmdline", "memstats"}, DefaultPatterns, db, conf);
      && wiring.outcome == Normal
      && wiring.patterns == map[DebugVars := Expvar, "/" := Route(RootChain(conf), db), "/_admin" := Route(AdminChain(conf), db)]
      && wiring.names == {"cmdline", "memstats", "gitrev", "revdate", "config"}
  {
    var wiring := Setup({"cmdline", "memstats"}, DefaultPatterns, db, conf);
    assert forall v :: v in SetupVars ==> v !in {"cmdline", "memstats"};
    assert wiring.outcome == Normal;
  }

  /** Calling `setupServeMux` a second time panics at the first publication, before any
      pattern is registered again, and changes nothing. */
  lemma SetupTwicePanics(db: Db, db2: Db, conf: Config, conf2: Config)
    ensures var first := Setup({"cmdline", "memstats"}, DefaultPatterns, db, conf);
      var second := Setup(first.names, first.patterns, db2, conf2);
      second == Wiring(first.names, first.patterns, Panic(StringValue("Reuse of exported var name: " + "gitrev" + "\n")))
  {
    SetupOnDefaultMux(db, conf);
  }

  // ---------------------------------------------------------------------------
  // The shape of the chains

  /** The positions of user layers in a chain. */
  function UserLayers(layers: seq<Layer>): set<int> {
    set i | 0 <= i < |layers| && IsUserLayer(layers[i])
  }

  /** Both chains: recovery outermost, `dbHandler` innermost around the right handler,
      exactly one user layer, second from the outside, chosen by the configuration. */
  lemma ChainShape(conf: Config)
    ensures var root, admin := RootChain(conf), AdminChain(conf);
      && root.layers[0] == RecoverLayer && admin.layers[0] == RecoverLayer
      && root.transactional && root.endpoint == IndexEndpoint
      && admin.transactional && admin.endpoint == AdminEndpoint
      && UserLayers(root.layers) == {1} && UserLayers(admin.layers) == {1}
      && root.layers[1] == admin.layers[1]
      && (conf.remoteUserHeader != "" ==> root.layers[1] == RemoteUserLayer(conf.remoteUserHeader))
      && (conf.remoteUserHeader == "" ==> root.layers[1] == StaticUserLayer("test"))
      && (forall i :: 0 < i < |root.layers| ==> root.layers[i] != RecoverLayer)
      && (forall i :: 0 < i < |admin.layers| ==> admin.layers[i] != RecoverLayer)
  {
  }

  /** The real-IP layer is on the "/" chain exactly when its header is configured, and
      then sits between the user layer and `dbHandler`; the admin chain never has it. */
  lemma RealIPPlacement(conf: Config)
    ensures var root := RootChain(conf);
      && (RealIPLayer(conf.realIPHeader) in root.layers <==> conf.realIPHeader != "")
      && (conf.realIPHeader != "" ==> |root.layers| == 3 && root.layers[2] == RealIPLayer(conf.realIPHeader))
      && (conf.realIPHeader == "" ==> |root.layers| == 2)
      && forall l :: l in AdminChain(conf).layers ==> !l.RealIPLayer?
  {
  }

  /** After `setupServeMux` on `http.DefaultServeMux`, "/_admin" reaches the admin chain,
      "/debug/vars" the `expvar` handler, and every other path (such as "/foo") the "/"
      chain. */
  lemma RouteSelection(db: Db, conf: Config, path: string)
    ensures var patterns := Setup({"cmdline", "memstats"}, DefaultPatterns, db, conf).patterns;
      && Match(patterns, path).Some?
      && (path == DebugVars ==> patterns[Match(patterns, path).value] == Expvar)
      && (path == "/_admin" ==> patterns[Match(patterns, path).value] == Route(AdminChain(conf), db))
      && (path != "/_admin" && path != DebugVars ==> patterns[Match(patterns, path).value] == Route(RootChain(conf), db))
  {
    SetupOnDefaultMux(db, conf);
  }

  /** The user layer comes before the real-IP layer and hands its successor a new
      request, so the request object the multiplexer was given keeps the peer address
      on both chains; only the copy the endpoint sees carries the header's value. */
  lemma OriginalRequestKeepsAddr(conf: Config, req: Req)
    ensures FinalAddr(RootChain(conf).layers, req) == req.remoteAddr
    ensures FinalAddr(AdminChain(conf).layers, req) == req.remoteAddr
  {
    var root := RootChain(conf).layers;
    assert FinalAddr(root, req) == FinalAddr(root[1..], req);
  }

  /** Neither route ever lets a panic reach the server. */
  lemma RoutesNeverPanic(conf: Config, resp: Response, db: DbState, req: Req, env: Env)
    requires !req.ctx.hasTx
    ensures Pipeline.Serve(RootChain(conf), resp, db, req, env).outcome == Normal
    ensures Pipeline.Serve(AdminChain(conf), resp, db, req, env).outcome == Normal
  {
  }
}
