/** What each handler and middleware does to a request, as functions on values.

    A handler gets the response written so far, the transaction session (when the
    request context carries one) and the request, and ends in a `Step`: the new
    response, the new session and how it ended (returned or panicked). The layers
    around the handlers are composed by `Serve`, which follows one request through a
    chain and gives back the response writer's final state and what the database holds.

    The library behaviour the handlers rely on but that is not part of the service
    (address splitting and IP parsing, URL parsing, HTML escaping, the admin page
    template, the clock) is passed in as an `Env`. */
module Pipeline {
  import opened Wrappers
  import opened Failures
  import opened Http
  import opened Store

  /** The library behaviour the handlers depend on. */
  datatype Env = Env(
    splitHost: string -> Option<string>,  // net.SplitHostPort: the host part, or None on error
    parseIP: string -> Option<string>,    // net.ParseIP, rendered back as text; None when invalid
    urlParses: string -> bool,            // net/url.Parse succeeds
    htmlEscape: string -> string,         // used by http.Redirect's HTML body
    renderAdmin: (string, string, seq<Listing>) -> string,  // the admin page for (path, user, urls)
    expires: string,                      // the Expires header value, 90 seconds from now
    expvars: string)                      // the JSON document expvar serves: every published variable

  /** The values a request context can carry: the transaction and the user name. */
  datatype Ctx = Ctx(hasTx: bool, user: Option<string>)

  const EmptyCtx: Ctx := Ctx(false, None)

  /** A request: method, URL path, headers, form values, client address and context. */
  datatype Req = Req(verb: string, path: string, header: map<string, string>,
                     form: map<string, string>, remoteAddr: string, ctx: Ctx)

  /** Where a handler left the response and the transaction, and how it ended. */
  datatype Step = Step(resp: Response, s: Session, outcome: Outcome)

  /** What a whole chain leaves behind: the response, the database, the transaction it
      ran (if it opened one) and how it ended. */
  datatype Served = Served(resp: Response, db: DbState, tx: Option<TxState>, outcome: Outcome)

  /** `Header.Get` and `FormValue`: the value, or "" when absent. */
  function Lookup(m: map<string, string>, key: string): (v: string)
    ensures key in m ==> v == m[key]
    ensures key !in m ==> v == ""
  {
    if key in m then m[key] else ""
  }

  // ---------------------------------------------------------------------------
  // Pure helpers

  /** `parseIP`: the host part of `host:port`, or the whole string when it does not
      split, must parse as an IP address. */
  function ParseIP(s: string, env: Env): (r: Result<string, Err>)
    ensures env.splitHost(s).None? ==> (r.Success? <==> env.parseIP(s).Some?)
    ensures env.splitHost(s).Some? ==> (r.Success? <==> env.parseIP(env.splitHost(s).value).Some?)
    ensures r.Success? ==> r.value == env.parseIP(env.splitHost(s).GetOr(s)).value
    ensures r.Failure? ==> r.error == Text("Couldn't parse IP: " + s)
  {
    var inet := match env.splitHost(s) case Some(host) => host case None => s;
    match env.parseIP(inet)
    case None => Failure(Text("Couldn't parse IP: " + s))
    case Some(ip) => Success(ip)
  }

  /** The three form values an admin POST carries. */
  datatype AdminForm = AdminForm(name: string, url: string, user: string)

  /** `validateAdminForm`: name, then URL, then URL syntax, then user; the first check
      that fails decides the message. */
  function ValidateAdminForm(form: map<string, string>, urlParses: string -> bool): (r: Result<AdminForm, string>)
    ensures r.Success? <==>
      Lookup(form, "name") != "" && Lookup(form, "url") != "" && urlParses(Lookup(form, "url")) && Lookup(form, "user") != ""
    ensures r.Success? ==> r.value == AdminForm(Lookup(form, "name"), Lookup(form, "url"), Lookup(form, "user"))
    ensures r == Failure("Missing name") <==> Lookup(form, "name") == ""
    ensures r == Failure("Missing URL") <==> Lookup(form, "name") != "" && Lookup(form, "url") == ""
    ensures r == Failure("Malformed URL") <==>
      Lookup(form, "name") != "" && Lookup(form, "url") != "" && !urlParses(Lookup(form, "url"))
    ensures r == Failure("Missing user") <==>
      Lookup(form, "name") != "" && Lookup(form, "url") != "" && urlParses(Lookup(form, "url")) && Lookup(form, "user") == ""
  {
    var name := Lookup(form, "name");
    var url := Lookup(form, "url");
    var user := Lookup(form, "user");
    if name == "" then Failure("Missing name")
    else if url == "" then Failure("Missing URL")
    else if !urlParses(url) then Failure("Malformed URL")
    else if user == "" then Failure("Missing user")
    else Success(AdminForm(name, url, user))
  }

  /** `handleError`: the status text of `code` as a plain-text error. */
  function HandleError(resp: Response, code: int): (r: Response)
    ensures r.status == resp.WriteHeader(code).status
    ensures r.body == resp.body + StatusText(code) + "\n"
  {
    resp.Error(StatusText(code), code)
  }

  /** The panic value for an error. */
  function Raise(e: Err): Outcome {
    Panic(ErrorValue(e))
  }

  /** How a handler ends after a statement: panicking with its error, if any. */
  function Check(err: Option<Err>): (o: Outcome)
    ensures o.Normal? <==> err.None?
    ensures err.Some? ==> o == Raise(err.value)
  {
    match err
    case Some(e) => Raise(e)
    case None => Normal
  }

  /** The rejection pattern of the handlers: roll back, and only if that worked, answer
      with `msg` and `code`; a failed rollback panics with its error. */
  function Reject(resp: Response, s: Session, msg: string, code: int): (st: Step)
    ensures st.s == Rollback(s).s
    ensures st.outcome.Normal? <==> Rollback(s).err.None?
    ensures st.outcome.Normal? ==> st.resp == resp.Error(msg, code)
    ensures st.outcome.Panic? ==> st.resp == resp && st.outcome == Raise(Rollback(s).err.value)
  {
    var rb := Rollback(s);
    match rb.err
    case Some(e) => Step(resp, rb.s, Raise(e))
    case None => Step(resp.Error(msg, code), rb.s, Normal)
  }

  /** The name a request path refers to: the path without its leading character. */
  function NameOf(path: string): (name: string)
    requires |path| > 0
    ensures [path[0]] + name == path
  {
    path[1..]
  }

  /** Slicing an empty path: the runtime panic of `r.URL.Path[1:]`. */
  const SliceOutOfRange: Outcome := Raise(Runtime("slice bounds out of range [1:0]"))

  const NoTxPanic: Outcome := Panic(StringValue("no tx"))
  const NoUserPanic: Outcome := Panic(StringValue("no user"))

  /** The headers a successful redirect sets before `http.Redirect`. */
  function CacheHeaders(resp: Response, env: Env): (r: Response)
    ensures r.status == resp.status && r.body == resp.body
    ensures "Cache-Control" in r.header && r.header["Cache-Control"] == "private, max-age=90"
    ensures "Expires" in r.header && r.header["Expires"] == env.expires
    ensures "Content-Type" in r.header && r.header["Content-Type"] == "text/html"
    ensures forall k :: k !in {"Cache-Control", "Expires", "Content-Type"} ==>
      (k in r.header <==> k in resp.header) && (k in resp.header ==> r.header[k] == resp.header[k])
  {
    resp.SetHeader("Cache-Control", "private, max-age=90")
        .SetHeader("Expires", env.expires)
        .SetHeader("Content-Type", "text/html")
  }

  /** The referrer recorded with a hit: none when the Referer header is empty. */
  function Referrer(header: map<string, string>): (r: Option<string>)
    ensures r.None? <==> Lookup(header, "Referer") == ""
    ensures r.Some? ==> r.value == Lookup(header, "Referer")
  {
    var referer := Lookup(header, "Referer");
    if referer != "" then Some(referer) else None
  }

  // ---------------------------------------------------------------------------
  // The handlers

  /** `redirHandler`: looks the name up (counting a hit), redirects with 301, then
      records the hit. */
  function Redir(resp: Response, s: Session, req: Req, env: Env): (st: Step)
    ensures !req.ctx.hasTx ==> st == Step(resp, s, NoTxPanic)
    ensures st.s.db.committed == s.db.committed
  {
    if !req.ctx.hasTx then Step(resp, s, NoTxPanic)
    else if |req.path| == 0 then Step(resp, s, SliceOutOfRange)
    else
      var name := NameOf(req.path);
      var agent := Lookup(req.header, "User-Agent");
      var g := GetURLnID(s, name);
      match g.result
      case Failure(NoRows) => Reject(resp, g.s, "404 page not found", 404)
      case Failure(e) => Step(resp, g.s, Raise(e))
      case Success((url, urlId)) =>
        var redirected := CacheHeaders(resp, env).Redirect(url, 301, req.verb, env.htmlEscape);
        match ParseIP(req.remoteAddr, env)
        case Failure(e) => Step(redirected, g.s, Raise(e))
        case Success(ip) =>
          var h := AddHit(g.s, urlId, ip, agent, Referrer(req.header));
          Step(redirected, h.s, Check(h.err))
  }

  /** `deleteHandler`: only the owner of a name may delete it. */
  function Delete(resp: Response, s: Session, req: Req): (st: Step)
    ensures !req.ctx.hasTx ==> st == Step(resp, s, NoTxPanic)
    ensures req.ctx.hasTx && req.ctx.user.None? ==> st == Step(resp, s, NoUserPanic)
    ensures st.s.db.committed == s.db.committed
  {
    if !req.ctx.hasTx then Step(resp, s, NoTxPanic)
    else if req.ctx.user.None? then Step(resp, s, NoUserPanic)
    else
      var user := req.ctx.user.value;
      if user == "" then Reject(resp, s, "Missing user", 400)
      else if |req.path| == 0 then Step(resp, s, SliceOutOfRange)
      else
        var name := NameOf(req.path);
        var g := GetIDnUser(s, name);
        match g.result
        case Failure(NoRows) => Reject(resp, g.s, "404 page not found", 404)
        case Failure(e) => Step(resp, g.s, Raise(e))
        case Success((_, owner)) =>
          if user != owner then Reject(resp, g.s, "Forbidden", 403)
          else
            var rm := RemoveURL(g.s, name);
            Step(resp, rm.s, Check(rm.err))
  }

  /** `adminGetHandler`: the admin page listing the user's URLs. */
  function AdminGet(resp: Response, s: Session, req: Req, env: Env): (st: Step)
    ensures !req.ctx.hasTx ==> st == Step(resp, s, NoTxPanic)
    ensures req.ctx.hasTx && req.ctx.user.None? ==> st == Step(resp, s, NoUserPanic)
    ensures st.s.db == s.db && st.s.tx.tables == s.tx.tables
  {
    if !req.ctx.hasTx then Step(resp, s, NoTxPanic)
    else if req.ctx.user.None? then Step(resp, s, NoUserPanic)
    else
      var user := req.ctx.user.value;
      var q := UrlsForUser(s, user);
      match q.result
      case Failure(e) => Step(resp, q.s, Raise(e))
      case Success(rows) => Step(resp.Write(env.renderAdmin(req.path, user, Listings(rows))), q.s, Normal)
  }

  /** `adminPostHandler`: validates the form and adds the URL under the form's user. */
  function AdminPost(resp: Response, s: Session, req: Req, env: Env): (st: Step)
    ensures !req.ctx.hasTx ==> st == Step(resp, s, NoTxPanic)
    ensures req.ctx.hasTx && req.ctx.user.None? ==> st == Step(resp, s, NoUserPanic)
    ensures st.s.db.committed == s.db.committed
  {
    if !req.ctx.hasTx then Step(resp, s, NoTxPanic)
    else if req.ctx.user.None? then Step(resp, s, NoUserPanic)
    else
      match ValidateAdminForm(req.form, env.urlParses)
      case Failure(msg) => Reject(resp, s, msg, 400)
      case Success(f) =>
        var a := AddURL(s, f.name, f.url, f.user);
        if a.err.Some? then Step(resp, a.s, Raise(a.err.value))
        else Step(resp.Redirect("/_admin", 303, req.verb, env.htmlEscape), a.s, Normal)
  }

  /** The handlers at the end of a chain. */
  datatype Endpoint = IndexEndpoint | AdminEndpoint | RedirEndpoint | DeleteEndpoint | AdminGetEndpoint | AdminPostEndpoint

  /** `indexHandler` and `adminHandler` dispatch on the method (any other method is a
      400 "Bad method"); the other endpoints are the handlers themselves. */
  function Dispatch(ep: Endpoint, resp: Response, s: Session, req: Req, env: Env): (st: Step)
    ensures st.s.db.committed == s.db.committed
  {
    match ep
    case IndexEndpoint =>
      if req.verb == "GET" then Redir(resp, s, req, env)
      else if req.verb == "DELETE" then Delete(resp, s, req)
      else Step(resp.Error("Bad method", 400), s, Normal)
    case AdminEndpoint =>
      if req.verb == "POST" then AdminPost(resp, s, req, env)
      else if req.verb == "GET" then AdminGet(resp, s, req, env)
      else Step(resp.Error("Bad method", 400), s, Normal)
    case RedirEndpoint => Redir(resp, s, req, env)
    case DeleteEndpoint => Delete(resp, s, req)
    case AdminGetEndpoint => AdminGet(resp, s, req, env)
    case AdminPostEndpoint => AdminPost(resp, s, req, env)
  }

  // ---------------------------------------------------------------------------
  // The middleware

  /** The deferred recovery of `dbHandler`: roll back, then re-panic with the rollback's
      error if it failed, otherwise with the original value. */
  function RollbackAndRepanic(resp: Response, s: Session, p: PanicValue): (r: Served)
    ensures r.resp == resp && r.db == s.db
    ensures r.tx == Some(Rollback(s).s.tx)
    ensures r.outcome == if Rollback(s).err.Some? then Raise(Rollback(s).err.value) else Panic(p)
  {
    var rb := Rollback(s);
    Served(resp, rb.s.db, Some(rb.s.tx), if rb.err.Some? then Raise(rb.err.value) else Panic(p))
  }

  /** `dbHandler` around an endpoint: begin, run the endpoint with the transaction in
      its context, commit on return (a `TxDone` from commit is ignored), and on any
      panic after begin roll back and re-panic. */
  function DbLayer(ep: Endpoint, resp: Response, db: DbState, req: Req, env: Env): (r: Served)
    ensures Begin(db).Failure? ==> r == Served(resp, db, None, Raise(Begin(db).error))
    ensures Begin(db).Success? ==> r.tx.Some?
    ensures r.outcome.Panic? ==> r.db.committed == db.committed
  {
    match Begin(db)
    case Failure(e) => Served(resp, db, None, Raise(e))
    case Success(tx) =>
      var st := Dispatch(ep, resp, Session(db, tx), req.(ctx := req.ctx.(hasTx := true)), env);
      if st.outcome.Panic? then RollbackAndRepanic(st.resp, st.s, st.outcome.value)
      else
        var c := Commit(st.s);
        if c.err.None? || c.err == Some(TxDone) then Served(st.resp, c.s.db, Some(c.s.tx), Normal)
        else RollbackAndRepanic(st.resp, c.s, ErrorValue(c.err.value))
  }

  /** `panicHandler`'s recovery: any panic becomes a 500 with the status text. The
      panic value is only logged (as `AsError` of it). */
  function Recover(inner: Served): (r: Served)
    ensures r.outcome == Normal
    ensures r.db == inner.db && r.tx == inner.tx
    ensures inner.outcome.Normal? ==> r == inner
    ensures inner.outcome.Panic? ==> r.resp == HandleError(inner.resp, 500)
  {
    if inner.outcome.Panic? then inner.(resp := HandleError(inner.resp, 500), outcome := Normal)
    else inner
  }

  /** A middleware layer. */
  datatype Layer = RecoverLayer | RealIPLayer(header: string) | StaticUserLayer(user: string) | RemoteUserLayer(header: string)

  /** A chain: layers from the outside in, then (optionally) `dbHandler`, then the endpoint. */
  datatype Handler = Handler(layers: seq<Layer>, transactional: bool, endpoint: Endpoint)

  /** `realIPHandler`'s effect on the request: the header, when present and non-empty,
      replaces the client address. */
  function WithRealIP(req: Req, header: string): (r: Req)
    ensures Lookup(req.header, header) != "" ==> r == req.(remoteAddr := Lookup(req.header, header))
    ensures Lookup(req.header, header) == "" ==> r == req
  {
    var realIP := Lookup(req.header, header);
    if realIP != "" then req.(remoteAddr := realIP) else req
  }

  /** The user layers' effect: the context now carries `user`. */
  function WithUser(req: Req, user: string): (r: Req)
    ensures r.ctx.user == Some(user) && r.ctx.hasTx == req.ctx.hasTx
    ensures r == req.(ctx := r.ctx)
  {
    req.(ctx := req.ctx.(user := Some(user)))
  }

  /** The layers that put a user into the context; each passes a new request on. */
  predicate IsUserLayer(l: Layer) {
    l.StaticUserLayer? || l.RemoteUserLayer?
  }

  /** The client address the original request object holds once a chain has run over
      it. `realIPHandler` assigns the address in place; a user layer passes a new request
      object on (`r.WithContext`), so the layers after it no longer touch the original. */
  function FinalAddr(layers: seq<Layer>, req: Req): (addr: string)
    ensures addr == req.remoteAddr ||
      exists i :: 0 <= i < |layers| && layers[i].RealIPLayer? && addr == Lookup(req.header, layers[i].header)
    ensures (forall i :: 0 <= i < |layers| && layers[i].RealIPLayer? ==>
               exists j :: 0 <= j < i && IsUserLayer(layers[j])) ==> addr == req.remoteAddr
    ensures && |layers| >= 2 && layers[0].RealIPLayer? && IsUserLayer(layers[1])
            && Lookup(req.header, layers[0].header) != ""
            ==> addr == Lookup(req.header, layers[0].header)
    decreases |layers|
  {
    if |layers| == 0 then req.remoteAddr
    else
      match layers[0]
      case RecoverLayer =>
        var rest := layers[1..];
        assert forall i :: 0 <= i < |rest| ==> rest[i] == layers[i + 1];
        FinalAddr(rest, req)
      case RealIPLayer(header) => FinalAddr(layers[1..], WithRealIP(req, header))
      case StaticUserLayer(_) => req.remoteAddr
      case RemoteUserLayer(_) => req.remoteAddr
  }

  /** The session a handler sees when no transaction is in its context; handlers panic
      "no tx" before touching it. */
  const NoTxSession: Session := Session(DbState(NoTables, 1, NoFaults), TxState(NoTables, RolledBack, []))

  /** One request through a chain. A request arrives without a transaction in its
      context; only `dbHandler` puts one there. */
  function Serve(h: Handler, resp: Response, db: DbState, req: Req, env: Env): (r: Served)
    requires !req.ctx.hasTx
    ensures !h.transactional ==> r.db == db && r.tx.None?
    ensures r.outcome.Panic? ==> r.db.committed == db.committed
    decreases |h.layers|
  {
    if |h.layers| == 0 then
      if h.transactional then DbLayer(h.endpoint, resp, db, req, env)
      else
        var st := Dispatch(h.endpoint, resp, NoTxSession, req, env);
        Served(st.resp, db, None, st.outcome)
    else
      var next := h.(layers := h.layers[1..]);
      match h.layers[0]
      case RecoverLayer => Recover(Serve(next, resp, db, req, env))
      case RealIPLayer(header) => Serve(next, resp, db, WithRealIP(req, header), env)
      case StaticUserLayer(user) => Serve(next, resp, db, WithUser(req, user), env)
      case RemoteUserLayer(header) => Serve(next, resp, db, WithUser(req, Lookup(req.header, header)), env)
  }
}
