/** The handlers and middleware as they run: methods that write to the response
    writer, call the transaction's methods, put values into a request's context and
    assign the client address in place. Each is proved to do what the function of
    the same name in `Pipeline` says. */
module Handlers {
  import opened Wrappers
  import opened Failures
  import opened Http
  import opened Store
  import opened Storage
  import opened Pipeline

  /** A request context: the transaction and the user name, when set. */
  datatype Context = Context(tx: Option<Tx>, user: Option<string>) {
    function Value(): Ctx {
      Ctx(tx.Some?, user)
    }

    /** The objects a handler may change through this context. */
    function Footprint(): set<object> {
      if tx.Some? then {tx.value, tx.value.db} else {}
    }

    /** The transaction as a value; `NoTxSession` when there is none. */
    function Session(): Store.Session
      reads Footprint()
    {
      if tx.Some? then tx.value.Snapshot() else NoTxSession
    }
  }

  /** An incoming request. Only the client address is assigned in place; a new context
      means a new request (`WithContext`). */
  class Request {
    const verb: string
    const path: string
    const header: map<string, string>
    const form: map<string, string>
    var remoteAddr: string
    const ctx: Context

    function Value(): Req
      reads this
    {
      Req(verb, path, header, form, remoteAddr, ctx.Value())
    }

    constructor (verb: string, path: string, header: map<string, string>, form: map<string, string>,
                 remoteAddr: string, ctx: Context)
      ensures Value() == Req(verb, path, header, form, remoteAddr, ctx.Value())
      ensures this.ctx == ctx
    {
      this.verb := verb;
      this.path := path;
      this.header := header;
      this.form := form;
      this.remoteAddr := remoteAddr;
      this.ctx := ctx;
    }

    /** `r.WithContext(c)`: a copy of the request carrying `c`. */
    method WithContext(c: Context) returns (r: Request)
      ensures fresh(r)
      ensures r.Value() == Value().(ctx := c.Value()) && r.ctx == c
    {
      r := new Request(verb, path, header, form, remoteAddr, c);
    }
  }

  // ---------------------------------------------------------------------------
  // The handlers

  method RedirHandler(w: ResponseWriter, r: Request, env: Env) returns (outcome: Outcome)
    modifies w, r.ctx.Footprint()
    ensures var st := Redir(old(w.Value()), old(r.ctx.Session()), r.Value(), env);
      w.Value() == st.resp && r.ctx.Session() == st.s && outcome == st.outcome
  {
    if r.ctx.tx.None? {
      return NoTxPanic;
    }
    var tx := r.ctx.tx.value;
    if |r.path| == 0 {
      return SliceOutOfRange;
    }
    var name := r.path[1..];
    var agent := Lookup(r.header, "User-Agent");
    var referer := Lookup(r.header, "Referer");
    var referrer: Option<string> := None;
    if referer != "" {
      referrer := Some(referer);
    }

    var res := tx.GetURLnID(name);
    if res == Failure(NoRows) {
      var er := tx.Rollback();
      if er.Some? {
        return Raise(er.value);
      }
      Http.NotFound(w);
      return Normal;
    } else if res.Failure? {
      return Raise(res.error);
    }
    var (url, urlID) := res.value;

    w.SetHeader("Cache-Control", "private, max-age=90");
    w.SetHeader("Expires", env.expires);
    w.SetHeader("Content-Type", "text/html");
    Http.Redirect(w, url, 301, r.verb, env.htmlEscape);

    var ip := ParseIP(r.remoteAddr, env);
    if ip.Failure? {
      return Raise(ip.error);
    }
    var err := tx.AddHit(urlID, ip.value, agent, referrer);
    outcome := Check(err);
  }

  method DeleteHandler(w: ResponseWriter, r: Request) returns (outcome: Outcome)
    modifies w, r.ctx.Footprint()
    ensures var st := Delete(old(w.Value()), old(r.ctx.Session()), r.Value());
      w.Value() == st.resp && r.ctx.Session() == st.s && outcome == st.outcome
  {
    if r.ctx.tx.None? {
      return NoTxPanic;
    }
    var tx := r.ctx.tx.value;
    if r.ctx.user.None? {
      return NoUserPanic;
    }
    var user := r.ctx.user.value;

    if user == "" {
      var er := tx.Rollback();
      if er.Some? {
        return Raise(er.value);
      }
      Http.Error(w, "Missing user", 400);
      return Normal;
    }

    if |r.path| == 0 {
      return SliceOutOfRange;
    }
    var name := r.path[1..];

    var res := tx.GetIDnUser(name);
    if res == Failure(NoRows) {
      var er := tx.Rollback();
      if er.Some? {
        return Raise(er.value);
      }
      Http.NotFound(w);
      return Normal;
    } else if res.Failure? {
      return Raise(res.error);
    }
    var (_, urluser) := res.value;

    if user != urluser {
      var er := tx.Rollback();
      if er.Some? {
        return Raise(er.value);
      }
      Http.Error(w, "Forbidden", 403);
      return Normal;
    }

    var err := tx.RemoveURL(name);
    outcome := Check(err);
  }

  method AdminGetHandler(w: ResponseWriter, r: Request, env: Env) returns (outcome: Outcome)
    modifies w, r.ctx.Footprint()
    ensures var st := AdminGet(old(w.Value()), old(r.ctx.Session()), r.Value(), env);
      w.Value() == st.resp && r.ctx.Session() == st.s && outcome == st.outcome
  {
    if r.ctx.tx.None? {
      return NoTxPanic;
    }
    var tx := r.ctx.tx.value;
    if r.ctx.user.None? {
      return NoUserPanic;
    }
    var user := r.ctx.user.value;

    var urls := tx.UrlsForUser(user);
    if urls.Failure? {
      return Raise(urls.error);
    }
    w.Write(env.renderAdmin(r.path, user, urls.value));
    return Normal;
  }

  method AdminPostHandler(w: ResponseWriter, r: Request, env: Env) returns (outcome: Outcome)
    modifies w, r.ctx.Footprint()
    ensures var st := AdminPost(old(w.Value()), old(r.ctx.Session()), r.Value(), env);
      w.Value() == st.resp && r.ctx.Session() == st.s && outcome == st.outcome
  {
    if r.ctx.tx.None? {
      return NoTxPanic;
    }
    var tx := r.ctx.tx.value;
    if r.ctx.user.None? {
      return NoUserPanic;
    }

    var form := ValidateAdminForm(r.form, env.urlParses);
    if form.Failure? {
      var er := tx.Rollback();
      if er.Some? {
        return Raise(er.value);
      }
      Http.Error(w, form.error, 400);
      return Normal;
    }
    var AdminForm(name, url, user) := form.value;

    var err := tx.AddURL(name, url, user);
    if err.Some? {
      return Raise(err.value);
    }
    Http.Redirect(w, "/_admin", 303, r.verb, env.htmlEscape);
    return Normal;
  }

  method IndexHandler(w: ResponseWriter, r: Request, env: Env) returns (outcome: Outcome)
    modifies w, r.ctx.Footprint()
    ensures var st := Dispatch(IndexEndpoint, old(w.Value()), old(r.ctx.Session()), r.Value(), env);
      w.Value() == st.resp && r.ctx.Session() == st.s && outcome == st.outcome
  {
    if r.verb == "GET" {
      outcome := RedirHandler(w, r, env);
      return;
    }
    if r.verb == "DELETE" {
      outcome := DeleteHandler(w, r);
      return;
    }
    Http.Error(w, "Bad method", 400);
    return Normal;
  }

  method AdminHandler(w: ResponseWriter, r: Request, env: Env) returns (outcome: Outcome)
    modifies w, r.ctx.Footprint()
    ensures var st := Dispatch(AdminEndpoint, old(w.Value()), old(r.ctx.Session()), r.Value(), env);
      w.Value() == st.resp && r.ctx.Session() == st.s && outcome == st.outcome
  {
    if r.verb == "POST" {
      outcome := AdminPostHandler(w, r, env);
      return;
    }
    if r.verb == "GET" {
      outcome := AdminGetHandler(w, r, env);
      return;
    }
    Http.Error(w, "Bad method", 400);
    return Normal;
  }

  /** The handler at the end of a chain. */
  method ServeEndpoint(ep: Endpoint, w: ResponseWriter, r: Request, env: Env) returns (outcome: Outcome)
    modifies w, r.ctx.Footprint()
    ensures var st := Dispatch(ep, old(w.Value()), old(r.ctx.Session()), r.Value(), env);
      w.Value() == st.resp && r.ctx.Session() == st.s && outcome == st.outcome
  {
    match ep
    case IndexEndpoint => outcome := IndexHandler(w, r, env);
    case AdminEndpoint => outcome := AdminHandler(w, r, env);
    case RedirEndpoint => outcome := RedirHandler(w, r, env);
    case DeleteEndpoint => outcome := DeleteHandler(w, r);
    case AdminGetEndpoint => outcome := AdminGetHandler(w, r, env);
    case AdminPostEndpoint => outcome := AdminPostHandler(w, r, env);
  }

  // ---------------------------------------------------------------------------
  // The middleware

  /** The deferred function of `dbHandler` once a panic with `p` reached it. */
  method DeferredRollback(tx: Tx, p: PanicValue) returns (outcome: Outcome)
    modifies tx
    ensures tx.Snapshot() == Store.Rollback(old(tx.Snapshot())).s
    ensures var rb := Store.Rollback(old(tx.Snapshot()));
      outcome == if rb.err.Some? then Raise(rb.err.value) else Panic(p)
  {
    var err := tx.Rollback();
    if err.Some? {
      return Raise(err.value);
    }
    return Panic(p);
  }

  /** `dbHandler` around the endpoint `ep`. The transaction it began, if any, is
      returned so that its final state can be stated. */
  method DbHandler(db: Db, ep: Endpoint, w: ResponseWriter, r: Request, env: Env) returns (tx: Option<Tx>, outcome: Outcome)
    modifies w, db
    ensures var sv := DbLayer(ep, old(w.Value()), old(db.Value()), r.Value(), env);
      && w.Value() == sv.resp && db.Value() == sv.db && outcome == sv.outcome
      && tx.Some? == sv.tx.Some?
      && (tx.Some? ==> fresh(tx.value) && tx.value.db == db && tx.value.State() == sv.tx.value)
  {
    var begun := db.BeginTx();
    if begun.Failure? {
      return None, Raise(begun.error);
    }
    var t := begun.value;
    tx := Some(t);
    var inner := r.WithContext(Context(tx, r.ctx.user));
    outcome := ServeEndpoint(ep, w, inner, env);
    if outcome.Panic? {
      outcome := DeferredRollback(t, outcome.value);
      return;
    }
    var err := t.Commit();
    if err.Some? && err != Some(TxDone) {
      outcome := DeferredRollback(t, ErrorValue(err.value));
    }
  }

  /** Serves `r` through the chain `h`, returning the transaction it began, if any. */
  method Serve(h: Handler, w: ResponseWriter, r: Request, db: Db, env: Env) returns (tx: Option<Tx>, outcome: Outcome)
    requires r.ctx.tx.None?
    modifies w, r, db
    ensures var sv := Pipeline.Serve(h, old(w.Value()), old(db.Value()), old(r.Value()), env);
      && w.Value() == sv.resp && db.Value() == sv.db && outcome == sv.outcome
      && tx.Some? == sv.tx.Some?
      && (tx.Some? ==> tx.value.State() == sv.tx.value)
    ensures r.remoteAddr == FinalAddr(h.layers, old(r.Value()))
    decreases |h.layers|, 1
  {
    if |h.layers| == 0 {
      if h.transactional {
        tx, outcome := DbHandler(db, h.endpoint, w, r, env);
      } else {
        outcome := ServeEndpoint(h.endpoint, w, r, env);
        tx := None;
      }
      return;
    }
    var next := h.(layers := h.layers[1..]);
    match h.layers[0]
    case RecoverLayer => tx, outcome := PanicHandler(next, w, r, db, env);
    case RealIPLayer(header) => tx, outcome := RealIPHandler(header, next, w, r, db, env);
    case StaticUserLayer(user) => tx, outcome := StaticUserHandler(user, next, w, r, db, env);
    case RemoteUserLayer(header) => tx, outcome := RemoteUserHandler(header, next, w, r, db, env);
  }

  /** `panicHandler(next)`. */
  method PanicHandler(next: Handler, w: ResponseWriter, r: Request, db: Db, env: Env) returns (tx: Option<Tx>, outcome: Outcome)
    requires r.ctx.tx.None?
    modifies w, r, db
    ensures var sv := Recover(Pipeline.Serve(next, old(w.Value()), old(db.Value()), old(r.Value()), env));
      && w.Value() == sv.resp && db.Value() == sv.db && outcome == sv.outcome
      && tx.Some? == sv.tx.Some?
      && (tx.Some? ==> tx.value.State() == sv.tx.value)
    ensures r.remoteAddr == FinalAddr(next.layers, old(r.Value()))
    decreases |next.layers| + 1, 0
  {
    tx, outcome := Serve(next, w, r, db, env);
    if outcome.Panic? {
      Http.Error(w, StatusText(500), 500);
      outcome := Normal;
    }
  }

  /** `realIPHandler(header, next)`: assigns the client address in place. */
  method RealIPHandler(header: string, next: Handler, w: ResponseWriter, r: Request, db: Db, env: Env)
    returns (tx: Option<Tx>, outcome: Outcome)
    requires r.ctx.tx.None?
    modifies w, r, db
    ensures var sv := Pipeline.Serve(next, old(w.Value()), old(db.Value()), WithRealIP(old(r.Value()), header), env);
      && w.Value() == sv.resp && db.Value() == sv.db && outcome == sv.outcome
      && tx.Some? == sv.tx.Some?
      && (tx.Some? ==> tx.value.State() == sv.tx.value)
    ensures r.remoteAddr == FinalAddr(next.layers, WithRealIP(old(r.Value()), header))
    decreases |next.layers| + 1, 0
  {
    var realIP := Lookup(r.header, header);
    if realIP != "" {
      r.remoteAddr := realIP;
    }
    tx, outcome := Serve(next, w, r, db, env);
  }

  /** `staticUserHandler(user, next)`. */
  method StaticUserHandler(user: string, next: Handler, w: ResponseWriter, r: Request, db: Db, env: Env)
    returns (tx: Option<Tx>, outcome: Outcome)
    requires r.ctx.tx.None?
    modifies w, db
    ensures var sv := Pipeline.Serve(next, old(w.Value()), old(db.Value()), WithUser(r.Value(), user), env);
      && w.Value() == sv.resp && db.Value() == sv.db && outcome == sv.outcome
      && tx.Some? == sv.tx.Some?
      && (tx.Some? ==> tx.value.State() == sv.tx.value)
    decreases |next.layers| + 1, 0
  {
    var inner := r.WithContext(Context(r.ctx.tx, Some(user)));
    tx, outcome := Serve(next, w, inner, db, env);
  }

  /** `remoteUserHandler(header, next)`: the header's value, even when empty. */
  method RemoteUserHandler(header: string, next: Handler, w: ResponseWriter, r: Request, db: Db, env: Env)
    returns (tx: Option<Tx>, outcome: Outcome)
    requires r.ctx.tx.None?
    modifies w, db
    ensures var sv := Pipeline.Serve(next, old(w.Value()), old(db.Value()), WithUser(r.Value(), Lookup(r.header, header)), env);
      && w.Value() == sv.resp && db.Value() == sv.db && outcome == sv.outcome
      && tx.Some? == sv.tx.Some?
      && (tx.Some? ==> tx.value.State() == sv.tx.value)
    decreases |next.layers| + 1, 0
  {
    var user := Lookup(r.header, header);
    var inner := r.WithContext(Context(r.ctx.tx, Some(user)));
    tx, outcome := Serve(next, w, inner, db, env);
  }
}
