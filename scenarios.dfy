/** Whole requests through the configured routes, from an empty database: adding a
    short name on the admin page and then following it. */
module Scenarios {
  import opened Wrappers
  import opened Failures
  import opened Http
  import opened Store
  import opened Pipeline
  import opened Routes
  import PipelineProps

  const EmptyDb: DbState := DbState(NoTables, 1, NoFaults)

  /** The admin form that adds "baz" for the user "test". */
  function AddBaz(remote: string): Req {
    Req("POST", "/_admin", map[], map["name" := "baz", "url" := "http://example.com", "user" := "test"], remote, EmptyCtx)
  }

  function GetBaz(remote: string): Req {
    Req("GET", "/baz", map[], map[], remote, EmptyCtx)
  }

  /** Serving a chain of recovery and a static user around `dbHandler`. */
  lemma ServeRecoverStatic(h: Handler, user: string, resp: Response, db: DbState, req: Req, env: Env)
    requires h.layers == [RecoverLayer, StaticUserLayer(user)] && h.transactional
    requires !req.ctx.hasTx
    ensures Pipeline.Serve(h, resp, db, req, env) == Recover(DbLayer(h.endpoint, resp, db, WithUser(req, user), env))
  {
    var h1 := h.(layers := h.layers[1..]);
    var h2 := h1.(layers := h1.layers[1..]);
    assert h2.layers == [];
    assert Pipeline.Serve(h1, resp, db, req, env) == Pipeline.Serve(h2, resp, db, WithUser(req, user), env);
  }

  const BazRow: UrlRow := UrlRow(1, "baz", "http://example.com", "test", 0)

  /** POST /_admin on an empty store answers 303 to "/_admin" and commits one row
      with no hits. */
  lemma AddScenario(conf: Config, env: Env, remote: string)
    requires conf.realIPHeader == "" && conf.remoteUserHeader == ""
    requires env.urlParses("http://example.com")
    ensures var added := Pipeline.Serve(AdminChain(conf), Fresh, EmptyDb, AddBaz(remote), env);
      && added.outcome == Normal
      && added.resp.status == Some(303)
      && "Location" in added.resp.header && added.resp.header["Location"] == "/_admin"
      && added.db == DbState(Tables([BazRow], []), 2, NoFaults)
  {
    var withUser := WithUser(AddBaz(remote), "test");
    ServeRecoverStatic(AdminChain(conf), "test", Fresh, EmptyDb, AddBaz(remote), env);
    var post := withUser.(ctx := withUser.ctx.(hasTx := true));
    assert Lookup(post.form, "name") == "baz" && Lookup(post.form, "url") == "http://example.com";
    assert Lookup(post.form, "user") == "test";
    var s0 := Session(EmptyDb, TxState(NoTables, Open, []));
    var a := AddURL(s0, "baz", "http://example.com", "test");
    assert a.err.None? && a.s.tx.tables == Tables([BazRow], []);
    var st := AdminPost(Fresh, s0, post, env);
    assert st.s == a.s && st.outcome == Normal;
  }

  /** The "/" chain's transaction for GET /baz: the redirect, then the commit of the
      counted hit and the hit record. */
  lemma FollowInTx(env: Env, remote: string)
    requires ParseIP(remote, env).Success?
    ensures var db := DbState(Tables([BazRow], []), 2, NoFaults);
      var served := DbLayer(IndexEndpoint, Fresh, db, WithUser(GetBaz(remote), "test"), env);
      && served.outcome == Normal
      && served.resp.status == Some(301)
      && "Location" in served.resp.header && served.resp.header["Location"] == "http://example.com"
      && "Cache-Control" in served.resp.header && served.resp.header["Cache-Control"] == "private, max-age=90"
      && served.db.committed == Tables([BazRow.(hits := 1)], [HitRow(1, ParseIP(remote, env).value, "", None)])
  {
    var db := DbState(Tables([BazRow], []), 2, NoFaults);
    var get := WithUser(GetBaz(remote), "test");
    var inTx := get.(ctx := get.ctx.(hasTx := true));
    var s1 := Session(db, TxState(Tables([BazRow], []), Open, []));
    assert NameOf(inTx.path) == "baz";
    assert Find([BazRow], "baz") == Some(0);
    assert GetURLnID(s1, "baz").s.tx.tables.urls == [BazRow.(hits := 1)];
    assert Lookup(inTx.header, "Referer") == "" && Lookup(inTx.header, "User-Agent") == "";
    PipelineProps.RedirKnown(Fresh, s1, inTx, env);
    var st := Redir(Fresh, s1, inTx, env);
    assert Dispatch(IndexEndpoint, Fresh, s1, inTx, env) == st;
  }

  /** GET /baz after that answers 301 to the stored URL with the cache header, and
      commits the counted hit and one hit record. */
  lemma FollowScenario(conf: Config, env: Env, remote: string)
    requires conf.realIPHeader == "" && conf.remoteUserHeader == ""
    requires ParseIP(remote, env).Success?
    ensures var db := DbState(Tables([BazRow], []), 2, NoFaults);
      var followed := Pipeline.Serve(RootChain(conf), Fresh, db, GetBaz(remote), env);
      && followed.outcome == Normal
      && followed.resp.status == Some(301)
      && "Location" in followed.resp.header && followed.resp.header["Location"] == "http://example.com"
      && "Cache-Control" in followed.resp.header && followed.resp.header["Cache-Control"] == "private, max-age=90"
      && followed.db.committed == Tables([BazRow.(hits := 1)], [HitRow(1, ParseIP(remote, env).value, "", None)])
  {
    var db := DbState(Tables([BazRow], []), 2, NoFaults);
    ServeRecoverStatic(RootChain(conf), "test", Fresh, db, GetBaz(remote), env);
    FollowInTx(env, remote);
  }

  /** Adding "baz" and then following it, as one story. */
  lemma AddThenFollow(conf: Config, env: Env, remote: string)
    requires conf.realIPHeader == "" && conf.remoteUserHeader == ""
    requires env.urlParses("http://example.com")
    requires ParseIP(remote, env).Success?
    ensures var added := Pipeline.Serve(AdminChain(conf), Fresh, EmptyDb, AddBaz(remote), env);
      var followed := Pipeline.Serve(RootChain(conf), Fresh, added.db, GetBaz(remote), env);
      && added.resp.status == Some(303)
      && followed.resp.status == Some(301)
      && "Location" in followed.resp.header && followed.resp.header["Location"] == "http://example.com"
  {
    AddScenario(conf, env, remote);
    FollowScenario(conf, env, remote);
  }

  /** A remote-user header that is absent still sets the user, to the empty name, so a
      DELETE is refused with 400 "Missing user" and nothing is removed. */
  lemma DeleteWithoutRemoteUser(db: DbState, env: Env, remote: string)
    requires db.faults == NoFaults
    ensures var h := Handler([RecoverLayer, RemoteUserLayer("X-Remote-User")], true, DeleteEndpoint);
      var req := Req("DELETE", "/foo", map[], map[], remote, EmptyCtx);
      var served := Pipeline.Serve(h, Fresh, db, req, env);
      && served.outcome == Normal
      && served.resp.status == Some(400)
      && served.resp.body == "Missing user\n"
      && served.db.committed == db.committed
      && served.tx.Some? && served.tx.value.calls == [RollbackCall, CommitCall]
  {
    var h := Handler([RecoverLayer, RemoteUserLayer("X-Remote-User")], true, DeleteEndpoint);
    var req := Req("DELETE", "/foo", map[], map[], remote, EmptyCtx);
    var h1 := h.(layers := h.layers[1..]);
    var h2 := h1.(layers := h1.layers[1..]);
    assert h2.layers == [];
    var withUser := WithUser(req, "");
    assert Lookup(req.header, "X-Remote-User") == "";
    assert Pipeline.Serve(h1, Fresh, db, req, env) == DbLayer(DeleteEndpoint, Fresh, db, withUser, env);
    var inTx := withUser.(ctx := withUser.ctx.(hasTx := true));
    var s0 := Session(db, TxState(db.committed, Open, []));
    PipelineProps.DeleteMissingUser(Fresh, s0, inTx);
  }

  /** The admin page of "test" is written in full before `dbHandler` commits; a failing
      commit then panics with the page already sent and nothing published. */
  lemma CommitFailsInTx(db: DbState, env: Env, remote: string, msg: string)
    requires db.faults == Faults(None, Some(msg), None)
    ensures var req := WithUser(Req("GET", "/_admin", map[], map[], remote, EmptyCtx), "test");
      var page := env.renderAdmin("/_admin", "test", Listings(Owned(db.committed.urls, "test")));
      var served := DbLayer(AdminEndpoint, Fresh, db, req, env);
      && served.outcome.Panic?
      && served.resp == Fresh.Write(page)
      && served.db.committed == db.committed
  {
    var req := WithUser(Req("GET", "/_admin", map[], map[], remote, EmptyCtx), "test");
    var inTx := req.(ctx := req.ctx.(hasTx := true));
    var s0 := Session(db, TxState(db.committed, Open, []));
    PipelineProps.AdminGetLists(Fresh, s0, inTx, env);
    var st := AdminGet(Fresh, s0, inTx, env);
    assert Dispatch(AdminEndpoint, Fresh, s0, inTx, env) == st;
    assert Commit(st.s).err == Some(Driver(msg));
    PipelineProps.DbCommitFails(AdminEndpoint, Fresh, db, req, env);
  }

  /** When the commit fails after the handler wrote its page, the client keeps the 200
      already sent and "Internal Server Error" is appended to the body. */
  lemma CommitFailsAfterPage(db: DbState, env: Env, remote: string, msg: string)
    requires db.faults == Faults(None, Some(msg), None)
    ensures var h := Handler([RecoverLayer, StaticUserLayer("test")], true, AdminEndpoint);
      var req := Req("GET", "/_admin", map[], map[], remote, EmptyCtx);
      var page := env.renderAdmin("/_admin", "test", Listings(Owned(db.committed.urls, "test")));
      var served := Pipeline.Serve(h, Fresh, db, req, env);
      && served.outcome == Normal
      && served.resp.status == Some(200)
      && served.resp.body == page + "Internal Server Error\n"
      && served.db.committed == db.committed
  {
    var h := Handler([RecoverLayer, StaticUserLayer("test")], true, AdminEndpoint);
    var req := Req("GET", "/_admin", map[], map[], remote, EmptyCtx);
    ServeRecoverStatic(h, "test", Fresh, db, req, env);
    CommitFailsInTx(db, env, remote, msg);
  }
}
