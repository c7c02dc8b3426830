/** The behaviour the handlers and middleware promise, stated over the functions of
    `Pipeline`: which status each request gets, which statements it runs on the
    transaction (in particular which it never runs), and what the transaction and
    recovery layers do when something panics. */
module PipelineProps {
  import opened Wrappers
  import opened Failures
  import opened Http
  import opened Store
  import opened Pipeline

  /** The calls a step added to the transaction's log. */
  function Added(before: Session, after: Session): seq<Call>
    requires |before.tx.calls| <= |after.tx.calls|
  {
    after.tx.calls[|before.tx.calls|..]
  }

  /** A request the handlers can serve: a transaction in context, a path with a name. */
  predicate InTx(req: Req) {
    req.ctx.hasTx && |req.path| > 0
  }

  // ---------------------------------------------------------------------------
  // redirHandler

  /** An unknown name: the lookup, a rollback, a 404 and never a hit. */
  lemma RedirUnknown(resp: Response, s: Session, req: Req, env: Env)
    requires InTx(req) && s.tx.status == Open
    requires Find(s.tx.tables.urls, NameOf(req.path)).None?
    ensures var st := Redir(resp, s, req, env);
      && st.s.tx.calls == s.tx.calls + [GetURLnIDCall(NameOf(req.path)), RollbackCall]
      && st.s.tx.status == RolledBack
      && (s.db.faults.rollback.None? ==> st.outcome == Normal && st.resp == resp.NotFound())
      && (s.db.faults.rollback.Some? ==> st.outcome == Raise(Driver(s.db.faults.rollback.value)) && st.resp == resp)
  {
  }

  /** A known name: a 301 to the stored URL with the cache headers, then exactly one
      hit recorded with the looked-up id, the client's IP, the agent and the referrer
      (none when the Referer header is empty). */
  lemma RedirKnown(resp: Response, s: Session, req: Req, env: Env)
    requires InTx(req) && s.tx.status == Open
    requires Find(s.tx.tables.urls, NameOf(req.path)).Some?
    requires s.tx.tables.urls[Find(s.tx.tables.urls, NameOf(req.path)).value].hits < MaxInt4
    requires ParseIP(req.remoteAddr, env).Success?
    ensures var row := s.tx.tables.urls[Find(s.tx.tables.urls, NameOf(req.path)).value];
      var st := Redir(resp, s, req, env);
      var referrer := if Lookup(req.header, "Referer") == "" then None else Some(Lookup(req.header, "Referer"));
      && st.outcome == Normal
      && st.s.tx.status == Open
      && st.s.tx.tables.urls == GetURLnID(s, NameOf(req.path)).s.tx.tables.urls
      && st.s.tx.calls == s.tx.calls + [GetURLnIDCall(NameOf(req.path)),
           AddHitCall(row.id, ParseIP(req.remoteAddr, env).value, Lookup(req.header, "User-Agent"), referrer)]
      && st.resp.status == resp.WriteHeader(301).status
      && "Location" in st.resp.header && st.resp.header["Location"] == row.url
      && "Cache-Control" in st.resp.header && st.resp.header["Cache-Control"] == "private, max-age=90"
      && "Expires" in st.resp.header
      && st.resp.body == resp.body
      && st.s.tx.tables.hits == s.tx.tables.hits + [HitRow(row.id, ParseIP(req.remoteAddr, env).value,
           Lookup(req.header, "User-Agent"), referrer)]
  {
    var name := NameOf(req.path);
    var i := Find(s.tx.tables.urls, name).value;
    var row := s.tx.tables.urls[i];
    var g := GetURLnID(s, name);
    assert g.s.tx.tables.urls[i].id == row.id;
    assert row.id in Ids(g.s.tx.tables.urls);
    var cached := CacheHeaders(resp, env);
    assert "Content-Type" in cached.header;
  }

  /** A redirect never adds a hit without the lookup that found the name. */
  lemma RedirHitOnlyWhenFound(resp: Response, s: Session, req: Req, env: Env)
    requires InTx(req) && s.tx.status == Open
    requires Find(s.tx.tables.urls, NameOf(req.path)).None?
    ensures forall c :: c in Added(s, Redir(resp, s, req, env).s) ==> !c.AddHitCall?
  {
    RedirUnknown(resp, s, req, env);
    var st := Redir(resp, s, req, env);
    assert Added(s, st.s) == [GetURLnIDCall(NameOf(req.path)), RollbackCall];
  }

  // ---------------------------------------------------------------------------
  // deleteHandler

  /** An empty user name is refused with 400 "Missing user" before any lookup. */
  lemma DeleteMissingUser(resp: Response, s: Session, req: Req)
    requires InTx(req) && req.ctx.user == Some("") && s.tx.status == Open
    ensures var st := Delete(resp, s, req);
      && st.s.tx.calls == s.tx.calls + [RollbackCall]
      && (s.db.faults.rollback.None? ==> st.outcome == Normal && st.resp == resp.Error("Missing user", 400))
  {
  }

  /** An unknown name: rollback and 404. */
  lemma DeleteUnknown(resp: Response, s: Session, req: Req)
    requires InTx(req) && req.ctx.user.Some? && req.ctx.user.value != "" && s.tx.status == Open
    requires Find(s.tx.tables.urls, NameOf(req.path)).None?
    ensures var st := Delete(resp, s, req);
      && st.s.tx.calls == s.tx.calls + [GetIDnUserCall(NameOf(req.path)), RollbackCall]
      && (s.db.faults.rollback.None? ==> st.outcome == Normal && st.resp == resp.NotFound())
  {
  }

  /** Someone else's name: rollback and 403 "Forbidden". */
  lemma DeleteForbidden(resp: Response, s: Session, req: Req)
    requires InTx(req) && req.ctx.user.Some? && req.ctx.user.value != "" && s.tx.status == Open
    requires Find(s.tx.tables.urls, NameOf(req.path)).Some?
    requires s.tx.tables.urls[Find(s.tx.tables.urls, NameOf(req.path)).value].user != req.ctx.user.value
    ensures var st := Delete(resp, s, req);
      && st.s.tx.calls == s.tx.calls + [GetIDnUserCall(NameOf(req.path)), RollbackCall]
      && (s.db.faults.rollback.None? ==> st.outcome == Normal && st.resp == resp.Error("Forbidden", 403))
  {
  }

  /** The owner's own name: removed, and the response left to its default 200. */
  lemma DeleteByOwner(resp: Response, s: Session, req: Req)
    requires InTx(req) && req.ctx.user.Some? && req.ctx.user.value != "" && s.tx.status == Open
    requires Find(s.tx.tables.urls, NameOf(req.path)).Some?
    requires s.tx.tables.urls[Find(s.tx.tables.urls, NameOf(req.path)).value].user == req.ctx.user.value
    ensures var st := Delete(resp, s, req);
      && st.s.tx.calls == s.tx.calls + [GetIDnUserCall(NameOf(req.path)), RemoveURLCall(NameOf(req.path))]
      && st.outcome == Normal
      && st.resp == resp
      && st.resp.Code() == resp.Code()
      && Find(st.s.tx.tables.urls, NameOf(req.path)).None?
  {
  }

  /** `removeURL` is called exactly when the user is non-empty and owns the name. */
  lemma DeleteRemovesOnlyForOwner(resp: Response, s: Session, req: Req)
    requires InTx(req) && req.ctx.user.Some? && s.tx.status == Open
    ensures var st := Delete(resp, s, req);
      var user := req.ctx.user.value;
      var found := Find(s.tx.tables.urls, NameOf(req.path));
      RemoveURLCall(NameOf(req.path)) in Added(s, st.s) <==>
        user != "" && found.Some? && s.tx.tables.urls[found.value].user == user
  {
    var user := req.ctx.user.value;
    var name := NameOf(req.path);
    var found := Find(s.tx.tables.urls, name);
    var st := Delete(resp, s, req);
    if user == "" {
      DeleteMissingUser(resp, s, req);
      assert Added(s, st.s) == [RollbackCall];
    } else if found.None? {
      DeleteUnknown(resp, s, req);
      assert Added(s, st.s) == [GetIDnUserCall(name), RollbackCall];
    } else if s.tx.tables.urls[found.value].user != user {
      DeleteForbidden(resp, s, req);
      assert Added(s, st.s) == [GetIDnUserCall(name), RollbackCall];
    } else {
      DeleteByOwner(resp, s, req);
      assert Added(s, st.s) == [GetIDnUserCall(name), RemoveURLCall(name)];
    }
  }

  // ---------------------------------------------------------------------------
  // adminPostHandler and adminGetHandler

  /** An invalid form: rollback, 400 with the validator's message, and no `addURL`. */
  lemma AdminPostRejected(resp: Response, s: Session, req: Req, env: Env)
    requires req.ctx.hasTx && req.ctx.user.Some?
    requires ValidateAdminForm(req.form, env.urlParses).Failure?
    ensures var st := AdminPost(resp, s, req, env);
      var msg := ValidateAdminForm(req.form, env.urlParses).error;
      && st.s.tx.calls == s.tx.calls + [RollbackCall]
      && st.s.db == s.db
      && (Rollback(s).err.None? ==> st.outcome == Normal && st.resp == resp.Error(msg, 400))
      && (forall c :: c in Added(s, st.s) ==> !c.AddURLCall?)
  {
    var st := AdminPost(resp, s, req, env);
    assert Added(s, st.s) == [RollbackCall];
  }

  /** A valid form: `addURL` with the form's three values (the form's user, not the
      context's), then a 303 to "/_admin". */
  lemma AdminPostAccepted(resp: Response, s: Session, req: Req, env: Env)
    requires req.ctx.hasTx && req.ctx.user.Some?
    requires ValidateAdminForm(req.form, env.urlParses).Success?
    ensures var st := AdminPost(resp, s, req, env);
      var name, url, user := Lookup(req.form, "name"), Lookup(req.form, "url"), Lookup(req.form, "user");
      && st.s.tx.calls == s.tx.calls + [AddURLCall(name, url, user)]
      && (AddURL(s, name, url, user).err.None? ==>
          && st.outcome == Normal
          && "Location" in st.resp.header && st.resp.header["Location"] == "/_admin"
          && st.resp.status == resp.WriteHeader(303).status)
      && (AddURL(s, name, url, user).err.Some? ==> st.outcome == Raise(AddURL(s, name, url, user).err.value))
  {
  }

  /** The admin page lists exactly the context user's URLs and changes no table. */
  lemma AdminGetLists(resp: Response, s: Session, req: Req, env: Env)
    requires req.ctx.hasTx && req.ctx.user.Some? && s.tx.status == Open
    ensures var st := AdminGet(resp, s, req, env);
      var rows := Owned(s.tx.tables.urls, req.ctx.user.value);
      && st.outcome == Normal
      && st.s.tx.calls == s.tx.calls + [UrlsForUserCall(req.ctx.user.value)]
      && st.resp == resp.Write(env.renderAdmin(req.path, req.ctx.user.value, Listings(rows)))
      && (forall row :: row in rows <==> row in s.tx.tables.urls && row.user == req.ctx.user.value)
  {
  }

  // ---------------------------------------------------------------------------
  // Dispatch and context

  /** `indexHandler` and `adminHandler`: which handler each method reaches; any other
      method is a 400 "Bad method" that leaves the transaction untouched. */
  lemma DispatchByMethod(ep: Endpoint, resp: Response, s: Session, req: Req, env: Env)
    ensures ep == IndexEndpoint && req.verb == "GET" ==> Dispatch(ep, resp, s, req, env) == Redir(resp, s, req, env)
    ensures ep == IndexEndpoint && req.verb == "DELETE" ==> Dispatch(ep, resp, s, req, env) == Delete(resp, s, req)
    ensures ep == AdminEndpoint && req.verb == "POST" ==> Dispatch(ep, resp, s, req, env) == AdminPost(resp, s, req, env)
    ensures ep == AdminEndpoint && req.verb == "GET" ==> Dispatch(ep, resp, s, req, env) == AdminGet(resp, s, req, env)
    ensures ((ep == IndexEndpoint && req.verb != "GET" && req.verb != "DELETE") ||
             (ep == AdminEndpoint && req.verb != "POST" && req.verb != "GET")) ==>
      Dispatch(ep, resp, s, req, env) == Step(resp.Error("Bad method", 400), s, Normal)
  {
  }

  /** Handlers that need the transaction or the user panic when the context lacks it. */
  lemma MissingContextPanics(ep: Endpoint, resp: Response, s: Session, req: Req, env: Env)
    requires ep != IndexEndpoint && ep != AdminEndpoint
    ensures !req.ctx.hasTx ==> Dispatch(ep, resp, s, req, env) == Step(resp, s, NoTxPanic)
    ensures req.ctx.hasTx && req.ctx.user.None? && ep != RedirEndpoint ==>
      Dispatch(ep, resp, s, req, env) == Step(resp, s, NoUserPanic)
  {
  }

  // ---------------------------------------------------------------------------
  // dbHandler

  /** A failing begin panics before the endpoint runs: no transaction, no output. */
  lemma DbBeginFails(ep: Endpoint, resp: Response, db: DbState, req: Req, env: Env)
    requires db.faults.begin.Some?
    ensures DbLayer(ep, resp, db, req, env) == Served(resp, db, None, Raise(Driver(db.faults.begin.value)))
  {
  }

  /** The endpoint returned: the transaction is committed, and the request ends
      normally exactly when the commit worked or found the transaction already ended
      (the endpoint rolled back). */
  lemma DbCommitsAfterReturn(ep: Endpoint, resp: Response, db: DbState, req: Req, env: Env)
    requires Begin(db).Success?
    requires Dispatch(ep, resp, Session(db, Begin(db).value), req.(ctx := req.ctx.(hasTx := true)), env).outcome.Normal?
    ensures var st := Dispatch(ep, resp, Session(db, Begin(db).value), req.(ctx := req.ctx.(hasTx := true)), env);
      var c := Commit(st.s);
      var r := DbLayer(ep, resp, db, req, env);
      && r.resp == st.resp
      && (r.outcome.Normal? <==> c.err.None? || c.err == Some(TxDone))
      && (c.err.None? ==> r.db.committed == st.s.tx.tables && r.tx.value.calls == st.s.tx.calls + [CommitCall])
      && (st.s.tx.status == RolledBack ==> r.outcome.Normal? && r.db.committed == db.committed)
  {
  }

  /** A failing commit ends the transaction, so the deferred rollback reports `TxDone`
      and that is what is re-raised; nothing is published. */
  lemma DbCommitFails(ep: Endpoint, resp: Response, db: DbState, req: Req, env: Env)
    requires Begin(db).Success?
    requires var st := Dispatch(ep, resp, Session(db, Begin(db).value), req.(ctx := req.ctx.(hasTx := true)), env);
      st.outcome.Normal? && Commit(st.s).err.Some? && Commit(st.s).err != Some(TxDone)
    ensures var st := Dispatch(ep, resp, Session(db, Begin(db).value), req.(ctx := req.ctx.(hasTx := true)), env);
      var r := DbLayer(ep, resp, db, req, env);
      && r.outcome == Raise(TxDone)
      && r.resp == st.resp
      && r.tx.value.calls == st.s.tx.calls + [CommitCall, RollbackCall]
      && r.db.committed == db.committed
  {
  }

  /** The endpoint panicked: exactly one rollback follows, the panic is re-raised
      (replaced by the rollback's error when that failed), and nothing is published. */
  lemma DbRollsBackOnPanic(ep: Endpoint, resp: Response, db: DbState, req: Req, env: Env)
    requires Begin(db).Success?
    requires Dispatch(ep, resp, Session(db, Begin(db).value), req.(ctx := req.ctx.(hasTx := true)), env).outcome.Panic?
    ensures var st := Dispatch(ep, resp, Session(db, Begin(db).value), req.(ctx := req.ctx.(hasTx := true)), env);
      var rb := Rollback(st.s);
      var r := DbLayer(ep, resp, db, req, env);
      && r.tx.value.calls == st.s.tx.calls + [RollbackCall]
      && r.outcome == (if rb.err.Some? then Raise(rb.err.value) else st.outcome)
      && r.resp == st.resp
      && r.db.committed == db.committed
  {
  }

  // ---------------------------------------------------------------------------
  // panicHandler

  /** Recovery writes "Internal Server Error" with 500, unless a status was already
      written: that status stays and the text is appended to what was written. */
  lemma RecoverKeepsWrittenStatus(inner: Served)
    requires inner.outcome.Panic?
    ensures var r := Recover(inner);
      && r.outcome == Normal
      && r.resp.body == inner.resp.body + "Internal Server Error\n"
      && (inner.resp.status.Some? ==> r.resp.status == inner.resp.status)
      && (inner.resp.status.None? ==> r.resp.status == Some(500))
  {
  }

  /** A chain whose outermost layer is the recovery layer never lets a panic out. */
  lemma RecoveredChainNeverPanics(h: Handler, resp: Response, db: DbState, req: Req, env: Env)
    requires |h.layers| > 0 && h.layers[0] == RecoverLayer
    requires !req.ctx.hasTx
    ensures Serve(h, resp, db, req, env).outcome == Normal
  {
  }
}
