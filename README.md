# urlredir — a verified model of the request pipeline

urlredir is a small URL shortener. A GET on `/<name>` looks the name up in PostgreSQL,
counts the visit, answers `301 Moved Permanently` to the stored URL and records a hit row.
A DELETE on `/<name>` removes the name if the requesting user owns it. `/_admin` lists the
user's names (GET) and adds a new one from a form (POST).

Every request runs through a chain of middleware:

- a recovery layer turns any panic into `500 Internal Server Error`;
- a user layer puts a fixed user, or the user named by a proxy header, into the request
  context;
- an optional real-IP layer replaces the client address with a proxy header;
- `dbHandler` opens a transaction, hands it to the handler in the context, and commits
  it when the handler returns. If the handler panics, it rolls back and re-panics.

This project models that pipeline in Dafny, in two layers:

- **Values.** The storage layer and the handlers are functions on plain values:
  - `Store` holds the two tables and the meaning of each SQL statement;
  - `Pipeline` holds the handlers, the middleware and the chain interpreter;
  - `Http` holds the response state (status, headers and body).
- **Objects.** The Go code's objects mirror them as classes whose methods update fields
  in place:
  - `Storage.Db` and `Storage.Tx`;
  - `Http.ResponseWriter`;
  - `Handlers.Request` and the handler methods;
  - `Routes.ServeMux`.

  Each method is proved to leave exactly the state that its function counterpart computes.

The modelling choices:

- **Panics.** A Go panic is an explicit `Outcome` (`Normal` or `Panic(value)`).
- **Library behaviour as parameters.** The following are fields of `Pipeline.Env`:
  - `net.SplitHostPort`, `net.ParseIP` and `url.Parse` success;
  - HTML escaping;
  - rendering the admin template;
  - the clock's `Expires` value.
- **Database failures.** A failing begin, commit or rollback (what the test doubles
  simulate) is a `Faults` parameter of the database.
- **Statement log.** Every transaction keeps a log of the interface calls made on it.
  This is what states "never calls addURL" and "exactly one rollback".

Database semantics follow PostgreSQL and `database/sql`:

- A statement that fails aborts the transaction. Later statements fail, and the commit
  rolls back and reports an error.
- The `serial` id sequence is shared and is not rolled back.
- `hits` is a 32-bit counter, so an increment past 2147483647 fails.
- Deleting a URL deletes its hits (ON DELETE CASCADE).
- Any commit or rollback attempt ends the transaction, even one that fails. A later
  completion reports `ErrTxDone`.

So when a commit fails in `dbHandler`, the deferred rollback reports `ErrTxDone`, and the
request panics with that error rather than the commit's. The client sees the same result
either way: a 500, or the status already written with "Internal Server Error" appended.

The storage layer is proved to keep the schema's constraints through any sequence of
statements (`StoreProps.RunKeepsValid`):

- unique names;
- unique ids below the sequence;
- hit counts within range;
- every hit referencing a URL.

## Model

| member | source | states |
|---|---|---|
| Errors.Error.Message | errors.go:5-11 | `Error()` returns the constant's own string: the error built from the message is the value itself |
| Errors.EqualIffSameText | errors.go:5-11 | two `Error` values are equal exactly when their messages are |
| Errors.Classify | errors.go:13-22 | names the constant an error value equals, and answers none exactly when no constant equals it |
| Errors.SentinelsDistinct | errors.go:13-22 | the eight constants have pairwise distinct messages, so equal messages means the same constant |
| Errors.ClassifyValue | errors.go:13-22 | classifying each constant's value gives back that constant |
| Failures.AsError | handlers.go:53-60 | the recovered value becomes an error: an `error` as is, any other value as an error carrying its text |
| Strconv.Digits | storage.go:203 | the decimal rendering of a count is non-empty, all digits, with no leading zero |
| Strconv.Itoa | storage.go:203 | `strconv.Itoa` gives a non-empty string that starts with a digit exactly when the number is non-negative |
| Strconv.DigitsRoundTrip | storage.go:203 | reading back the digits of a natural number gives the number |
| Strconv.ItoaRoundTrip | storage.go:203 | parsing `strconv.Itoa(n)` gives back `n`, for every integer |
| Http.Response.WriteHeader | handlers_test.go:178-188 | only the first status written counts: once one is set, a later `WriteHeader` changes nothing; headers and body are kept |
| Http.Response.Write | handlers.go:264 | appends the data to the body, which implies status 200 when none was written; headers kept |
| Http.Response.SetHeader | handlers.go:155-158 | sets that one header to the value; status, body and every other header are kept |
| Http.Response.Error | handlers.go:189 | `http.Error`: the code unless a status was written, Content-Type "text/plain; charset=utf-8" and "X-Content-Type-Options: nosniff", every other header kept, and the message and a newline appended |
| Http.Response.NotFound | handlers.go:148 | `http.NotFound`: 404 unless a status was written, the plain-text type and nosniff, every other header kept, and "404 page not found" appended |
| Http.Response.Redirect | handlers.go:159 | `http.Redirect`: Location is the URL, the code unless a status was written; without a prior Content-Type a GET or HEAD gets "text/html; charset=utf-8" and a GET the escaped link as body; a prior Content-Type is kept and then no body is written |
| Http.StatusStickyBodyGrows | handlers_test.go:181-188 | over any sequence of writer calls, a written status is never replaced and the body written so far is never taken back |
| Http.ResponseWriter.constructor | handlers.go:51 | the writer a handler is given has no status, no headers and an empty body |
| Http.ResponseWriter.WriteHeader | handlers_test.go:178-188 | updates the writer in place exactly as `Response.WriteHeader` |
| Http.ResponseWriter.Write | handlers.go:264 | updates the writer in place exactly as `Response.Write` |
| Http.ResponseWriter.SetHeader | handlers.go:155-158 | updates the writer in place exactly as `Response.SetHeader` |
| Http.Error | handlers.go:46 | the writer ends as `Response.Error` computes |
| Http.NotFound | handlers.go:200 | the writer ends as `Response.NotFound` computes |
| Http.Redirect | handlers.go:318 | the writer ends as `Response.Redirect` computes |
| Store.Find | storage.go:133 | the row matched by `WHERE name=$1`: its position if a row has the name (the first such), none exactly when no row has it |
| Store.Owned | storage.go:180 | `WHERE "user" = $1`: a row is selected exactly when it is in the table and owned by the user; none are selected exactly when the user owns none |
| Store.Unnamed | storage.go:153 | the rows `DELETE ... WHERE name=$1` keeps are exactly those with another name |
| Store.HitsNotFor | storage.go:152-157 | the hits the cascade keeps are exactly those referencing none of the deleted ids |
| Store.Listings | storage.go:195-203 | one listing per row, in order, each carrying the row's name, URL and decimal hit count |
| Store.Begin | storage.go:107-119 | `beginTx` fails exactly when the driver does, and otherwise opens a transaction over the committed tables with an empty call log |
| Store.Commit | storage.go:122-124 | logs the call and always ends the transaction. It succeeds exactly when the transaction is open and the driver commits, and then publishes the working tables. An ended transaction gives `ErrTxDone`. Nothing is published on failure |
| Store.Rollback | storage.go:127-129 | logs the call, ends the transaction and never publishes. An ended transaction gives `ErrTxDone`. Success exactly when it was still live and the driver rolls back |
| Store.GetURLnID | storage.go:132-139 | `ErrNoRows` exactly when the transaction is open and the name is absent. It is out of range exactly when the row's counter is already at the int4 maximum. Success returns the row's URL and id and adds one to exactly that row's counter. A failure changes no table |
| Store.GetIDnUser | storage.go:142-149 | returns the named row's id and owner; `ErrNoRows` exactly when it is absent; never changes a table |
| Store.RemoveURL | storage.go:152-157 | on an open transaction, removes exactly the rows with that name and the hits referencing them. A missing name is no error. Every other row is kept |
| Store.AddHit | storage.go:160-168 | appends exactly one hit row with the given values and leaves `urls` alone. It fails with a foreign-key violation exactly when the URL id is unknown, and a failure changes nothing |
| Store.AddURL | storage.go:171-176 | appends a row with the next id and zero hits exactly when the transaction is open, the name is new and the sequence is not exhausted. A taken name is exactly the unique-violation case, and exhaustion exactly the sequence error. Failures leave the tables unchanged. The sequence advances whenever an id was drawn, including for a duplicate name |
| Store.UrlsForUser | storage.go:179-211 | on an open transaction, selects exactly the user's rows, changing nothing |
| Store.Unique | storage.go:54-56 | `name ... UNIQUE` and `id ... PRIMARY KEY`: no two rows share a name or an id |
| Store.Valid | storage.go:52-67 | the schema's constraints: ids from the sequence and distinct, names distinct, counters within `int`, every hit referencing a URL |
| StoreProps.UnnamedKeepsUnique | storage.go:54-56 | removing the rows with one name keeps names and ids unique |
| StoreProps.GetURLnIDKeepsValid | storage.go:132-139 | counting a hit keeps every schema constraint |
| StoreProps.CascadeKeepsRefs | storage.go:62-67 | after the cascade every remaining hit still references an existing URL |
| StoreProps.RemoveURLKeepsValid | storage.go:152-157 | `removeURL` keeps every schema constraint |
| StoreProps.AddURLKeepsValid | storage.go:171-176 | `addURL` keeps every schema constraint |
| StoreProps.ExecKeepsValid | storage.go:20-38 | every statement of the `Tx` interface keeps the schema constraints |
| StoreProps.RunKeepsValid | storage.go:20-38 | any sequence of statements keeps the schema constraints |
| StoreProps.CommitKeepsValid | storage.go:122-124 | committing a valid working copy leaves the committed tables valid |
| StoreProps.RunKeepsCommitted | storage.go:20-38 | statements never touch the committed tables |
| StoreProps.Atomic | storage.go:122-129 | after any statements, a commit publishes the whole working copy or nothing at all |
| StoreProps.RollbackDiscards | storage.go:127-129 | a rollback discards every change of the transaction |
| StoreProps.SecondCompletion | storage.go:122-129 | after a commit or rollback, every further commit or rollback reports `ErrTxDone` |
| StoreProps.AddThenLookup | storage.go:132-139 | after a successful `addURL`, `getURLnID` of that name returns its URL |
| StoreProps.DuplicateAddFails | storage.go:171-176 | a second `addURL` of the same name fails with a unique violation and leaves the tables unchanged |
| StoreProps.RemoveThenLookup | storage.go:152-157 | after `removeURL`, `getURLnID` of that name gives `ErrNoRows` |
| StoreProps.RemoveKeepsOthers | storage.go:152-157 | `removeURL` leaves every row of another name as it was |
| StoreProps.LookupCountsHit | storage.go:132-139 | each lookup of an existing name raises that row's counter by exactly one |
| StoreProps.UrlsForUserEmpty | storage.go:179-211 | a user who owns nothing gets an empty list, not an error |
| StoreProps.ListingHitsRoundTrip | storage.go:198-203 | the decimal hit count in a listing reads back as the row's counter |
| Storage.Db.constructor | storage.go:41-44 | a new database has empty tables, the sequence at 1, and the given failure behaviour |
| Storage.Db.BeginTx | storage.go:107-119 | opens a fresh transaction object over the committed tables, or fails as `beginTx` does |
| Storage.Tx.constructor | storage.go:46-49 | a new transaction is open over the committed tables with an empty call log |
| Storage.Tx.Commit | storage.go:122-124 | updates the transaction and database in place to exactly what `commit` leaves, and returns its error |
| Storage.Tx.Rollback | storage.go:127-129 | updates the transaction in place to exactly what `rollback` leaves, and returns its error |
| Storage.Tx.GetURLnID | storage.go:132-139 | updates the working tables in place as the counting lookup does, and returns its URL, id or error |
| Storage.Tx.GetIDnUser | storage.go:142-149 | returns the id and owner (or error) of the lookup, changing only the call log |
| Storage.Tx.RemoveURL | storage.go:152-157 | deletes in place exactly as the statement does |
| Storage.Tx.AddHit | storage.go:160-168 | appends the hit in place exactly as the statement does |
| Storage.Tx.AddURL | storage.go:171-176 | inserts in place and advances the shared sequence exactly as the statement does |
| Storage.Tx.UrlsForUser | storage.go:179-211 | returns the user's rows as listings (name, URL, decimal hits), or the query's error |
| Storage.ScanListings | storage.go:192-205 | the scan loop builds one listing per row, in order, with the hit count as `strconv.Itoa` renders it |
| Pipeline.ParseIP | handlers.go:31-41 | the host part of `host:port` (or the whole string when it does not split) must parse as an IP. Success exactly then, with that address; otherwise the error "Couldn't parse IP: " followed by the input |
| Pipeline.ValidateAdminForm | handlers.go:271-290 | accepts exactly when name and URL are non-empty, the URL parses and the user is non-empty, keeping the three values. Each failure message holds exactly when the checks before it passed and its own failed |
| Pipeline.Referrer | handlers.go:136-141 | the recorded referrer is absent exactly when the Referer header is empty, and is its value otherwise |
| Pipeline.HandleError | handlers.go:44-47 | writes the code (unless a status was already written) and appends the code's status text |
| Pipeline.Check | handlers.go:214-217 | a statement error panics with that error; no error returns normally |
| Pipeline.Reject | handlers.go:185-190 | the rollback-then-respond pattern: the rollback always happens, the error response is written exactly when it succeeded, and otherwise the rollback's error is raised with nothing written |
| Pipeline.NameOf | handlers.go:134 | `r.URL.Path[1:]`: the path is its leading character followed by the name |
| Pipeline.CacheHeaders | handlers.go:155-158 | sets Cache-Control "private, max-age=90", the clock's Expires and Content-Type "text/html"; status, body and other headers kept |
| Pipeline.RollbackAndRepanic | handlers.go:108-116 | the deferred function's value form: one rollback, the response untouched, and the rollback's error or else the original panic raised again |
| Pipeline.Redir | handlers.go:127-170 | without a transaction in context, panics "no tx" and does nothing; never publishes anything itself |
| Pipeline.Delete | handlers.go:173-220 | panics "no tx" or "no user" when the context lacks them, doing nothing; never publishes |
| Pipeline.AdminGet | handlers.go:236-268 | the same context panics; the page never changes a table |
| Pipeline.AdminPost | handlers.go:293-319 | the same context panics; never publishes |
| Pipeline.Dispatch | handlers.go:223-233 | no handler publishes anything; only `dbHandler` does |
| Pipeline.DbLayer | handlers.go:101-124 | a failing begin panics with its error and nothing else happens; otherwise a transaction is opened; a request that panics publishes nothing |
| Pipeline.Recover | handlers.go:50-67 | the recovery layer never lets a panic out, returns a normal result unchanged, and turns a panic into `handleError` with 500 |
| Pipeline.WithRealIP | handlers.go:70-79 | the header's value replaces the client address exactly when it is non-empty; the request is otherwise unchanged |
| Pipeline.WithUser | handlers.go:82-98 | the context then carries the user; nothing else in the request changes |
| Pipeline.FinalAddr | handlers.go:70-98 | the client address a chain leaves in the request object it was given: the original when no real-IP layer comes before the first user layer (with no real-IP layer, always); a leading real-IP layer with a non-empty header, followed by a user layer, leaves the header's value; in every case the original or some real-IP layer's header value |
| Pipeline.Serve | main.go:87-104 | a request arriving without a transaction in its context: a chain without `dbHandler` leaves the database alone and opens no transaction; a panic publishes nothing |
| PipelineProps.RedirUnknown | handlers.go:143-149 | an unknown name: the lookup, then a rollback and "404 page not found", never a hit |
| PipelineProps.RedirKnown | handlers.go:143-168 | a known name: 301 to the stored URL with the cache headers, the counter raised by one, then exactly one hit with the client IP, agent and referrer |
| PipelineProps.RedirHitOnlyWhenFound | handlers.go:143-168 | when the name is not found, no hit is ever recorded |
| PipelineProps.DeleteMissingUser | handlers.go:185-191 | an empty user: a rollback and 400 "Missing user", before any lookup |
| PipelineProps.DeleteUnknown | handlers.go:195-201 | an unknown name: rollback and 404, nothing removed |
| PipelineProps.DeleteForbidden | handlers.go:206-212 | someone else's name: rollback and 403 "Forbidden", nothing removed |
| PipelineProps.DeleteByOwner | handlers.go:214-219 | the owner's name is removed with no response written (so 200) |
| PipelineProps.DeleteRemovesOnlyForOwner | handlers.go:185-217 | `removeURL` is called exactly when the user is non-empty and owns the name |
| PipelineProps.AdminPostRejected | handlers.go:305-311 | an invalid form: rollback, 400 with the validator's message, and no `addURL` |
| PipelineProps.AdminPostAccepted | handlers.go:305-318 | a valid form: `addURL` with the form's name, URL and user, then 303 to "/_admin" |
| PipelineProps.AdminGetLists | handlers.go:248-267 | the page renders exactly the context user's rows, and the only call is the query |
| PipelineProps.DispatchByMethod | handlers.go:223-233 | GET reaches the redirect and DELETE the delete handler on "/"; POST and GET reach the form and page handlers on "/_admin"; any other method is 400 "Bad method" with the transaction untouched |
| PipelineProps.MissingContextPanics | handlers.go:129-131 | a handler panics "no tx" when the context has no transaction, and those needing a user panic "no user" without one, with nothing written or logged |
| PipelineProps.DbBeginFails | handlers.go:103-107 | a failing begin panics before the handler runs: no transaction, nothing written |
| PipelineProps.DbCommitsAfterReturn | handlers.go:120-123 | after a handler returns, the response is the handler's. The request ends normally exactly when the commit works or finds the transaction already ended. A working commit publishes the working tables and adds only the commit call. After the handler's own rollback nothing is published |
| PipelineProps.DbCommitFails | handlers.go:108-123 | a failing commit is followed by the deferred rollback, which gets `ErrTxDone`, and the request panics with it; nothing is published |
| PipelineProps.DbRollsBackOnPanic | handlers.go:108-116 | a handler panic is followed by exactly one rollback and re-raised (replaced by the rollback's error when that fails), with the response as the handler left it |
| PipelineProps.RecoverKeepsWrittenStatus | handlers_test.go:178-190 | after a panic, the client gets 500, or the status already written with "Internal Server Error" appended |
| PipelineProps.RecoveredChainNeverPanics | handlers.go:50-67 | a chain whose outermost layer is the recovery layer never lets a panic out |
| Handlers.Request.constructor | handlers.go:127-134 | a request holds its method, path, headers, form, client address and context |
| Handlers.Request.WithContext | handlers.go:84-87 | `r.WithContext` gives a new request, differing only in its context |
| Handlers.RedirHandler | handlers.go:127-170 | updates the response writer and the transaction in place exactly as the redirect handler computes, and ends as it does |
| Handlers.DeleteHandler | handlers.go:173-220 | updates the writer and the transaction exactly as the delete handler computes |
| Handlers.IndexHandler | handlers.go:223-233 | dispatches on the method exactly as `indexHandler` |
| Handlers.AdminGetHandler | handlers.go:236-268 | writes the page and logs the query exactly as the admin page computes |
| Handlers.AdminPostHandler | handlers.go:293-319 | validates, inserts and redirects exactly as the admin form handler computes |
| Handlers.AdminHandler | handlers.go:322-332 | dispatches on the method exactly as `adminHandler` |
| Handlers.ServeEndpoint | handlers.go:223-233 | runs the endpoint selected for a chain, as `Dispatch` does |
| Handlers.DeferredRollback | handlers.go:108-116 | the deferred function: rolls back, and re-raises the panic or the rollback's error |
| Handlers.DbHandler | handlers.go:101-124 | begins a transaction on the database object, runs the handler with it in context, and commits or rolls back, leaving the writer and database as `DbLayer` computes |
| Handlers.Serve | main.go:87-104 | a request through a whole chain leaves the writer and the database as the chain interpreter computes, and the request object with the client address `FinalAddr` gives |
| Handlers.PanicHandler | handlers.go:50-67 | serves the rest of the chain and recovers any panic into a 500, as `Recover` computes; the request keeps the address the rest leaves |
| Handlers.RealIPHandler | handlers.go:70-79 | replaces the request's client address in place when the header is non-empty, then serves the rest; the request ends with the address the rest leaves in the replaced request |
| Handlers.StaticUserHandler | handlers.go:82-88 | serves the rest with the fixed user in a new request's context |
| Handlers.RemoteUserHandler | handlers.go:91-98 | serves the rest with the header's value (possibly empty) as the user |
| Routes.UserLayer | main.go:94-100 | the remote-user layer with the configured header when one is set, and otherwise the fixed user "test" |
| Routes.RootChain | main.go:87-103 | recovery, then the user layer, then the real-IP layer exactly when its header is configured, with `dbHandler` around `indexHandler` |
| Routes.AdminChain | main.go:88-104 | recovery, then the user layer, with `dbHandler` around `adminHandler` |
| Routes.Wrap | main.go:87-101 | wrapping adds one layer outermost and keeps the chain's end |
| Routes.Register | main.go:103-104 | `ServeMux.Handle`: registers a non-empty pattern not yet registered; an empty one panics "http: invalid pattern" and a taken one "http: multiple registrations for" the pattern, leaving the patterns as they were |
| Routes.Match | main.go:103-104 | the pattern equal to the path serves it, and otherwise the catch-all "/" |
| Routes.ServeMux.constructor | main.go:77 | `http.DefaultServeMux` as the program finds it: holding only the "/debug/vars" route the `expvar` import registers |
| Routes.ServeMux.Handle | main.go:103-104 | updates the patterns in place and returns or panics exactly as `Register` computes |
| Routes.ServeMux.ServeHTTP | main.go:103-105 | a path no pattern covers gets 404; "/debug/vars" gets the published variables as JSON; otherwise the writer, database and request end as the selected chain computes |
| Routes.PublishName | main.go:79-81 | `expvar.Publish`: a new name is added; a name published before panics "Reuse of exported var name" and the names stay as they were |
| Routes.Vars.constructor | main.go:7 | the registry as the program finds it: `expvar` has published "cmdline" and "memstats" |
| Routes.Vars.Publish | main.go:79-81 | updates the registry in place and returns or panics exactly as `PublishName` computes |
| Routes.Setup | main.go:76-106 | `setupServeMux` returns normally exactly when "gitrev", "revdate" and "config" are unpublished and "/" and "/_admin" unregistered; it then adds the three names and the two chains; earlier routes are always kept, and an already published "gitrev" panics before anything changes |
| Routes.SetupServeMux | main.go:76-106 | publishes, builds both chains step by step and registers them, leaving registry, multiplexer and outcome exactly as `Setup` computes |
| Routes.SetupOnDefaultMux | main.go:77-105 | on the program's registry and `http.DefaultServeMux`, setup returns normally with exactly three routes and five published names |
| Routes.SetupTwicePanics | main.go:79 | a second `setupServeMux` panics at "gitrev" and changes nothing |
| Routes.ChainShape | main.go:87-104 | recovery outermost and only there, exactly one user layer (second), chosen by the remote-user header, and `dbHandler` innermost around the right handler |
| Routes.RealIPPlacement | main.go:89-91 | the real-IP layer is on the "/" chain exactly when configured, just outside `dbHandler`, and never on the admin chain |
| Routes.RouteSelection | main.go:103-104 | after setup, "/debug/vars" reaches `expvar`, "/_admin" the admin chain and every other path the "/" chain |
| Routes.OriginalRequestKeepsAddr | main.go:89-100 | on both chains the user layer comes before the real-IP layer, so the request object the multiplexer was given keeps the peer address |
| Routes.RoutesNeverPanic | main.go:103-104 | neither registered chain ever lets a panic out |
| Scenarios.ServeRecoverStatic | handlers_test.go:336-346 | a chain of recovery and a fixed user around `dbHandler` is `dbHandler` run with that user, recovered |
| Scenarios.AddScenario | handlers.go:293-319 | POST /_admin on an empty store: 303 to "/_admin", and one row committed with id 1 and no hits |
| Scenarios.FollowInTx | handlers.go:127-170 | GET /baz inside `dbHandler`: 301 to the stored URL with the cache header, the counter at 1 and one hit committed |
| Scenarios.FollowScenario | handlers.go:127-170 | the same through the "/" route |
| Scenarios.AddThenFollow | handlers.go:127-170 | adding a name and then following it gives 303 then 301 to the URL |
| Scenarios.DeleteWithoutRemoteUser | handlers_test.go:330-334 | a DELETE without the remote-user header is refused with 400 "Missing user", and nothing is removed |
| Scenarios.CommitFailsInTx | handlers_test.go:178-190 | a commit failure after the admin page was written panics with the page already sent, publishing nothing |
| Scenarios.CommitFailsAfterPage | handlers_test.go:178-190 | through the recovery layer, the client keeps 200 and "Internal Server Error" is appended to the page |

## Left out

- Process setup is not modelled: configuration file reading, `main`, the HTTP server and
  logging. The `expvar` registrations in `setupServeMux` (main.go:79-81) and the
  "/debug/vars" route of `http.DefaultServeMux` are modelled.
- Routes.ServeMux.ServeHTTP: the JSON document `expvar` serves is the parameter
  `Env.expvars`. Its contents are not modelled. They include the published
  configuration with its database connection string, and the build variables.
- Routes.Register, Routes.ServeMux.Handle: the panic texts are those of `net/http`
  before Go 1.22. Pattern syntax beyond the empty pattern is not checked.
- `newPostgresDb`, the schema statements and `search_path` in `begin` are not modelled.
  The schema's constraints are instead the invariant `Store.Valid`, and its effects are
  part of each statement's meaning.
- `begin` and `beginTx` are modelled as one `Storage.Db.BeginTx`. Context cancellation
  and request deadlines are not modelled.
- Concurrency between requests is not modelled. Each request sees the committed tables
  as they are when its transaction begins, and transactions are not interleaved.
- The admin page template is the parameter `Env.renderAdmin`. A template parse or
  execution error (handlers.go:253-256, 264-267) is not modelled, and neither is a
  partial write.
- `net.SplitHostPort`, `net.ParseIP`, `url.Parse` and HTML escaping are the parameters
  `Env.splitHost`, `Env.parseIP`, `Env.urlParses` and `Env.htmlEscape`. Their own rules
  are not modelled, and the parsed IP is kept as its textual form.
- The clock is not modelled. The `Expires` value is the parameter `Env.expires`, and
  only its presence is stated.
- Redirect resolution of relative URLs and the redirect page body's escaping are not
  modelled beyond `Env.htmlEscape`.
- Http.Response.SetHeader, Http.Response.Error: the model keeps one header map that
  later calls go on changing. `net/http` sends the headers at the first `WriteHeader`
  or `Write`, so changes after that never reach the client. An example is the
  recovery layer's `http.Error` after the admin page or a redirect was written. On a
  first `Write` without a Content-Type, `net/http` also sends one sniffed from the data.
  Neither the freeze nor the sniffing is modelled. The `Response` is the writer's
  state, not what the client receives.
- Http.Response.Redirect, Http.Redirect: the Location header holds the URL as given.
  `http.Redirect` stores it with non-ASCII characters percent-escaped. The canonicalisation of header keys is not modelled
  either.
- Driver errors on individual statements are not modelled, and neither is the
  `rows.Close`, `rows.Scan` or `rows.Err` failure in `urlsForUser`
  (storage.go:186-189, 198-200, 206-209). Only begin, commit and rollback failures are
  parameters. Of the statement errors, only those the schema's constraints raise are
  modelled.
- Store.AddURL, Store.AddHit, Storage.Tx.AddURL, Storage.Tx.AddHit: PostgreSQL rejects a
  NUL character or invalid UTF-8 in a `text` value, so a form value such as `a%00b` makes
  the insert fail and the request answer 500. The model stores any string. Go strings
  are bytes, and the model's strings are sequences of characters.
- Store.UrlsForUser, Storage.Tx.UrlsForUser, PipelineProps.AdminGetLists,
  Scenarios.CommitFailsInTx, Scenarios.CommitFailsAfterPage: the query in `urlsForUser`
  (storage.go:180) has no `ORDER BY`, so the database promises no order. The model
  lists rows in its own table order, one order the database may return. `getURLnID`
  updates the counter in place, and the model does not move the updated row the way a
  new row version can move.
- The text of library errors is abstracted: they are named constructors of
  `Failures.Err`, not strings.
- The `created` timestamp columns are not stored.
- The ServeMux uses exact-path matching with "/" as the catch-all. This is all that the
  three registered patterns need. Longest-prefix matching for subtree patterns and
  redirects for cleaned paths are not modelled.
- Chains are modelled with `dbHandler` directly around the endpoint, which is the shape
  `setupServeMux` builds.
- The test doubles' own quirks are not modelled. One example is `errtx` panicking on a
  nil interface in `commit`. Only their failure behaviour is modelled, as `Faults`.
- Pipeline.Redir: its own contract only states the missing-transaction case and that it
  publishes nothing. The full behaviour is stated in `PipelineProps.RedirUnknown`,
  `PipelineProps.RedirKnown` and `PipelineProps.RedirHitOnlyWhenFound`.
- Pipeline.Delete, Pipeline.AdminGet, Pipeline.AdminPost: their own contracts state the
  context panics and the publish-nothing property. The behaviour is stated in the
  `PipelineProps` lemmas beside them.
