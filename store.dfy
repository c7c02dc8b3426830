/** The storage layer's tables and the meaning of each SQL statement the
    transaction runs, as functions on values.

    The schema has two tables: `urls` (id serial primary key, name unique, url,
    user, hits starting at 0, a 32-bit integer) and `hits` (one row per recorded
    visit, whose url_id references urls(id) and is deleted with it). A transaction
    works on its own copy of the tables; committing publishes the copy, rolling
    back discards it. The id sequence is shared by all transactions and is never
    rolled back, as PostgreSQL sequences are not transactional.

    Every statement is also recorded in the transaction's call log, which is what
    the handlers' properties ("never calls addURL", "exactly one rollback") are
    stated against. */
module Store {
  import opened Wrappers
  import opened Failures
  import Strconv

  /** Largest value of a PostgreSQL `int` (and of a `serial`). */
  const MaxInt4: int := 0x7fff_ffff

  /** A row of `urls`. */
  datatype UrlRow = UrlRow(id: int, name: string, url: string, user: string, hits: int)

  /** A row of `hits`. The creation timestamp is not modelled. */
  datatype HitRow = HitRow(urlId: int, remoteHost: string, agent: string, referrer: Option<string>)

  /** Both tables; `urls` as a sequence of rows. Its order is one order a query without
      `ORDER BY` may return rows in; the database promises none. */
  datatype Tables = Tables(urls: seq<UrlRow>, hits: seq<HitRow>)

  const NoTables: Tables := Tables([], [])

  /** Where a transaction stands. A statement error leaves it `Aborted`: PostgreSQL then
      refuses further statements until the transaction ends. */
  datatype Status = Open | Aborted | Committed | RolledBack {
    predicate Done() {
      this == Committed || this == RolledBack
    }
  }

  /** Failures of the database connection for begin, commit and rollback; `None` means
      the call goes through. They are a parameter of the model. */
  datatype Faults = Faults(begin: Option<string>, commit: Option<string>, rollback: Option<string>)

  const NoFaults: Faults := Faults(None, None, None)

  /** The database outside any transaction: the committed tables and the next id. */
  datatype DbState = DbState(committed: Tables, serial: int, faults: Faults)

  /** One call on the transaction interface. */
  datatype Call =
    | CommitCall
    | RollbackCall
    | GetURLnIDCall(name: string)
    | GetIDnUserCall(name: string)
    | RemoveURLCall(name: string)
    | AddHitCall(urlId: int, ip: string, agent: string, referrer: Option<string>)
    | AddURLCall(name: string, url: string, user: string)
    | UrlsForUserCall(user: string)

  /** A transaction: its working copy of the tables, its status and the calls made on it. */
  datatype TxState = TxState(tables: Tables, status: Status, calls: seq<Call>)

  /** A transaction together with the database it runs against. */
  datatype Session = Session(db: DbState, tx: TxState)

  /** What a query returns: the new session and a value or an error. */
  datatype Reply<T> = Reply(s: Session, result: Result<T, Err>)

  /** What a statement without a result returns: the new session and an error, if any. */
  datatype Effect = Effect(s: Session, err: Option<Err>)

  /** One listed URL of a user as the admin page gets it: name, url and hits in decimal. */
  datatype Listing = Listing(name: string, url: string, hits: string)

  // ---------------------------------------------------------------------------
  // Table invariants

  /** The ids present in `urls`. */
  function Ids(urls: seq<UrlRow>): set<int> {
    set row | row in urls :: row.id
  }

  /** No two rows share a name or an id. */
  ghost predicate Unique(urls: seq<UrlRow>) {
    forall i, j :: 0 <= i < j < |urls| ==> urls[i].name != urls[j].name && urls[i].id != urls[j].id
  }

  /** The constraints of the schema: ids below the sequence's next value and distinct,
      names distinct, hit counters within `int`, every hit referencing an existing url. */
  ghost predicate Valid(t: Tables, serial: int) {
    && (forall row :: row in t.urls ==> 1 <= row.id < serial && 0 <= row.hits <= MaxInt4)
    && Unique(t.urls)
    && (forall h :: h in t.hits ==> h.urlId in Ids(t.urls))
  }

  ghost predicate ValidDb(db: DbState) {
    1 <= db.serial && Valid(db.committed, db.serial)
  }

  ghost predicate ValidSession(s: Session) {
    ValidDb(s.db) && Valid(s.tx.tables, s.db.serial)
  }

  // ---------------------------------------------------------------------------
  // Lookup helpers

  /** The position of the row named `name`, if there is one (the first, names being unique). */
  function Find(urls: seq<UrlRow>, name: string): (r: Option<nat>)
    ensures r.Some? ==> r.value < |urls| && urls[r.value].name == name
    ensures r.Some? ==> forall i :: 0 <= i < r.value ==> urls[i].name != name
    ensures r.None? <==> forall i :: 0 <= i < |urls| ==> urls[i].name != name
  {
    if |urls| == 0 then None
    else if urls[0].name == name then Some(0)
    else
      match Find(urls[1..], name)
      case None => None
      case Some(k) => Some(k + 1)
  }

  /** The rows owned by `user` (`SELECT ... WHERE "user" = $1`), listed in the model's
      table order, one of the orders the database may return them in. */
  function Owned(urls: seq<UrlRow>, user: string): (rows: seq<UrlRow>)
    ensures forall row :: row in rows <==> row in urls && row.user == user
    ensures |rows| <= |urls|
    ensures rows == [] <==> forall row :: row in urls ==> row.user != user
  {
    if |urls| == 0 then []
    else (if urls[0].user == user then [urls[0]] else []) + Owned(urls[1..], user)
  }

  /** The ids of the rows named `name`. */
  function IdsNamed(urls: seq<UrlRow>, name: string): set<int> {
    set row | row in urls && row.name == name :: row.id
  }

  /** The rows not named `name` (`DELETE FROM urls WHERE name = $1` keeps these). */
  function Unnamed(urls: seq<UrlRow>, name: string): (r: seq<UrlRow>)
    ensures forall row :: row in r <==> row in urls && row.name != name
    ensures |r| <= |urls|
  {
    if |urls| == 0 then []
    else (if urls[0].name != name then [urls[0]] else []) + Unnamed(urls[1..], name)
  }

  /** The hits that reference none of `ids` (what ON DELETE CASCADE keeps). */
  function HitsNotFor(hits: seq<HitRow>, ids: set<int>): (r: seq<HitRow>)
    ensures forall h :: h in r <==> h in hits && h.urlId !in ids
  {
    if |hits| == 0 then []
    else (if hits[0].urlId !in ids then [hits[0]] else []) + HitsNotFor(hits[1..], ids)
  }

  function ListingOf(row: UrlRow): Listing {
    Listing(row.name, row.url, Strconv.Itoa(row.hits))
  }

  /** The rows as the admin page lists them. */
  function Listings(rows: seq<UrlRow>): (r: seq<Listing>)
    ensures |r| == |rows|
    ensures forall i :: 0 <= i < |rows| ==> r[i] == ListingOf(rows[i])
  {
    seq(|rows|, i requires 0 <= i < |rows| => ListingOf(rows[i]))
  }

  // ---------------------------------------------------------------------------
  // Session plumbing

  function Log(s: Session, c: Call): (r: Session)
    ensures r.db == s.db && r.tx.tables == s.tx.tables && r.tx.status == s.tx.status
    ensures r.tx.calls == s.tx.calls + [c]
  {
    s.(tx := s.tx.(calls := s.tx.calls + [c]))
  }

  function Abort(s: Session): Session {
    s.(tx := s.tx.(status := Aborted))
  }

  function WithTables(s: Session, t: Tables): Session {
    s.(tx := s.tx.(tables := t))
  }

  /** The error every statement gets on a transaction that cannot run statements. */
  function Guard(t: TxState): (r: Option<Err>)
    ensures r.None? <==> t.status == Open
  {
    match t.status
    case Open => None
    case Aborted => Some(TransactionAborted)
    case _ => Some(TxDone)
  }

  // ---------------------------------------------------------------------------
  // The transaction lifecycle

  /** `beginTx`: a new open transaction on a copy of the committed tables. */
  function Begin(db: DbState): (r: Result<TxState, Err>)
    ensures r.Success? <==> db.faults.begin.None?
    ensures r.Success? ==> r.value == TxState(db.committed, Open, [])
    ensures r.Failure? ==> r.error == Driver(db.faults.begin.value)
  {
    match db.faults.begin
    case Some(msg) => Failure(Driver(msg))
    case None => Success(TxState(db.committed, Open, []))
  }

  /** `commit`: publishes the working tables of an open transaction. Any attempt ends the
      transaction; a second completion reports `TxDone`. */
  function Commit(s: Session): (r: Effect)
    ensures r.s.tx.calls == s.tx.calls + [CommitCall]
    ensures r.s.db.serial == s.db.serial && r.s.db.faults == s.db.faults
    ensures r.s.tx.status.Done()
    ensures s.tx.status.Done() ==> r.err == Some(TxDone) && r.s.tx.status == s.tx.status
    ensures r.s.db.committed != s.db.committed ==> r.err.None?
    ensures r.err.None? <==> s.tx.status == Open && s.db.faults.commit.None?
    ensures r.err.None? ==> r.s.tx.status == Committed && r.s.db.committed == s.tx.tables
  {
    var s := Log(s, CommitCall);
    match s.tx.status
    case Committed => Effect(s, Some(TxDone))
    case RolledBack => Effect(s, Some(TxDone))
    case Aborted => Effect(s.(tx := s.tx.(status := RolledBack)), Some(InFailedTransaction))
    case Open =>
      match s.db.faults.commit
      case Some(msg) => Effect(s.(tx := s.tx.(status := RolledBack)), Some(Driver(msg)))
      case None => Effect(s.(db := s.db.(committed := s.tx.tables), tx := s.tx.(status := Committed)), None)
  }

  /** `rollback`: ends the transaction without publishing anything. */
  function Rollback(s: Session): (r: Effect)
    ensures r.s.tx.calls == s.tx.calls + [RollbackCall]
    ensures r.s.db == s.db
    ensures r.s.tx.status.Done()
    ensures s.tx.status.Done() ==> r.err == Some(TxDone) && r.s.tx.status == s.tx.status
    ensures !s.tx.status.Done() ==> r.s.tx.status == RolledBack
    ensures r.err.None? <==> !s.tx.status.Done() && s.db.faults.rollback.None?
  {
    var s := Log(s, RollbackCall);
    if s.tx.status.Done() then Effect(s, Some(TxDone))
    else
      var ended := s.(tx := s.tx.(status := RolledBack));
      match s.db.faults.rollback
      case Some(msg) => Effect(ended, Some(Driver(msg)))
      case None => Effect(ended, None)
  }

  // ---------------------------------------------------------------------------
  // The statements

  /** `getURLnID`: `UPDATE urls SET hits=hits+1 WHERE name=$1 RETURNING id,url`. */
  function GetURLnID(s: Session, name: string): (r: Reply<(string, int)>)
    ensures r.s.db == s.db
    ensures r.s.tx.calls == s.tx.calls + [GetURLnIDCall(name)]
    ensures r.result == Failure(NoRows) <==> s.tx.status == Open && Find(s.tx.tables.urls, name).None?
    ensures r.result.Failure? ==> r.s.tx.tables == s.tx.tables
    ensures r.result.Success? || r.result == Failure(NoRows) ==> r.s.tx.status == s.tx.status
    ensures r.result == Failure(OutOfRange) <==>
      s.tx.status == Open && Find(s.tx.tables.urls, name).Some? &&
      s.tx.tables.urls[Find(s.tx.tables.urls, name).value].hits == MaxInt4
    ensures r.result.Success? ==>
      && s.tx.status == Open
      && Find(s.tx.tables.urls, name).Some?
      && var i := Find(s.tx.tables.urls, name).value;
      && var row := s.tx.tables.urls[i];
      && r.result.value == (row.url, row.id)
      && r.s.tx.tables.hits == s.tx.tables.hits
      && |r.s.tx.tables.urls| == |s.tx.tables.urls|
      && r.s.tx.tables.urls[i] == row.(hits := row.hits + 1)
      && (forall j :: 0 <= j < |s.tx.tables.urls| && j != i ==> r.s.tx.tables.urls[j] == s.tx.tables.urls[j])
  {
    var s := Log(s, GetURLnIDCall(name));
    if Guard(s.tx).Some? then Reply(s, Failure(Guard(s.tx).value))
    else
      match Find(s.tx.tables.urls, name)
      case None => Reply(s, Failure(NoRows))
      case Some(i) =>
        var row := s.tx.tables.urls[i];
        if row.hits == MaxInt4 then Reply(Abort(s), Failure(OutOfRange))
        else
          var urls := s.tx.tables.urls[i := row.(hits := row.hits + 1)];
          Reply(WithTables(s, s.tx.tables.(urls := urls)), Success((row.url, row.id)))
  }

  /** `getIDnUser`: `SELECT id,"user" FROM urls WHERE name=$1`; changes no table. */
  function GetIDnUser(s: Session, name: string): (r: Reply<(int, string)>)
    ensures r.s == Log(s, GetIDnUserCall(name))
    ensures r.result == Failure(NoRows) <==> s.tx.status == Open && Find(s.tx.tables.urls, name).None?
    ensures r.result.Success? <==> s.tx.status == Open && Find(s.tx.tables.urls, name).Some?
    ensures r.result.Success? ==>
      var row := s.tx.tables.urls[Find(s.tx.tables.urls, name).value];
      r.result.value == (row.id, row.user)
  {
    var s := Log(s, GetIDnUserCall(name));
    if Guard(s.tx).Some? then Reply(s, Failure(Guard(s.tx).value))
    else
      match Find(s.tx.tables.urls, name)
      case None => Reply(s, Failure(NoRows))
      case Some(i) => Reply(s, Success((s.tx.tables.urls[i].id, s.tx.tables.urls[i].user)))
  }

  /** `removeURL`: `DELETE FROM urls WHERE name=$1`, cascading to the url's hits. Deleting
      a name that is not there deletes nothing and is not an error. */
  function RemoveURL(s: Session, name: string): (r: Effect)
    ensures r.s.db == s.db
    ensures r.s.tx.calls == s.tx.calls + [RemoveURLCall(name)]
    ensures r.s.tx.status == s.tx.status
    ensures r.err.None? <==> s.tx.status == Open
    ensures r.err.Some? ==> r.s.tx.tables == s.tx.tables
    ensures r.err.None? ==> Find(r.s.tx.tables.urls, name).None?
    ensures r.err.None? ==> forall row :: row in r.s.tx.tables.urls <==> row in s.tx.tables.urls && row.name != name
    ensures r.err.None? ==> forall h :: h in r.s.tx.tables.hits <==> h in s.tx.tables.hits && h.urlId !in IdsNamed(s.tx.tables.urls, name)
  {
    var s := Log(s, RemoveURLCall(name));
    if Guard(s.tx).Some? then Effect(s, Guard(s.tx))
    else
      var urls := s.tx.tables.urls;
      Effect(WithTables(s, Tables(Unnamed(urls, name), HitsNotFor(s.tx.tables.hits, IdsNamed(urls, name)))), None)
  }

  /** `addHit`: `INSERT INTO hits (url_id, remotehost, agent, referrer) ...`. */
  function AddHit(s: Session, urlId: int, ip: string, agent: string, referrer: Option<string>): (r: Effect)
    ensures r.s.db == s.db
    ensures r.s.tx.calls == s.tx.calls + [AddHitCall(urlId, ip, agent, referrer)]
    ensures r.s.tx.tables.urls == s.tx.tables.urls
    ensures r.err.None? <==> s.tx.status == Open && urlId in Ids(s.tx.tables.urls)
    ensures r.err.None? ==> r.s.tx.tables.hits == s.tx.tables.hits + [HitRow(urlId, ip, agent, referrer)]
    ensures r.err.None? ==> r.s.tx.status == Open
    ensures r.err.Some? ==> r.s.tx.tables == s.tx.tables
    ensures r.err == Some(ForeignKeyViolation) <==> s.tx.status == Open && urlId !in Ids(s.tx.tables.urls)
  {
    var s := Log(s, AddHitCall(urlId, ip, agent, referrer));
    if Guard(s.tx).Some? then Effect(s, Guard(s.tx))
    else if urlId !in Ids(s.tx.tables.urls) then Effect(Abort(s), Some(ForeignKeyViolation))
    else Effect(WithTables(s, s.tx.tables.(hits := s.tx.tables.hits + [HitRow(urlId, ip, agent, referrer)])), None)
  }

  /** `addURL`: `INSERT INTO urls (name, url, "user") VALUES ($1, $2, $3)`. The id comes
      from the sequence, which advances even when the insert then fails. */
  function AddURL(s: Session, name: string, url: string, user: string): (r: Effect)
    ensures r.s.db.committed == s.db.committed && r.s.db.faults == s.db.faults
    ensures r.s.tx.calls == s.tx.calls + [AddURLCall(name, url, user)]
    ensures r.err.None? <==> s.tx.status == Open && s.db.serial <= MaxInt4 && Find(s.tx.tables.urls, name).None?
    ensures r.err == Some(UniqueViolation) <==> s.tx.status == Open && s.db.serial <= MaxInt4 && Find(s.tx.tables.urls, name).Some?
    ensures r.err == Some(SequenceExhausted) <==> s.tx.status == Open && s.db.serial > MaxInt4
    ensures r.err.Some? ==> r.s.tx.tables == s.tx.tables
    ensures r.s.db.serial == if s.tx.status == Open && s.db.serial <= MaxInt4 then s.db.serial + 1 else s.db.serial
    ensures r.err.None? ==>
      && r.s.tx.status == Open
      && r.s.tx.tables == s.tx.tables.(urls := s.tx.tables.urls + [UrlRow(s.db.serial, name, url, user, 0)])
  {
    var s := Log(s, AddURLCall(name, url, user));
    if Guard(s.tx).Some? then Effect(s, Guard(s.tx))
    else if s.db.serial > MaxInt4 then Effect(Abort(s), Some(SequenceExhausted))
    else
      var id := s.db.serial;
      var s := s.(db := s.db.(serial := id + 1));
      if Find(s.tx.tables.urls, name).Some? then Effect(Abort(s), Some(UniqueViolation))
      else Effect(WithTables(s, s.tx.tables.(urls := s.tx.tables.urls + [UrlRow(id, name, url, user, 0)])), None)
  }

  /** The query of `urlsForUser`: `SELECT name, url, hits FROM urls WHERE "user" = $1`. */
  function UrlsForUser(s: Session, user: string): (r: Reply<seq<UrlRow>>)
    ensures r.s == Log(s, UrlsForUserCall(user))
    ensures r.result.Success? <==> s.tx.status == Open
    ensures r.result.Success? ==> forall row :: row in r.result.value <==> row in s.tx.tables.urls && row.user == user
  {
    var s := Log(s, UrlsForUserCall(user));
    if Guard(s.tx).Some? then Reply(s, Failure(Guard(s.tx).value))
    else Reply(s, Success(Owned(s.tx.tables.urls, user)))
  }
}
