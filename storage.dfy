/** The storage interfaces as objects: a `Db` that begins transactions and a `Tx`
    whose methods run the statements, updating the tables, the transaction's status
    and its call log in place. Each method is proved to do what the statement
    function of the same name in `Store` says. */
module Storage {
  import opened Wrappers
  import opened Failures
  import opened Store
  import Strconv

  /** The database: committed tables, the id sequence and how the connection fails. */
  class Db {
    const faults: Faults
    var committed: Tables
    var serial: int

    function Value(): DbState
      reads this
    {
      DbState(committed, serial, faults)
    }

    /** A database with freshly created, empty tables. */
    constructor (faults: Faults)
      ensures Value() == DbState(NoTables, 1, faults)
    {
      this.faults := faults;
      committed := NoTables;
      serial := 1;
    }

    /** `beginTx`: a new transaction, or the connection's error. */
    method BeginTx() returns (r: Result<Tx, Err>)
      ensures r.Success? <==> Begin(Value()).Success?
      ensures r.Failure? ==> r.error == Begin(Value()).error
      ensures r.Success? ==> fresh(r.value) && r.value.db == this && r.value.State() == Begin(Value()).value
    {
      match faults.begin
      case Some(msg) =>
        r := Failure(Driver(msg));
      case None =>
        var tx := new Tx(this);
        r := Success(tx);
    }
  }

  /** An open transaction on `db`. */
  class Tx {
    const db: Db
    var tables: Tables
    var status: Status
    var calls: seq<Call>

    function State(): TxState
      reads this
    {
      TxState(tables, status, calls)
    }

    /** The transaction together with its database. */
    function Snapshot(): Session
      reads this, db
    {
      Session(db.Value(), State())
    }

    constructor (db: Db)
      ensures this.db == db
      ensures State() == TxState(db.committed, Open, [])
    {
      this.db := db;
      tables := db.committed;
      status := Open;
      calls := [];
    }

    /** The error a statement gets when the transaction cannot run statements. */
    function Refusal(): Err
      reads this
    {
      if status == Aborted then TransactionAborted else TxDone
    }

    method Commit() returns (err: Option<Err>)
      modifies this, db
      ensures var e := Store.Commit(old(Snapshot())); Snapshot() == e.s && err == e.err
    {
      calls := calls + [CommitCall];
      if status == Committed || status == RolledBack {
        err := Some(TxDone);
      } else if status == Aborted {
        status := RolledBack;
        err := Some(InFailedTransaction);
      } else if db.faults.commit.Some? {
        status := RolledBack;
        err := Some(Driver(db.faults.commit.value));
      } else {
        db.committed := tables;
        status := Committed;
        err := None;
      }
    }

    method Rollback() returns (err: Option<Err>)
      modifies this
      ensures var e := Store.Rollback(old(Snapshot())); Snapshot() == e.s && err == e.err
    {
      calls := calls + [RollbackCall];
      if status == Committed || status == RolledBack {
        err := Some(TxDone);
      } else {
        status := RolledBack;
        err := if db.faults.rollback.Some? then Some(Driver(db.faults.rollback.value)) else None;
      }
    }

    method GetURLnID(name: string) returns (r: Result<(string, int), Err>)
      modifies this
      ensures var out := Store.GetURLnID(old(Snapshot()), name); Snapshot() == out.s && r == out.result
    {
      calls := calls + [GetURLnIDCall(name)];
      if status != Open {
        r := Failure(Refusal());
        return;
      }
      var found := Find(tables.urls, name);
      if found.None? {
        r := Failure(NoRows);
        return;
      }
      var i := found.value;
      var row := tables.urls[i];
      if row.hits == MaxInt4 {
        status := Aborted;
        r := Failure(OutOfRange);
        return;
      }
      tables := tables.(urls := tables.urls[i := row.(hits := row.hits + 1)]);
      r := Success((row.url, row.id));
    }

    method GetIDnUser(name: string) returns (r: Result<(int, string), Err>)
      modifies this
      ensures var out := Store.GetIDnUser(old(Snapshot()), name); Snapshot() == out.s && r == out.result
    {
      calls := calls + [GetIDnUserCall(name)];
      if status != Open {
        r := Failure(Refusal());
        return;
      }
      var found := Find(tables.urls, name);
      if found.None? {
        r := Failure(NoRows);
      } else {
        var row := tables.urls[found.value];
        r := Success((row.id, row.user));
      }
    }

    method RemoveURL(name: string) returns (err: Option<Err>)
      modifies this
      ensures var e := Store.RemoveURL(old(Snapshot()), name); Snapshot() == e.s && err == e.err
    {
      calls := calls + [RemoveURLCall(name)];
      if status != Open {
        err := Some(Refusal());
        return;
      }
      tables := Tables(Unnamed(tables.urls, name), HitsNotFor(tables.hits, IdsNamed(tables.urls, name)));
      err := None;
    }

    method AddHit(urlId: int, ip: string, agent: string, referrer: Option<string>) returns (err: Option<Err>)
      modifies this
      ensures var e := Store.AddHit(old(Snapshot()), urlId, ip, agent, referrer); Snapshot() == e.s && err == e.err
    {
      calls := calls + [AddHitCall(urlId, ip, agent, referrer)];
      if status != Open {
        err := Some(Refusal());
      } else if urlId !in Ids(tables.urls) {
        status := Aborted;
        err := Some(ForeignKeyViolation);
      } else {
        tables := tables.(hits := tables.hits + [HitRow(urlId, ip, agent, referrer)]);
        err := None;
      }
    }

    method AddURL(name: string, url: string, user: string) returns (err: Option<Err>)
      modifies this, db
      ensures var e := Store.AddURL(old(Snapshot()), name, url, user); Snapshot() == e.s && err == e.err
    {
      calls := calls + [AddURLCall(name, url, user)];
      if status != Open {
        err := Some(Refusal());
        return;
      }
      if db.serial > MaxInt4 {
        status := Aborted;
        err := Some(SequenceExhausted);
        return;
      }
      var id := db.serial;
      db.serial := id + 1;
      if Find(tables.urls, name).Some? {
        status := Aborted;
        err := Some(UniqueViolation);
      } else {
        tables := tables.(urls := tables.urls + [UrlRow(id, name, url, user, 0)]);
        err := None;
      }
    }

    /** `urlsForUser`: runs the query, then reads the rows one by one into listings. */
    method UrlsForUser(user: string) returns (r: Result<seq<Listing>, Err>)
      modifies this
      ensures var out := Store.UrlsForUser(old(Snapshot()), user);
        && Snapshot() == out.s
        && r.Success? == out.result.Success?
        && (r.Success? ==> r.value == Listings(out.result.value))
        && (r.Failure? ==> r.error == out.result.error)
    {
      calls := calls + [UrlsForUserCall(user)];
      if status != Open {
        r := Failure(Refusal());
        return;
      }
      var rows := Owned(tables.urls, user);
      var urls := ScanListings(rows);
      r := Success(urls);
    }
  }

  /** The row loop of `urlsForUser`: one listing per row, in row order, hits in decimal. */
  method ScanListings(rows: seq<UrlRow>) returns (urls: seq<Listing>)
    ensures |urls| == |rows|
    ensures forall i :: 0 <= i < |rows| ==>
      && urls[i].name == rows[i].name
      && urls[i].url == rows[i].url
      && urls[i].hits == Strconv.Itoa(rows[i].hits)
    ensures urls == Listings(rows)
  {
    urls := [];
    var k := 0;
    while k < |rows|
      invariant 0 <= k <= |rows|
      invariant urls == Listings(rows[..k])
    {
      assert rows[..k + 1] == rows[..k] + [rows[k]];
      urls := urls + [Listing(rows[k].name, rows[k].url, Strconv.Itoa(rows[k].hits))];
      k := k + 1;
    }
    assert rows[..k] == rows;
  }
}
