/** What the storage layer guarantees across several statements: the schema's
    constraints hold after every statement, nothing reaches the committed tables
    except through a successful commit, rollback discards the whole transaction,
    a finished transaction stays finished, and lookups see earlier writes. */
module StoreProps {
  import opened Wrappers
  import opened Failures
  import opened Store
  import Strconv

  /** A statement run inside a transaction (anything but commit). */
  datatype Stmt =
    | GetURLnIDStmt(name: string)
    | GetIDnUserStmt(name: string)
    | RemoveURLStmt(name: string)
    | AddHitStmt(urlId: int, ip: string, agent: string, referrer: Option<string>)
    | AddURLStmt(name: string, url: string, user: string)
    | UrlsForUserStmt(user: string)
    | RollbackStmt

  function Exec(s: Session, st: Stmt): Session {
    match st
    case GetURLnIDStmt(name) => GetURLnID(s, name).s
    case GetIDnUserStmt(name) => GetIDnUser(s, name).s
    case RemoveURLStmt(name) => RemoveURL(s, name).s
    case AddHitStmt(urlId, ip, agent, referrer) => AddHit(s, urlId, ip, agent, referrer).s
    case AddURLStmt(name, url, user) => AddURL(s, name, url, user).s
    case UrlsForUserStmt(user) => UrlsForUser(s, user).s
    case RollbackStmt => Rollback(s).s
  }

  function Run(s: Session, sts: seq<Stmt>): Session
    decreases |sts|
  {
    if sts == [] then s else Run(Exec(s, sts[0]), sts[1..])
  }

  // ---------------------------------------------------------------------------
  // The schema's constraints are kept

  lemma {:induction false} UnnamedKeepsUnique(urls: seq<UrlRow>, name: string)
    requires Unique(urls)
    ensures Unique(Unnamed(urls, name))
    decreases |urls|
  {
    if |urls| > 0 {
      var tail := urls[1..];
      UnnamedKeepsUnique(tail, name);
      var rest := Unnamed(tail, name);
      if urls[0].name != name {
        var r := Unnamed(urls, name);
        assert r == [urls[0]] + rest;
        forall i, j | 0 <= i < j < |r| ensures r[i].name != r[j].name && r[i].id != r[j].id {
          if i == 0 {
            assert r[j] == rest[j - 1] && r[j] in tail;
            var k :| 0 <= k < |tail| && tail[k] == r[j];
            assert urls[k + 1] == r[j];
          } else {
            assert r[i] == rest[i - 1] && r[j] == rest[j - 1];
          }
        }
      }
    }
  }

  lemma GetURLnIDKeepsValid(s: Session, name: string)
    requires ValidSession(s)
    ensures ValidSession(GetURLnID(s, name).s)
  {
    var r := GetURLnID(s, name);
    if r.result.Success? {
      var urls := s.tx.tables.urls;
      var urls' := r.s.tx.tables.urls;
      assert Ids(urls') == Ids(urls) by {
        forall row | row in urls ensures row.id in Ids(urls') {
          var k :| 0 <= k < |urls| && urls[k] == row;
          assert urls'[k].id == row.id;
        }
        forall row | row in urls' ensures row.id in Ids(urls) {
          var k :| 0 <= k < |urls'| && urls'[k] == row;
          assert urls[k].id == row.id;
        }
      }
      forall row | row in urls' ensures 1 <= row.id < s.db.serial && 0 <= row.hits <= MaxInt4 {
        var k :| 0 <= k < |urls'| && urls'[k] == row;
        assert urls[k] in urls;
      }
    }
  }

  /** Removing the rows named `name` and their hits keeps every remaining hit pointing
      at a remaining row. */
  lemma CascadeKeepsRefs(urls: seq<UrlRow>, hits: seq<HitRow>, name: string)
    requires forall h :: h in hits ==> h.urlId in Ids(urls)
    ensures forall h :: h in HitsNotFor(hits, IdsNamed(urls, name)) ==> h.urlId in Ids(Unnamed(urls, name))
  {
    forall h | h in HitsNotFor(hits, IdsNamed(urls, name)) ensures h.urlId in Ids(Unnamed(urls, name)) {
      var row :| row in urls && row.id == h.urlId;
      assert row.name != name;
    }
  }

  lemma RemoveURLKeepsValid(s: Session, name: string)
    requires ValidSession(s)
    ensures ValidSession(RemoveURL(s, name).s)
  {
    if s.tx.status == Open {
      var t := s.tx.tables;
      UnnamedKeepsUnique(t.urls, name);
      CascadeKeepsRefs(t.urls, t.hits, name);
      assert RemoveURL(s, name).s.tx.tables == Tables(Unnamed(t.urls, name), HitsNotFor(t.hits, IdsNamed(t.urls, name)));
    }
  }

  lemma AddURLKeepsValid(s: Session, name: string, url: string, user: string)
    requires ValidSession(s)
    ensures ValidSession(AddURL(s, name, url, user).s)
  {
    var r := AddURL(s, name, url, user);
    if r.err.None? {
      var urls := s.tx.tables.urls;
      var added := UrlRow(s.db.serial, name, url, user, 0);
      assert Ids(urls) <= Ids(urls + [added]);
    }
  }

  /** Every statement keeps the schema's constraints. */
  lemma ExecKeepsValid(s: Session, st: Stmt)
    requires ValidSession(s)
    ensures ValidSession(Exec(s, st))
  {
    match st
    case GetURLnIDStmt(name) => GetURLnIDKeepsValid(s, name);
    case RemoveURLStmt(name) => RemoveURLKeepsValid(s, name);
    case AddURLStmt(name, url, user) => AddURLKeepsValid(s, name, url, user);
    case _ =>
  }

  /** Any run of statements keeps the schema's constraints. */
  lemma {:induction false} RunKeepsValid(s: Session, sts: seq<Stmt>)
    requires ValidSession(s)
    ensures ValidSession(Run(s, sts))
    decreases |sts|
  {
    if sts != [] {
      ExecKeepsValid(s, sts[0]);
      RunKeepsValid(Exec(s, sts[0]), sts[1..]);
    }
  }

  /** A commit keeps the committed tables valid as well. */
  lemma CommitKeepsValid(s: Session)
    requires ValidSession(s)
    ensures ValidSession(Commit(s).s)
  {
  }

  // ---------------------------------------------------------------------------
  // Isolation and atomicity

  /** Statements work on the transaction's copy only: the committed tables, and the
      connection's behaviour, are untouched, and the id sequence only moves forward. */
  lemma {:induction false} RunKeepsCommitted(s: Session, sts: seq<Stmt>)
    ensures Run(s, sts).db.committed == s.db.committed
    ensures Run(s, sts).db.faults == s.db.faults
    ensures Run(s, sts).db.serial >= s.db.serial
    decreases |sts|
  {
    if sts != [] {
      var next := Exec(s, sts[0]);
      assert next.db.committed == s.db.committed && next.db.faults == s.db.faults && next.db.serial >= s.db.serial;
      RunKeepsCommitted(next, sts[1..]);
    }
  }

  /** A transaction either publishes its whole working copy or nothing: after any run
      of statements, the commit that follows leaves the committed tables as they were
      at begin, or replaces them by the transaction's tables when it succeeds. */
  lemma Atomic(db: DbState, sts: seq<Stmt>)
    requires Begin(db).Success?
    ensures var done := Run(Session(db, Begin(db).value), sts);
      var c := Commit(done);
      && (c.err.None? ==> c.s.db.committed == done.tx.tables)
      && (c.err.Some? ==> c.s.db.committed == db.committed)
  {
    RunKeepsCommitted(Session(db, Begin(db).value), sts);
  }

  /** Rolling back discards every change the transaction made. */
  lemma RollbackDiscards(db: DbState, sts: seq<Stmt>)
    requires Begin(db).Success?
    ensures Rollback(Run(Session(db, Begin(db).value), sts)).s.db.committed == db.committed
  {
    RunKeepsCommitted(Session(db, Begin(db).value), sts);
  }

  /** Once a transaction is committed or rolled back, every further completion reports
      `TxDone` and changes nothing but the call log. */
  lemma SecondCompletion(s: Session, commitFirst: bool)
    ensures var first := if commitFirst then Commit(s) else Rollback(s);
      && Commit(first.s).err == Some(TxDone)
      && Rollback(first.s).err == Some(TxDone)
      && Commit(first.s).s.db == first.s.db
      && Commit(first.s).s.tx.tables == first.s.tx.tables
  {
  }

  // ---------------------------------------------------------------------------
  // Lookups see earlier writes

  /** After `addURL(name, url, user)` succeeds, `getIDnUser(name)` returns the new id
      and `user`, and `getURLnID(name)` returns `url` and that id. */
  lemma AddThenLookup(s: Session, name: string, url: string, user: string)
    requires AddURL(s, name, url, user).err.None?
    ensures var a := AddURL(s, name, url, user);
      && GetIDnUser(a.s, name).result == Success((s.db.serial, user))
      && GetURLnID(a.s, name).result == Success((url, s.db.serial))
  {
    var a := AddURL(s, name, url, user);
    var urls := a.s.tx.tables.urls;
    assert urls[|urls| - 1].name == name;
    assert Find(urls, name) == Some(|urls| - 1);
  }

  /** A second `addURL` with a name already present fails and leaves the tables as
      they were. */
  lemma DuplicateAddFails(s: Session, name: string, url: string, user: string, url2: string, user2: string)
    requires AddURL(s, name, url, user).err.None?
    ensures var a := AddURL(s, name, url, user);
      var b := AddURL(a.s, name, url2, user2);
      && b.err.Some?
      && b.s.tx.tables == a.s.tx.tables
      && (s.db.serial < MaxInt4 ==> b.err == Some(UniqueViolation))
  {
    var a := AddURL(s, name, url, user);
    var urls := a.s.tx.tables.urls;
    assert urls[|urls| - 1].name == name;
  }

  /** After `removeURL(name)`, `getURLnID(name)` finds nothing, and no hit refers to a
      removed id. */
  lemma RemoveThenLookup(s: Session, name: string)
    requires RemoveURL(s, name).err.None?
    ensures var rm := RemoveURL(s, name);
      && GetURLnID(rm.s, name).result == Failure(NoRows)
      && forall h :: h in rm.s.tx.tables.hits ==> h.urlId !in IdsNamed(s.tx.tables.urls, name)
  {
  }

  /** `removeURL` of a name leaves every other row exactly as it was. */
  lemma RemoveKeepsOthers(s: Session, name: string, other: string)
    requires RemoveURL(s, name).err.None?
    requires other != name
    ensures var rm := RemoveURL(s, name);
      Find(s.tx.tables.urls, other).Some? ==>
        var row := s.tx.tables.urls[Find(s.tx.tables.urls, other).value];
        row in rm.s.tx.tables.urls
  {
  }

  /** Each `getURLnID` of an existing name counts exactly one hit on that row. */
  lemma LookupCountsHit(s: Session, name: string)
    requires GetURLnID(s, name).result.Success?
    ensures var g := GetURLnID(s, name);
      var i := Find(s.tx.tables.urls, name).value;
      && Find(g.s.tx.tables.urls, name) == Some(i)
      && g.s.tx.tables.urls[i].hits == s.tx.tables.urls[i].hits + 1
  {
    var g := GetURLnID(s, name);
    var i := Find(s.tx.tables.urls, name).value;
    forall j | 0 <= j < i ensures g.s.tx.tables.urls[j].name != name {
      assert g.s.tx.tables.urls[j] == s.tx.tables.urls[j];
    }
  }

  /** A user who owns nothing gets an empty list, not an error. */
  lemma UrlsForUserEmpty(s: Session, user: string)
    requires s.tx.status == Open
    requires forall row :: row in s.tx.tables.urls ==> row.user != user
    ensures UrlsForUser(s, user).result == Success([])
  {
  }

  /** The decimal hit count of a listing reads back as the row's counter. */
  lemma ListingHitsRoundTrip(rows: seq<UrlRow>, i: int)
    requires 0 <= i < |rows|
    ensures var l := Listings(rows)[i];
      && l.name == rows[i].name && l.url == rows[i].url
      && Strconv.ParseInt(l.hits) == rows[i].hits
  {
    Strconv.ItoaRoundTrip(rows[i].hits);
  }
}
