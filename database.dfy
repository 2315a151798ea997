/** The `user_tables` store behind database.Service, with each SQL statement given its plain
    meaning over an in-memory sequence of rows. Errors raised by the driver (lost connection,
    failed scan) are not modelled as state: each operation takes them as `fault`. */
module Database {
  import opened Wrappers
  import opened Text

  /** One row of user_tables: (user_id, table_id, table_name, public). */
  datatype Row = Row(userId: string, tableId: string, tableName: string, isPublic: bool)

  /** database.UserTable: the columns a SELECT returns. */
  datatype UserTable = UserTable(tableId: string, tableName: string, isPublic: bool)

  function Project(r: Row): UserTable
  {
    UserTable(r.tableId, r.tableName, r.isPublic)
  }

  /** Table ids are UUIDs issued by INSERT, so no two rows share one. */
  ghost predicate UniqueIds(rows: seq<Row>)
  {
    forall i, j :: 0 <= i < j < |rows| ==> rows[i].tableId != rows[j].tableId
  }

  predicate IdUnused(rows: seq<Row>, id: string)
  {
    forall i :: 0 <= i < |rows| ==> rows[i].tableId != id
  }

  // ---------------------------------------------------------------------------
  // SELECT table_id, table_name, public FROM user_tables WHERE user_id = $1 ORDER BY table_name

  /** WHERE user_id = u, in storage order. */
  function OwnedBy(rows: seq<Row>, u: string): seq<Row>
  {
    if rows == [] then []
    else (if rows[0].userId == u then [rows[0]] else []) + OwnedBy(rows[1..], u)
  }

  /** The filter keeps each of u's rows with its multiplicity and drops every other row. */
  lemma {:induction false} OwnedByCount(rows: seq<Row>, u: string)
    ensures forall x :: multiset(OwnedBy(rows, u))[x] == if x.userId == u then multiset(rows)[x] else 0
  {
    if rows != [] {
      OwnedByCount(rows[1..], u);
      assert rows == [rows[0]] + rows[1..];
    }
  }

  /** Places `x` before the first element whose name is not smaller, so equal names keep
      their storage order. */
  function InsertByName(x: Row, s: seq<Row>): seq<Row>
  {
    if s == [] then [x]
    else if LexLe(x.tableName, s[0].tableName) then [x] + s
    else [s[0]] + InsertByName(x, s[1..])
  }

  /** Inserting adds exactly the one row. */
  lemma {:induction false} InsertByNameCount(x: Row, s: seq<Row>)
    ensures multiset(InsertByName(x, s)) == multiset(s) + multiset{x}
  {
    if s != [] && !LexLe(x.tableName, s[0].tableName) {
      InsertByNameCount(x, s[1..]);
      assert s == [s[0]] + s[1..];
    }
  }

  /** ORDER BY table_name, names compared code point by code point. */
  function SortByName(s: seq<Row>): seq<Row>
  {
    if s == [] then [] else InsertByName(s[0], SortByName(s[1..]))
  }

  /** Sorting returns a permutation of its input. */
  lemma {:induction false} SortByNameCount(s: seq<Row>)
    ensures multiset(SortByName(s)) == multiset(s)
  {
    if s != [] {
      SortByNameCount(s[1..]);
      InsertByNameCount(s[0], SortByName(s[1..]));
      assert s == [s[0]] + s[1..];
    }
  }

  ghost predicate SortedByName(s: seq<Row>)
  {
    forall i, j :: 0 <= i < j < |s| ==> LexLe(s[i].tableName, s[j].tableName)
  }

  lemma {:induction false} InsertKeepsSorted(x: Row, s: seq<Row>)
    requires SortedByName(s)
    ensures SortedByName(InsertByName(x, s))
  {
    if s == [] {
    } else if LexLe(x.tableName, s[0].tableName) {
      forall j | 0 <= j < |s| ensures LexLe(x.tableName, s[j].tableName) {
        if j > 0 { LexTrans(x.tableName, s[0].tableName, s[j].tableName); }
      }
    } else {
      var t := InsertByName(x, s[1..]);
      InsertKeepsSorted(x, s[1..]);
      LexTotal(x.tableName, s[0].tableName);
      InsertBounded(x, s[1..], s[0].tableName);
      var r := [s[0]] + t;
      forall i, j | 0 <= i < j < |r| ensures LexLe(r[i].tableName, r[j].tableName) {
        if i == 0 { assert r[j] == t[j - 1]; } else { assert r[i] == t[i - 1] && r[j] == t[j - 1]; }
      }
    }
  }

  /** A name that bounds `x` and every row of `s` from below bounds the insertion result too. */
  lemma {:induction false} InsertBounded(x: Row, s: seq<Row>, lo: string)
    requires LexLe(lo, x.tableName)
    requires forall j :: 0 <= j < |s| ==> LexLe(lo, s[j].tableName)
    ensures forall j :: 0 <= j < |InsertByName(x, s)| ==> LexLe(lo, InsertByName(x, s)[j].tableName)
  {
    if s != [] && !LexLe(x.tableName, s[0].tableName) {
      InsertBounded(x, s[1..], lo);
      var t := InsertByName(x, s[1..]);
      assert InsertByName(x, s) == [s[0]] + t;
      forall j | 0 <= j < |t| ensures LexLe(lo, t[j].tableName) {
      }
    }
  }

  lemma {:induction false} SortIsSorted(s: seq<Row>)
    ensures SortedByName(SortByName(s))
  {
    if s != [] {
      SortIsSorted(s[1..]);
      InsertKeepsSorted(s[0], SortByName(s[1..]));
    }
  }

  /** The rows the query yields, in the order it yields them. */
  function Select(rows: seq<Row>, u: string): seq<Row>
  {
    SortByName(OwnedBy(rows, u))
  }

  /** The query returns exactly the user's rows (with multiplicity), sorted by name. */
  lemma SelectSpec(rows: seq<Row>, u: string)
    ensures SortedByName(Select(rows, u))
    ensures forall x :: multiset(Select(rows, u))[x] == if x.userId == u then multiset(rows)[x] else 0
  {
    SortIsSorted(OwnedBy(rows, u));
    SortByNameCount(OwnedBy(rows, u));
    OwnedByCount(rows, u);
  }

  /** Membership in the query's answer. */
  lemma SelectMember(rows: seq<Row>, u: string, x: Row)
    ensures x in Select(rows, u) <==> x in rows && x.userId == u
  {
    var s := Select(rows, u);
    SelectSpec(rows, u);
    assert multiset(s)[x] == if x.userId == u then multiset(rows)[x] else 0;
    assert x in s <==> x in multiset(s);
    assert x in rows <==> x in multiset(rows);
  }

  function ProjectAll(s: seq<Row>): (r: seq<UserTable>)
    ensures |r| == |s| && forall k :: 0 <= k < |s| ==> r[k] == Project(s[k])
  {
    if s == [] then [] else [Project(s[0])] + ProjectAll(s[1..])
  }

  /** ProjectAll is the only sequence that projects `s` element by element. */
  lemma ProjectAllPointwise(s: seq<Row>, t: seq<UserTable>)
    requires |t| == |s| && forall k :: 0 <= k < |s| ==> t[k] == Project(s[k])
    ensures t == ProjectAll(s)
  {
  }

  /** GetUserTables' answer: the selected rows projected to their columns. */
  function Listing(rows: seq<Row>, u: string): seq<UserTable>
  {
    ProjectAll(Select(rows, u))
  }

  /** A table is listed for `u` exactly when one of u's rows projects to it, and the listing is
      ordered by table name. */
  lemma ListingSpec(rows: seq<Row>, u: string)
    ensures forall a, b :: 0 <= a < b < |Listing(rows, u)| ==>
      LexLe(Listing(rows, u)[a].tableName, Listing(rows, u)[b].tableName)
    ensures forall t :: t in Listing(rows, u) <==>
      exists i :: 0 <= i < |rows| && rows[i].userId == u && Project(rows[i]) == t
  {
    var s := Select(rows, u);
    var l := Listing(rows, u);
    SortIsSorted(OwnedBy(rows, u));
    forall t | t in l ensures exists i :: 0 <= i < |rows| && rows[i].userId == u && Project(rows[i]) == t {
      var k :| 0 <= k < |l| && l[k] == t;
      assert s[k] in s;
      SelectMember(rows, u, s[k]);
      var i :| 0 <= i < |rows| && rows[i] == s[k];
    }
    forall t | exists i :: 0 <= i < |rows| && rows[i].userId == u && Project(rows[i]) == t ensures t in l {
      var i :| 0 <= i < |rows| && rows[i].userId == u && Project(rows[i]) == t;
      assert rows[i] in rows;
      SelectMember(rows, u, rows[i]);
      var k :| 0 <= k < |s| && s[k] == rows[i];
      assert l[k] == t;
    }
  }

  function GetUserTablesResult(rows: seq<Row>, u: string, fault: Option<string>): Result<seq<UserTable>>
  {
    if fault.Some? then Err("failed to query user tables: " + fault.value) else Ok(Listing(rows, u))
  }

  // ---------------------------------------------------------------------------
  // SELECT EXISTS (SELECT 1 FROM user_tables WHERE user_id = $1 AND table_name = $2)

  predicate HasTable(rows: seq<Row>, u: string, name: string)
  {
    exists i :: 0 <= i < |rows| && rows[i].userId == u && rows[i].tableName == name
  }

  /** The existence test agrees with the listing: some table in GetUserTables(u) has the name. */
  lemma HasTableIffListed(rows: seq<Row>, u: string, name: string)
    ensures HasTable(rows, u, name) <==>
      exists k :: 0 <= k < |Listing(rows, u)| && Listing(rows, u)[k].tableName == name
  {
    var l := Listing(rows, u);
    ListingSpec(rows, u);
    if HasTable(rows, u, name) {
      var i :| 0 <= i < |rows| && rows[i].userId == u && rows[i].tableName == name;
      assert Project(rows[i]) in l;
    }
    if exists k :: 0 <= k < |l| && l[k].tableName == name {
      var k :| 0 <= k < |l| && l[k].tableName == name;
      assert l[k] in l;
    }
  }

  // ---------------------------------------------------------------------------
  // SELECT table_id, table_name, public FROM user_tables WHERE table_id = $1

  /** The first row with the id (QueryRow scans only the first), or None for sql.ErrNoRows. */
  function LookupById(rows: seq<Row>, id: string): (t: Option<UserTable>)
    ensures t.None? <==> IdUnused(rows, id)
    ensures t.Some? ==> exists i :: 0 <= i < |rows| && rows[i].tableId == id && t.value == Project(rows[i])
    ensures UniqueIds(rows) ==> forall i :: 0 <= i < |rows| && rows[i].tableId == id ==> t == Some(Project(rows[i]))
  {
    if rows == [] then None
    else if rows[0].tableId == id then Some(Project(rows[0]))
    else
      var t := LookupById(rows[1..], id);
      assert t.Some? ==> exists i :: 1 <= i < |rows| && rows[i].tableId == id && t.value == Project(rows[i]);
      t
  }

  function GetTableByIdResult(rows: seq<Row>, id: string, fault: Option<string>): Result<Option<UserTable>>
  {
    if fault.Some? then Err("error getting table by ID: " + fault.value) else Ok(LookupById(rows, id))
  }

  // ---------------------------------------------------------------------------
  // UPDATE user_tables SET public = $1 WHERE table_id = $2

  function WithVisibility(r: Row, id: string, p: bool): Row
  {
    if r.tableId == id then r.(isPublic := p) else r
  }

  /** The table after the UPDATE: the `public` column of every row with the id set to p,
      nothing else changed. */
  function SetPublic(rows: seq<Row>, id: string, p: bool): (r: seq<Row>)
    ensures |r| == |rows|
    ensures forall i :: 0 <= i < |rows| ==> r[i].(isPublic := rows[i].isPublic) == rows[i]
    ensures forall i :: 0 <= i < |rows| && rows[i].tableId == id ==> r[i].isPublic == p
    ensures forall i :: 0 <= i < |rows| && rows[i].tableId != id ==> r[i] == rows[i]
  {
    if rows == [] then []
    else [WithVisibility(rows[0], id, p)] + SetPublic(rows[1..], id, p)
  }

  /** The UPDATE's rows-affected count. */
  function Affected(rows: seq<Row>, id: string): (n: nat)
    ensures n == 0 <==> IdUnused(rows, id)
  {
    if rows == [] then 0
    else (if rows[0].tableId == id then 1 else 0) + Affected(rows[1..], id)
  }

  /** Setting the same visibility twice is the same as setting it once. */
  lemma {:induction false} SetPublicIdempotent(rows: seq<Row>, id: string, p: bool)
    ensures SetPublic(SetPublic(rows, id, p), id, p) == SetPublic(rows, id, p)
  {
    if rows != [] {
      SetPublicIdempotent(rows[1..], id, p);
    }
  }

  /** An UPDATE that matches no row leaves the table as it was. */
  lemma SetPublicUnmatched(rows: seq<Row>, id: string, p: bool)
    requires Affected(rows, id) == 0
    ensures SetPublic(rows, id, p) == rows
  {
  }

  /** The UPDATE never touches a table id, so ids stay unique. */
  lemma SetPublicKeepsIds(rows: seq<Row>, id: string, p: bool)
    requires UniqueIds(rows)
    ensures UniqueIds(SetPublic(rows, id, p))
  {
    var r := SetPublic(rows, id, p);
    assert forall i :: 0 <= i < |rows| ==> r[i].tableId == rows[i].tableId;
  }

  // ---------------------------------------------------------------------------
  // INSERT INTO user_tables (user_id, table_id, table_name, public) VALUES (...) RETURNING table_id

  /** After the INSERT the new id finds the new row, and every other id finds what it found before. */
  lemma InsertThenLookup(rows: seq<Row>, row: Row, id: string)
    requires IdUnused(rows, row.tableId)
    ensures LookupById(rows + [row], row.tableId) == Some(Project(row))
    ensures id != row.tableId ==> LookupById(rows + [row], id) == LookupById(rows, id)
  {
    LookupAppend(rows, row, row.tableId);
    LookupAppend(rows, row, id);
  }

  lemma {:induction false} LookupAppend(rows: seq<Row>, row: Row, id: string)
    ensures LookupById(rows + [row], id) ==
      if LookupById(rows, id).Some? then LookupById(rows, id)
      else if row.tableId == id then Some(Project(row)) else None
  {
    if rows != [] {
      assert (rows + [row])[1..] == rows[1..] + [row];
      LookupAppend(rows[1..], row, id);
    }
  }

  /** After the INSERT the owner's listing holds the new table; other users' listings are as before. */
  lemma InsertThenListing(rows: seq<Row>, row: Row, u: string)
    ensures u == row.userId ==> Project(row) in Listing(rows + [row], u)
    ensures u != row.userId ==> Listing(rows + [row], u) == Listing(rows, u)
  {
    ListingSpec(rows + [row], u);
    assert (rows + [row])[|rows|] == row;
    if u != row.userId {
      OwnedByAppendOther(rows, row, u);
    }
  }

  lemma {:induction false} OwnedByAppendOther(rows: seq<Row>, row: Row, u: string)
    requires row.userId != u
    ensures OwnedBy(rows + [row], u) == OwnedBy(rows, u)
  {
    if rows == [] {
      assert OwnedBy([row], u) == [] + OwnedBy([], u);
    } else {
      assert (rows + [row])[1..] == rows[1..] + [row];
      OwnedByAppendOther(rows[1..], row, u);
    }
  }

  // ---------------------------------------------------------------------------
  // Health

  /** sql.DBStats, the pool statistics Health reads; WaitDuration is kept as its printed form. */
  datatype PoolStats = PoolStats(
    openConnections: int,
    inUse: int,
    idle: int,
    waitCount: int,
    waitDuration: string,
    maxIdleClosed: int,
    maxLifetimeClosed: int)

  const HealthyMessage := "It's healthy"
  const HeavyLoadMessage := "The database is experiencing heavy load."
  const WaitEventsMessage := "The database has a high number of wait events, indicating potential bottlenecks."
  const IdleClosedMessage := "Many idle connections are being closed, consider revising the connection pool settings."
  const LifetimeClosedMessage := "Many connections are being closed due to max lifetime, consider increasing max lifetime or revising the connection usage pattern."

  /** Go's int64(n)/2, which truncates toward zero. */
  function HalfOf(n: int): int
  {
    if n >= 0 then n / 2 else -((-n) / 2)
  }

  /** The health message by priority: the last threshold that is exceeded decides. */
  function HealthMessage(s: PoolStats): (m: string)
    ensures m == LifetimeClosedMessage <==> s.maxLifetimeClosed > HalfOf(s.openConnections)
    ensures m == IdleClosedMessage <==>
      s.maxLifetimeClosed <= HalfOf(s.openConnections) && s.maxIdleClosed > HalfOf(s.openConnections)
    ensures m == WaitEventsMessage <==>
      s.maxLifetimeClosed <= HalfOf(s.openConnections) && s.maxIdleClosed <= HalfOf(s.openConnections) &&
      s.waitCount > 1000
    ensures m == HeavyLoadMessage <==>
      s.maxLifetimeClosed <= HalfOf(s.openConnections) && s.maxIdleClosed <= HalfOf(s.openConnections) &&
      s.waitCount <= 1000 && s.openConnections > 40
    ensures m == HealthyMessage <==>
      s.maxLifetimeClosed <= HalfOf(s.openConnections) && s.maxIdleClosed <= HalfOf(s.openConnections) &&
      s.waitCount <= 1000 && s.openConnections <= 40
  {
    if s.maxLifetimeClosed > HalfOf(s.openConnections) then LifetimeClosedMessage
    else if s.maxIdleClosed > HalfOf(s.openConnections) then IdleClosedMessage
    else if s.waitCount > 1000 then WaitEventsMessage
    else if s.openConnections > 40 then HeavyLoadMessage
    else HealthyMessage
  }

  // ---------------------------------------------------------------------------

  /** database.service: the connection stands for the user_tables rows. */
  class Service {
    var rows: seq<Row>

    ghost predicate Valid()
      reads this
    {
      UniqueIds(rows)
    }

    constructor (stored: seq<Row>)
      requires UniqueIds(stored)
      ensures Valid() && rows == stored
    {
      rows := stored;
    }

    /** The part of Health after a successful ping: status "up", the pool statistics, and the
        message each threshold overwrites in turn. */
    method Health(pool: PoolStats) returns (stats: map<string, string>)
      ensures stats.Keys == {"status", "message", "open_connections", "in_use", "idle", "wait_count",
                             "wait_duration", "max_idle_closed", "max_lifetime_closed"}
      ensures stats["status"] == "up"
      ensures stats["message"] == HealthMessage(pool)
      ensures stats["open_connections"] == Itoa(pool.openConnections)
      ensures stats["in_use"] == Itoa(pool.inUse) && stats["idle"] == Itoa(pool.idle)
      ensures stats["wait_count"] == Itoa(pool.waitCount) && stats["wait_duration"] == pool.waitDuration
      ensures stats["max_idle_closed"] == Itoa(pool.maxIdleClosed)
      ensures stats["max_lifetime_closed"] == Itoa(pool.maxLifetimeClosed)
    {
      stats := map[];
      stats := stats["status" := "up"];
      stats := stats["message" := HealthyMessage];
      stats := stats["open_connections" := Itoa(pool.openConnections)];
      stats := stats["in_use" := Itoa(pool.inUse)];
      stats := stats["idle" := Itoa(pool.idle)];
      stats := stats["wait_count" := Itoa(pool.waitCount)];
      stats := stats["wait_duration" := pool.waitDuration];
      stats := stats["max_idle_closed" := Itoa(pool.maxIdleClosed)];
      stats := stats["max_lifetime_closed" := Itoa(pool.maxLifetimeClosed)];
      if pool.openConnections > 40 {
        stats := stats["message" := HeavyLoadMessage];
      }
      if pool.waitCount > 1000 {
        stats := stats["message" := WaitEventsMessage];
      }
      if pool.maxIdleClosed > HalfOf(pool.openConnections) {
        stats := stats["message" := IdleClosedMessage];
      }
      if pool.maxLifetimeClosed > HalfOf(pool.openConnections) {
        stats := stats["message" := LifetimeClosedMessage];
      }
    }

    /** INSERT of one row under the id uuid.New() produced, RETURNING that id. */
    method CreateUserTable(userId: string, tableName: string, isPublic: bool, newId: string, fault: Option<string>)
      returns (r: Result<string>)
      requires Valid() && IdUnused(rows, newId)
      modifies this
      ensures Valid()
      ensures fault.Some? ==> r == Err("failed to create user table: " + fault.value) && rows == old(rows)
      ensures fault.None? ==> r == Ok(newId) && rows == old(rows) + [Row(userId, newId, tableName, isPublic)]
    {
      if fault.Some? {
        return Err("failed to create user table: " + fault.value);
      }
      rows := rows + [Row(userId, newId, tableName, isPublic)];
      r := Ok(newId);
    }

    /** The rows.Next() loop appending each selected row to `tables`. */
    method GetUserTables(userId: string, fault: Option<string>) returns (r: Result<seq<UserTable>>)
      ensures r == GetUserTablesResult(rows, userId, fault)
    {
      if fault.Some? {
        return Err("failed to query user tables: " + fault.value);
      }
      var cursor := Select(rows, userId);
      var tables: seq<UserTable> := [];
      var i := 0;
      while i < |cursor|
        invariant 0 <= i <= |cursor|
        invariant |tables| == i
        invariant forall k :: 0 <= k < i ==> tables[k] == Project(cursor[k])
      {
        tables := tables + [Project(cursor[i])];
        i := i + 1;
      }
      ProjectAllPointwise(cursor, tables);
      r := Ok(tables);
    }

    method TableExists(userId: string, tableName: string, fault: Option<string>) returns (r: Result<bool>)
      ensures fault.Some? ==> r == Err("failed to check table existence: " + fault.value)
      ensures fault.None? ==> r.Ok? && (r.value <==>
        exists i :: 0 <= i < |rows| && rows[i].userId == userId && rows[i].tableName == tableName)
    {
      if fault.Some? {
        return Err("failed to check table existence: " + fault.value);
      }
      r := Ok(HasTable(rows, userId, tableName));
    }

    method GetTableByID(tableId: string, fault: Option<string>) returns (r: Result<Option<UserTable>>)
      ensures r == GetTableByIdResult(rows, tableId, fault)
    {
      if fault.Some? {
        return Err("error getting table by ID: " + fault.value);
      }
      r := Ok(LookupById(rows, tableId));
    }

    /** The UPDATE statement followed by RowsAffected: zero affected rows is the error
        "table not found". A driver error is returned as it is. */
    method UpdateTableVisibility(tableId: string, isPublic: bool, fault: Option<string>) returns (err: Option<string>)
      requires Valid()
      modifies this
      ensures Valid()
      ensures fault.Some? ==> err == fault && rows == old(rows)
      ensures fault.None? && IdUnused(old(rows), tableId) ==> err == Some("table not found") && rows == old(rows)
      ensures fault.None? && !IdUnused(old(rows), tableId) ==> err == None && rows == SetPublic(old(rows), tableId, isPublic)
    {
      if fault.Some? {
        return fault;
      }
      var affected := Affected(rows, tableId);
      if affected == 0 {
        SetPublicUnmatched(rows, tableId, isPublic);
      }
      SetPublicKeepsIds(rows, tableId, isPublic);
      rows := SetPublic(rows, tableId, isPublic);
      if affected == 0 {
        err := Some("table not found");
      } else {
        err := None;
      }
    }
  }

  /** The package-level `dbInstance` that New reuses. */
  class Globals {
    var dbInstance: Service?

    ghost predicate Valid()
      reads this, dbInstance
    {
      dbInstance != null ==> dbInstance.Valid()
    }

    constructor ()
      ensures Valid() && dbInstance == null
    {
      dbInstance := null;
    }

    /** New: the cached service when there is one, otherwise a service over the database's
        `stored` rows, which is cached for every later call. */
    method New(stored: seq<Row>) returns (s: Service)
      requires Valid() && UniqueIds(stored)
      modifies this
      ensures Valid() && dbInstance == s
      ensures old(dbInstance) != null ==> s == old(dbInstance) && unchanged(s)
      ensures old(dbInstance) == null ==> fresh(s) && s.rows == stored
    {
      if dbInstance != null {
        return dbInstance;
      }
      s := new Service(stored);
      dbInstance := s;
    }
  }
}
