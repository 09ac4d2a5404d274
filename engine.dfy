/** The module-level engine handles of src/shared/duckdb/client.ts: the
    lazily created database instance `db`, its connection `conn`, and the
    table `car_insurance` every load replaces. The engine's own work (bundle
    selection, the worker, Parquet decoding, SQL) is an outcome given as a
    parameter. */
module Engine {
  import opened Wrappers

  /** Identity of one database instance (and of the connection opened on it). */
  datatype Handle = Handle(id: nat)

  /** Outcome of each awaited stage of `initDuckDB`: choosing the bundle and
      starting the worker (before `db` is assigned), `instantiate` (after),
      and `connect`. */
  datatype InitSteps = InitSteps(prepare: Outcome, instantiate: Outcome, connect: Outcome)

  /** What the `car_insurance` table exposes to the session: its column names
      and its number of rows. */
  datatype Table = Table(columns: seq<string>, rowCount: nat)

  const DefaultFileName: string := "data.parquet"

  /** The runtime error raised by calling `query` on a null connection. */
  const NullConnectionError: Failure := ErrorValue("Cannot read properties of null (reading 'query')")

  // ---------------------------------------------------------------------
  // File name of a URL

  /** The part of `s` after its last `/` (all of `s` when it has none). */
  function LastSegment(s: string): (r: string)
    ensures |r| <= |s| && s[|s| - |r|..] == r
    ensures '/' !in r
    ensures |r| < |s| ==> s[|s| - |r| - 1] == '/'
  {
    if s == [] || s[|s| - 1] == '/' then []
    else
      var init := s[..|s| - 1];
      var r := LastSegment(init);
      assert s[|s| - |r| - 1..] == init[|init| - |r|..] + [s[|s| - 1]];
      r + [s[|s| - 1]]
  }

  /** The three properties of `LastSegment` determine it: no other suffix is
      free of `/` and either all of `s` or preceded by a `/`. */
  lemma LastSegmentUnique(s: string, r: string)
    requires |r| <= |s| && s[|s| - |r|..] == r
    requires '/' !in r
    requires |r| < |s| ==> s[|s| - |r| - 1] == '/'
    ensures r == LastSegment(s)
  {
    var l := LastSegment(s);
    if |r| < |l| {
      assert false;
    } else if |l| < |r| {
      assert false;
    }
  }

  /** `url.split('/').pop() || 'data.parquet'` */
  function FileNameFromUrl(url: string): (name: string)
    ensures name != []
    ensures LastSegment(url) != [] ==> name == LastSegment(url)
    ensures LastSegment(url) == [] ==> name == DefaultFileName
  {
    var last := LastSegment(url);
    if last == [] then DefaultFileName else last
  }

  /** The derived name never contains a `/`. */
  lemma FileNameHasNoSlash(url: string)
    ensures '/' !in FileNameFromUrl(url)
  {
    DefaultFileNameHasNoSlash();
  }

  lemma DefaultFileNameHasNoSlash()
    ensures '/' !in DefaultFileName
  {
  }

  // ---------------------------------------------------------------------
  // Row count

  /** `Number(result[0]?.count ?? 0)`; a null or absent count reads as 0. */
  function RowCountOf(rows: seq<Option<nat>>): (n: nat)
    ensures rows == [] || rows[0].None? ==> n == 0
    ensures rows != [] && rows[0].Some? ==> n == rows[0].value
  {
    if rows != [] && rows[0].Some? then rows[0].value else 0
  }

  // ---------------------------------------------------------------------
  // The handles

  class DuckDBClient {
    var db: Option<Handle>
    var conn: Option<Handle>
    /** Number of database instances constructed so far. */
    var created: nat
    /** Names registered with `registerFileBuffer` in the current instance. */
    var files: set<string>
    /** The `car_insurance` table of the current instance. */
    var table: Option<Table>

    ghost predicate Valid()
      reads this
    {
      && (conn.Some? ==> db.Some? && conn == db)
      && (db.Some? ==> db.value.id < created)
      && (db.None? ==> files == {} && table.None?)
    }

    constructor ()
      ensures Valid()
      ensures db.None? && conn.None? && created == 0 && files == {} && table.None?
    {
      db, conn, created, files, table := None, None, 0, {}, None;
    }

    /** `initDuckDB`: returns the existing instance untouched when there is
        one; otherwise constructs one (assigning `db` before instantiating
        it) and connects. A failure after `db` is assigned leaves `db` set
        and `conn` null. */
    method InitDuckDB(steps: InitSteps) returns (r: Result<Handle>)
      requires Valid()
      modifies this
      ensures Valid()
      ensures old(db).Some? ==> r == Success(old(db).value) && unchanged(this)
      ensures old(db).None? && steps.prepare.Fail? ==>
        r == Failed(steps.prepare.failure) && unchanged(this)
      ensures old(db).None? && steps.prepare.Pass? ==>
        && db == Some(Handle(old(created))) && created == old(created) + 1
        && files == {} && table.None?
        && (steps.instantiate.Fail? ==> r == Failed(steps.instantiate.failure) && conn.None?)
        && (steps.instantiate.Pass? && steps.connect.Fail? ==> r == Failed(steps.connect.failure) && conn.None?)
        && (steps.instantiate.Pass? && steps.connect.Pass? ==> r == Success(db.value) && conn == db)
      ensures r.Success? ==> db == Some(r.value)
    {
      if db.Some? {
        return Success(db.value);
      }
      if steps.prepare.Fail? {
        return Failed(steps.prepare.failure);
      }
      var h := Handle(created);
      db, created, files, table := Some(h), created + 1, {}, None;
      if steps.instantiate.Fail? {
        return Failed(steps.instantiate.failure);
      }
      if steps.connect.Fail? {
        return Failed(steps.connect.failure);
      }
      conn := Some(h);
      r := Success(h);
    }

    /** `getConnection`: initialises only when `conn` is null, and returns
        `conn` as it then is, which is still null when an instance existed
        without a connection. */
    method GetConnection(steps: InitSteps) returns (r: Result<Option<Handle>>)
      requires Valid()
      modifies this
      ensures Valid()
      ensures old(conn).Some? ==> r == Success(old(conn)) && unchanged(this)
      ensures old(conn).None? && old(db).Some? ==> r == Success(None) && unchanged(this)
      ensures old(db).None? ==>
        (r.Success? <==> steps.prepare.Pass? && steps.instantiate.Pass? && steps.connect.Pass?)
      ensures old(db).None? && steps.prepare.Fail? ==>
        r == Failed(steps.prepare.failure) && unchanged(this)
      ensures old(db).None? && steps.prepare.Pass? ==>
        && db == Some(Handle(old(created))) && created == old(created) + 1
        && files == {} && table.None?
        && (steps.instantiate.Fail? ==> r == Failed(steps.instantiate.failure) && conn.None?)
        && (steps.instantiate.Pass? && steps.connect.Fail? ==> r == Failed(steps.connect.failure) && conn.None?)
        && (steps.instantiate.Pass? && steps.connect.Pass? ==> r == Success(db) && conn == db)
      ensures r.Success? ==> r.value == conn
      ensures r.Success? ==> (r.value.Some? <==> old(conn).Some? || old(db).None?)
      ensures r.Success? ==> db.Some?
    {
      if conn.None? {
        var init := InitDuckDB(steps);
        if init.Failed? {
          return Failed(init.failure);
        }
      }
      r := Success(conn);
    }

    /** The whole new state after loading the bytes named `fileName`, case by
        case. With no instance, the engine is started as `InitDuckDB` does and
        a failing stage ends the load with that stage's failure. Once a
        connection exists (kept or just made), a failed read changes nothing
        more, a successful read registers `fileName`, and the table is
        replaced exactly when the engine parses the file. With an instance
        but no connection, the read still happens and registers the name,
        and the query then fails on the null connection. */
    twostate predicate LoadedFrom(steps: InitSteps, fileName: string, read: Outcome, parsed: Result<Table>, r: Outcome)
      reads this
    {
      var connected := old(conn).Some? || (old(db).None? && steps.prepare.Pass? && steps.instantiate.Pass? && steps.connect.Pass?);
      var files0 := if old(db).Some? then old(files) else {};
      var table0 := if old(db).Some? then old(table) else None;
      && (old(db).Some? ==> db == old(db) && conn == old(conn) && created == old(created))
      && (old(db).None? && steps.prepare.Fail? ==> r == Fail(steps.prepare.failure) && unchanged(this))
      && (old(db).None? && steps.prepare.Pass? ==>
            && db == Some(Handle(old(created))) && created == old(created) + 1
            && (steps.instantiate.Fail? ==> r == Fail(steps.instantiate.failure) && conn.None? && files == {} && table.None?)
            && (steps.instantiate.Pass? && steps.connect.Fail? ==>
                  r == Fail(steps.connect.failure) && conn.None? && files == {} && table.None?))
      && (connected ==>
            && conn == db
            && r == (if read.Fail? then read else if parsed.Failed? then Fail(parsed.failure) else Pass)
            && files == (if read.Pass? then files0 + {fileName} else files0)
            && table == (if r.Pass? then Some(parsed.value) else table0))
      && (old(conn).None? && old(db).Some? ==>
            && r == (if read.Fail? then read else Fail(NullConnectionError))
            && files == (if read.Pass? then old(files) + {fileName} else old(files))
            && table == old(table))
    }

    /** `loadParquetFile` / `loadParquetFromURL` after the bytes are named:
        get a connection, read the bytes (`read`), register them under
        `fileName`, and `CREATE OR REPLACE` the table from them (`parsed`).
        On success the table is exactly the new one, whatever was there. */
    method LoadParquet(steps: InitSteps, fileName: string, read: Outcome, parsed: Result<Table>)
      returns (r: Outcome)
      requires Valid()
      modifies this
      ensures Valid()
      ensures r.Pass? ==> parsed.Success? && table == Some(parsed.value) && fileName in files
      ensures r.Pass? <==>
        && (old(conn).Some? || (old(db).None? && steps.prepare.Pass? && steps.instantiate.Pass? && steps.connect.Pass?))
        && read.Pass? && parsed.Success?
      ensures old(conn).Some? ==> db == old(db) && conn == old(conn) && created == old(created)
      ensures old(conn).Some? && r.Fail? ==> table == old(table)
      ensures old(conn).None? && old(db).Some? ==>
        r == (if read.Fail? then read else Fail(NullConnectionError)) && table == old(table)
      ensures LoadedFrom(steps, fileName, read, parsed, r)
    {
      var connection := GetConnection(steps);
      if connection.Failed? {
        return Fail(connection.failure);
      }
      if read.Fail? {
        return read;
      }
      files := files + {fileName};
      if connection.value.None? {
        return Fail(NullConnectionError);
      }
      if parsed.Failed? {
        return Fail(parsed.failure);
      }
      table := Some(parsed.value);
      r := Pass;
    }

    /** `loadParquetFile(file)`: the bytes are registered under the file's name. */
    method LoadParquetFile(steps: InitSteps, fileName: string, read: Outcome, parsed: Result<Table>)
      returns (r: Outcome)
      requires Valid()
      modifies this
      ensures Valid()
      ensures r.Pass? ==> parsed.Success? && table == Some(parsed.value) && fileName in files
      ensures r.Pass? <==>
        && (old(conn).Some? || (old(db).None? && steps.prepare.Pass? && steps.instantiate.Pass? && steps.connect.Pass?))
        && read.Pass? && parsed.Success?
      ensures LoadedFrom(steps, fileName, read, parsed, r)
    {
      r := LoadParquet(steps, fileName, read, parsed);
    }

    /** `loadParquetFromURL(url)`: the bytes are fetched (`read`) and registered
        under the URL's last path segment, or `data.parquet`. */
    method LoadParquetFromURL(steps: InitSteps, url: string, read: Outcome, parsed: Result<Table>)
      returns (r: Outcome)
      requires Valid()
      modifies this
      ensures Valid()
      ensures r.Pass? ==> parsed.Success? && table == Some(parsed.value) && FileNameFromUrl(url) in files
      ensures r.Pass? <==>
        && (old(conn).Some? || (old(db).None? && steps.prepare.Pass? && steps.instantiate.Pass? && steps.connect.Pass?))
        && read.Pass? && parsed.Success?
      ensures LoadedFrom(steps, FileNameFromUrl(url), read, parsed, r)
    {
      r := LoadParquet(steps, FileNameFromUrl(url), read, parsed);
    }

    /** `closeDB`: closes the connection if any, terminates the instance if
        any; both handles end null, also when there was nothing to close. */
    method CloseDB()
      requires Valid()
      modifies this
      ensures Valid()
      ensures db.None? && conn.None? && files == {} && table.None?
      ensures created == old(created)
      ensures old(db).None? ==> unchanged(this)
    {
      if conn.Some? {
        conn := None;
      }
      if db.Some? {
        db, files, table := None, {}, None;
      }
    }
  }

  /** A failed `connect` leaves an instance without a connection; from then
      on `initDuckDB` returns early and `getConnection` yields null however
      the engine would now behave, and a later load fails on the null
      connection. */
  method StuckAfterFailedConnect(failure: Failure, later: InitSteps, t: Table)
    returns (first: Result<Handle>, again: Result<Handle>, connection: Result<Option<Handle>>, load: Outcome)
    ensures first == Failed(failure) && again.Success?
    ensures connection == Success(None)
    ensures load == Fail(NullConnectionError)
  {
    var client := new DuckDBClient();
    first := client.InitDuckDB(InitSteps(Pass, Pass, Fail(failure)));
    again := client.InitDuckDB(later);
    connection := client.GetConnection(later);
    load := client.LoadParquet(later, "a.parquet", Pass, Success(t));
  }

  /** The first load's own start of the engine can leave it stuck too: when
      its `connect` fails the load fails with that failure, the instance
      stays without a connection, and the next load, however the engine
      would now behave, reads its bytes and fails on the null connection. */
  method StuckAfterFailedFirstLoad(failure: Failure, later: InitSteps, t: Table)
    returns (first: Outcome, second: Outcome, stuck: bool)
    ensures first == Fail(failure)
    ensures second == Fail(NullConnectionError)
    ensures stuck
  {
    var client := new DuckDBClient();
    first := client.LoadParquetFile(InitSteps(Pass, Pass, Fail(failure)), "a.parquet", Pass, Success(t));
    stuck := client.db.Some? && client.conn.None?;
    second := client.LoadParquetFile(later, "a.parquet", Pass, Success(t));
  }

  /** A load that fails after an earlier successful one keeps the earlier
      table and still holds the earlier file's registration. */
  method FailedReloadKeepsTable(t: Table, failure: Failure)
    returns (first: Outcome, second: Outcome, kept: Option<Table>, names: set<string>)
    ensures first == Pass && second == Fail(failure)
    ensures kept == Some(t)
    ensures names == {"a.parquet", "b.parquet"}
  {
    var client := new DuckDBClient();
    first := client.LoadParquetFile(InitSteps(Pass, Pass, Pass), "a.parquet", Pass, Success(t));
    second := client.LoadParquetFromURL(InitSteps(Pass, Pass, Pass), "/data/b.parquet", Pass, Failed(failure));
    kept, names := client.table, client.files;
  }

  /** A start that fails before the instance is created (bundle selection or
      worker creation) leaves both handles null, so the next load starts the
      engine afresh and can succeed, unlike after a failed instantiate or
      connect (`StuckAfterFailedConnect`). */
  method RetryAfterFailedPrepare(failure: Failure, t: Table)
    returns (first: Result<Handle>, load: Outcome)
    ensures first == Failed(failure)
    ensures load == Pass
  {
    var client := new DuckDBClient();
    first := client.InitDuckDB(InitSteps(Fail(failure), Pass, Pass));
    load := client.LoadParquet(InitSteps(Pass, Pass, Pass), "a.parquet", Pass, Success(t));
  }
}
