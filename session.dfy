/** The data session of src/shared/duckdb/context.tsx: six state fields
    updated in sequence by `initialize`, `loadFile` and `loadFromURL`, and
    the "Data not loaded" guard on `query` and `getDistinct`. Each engine
    call is an outcome given as a parameter. */
module Session {
  import opened Wrappers

  const InitFailedMessage: string := "Failed to initialize DuckDB"
  const LoadFileFailedMessage: string := "Failed to load file"
  const LoadUrlFailedMessage: string := "Failed to load file from URL"
  const DataNotLoaded: Failure := ErrorValue("Data not loaded")

  /** What a successful load reads back from the fresh table: its column
      names and its row count. */
  datatype TableInfo = TableInfo(columns: seq<string>, rowCount: nat)

  class DataSession {
    var isInitialized: bool
    var isLoading: bool
    var isLoaded: bool
    var error: Option<string>
    var columns: seq<string>
    var rowCount: int

    /** Columns and row count are only ever set together with `isLoaded`. */
    ghost predicate Valid()
      reads this
    {
      rowCount >= 0 && (!isLoaded ==> columns == [] && rowCount == 0)
    }

    constructor ()
      ensures Valid()
      ensures !isInitialized && !isLoading && !isLoaded && error.None?
      ensures columns == [] && rowCount == 0
    {
      isInitialized, isLoading, isLoaded := false, false, false;
      error, columns, rowCount := None, [], 0;
    }

    /** `initialize`: a no-op once initialised; otherwise a successful engine
        start sets `isInitialized` and a failed one records its message and
        leaves `isInitialized` false. It never fails itself. */
    method Initialize(init: Outcome)
      requires Valid()
      modifies this
      ensures Valid()
      ensures old(isInitialized) ==> unchanged(this)
      ensures !old(isInitialized) && init.Pass? ==> isInitialized && error == old(error)
      ensures !old(isInitialized) && init.Fail? ==>
        !isInitialized && error == Some(MessageOr(init.failure, InitFailedMessage))
      ensures isLoading == old(isLoading) && isLoaded == old(isLoaded)
      ensures columns == old(columns) && rowCount == old(rowCount)
    {
      if isInitialized {
        return;
      }
      match init
      case Pass => isInitialized := true;
      case Fail(f) => error := Some(MessageOr(f, InitFailedMessage));
    }

    /** The entry of a load: loading, and no error. */
    method BeginLoad()
      requires Valid()
      modifies this
      ensures Valid()
      ensures isLoading && error.None?
      ensures isInitialized == old(isInitialized) && isLoaded == old(isLoaded)
      ensures columns == old(columns) && rowCount == old(rowCount)
    {
      isLoading := true;
      error := None;
    }

    /** The rest of a load after `initialize`: success installs the fresh
        table's metadata and marks the data loaded; failure records only the
        error; either way loading ends. */
    method FinishLoad(load: Result<TableInfo>, fallback: string)
      requires Valid()
      modifies this
      ensures Valid()
      ensures !isLoading && isInitialized == old(isInitialized)
      ensures load.Success? ==>
        && isLoaded && columns == load.value.columns && rowCount == load.value.rowCount
        && error == old(error)
      ensures load.Failed? ==>
        && isLoaded == old(isLoaded) && columns == old(columns) && rowCount == old(rowCount)
        && error == Some(MessageOr(load.failure, fallback))
    {
      if load.Success? {
        columns := load.value.columns;
        rowCount := load.value.rowCount;
        isLoaded := true;
      } else {
        error := Some(MessageOr(load.failure, fallback));
      }
      isLoading := false;
    }

    /** The body shared by `loadFile` and `loadFromURL`. `init` is the outcome
        of the engine start inside `initialize`; `load` that of loading the
        bytes and reading back the metadata. A failed `initialize` does not
        stop the load: its message stays unless the load then fails. */
    method Load(init: Outcome, load: Result<TableInfo>, fallback: string)
      requires Valid()
      modifies this
      ensures Valid()
      ensures !isLoading
      ensures old(isLoaded) ==> isLoaded
      ensures isInitialized == (old(isInitialized) || init.Pass?)
      ensures load.Success? ==>
        && isLoaded && columns == load.value.columns && rowCount == load.value.rowCount
        && error == (if !old(isInitialized) && init.Fail? then Some(MessageOr(init.failure, InitFailedMessage)) else None)
      ensures load.Failed? ==>
        && isLoaded == old(isLoaded) && columns == old(columns) && rowCount == old(rowCount)
        && error == Some(MessageOr(load.failure, fallback))
    {
      BeginLoad();
      Initialize(init);
      FinishLoad(load, fallback);
    }

    /** `loadFile` */
    method LoadFile(init: Outcome, load: Result<TableInfo>)
      requires Valid()
      modifies this
      ensures Valid()
      ensures !isLoading && (old(isLoaded) ==> isLoaded)
      ensures isInitialized == (old(isInitialized) || init.Pass?)
      ensures load.Success? ==>
        && isLoaded && columns == load.value.columns && rowCount == load.value.rowCount
        && error == (if !old(isInitialized) && init.Fail? then Some(MessageOr(init.failure, InitFailedMessage)) else None)
      ensures load.Failed? ==>
        && isLoaded == old(isLoaded) && columns == old(columns) && rowCount == old(rowCount)
        && error == Some(MessageOr(load.failure, LoadFileFailedMessage))
    {
      Load(init, load, LoadFileFailedMessage);
    }

    /** `loadFromURL` */
    method LoadFromURL(url: string, init: Outcome, load: Result<TableInfo>)
      requires Valid()
      modifies this
      ensures Valid()
      ensures !isLoading && (old(isLoaded) ==> isLoaded)
      ensures isInitialized == (old(isInitialized) || init.Pass?)
      ensures load.Success? ==>
        && isLoaded && columns == load.value.columns && rowCount == load.value.rowCount
        && error == (if !old(isInitialized) && init.Fail? then Some(MessageOr(init.failure, InitFailedMessage)) else None)
      ensures load.Failed? ==>
        && isLoaded == old(isLoaded) && columns == old(columns) && rowCount == old(rowCount)
        && error == Some(MessageOr(load.failure, LoadUrlFailedMessage))
    {
      Load(init, load, LoadUrlFailedMessage);
    }

    /** `query`: refused before the data is loaded, otherwise the engine's
        answer. Reading the session changes nothing. */
    function Query<T>(answer: Result<seq<T>>): (r: Result<seq<T>>)
      reads this
      ensures !isLoaded ==> r == Failed(DataNotLoaded)
      ensures isLoaded ==> r == answer
    {
      if !isLoaded then Failed(DataNotLoaded) else answer
    }

    /** `getDistinct`: the same guard in front of the distinct-values query. */
    function GetDistinct(column: string, answer: Result<seq<string>>): (r: Result<seq<string>>)
      reads this
      ensures !isLoaded ==> r == Failed(DataNotLoaded)
      ensures isLoaded ==> r == answer
    {
      Query(answer)
    }
  }

  /** A session whose engine start fails but whose load then succeeds ends
      loaded, not initialised, and still showing the start-up error. The
      load can succeed only when the start failed before the instance was
      created and the client's own second start succeeds
      (`Engine.RetryAfterFailedPrepare`); after a failed instantiate or
      connect every load fails (`Engine.StuckAfterFailedConnect`). */
  method LoadedDespiteFailedInitialize(failure: Failure, info: TableInfo)
    returns (isInitialized: bool, isLoaded: bool, error: Option<string>)
    ensures !isInitialized && isLoaded
    ensures error == Some(MessageOr(failure, InitFailedMessage))
  {
    var s := new DataSession();
    s.LoadFile(Fail(failure), Success(info));
    isInitialized, isLoaded, error := s.isInitialized, s.isLoaded, s.error;
  }

  /** Loading a second table replaces the first one's metadata entirely. */
  method SecondLoadReplaces(a: TableInfo, b: TableInfo) returns (columns: seq<string>, rowCount: int)
    ensures columns == b.columns && rowCount == b.rowCount
  {
    var s := new DataSession();
    s.LoadFile(Pass, Success(a));
    s.LoadFromURL("/data.parquet", Pass, Success(b));
    columns, rowCount := s.columns, s.rowCount;
  }
}
