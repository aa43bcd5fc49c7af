/**
 * lambda_handler (lambda_function.py:74-107) and the two engine calls it makes through
 * create_table (lambda_function.py:24-32) and run_query (lambda_function.py:35-46).
 *
 * The handler runs in an Environment: the function's filesystem, seen as its set of
 * directories, the tables of its engine connection, and logs of what it asked of the
 * outside world (makedirs calls, bucket listings, download calls, engine connections and
 * the statements the engine received). What
 * the object store and the engine answer is given by a Store and an Engine value.
 */
module Handler {
  import opened Wrappers
  import opened PosixPath
  import opened Records
  import opened Downloads

  const InvalidInputMessage: string := "Invalid input: 'datasets' and 'query' are required"
  const DownloadErrorMessage: string := "Files have not been downloaded"

  /** One entry of event["datasets"]; a key missing from the entry is None. */
  datatype Dataset = Dataset(bucket: Option<string>, prefix: Option<string>)

  /** The invocation event; a key missing from the event is None. */
  datatype Event = Event(datasets: Option<seq<Dataset>>, query: Option<string>)

  /**
   * A value in a fetched row. Unserialisable stands for a Python value json.dumps has no
   * encoding for, such as a datetime.date or a Decimal; it carries the value's type name.
   */
  datatype Value = Null | Boolean(b: bool) | Integer(i: int) | Text(s: string) | Unserialisable(typeName: string)

  /**
   * The dict the handler returns: {"result": json.dumps(rows)} or {"error": message}.
   * The rows stand for their JSON text.
   */
  datatype Response = ResultResponse(result: seq<Record<Value>>) | ErrorResponse(error: string)

  /** How an invocation ends: with a response, or with an exception escaping the handler. */
  datatype Outcome = Returned(response: Response) | Raised(exception: Exception)

  /** What the engine is asked: a CREATE TABLE (its table name and read_parquet pattern), or the caller's SQL. */
  datatype EngineCall = CreateTable(table: string, glob: string) | RunSql(sql: string)

  /** The engine's answer to the caller's query: a result set, or an error. */
  datatype QueryAnswer = Rows(columns: seq<string>, rows: seq<seq<Value>>) | Rejected(message: string)

  /** The engine's behaviour: the tables whose creation it rejects (with the error message), and its answer to the query. */
  datatype Engine = Engine(rejectedTables: map<string, string>, answer: QueryAnswer)

  /**
   * The observable state of the environment: the directories, the os.makedirs calls, the
   * buckets listed, the downloads submitted, the connections opened, the tables of the
   * open connection and the statements the engine received.
   */
  datatype World = World(
    dirs: set<string>,
    makedirs: seq<string>,
    listed: seq<string>,
    downloads: seq<DownloadTask>,
    connections: nat,
    tables: set<string>,
    engine: seq<EngineCall>)

  /** The state after one step of the dataset loop: carry on, or leave the handler. */
  datatype Progress = Next(world: World) | Done(outcome: Outcome, world: World)

  /** The statement create_table(conn, prefix) issues. */
  function TableCall(prefix: string): EngineCall
  {
    CreateTable(prefix, TableGlob(prefix))
  }

  /** The error the engine raises for a CREATE TABLE of a table the connection already has. */
  function TableExistsMessage(table: string): string
  {
    "Catalog Error: Table with name \"" + table + "\" already exists!"
  }

  /** The type name of the first value json.dumps cannot encode in a dict, in entry order. */
  function FirstUnserialisableEntry(r: Record<Value>): Option<string>
  {
    if r == [] then None
    else if r[0].value.Unserialisable? then Some(r[0].value.typeName)
    else FirstUnserialisableEntry(r[1..])
  }

  /** The type name of the first value json.dumps cannot encode in a list of dicts, in row order. */
  function FirstUnserialisable(rows: seq<Record<Value>>): Option<string>
  {
    if rows == [] then None
    else if FirstUnserialisableEntry(rows[0]).Some? then FirstUnserialisableEntry(rows[0])
    else FirstUnserialisable(rows[1..])
  }

  /**
   * json.dumps(rows): the rows, standing for their JSON text, or the TypeError for the first
   * value it cannot encode.
   */
  function JsonDumps(rows: seq<Record<Value>>): Result<seq<Record<Value>>, Exception>
  {
    match FirstUnserialisable(rows)
    case Some(typeName) => Failure(TypeError(typeName))
    case None => Success(rows)
  }

  /** Every value of every row has a JSON encoding. */
  ghost predicate Serialisable(rows: seq<Record<Value>>)
  {
    forall k, j :: 0 <= k < |rows| && 0 <= j < |rows[k]| ==> !rows[k][j].value.Unserialisable?
  }

  /** What run_query returns, or the exception it raises, for the engine's answer. */
  function QueryResult(engine: Engine): Result<seq<Record<Value>>, Exception>
  {
    match engine.answer
    case Rejected(message) => Failure(EngineError(message))
    case Rows(columns, rows) => Normalise(columns, rows)
  }

  /** How the handler ends once every table is created: {"result": json.dumps(run_query(conn, query))}, or the exception either raises. */
  function QueryOutcome(engine: Engine): Outcome
  {
    match QueryResult(engine)
    case Failure(e) => Raised(e)
    case Success(rows) =>
      match JsonDumps(rows)
      case Failure(e) => Raised(e)
      case Success(text) => Returned(ResultResponse(text))
  }

  /** One iteration of the dataset loop (lambda_function.py:87-104). */
  ghost function Step(d: Dataset, store: Store, engine: Engine, w: World): Progress
  {
    if d.bucket.None? then Done(Raised(KeyError("bucket")), w)
    else if d.prefix.None? then Done(Raised(KeyError("prefix")), w)
    else
      var bucket, prefix := d.bucket.value, d.prefix.value;
      var path := DownloadPath(prefix);
      var made := if path in w.dirs then w else w.(dirs := w.dirs + {path}, makedirs := w.makedirs + [path]);
      var staged := made.(listed := made.listed + [bucket]);
      if bucket !in store.objects then Done(Raised(NoSuchBucket(bucket)), staged)
      else
        var tasks := Planned(bucket, prefix, store.objects[bucket]);
        var submitted := staged.(downloads := staged.downloads + tasks);
        match ExecuteFutures(Futures(store, tasks))
        case Failure(e) => Done(Raised(e), submitted)
        case Success(false) => Done(Returned(ErrorResponse(DownloadErrorMessage)), submitted)
        case Success(true) =>
          var created := submitted.(engine := submitted.engine + [TableCall(prefix)]);
          if prefix in w.tables then Done(Raised(EngineError(TableExistsMessage(prefix))), created)
          else if prefix in engine.rejectedTables then Done(Raised(EngineError(engine.rejectedTables[prefix])), created)
          else Next(created.(tables := created.tables + {prefix}))
  }

  /** The dataset loop, in dataset order, leaving at the first dataset that does not load. */
  ghost function Process(ds: seq<Dataset>, store: Store, engine: Engine, w: World): Progress
    decreases |ds|
  {
    if ds == [] then Next(w)
    else match Step(ds[0], store, engine, w)
      case Done(o, w1) => Done(o, w1)
      case Next(w1) => Process(ds[1..], store, engine, w1)
  }

  /** lambda_handler(event, context) as a function of the event and the state it starts in. */
  ghost function Handle(ev: Event, store: Store, engine: Engine, w: World): (Outcome, World)
  {
    if ev.datasets.None? || ev.query.None? then (Returned(ErrorResponse(InvalidInputMessage)), w)
    else
      var connected := w.(connections := w.connections + 1, tables := {});
      match Process(ev.datasets.value, store, engine, connected)
      case Done(o, w1) => (o, w1)
      case Next(w1) =>
        (QueryOutcome(engine), w1.(engine := w1.engine + [RunSql(ev.query.value)]))
  }

  /** The dataset has both keys and names a bucket the store has, so its batch is submitted. */
  ghost predicate Listable(d: Dataset, store: Store)
  {
    d.bucket.Some? && d.prefix.Some? && d.bucket.value in store.objects
  }

  /** The downloads submitted for a dataset. */
  ghost function Batch(d: Dataset, store: Store): seq<DownloadTask>
    requires Listable(d, store)
  {
    Planned(d.bucket.value, d.prefix.value, store.objects[d.bucket.value])
  }

  /** The value execute_futures computes for the dataset's batch. */
  ghost function Verdict(d: Dataset, store: Store): Result<bool, Exception>
    requires Listable(d, store)
  {
    ExecuteFutures(Futures(store, Batch(d, store)))
  }

  /**
   * The dataset's table gets created on a connection that has the given tables: its batch
   * verdict is True, the connection has no table of that name and the engine accepts the
   * CREATE TABLE.
   */
  ghost predicate Loads(d: Dataset, store: Store, engine: Engine, tables: set<string>)
  {
    Listable(d, store) && Verdict(d, store) == Success(true)
    && d.prefix.value !in tables && d.prefix.value !in engine.rejectedTables
  }

  /** Every dataset loads on a connection with the given tables, and no two datasets name the same table. */
  ghost predicate AllLoad(ds: seq<Dataset>, store: Store, engine: Engine, tables: set<string>)
  {
    && (forall i :: 0 <= i < |ds| ==> Loads(ds[i], store, engine, tables))
    && (forall i, j :: 0 <= i < j < |ds| ==> ds[i].prefix != ds[j].prefix)
  }

  /** The CREATE TABLE statements for the datasets, in dataset order. */
  ghost function TableCalls(ds: seq<Dataset>): seq<EngineCall>
    requires forall i :: 0 <= i < |ds| ==> ds[i].prefix.Some?
  {
    if ds == [] then [] else [TableCall(ds[0].prefix.value)] + TableCalls(ds[1..])
  }

  /** The tables the datasets name. */
  ghost function TableNames(ds: seq<Dataset>): set<string>
    requires forall i :: 0 <= i < |ds| ==> ds[i].prefix.Some?
  {
    if ds == [] then {} else {ds[0].prefix.value} + TableNames(ds[1..])
  }

  /** The loop loads a non-empty list exactly when its first dataset loads and the rest load on the connection that now has its table. */
  lemma AllLoadUncons(ds: seq<Dataset>, store: Store, engine: Engine, tables: set<string>)
    requires ds != [] && ds[0].prefix.Some?
    ensures AllLoad(ds, store, engine, tables) <==>
      Loads(ds[0], store, engine, tables) && AllLoad(ds[1..], store, engine, tables + {ds[0].prefix.value})
  {
    var rest, t0 := ds[1..], tables + {ds[0].prefix.value};
    if AllLoad(ds, store, engine, tables) {
      forall i | 0 <= i < |rest| ensures Loads(rest[i], store, engine, t0) {
        assert rest[i] == ds[i + 1];
        assert ds[0].prefix != ds[i + 1].prefix;
      }
      forall i, j | 0 <= i < j < |rest| ensures rest[i].prefix != rest[j].prefix {
        assert rest[i] == ds[i + 1] && rest[j] == ds[j + 1];
      }
    }
    if Loads(ds[0], store, engine, tables) && AllLoad(rest, store, engine, t0) {
      forall i | 0 <= i < |ds| ensures Loads(ds[i], store, engine, tables) {
        if i > 0 {
          assert ds[i] == rest[i - 1];
        }
      }
      forall i, j | 0 <= i < j < |ds| ensures ds[i].prefix != ds[j].prefix {
        assert ds[j] == rest[j - 1];
        if i > 0 {
          assert ds[i] == rest[i - 1];
        }
      }
    }
  }

  /** The os.makedirs calls of the loop: each staging directory that is absent when its dataset comes. */
  ghost function MadeDirs(ds: seq<Dataset>, dirs: set<string>): seq<string>
    requires forall i :: 0 <= i < |ds| ==> ds[i].prefix.Some?
  {
    if ds == [] then []
    else
      var path := DownloadPath(ds[0].prefix.value);
      (if path in dirs then [] else [path]) + MadeDirs(ds[1..], dirs + {path})
  }

  ghost function StagingDirs(ds: seq<Dataset>): set<string>
    requires forall i :: 0 <= i < |ds| ==> ds[i].prefix.Some?
  {
    if ds == [] then {} else {DownloadPath(ds[0].prefix.value)} + StagingDirs(ds[1..])
  }

  ghost function Buckets(ds: seq<Dataset>): seq<string>
    requires forall i :: 0 <= i < |ds| ==> ds[i].bucket.Some?
  {
    if ds == [] then [] else [ds[0].bucket.value] + Buckets(ds[1..])
  }

  /** All downloads submitted for the datasets, dataset after dataset. */
  ghost function AllTasks(ds: seq<Dataset>, store: Store): seq<DownloadTask>
    requires forall i :: 0 <= i < |ds| ==> Listable(ds[i], store)
  {
    if ds == [] then [] else Batch(ds[0], store) + AllTasks(ds[1..], store)
  }

  /**
   * The state after the step of a dataset that loads: its staging directory exists (made
   * if it was absent), its bucket was listed, its batch submitted and its table created.
   */
  ghost function Staged(d: Dataset, store: Store, w: World): World
    requires Listable(d, store)
  {
    var path := DownloadPath(d.prefix.value);
    w.(
      dirs := w.dirs + {path},
      makedirs := w.makedirs + (if path in w.dirs then [] else [path]),
      listed := w.listed + [d.bucket.value],
      downloads := w.downloads + Batch(d, store),
      tables := w.tables + {d.prefix.value},
      engine := w.engine + [TableCall(d.prefix.value)])
  }

  /**
   * One dataset step: it goes on to the next dataset exactly when the dataset loads on
   * the connection as it is, and then it has staged the directory, listed the bucket,
   * submitted the batch and created the table. Otherwise it leaves with an exception
   * (never with the download error, because the verdict is never False), and it has
   * issued a CREATE TABLE only if the verdict was True.
   */
  lemma StepSpec(d: Dataset, store: Store, engine: Engine, w: World)
    ensures Step(d, store, engine, w).Next? <==> Loads(d, store, engine, w.tables)
    ensures Loads(d, store, engine, w.tables) ==> Step(d, store, engine, w).world == Staged(d, store, w)
    ensures Step(d, store, engine, w).Done? ==> Step(d, store, engine, w).outcome.Raised?
    ensures Step(d, store, engine, w).Done? ==> Step(d, store, engine, w).world.tables == w.tables
    ensures Step(d, store, engine, w).world.connections == w.connections
    ensures var e := Step(d, store, engine, w).world.engine;
      e == w.engine || (Listable(d, store) && Verdict(d, store) == Success(true) && e == w.engine + [TableCall(d.prefix.value)])
    ensures var w1 := Step(d, store, engine, w).world;
      w1.listed == w.listed + (if d.bucket.Some? && d.prefix.Some? then [d.bucket.value] else [])
  {
    if Listable(d, store) {
      ExecuteFuturesVerdict(Futures(store, Batch(d, store)));
    }
  }

  /**
   * The staging of a dataset step: with both keys present its directory exists afterwards
   * and os.makedirs was called for it exactly when it was absent; without them neither
   * the directories nor the makedirs calls change.
   */
  lemma StepStages(d: Dataset, store: Store, engine: Engine, w: World)
    ensures var w1 := Step(d, store, engine, w).world;
      w1.dirs == w.dirs + (if d.bucket.Some? && d.prefix.Some? then {DownloadPath(d.prefix.value)} else {})
    ensures var w1 := Step(d, store, engine, w).world;
      w1.makedirs == w.makedirs +
        if d.bucket.Some? && d.prefix.Some? && DownloadPath(d.prefix.value) !in w.dirs then [DownloadPath(d.prefix.value)] else []
  {
    if d.bucket.Some? && d.prefix.Some? && DownloadPath(d.prefix.value) in w.dirs {
      assert w.dirs + {DownloadPath(d.prefix.value)} == w.dirs;
    }
  }

  /**
   * Staging the same dataset twice calls os.makedirs at most once: the second step finds
   * the directory and neither creates it nor calls makedirs.
   */
  lemma StagingIdempotent(d: Dataset, store: Store, engine: Engine, w: World)
    ensures var w1 := Step(d, store, engine, w).world;
      Step(d, store, engine, w1).world.makedirs == w1.makedirs && Step(d, store, engine, w1).world.dirs == w1.dirs
    ensures |Step(d, store, engine, w).world.makedirs| <= |w.makedirs| + 1
  {
    var w1 := Step(d, store, engine, w).world;
    StepStages(d, store, engine, w);
    StepStages(d, store, engine, w1);
    if d.bucket.Some? && d.prefix.Some? {
      assert w1.dirs + {DownloadPath(d.prefix.value)} == w1.dirs;
    }
  }

  /**
   * Along the loop os.makedirs is called once for each staging directory that was absent
   * at the start, and for no other directory.
   */
  lemma {:induction false} MadeDirsOnce(ds: seq<Dataset>, dirs: set<string>)
    requires forall i :: 0 <= i < |ds| ==> ds[i].prefix.Some?
    ensures NoDuplicates(MadeDirs(ds, dirs))
    ensures forall x :: x in MadeDirs(ds, dirs) <==> x in StagingDirs(ds) && x !in dirs
  {
    if ds != [] {
      var path := DownloadPath(ds[0].prefix.value);
      var rest := MadeDirs(ds[1..], dirs + {path});
      MadeDirsOnce(ds[1..], dirs + {path});
      var head := if path in dirs then [] else [path];
      var all := head + rest;
      assert MadeDirs(ds, dirs) == all;
      assert path !in rest;
      forall i, j | 0 <= i < j < |all| ensures all[i] != all[j] {
        if head == [] {
          assert all[i] == rest[i] && all[j] == rest[j];
        } else if i == 0 {
          assert all[i] == path && all[j] == rest[j - 1];
        } else {
          assert all[i] == rest[i - 1] && all[j] == rest[j - 1];
        }
      }
      assert StagingDirs(ds) == {path} + StagingDirs(ds[1..]);
    }
  }

  /**
   * The dataset loop runs through every dataset exactly when all of them load, each on the
   * connection holding the tables of those before it; otherwise it leaves with an
   * exception. It opens no connection.
   */
  lemma {:induction false} ProcessOutcome(ds: seq<Dataset>, store: Store, engine: Engine, w: World)
    ensures Process(ds, store, engine, w).Next? <==> AllLoad(ds, store, engine, w.tables)
    ensures Process(ds, store, engine, w).Done? ==> Process(ds, store, engine, w).outcome.Raised?
    ensures Process(ds, store, engine, w).world.connections == w.connections
    decreases |ds|
  {
    if ds != [] {
      StepSpec(ds[0], store, engine, w);
      match Step(ds[0], store, engine, w)
      case Done(o, w1) =>
        assert !Loads(ds[0], store, engine, w.tables);
      case Next(w1) =>
        ProcessOutcome(ds[1..], store, engine, w1);
        AllLoadUncons(ds, store, engine, w.tables);
    }
  }

  lemma ListableKeys(ds: seq<Dataset>, store: Store)
    requires forall i :: 0 <= i < |ds| ==> Listable(ds[i], store)
    ensures forall i :: 0 <= i < |ds| ==> ds[i].bucket.Some? && ds[i].prefix.Some?
  {
  }

  /** The state after the steps of datasets that all load, taken from w. */
  ghost function Loaded(ds: seq<Dataset>, store: Store, w: World): World
    requires forall i :: 0 <= i < |ds| ==> Listable(ds[i], store)
  {
    ListableKeys(ds, store);
    w.(
      dirs := w.dirs + StagingDirs(ds),
      makedirs := w.makedirs + MadeDirs(ds, w.dirs),
      listed := w.listed + Buckets(ds),
      downloads := w.downloads + AllTasks(ds, store),
      tables := w.tables + TableNames(ds),
      engine := w.engine + TableCalls(ds))
  }

  /** The state after a non-empty list of loading steps is that after the rest, taken from the state after the first. */
  lemma ListableTail(ds: seq<Dataset>, store: Store)
    requires ds != [] && forall i :: 0 <= i < |ds| ==> Listable(ds[i], store)
    ensures Listable(ds[0], store) && forall i :: 0 <= i < |ds[1..]| ==> Listable(ds[1..][i], store)
  {
    forall i | 0 <= i < |ds[1..]| ensures Listable(ds[1..][i], store) {
      assert ds[1..][i] == ds[i + 1];
    }
  }

  /** The filesystem part of LoadedUncons: directories and makedirs calls. */
  lemma LoadedUnconsStaging(ds: seq<Dataset>, store: Store, w: World)
    requires ds != [] && forall i :: 0 <= i < |ds| ==> Listable(ds[i], store)
    ensures Loaded(ds, store, w).dirs == Loaded(ds[1..], store, Staged(ds[0], store, w)).dirs
    ensures Loaded(ds, store, w).makedirs == Loaded(ds[1..], store, Staged(ds[0], store, w)).makedirs
  {
    ListableTail(ds, store);
    var rest, path := ds[1..], DownloadPath(ds[0].prefix.value);
    assert StagingDirs(ds) == {path} + StagingDirs(rest);
    var made, later := if path in w.dirs then [] else [path], MadeDirs(rest, w.dirs + {path});
    assert MadeDirs(ds, w.dirs) == made + later;
    assert (w.makedirs + made) + later == w.makedirs + (made + later);
  }

  /** The object-store and engine part of LoadedUncons: listings, downloads, tables and statements. */
  lemma LoadedUnconsRemote(ds: seq<Dataset>, store: Store, w: World)
    requires ds != [] && forall i :: 0 <= i < |ds| ==> Listable(ds[i], store)
    ensures Loaded(ds, store, w).listed == Loaded(ds[1..], store, Staged(ds[0], store, w)).listed
    ensures Loaded(ds, store, w).downloads == Loaded(ds[1..], store, Staged(ds[0], store, w)).downloads
    ensures Loaded(ds, store, w).tables == Loaded(ds[1..], store, Staged(ds[0], store, w)).tables
    ensures Loaded(ds, store, w).engine == Loaded(ds[1..], store, Staged(ds[0], store, w)).engine
  {
    ListableTail(ds, store);
    var d, rest := ds[0], ds[1..];
    assert Buckets(ds) == [d.bucket.value] + Buckets(rest);
    assert AllTasks(ds, store) == Batch(d, store) + AllTasks(rest, store);
    assert TableNames(ds) == {d.prefix.value} + TableNames(rest);
    assert TableCalls(ds) == [TableCall(d.prefix.value)] + TableCalls(rest);
  }

  /** The state after a non-empty list of loading steps is that after the rest, taken from the state after the first. */
  lemma LoadedUncons(ds: seq<Dataset>, store: Store, w: World)
    requires ds != [] && forall i :: 0 <= i < |ds| ==> Listable(ds[i], store)
    ensures Loaded(ds, store, w) == Loaded(ds[1..], store, Staged(ds[0], store, w))
  {
    ListableTail(ds, store);
    LoadedUnconsStaging(ds, store, w);
    LoadedUnconsRemote(ds, store, w);
  }

  /** When every dataset loads, the loop has done their steps in dataset order. */
  lemma {:induction false} ProcessWorld(ds: seq<Dataset>, store: Store, engine: Engine, w: World)
    requires AllLoad(ds, store, engine, w.tables)
    ensures Process(ds, store, engine, w) == Next(Loaded(ds, store, w))
    decreases |ds|
  {
    if ds != [] {
      var d, rest := ds[0], ds[1..];
      assert Loads(d, store, engine, w.tables);
      StepSpec(d, store, engine, w);
      AllLoadUncons(ds, store, engine, w.tables);
      var w1 := Step(d, store, engine, w).world;
      ProcessWorld(rest, store, engine, w1);
      LoadedUncons(ds, store, w);
    }
  }

  /** The engine receives nothing but CREATE TABLE statements during the loop, appended to what it had. */
  lemma {:induction false} ProcessOnlyCreatesTables(ds: seq<Dataset>, store: Store, engine: Engine, w: World)
    ensures var e := Process(ds, store, engine, w).world.engine;
      |w.engine| <= |e| && e[..|w.engine|] == w.engine && forall k :: |w.engine| <= k < |e| ==> e[k].CreateTable?
    decreases |ds|
  {
    if ds != [] {
      StepSpec(ds[0], store, engine, w);
      match Step(ds[0], store, engine, w)
      case Done(o, w1) =>
      case Next(w1) =>
        ProcessOnlyCreatesTables(ds[1..], store, engine, w1);
    }
  }

  /** Running the loop over a + b is running it over a, then over b from where a left off. */
  lemma {:induction false} ProcessAppend(a: seq<Dataset>, b: seq<Dataset>, store: Store, engine: Engine, w: World)
    ensures Process(a + b, store, engine, w) ==
      match Process(a, store, engine, w)
      case Done(o, w1) => Done(o, w1)
      case Next(w1) => Process(b, store, engine, w1)
    decreases |a|
  {
    if a == [] {
      assert a + b == b;
    } else {
      assert (a + b)[0] == a[0] && (a + b)[1..] == a[1..] + b;
      match Step(a[0], store, engine, w)
      case Done(o, w1) =>
      case Next(w1) => ProcessAppend(a[1..], b, store, engine, w1);
    }
  }

  /**
   * A dict's first value without a JSON encoding: None exactly when every value has one,
   * otherwise the type of the first value in entry order that has none.
   */
  lemma {:induction false} FirstUnserialisableEntrySpec(r: Record<Value>)
    ensures FirstUnserialisableEntry(r).None? <==> forall j :: 0 <= j < |r| ==> !r[j].value.Unserialisable?
    ensures FirstUnserialisableEntry(r).Some? ==>
      exists j :: 0 <= j < |r| && r[j].value == Unserialisable(FirstUnserialisableEntry(r).value)
        && forall j' :: 0 <= j' < j ==> !r[j'].value.Unserialisable?
  {
    if r != [] {
      var rest := r[1..];
      FirstUnserialisableEntrySpec(rest);
      assert forall j :: 0 < j < |r| ==> r[j] == rest[j - 1];
      if r[0].value.Unserialisable? {
        assert r[0].value == Unserialisable(FirstUnserialisableEntry(r).value);
      } else if FirstUnserialisableEntry(rest).Some? {
        var j :| 0 <= j < |rest| && rest[j].value == Unserialisable(FirstUnserialisableEntry(rest).value)
          && forall j' :: 0 <= j' < j ==> !rest[j'].value.Unserialisable?;
        assert r[j + 1] == rest[j];
        forall j' | 0 <= j' < j + 1 ensures !r[j'].value.Unserialisable? {
          if j' > 0 {
            assert r[j'] == rest[j' - 1];
          }
        }
      }
    }
  }

  /** rows[k][j] is the first value without a JSON encoding, in row order and then entry order. */
  ghost predicate FirstUnserialisableAt(rows: seq<Record<Value>>, k: int, j: int)
  {
    && 0 <= k < |rows| && 0 <= j < |rows[k]| && rows[k][j].value.Unserialisable?
    && (forall k', j' :: 0 <= k' < k && 0 <= j' < |rows[k']| ==> !rows[k'][j'].value.Unserialisable?)
    && (forall j' :: 0 <= j' < j ==> !rows[k][j'].value.Unserialisable?)
  }

  /**
   * A list of dicts has no value without a JSON encoding exactly when some value has
   * none, and then the first one, in row order and then entry order, is the one found.
   */
  lemma {:induction false} FirstUnserialisableSpec(rows: seq<Record<Value>>)
    ensures FirstUnserialisable(rows).None? <==> Serialisable(rows)
    ensures FirstUnserialisable(rows).Some? ==>
      exists k, j :: FirstUnserialisableAt(rows, k, j) && FirstUnserialisable(rows).value == rows[k][j].value.typeName
  {
    if rows != [] {
      var rest := rows[1..];
      FirstUnserialisableEntrySpec(rows[0]);
      FirstUnserialisableSpec(rest);
      assert forall k :: 0 < k < |rows| ==> rows[k] == rest[k - 1];
      if FirstUnserialisableEntry(rows[0]).Some? {
        var j :| 0 <= j < |rows[0]| && rows[0][j].value == Unserialisable(FirstUnserialisableEntry(rows[0]).value)
          && forall j' :: 0 <= j' < j ==> !rows[0][j'].value.Unserialisable?;
        assert FirstUnserialisableAt(rows, 0, j);
      } else if FirstUnserialisable(rest).Some? {
        var k, j :| FirstUnserialisableAt(rest, k, j) && FirstUnserialisable(rest).value == rest[k][j].value.typeName;
        assert rows[k + 1] == rest[k];
        forall k', j' | 0 <= k' < k + 1 && 0 <= j' < |rows[k']| ensures !rows[k'][j'].value.Unserialisable? {
          if k' > 0 {
            assert rows[k'] == rest[k' - 1];
          }
        }
        assert FirstUnserialisableAt(rows, k + 1, j);
      } else {
        forall k, j | 0 <= k < |rows| && 0 <= j < |rows[k]| ensures !rows[k][j].value.Unserialisable? {
          if k > 0 {
            assert rows[k] == rest[k - 1];
          }
        }
      }
    }
  }

  /**
   * json.dumps succeeds exactly when every value has a JSON encoding; otherwise it raises
   * the TypeError naming the type of the first value, in row order and then entry order,
   * that has none.
   */
  lemma JsonDumpsSpec(rows: seq<Record<Value>>)
    ensures JsonDumps(rows).Success? <==> Serialisable(rows)
    ensures JsonDumps(rows).Success? ==> JsonDumps(rows).value == rows
    ensures JsonDumps(rows).Failure? ==>
      exists k, j :: FirstUnserialisableAt(rows, k, j) && JsonDumps(rows).error == TypeError(rows[k][j].value.typeName)
  {
    FirstUnserialisableSpec(rows);
  }

  /** A loop whose first step leaves ends with that step. */
  lemma ProcessFirstDone(ds: seq<Dataset>, store: Store, engine: Engine, w: World)
    requires ds != [] && Step(ds[0], store, engine, w).Done?
    ensures Process(ds, store, engine, w) == Step(ds[0], store, engine, w)
  {
  }

  /**
   * The loop over datasets whose dataset i is the first that does not load does the steps
   * of the first i and ends in the step of dataset i.
   */
  lemma ProcessStopsAt(ds: seq<Dataset>, i: nat, store: Store, engine: Engine, w: World)
    requires i < |ds|
    requires AllLoad(ds[..i], store, engine, w.tables)
    requires !Loads(ds[i], store, engine, w.tables + TableNames(ds[..i]))
    ensures Process(ds, store, engine, w) == Step(ds[i], store, engine, Loaded(ds[..i], store, w))
  {
    ProcessWorld(ds[..i], store, engine, w);
    var wi := Loaded(ds[..i], store, w);
    StepSpec(ds[i], store, engine, wi);
    assert ds[i..][0] == ds[i];
    ProcessFirstDone(ds[i..], store, engine, wi);
    ProcessAppend(ds[..i], ds[i..], store, engine, w);
    assert ds == ds[..i] + ds[i..];
  }

  /**
   * If dataset i is the first that does not load, the invocation ends with an exception
   * at dataset i: later datasets are never touched (the run is that of the first i + 1
   * datasets alone), the tables of the first i datasets are the only ones besides a
   * possible CREATE TABLE for dataset i after a True verdict, and the query never runs.
   */
  lemma HandleStopsAtFirstFailure(ev: Event, store: Store, engine: Engine, w: World, i: nat)
    requires ev.datasets.Some? && ev.query.Some?
    requires i < |ev.datasets.value|
    requires AllLoad(ev.datasets.value[..i], store, engine, {})
    requires !Loads(ev.datasets.value[i], store, engine, TableNames(ev.datasets.value[..i]))
    ensures Handle(ev, store, engine, w) == Handle(ev.(datasets := Some(ev.datasets.value[..i + 1])), store, engine, w)
    ensures Handle(ev, store, engine, w).0.Raised?
    ensures var ds, e := ev.datasets.value, Handle(ev, store, engine, w).1.engine;
      e == w.engine + TableCalls(ds[..i])
      || (Listable(ds[i], store) && Verdict(ds[i], store) == Success(true)
          && e == w.engine + TableCalls(ds[..i]) + [TableCall(ds[i].prefix.value)])
    ensures var ds, w' := ev.datasets.value, Handle(ev, store, engine, w).1;
      w'.listed == w.listed + Buckets(ds[..i]) + (if ds[i].bucket.Some? && ds[i].prefix.Some? then [ds[i].bucket.value] else [])
  {
    var ds := ev.datasets.value;
    var w0 := w.(connections := w.connections + 1, tables := {});
    ProcessStopsAt(ds, i, store, engine, w0);
    var first := ds[..i + 1];
    assert first[..i] == ds[..i] && first[i] == ds[i];
    ProcessStopsAt(first, i, store, engine, w0);
    StepSpec(ds[i], store, engine, Loaded(ds[..i], store, w0));
  }

  /**
   * With both keys present, the handler returns {"result": ...} exactly when every dataset
   * loads (so no two datasets name the same table), the query succeeds and json.dumps can
   * encode its rows. When every dataset loads, each staging directory exists and was made
   * once if it was absent, every bucket was listed and every batch submitted in dataset
   * order, the connection holds exactly the datasets' tables, the engine received the
   * CREATE TABLE statements in dataset order and then the query once, and the result is
   * the query's rows normalised.
   */
  lemma HandleSucceeds(ev: Event, store: Store, engine: Engine, w: World)
    requires ev.datasets.Some? && ev.query.Some?
    ensures Handle(ev, store, engine, w).0.Returned? && Handle(ev, store, engine, w).0.response.ResultResponse?
      <==> AllLoad(ev.datasets.value, store, engine, {}) && QueryResult(engine).Success? && Serialisable(QueryResult(engine).value)
    ensures var ds := ev.datasets.value;
      AllLoad(ds, store, engine, {}) ==> Handle(ev, store, engine, w).1 == World(
        w.dirs + StagingDirs(ds),
        w.makedirs + MadeDirs(ds, w.dirs),
        w.listed + Buckets(ds),
        w.downloads + AllTasks(ds, store),
        w.connections + 1,
        TableNames(ds),
        w.engine + TableCalls(ds) + [RunSql(ev.query.value)])
    ensures AllLoad(ev.datasets.value, store, engine, {}) ==>
      Handle(ev, store, engine, w).0 ==
        if QueryResult(engine).Failure? then Raised(QueryResult(engine).error)
        else if JsonDumps(QueryResult(engine).value).Failure? then Raised(JsonDumps(QueryResult(engine).value).error)
        else Returned(ResultResponse(QueryResult(engine).value))
  {
    var w0 := w.(connections := w.connections + 1, tables := {});
    ProcessOutcome(ev.datasets.value, store, engine, w0);
    if QueryResult(engine).Success? {
      JsonDumpsSpec(QueryResult(engine).value);
    }
    if AllLoad(ev.datasets.value, store, engine, {}) {
      ProcessWorld(ev.datasets.value, store, engine, w0);
      assert {} + TableNames(ev.datasets.value) == TableNames(ev.datasets.value);
    }
  }

  /**
   * A dataset listed twice: its first copy loads, and the second repeats the staging,
   * listing and downloads and then raises, because the connection already has the table.
   */
  lemma RepeatedDatasetRaises(d: Dataset, store: Store, engine: Engine, w: World, query: string)
    requires Loads(d, store, engine, {})
    ensures Handle(Event(Some([d, d]), Some(query)), store, engine, w).0 == Raised(EngineError(TableExistsMessage(d.prefix.value)))
    ensures Handle(Event(Some([d, d]), Some(query)), store, engine, w).1.downloads == w.downloads + Batch(d, store) + Batch(d, store)
  {
    var w0 := w.(connections := w.connections + 1, tables := {});
    StepSpec(d, store, engine, w0);
    var w1 := Staged(d, store, w0);
    ExecuteFuturesVerdict(Futures(store, Batch(d, store)));
    assert [d, d][1..] == [d];
    assert Process([d, d], store, engine, w0) == Process([d], store, engine, w1);
    assert Process([d], store, engine, w1) == Step(d, store, engine, w1);
  }

  /**
   * The validation gate: the handler returns the invalid-input error exactly when a key is
   * missing, and then it has touched nothing (no connection, directory, listing, download
   * or engine call).
   */
  lemma HandleValidates(ev: Event, store: Store, engine: Engine, w: World)
    ensures ev.datasets.None? || ev.query.None? ==> Handle(ev, store, engine, w) == (Returned(ErrorResponse(InvalidInputMessage)), w)
    ensures Handle(ev, store, engine, w).0 == Returned(ErrorResponse(InvalidInputMessage)) ==> ev.datasets.None? || ev.query.None?
  {
    if ev.datasets.Some? && ev.query.Some? {
      ProcessOutcome(ev.datasets.value, store, engine, w.(connections := w.connections + 1, tables := {}));
    }
  }

  /** The download error is never returned: a failed download escapes as an exception instead. */
  lemma HandleNeverReportsDownloadError(ev: Event, store: Store, engine: Engine, w: World)
    ensures Handle(ev, store, engine, w).0 != Returned(ErrorResponse(DownloadErrorMessage))
  {
    if ev.datasets.Some? && ev.query.Some? {
      ProcessOutcome(ev.datasets.value, store, engine, w.(connections := w.connections + 1, tables := {}));
    }
  }

  /** The dataset loop goes on past dataset i when its step does: what remains of the run from w0 is the rest from w1. */
  lemma LoopStep(ds: seq<Dataset>, i: nat, store: Store, engine: Engine, w0: World, w: World, w1: World)
    requires i < |ds|
    requires Process(ds, store, engine, w0) == Process(ds[i..], store, engine, w)
    requires Step(ds[i], store, engine, w) == Next(w1)
    ensures Process(ds, store, engine, w0) == Process(ds[i + 1..], store, engine, w1)
  {
    assert ds[i..][0] == ds[i] && ds[i..][1..] == ds[i + 1..];
  }

  /** The dataset loop leaves at dataset i when its step does. */
  lemma LoopExit(ds: seq<Dataset>, i: nat, store: Store, engine: Engine, w0: World, w: World, o: Outcome, w1: World)
    requires i < |ds|
    requires Process(ds, store, engine, w0) == Process(ds[i..], store, engine, w)
    requires Step(ds[i], store, engine, w) == Done(o, w1)
    ensures Process(ds, store, engine, w0) == Done(o, w1)
  {
    assert ds[i..][0] == ds[i];
  }

  class Environment {
    var dirs: set<string>
    ghost var makedirs: seq<string>
    ghost var listed: seq<string>
    ghost var downloads: seq<DownloadTask>
    ghost var connections: nat
    /** The tables of the open connection. */
    var tables: set<string>
    ghost var engineLog: seq<EngineCall>

    ghost function State(): World
      reads this
    {
      World(dirs, makedirs, listed, downloads, connections, tables, engineLog)
    }

    /** A fresh environment whose filesystem has the given directories. */
    constructor (initialDirs: set<string>)
      ensures State() == World(initialDirs, [], [], [], 0, {}, [])
    {
      dirs := initialDirs;
      makedirs, listed, downloads, connections, tables, engineLog := [], [], [], 0, {}, [];
    }

    /**
     * create_table(conn, prefix): one CREATE TABLE over the staging directory's parquet
     * files. It raises when the connection already has a table of that name or the engine
     * rejects the statement, and otherwise adds the table to the connection.
     */
    method CreateTableFor(engine: Engine, prefix: string) returns (err: Option<Exception>)
      modifies this
      ensures State() == old(State()).(
        tables := if err.None? then old(tables) + {prefix} else old(tables),
        engine := old(engineLog) + [TableCall(prefix)])
      ensures err.Some? <==> prefix in old(tables) || prefix in engine.rejectedTables
      ensures prefix in old(tables) ==> err == Some(EngineError(TableExistsMessage(prefix)))
      ensures prefix !in old(tables) && prefix in engine.rejectedTables ==> err == Some(EngineError(engine.rejectedTables[prefix]))
    {
      engineLog := engineLog + [TableCall(prefix)];
      if prefix in tables {
        return Some(EngineError(TableExistsMessage(prefix)));
      }
      if prefix in engine.rejectedTables {
        return Some(EngineError(engine.rejectedTables[prefix]));
      }
      tables := tables + {prefix};
      return None;
    }

    /** run_query(conn, query): one engine call, then the result set as row objects. */
    method RunQuery(engine: Engine, query: string) returns (r: Result<seq<Record<Value>>, Exception>)
      modifies this
      ensures State() == old(State()).(engine := old(engineLog) + [RunSql(query)])
      ensures engine.answer.Rejected? ==> r == Failure(EngineError(engine.answer.message))
      ensures engine.answer.Rows? ==> r == Normalise(engine.answer.columns, engine.answer.rows)
    {
      engineLog := engineLog + [RunSql(query)];
      match engine.answer
      case Rejected(message) =>
        return Failure(EngineError(message));
      case Rows(columns, rows) =>
        return Normalise(columns, rows);
    }

    /**
     * One iteration of lambda_handler's dataset loop: stage the directory, submit and
     * join the batch, check the verdict, create the table. Some(outcome) when the
     * handler leaves here, None when it goes on to the next dataset.
     */
    method StageAndLoad(dataset: Dataset, store: Store, engine: Engine) returns (exit: Option<Outcome>)
      modifies this
      ensures Step(dataset, store, engine, old(State())) == if exit.Some? then Done(exit.value, State()) else Next(State())
    {
      if dataset.bucket.None? {
        return Some(Raised(KeyError("bucket")));
      }
      if dataset.prefix.None? {
        return Some(Raised(KeyError("prefix")));
      }
      var bucket, prefix := dataset.bucket.value, dataset.prefix.value;

      var prefixPath := DownloadPath(prefix);
      if prefixPath !in dirs {
        dirs := dirs + {prefixPath};
        makedirs := makedirs + [prefixPath];
      }

      listed := listed + [bucket];
      assert State() == (if prefixPath in old(dirs) then old(State())
        else old(State()).(dirs := old(dirs) + {prefixPath}, makedirs := old(makedirs) + [prefixPath])).(listed := old(listed) + [bucket]);
      var futures := CreateFutureDownloads(store, bucket, prefix);
      if futures.Failure? {
        return Some(Raised(futures.error));
      }
      TasksOfFutures(store, Planned(bucket, prefix, store.objects[bucket]));
      downloads := downloads + TasksOf(futures.value);

      var filesDownloaded := ExecuteFutures(futures.value);
      if filesDownloaded.Failure? {
        return Some(Raised(filesDownloaded.error));
      }
      if !filesDownloaded.value {
        return Some(Returned(ErrorResponse(DownloadErrorMessage)));
      }

      var err := CreateTableFor(engine, prefix);
      if err.Some? {
        return Some(Raised(err.value));
      }
      return None;
    }

    /** lambda_handler(event, context) */
    method LambdaHandler(event: Event, store: Store, engine: Engine) returns (o: Outcome)
      modifies this
      ensures (o, State()) == Handle(event, store, engine, old(State()))
    {
      if event.datasets.None? || event.query.None? {
        return Returned(ErrorResponse(InvalidInputMessage));
      }
      var datasets, query := event.datasets.value, event.query.value;
      connections := connections + 1;
      tables := {};
      ghost var connected := State();
      assert connected == old(State()).(connections := old(State()).connections + 1, tables := {});
      var i := 0;
      while i < |datasets|
        invariant 0 <= i <= |datasets|
        invariant Process(datasets, store, engine, connected) == Process(datasets[i..], store, engine, State())
      {
        ghost var head := State();
        var dataset := datasets[i];
        var exit := StageAndLoad(dataset, store, engine);
        if exit.Some? {
          LoopExit(datasets, i, store, engine, connected, head, exit.value, State());
          return exit.value;
        }
        LoopStep(datasets, i, store, engine, connected, head, State());
        i := i + 1;
      }
      assert datasets[i..] == [];

      var result := RunQuery(engine, query);
      if result.Failure? {
        o := Raised(result.error);
      } else {
        var text := JsonDumps(result.value);
        if text.Failure? {
          o := Raised(text.error);
        } else {
          o := Returned(ResultResponse(text.value));
        }
      }
      assert o == QueryOutcome(engine);
    }
  }
}
