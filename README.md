# lambda_duckdb request pipeline, modelled in Dafny

This project models the request pipeline of `lambda_duckdb/lambda_function.py`. That is a
serverless handler that:

1. checks that the invocation event has `datasets` and `query`;
2. for each dataset, in order:
   - creates the staging directory `/tmp/<prefix>` if it is absent;
   - lists the bucket and submits one download per `.parquet` object;
   - joins the downloads and checks the batch verdict;
   - creates a DuckDB table named `prefix` from `/tmp/<prefix>/*.parquet`;
3. runs the caller's query once and returns `{"result": json.dumps(rows)}`, where every
   fetched row becomes a dict from column name to value.

Files and modules:

- `wrappers.dfy` (`Wrappers`): `Option` and `Result`, plus the Python exceptions the
  pipeline can raise.
- `posix_path.dfy` (`PosixPath`): `os.path.join`, `os.path.basename` and `str.endswith`,
  as POSIX Python defines them, and the paths built from them. That covers
  `download_path`, each download's target path and the `read_parquet` pattern.
- `records.dfy` (`Records`): how `run_query` turns rows into dicts. A dict is an ordered
  list of entries, because Python dicts keep insertion order. Assigning a key that is
  already present replaces its value in place.
- `downloads.dfy` (`Downloads`): the object store, `create_future_downloads` (a method with
  the source's loop) and `execute_futures`.
- `handler.dfy` (`Handler`): the event, the response, and the ghost specification
  `Handle` of the whole invocation, with lemmas about it. It also holds the class
  `Environment`, whose methods `CreateTableFor`, `RunQuery`, `StageAndLoad` (one
  iteration of the dataset loop) and `LambdaHandler` change the environment's state.
  Each is proved to match the specification.

Collaborators are abstracted as follows:

- The object store is a `Store`: the keys each bucket lists, in order, and the outcome of
  each download. An object with no recorded outcome downloads normally and returns
  `None`, as `download_file` does.
- The engine is an `Engine`: the table names whose `CREATE TABLE` it rejects, and its
  answer to the query (a result set or an error). Each invocation opens a fresh
  in-memory connection whose set of tables starts empty. A `CREATE TABLE` for a name
  the connection already has raises the engine's catalog error, so a prefix that
  appears twice in one event fails at its second dataset.
- The filesystem is its set of directories, each identified by its exact path string.
  A `makedirs` call happens only when the staging directory's path is not in that set.
- Ghost logs record the `makedirs` calls, the buckets listed, the downloads submitted,
  the connections opened and the statements the engine received.
- A fetched value is `None`, a bool, an int, a str, or a value `json.dumps` cannot
  encode (such as a `datetime.date`). The last kind makes `json.dumps` raise
  `TypeError`, which escapes the handler.
- An exception that escapes the handler is the outcome `Raised(e)`.

In two places the code behaves differently from a natural reading of it. The model follows
the code in both:

- The batch verdict is not all-or-nothing. On that reading a falsy result would count as
  a failure. The code computes `all([r for r in results if r])`, which drops falsy
  results first, so the verdict is never `False` (`ExecuteFuturesVerdict`,
  `FalsyResultPasses`). A failed download raises from `future.result()` and escapes the
  handler. The response `{"error": "Files have not been downloaded"}` is therefore never
  returned (`HandleNeverReportsDownloadError`).
- The listing is not restricted to the dataset's prefix. The code lists the whole bucket
  with `objects.all()`, so the prefix plays no part in which keys are selected
  (`PlannedIgnoresPrefix`).

## Model

| member | source | states |
|---|---|---|
| PosixPath.DownloadPathCases | lambda_duckdb/lambda_function.py:17-21 | the staging directory is "/tmp/" + prefix for a relative prefix; an absolute prefix replaces TMP_DIR |
| PosixPath.BasenameIsLastComponent | lambda_duckdb/lambda_function.py:62 | the basename is the longest separator-free suffix of the key, preceded by '/' when shorter than the key |
| PosixPath.ParquetBasename | lambda_duckdb/lambda_function.py:60-62 | the basename of a ".parquet" key is a non-empty, separator-free ".parquet" name |
| PosixPath.TargetKeepsBasename | lambda_duckdb/lambda_function.py:62-63 | a downloaded parquet object's local path has the key's basename, for every prefix |
| PosixPath.TargetPathLayout | lambda_duckdb/lambda_function.py:62-63 | for a plain prefix the target is "/tmp/<prefix>/<basename>", and create_table's pattern download_path(prefix) + "/*.parquet" matches it |
| PosixPath.BasenameCollision | lambda_duckdb/lambda_function.py:62-65 | keys that differ only in their directories are downloaded to the same local path |
| Records.RowObjectLookup | lambda_duckdb/lambda_function.py:43-46 | a row dict holds each column name exactly once, exactly the names of the column list, in the order of their first occurrences; a name maps to the value at its last index; other names are absent |
| Records.RowObjectInColumnOrder | lambda_duckdb/lambda_function.py:44 | with distinct column names, the row dict pairs column i with row[i], in column order |
| Records.NormaliseRows | lambda_duckdb/lambda_function.py:43-46 | normalisation succeeds exactly when no row is shorter than the column list (otherwise IndexError); it gives one dict per fetched row, in fetch order |
| Downloads.CreateFutureDownloads | lambda_duckdb/lambda_function.py:49-67 | a missing bucket raises; otherwise the futures are those of the planned downloads of the listing, in listing order, each carrying its download's outcome |
| Downloads.PlannedCounts | lambda_duckdb/lambda_function.py:57-67 | exactly one download per occurrence of a ".parquet" key in the listing; other keys submit nothing |
| Downloads.PlannedAppend | lambda_duckdb/lambda_function.py:58-66 | downloads are submitted in listing order: a split listing submits the first part's downloads, then the second's |
| Downloads.PlannedTasks | lambda_duckdb/lambda_function.py:58-65 | every submitted download is of a listed ".parquet" key of this bucket, to TMP_DIR/prefix/basename(key) |
| Downloads.PlannedIgnoresPrefix | lambda_duckdb/lambda_function.py:58-61 | the selected keys are the same whatever the prefix; only target paths depend on it |
| Downloads.KeptResultsSpec | lambda_duckdb/lambda_function.py:71 | the comprehension raises exactly when some download failed, and then with the first failure in order; otherwise it keeps only truthy results |
| Downloads.ExecuteFuturesVerdict | lambda_duckdb/lambda_function.py:70-71 | the verdict is never False; it is True exactly when no download raised; otherwise the first failure escapes |
| Downloads.AllDownloadedPasses | lambda_duckdb/lambda_function.py:70-71 | a batch in which every download returned a truthy value has verdict True |
| Downloads.FalsyResultPasses | lambda_duckdb/lambda_function.py:70-71 | the empty batch, and a batch whose download returned None, also have verdict True, so the verdict is not all-or-nothing |
| Handler.Environment.CreateTableFor | lambda_duckdb/lambda_function.py:24-32 | appends one CREATE TABLE named prefix over download_path(prefix) + "/*.parquet" to the engine log; raises the catalog error when the connection already has the table, the engine's error when it rejects it, and otherwise adds the table to the connection; nothing else changes |
| Handler.Environment.RunQuery | lambda_duckdb/lambda_function.py:35-46 | appends the query to the engine log; returns the engine error, or the normalised rows |
| Handler.Environment.StageAndLoad | lambda_duckdb/lambda_function.py:87-104 | one iteration of the dataset loop changes the state and leaves or continues exactly as the specification step does |
| Handler.Environment.LambdaHandler | lambda_duckdb/lambda_function.py:74-107 | the outcome and final state of the handler are those of the specification Handle, including the TypeError of json.dumps |
| Handler.JsonDumpsSpec | lambda_duckdb/lambda_function.py:107 | json.dumps succeeds exactly when every fetched value has a JSON encoding; otherwise it raises TypeError naming the type of the first value, in row then column order, that has none |
| Handler.StepSpec | lambda_duckdb/lambda_function.py:87-104 | a dataset step continues exactly when the dataset loads on the connection as it is (its table not yet created); it then stages, lists, submits and creates the table; otherwise it raises; a CREATE TABLE is issued only after a True verdict |
| Handler.StepStages | lambda_duckdb/lambda_function.py:90-92 | with both keys present the staging directory exists after the step, and makedirs was called for it exactly when its path was not in the set of directories |
| Handler.StagingIdempotent | lambda_duckdb/lambda_function.py:90-92 | staging the same dataset twice calls makedirs at most once; the second step makes no call and leaves the directories unchanged |
| Handler.MadeDirsOnce | lambda_duckdb/lambda_function.py:86-92 | along the loop makedirs is called once for each staging path not in the set of directories at the start, and for no other |
| Handler.AllLoadUncons | lambda_duckdb/lambda_function.py:86-104 | a dataset list loads exactly when its first dataset loads and the rest load on the connection that then holds the first table |
| Handler.ProcessOutcome | lambda_duckdb/lambda_function.py:86-104 | the dataset loop completes exactly when every dataset loads and no two name the same table, otherwise it raises; it opens no connection |
| Handler.ProcessWorld | lambda_duckdb/lambda_function.py:86-104 | when every dataset loads, the loop has made every absent staging directory once, listed every bucket, submitted every batch and created every table, in dataset order |
| Handler.ProcessOnlyCreatesTables | lambda_duckdb/lambda_function.py:86-104 | the loop only appends CREATE TABLE statements to the engine log; the query is not run inside it |
| Handler.ProcessStopsAt | lambda_duckdb/lambda_function.py:86-104 | when dataset i is the first that does not load, the loop does the steps of the first i datasets and ends in the step of dataset i |
| Handler.HandleStopsAtFirstFailure | lambda_duckdb/lambda_function.py:86-107 | at the first dataset that does not load the handler raises: later datasets are never touched, no query runs, and only earlier tables (plus that dataset's after a True verdict) were created |
| Handler.RepeatedDatasetRaises | lambda_duckdb/lambda_function.py:86-104 | a dataset listed twice is downloaded twice and then raises the catalog error at its second CREATE TABLE |
| Handler.HandleSucceeds | lambda_duckdb/lambda_function.py:82-107 | the handler returns {"result": ...} exactly when all datasets load with distinct tables, the query succeeds and json.dumps can encode the rows; then the engine got the tables in order and the query once, last, and the result is the normalised rows |
| Handler.HandleValidates | lambda_duckdb/lambda_function.py:77-80 | the invalid-input error is returned exactly when "datasets" or "query" is missing, and then nothing was connected, created, listed or downloaded |
| Handler.HandleNeverReportsDownloadError | lambda_duckdb/lambda_function.py:97-101 | the handler never returns {"error": "Files have not been downloaded"} |

## Left out

- The boto3 resource, client and client configuration (`REGION_NAME`,
  `MAX_POOL_CONNECTIONS`): remote I/O. A `Store` value stands in for them.
- `ThreadPoolExecutor` and `MAX_WORKERS`: concurrency. A batch is "submit all, then join
  all in order". Completion order, concurrent writes of several downloads to one local
  path, and downloads still running after an earlier one raised are not modelled.
- DuckDB semantics (`read_parquet`, SQL execution, connection lifetime): a foreign
  engine. An `Engine` value decides which CREATE TABLE it rejects and what the query
  returns. Only the table name, the file pattern and the query text are recorded.
- File contents, and partial files left by a failed batch: not modelled. Only the
  downloads submitted are logged.
- `os.makedirs` also creating missing parent directories, and filesystem errors such as a
  file in the staging directory's place: only the staging directory itself is added to
  the set of directories.
- Path resolution in `os.path.isdir`: a directory is identified by its exact path
  string, so `/tmp/`, `/tmp/a/` and `/tmp/a` are three different entries. For a prefix
  such as `""` or `"a/"` whose staging path spells an existing directory with a trailing
  `/`, the source makes no `makedirs` call, while the model logs one and adds the new
  spelling. `StepStages`, `StagingIdempotent` and `MadeDirsOnce` speak of path strings
  in this sense.
- Event fields of the wrong JSON type, such as a non-list `datasets`, and the TypeError
  they cause: the model assumes the documented types.
- Exception messages: each exception is modelled by its kind and the key, bucket, type
  name or engine message that identifies it. For a table that already exists, the
  message is DuckDB's catalog error with the name in double quotes.
- The text `json.dumps` produces: the response holds the rows themselves, standing for
  their JSON text. Floats and nested values (lists and dicts from LIST and STRUCT
  columns) are not among the modelled values. Every other value is either one of the
  modelled scalars or a value `json.dumps` rejects.
- DuckDB's rules for table names: the catalog is modelled as a set of exact names, with
  no case folding or quoting.
- Logging calls: no behavioural content.
- The `__main__` block (lambda_function.py:110-123): a remote Lambda invocation.
- `main.py`: dataset download, zip extraction, S3 upload and a CSV-to-Parquet script,
  all I/O plumbing. main.py is not part of this model.
