/**
 * The download coordinator: create_future_downloads selects the bucket's parquet objects
 * and submits one download per object (lambda_function.py:49-67); execute_futures joins
 * the batch and computes its verdict (lambda_function.py:70-71).
 *
 * The thread pool is taken as "submit all, then join all in order": a future carries the
 * outcome its download will have, which the store determines.
 */
module Downloads {
  import opened Wrappers
  import opened PosixPath

  /** The Python values a future can hold; boto3's download_file returns None. */
  datatype PyValue = PyNone | PyBool(b: bool) | PyStr(s: string)

  predicate Truthy(v: PyValue)
  {
    match v
    case PyNone => false
    case PyBool(b) => b
    case PyStr(s) => s != ""
  }

  /** What future.result() does: return a value, or re-raise the download's exception. */
  datatype FutureResult = Completed(value: PyValue) | Failed(error: Exception)

  /** The arguments of one client.download_file call. */
  datatype DownloadTask = DownloadTask(bucket: string, key: string, path: string)

  datatype Future = Future(task: DownloadTask, result: FutureResult)

  /**
   * The object store: the keys objects.all() lists for each bucket, in listing order,
   * and the outcome of downloading an object. An object without a recorded outcome
   * downloads normally, and download_file then returns None.
   */
  datatype Store = Store(objects: map<string, seq<string>>, outcomes: map<(string, string), FutureResult>)

  function Fetch(store: Store, task: DownloadTask): FutureResult
  {
    if (task.bucket, task.key) in store.outcomes then store.outcomes[(task.bucket, task.key)] else Completed(PyNone)
  }

  /** executor.submit(client.download_file, bucket, key, path) */
  function Submit(store: Store, task: DownloadTask): Future
  {
    Future(task, Fetch(store, task))
  }

  /** The downloads create_future_downloads submits for a listing, in listing order. */
  function Planned(bucket: string, prefix: string, keys: seq<string>): seq<DownloadTask>
  {
    if keys == [] then []
    else
      var key := keys[|keys| - 1];
      Planned(bucket, prefix, keys[..|keys| - 1])
      + (if IsParquet(key) then [DownloadTask(bucket, key, TargetPath(prefix, key))] else [])
  }

  function Futures(store: Store, tasks: seq<DownloadTask>): seq<Future>
  {
    seq(|tasks|, j requires 0 <= j < |tasks| => Submit(store, tasks[j]))
  }

  function TaskKeys(tasks: seq<DownloadTask>): seq<string>
  {
    seq(|tasks|, j requires 0 <= j < |tasks| => tasks[j].key)
  }

  function TasksOf(futures: seq<Future>): seq<DownloadTask>
  {
    seq(|futures|, j requires 0 <= j < |futures| => futures[j].task)
  }

  /** The futures of a batch are those of its tasks, in submission order. */
  lemma TasksOfFutures(store: Store, tasks: seq<DownloadTask>)
    ensures TasksOf(Futures(store, tasks)) == tasks
  {
  }

  /**
   * create_future_downloads(bucket, prefix): walks the whole listing of the bucket (the
   * prefix plays no part in the selection) and submits a download per parquet key.
   * Listing a bucket the store does not have raises.
   */
  method CreateFutureDownloads(store: Store, bucket: string, prefix: string) returns (r: Result<seq<Future>, Exception>)
    ensures bucket !in store.objects ==> r == Failure(NoSuchBucket(bucket))
    ensures bucket in store.objects ==> r == Success(Futures(store, Planned(bucket, prefix, store.objects[bucket])))
  {
    if bucket !in store.objects {
      return Failure(NoSuchBucket(bucket));
    }
    var keys := store.objects[bucket];
    var futures: seq<Future> := [];
    var i := 0;
    while i < |keys|
      invariant 0 <= i <= |keys|
      invariant futures == Futures(store, Planned(bucket, prefix, keys[..i]))
    {
      var key := keys[i];
      assert keys[..i + 1][..i] == keys[..i];
      if IsParquet(key) {
        var fileName := Basename(key);
        var tmpFilePath := Join(Join(TmpDir, prefix), fileName);
        futures := futures + [Submit(store, DownloadTask(bucket, key, tmpFilePath))];
      }
      i := i + 1;
    }
    assert keys[..i] == keys;
    return Success(futures);
  }

  /** [future.result() for future in futures if future.result()]: the first failure raises; falsy results are dropped. */
  function KeptResults(futures: seq<Future>): Result<seq<PyValue>, Exception>
  {
    if futures == [] then Success([])
    else match futures[0].result
      case Failed(e) => Failure(e)
      case Completed(v) =>
        match KeptResults(futures[1..])
        case Failure(e) => Failure(e)
        case Success(rest) => Success(if Truthy(v) then [v] + rest else rest)
  }

  /** Python's all() */
  function All(vs: seq<PyValue>): bool
  {
    vs == [] || (Truthy(vs[0]) && All(vs[1..]))
  }

  /** execute_futures(futures) = all([future.result() for future in futures if future.result()]) */
  function ExecuteFutures(futures: seq<Future>): Result<bool, Exception>
  {
    match KeptResults(futures)
    case Failure(e) => Failure(e)
    case Success(vs) => Success(All(vs))
  }

  /** The all-or-nothing reading of a batch: every download completed with a truthy result. */
  predicate AllDownloaded(futures: seq<Future>)
  {
    forall j :: 0 <= j < |futures| ==> futures[j].result.Completed? && Truthy(futures[j].result.value)
  }

  /** The index of the first failed future, when there is one. */
  predicate FirstFailure(futures: seq<Future>, j: int)
  {
    0 <= j < |futures| && futures[j].result.Failed?
    && forall k :: 0 <= k < j ==> futures[k].result.Completed?
  }

  lemma {:induction false} KeptResultsSpec(futures: seq<Future>)
    ensures KeptResults(futures).Success? <==> forall j :: 0 <= j < |futures| ==> futures[j].result.Completed?
    ensures KeptResults(futures).Success? ==> forall v :: v in KeptResults(futures).value ==> Truthy(v)
    ensures KeptResults(futures).Failure? ==>
      exists j :: FirstFailure(futures, j) && futures[j].result.error == KeptResults(futures).error
  {
    if futures != [] {
      KeptResultsSpec(futures[1..]);
      assert forall j :: 0 < j < |futures| ==> futures[j] == futures[1..][j - 1];
      if futures[0].result.Completed? && KeptResults(futures).Failure? {
        var j :| FirstFailure(futures[1..], j) && futures[1..][j].result.error == KeptResults(futures[1..]).error;
        assert FirstFailure(futures, j + 1);
      } else if futures[0].result.Failed? {
        assert FirstFailure(futures, 0);
      }
    }
  }

  lemma {:induction false} AllOfTruthy(vs: seq<PyValue>)
    requires forall v :: v in vs ==> Truthy(v)
    ensures All(vs)
  {
    if vs != [] {
      assert vs[0] in vs;
      AllOfTruthy(vs[1..]);
    }
  }

  /**
   * The verdict of a batch is never False: it is True exactly when no download raised,
   * and otherwise the first failure in submission order escapes as an exception.
   */
  lemma ExecuteFuturesVerdict(futures: seq<Future>)
    ensures ExecuteFutures(futures) != Success(false)
    ensures ExecuteFutures(futures) == Success(true) <==> forall j :: 0 <= j < |futures| ==> futures[j].result.Completed?
    ensures ExecuteFutures(futures).Failure? ==>
      exists j :: FirstFailure(futures, j) && futures[j].result.error == ExecuteFutures(futures).error
  {
    KeptResultsSpec(futures);
    if KeptResults(futures).Success? {
      AllOfTruthy(KeptResults(futures).value);
    }
  }

  /** The all-or-nothing reading implies a True verdict ... */
  lemma AllDownloadedPasses(futures: seq<Future>)
    requires AllDownloaded(futures)
    ensures ExecuteFutures(futures) == Success(true)
  {
    ExecuteFuturesVerdict(futures);
  }

  /** ... but not conversely: an empty batch, or one whose download returned None, also passes. */
  lemma FalsyResultPasses(task: DownloadTask)
    ensures ExecuteFutures([]) == Success(true)
    ensures !AllDownloaded([Future(task, Completed(PyNone))])
    ensures ExecuteFutures([Future(task, Completed(PyNone))]) == Success(true)
  {
    var batch := [Future(task, Completed(PyNone))];
    assert !Truthy(batch[0].result.value);
    assert batch[1..] == [];
    assert KeptResults(batch) == Success([]);
  }

  /** Submission order is listing order: the downloads for a split listing are those of its halves, in turn. */
  lemma {:induction false} PlannedAppend(bucket: string, prefix: string, keys1: seq<string>, keys2: seq<string>)
    ensures Planned(bucket, prefix, keys1 + keys2) == Planned(bucket, prefix, keys1) + Planned(bucket, prefix, keys2)
  {
    if keys2 != [] {
      var init := keys2[..|keys2| - 1];
      assert (keys1 + keys2)[..|keys1 + keys2| - 1] == keys1 + init;
      PlannedAppend(bucket, prefix, keys1, init);
    } else {
      assert keys1 + keys2 == keys1;
    }
  }

  /** Every submitted download is of a listed parquet key of this bucket, to its target path. */
  lemma {:induction false} PlannedTasks(bucket: string, prefix: string, keys: seq<string>)
    ensures |Planned(bucket, prefix, keys)| <= |keys|
    ensures forall t :: t in Planned(bucket, prefix, keys) ==>
      t.bucket == bucket && t.key in keys && IsParquet(t.key) && t.path == TargetPath(prefix, t.key)
  {
    if keys != [] {
      var init := keys[..|keys| - 1];
      PlannedTasks(bucket, prefix, init);
      assert forall k :: k in init ==> k in keys;
    }
  }

  /** Exactly one download per listed parquet key (counting repeats); other keys submit nothing. */
  lemma {:induction false} PlannedCounts(bucket: string, prefix: string, keys: seq<string>, key: string)
    ensures multiset(TaskKeys(Planned(bucket, prefix, keys)))[key] == if IsParquet(key) then multiset(keys)[key] else 0
  {
    if keys != [] {
      var init, last := keys[..|keys| - 1], keys[|keys| - 1];
      PlannedCounts(bucket, prefix, init, key);
      var step := if IsParquet(last) then [DownloadTask(bucket, last, TargetPath(prefix, last))] else [];
      assert TaskKeys(Planned(bucket, prefix, keys)) == TaskKeys(Planned(bucket, prefix, init)) + TaskKeys(step);
      assert keys == init + [last];
    }
  }

  /** The keys selected do not depend on the dataset's prefix: only the target paths do. */
  lemma {:induction false} PlannedIgnoresPrefix(bucket: string, prefix1: string, prefix2: string, keys: seq<string>)
    ensures TaskKeys(Planned(bucket, prefix1, keys)) == TaskKeys(Planned(bucket, prefix2, keys))
  {
    if keys != [] {
      var init, last := keys[..|keys| - 1], keys[|keys| - 1];
      PlannedIgnoresPrefix(bucket, prefix1, prefix2, init);
      var step1 := if IsParquet(last) then [DownloadTask(bucket, last, TargetPath(prefix1, last))] else [];
      var step2 := if IsParquet(last) then [DownloadTask(bucket, last, TargetPath(prefix2, last))] else [];
      assert TaskKeys(Planned(bucket, prefix1, keys)) == TaskKeys(Planned(bucket, prefix1, init)) + TaskKeys(step1);
      assert TaskKeys(Planned(bucket, prefix2, keys)) == TaskKeys(Planned(bucket, prefix2, init)) + TaskKeys(step2);
    }
  }
}
