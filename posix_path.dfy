/**
 * The POSIX path operations the handler relies on: os.path.join, os.path.basename
 * and str.endswith, and the local paths built from them (lambda_function.py:17-21,
 * 30, 60-63).
 */
module PosixPath {

  /** The root of the function's ephemeral storage (TMP_DIR). */
  const TmpDir: string := "/tmp"

  /** Only objects whose key has this suffix are downloaded. */
  const ParquetSuffix: string := ".parquet"

  /** os.path.join(a, b): an absolute b replaces a; otherwise one separator is put between them when a needs one. */
  function Join(a: string, b: string): string
  {
    if |b| > 0 && b[0] == '/' then b
    else if a == "" || a[|a| - 1] == '/' then a + b
    else a + "/" + b
  }

  /** os.path.basename(p): everything after the last separator. */
  function Basename(p: string): string
  {
    if p == [] || p[|p| - 1] == '/' then [] else Basename(p[..|p| - 1]) + [p[|p| - 1]]
  }

  /** str.endswith */
  predicate EndsWith(s: string, suffix: string)
  {
    |suffix| <= |s| && s[|s| - |suffix|..] == suffix
  }

  predicate IsParquet(key: string)
  {
    EndsWith(key, ParquetSuffix)
  }

  /** download_path(prefix): the staging directory of one dataset. */
  function DownloadPath(prefix: string): string
  {
    Join(TmpDir, prefix)
  }

  /** os.path.join(TMP_DIR, prefix, os.path.basename(key)): where the object `key` is downloaded to. */
  function TargetPath(prefix: string, key: string): string
  {
    Join(Join(TmpDir, prefix), Basename(key))
  }

  /** The file pattern create_table hands to read_parquet. */
  function TableGlob(prefix: string): string
  {
    DownloadPath(prefix) + "/*.parquet"
  }

  /** A prefix that is one or more relative path components, without a trailing separator. */
  predicate PlainPrefix(prefix: string)
  {
    prefix != [] && prefix[0] != '/' && prefix[|prefix| - 1] != '/'
  }

  /** `path` names a file directly inside `dir` that the pattern dir + "/" + "*.parquet" matches ('*' matches no separator). */
  predicate MatchesParquetGlob(path: string, dir: string)
  {
    |dir| + 1 <= |path| && path[..|dir| + 1] == dir + "/"
    && '/' !in path[|dir| + 1..] && IsParquet(path[|dir| + 1..])
  }

  /** The staging directory is TMP_DIR with the prefix appended, unless the prefix is an absolute path. */
  lemma DownloadPathCases(prefix: string)
    ensures prefix == [] || prefix[0] != '/' ==> DownloadPath(prefix) == "/tmp/" + prefix
    ensures prefix != [] && prefix[0] == '/' ==> DownloadPath(prefix) == prefix
  {
  }

  /** Basename(p) is the longest separator-free suffix of p, as p[p.rfind('/') + 1:]. */
  lemma {:induction false} BasenameIsLastComponent(p: string)
    ensures |Basename(p)| <= |p|
    ensures Basename(p) == p[|p| - |Basename(p)|..]
    ensures '/' !in Basename(p)
    ensures |Basename(p)| < |p| ==> p[|p| - |Basename(p)| - 1] == '/'
  {
    if p != [] && p[|p| - 1] != '/' {
      var init, last := p[..|p| - 1], p[|p| - 1];
      BasenameIsLastComponent(init);
      var b, b' := Basename(p), Basename(init);
      assert b == b' + [last];
      assert p == init + [last];
      assert p[|p| - |b|..] == init[|init| - |b'|..] + [last];
      assert |b| < |p| ==> p[|p| - |b| - 1] == init[|init| - |b'| - 1];
    }
  }

  /** Appending a separator-free tail to a path appends it to the basename. */
  lemma {:induction false} BasenameOfAppend(a: string, b: string)
    requires '/' !in b
    ensures Basename(a + b) == Basename(a) + b
  {
    if b == [] {
      assert a + b == a;
    } else {
      var b' := b[..|b| - 1];
      assert (a + b)[..|a + b| - 1] == a + b';
      BasenameOfAppend(a, b');
      assert b == b' + [b[|b| - 1]];
    }
  }

  /** The basename of a parquet key is itself a parquet file name, with no separator in it. */
  lemma ParquetBasename(key: string)
    requires IsParquet(key)
    ensures IsParquet(Basename(key)) && '/' !in Basename(key) && Basename(key) != []
  {
    var stem := key[..|key| - |ParquetSuffix|];
    assert key == stem + ParquetSuffix;
    BasenameOfAppend(stem, ParquetSuffix);
    BasenameIsLastComponent(key);
  }

  /** A downloaded parquet object keeps its basename, whatever the prefix. */
  lemma TargetKeepsBasename(prefix: string, key: string)
    requires IsParquet(key)
    ensures Basename(TargetPath(prefix, key)) == Basename(key)
  {
    ParquetBasename(key);
    var dir, name := Join(TmpDir, prefix), Basename(key);
    if dir == "" || dir[|dir| - 1] == '/' {
      BasenameOfAppend(dir, name);
    } else {
      BasenameOfAppend(dir + "/", name);
    }
  }

  /** For a plain prefix the download lands in "/tmp/<prefix>/<basename>", and the table glob matches it. */
  lemma TargetPathLayout(prefix: string, key: string)
    requires PlainPrefix(prefix) && IsParquet(key)
    ensures TargetPath(prefix, key) == "/tmp/" + prefix + "/" + Basename(key)
    ensures MatchesParquetGlob(TargetPath(prefix, key), DownloadPath(prefix))
  {
    ParquetBasename(key);
    DownloadPathCases(prefix);
    var dir := DownloadPath(prefix);
    var path := TargetPath(prefix, key);
    assert path == dir + "/" + Basename(key);
    assert path[|dir| + 1..] == Basename(key);
  }

  /** A key "<dir>/<name>" for a parquet name is downloaded to "/tmp/<prefix>/<name>". */
  lemma TargetOfNestedKey(prefix: string, dir: string, name: string)
    requires PlainPrefix(prefix) && IsParquet(name) && '/' !in name
    requires dir != [] && dir[|dir| - 1] == '/'
    ensures TargetPath(prefix, dir + name) == "/tmp/" + prefix + "/" + name
  {
    var key := dir + name;
    BasenameOfAppend(dir, name);
    assert Basename(key) == name;
    assert key[|key| - |ParquetSuffix|..] == name[|name| - |ParquetSuffix|..];
    TargetPathLayout(prefix, key);
  }

  /**
   * The key's directory part is discarded: two keys that differ only in their directories
   * are downloaded to the same path.
   */
  lemma BasenameCollision(prefix: string, dir1: string, dir2: string, name: string)
    requires PlainPrefix(prefix) && IsParquet(name) && '/' !in name
    requires dir1 != [] && dir1[|dir1| - 1] == '/' && dir2 != [] && dir2[|dir2| - 1] == '/'
    ensures TargetPath(prefix, dir1 + name) == TargetPath(prefix, dir2 + name)
  {
    TargetOfNestedKey(prefix, dir1, name);
    TargetOfNestedKey(prefix, dir2, name);
  }
}
