/**
 * run_query's normalisation of the engine's result set (lambda_function.py:39-46):
 * every fetched row becomes a dict from column name to value. A dict is kept as the
 * ordered list of its entries, because Python dicts keep insertion order and json.dumps
 * writes them in that order; assigning to a key that is already present replaces its
 * value and keeps its position.
 */
module Records {
  import opened Wrappers

  datatype Entry<V> = Entry(column: string, value: V)

  /** A Python dict from column name to value, in insertion order. */
  type Record<V> = seq<Entry<V>>

  function Columns<V>(r: Record<V>): (cs: seq<string>)
    ensures |cs| == |r|
    ensures forall i :: 0 <= i < |r| ==> cs[i] == r[i].column
  {
    if r == [] then [] else [r[0].column] + Columns(r[1..])
  }

  /** record[column], or None when the column is absent. */
  function Lookup<V>(r: Record<V>, column: string): Option<V>
  {
    if r == [] then None
    else if r[0].column == column then Some(r[0].value)
    else Lookup(r[1..], column)
  }

  /** record[column] = value */
  function Assign<V>(r: Record<V>, column: string, value: V): Record<V>
  {
    if r == [] then [Entry(column, value)]
    else if r[0].column == column then [Entry(column, value)] + r[1..]
    else [r[0]] + Assign(r[1..], column, value)
  }

  predicate NoDuplicates(s: seq<string>)
  {
    forall i, j :: 0 <= i < j < |s| ==> s[i] != s[j]
  }

  /** The distinct elements of s in the order of their first occurrences: s[i] is kept when no earlier element equals it. */
  function FirstOccurrences(s: seq<string>): seq<string>
  {
    if s == [] then []
    else
      var init, last := s[..|s| - 1], s[|s| - 1];
      FirstOccurrences(init) + if last in init then [] else [last]
  }

  /** The dict comprehension {columns[i]: row[i] for i in range(len(columns))}, over its first n indices. */
  function Zip<V>(columns: seq<string>, row: seq<V>, n: nat): Record<V>
    requires n <= |columns| && n <= |row|
  {
    if n == 0 then [] else Assign(Zip(columns, row, n - 1), columns[n - 1], row[n - 1])
  }

  /** One fetched row as a dict; values beyond the last column are not read. */
  function RowObject<V>(columns: seq<string>, row: seq<V>): Record<V>
    requires |columns| <= |row|
  {
    Zip(columns, row, |columns|)
  }

  /**
   * The list comprehension over the fetched rows. A row shorter than the column list
   * makes row[index] raise IndexError.
   */
  function Normalise<V>(columns: seq<string>, rows: seq<seq<V>>): Result<seq<Record<V>>, Exception>
  {
    if rows == [] then Success([])
    else if |rows[0]| < |columns| then Failure(IndexError)
    else match Normalise(columns, rows[1..])
      case Failure(e) => Failure(e)
      case Success(rest) => Success([RowObject(columns, rows[0])] + rest)
  }

  /** After record[column] = value, the column maps to value and every other column is unchanged. */
  lemma {:induction false} AssignLookup<V>(r: Record<V>, column: string, value: V, other: string)
    ensures Lookup(Assign(r, column, value), column) == Some(value)
    ensures other != column ==> Lookup(Assign(r, column, value), other) == Lookup(r, other)
  {
    if r != [] && r[0].column != column {
      AssignLookup(r[1..], column, value, other);
    }
  }

  /** Assignment appends a new column at the end and leaves an existing one where it is. */
  lemma {:induction false} AssignColumns<V>(r: Record<V>, column: string, value: V)
    ensures Columns(Assign(r, column, value)) == if column in Columns(r) then Columns(r) else Columns(r) + [column]
  {
    if r != [] && r[0].column != column {
      AssignColumns(r[1..], column, value);
      assert Columns(r) == [r[0].column] + Columns(r[1..]);
    }
  }

  /** Lookup finds exactly the columns that are present. */
  lemma {:induction false} LookupPresent<V>(r: Record<V>, column: string)
    ensures Lookup(r, column).Some? <==> column in Columns(r)
  {
    if r != [] {
      LookupPresent(r[1..], column);
      assert Columns(r) == [r[0].column] + Columns(r[1..]);
    }
  }

  lemma NoDuplicatesAppend(s: seq<string>, c: string)
    requires NoDuplicates(s) && c !in s
    ensures NoDuplicates(s + [c])
  {
    var t := s + [c];
    forall i, j | 0 <= i < j < |t| ensures t[i] != t[j] {
      if j == |s| {
        assert t[i] == s[i];
      } else {
        assert t[i] == s[i] && t[j] == s[j];
      }
    }
  }

  lemma {:induction false} ZipColumns<V>(columns: seq<string>, row: seq<V>, n: nat)
    requires n <= |columns| && n <= |row|
    ensures NoDuplicates(Columns(Zip(columns, row, n)))
    ensures forall c :: c in Columns(Zip(columns, row, n)) <==> c in columns[..n]
  {
    if n > 0 {
      var prev, c := Zip(columns, row, n - 1), columns[n - 1];
      assert Zip(columns, row, n) == Assign(prev, c, row[n - 1]);
      ZipColumns(columns, row, n - 1);
      AssignColumns(prev, c, row[n - 1]);
      var before, after := Columns(prev), Columns(Zip(columns, row, n));
      var seen := columns[..n - 1];
      assert columns[..n] == seen + [c];
      if c in before {
        assert after == before;
      } else {
        assert after == before + [c];
        NoDuplicatesAppend(before, c);
      }
      forall x ensures x in after <==> x in seen + [c] {
        assert x in before <==> x in seen;
        assert x in after <==> x in before || x == c;
      }
    }
  }

  /** The keys of the comprehension over the first n indices are the first occurrences among the first n columns. */
  lemma {:induction false} ZipKeyOrder<V>(columns: seq<string>, row: seq<V>, n: nat)
    requires n <= |columns| && n <= |row|
    ensures Columns(Zip(columns, row, n)) == FirstOccurrences(columns[..n])
  {
    if n > 0 {
      var prev, c, seen := Zip(columns, row, n - 1), columns[n - 1], columns[..n - 1];
      var s := columns[..n];
      assert s[..|s| - 1] == seen && s[|s| - 1] == c;
      assert FirstOccurrences(s) == FirstOccurrences(seen) + if c in seen then [] else [c];
      ZipKeyOrder(columns, row, n - 1);
      ZipColumns(columns, row, n - 1);
      assert (c in Columns(prev)) == (c in seen);
      AssignColumns(prev, c, row[n - 1]);
    }
  }

  lemma {:induction false} ZipLastWins<V>(columns: seq<string>, row: seq<V>, n: nat, i: nat)
    requires n <= |columns| && n <= |row| && i < n
    requires forall j :: i < j < n ==> columns[j] != columns[i]
    ensures Lookup(Zip(columns, row, n), columns[i]) == Some(row[i])
  {
    AssignLookup(Zip(columns, row, n - 1), columns[n - 1], row[n - 1], columns[i]);
    if i < n - 1 {
      ZipLastWins(columns, row, n - 1, i);
    }
  }

  lemma {:induction false} ZipAbsent<V>(columns: seq<string>, row: seq<V>, n: nat, c: string)
    requires n <= |columns| && n <= |row| && c !in columns[..n]
    ensures Lookup(Zip(columns, row, n), c) == None
  {
    if n > 0 {
      assert columns[..n] == columns[..n - 1] + [columns[n - 1]];
      AssignLookup(Zip(columns, row, n - 1), columns[n - 1], row[n - 1], c);
      ZipAbsent(columns, row, n - 1, c);
    }
  }

  lemma {:induction false} ZipDistinct<V>(columns: seq<string>, row: seq<V>, n: nat)
    requires n <= |columns| && n <= |row| && NoDuplicates(columns)
    ensures Zip(columns, row, n) == seq(n, i requires 0 <= i < n => Entry(columns[i], row[i]))
  {
    if n > 0 {
      var prev := Zip(columns, row, n - 1);
      ZipDistinct(columns, row, n - 1);
      ZipColumns(columns, row, n - 1);
      assert columns[n - 1] !in columns[..n - 1];
      AssignAppends(prev, columns[n - 1], row[n - 1]);
    }
  }

  /** Assigning a column that is not yet present appends one entry. */
  lemma {:induction false} AssignAppends<V>(r: Record<V>, column: string, value: V)
    requires column !in Columns(r)
    ensures Assign(r, column, value) == r + [Entry(column, value)]
  {
    if r != [] {
      assert Columns(r) == [r[0].column] + Columns(r[1..]);
      AssignAppends(r[1..], column, value);
      assert r == [r[0]] + r[1..];
    }
  }

  /**
   * A row object has each column name once, exactly the names of the column list, in
   * the order of their first occurrences; each name maps to the value at its last index,
   * and a name outside the list is absent.
   */
  lemma RowObjectLookup<V>(columns: seq<string>, row: seq<V>)
    requires |columns| <= |row|
    ensures NoDuplicates(Columns(RowObject(columns, row)))
    ensures Columns(RowObject(columns, row)) == FirstOccurrences(columns)
    ensures forall c :: c in Columns(RowObject(columns, row)) <==> c in columns
    ensures forall i :: 0 <= i < |columns| && (forall j :: i < j < |columns| ==> columns[j] != columns[i]) ==>
      Lookup(RowObject(columns, row), columns[i]) == Some(row[i])
    ensures forall c :: c !in columns ==> Lookup(RowObject(columns, row), c) == None
  {
    assert columns[..|columns|] == columns;
    ZipColumns(columns, row, |columns|);
    ZipKeyOrder(columns, row, |columns|);
    forall i | 0 <= i < |columns| && (forall j :: i < j < |columns| ==> columns[j] != columns[i])
      ensures Lookup(RowObject(columns, row), columns[i]) == Some(row[i])
    {
      ZipLastWins(columns, row, |columns|, i);
    }
    forall c | c !in columns
      ensures Lookup(RowObject(columns, row), c) == None
    {
      ZipAbsent(columns, row, |columns|, c);
    }
  }

  /** With distinct column names the row object pairs them with the row's values in column order. */
  lemma RowObjectInColumnOrder<V>(columns: seq<string>, row: seq<V>)
    requires |columns| <= |row| && NoDuplicates(columns)
    ensures |RowObject(columns, row)| == |columns|
    ensures forall i :: 0 <= i < |columns| ==> RowObject(columns, row)[i] == Entry(columns[i], row[i])
  {
    ZipDistinct(columns, row, |columns|);
  }

  /**
   * Normalisation succeeds exactly when no row is shorter than the column list, and then
   * yields one row object per fetched row, in fetch order.
   */
  lemma {:induction false} NormaliseRows<V>(columns: seq<string>, rows: seq<seq<V>>)
    ensures Normalise(columns, rows).Success? <==> forall k :: 0 <= k < |rows| ==> |columns| <= |rows[k]|
    ensures Normalise(columns, rows).Failure? ==> Normalise(columns, rows).error == IndexError
    ensures Normalise(columns, rows).Success? ==>
      |Normalise(columns, rows).value| == |rows| &&
      forall k :: 0 <= k < |rows| ==> Normalise(columns, rows).value[k] == RowObject(columns, rows[k])
  {
    if rows != [] {
      NormaliseRows(columns, rows[1..]);
      assert forall k :: 0 < k < |rows| ==> rows[k] == rows[1..][k - 1];
    }
  }
}
