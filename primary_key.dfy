/**
 * The primary-key locator: the column whose `Key` role is `PRI` and its
 * position, read from the rows of `DESCRIBE <table>`.
 */
module PrimaryKey {
  import opened Data

  predicate IsKey(c: Column)
  {
    c.key == "PRI"
  }

  /** Position `i` holds the first primary-key column. */
  predicate IsFirstKey(columns: seq<Column>, i: nat)
  {
    i < |columns| && IsKey(columns[i]) && forall j :: 0 <= j < i ==> !IsKey(columns[j])
  }

  predicate HasKey(columns: seq<Column>)
  {
    exists i :: 0 <= i < |columns| && IsKey(columns[i])
  }

  /** `[column for column in columns if column[3] == 'PRI']`. */
  function KeyColumns(columns: seq<Column>): (keys: seq<Column>)
    ensures forall c :: c in keys <==> c in columns && IsKey(c)
  {
    if columns == [] then []
    else (if IsKey(columns[0]) then [columns[0]] else []) + KeyColumns(columns[1..])
  }

  /** `get_table_primary_key`: element 0 of the key columns, `IndexError` when there is none. */
  function PrimaryKeyColumn(columns: seq<Column>): (r: Result<Column>)
    ensures r.Ok? ==> r.value in columns && IsKey(r.value)
    ensures r.Err? ==> r == Err(IndexError) && forall c :: c in columns ==> !IsKey(c)
  {
    var keys := KeyColumns(columns);
    if |keys| == 0 then Err(IndexError) else Ok(keys[0])
  }

  /** `get_table_primary_key` gives the column at the first `PRI` position. */
  lemma {:induction false} PrimaryKeyColumnIsFirst(columns: seq<Column>, i: nat)
    requires IsFirstKey(columns, i)
    ensures PrimaryKeyColumn(columns) == Ok(columns[i])
  {
    if i > 0 {
      PrimaryKeyColumnIsFirst(columns[1..], i - 1);
      assert KeyColumns(columns) == KeyColumns(columns[1..]);
    }
  }

  /** `get_table_primary_key` raises `IndexError` exactly when no column is `PRI`. */
  lemma {:induction false} PrimaryKeyColumnFails(columns: seq<Column>)
    ensures PrimaryKeyColumn(columns).Err? <==> !HasKey(columns)
    ensures PrimaryKeyColumn(columns).Err? ==> PrimaryKeyColumn(columns).fault == IndexError
  {
    if HasKey(columns) {
      var i :| 0 <= i < |columns| && IsKey(columns[i]);
      assert columns[i] in KeyColumns(columns);
    }
    if |KeyColumns(columns)| > 0 {
      var c := KeyColumns(columns)[0];
      assert c in KeyColumns(columns);
      var i :| 0 <= i < |columns| && columns[i] == c;
      assert IsKey(columns[i]);
    }
  }

  /**
   * The scan of `get_table_primary_key_index` from position `from` on: the first
   * `PRI` position at or after `from`, or 0 when there is none.
   */
  function KeyIndexFrom(columns: seq<Column>, from: nat): (k: nat)
    requires from <= |columns|
    ensures (exists i :: from <= i < |columns| && IsKey(columns[i])) ==>
      from <= k < |columns| && IsKey(columns[k]) && forall j :: from <= j < k ==> !IsKey(columns[j])
    ensures (forall i :: from <= i < |columns| ==> !IsKey(columns[i])) ==> k == 0
    decreases |columns| - from
  {
    if from == |columns| then 0
    else if IsKey(columns[from]) then from
    else KeyIndexFrom(columns, from + 1)
  }

  function KeyIndex(columns: seq<Column>): nat
  {
    KeyIndexFrom(columns, 0)
  }

  /**
   * `get_table_primary_key_index`: the smallest index whose key role is `PRI`,
   * falling back to 0 when there is none.
   */
  method PrimaryKeyIndex(columns: seq<Column>) returns (k: nat)
    ensures HasKey(columns) ==> IsFirstKey(columns, k)
    ensures !HasKey(columns) ==> k == 0
    ensures k == KeyIndex(columns)
  {
    var i := 0;
    while i < |columns|
      invariant 0 <= i <= |columns|
      invariant forall j :: 0 <= j < i ==> !IsKey(columns[j])
    {
      if columns[i].key == "PRI" {
        return i;
      }
      i := i + 1;
    }
    return 0;
  }

  /**
   * Whenever `get_table_primary_key` succeeds, `get_table_primary_key_index` points
   * at that same column; when it fails the index falls back to 0.
   */
  lemma {:induction false} LocatorsAgree(columns: seq<Column>)
    ensures PrimaryKeyColumn(columns).Ok? ==>
      KeyIndex(columns) < |columns| && columns[KeyIndex(columns)] == PrimaryKeyColumn(columns).value
    ensures PrimaryKeyColumn(columns).Err? ==> KeyIndex(columns) == 0
  {
    PrimaryKeyColumnFails(columns);
    if HasKey(columns) {
      PrimaryKeyColumnIsFirst(columns, KeyIndex(columns));
    }
  }
}
