/**
 * The row serializer and the column list: one comma-joined text per fetched
 * row, each value encoded under the declared type of the column at the same
 * position, and the comma-joined column names of the `INSERT` statement.
 */
module Rows {
  import opened Text
  import opened Data
  import opened Encoder

  /** The separator both lists are joined with. */
  const Separator := ", "

  /**
   * The tokens the loop of `generate_data_row_text` collects: value `i` encoded
   * under `columns[i]`'s type, in row order. The first value that raises decides the
   * fault; a value beyond the last column raises `IndexError`.
   */
  function EncodeAll(row: Row, columns: seq<Column>): Result<seq<Value>>
    decreases |row|
  {
    if row == [] then Ok([])
    else
      match EncodeAll(row[..|row| - 1], columns)
      case Err(f) => Err(f)
      case Ok(tokens) =>
        var i := |row| - 1;
        if i >= |columns| then Err(IndexError)
        else
          match Encode(row[i], columns[i].columnType)
          case Err(f) => Err(f)
          case Ok(t) => Ok(tokens + [t])
  }

  /** Value `i` of the row can be encoded: it has a column and its encoding does not raise. */
  predicate Encodable(row: Row, columns: seq<Column>, i: nat)
    requires i < |row|
  {
    i < |columns| && Encode(row[i], columns[i].columnType).Ok?
  }

  /**
   * `EncodeAll` succeeds exactly when every value has a column and encodes, and then
   * gives one token per value, in row order; otherwise it raises the fault of the
   * first value that fails.
   */
  lemma {:induction false} EncodeAllMeaning(row: Row, columns: seq<Column>)
    ensures EncodeAll(row, columns).Ok? <==> forall i :: 0 <= i < |row| ==> Encodable(row, columns, i)
    ensures EncodeAll(row, columns).Ok? ==>
      && |EncodeAll(row, columns).value| == |row|
      && forall i :: 0 <= i < |row| ==>
           (Encodable(row, columns, i) &&
            EncodeAll(row, columns).value[i] == Encode(row[i], columns[i].columnType).value)
    ensures EncodeAll(row, columns).Err? ==>
      exists k :: 0 <= k < |row| && !Encodable(row, columns, k)
        && (forall j :: 0 <= j < k ==> Encodable(row, columns, j))
        && EncodeAll(row, columns).fault ==
             (if k >= |columns| then IndexError else Encode(row[k], columns[k].columnType).fault)
  {
    EncodeAllTokens(row, columns);
    if EncodeAll(row, columns).Err? {
      EncodeAllFirstFault(row, columns);
      var k: nat :| FailsFirstAt(row, columns, k);
    }
  }

  /** One step of `EncodeAll`: the last value either raises or adds its token. */
  lemma EncodeAllStep(row: Row, columns: seq<Column>)
    requires row != []
    ensures var before := EncodeAll(row[..|row| - 1], columns);
      var i := |row| - 1;
      var after := EncodeAll(row, columns);
      && (before.Err? ==> after == before)
      && (before.Ok? && !Encodable(row, columns, i) ==>
            after == Err(if i >= |columns| then IndexError else Encode(row[i], columns[i].columnType).fault))
      && (before.Ok? && Encodable(row, columns, i) ==>
            after == Ok(before.value + [Encode(row[i], columns[i].columnType).value]))
  {
  }

  lemma {:induction false} EncodeAllTokens(row: Row, columns: seq<Column>)
    ensures EncodeAll(row, columns).Ok? <==> forall i :: 0 <= i < |row| ==> Encodable(row, columns, i)
    ensures EncodeAll(row, columns).Ok? ==>
      && |EncodeAll(row, columns).value| == |row|
      && forall i :: 0 <= i < |row| ==>
           (Encodable(row, columns, i) &&
            EncodeAll(row, columns).value[i] == Encode(row[i], columns[i].columnType).value)
    decreases |row|
  {
    if row != [] {
      var n := |row|;
      var init := row[..n - 1];
      EncodeAllTokens(init, columns);
      EncodeAllStep(row, columns);
      assert forall i :: 0 <= i < n - 1 ==> init[i] == row[i];
      assert forall i :: 0 <= i < n - 1 ==> (Encodable(init, columns, i) <==> Encodable(row, columns, i));
      if EncodeAll(init, columns).Err? {
        var k :| 0 <= k < n - 1 && !Encodable(init, columns, k);
        assert !Encodable(row, columns, k);
      } else if Encodable(row, columns, n - 1) {
        var before := EncodeAll(init, columns).value;
        var after := EncodeAll(row, columns).value;
        assert after == before + [Encode(row[n - 1], columns[n - 1].columnType).value];
        forall i | 0 <= i < n
          ensures Encodable(row, columns, i) && after[i] == Encode(row[i], columns[i].columnType).value
        {
          if i < n - 1 {
            assert after[i] == before[i];
          }
        }
      }
    }
  }

  /** Value `k` is the first that cannot be encoded, and `EncodeAll` raises its fault. */
  predicate FailsFirstAt(row: Row, columns: seq<Column>, k: nat)
  {
    && k < |row| && !Encodable(row, columns, k)
    && (forall j :: 0 <= j < k ==> Encodable(row, columns, j))
    && EncodeAll(row, columns) ==
         Err(if k >= |columns| then IndexError else Encode(row[k], columns[k].columnType).fault)
  }

  lemma {:induction false} EncodeAllFirstFault(row: Row, columns: seq<Column>)
    requires EncodeAll(row, columns).Err?
    ensures exists k: nat :: FailsFirstAt(row, columns, k)
    decreases |row|
  {
    var init := row[..|row| - 1];
    if EncodeAll(init, columns).Err? {
      EncodeAllFirstFault(init, columns);
      var k: nat :| FailsFirstAt(init, columns, k);
      FirstFaultCarries(row, columns, k);
    } else {
      FirstFaultAtEnd(row, columns);
    }
  }

  /** A value that fails first in the row without its last value still fails first in the row. */
  lemma FirstFaultCarries(row: Row, columns: seq<Column>, k: nat)
    requires row != [] && FailsFirstAt(row[..|row| - 1], columns, k)
    ensures FailsFirstAt(row, columns, k)
  {
    var init := row[..|row| - 1];
    EncodeAllStep(row, columns);
    assert init[k] == row[k];
    forall j | 0 <= j < k
      ensures Encodable(row, columns, j)
    {
      assert Encodable(init, columns, j);
      assert init[j] == row[j];
    }
  }

  /** When every value before the last encodes but the row fails, the last value fails first. */
  lemma FirstFaultAtEnd(row: Row, columns: seq<Column>)
    requires row != [] && EncodeAll(row[..|row| - 1], columns).Ok? && EncodeAll(row, columns).Err?
    ensures FailsFirstAt(row, columns, |row| - 1)
  {
    var n := |row|;
    var init := row[..n - 1];
    EncodeAllStep(row, columns);
    EncodeAllTokens(init, columns);
    forall j | 0 <= j < n - 1
      ensures Encodable(row, columns, j)
    {
      assert Encodable(init, columns, j);
      assert init[j] == row[j];
    }
  }

  /** Once a prefix of the row fails, the whole row fails the same way. */
  lemma {:induction false} EncodeAllPrefixFails(row: Row, columns: seq<Column>, k: nat)
    requires k <= |row| && EncodeAll(row[..k], columns).Err?
    ensures EncodeAll(row, columns) == EncodeAll(row[..k], columns)
    decreases |row|
  {
    if k < |row| {
      var init := row[..|row| - 1];
      assert init[..k] == row[..k];
      EncodeAllPrefixFails(init, columns, k);
    } else {
      assert row[..k] == row;
    }
  }

  predicate AllChars(tokens: seq<Value>)
  {
    forall i :: 0 <= i < |tokens| ==> tokens[i].Chars?
  }

  /** The strings held by tokens that are all `str`. */
  function Strings(tokens: seq<Value>): (r: seq<string>)
    requires AllChars(tokens)
    ensures |r| == |tokens| && forall i :: 0 <= i < |tokens| ==> r[i] == tokens[i].s
  {
    if tokens == [] then [] else Strings(tokens[..|tokens| - 1]) + [tokens[|tokens| - 1].s]
  }

  /** `sep.join(tokens)`: Python raises `TypeError` when a token is not a `str`. */
  function JoinTokens(tokens: seq<Value>, sep: string): (r: Result<string>)
    ensures r.Ok? <==> AllChars(tokens)
  {
    if AllChars(tokens) then Ok(Join(Strings(tokens), sep)) else Err(TypeError)
  }

  /** The text `generate_data_row_text(row, columns)` returns, or the fault it raises. */
  function RowText(row: Row, columns: seq<Column>): Result<string>
  {
    match EncodeAll(row, columns)
    case Err(f) => Err(f)
    case Ok(tokens) => JoinTokens(tokens, Separator)
  }

  /**
   * `generate_data_row_text`: encodes the values one by one in row order, collecting
   * the tokens, and joins them with `", "`.
   */
  method GenerateRowText(row: Row, columns: seq<Column>) returns (r: Result<string>)
    ensures r == RowText(row, columns)
  {
    var tokens: seq<Value> := [];
    var i := 0;
    while i < |row|
      invariant 0 <= i <= |row|
      invariant EncodeAll(row[..i], columns) == Ok(tokens)
    {
      assert row[..i + 1][..i] == row[..i];
      if i >= |columns| {
        EncodeAllPrefixFails(row, columns, i + 1);
        return Err(IndexError);
      }
      var token := Encode(row[i], columns[i].columnType);
      if token.Err? {
        EncodeAllPrefixFails(row, columns, i + 1);
        return Err(token.fault);
      }
      tokens := tokens + [token.value];
      i := i + 1;
    }
    assert row[..i] == row;
    r := JoinTokens(tokens, Separator);
  }

  /**
   * A row serializes exactly when every value has a column, encodes, and encodes to
   * a `str`; its text is then those strings, one per value in row order, joined by `", "`.
   */
  lemma {:induction false} RowTextMeaning(row: Row, columns: seq<Column>)
    ensures RowText(row, columns).Ok? <==>
      forall i :: 0 <= i < |row| ==>
        Encodable(row, columns, i) && Encode(row[i], columns[i].columnType).value.Chars?
    ensures RowText(row, columns).Ok? ==>
      exists tokens: seq<string> ::
        && |tokens| == |row|
        && (forall i :: 0 <= i < |row| ==> Chars(tokens[i]) == Encode(row[i], columns[i].columnType).value)
        && RowText(row, columns).value == Join(tokens, Separator)
  {
    EncodeAllMeaning(row, columns);
    if EncodeAll(row, columns).Ok? {
      var values := EncodeAll(row, columns).value;
      if AllChars(values) {
        var tokens := Strings(values);
        assert forall i :: 0 <= i < |row| ==> Chars(tokens[i]) == values[i];
      }
    }
  }

  /** The column names, in table order. */
  function Names(columns: seq<Column>): (names: seq<string>)
    ensures |names| == |columns| && forall i :: 0 <= i < |columns| ==> names[i] == columns[i].name
  {
    seq(|columns|, i requires 0 <= i < |columns| => columns[i].name)
  }

  /** `comma_separated_columns`: the column names joined by `", "`. */
  function CommaSeparatedColumns(columns: seq<Column>): (list: string)
    ensures columns == [] ==> list == ""
    ensures |columns| == 1 ==> list == columns[0].name
    ensures columns != [] ==> |list| == TotalLength(Names(columns)) + 2 * (|columns| - 1)
  {
    if columns == [] then ""  // `", ".join([])` is the empty string
    else
      JoinLength(Names(columns), Separator);
      Join(Names(columns), Separator)
  }

  /**
   * Each column name appears unchanged in the column list at its own offset, followed
   * by `", "` when another column comes after it; the list ends right after the last name.
   */
  lemma {:induction false} ColumnListLayout(columns: seq<Column>, k: nat)
    requires k < |columns|
    ensures var list := CommaSeparatedColumns(columns);
      var at := JoinOffset(Names(columns), Separator, k);
      && at + |columns[k].name| <= |list|
      && list[at..at + |columns[k].name|] == columns[k].name
      && (k + 1 < |columns| ==> at + |columns[k].name| + 2 <= |list|
                                && list[at + |columns[k].name|..at + |columns[k].name| + 2] == ", ")
      && (k + 1 == |columns| ==> at + |columns[k].name| == |list|)
  {
    JoinLayout(Names(columns), Separator, k);
    if k + 1 == |columns| {
      JoinPrefixEnds(Names(columns), Separator, k);
      assert Names(columns)[..k + 1] == Names(columns);
    }
  }
}
