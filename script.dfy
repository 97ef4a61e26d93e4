/**
 * The script assembler and the export driver: the stages that append the
 * header, the sequence-disabling statements, the `INSERT` statement with one
 * line per row, and the sequence-recreating statements to one growing list
 * of lines, in that order.
 */
module Script {
  import opened Text
  import opened Data
  import opened Rows
  import opened PrimaryKey

  // ----- The lines each stage appends -----

  /** `append_initial_comments`. */
  function InitialComments(table: string): seq<string>
  {
    ["-- Generated by MySQL data migration tool", "-- Table: " + table, "-- By: jfelixhe", ""]
  }

  /** The name of the PostgreSQL sequence behind the key column `key`. */
  function SequenceName(key: string): string
  {
    key + "_seq"
  }

  /** `append_sequence_disabling`. */
  function SequenceDisabling(table: string, key: string): seq<string>
  {
    [ "DROP SEQUENCE IF EXISTS " + SequenceName(key) + ";",
      "ALTER TABLE " + table + " ALTER COLUMN " + key + " DROP DEFAULT;",
      "" ]
  }

  /** The first line of the insert stage. */
  function InsertHeader(table: string, columns: seq<Column>): string
  {
    "INSERT INTO " + table + " (" + CommaSeparatedColumns(columns) + ") VALUES"
  }

  /** The line written for a row whose values serialize to `text`. */
  function RowLine(text: string): string
  {
    "    (" + text + ")"
  }

  /**
   * The row lines of `append_data_insert` for `rows`, and what it returns: the value
   * in column `keyIndex` of the last row (0 when there are no rows), or the first
   * fault. A row's line is appended before its key value is read.
   */
  function InsertRows(columns: seq<Column>, keyIndex: nat, rows: seq<Row>): Emitted<Value>
    decreases |rows|
  {
    if rows == [] then Emitted([], Ok(Int(0)))
    else
      var before := InsertRows(columns, keyIndex, rows[..|rows| - 1]);
      if before.outcome.Err? then before
      else
        var row := rows[|rows| - 1];
        match RowText(row, columns)
        case Err(f) => Emitted(before.lines, Err(f))
        case Ok(text) =>
          var lines := before.lines + [RowLine(text)];
          if keyIndex < |row| then Emitted(lines, Ok(row[keyIndex])) else Emitted(lines, Err(IndexError))
  }

  /** `max_primary_key_id + 1`: only an integer key can be incremented. */
  function NextKey(last: Value): (r: Result<int>)
    ensures r.Ok? <==> last.Int?
    ensures r.Ok? ==> r.value > last.n
  {
    if last.Int? then Ok(last.n + 1) else Err(TypeError)
  }

  function SetDefaultLine(table: string, key: string): string
  {
    "ALTER TABLE " + table + " ALTER COLUMN " + key
      + " SET DEFAULT NEXTVAL(('" + SequenceName(key) + "'::text)::REGCLASS);"
  }

  function CreateSequenceLine(key: string, start: int): string
  {
    "CREATE SEQUENCE " + SequenceName(key) + " INCREMENT 1 START " + DecimalText(start) + ";"
  }

  /**
   * `append_sequence_enabling`: a blank line and the default restoration are appended
   * before `last + 1` is evaluated, the sequence creation after.
   */
  function SequenceEnabling(table: string, key: string, last: Value): Emitted<()>
  {
    var restore := ["", SetDefaultLine(table, key)];
    match NextKey(last)
    case Err(f) => Emitted(restore, Err(f))
    case Ok(start) => Emitted(restore + [CreateSequenceLine(key, start)], Ok(()))
  }

  /**
   * The lines `create_data_export_script` writes to the output file, or the fault
   * that stops it before anything is written.
   */
  function ExportScript(table: string, columns: seq<Column>, rows: seq<Row>): Result<seq<string>>
  {
    match PrimaryKeyColumn(columns)
    case Err(f) => Err(f)
    case Ok(key) =>
      var inserted := InsertRows(columns, KeyIndex(columns), rows);
      match inserted.outcome
      case Err(f) => Err(f)
      case Ok(last) =>
        var enabled := SequenceEnabling(table, key.name, last);
        match enabled.outcome
        case Err(f) => Err(f)
        case Ok(_) =>
          Ok(InitialComments(table) + SequenceDisabling(table, key.name)
             + [InsertHeader(table, columns)] + inserted.lines + enabled.lines)
  }

  // ----- The list the stages append to -----

  /** The `outcome_text` list every stage appends its lines to. */
  class OutcomeText {
    var lines: seq<string>

    constructor ()
      ensures lines == []
    {
      lines := [];
    }

    method Append(line: string)
      modifies this
      ensures lines == old(lines) + [line]
    {
      lines := lines + [line];
    }

    /** `append_initial_comments`. */
    method AppendInitialComments(table: string)
      modifies this
      ensures lines == old(lines) + InitialComments(table)
    {
      Append("-- Generated by MySQL data migration tool");
      Append("-- Table: " + table);
      Append("-- By: jfelixhe");
      Append("");
    }

    /** `append_sequence_disabling`. */
    method AppendSequenceDisabling(table: string, key: Column)
      modifies this
      ensures lines == old(lines) + SequenceDisabling(table, key.name)
    {
      Append("DROP SEQUENCE IF EXISTS " + SequenceName(key.name) + ";");
      Append("ALTER TABLE " + table + " ALTER COLUMN " + key.name + " DROP DEFAULT;");
      Append("");
    }

    /**
     * `append_data_insert`, with the fetched rows passed in: the `INSERT` line, then
     * one line per row in row order, remembering the key value of each row in turn.
     */
    method AppendDataInsert(table: string, columns: seq<Column>, keyIndex: nat, rows: seq<Row>)
      returns (maxPrimaryKeyId: Result<Value>)
      modifies this
      ensures var inserted := InsertRows(columns, keyIndex, rows);
        lines == old(lines) + [InsertHeader(table, columns)] + inserted.lines
        && maxPrimaryKeyId == inserted.outcome
    {
      Append(InsertHeader(table, columns));
      ghost var start := lines;
      ghost var emitted: seq<string> := [];
      var last := Int(0);
      var i := 0;
      while i < |rows|
        invariant 0 <= i <= |rows|
        invariant lines == start + emitted
        invariant InsertRows(columns, keyIndex, rows[..i]) == Emitted(emitted, Ok(last))
      {
        var text := GenerateRowText(rows[i], columns);
        if text.Err? {
          InsertStopsAt(columns, keyIndex, rows, i, emitted, last);
          return Err(text.fault);
        }
        ghost var before := emitted;
        Append(RowLine(text.value));
        emitted := emitted + [RowLine(text.value)];
        if keyIndex >= |rows[i]| {
          InsertStopsAt(columns, keyIndex, rows, i, before, last);
          return Err(IndexError);
        }
        InsertPassesAt(columns, keyIndex, rows, i, before, last);
        last := rows[i][keyIndex];
        i := i + 1;
      }
      assert rows[..i] == rows;
      maxPrimaryKeyId := Ok(last);
    }

    /** `append_sequence_enabling`. */
    method AppendSequenceEnabling(table: string, key: Column, maxPrimaryKeyId: Value)
      returns (done: Result<()>)
      modifies this
      ensures var enabled := SequenceEnabling(table, key.name, maxPrimaryKeyId);
        lines == old(lines) + enabled.lines && done == enabled.outcome
    {
      Append("");
      Append(SetDefaultLine(table, key.name));
      if !maxPrimaryKeyId.Int? {
        return Err(TypeError);
      }
      Append(CreateSequenceLine(key.name, maxPrimaryKeyId.n + 1));
      done := Ok(());
    }
  }

  /** Row `i` gets through the insert stage: its line is added and its key is the new result. */
  lemma InsertPassesAt(columns: seq<Column>, keyIndex: nat, rows: seq<Row>, i: nat, emitted: seq<string>, last: Value)
    requires i < |rows| && InsertRows(columns, keyIndex, rows[..i]) == Emitted(emitted, Ok(last))
    requires Insertable(columns, keyIndex, rows[i])
    ensures InsertRows(columns, keyIndex, rows[..i + 1])
      == Emitted(emitted + [RowLine(RowText(rows[i], columns).value)], Ok(rows[i][keyIndex]))
  {
    InsertRowsStep(columns, keyIndex, rows[..i + 1]);
    assert rows[..i + 1][..i] == rows[..i];
  }

  /** Row `i` stops the insert stage: the whole stage ends as the first `i + 1` rows do. */
  lemma InsertStopsAt(columns: seq<Column>, keyIndex: nat, rows: seq<Row>, i: nat, emitted: seq<string>, last: Value)
    requires i < |rows| && InsertRows(columns, keyIndex, rows[..i]) == Emitted(emitted, Ok(last))
    requires !Insertable(columns, keyIndex, rows[i])
    ensures InsertRows(columns, keyIndex, rows) == Emitted(
      if RowText(rows[i], columns).Err? then emitted else emitted + [RowLine(RowText(rows[i], columns).value)],
      Err(if RowText(rows[i], columns).Err? then RowText(rows[i], columns).fault else IndexError))
  {
    InsertRowsStep(columns, keyIndex, rows[..i + 1]);
    assert rows[..i + 1][..i] == rows[..i];
    InsertRowsPrefixFails(columns, keyIndex, rows, i + 1);
  }

  /** Once the rows before position `k` fail, the whole insert stage fails the same way. */
  lemma {:induction false} InsertRowsPrefixFails(columns: seq<Column>, keyIndex: nat, rows: seq<Row>, k: nat)
    requires k <= |rows| && InsertRows(columns, keyIndex, rows[..k]).outcome.Err?
    ensures InsertRows(columns, keyIndex, rows) == InsertRows(columns, keyIndex, rows[..k])
    decreases |rows|
  {
    if k < |rows| {
      var init := rows[..|rows| - 1];
      assert init[..k] == rows[..k];
      InsertRowsPrefixFails(columns, keyIndex, init, k);
    } else {
      assert rows[..k] == rows;
    }
  }

  /**
   * `create_data_export_script` without the connection and the file: locate the key,
   * then run the four stages in order on a fresh list; any fault stops the run and
   * nothing is written.
   */
  method CreateDataExportScript(table: string, columns: seq<Column>, rows: seq<Row>)
    returns (r: Result<seq<string>>)
    ensures r == ExportScript(table, columns, rows)
  {
    var primaryKeyColumn := PrimaryKeyColumn(columns);
    if primaryKeyColumn.Err? {
      return Err(primaryKeyColumn.fault);
    }
    var primaryKeyIndex := PrimaryKeyIndex(columns);
    var outcomeText := new OutcomeText();
    outcomeText.AppendInitialComments(table);
    outcomeText.AppendSequenceDisabling(table, primaryKeyColumn.value);
    ghost var prologue := outcomeText.lines;
    assert prologue == InitialComments(table) + SequenceDisabling(table, primaryKeyColumn.value.name);
    var maxPrimaryKeyId := outcomeText.AppendDataInsert(table, columns, primaryKeyIndex, rows);
    ghost var inserted := InsertRows(columns, primaryKeyIndex, rows);
    if maxPrimaryKeyId.Err? {
      return Err(maxPrimaryKeyId.fault);
    }
    var done := outcomeText.AppendSequenceEnabling(table, primaryKeyColumn.value, maxPrimaryKeyId.value);
    if done.Err? {
      return Err(done.fault);
    }
    assert outcomeText.lines == prologue + [InsertHeader(table, columns)] + inserted.lines
      + SequenceEnabling(table, primaryKeyColumn.value.name, maxPrimaryKeyId.value).lines;
    r := Ok(outcomeText.lines);
  }

  // ----- Properties of the assembled script -----

  /** A row the insert stage gets through: it serializes and has a value at the key position. */
  predicate Insertable(columns: seq<Column>, keyIndex: nat, row: Row)
  {
    RowText(row, columns).Ok? && keyIndex < |row|
  }

  /** The key value the insert stage ends with: the last row's, or 0 when there are no rows. */
  function LastRowKey(rows: seq<Row>, keyIndex: nat): Value
    requires rows != [] ==> keyIndex < |rows[|rows| - 1]|
  {
    if rows == [] then Int(0) else rows[|rows| - 1][keyIndex]
  }

  /**
   * The insert stage gets through exactly when every row does; it then writes one
   * line per row, in row order, and returns the key value of the LAST row, whatever
   * the other rows hold.
   */
  lemma {:induction false} InsertRowsMeaning(columns: seq<Column>, keyIndex: nat, rows: seq<Row>)
    ensures InsertRows(columns, keyIndex, rows).outcome.Ok? <==>
      forall j :: 0 <= j < |rows| ==> Insertable(columns, keyIndex, rows[j])
    ensures var inserted := InsertRows(columns, keyIndex, rows);
      inserted.outcome.Ok? ==>
        && |inserted.lines| == |rows|
        && (forall j :: 0 <= j < |rows| ==>
              Insertable(columns, keyIndex, rows[j])
              && inserted.lines[j] == RowLine(RowText(rows[j], columns).value))
        && inserted.outcome.value == LastRowKey(rows, keyIndex)
  {
    InsertRowsSucceeds(columns, keyIndex, rows);
    if InsertRows(columns, keyIndex, rows).outcome.Ok? {
      InsertRowsLines(columns, keyIndex, rows);
    }
  }

  lemma {:induction false} InsertRowsSucceeds(columns: seq<Column>, keyIndex: nat, rows: seq<Row>)
    ensures InsertRows(columns, keyIndex, rows).outcome.Ok? <==>
      forall j :: 0 <= j < |rows| ==> Insertable(columns, keyIndex, rows[j])
    decreases |rows|
  {
    if rows != [] {
      var n := |rows|;
      var init := rows[..n - 1];
      InsertRowsSucceeds(columns, keyIndex, init);
      InsertRowsStep(columns, keyIndex, rows);
      if InsertRows(columns, keyIndex, init).outcome.Err? {
        var j :| 0 <= j < n - 1 && !Insertable(columns, keyIndex, init[j]);
        assert init[j] == rows[j];
        assert InsertRows(columns, keyIndex, rows).outcome.Err?;
      } else if !Insertable(columns, keyIndex, rows[n - 1]) {
        assert InsertRows(columns, keyIndex, rows).outcome.Err?;
      } else {
        assert InsertRows(columns, keyIndex, rows).outcome.Ok?;
        forall j | 0 <= j < n
          ensures Insertable(columns, keyIndex, rows[j])
        {
          if j < n - 1 {
            assert init[j] == rows[j];
          }
        }
      }
    }
  }

  lemma {:induction false} InsertRowsLines(columns: seq<Column>, keyIndex: nat, rows: seq<Row>)
    requires forall j :: 0 <= j < |rows| ==> Insertable(columns, keyIndex, rows[j])
    ensures var inserted := InsertRows(columns, keyIndex, rows);
      && inserted.outcome.Ok?
      && |inserted.lines| == |rows|
      && (forall j :: 0 <= j < |rows| ==>
            RowText(rows[j], columns).Ok? && inserted.lines[j] == RowLine(RowText(rows[j], columns).value))
      && inserted.outcome.value == LastRowKey(rows, keyIndex)
    decreases |rows|
  {
    if rows != [] {
      var n := |rows|;
      var init := rows[..n - 1];
      var row := rows[n - 1];
      assert forall j :: 0 <= j < n - 1 ==> init[j] == rows[j];
      InsertRowsLines(columns, keyIndex, init);
      InsertRowsStep(columns, keyIndex, rows);
      var before := InsertRows(columns, keyIndex, init);
      var after := InsertRows(columns, keyIndex, rows);
      assert Insertable(columns, keyIndex, row);
      assert after.lines == before.lines + [RowLine(RowText(row, columns).value)];
      forall j | 0 <= j < n
        ensures RowText(rows[j], columns).Ok? && after.lines[j] == RowLine(RowText(rows[j], columns).value)
      {
        assert Insertable(columns, keyIndex, rows[j]);
        if j < n - 1 {
          assert after.lines[j] == before.lines[j];
        }
      }
    }
  }

  /** One step of the insert stage: the last row either stops it or adds one line and its key. */
  lemma InsertRowsStep(columns: seq<Column>, keyIndex: nat, rows: seq<Row>)
    requires rows != []
    ensures var before := InsertRows(columns, keyIndex, rows[..|rows| - 1]);
      var row := rows[|rows| - 1];
      var after := InsertRows(columns, keyIndex, rows);
      && (before.outcome.Err? ==> after == before)
      && (before.outcome.Ok? && !Insertable(columns, keyIndex, row) ==> after.outcome.Err?)
      && (before.outcome.Ok? && Insertable(columns, keyIndex, row) ==>
            after == Emitted(before.lines + [RowLine(RowText(row, columns).value)], Ok(row[keyIndex])))
  {
  }

  /**
   * `create_data_export_script` produces a script exactly when the table has a `PRI`
   * column, every row gets through the insert stage, and the last row's key (if any)
   * is an integer that can be incremented.
   */
  lemma {:induction false} ExportScriptSucceeds(table: string, columns: seq<Column>, rows: seq<Row>)
    ensures ExportScript(table, columns, rows).Ok? <==>
      && HasKey(columns)
      && (forall j :: 0 <= j < |rows| ==> Insertable(columns, KeyIndex(columns), rows[j]))
      && LastRowKey(rows, KeyIndex(columns)).Int?
  {
    PrimaryKeyColumnFails(columns);
    InsertRowsMeaning(columns, KeyIndex(columns), rows);
  }

  /**
   * A produced script holds, in this order: the 4 header lines, the 3 lines that drop
   * the sequence and the column default, the `INSERT` line, one `    (<row text>)` line
   * per row in row order, then the blank line, the default restoration and the
   * sequence creation, which starts at the last row's key plus one. Both sequence
   * statements name the column `get_table_primary_key` found.
   */
  lemma {:induction false} ExportScriptLayout(table: string, columns: seq<Column>, rows: seq<Row>)
    requires ExportScript(table, columns, rows).Ok?
    ensures PrimaryKeyColumn(columns).Ok?
    ensures var lines := ExportScript(table, columns, rows).value;
      var key := PrimaryKeyColumn(columns).value.name;
      && |lines| == 11 + |rows|
      && lines[..4] == InitialComments(table)
      && lines[4..7] == SequenceDisabling(table, key)
      && lines[7] == InsertHeader(table, columns)
      && (forall j :: 0 <= j < |rows| ==>
            Insertable(columns, KeyIndex(columns), rows[j])
            && lines[8 + j] == RowLine(RowText(rows[j], columns).value))
      && LastRowKey(rows, KeyIndex(columns)).Int?
      && lines[8 + |rows|..] ==
           ["", SetDefaultLine(table, key), CreateSequenceLine(key, LastRowKey(rows, KeyIndex(columns)).n + 1)]
  {
    ExportScriptSucceeds(table, columns, rows);
    var key := PrimaryKeyColumn(columns).value.name;
    var inserted := InsertRows(columns, KeyIndex(columns), rows);
    InsertRowsMeaning(columns, KeyIndex(columns), rows);
    var enabling := ["", SetDefaultLine(table, key), CreateSequenceLine(key, LastRowKey(rows, KeyIndex(columns)).n + 1)];
    ExportScriptStages(table, columns, rows, key, inserted.lines, enabling);
    StagesLayout(InitialComments(table), SequenceDisabling(table, key), InsertHeader(table, columns),
                 inserted.lines, enabling);
  }

  /** A produced script is the four stages' lines, end to end. */
  lemma ExportScriptStages(table: string, columns: seq<Column>, rows: seq<Row>,
                           key: string, rowLines: seq<string>, enabling: seq<string>)
    requires ExportScript(table, columns, rows).Ok?
    requires PrimaryKeyColumn(columns).Ok? && key == PrimaryKeyColumn(columns).value.name
    requires rowLines == InsertRows(columns, KeyIndex(columns), rows).lines
    requires InsertRows(columns, KeyIndex(columns), rows).outcome == Ok(LastRowKey(rows, KeyIndex(columns)))
    requires LastRowKey(rows, KeyIndex(columns)).Int?
    requires enabling == ["", SetDefaultLine(table, key), CreateSequenceLine(key, LastRowKey(rows, KeyIndex(columns)).n + 1)]
    ensures ExportScript(table, columns, rows).value
      == InitialComments(table) + SequenceDisabling(table, key) + [InsertHeader(table, columns)] + rowLines + enabling
  {
    assert SequenceEnabling(table, key, LastRowKey(rows, KeyIndex(columns))).lines == enabling;
  }

  lemma {:induction false} StagesLayout(header: seq<string>, disabling: seq<string>, insert: string,
                                        rowLines: seq<string>, enabling: seq<string>)
    requires |header| == 4 && |disabling| == 3
    ensures var lines := header + disabling + [insert] + rowLines + enabling;
      && |lines| == 8 + |rowLines| + |enabling|
      && lines[..4] == header && lines[4..7] == disabling && lines[7] == insert
      && (forall j :: 0 <= j < |rowLines| ==> lines[8 + j] == rowLines[j])
      && lines[8 + |rowLines|..] == enabling
  {
    var lines := header + disabling + [insert] + rowLines + enabling;
    var prologue := header + disabling + [insert];
    assert lines == prologue + rowLines + enabling;
    assert prologue[..4] == header && prologue[4..7] == disabling;
  }

  /** The second header line names the table. */
  lemma {:induction false} HeaderNamesTable(table: string)
    ensures |InitialComments(table)| == 4 && Contains(InitialComments(table)[1], table)
  {
    OccursInConcat("-- Table: ", table, "");
    assert "-- Table: " + table + "" == InitialComments(table)[1];
    ContainsWitness(InitialComments(table)[1], table, 10);
  }

  /** The statements that drop, reattach and recreate the sequence all name `<key>_seq`. */
  lemma {:induction false} SequenceStatementsNameKey(table: string, key: string, start: int)
    ensures Contains(SequenceDisabling(table, key)[0], SequenceName(key))
    ensures Contains(SetDefaultLine(table, key), SequenceName(key))
    ensures Contains(CreateSequenceLine(key, start), SequenceName(key))
  {
    var name := SequenceName(key);
    assert SequenceDisabling(table, key)[0] == "DROP SEQUENCE IF EXISTS " + name + ";";
    Surrounded("DROP SEQUENCE IF EXISTS ", name, ";");
    SetDefaultNamesSequence(table, key);
    var rest := " INCREMENT 1 START " + DecimalText(start) + ";";
    assert CreateSequenceLine(key, start) == "CREATE SEQUENCE " + name + rest;
    Surrounded("CREATE SEQUENCE ", name, rest);
  }

  lemma SetDefaultNamesSequence(table: string, key: string)
    ensures Contains(SetDefaultLine(table, key), SequenceName(key))
  {
    var restore := "ALTER TABLE " + table + " ALTER COLUMN " + key + " SET DEFAULT NEXTVAL(('";
    var tail := "'::text)::REGCLASS);";
    assert SetDefaultLine(table, key) == restore + SequenceName(key) + tail;
    Surrounded(restore, SequenceName(key), tail);
  }

  /** A text occurs in itself with anything before and after it. */
  lemma Surrounded(before: string, sub: string, after: string)
    ensures Contains(before + sub + after, sub)
  {
    OccursInConcat(before, sub, after);
    ContainsWitness(before + sub + after, sub, |before|);
  }
}
