/**
 * Whole runs of the exporter on small tables, worked out to the last line.
 */
module Scenarios {
  import opened Text
  import opened Data
  import opened Encoder
  import opened Rows
  import opened PrimaryKey
  import opened Script

  /** MySQL reports a `BOOLEAN` column as `tinyint(1)`, so it takes the numeric branch, not the `bool` one. */
  lemma TinyintIsNumeric()
    ensures Encode(Int(1), "tinyint(1)") == Ok(Chars("1"))
  {
    var t := "tinyint(1)";
    assert OccursAt(t, "int", 4);
    ContainsWitness(t, "int", 4);
  }

  /** A quote inside a `varchar` value is copied as it is, not doubled. */
  lemma QuoteIsNotEscaped(columnType: string)
    requires columnType == "varchar(255)"
    ensures Encode(Chars("O'Neil"), columnType) == Ok(Chars("'O'Neil'"))
  {
    VarcharType(columnType);
    assert "'" + "O'Neil" + "'" == "'O'Neil'";
  }

  /** `varchar(255)` has no `int` in it, and takes the `varchar` branch. */
  lemma VarcharType(t: string)
    requires t == "varchar(255)"
    ensures !Contains(t, "int") && Contains(t, "varchar")
  {
    MissingFirstChar(t, "int");
    assert OccursAt(t, "varchar", 0);
    ContainsWitness(t, "varchar", 0);
  }

  /** A row of two values whose encodings are the strings `a` and `b` is written as `a, b`. */
  lemma {:induction false} TwoValueRow(row: Row, columns: seq<Column>, a: string, b: string)
    requires |row| == 2 && |columns| >= 2
    requires Encode(row[0], columns[0].columnType) == Ok(Chars(a))
    requires Encode(row[1], columns[1].columnType) == Ok(Chars(b))
    ensures RowText(row, columns) == Ok(a + ", " + b)
  {
    EncodeAllMeaning(row, columns);
    assert Encodable(row, columns, 0) && Encodable(row, columns, 1);
    var tokens := EncodeAll(row, columns).value;
    assert tokens == [Chars(a), Chars(b)];
    assert AllChars(tokens);
    assert Strings(tokens) == [a, b];
    assert Join([a, b], Separator) == a + ", " + b by {
      assert [a, b][..1] == [a];
    }
  }

  /** A one-column key table: `id` declared `int(11)` and flagged `PRI`. */
  function KeyColumn(): Column
  {
    Column("id", "int(11)", "PRI")
  }

  lemma KeyColumnIsNumeric(v: Value)
    ensures Encode(v, KeyColumn().columnType) == Ok(Chars(Str(v)))
  {
    assert OccursAt("int(11)", "int", 0);
    ContainsWitness("int(11)", "int", 0);
  }

  lemma FirstColumnIsKey(columns: seq<Column>)
    requires |columns| >= 1 && columns[0] == KeyColumn()
    ensures PrimaryKeyColumn(columns) == Ok(KeyColumn())
    ensures KeyIndex(columns) == 0
  {
    PrimaryKeyColumnIsFirst(columns, 0);
  }

  /** The insert stage over rows whose texts are known writes one line per row and returns the last key. */
  lemma {:induction false} TwoRowInsert(columns: seq<Column>, rows: seq<Row>, a: string, b: string)
    requires |rows| == 2 && |rows[0]| >= 1 && |rows[1]| >= 1
    requires RowText(rows[0], columns) == Ok(a) && RowText(rows[1], columns) == Ok(b)
    ensures InsertRows(columns, 0, rows) == Emitted([RowLine(a), RowLine(b)], Ok(rows[1][0]))
  {
    InsertRowsMeaning(columns, 0, rows);
    assert Insertable(columns, 0, rows[0]) && Insertable(columns, 0, rows[1]);
  }

  /** With the key in the first column, the script is the four stages laid end to end. */
  lemma {:induction false} ScriptOfKeyedTable(table: string, columns: seq<Column>, rows: seq<Row>, rowLines: seq<string>, last: int)
    requires |columns| >= 1 && columns[0] == KeyColumn()
    requires InsertRows(columns, 0, rows) == Emitted(rowLines, Ok(Int(last)))
    ensures ExportScript(table, columns, rows) ==
      Ok(InitialComments(table) + SequenceDisabling(table, "id") + [InsertHeader(table, columns)]
         + rowLines + ["", SetDefaultLine(table, "id"), CreateSequenceLine("id", last + 1)])
  {
    FirstColumnIsKey(columns);
    assert NextKey(Int(last)) == Ok(last + 1);
    assert SequenceEnabling(table, "id", Int(last)).lines
      == ["", SetDefaultLine(table, "id"), CreateSequenceLine("id", last + 1)];
  }

  function ExampleColumns(): seq<Column>
  {
    [KeyColumn(), Column("active", "bit(1)", "")]
  }

  function ExampleData(): seq<Row>
  {
    [[Int(5), Int(1)], [Int(6), Int(0)]]
  }

  /**
   * Table `t` with columns `id int(11) PRI` and `active bit(1)` and rows (5, 1), (6, 0):
   * the script, line by line. The sequence starts at 7, the last row's key plus one.
   */
  lemma EndToEnd()
    ensures ExportScript("t", ExampleColumns(), ExampleData())
      == Ok([
        "-- Generated by MySQL data migration tool",
        "-- Table: t",
        "-- By: jfelixhe",
        "",
        "DROP SEQUENCE IF EXISTS id_seq;",
        "ALTER TABLE t ALTER COLUMN id DROP DEFAULT;",
        "",
        "INSERT INTO t (id, active) VALUES",
        "    (5, True)",
        "    (6, False)",
        "",
        "ALTER TABLE t ALTER COLUMN id SET DEFAULT NEXTVAL(('id_seq'::text)::REGCLASS);",
        "CREATE SEQUENCE id_seq INCREMENT 1 START 7;"
      ])
  {
    var columns, rows := ExampleColumns(), ExampleData();
    ExampleInsert(columns, rows);
    ScriptOfKeyedTable("t", columns, rows, [RowLine("5, True"), RowLine("6, False")], 6);
    ExampleLines(columns);
  }

  lemma IdEncodes(n: nat, text: string)
    requires n < 10 && text == [DigitChar(n)]
    ensures Encode(Int(n), "int(11)") == Ok(Chars(text))
  {
    KeyColumnIsNumeric(Int(n));
  }

  lemma {:induction false} ExampleRow(columns: seq<Column>, id: nat, active: int, idText: string, activeText: string)
    requires columns == ExampleColumns()
    requires id < 10 && idText == [DigitChar(id)]
    requires activeText == if active == 1 then "True" else "False"
    ensures RowText([Int(id), Int(active)], columns) == Ok(idText + ", " + activeText)
  {
    IdEncodes(id, idText);
    BitLiteral(Int(active));
    TwoValueRow([Int(id), Int(active)], columns, idText, activeText);
  }

  lemma {:induction false} ExampleFirstRow(columns: seq<Column>)
    requires columns == ExampleColumns()
    ensures RowText([Int(5), Int(1)], columns) == Ok("5, True")
  {
    ExampleRow(columns, 5, 1, "5", "True");
    assert "5" + ", " + "True" == "5, True";
  }

  lemma {:induction false} ExampleSecondRow(columns: seq<Column>)
    requires columns == ExampleColumns()
    ensures RowText([Int(6), Int(0)], columns) == Ok("6, False")
  {
    ExampleRow(columns, 6, 0, "6", "False");
    assert "6" + ", " + "False" == "6, False";
  }

  lemma {:induction false} ExampleInsert(columns: seq<Column>, rows: seq<Row>)
    requires columns == ExampleColumns() && rows == ExampleData()
    ensures InsertRows(columns, 0, rows) == Emitted([RowLine("5, True"), RowLine("6, False")], Ok(Int(6)))
  {
    ExampleFirstRow(columns);
    ExampleSecondRow(columns);
    TwoRowInsert(columns, rows, "5, True", "6, False");
  }

  lemma {:induction false} ExampleHeader(columns: seq<Column>)
    requires columns == ExampleColumns()
    ensures InsertHeader("t", columns) == "INSERT INTO t (id, active) VALUES"
  {
    assert Names(columns) == ["id", "active"];
    assert Join(["id", "active"], Separator) == "id" + ", " + "active" by {
      assert ["id", "active"][..1] == ["id"];
    }
    assert "id" + ", " + "active" == "id, active";
  }

  lemma ExampleDropLine()
    ensures SequenceDisabling("t", "id") ==
      ["DROP SEQUENCE IF EXISTS id_seq;", "ALTER TABLE t ALTER COLUMN id DROP DEFAULT;", ""]
  {
    assert SequenceName("id") == "id_seq";
    assert "DROP SEQUENCE IF EXISTS " + "id_seq" == "DROP SEQUENCE IF EXISTS id_seq";
    assert "DROP SEQUENCE IF EXISTS id_seq" + ";" == "DROP SEQUENCE IF EXISTS id_seq;";
    assert "ALTER TABLE " + "t" == "ALTER TABLE t";
    assert "ALTER TABLE t" + " ALTER COLUMN " == "ALTER TABLE t ALTER COLUMN ";
    assert "ALTER TABLE t ALTER COLUMN " + "id" == "ALTER TABLE t ALTER COLUMN id";
    assert "ALTER TABLE t ALTER COLUMN id" + " DROP DEFAULT;" == "ALTER TABLE t ALTER COLUMN id DROP DEFAULT;";
  }

  // Each step below appends one short piece: the solver compares long string literals
  // cheaply only when the right operand of `+` is short, and only one comparison at a time.
  lemma SetDefaultHead()
    ensures "ALTER TABLE " + "t" + " ALTER COLUMN " + "id" == "ALTER TABLE t ALTER COLUMN id"
  {
  }

  lemma SetDefaultMiddle()
    ensures "ALTER TABLE t ALTER COLUMN id" + " SET DEFAULT NEXTVAL(('"
      == "ALTER TABLE t ALTER COLUMN id SET DEFAULT NEXTVAL(('"
  {
  }

  lemma SetDefaultName()
    ensures "ALTER TABLE t ALTER COLUMN id SET DEFAULT NEXTVAL(('" + "id_seq"
      == "ALTER TABLE t ALTER COLUMN id SET DEFAULT NEXTVAL(('id_seq"
  {
  }

  lemma SetDefaultTail()
    ensures "ALTER TABLE t ALTER COLUMN id SET DEFAULT NEXTVAL(('id_seq" + "'::text)::REGCLASS);"
      == "ALTER TABLE t ALTER COLUMN id SET DEFAULT NEXTVAL(('id_seq'::text)::REGCLASS);"
  {
  }

  lemma ExampleSetDefaultLine()
    ensures SetDefaultLine("t", "id") ==
      "ALTER TABLE t ALTER COLUMN id SET DEFAULT NEXTVAL(('id_seq'::text)::REGCLASS);"
  {
    assert SequenceName("id") == "id_seq";
    SetDefaultHead();
    SetDefaultMiddle();
    SetDefaultName();
    SetDefaultTail();
  }

  lemma ExampleCreateLine()
    ensures CreateSequenceLine("id", 7) == "CREATE SEQUENCE id_seq INCREMENT 1 START 7;"
  {
    assert SequenceName("id") == "id_seq";
    assert DecimalText(7) == "7";
    assert "CREATE SEQUENCE " + "id_seq" == "CREATE SEQUENCE id_seq";
    assert "CREATE SEQUENCE id_seq" + " INCREMENT 1 START " == "CREATE SEQUENCE id_seq INCREMENT 1 START ";
    assert "CREATE SEQUENCE id_seq INCREMENT 1 START " + "7" == "CREATE SEQUENCE id_seq INCREMENT 1 START 7";
    assert "CREATE SEQUENCE id_seq INCREMENT 1 START 7" + ";" == "CREATE SEQUENCE id_seq INCREMENT 1 START 7;";
  }

  lemma {:induction false} ExampleLines(columns: seq<Column>)
    requires columns == ExampleColumns()
    ensures InitialComments("t") + SequenceDisabling("t", "id") + [InsertHeader("t", columns)]
         + [RowLine("5, True"), RowLine("6, False")]
         + ["", SetDefaultLine("t", "id"), CreateSequenceLine("id", 6 + 1)]
      == [
        "-- Generated by MySQL data migration tool",
        "-- Table: t",
        "-- By: jfelixhe",
        "",
        "DROP SEQUENCE IF EXISTS id_seq;",
        "ALTER TABLE t ALTER COLUMN id DROP DEFAULT;",
        "",
        "INSERT INTO t (id, active) VALUES",
        "    (5, True)",
        "    (6, False)",
        "",
        "ALTER TABLE t ALTER COLUMN id SET DEFAULT NEXTVAL(('id_seq'::text)::REGCLASS);",
        "CREATE SEQUENCE id_seq INCREMENT 1 START 7;"
      ]
  {
    ExampleHeader(columns);
    ExampleDropLine();
    ExampleSetDefaultLine();
    ExampleCreateLine();
    assert InitialComments("t")[1] == "-- Table: t";
    assert RowLine("5, True") == "    (5, True)" && RowLine("6, False") == "    (6, False)";
  }

  /** A row of one value whose encoding is the string `a` is written as `a`. */
  lemma {:induction false} OneValueRow(row: Row, columns: seq<Column>, a: string)
    requires |row| == 1 && |columns| >= 1
    requires Encode(row[0], columns[0].columnType) == Ok(Chars(a))
    ensures RowText(row, columns) == Ok(a)
  {
    EncodeAllMeaning(row, columns);
    assert Encodable(row, columns, 0);
    var tokens := EncodeAll(row, columns).value;
    assert tokens == [Chars(a)];
    assert Strings(tokens) == [a];
  }

  lemma {:induction false} KeyRow(columns: seq<Column>, id: nat, idText: string)
    requires columns == [KeyColumn()]
    requires id < 10 && idText == [DigitChar(id)]
    ensures RowText([Int(id)], columns) == Ok(idText)
  {
    IdEncodes(id, idText);
    OneValueRow([Int(id)], columns, idText);
  }

  /**
   * The sequence restarts after the key of the LAST row fetched, not after the largest
   * key: for a key-only table whose rows come back as 5 then 3, the script writes
   * `START 4`, so the next default key collides with the existing 5.
   */
  lemma {:induction false} SequenceFollowsLastRow(columns: seq<Column>, rows: seq<Row>)
    requires columns == [KeyColumn()] && rows == [[Int(5)], [Int(3)]]
    ensures ExportScript("t", columns, rows).Ok?
    ensures ExportScript("t", columns, rows).value[|ExportScript("t", columns, rows).value| - 1]
      == CreateSequenceLine("id", 4)
  {
    KeyRow(columns, 5, "5");
    KeyRow(columns, 3, "3");
    TwoRowInsert(columns, rows, "5", "3");
    ScriptOfKeyedTable("t", columns, rows, [RowLine("5"), RowLine("3")], 3);
  }
}
