# mysql-exp in Dafny

This project models the core of `mysql-exp.py`, a one-file tool that reads one MySQL
table and writes a PostgreSQL script that recreates its rows and restarts the primary
key's sequence. The model covers the parts with decision logic:

- the literal encoder `get_data_token_representation` (module `Encoder`), which chooses
  how a value is written by substring tests on the column's declared type, first match wins;
- the row serializer `generate_data_row_text` and the column list
  `comma_separated_columns` (module `Rows`);
- the primary-key locators `get_table_primary_key` and `get_table_primary_key_index`
  (module `PrimaryKey`);
- the four `append_*` stages and the stage order of `create_data_export_script`
  (module `Script`).

Two support modules hold the shared definitions:

- `Text` models Python's `in` on strings, `", ".join`, `str()` of an integer, and the
  zero-padded fields of `strftime`.
- `Data` models the raw values, the `DESCRIBE` rows and the Python exceptions.

Module `Scenarios` works out whole runs on small tables, down to the last line of the script.

The model follows the code as written.

- **Values.** A raw value is a `Value`: an integer, a string (`Chars`), a `datetime`, `None`,
  or any other object (`Raw`).
- **Exceptions.** A Python exception is a `Result` carrying the `Fault` Python would raise:
  - `TypeError` for `'\'' + value` on a non-string, `", ".join` of a non-string token, or
    `+ 1` on a non-integer key;
  - `AttributeError` for `.strftime` on a non-`datetime`;
  - `IndexError` for a missing `PRI` column, a row longer than the column list, or a key
    position beyond a row.
- **The shared list.** The `outcome_text` list that the stages share is the class
  `Script.OutcomeText`. Each stage is a method on it, proved against a function that gives
  the lines the stage appends (`Emitted` records the lines appended before a fault).
- **The insert loop.** The loop of `append_data_insert` is proved against the function
  `InsertRows`. The loop of `generate_data_row_text` is proved against `RowText`, and the
  key scan against `KeyIndex`.

The model keeps these behaviours of the code:

- The key written to `CREATE SEQUENCE` is the key of the LAST row fetched, not a running
  maximum: line 72 overwrites `max_primary_key_id` on every pass of the loop of lines 70-72.
  `Scenarios.SequenceFollowsLastRow` shows rows 5 then 3 giving `START 4`.
- A `varchar` value is quoted without escaping (line 91). `Scenarios.QuoteIsNotEscaped`
  shows this.
- The `INSERT` row lines carry no comma between tuples and no final `;` (line 71).
- The key is the first `PRI` column (lines 20 and 24-26). The code does not check that there
  is exactly one.
- A row longer than the column list raises `IndexError` at `table_descriptor[i]` (line 82). A
  shorter row is serialized with fewer values and no error (lines 81-82).

## Model

| member | source | states |
|---|---|---|
| Encoder.Encode | mysql-exp.py:87-99 | only a type without `int` can raise; the fault is `TypeError` when the type contains `varchar`, else `AttributeError`; a result is a string or the value itself |
| Encoder.RulesPick | mysql-exp.py:88-99 | an independent table of five rules (`int`, `varchar`, `datetime`, `bool` as substrings, `bit(1)` exactly), scanned first match wins, picks for each type the rule of the first test of the `if`/`elif` chain that the type passes, and `Blank` when it passes none |
| Encoder.EncodeFollowsRules | mysql-exp.py:87-99 | the encoder writes every value as the rendering the rule table picks for its type; what each rendering writes is stated branch by branch by the `*Literal` lemmas below |
| Encoder.FirstMatchWins | mysql-exp.py:88-97 | in any rule list, the first matching rule decides the rendering |
| Encoder.NoMatchIsBlank | mysql-exp.py:98-99 | when no rule matches, the rendering is the empty literal |
| Encoder.NumericLiteral | mysql-exp.py:88-89 | a type containing `int` wins over every other test and writes `str(value)` unquoted; an integer's text has no quote and parses back to the integer |
| Encoder.QuotedLiteral | mysql-exp.py:90-91 | a `varchar` type writes a string between single quotes with its content unchanged (two characters longer); any other value raises `TypeError` |
| Encoder.TimestampLiteral | mysql-exp.py:92-93 | a `datetime` type writes a timestamp as `'` + strftime text + `'` (21 characters for a valid one); any other value raises `AttributeError` |
| Encoder.PassthroughLiteral | mysql-exp.py:94-95 | a `bool` type not claimed earlier returns the raw value unchanged |
| Encoder.BitLiteral | mysql-exp.py:96-97 | type exactly `bit(1)`: `True` for a value equal to 1, `False` for anything else |
| Encoder.BlankLiteral | mysql-exp.py:98-99 | a type matched by no test writes `''`, whatever the value |
| Text.Contains | mysql-exp.py:88 | `sub in s` holds exactly when `sub` occurs at some position of `s` |
| Text.DecimalTextRoundTrip | mysql-exp.py:89 | `str()` of an integer parses back to the same integer |
| Text.PaddedRoundTrip | mysql-exp.py:93 | a field that fits in `w` digits is written with exactly `w` zero-padded digits that read back unchanged |
| Data.StrftimeLayout | mysql-exp.py:93 | a valid timestamp is written as 19 characters `YYYY-MM-DD HH:MM:SS`, each field reading back from its own columns |
| Rows.GenerateRowText | mysql-exp.py:77-84 | the loop encodes value `i` under column `i`'s type in row order and joins with `", "`; its result equals `RowText` |
| Rows.EncodeAllMeaning | mysql-exp.py:79-82 | encoding a row succeeds iff every value has a column and encodes, giving one token per value in order; otherwise the first value that fails decides the fault (`IndexError` past the last column) |
| Rows.RowTextMeaning | mysql-exp.py:77-84 | a row serializes iff every value has a column and encodes to a string; the text is those strings in row order joined by `", "` |
| Rows.JoinTokens | mysql-exp.py:84 | the join succeeds iff every token is a string |
| Rows.CommaSeparatedColumns | mysql-exp.py:52-55 | the column list of no columns is empty, of one column is its name, and otherwise is as long as all the names plus one `", "` between each two |
| Rows.ColumnListLayout | mysql-exp.py:52-55 | each column name appears unchanged at its offset in the column list, followed by `", "` when another column comes after it, and the list ends right after the last name |
| PrimaryKey.KeyColumns | mysql-exp.py:20 | a column is in the filtered list iff it is in the table and its key role is `PRI` |
| PrimaryKey.PrimaryKeyColumn | mysql-exp.py:19-20 | `get_table_primary_key` returns a column of the table whose key role is `PRI`, or raises `IndexError` when no column has it |
| PrimaryKey.PrimaryKeyColumnIsFirst | mysql-exp.py:19-20 | `get_table_primary_key` returns the column at the first `PRI` position |
| PrimaryKey.PrimaryKeyColumnFails | mysql-exp.py:19-20 | `get_table_primary_key` raises `IndexError` exactly when no column is `PRI` |
| PrimaryKey.KeyIndexFrom | mysql-exp.py:23-28 | the scan from a position gives the first `PRI` position at or after it, or 0 when there is none |
| PrimaryKey.PrimaryKeyIndex | mysql-exp.py:23-28 | the loop returns the first `PRI` position, or 0 when no column is `PRI` |
| PrimaryKey.LocatorsAgree | mysql-exp.py:19-28 | when a `PRI` column exists, the index points at the column `get_table_primary_key` returns; otherwise it falls back to 0 |
| Script.OutcomeText.AppendInitialComments | mysql-exp.py:31-35 | appends the four header lines, the second naming the table, and changes nothing else |
| Script.HeaderNamesTable | mysql-exp.py:33 | the header has four lines and the second contains the table name |
| Script.OutcomeText.AppendSequenceDisabling | mysql-exp.py:38-41 | appends the `DROP SEQUENCE <key>_seq`, `DROP DEFAULT` and blank lines |
| Script.OutcomeText.AppendDataInsert | mysql-exp.py:58-74 | appends the `INSERT INTO <table> (<columns>) VALUES` line and then the lines of `InsertRows`; returns its outcome |
| Script.InsertRowsMeaning | mysql-exp.py:67-74 | the insert stage gets through iff every row serializes and has a key value; it then writes one `    (<row text>)` line per row in row order and returns the LAST row's key (0 for no rows) |
| Script.InsertRowsSucceeds | mysql-exp.py:70-72 | the insert stage succeeds exactly when every row serializes and has a value at the key position |
| Script.InsertRowsLines | mysql-exp.py:70-74 | when every row gets through, line `j` is row `j`'s text in parentheses and the result is the last row's key |
| Script.NextKey | mysql-exp.py:49 | `max_primary_key_id + 1` succeeds iff the key is an integer, and is larger than it |
| Script.OutcomeText.AppendSequenceEnabling | mysql-exp.py:44-49 | appends the blank and `SET DEFAULT NEXTVAL` lines, then `CREATE SEQUENCE ... START <key + 1>`, or raises `TypeError` after the first two lines for a non-integer key |
| Script.SequenceStatementsNameKey | mysql-exp.py:38-49 | the drop, restore and create statements all name `<key>_seq` |
| Script.CreateDataExportScript | mysql-exp.py:120-127 | locates the key, then runs the four stages in order on a fresh list; the result equals `ExportScript` |
| Script.ExportScriptSucceeds | mysql-exp.py:120-127 | a script is produced iff a `PRI` column exists, every row gets through the insert stage, and the last row's key is an integer |
| Script.ExportScriptLayout | mysql-exp.py:120-127 | a produced script has `11 + rows` lines: 4 header lines, 3 disabling lines, the `INSERT` line, one line per row in order, a blank line, the default restoration and `CREATE SEQUENCE` starting at the last row's key plus one |
| Scenarios.TinyintIsNumeric | mysql-exp.py:88-89 | `tinyint(1)` takes the numeric branch, not the `bool` one |
| Scenarios.QuoteIsNotEscaped | mysql-exp.py:90-91 | `O'Neil` in a `varchar(255)` column is written `'O'Neil'` |
| Scenarios.EndToEnd | mysql-exp.py:120-127 | table `t` (`id int(11) PRI`, `active bit(1)`) with rows (5, 1), (6, 0) gives the 13-line script ending in `START 7` |
| Scenarios.SequenceFollowsLastRow | mysql-exp.py:70-72 | key rows 5 then 3 give `CREATE SEQUENCE id_seq INCREMENT 1 START 4` |

## Left out

- The MySQL connection, its cursors and `fetchall` (lines 60-63, 105-118) are left out. The
  `DESCRIBE` rows and the fetched rows are parameters of the model.
- Writing the script to the output file (lines 130-132) is left out. The model returns the
  list of lines the file would receive.
- The `except` branch (lines 134-136) is left out: it prints the exception and exits with -1.
  A fault is the `Err` the model returns, and nothing is written.
- `connection.close()` (lines 138-139) is left out.
- The command-line and configuration front end (lines 143 onward) is left out. It is I/O.
- Data.Strftime: does not model microseconds, time zones or month lengths, and writes a
  year below 1000 with four digits. Python's `%Y` padding for such years depends on the platform.
- Data.Value: floating-point, `Decimal` and `bool` values, and keys of those types, are only
  the opaque `Raw` case. Their `str()` text is taken as given, `+ 1` on them is modelled as
  `TypeError`, and `== 1` on them is modelled as false, although Python gives `1.0 == 1`,
  `Decimal(1) == 1` and `True == 1`; such a value in a `bit(1)` column writes `False` in the
  model where the code writes `True`.
- Encoder.BitLiteral: the driver may return a `bit(1)` value as bytes. The model takes
  whatever value arrives and compares it with the integer 1.
- Script.InsertRows: the model does not add what the code leaves out, namely commas between
  value tuples and a final `;`. The row lines are exactly the code's `    (<text>)`.
