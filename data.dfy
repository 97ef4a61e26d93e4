/**
 * What the exporter reads and how it fails: the raw values a MySQL cursor
 * hands back, the rows of `DESCRIBE <table>`, and the Python exceptions that
 * abort a run.
 */
module Data {
  import opened Text

  /** The Python exceptions the core can raise on its own. */
  datatype Fault =
    | TypeError       // `'\'' + value` on a non-str, `join` of a non-str token, `value + 1` on a non-number
    | AttributeError  // `value.strftime(...)` on something that is not a datetime
    | IndexError      // a list index out of range

  /** A computation that either yields a value or raises. */
  datatype Result<T> = Ok(value: T) | Err(fault: Fault)

  /**
   * What a stage appended to the script before it returned or raised:
   * `lines` is everything it appended, `outcome` what it returned or the fault it raised.
   */
  datatype Emitted<T> = Emitted(lines: seq<string>, outcome: Result<T>)

  /** A `datetime.datetime` without its microseconds and time zone. */
  datatype DateTime = DateTime(year: nat, month: nat, day: nat, hour: nat, minute: nat, second: nat)
  {
    /** The ranges Python's `datetime` enforces on each field (month lengths aside). */
    predicate Valid()
    {
      && 1 <= year <= 9999 && 1 <= month <= 12 && 1 <= day <= 31
      && hour < 24 && minute < 60 && second < 60
    }
  }

  /**
   * A raw value of one column of one fetched row: a Python `int`, a `str` (`Chars`),
   * a `datetime`, `None`, or, as `Raw`, any other Python object: `repr` is what `str()`
   * gives for it; it is not equal to `1`, has no `strftime`, and supports neither `+ 1`
   * nor concatenation with a `str`.
   */
  datatype Value =
    | Int(n: int)
    | Chars(s: string)
    | Stamp(at: DateTime)
    | Null
    | Raw(repr: string)

  /** One row of `DESCRIBE <table>`: `Field` (index 0), `Type` (index 1) and `Key` (index 3). */
  datatype Column = Column(name: string, columnType: string, key: string)

  /** One fetched row: its raw values in the table's column order. */
  type Row = seq<Value>

  /** `d.strftime('%Y-%m-%d %H:%M:%S')`. */
  function Strftime(d: DateTime): string
  {
    Padded(d.year, 4) + "-" + Padded(d.month, 2) + "-" + Padded(d.day, 2) + " "
      + Padded(d.hour, 2) + ":" + Padded(d.minute, 2) + ":" + Padded(d.second, 2)
  }

  lemma {:induction false} FieldsLayout(y: string, mo: string, d: string, h: string, mi: string, se: string)
    requires |y| == 4 && |mo| == 2 && |d| == 2 && |h| == 2 && |mi| == 2 && |se| == 2
    ensures var t := y + "-" + mo + "-" + d + " " + h + ":" + mi + ":" + se;
      && |t| == 19
      && t[4] == '-' && t[7] == '-' && t[10] == ' ' && t[13] == ':' && t[16] == ':'
      && t[0..4] == y && t[5..7] == mo && t[8..10] == d
      && t[11..13] == h && t[14..16] == mi && t[17..19] == se
  {
    var date := y + "-" + mo + "-" + d;
    var time := h + ":" + mi + ":" + se;
    assert date[0..4] == y && date[5..7] == mo && date[8..10] == d;
    assert time[0..2] == h && time[3..5] == mi && time[6..8] == se;
    var t := date + " " + time;
    assert t == y + "-" + mo + "-" + d + " " + h + ":" + mi + ":" + se;
    assert t[0..10] == date && t[11..19] == time;
  }

  /**
   * A valid timestamp is written as 19 characters `YYYY-MM-DD HH:MM:SS`, and
   * each field reads back from its own columns of that text.
   */
  lemma {:induction false} StrftimeLayout(d: DateTime)
    requires d.Valid()
    ensures var t := Strftime(d);
      && |t| == 19
      && t[4] == '-' && t[7] == '-' && t[10] == ' ' && t[13] == ':' && t[16] == ':'
      && ParseDigits(t[0..4]) == d.year && ParseDigits(t[5..7]) == d.month
      && ParseDigits(t[8..10]) == d.day && ParseDigits(t[11..13]) == d.hour
      && ParseDigits(t[14..16]) == d.minute && ParseDigits(t[17..19]) == d.second
  {
    assert Pow10(2) == 100 && Pow10(4) == 10000;
    PaddedRoundTrip(d.year, 4);
    PaddedRoundTrip(d.month, 2);
    PaddedRoundTrip(d.day, 2);
    PaddedRoundTrip(d.hour, 2);
    PaddedRoundTrip(d.minute, 2);
    PaddedRoundTrip(d.second, 2);
    FieldsLayout(Padded(d.year, 4), Padded(d.month, 2), Padded(d.day, 2),
                 Padded(d.hour, 2), Padded(d.minute, 2), Padded(d.second, 2));
  }

  /** Python's `str(value)`. For a `datetime` it is the same text as `Strftime` (microseconds aside). */
  function Str(v: Value): string
  {
    match v
    case Int(n) => DecimalText(n)
    case Chars(s) => s
    case Stamp(d) => Strftime(d)
    case Null => "None"
    case Raw(r) => r
  }
}
