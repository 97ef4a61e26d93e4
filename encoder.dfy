/**
 * The literal encoder: how one raw value of a column is written in the
 * PostgreSQL script, chosen by substring tests on the column's declared
 * MySQL type, first match wins.
 */
module Encoder {
  import opened Text
  import opened Data

  /**
   * `get_data_token_representation(value, columnType)`. The result is the Python
   * object the function returns: a `str` (a `Chars` value) on every branch except the
   * `bool` one, which hands the raw value back unchanged.
   */
  function Encode(v: Value, columnType: string): (r: Result<Value>)
    ensures r.Err? ==> !Contains(columnType, "int")
    ensures r.Err? ==> r.fault == (if Contains(columnType, "varchar") then TypeError else AttributeError)
    ensures r.Ok? ==> r.value.Chars? || r.value == v
  {
    if Contains(columnType, "int") then
      Ok(Chars(Str(v)))
    else if Contains(columnType, "varchar") then
      if v.Chars? then Ok(Chars("'" + v.s + "'")) else Err(TypeError)
    else if Contains(columnType, "datetime") then
      if v.Stamp? then Ok(Chars("'" + Strftime(v.at) + "'")) else Err(AttributeError)
    else if Contains(columnType, "bool") then
      Ok(v)
    else if columnType == "bit(1)" then
      Ok(Chars(if v == Int(1) then "True" else "False"))
    else
      Ok(Chars("''"))
  }

  // ----- An independent, table-driven statement of the dispatch -----

  /** The six ways a value can be written. */
  datatype Rendering = Numeric | Quoted | Timestamp | Passthrough | Boolean | Blank

  /** A dispatch rule: `pattern` must occur in the type, or equal it when `exact`. */
  datatype Rule = Rule(pattern: string, exact: bool, rendering: Rendering)

  /** The rules in the order they are tried. */
  const Rules: seq<Rule> := [
    Rule("int", false, Numeric),
    Rule("varchar", false, Quoted),
    Rule("datetime", false, Timestamp),
    Rule("bool", false, Passthrough),
    Rule("bit(1)", true, Boolean)
  ]

  predicate Matches(rule: Rule, columnType: string)
  {
    if rule.exact then columnType == rule.pattern else Contains(columnType, rule.pattern)
  }

  /** The rendering of the first rule that matches, `Blank` when none does. */
  function FirstMatch(rules: seq<Rule>, columnType: string): Rendering
  {
    FirstMatchFrom(rules, columnType, 0)
  }

  /** The rendering of the first rule at or after position `from` that matches. */
  function FirstMatchFrom(rules: seq<Rule>, columnType: string, from: nat): Rendering
    requires from <= |rules|
    decreases |rules| - from
  {
    if from == |rules| then Blank
    else if Matches(rules[from], columnType) then rules[from].rendering
    else FirstMatchFrom(rules, columnType, from + 1)
  }

  /** What each rendering makes of a value. */
  function Render(kind: Rendering, v: Value): Result<Value>
  {
    match kind
    case Numeric => Ok(Chars(Str(v)))
    case Quoted => if v.Chars? then Ok(Chars("'" + v.s + "'")) else Err(TypeError)
    case Timestamp => if v.Stamp? then Ok(Chars("'" + Strftime(v.at) + "'")) else Err(AttributeError)
    case Passthrough => Ok(v)
    case Boolean => Ok(Chars(if v == Int(1) then "True" else "False"))
    case Blank => Ok(Chars("''"))
  }

  /** In any list of rules, a matching rule with no matching rule before it decides. */
  lemma FirstMatchWins(rules: seq<Rule>, columnType: string, i: nat)
    requires i < |rules| && Matches(rules[i], columnType)
    requires forall j :: 0 <= j < i ==> !Matches(rules[j], columnType)
    ensures FirstMatch(rules, columnType) == rules[i].rendering
  {
    ScanReaches(rules, columnType, i, 0);
  }

  lemma {:induction false} ScanReaches(rules: seq<Rule>, columnType: string, i: nat, from: nat)
    requires from <= i < |rules| && Matches(rules[i], columnType)
    requires forall j :: from <= j < i ==> !Matches(rules[j], columnType)
    ensures FirstMatchFrom(rules, columnType, from) == rules[i].rendering
    decreases i - from
  {
    if from < i {
      ScanReaches(rules, columnType, i, from + 1);
    }
  }

  /** When no rule matches, the value is written as the empty literal. */
  lemma NoMatchIsBlank(rules: seq<Rule>, columnType: string)
    requires forall j :: 0 <= j < |rules| ==> !Matches(rules[j], columnType)
    ensures FirstMatch(rules, columnType) == Blank
  {
    ScanFindsNothing(rules, columnType, 0);
  }

  lemma {:induction false} ScanFindsNothing(rules: seq<Rule>, columnType: string, from: nat)
    requires from <= |rules|
    requires forall j :: from <= j < |rules| ==> !Matches(rules[j], columnType)
    ensures FirstMatchFrom(rules, columnType, from) == Blank
    decreases |rules| - from
  {
    if from < |rules| {
      ScanFindsNothing(rules, columnType, from + 1);
    }
  }

  /** What each of the five rules tests. */
  lemma RulesMatch(t: string)
    ensures |Rules| == 5
    ensures Matches(Rules[0], t) == Contains(t, "int")
    ensures Matches(Rules[1], t) == Contains(t, "varchar")
    ensures Matches(Rules[2], t) == Contains(t, "datetime")
    ensures Matches(Rules[3], t) == Contains(t, "bool")
    ensures Matches(Rules[4], t) == (t == "bit(1)")
    ensures Rules[0].rendering == Numeric && Rules[1].rendering == Quoted && Rules[2].rendering == Timestamp
    ensures Rules[3].rendering == Passthrough && Rules[4].rendering == Boolean
  {
  }

  /** The rule the table picks for `t`: the first of the five tests `t` passes. */
  lemma {:induction false} RulesPick(t: string)
    ensures Contains(t, "int") ==> FirstMatch(Rules, t) == Numeric
    ensures !Contains(t, "int") && Contains(t, "varchar") ==> FirstMatch(Rules, t) == Quoted
    ensures !Contains(t, "int") && !Contains(t, "varchar") && Contains(t, "datetime") ==>
      FirstMatch(Rules, t) == Timestamp
    ensures !Contains(t, "int") && !Contains(t, "varchar") && !Contains(t, "datetime") && Contains(t, "bool") ==>
      FirstMatch(Rules, t) == Passthrough
    ensures !Contains(t, "int") && !Contains(t, "varchar") && !Contains(t, "datetime") && !Contains(t, "bool") ==>
      FirstMatch(Rules, t) == (if t == "bit(1)" then Boolean else Blank)
  {
    RulesMatch(t);
    assert FirstMatchFrom(Rules, t, 4) == if t == "bit(1)" then Boolean else Blank;
    assert FirstMatchFrom(Rules, t, 3) == if Contains(t, "bool") then Passthrough else FirstMatchFrom(Rules, t, 4);
    assert FirstMatchFrom(Rules, t, 2) == if Contains(t, "datetime") then Timestamp else FirstMatchFrom(Rules, t, 3);
    assert FirstMatchFrom(Rules, t, 1) == if Contains(t, "varchar") then Quoted else FirstMatchFrom(Rules, t, 2);
    assert FirstMatchFrom(Rules, t, 0) == if Contains(t, "int") then Numeric else FirstMatchFrom(Rules, t, 1);
  }

  /**
   * The encoder is the table of rules, tried in order, first match wins: the branch
   * `Encode` takes is the rendering `FirstMatch` picks from `Rules`.
   */
  lemma {:induction false} EncodeFollowsRules(v: Value, columnType: string)
    ensures Encode(v, columnType) == Render(FirstMatch(Rules, columnType), v)
  {
    RulesPick(columnType);
  }

  // ----- What each branch writes -----

  /**
   * A type containing `int` wins over every other rule, even when it also contains
   * `varchar` or `bool`: any value is written as its `str()`, unquoted, and an
   * integer's text reads back as that integer.
   */
  lemma {:induction false} NumericLiteral(v: Value, columnType: string)
    requires Contains(columnType, "int")
    ensures Encode(v, columnType) == Ok(Chars(Str(v)))
    ensures v.Int? ==> ParseDecimal(Encode(v, columnType).value.s) == v.n
    ensures v.Int? ==> '\'' !in Encode(v, columnType).value.s
  {
    if v.Int? {
      DecimalTextRoundTrip(v.n);
      var s := DecimalText(v.n);
      if v.n < 0 {
        assert s == "-" + NatText(-v.n);
        assert forall i :: 1 <= i < |s| ==> '0' <= s[i] <= '9' by {
          forall i | 1 <= i < |s| ensures '0' <= s[i] <= '9' {
            assert s[i] == NatText(-v.n)[i - 1];
          }
        }
      }
    }
  }

  /**
   * A `varchar` type (without `int`) writes a string value between single quotes
   * exactly as it is: nothing inside is escaped, so the literal is two characters
   * longer than the value. Any other value raises `TypeError`.
   */
  lemma {:induction false} QuotedLiteral(v: Value, columnType: string)
    requires Contains(columnType, "varchar") && !Contains(columnType, "int")
    ensures v.Chars? ==> Encode(v, columnType).Ok? && Encode(v, columnType).value.Chars?
    ensures v.Chars? ==>
      var q := Encode(v, columnType).value.s;
      |q| == |v.s| + 2 && q[0] == '\'' && q[|q| - 1] == '\'' && q[1..|q| - 1] == v.s
    ensures !v.Chars? ==> Encode(v, columnType) == Err(TypeError)
  {
    if v.Chars? {
      var q := "'" + v.s + "'";
      assert q[1..|q| - 1] == v.s;
    }
  }

  /**
   * A `datetime` type (without `int` or `varchar`) writes a timestamp between single
   * quotes; a valid one takes 21 characters, its `strftime` text (laid out as
   * `StrftimeLayout` states) between the quotes. Anything else raises `AttributeError`.
   */
  lemma {:induction false} TimestampLiteral(v: Value, columnType: string)
    requires Contains(columnType, "datetime")
    requires !Contains(columnType, "int") && !Contains(columnType, "varchar")
    ensures v.Stamp? ==> Encode(v, columnType) == Ok(Chars("'" + Strftime(v.at) + "'"))
    ensures v.Stamp? && v.at.Valid() ==>
      var q := Encode(v, columnType).value.s;
      |q| == 21 && q[0] == '\'' && q[20] == '\'' && q[1..20] == Strftime(v.at)
    ensures !v.Stamp? ==> Encode(v, columnType) == Err(AttributeError)
  {
    if v.Stamp? && v.at.Valid() {
      var t := Strftime(v.at);
      StrftimeLayout(v.at);
      var q := "'" + t + "'";
      assert q[1..20] == t;
    }
  }

  /** A `bool` type that none of the earlier rules claims hands the raw value back unchanged. */
  lemma {:induction false} PassthroughLiteral(v: Value, columnType: string)
    requires Contains(columnType, "bool")
    requires !Contains(columnType, "int") && !Contains(columnType, "varchar") && !Contains(columnType, "datetime")
    ensures Encode(v, columnType) == Ok(v)
  {
  }

  /** `bit(1)` contains none of the patterns tried before it. */
  lemma BitTypeMatchesNoPattern()
    ensures !Contains("bit(1)", "int") && !Contains("bit(1)", "varchar")
    ensures !Contains("bit(1)", "datetime") && !Contains("bit(1)", "bool")
  {
    var t := "bit(1)";
    forall i: nat ensures !OccursAt(t, "int", i) && !OccursAt(t, "bool", i) {
      if i + 3 <= |t| {
        assert t[i..i + 3][0] == t[i] && t[i..i + 3][1] == t[i + 1];
      }
      if i + 4 <= |t| {
        assert t[i..i + 4][0] == t[i] && t[i..i + 4][1] == t[i + 1];
      }
    }
  }

  /** A column of type exactly `bit(1)` writes `True` for a value equal to 1 and `False` for any other. */
  lemma {:induction false} BitLiteral(v: Value)
    ensures Encode(v, "bit(1)") == Ok(Chars(if v == Int(1) then "True" else "False"))
  {
    BitTypeMatchesNoPattern();
  }

  /** A type matched by no rule writes every value as the empty literal `''`, losing it. */
  lemma {:induction false} BlankLiteral(v: Value, columnType: string)
    requires !Contains(columnType, "int") && !Contains(columnType, "varchar")
    requires !Contains(columnType, "datetime") && !Contains(columnType, "bool")
    requires columnType != "bit(1)"
    ensures Encode(v, columnType) == Ok(Chars("''"))
  {
  }
}
