/**
 * The handful of Python string operations the exporter relies on:
 * the substring test `sub in s`, `sep.join(items)`, `str()` of an integer,
 * and the zero-padded fields of `strftime`.
 */
module Text {

  /** `sub` occurs in `s` starting at position `i`. */
  predicate OccursAt(s: string, sub: string, i: nat)
  {
    i + |sub| <= |s| && s[i..i + |sub|] == sub
  }

  /** Python's `sub in s`: a left-to-right search for `sub` inside `s`. */
  function Contains(s: string, sub: string): (b: bool)
    ensures b <==> exists i: nat :: OccursAt(s, sub, i)
    decreases |s|
  {
    if |sub| > |s| then
      false
    else if s[..|sub|] == sub then
      assert OccursAt(s, sub, 0);
      true
    else
      var rest := Contains(s[1..], sub);
      if rest then
        var i: nat :| OccursAt(s[1..], sub, i);
        assert OccursAt(s, sub, i + 1) by {
          assert s[i + 1..i + 1 + |sub|] == s[1..][i..i + |sub|];
        }
        rest
      else
        assert s[0..|sub|] == s[..|sub|];
        forall i: nat | OccursAt(s, sub, i) && i > 0
          ensures OccursAt(s[1..], sub, i - 1)
        {
          assert s[1..][i - 1..i - 1 + |sub|] == s[i..i + |sub|];
        }
        rest
  }

  lemma {:induction false} ContainsWitness(s: string, sub: string, i: nat)
    requires OccursAt(s, sub, i)
    ensures Contains(s, sub)
  {
  }

  /** A text without the first character of `sub` does not contain `sub`. */
  lemma {:induction false} MissingFirstChar(s: string, sub: string)
    requires |sub| > 0 && sub[0] !in s
    ensures !Contains(s, sub)
  {
    forall i: nat ensures !OccursAt(s, sub, i) {
      if i + |sub| <= |s| {
        assert s[i..i + |sub|][0] == s[i];
        assert s[i] in s;
      }
    }
  }

  lemma {:induction false} OccursInConcat(a: string, sub: string, b: string)
    ensures OccursAt(a + sub + b, sub, |a|)
  {
    assert (a + sub + b)[|a|..|a| + |sub|] == sub;
  }

  /** `sep.join(items)`. */
  function Join(items: seq<string>, sep: string): string
  {
    if |items| == 0 then ""
    else if |items| == 1 then items[0]
    else Join(items[..|items| - 1], sep) + sep + items[|items| - 1]
  }

  /** The sum of the lengths of `items`. */
  function TotalLength(items: seq<string>): nat
  {
    if items == [] then 0 else TotalLength(items[..|items| - 1]) + |items[|items| - 1]|
  }

  /** Where item `k` starts inside `Join(items, sep)`. */
  function JoinOffset(items: seq<string>, sep: string, k: nat): nat
    requires k <= |items|
  {
    TotalLength(items[..k]) + k * |sep|
  }

  lemma {:induction false} JoinLength(items: seq<string>, sep: string)
    requires items != []
    ensures |Join(items, sep)| == TotalLength(items) + (|items| - 1) * |sep|
    decreases |items|
  {
    var n := |items|;
    if n == 1 {
      assert items[..0] == [];
    } else {
      JoinLength(items[..n - 1], sep);
    }
  }

  /** Joining a non-empty prefix of the items gives a prefix of the joined text. */
  lemma {:induction false} JoinPrefix(items: seq<string>, sep: string, k: nat)
    requires 1 <= k <= |items|
    ensures Join(items[..k], sep) <= Join(items, sep)
    decreases |items|
  {
    var n := |items|;
    if k < n {
      JoinPrefix(items[..n - 1], sep, k);
      assert items[..n - 1][..k] == items[..k];
    } else {
      assert items[..k] == items;
    }
  }

  lemma {:induction false} TotalLengthStep(items: seq<string>, k: nat)
    requires k < |items|
    ensures TotalLength(items[..k + 1]) == TotalLength(items[..k]) + |items[k]|
  {
    assert items[..k + 1][..k] == items[..k];
  }

  /** The join of the first `k + 1` items ends with item `k`, which starts at its offset. */
  lemma {:induction false} JoinPrefixEnds(items: seq<string>, sep: string, k: nat)
    requires k < |items|
    ensures |Join(items[..k + 1], sep)| == JoinOffset(items, sep, k) + |items[k]|
    ensures Join(items[..k + 1], sep)[JoinOffset(items, sep, k)..] == items[k]
  {
    var upTo := Join(items[..k + 1], sep);
    var off := JoinOffset(items, sep, k);
    if k == 0 {
      assert items[..0] == [];
      assert upTo == items[0];
    } else {
      var before := Join(items[..k], sep);
      assert items[..k + 1][..k] == items[..k];
      assert upTo == before + sep + items[k];
      JoinLength(items[..k], sep);
      assert (k - 1) * |sep| + |sep| == k * |sep|;
      assert |before| + |sep| == off;
    }
  }

  /** Item `k + 1` follows item `k` after exactly one separator. */
  lemma {:induction false} JoinOffsetStep(items: seq<string>, sep: string, k: nat)
    requires k + 1 < |items|
    ensures JoinOffset(items, sep, k + 1) == JoinOffset(items, sep, k) + |items[k]| + |sep|
  {
    TotalLengthStep(items, k);
    assert (k + 1) * |sep| == k * |sep| + |sep|;
  }

  /** After item `k` comes exactly one separator, then item `k + 1`. */
  lemma {:induction false} JoinSeparatorAfter(items: seq<string>, sep: string, k: nat)
    requires k + 1 < |items|
    ensures JoinOffset(items, sep, k + 1) == JoinOffset(items, sep, k) + |items[k]| + |sep|
    ensures JoinOffset(items, sep, k + 1) <= |Join(items, sep)|
    ensures Join(items, sep)[JoinOffset(items, sep, k) + |items[k]|..JoinOffset(items, sep, k + 1)] == sep
  {
    var whole := Join(items, sep);
    var upTo := Join(items[..k + 1], sep);
    var end := JoinOffset(items, sep, k) + |items[k]|;
    var next := Join(items[..k + 2], sep);
    JoinPrefixEnds(items, sep, k);
    JoinOffsetStep(items, sep, k);
    JoinPrefix(items, sep, k + 2);
    assert items[..k + 2][..k + 1] == items[..k + 1];
    assert next == upTo + sep + items[k + 1];
    assert whole[end..end + |sep|] == next[end..end + |sep|];
  }

  /**
   * Item `k` sits, unchanged, at `JoinOffset(items, sep, k)` of the joined text,
   * and the separator follows it when another item comes after.
   */
  lemma {:induction false} JoinLayout(items: seq<string>, sep: string, k: nat)
    requires k < |items|
    ensures JoinOffset(items, sep, k) + |items[k]| <= |Join(items, sep)|
    ensures Join(items, sep)[JoinOffset(items, sep, k)..JoinOffset(items, sep, k) + |items[k]|] == items[k]
    ensures k + 1 < |items| ==>
      && JoinOffset(items, sep, k + 1) == JoinOffset(items, sep, k) + |items[k]| + |sep|
      && JoinOffset(items, sep, k + 1) <= |Join(items, sep)|
      && Join(items, sep)[JoinOffset(items, sep, k) + |items[k]|..JoinOffset(items, sep, k + 1)] == sep
  {
    var whole := Join(items, sep);
    var upTo := Join(items[..k + 1], sep);
    var off := JoinOffset(items, sep, k);
    var end := off + |items[k]|;
    JoinPrefixEnds(items, sep, k);
    JoinPrefix(items, sep, k + 1);
    assert whole[off..end] == upTo[off..end];
    if k + 1 < |items| {
      JoinSeparatorAfter(items, sep, k);
    }
  }

  /** The character for a decimal digit. */
  function DigitChar(d: nat): (c: char)
    requires d < 10
    ensures '0' <= c <= '9'
  {
    "0123456789"[d]
  }

  /** The value of a decimal digit character. */
  function DigitValue(c: char): nat
  {
    if '0' <= c <= '9' then (c as int - '0' as int) as nat else 0
  }

  predicate IsDigits(s: string)
  {
    forall i :: 0 <= i < |s| ==> '0' <= s[i] <= '9'
  }

  /** The decimal digits of a natural number, without leading zeros. */
  function NatText(n: nat): (s: string)
    ensures |s| >= 1 && IsDigits(s)
    ensures |s| > 1 ==> s[0] != '0'
  {
    if n < 10 then [DigitChar(n)]
    else NatText(n / 10) + [DigitChar(n % 10)]
  }

  /** Python's `str(n)` for an `int`. */
  function DecimalText(n: int): string
  {
    if n < 0 then "-" + NatText(-n) else NatText(n)
  }

  /** Reads a string of decimal digits (the inverse of `NatText`). */
  function ParseDigits(s: string): nat
  {
    if s == [] then 0 else ParseDigits(s[..|s| - 1]) * 10 + DigitValue(s[|s| - 1])
  }

  /** Reads an optionally signed decimal integer (the inverse of `DecimalText`). */
  function ParseDecimal(s: string): int
  {
    if |s| > 0 && s[0] == '-' then -(ParseDigits(s[1..]) as int) else ParseDigits(s)
  }

  lemma {:induction false} NatTextRoundTrip(n: nat)
    ensures ParseDigits(NatText(n)) == n
  {
    var s := NatText(n);
    if n < 10 {
      assert s[..0] == [];
    } else {
      NatTextRoundTrip(n / 10);
      assert s[..|s| - 1] == NatText(n / 10);
    }
  }

  lemma ParseUnsigned(digits: string)
    requires |digits| >= 1 && IsDigits(digits)
    ensures ParseDecimal(digits) == ParseDigits(digits)
  {
    assert digits[0] != '-';
  }

  /** `str()` of an integer reads back as the same integer. */
  lemma {:induction false} DecimalTextRoundTrip(n: int)
    ensures ParseDecimal(DecimalText(n)) == n
  {
    if n < 0 {
      NatTextRoundTrip(-n);
      NegativeRoundTrip(n, NatText(-n));
    } else {
      NatTextRoundTrip(n);
      ParseUnsigned(NatText(n));
    }
  }

  lemma NegativeRoundTrip(n: int, digits: string)
    requires n < 0 && ParseDigits(digits) == -n
    ensures ParseDecimal("-" + digits) == n
  {
    assert ("-" + digits)[1..] == digits;
  }

  function Pow10(k: nat): (p: nat)
    ensures p >= 1
  {
    if k == 0 then 1 else 10 * Pow10(k - 1)
  }

  lemma {:induction false} NatTextLength(n: nat, w: nat)
    requires n < Pow10(w)
    ensures |NatText(n)| <= if w == 0 then 1 else w
  {
    if n >= 10 {
      assert w >= 2;
      assert n / 10 < Pow10(w - 1);
      NatTextLength(n / 10, w - 1);
    }
  }

  function Zeros(k: nat): (s: string)
    ensures |s| == k && IsDigits(s)
  {
    if k == 0 then "" else Zeros(k - 1) + "0"
  }

  /** `n` written with at least `w` digits, padded on the left with `0`s (`%02d`, `%04d`). */
  function Padded(n: nat, w: nat): (s: string)
    ensures IsDigits(s)
  {
    PadLeft(NatText(n), w)
  }

  /** `digits` preceded by as many `0`s as it takes to reach `w` characters. */
  function PadLeft(digits: string, w: nat): (s: string)
    requires IsDigits(digits)
    ensures IsDigits(s)
  {
    if |digits| >= w then digits else Zeros(w - |digits|) + digits
  }

  lemma {:induction false} ParseDigitsConcat(a: string, b: string)
    ensures ParseDigits(a + b) == ParseDigits(a) * Pow10(|b|) + ParseDigits(b)
    decreases |b|
  {
    if b == [] {
      assert a + b == a;
    } else {
      var b' := b[..|b| - 1];
      var c := b[|b| - 1];
      assert (a + b)[..|a + b| - 1] == a + b';
      ParseDigitsConcat(a, b');
      assert (a + b)[|a + b| - 1] == c;
      assert ParseDigits(a + b) == ParseDigits(a + b') * 10 + DigitValue(c);
      assert ParseDigits(b) == ParseDigits(b') * 10 + DigitValue(c) by {
        assert b[..|b| - 1] == b';
      }
      assert Pow10(|b|) == 10 * Pow10(|b'|);
      ShiftDigit(ParseDigits(a), Pow10(|b'|), ParseDigits(b'), DigitValue(c));
    }
  }

  lemma ShiftDigit(x: int, p: int, y: int, d: int)
    ensures (x * p + y) * 10 + d == x * (10 * p) + (y * 10 + d)
  {
  }

  lemma {:induction false} ParseZeros(k: nat)
    ensures ParseDigits(Zeros(k)) == 0
  {
    if k > 0 {
      ParseZeros(k - 1);
      assert Zeros(k)[..k - 1] == Zeros(k - 1);
    }
  }

  /** Zeros in front of a digit string do not change what it reads as. */
  lemma {:induction false} LeadingZeros(k: nat, digits: string)
    ensures ParseDigits(Zeros(k) + digits) == ParseDigits(digits)
  {
    var zeros := Zeros(k);
    ParseZeros(k);
    ParseDigitsConcat(zeros, digits);
    ZeroTimes(ParseDigits(zeros), Pow10(|digits|));
  }

  lemma ZeroTimes(x: int, p: int)
    requires x == 0
    ensures x * p == 0
  {
  }

  /** Padding a digit string that fits in `w` characters gives exactly `w` characters that read the same. */
  lemma {:induction false} PadLeftRoundTrip(digits: string, w: nat)
    requires IsDigits(digits) && |digits| <= w
    ensures |PadLeft(digits, w)| == w
    ensures ParseDigits(PadLeft(digits, w)) == ParseDigits(digits)
  {
    if |digits| < w {
      LeadingZeros(w - |digits|, digits);
    }
  }

  /** A field that fits in `w` digits is written with exactly `w` digits and reads back unchanged. */
  lemma {:induction false} PaddedRoundTrip(n: nat, w: nat)
    requires w >= 1 && n < Pow10(w)
    ensures |Padded(n, w)| == w
    ensures ParseDigits(Padded(n, w)) == n
  {
    NatTextLength(n, w);
    NatTextRoundTrip(n);
    PadLeftRoundTrip(NatText(n), w);
  }
}
