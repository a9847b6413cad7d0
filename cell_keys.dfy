/** The string keys of the grid dictionary: a cell at (row, col) is stored
    under `${row}-${col}`, and the renderer reads the coordinates back with
    split('-') and parseInt. */
module CellKeys {
  import opened Wrappers

  predicate IsDigit(ch: char) {
    '0' <= ch <= '9'
  }

  predicate AllDigits(s: string) {
    forall i :: 0 <= i < |s| ==> IsDigit(s[i])
  }

  function DigitChar(d: int): (ch: char)
    requires 0 <= d < 10
    ensures IsDigit(ch) && DigitValue(ch) == d
  {
    (d + '0' as int) as char
  }

  function DigitValue(ch: char): int
    requires IsDigit(ch)
  {
    ch as int - '0' as int
  }

  /** How a template literal prints a non-negative integer: decimal digits,
      without leading zeros. */
  function DecimalString(n: nat): (s: string)
    ensures |s| > 0 && AllDigits(s)
    ensures s[0] == '0' ==> n == 0
  {
    if n < 10 then [DigitChar(n)] else DecimalString(n / 10) + [DigitChar(n % 10)]
  }

  /** The value of a run of decimal digits, most significant first. */
  function DigitsValue(s: string): nat
    requires AllDigits(s)
  {
    if s == [] then 0 else DigitsValue(s[..|s| - 1]) * 10 + DigitValue(s[|s| - 1])
  }

  /** The longest prefix of `s` made of decimal digits. */
  function LeadingDigits(s: string): (d: string)
    ensures AllDigits(d) && d <= s
  {
    if s == [] || !IsDigit(s[0]) then [] else [s[0]] + LeadingDigits(s[1..])
  }

  /** parseInt(s) on a string without leading blanks: an optional sign, then
      the longest run of decimal digits; NaN (None) when that run is empty. */
  function ParseInt(s: string): (r: Option<int>)
    // parseInt('') is NaN
    ensures s == [] ==> r.None?
    // a string that starts with a digit reads as a non-negative number
    ensures |s| > 0 && IsDigit(s[0]) ==> r.Some? && r.value >= 0
    // only a leading '-' gives a negative number
    ensures r.Some? && r.value < 0 ==> s[0] == '-'
  {
    var signed := |s| > 0 && (s[0] == '-' || s[0] == '+');
    var digits := LeadingDigits(if signed then s[1..] else s);
    if digits == [] then None
    else if signed && s[0] == '-' then Some(-(DigitsValue(digits) as int))
    else Some(DigitsValue(digits))
  }

  /** String.prototype.split with a one-character separator. */
  function Split(s: string, sep: char): (parts: seq<string>)
    ensures |parts| >= 1
  {
    if s == [] then [""]
    else
      var rest := Split(s[1..], sep);
      if s[0] == sep then [""] + rest else [[s[0]] + rest[0]] + rest[1..]
  }

  /** The dictionary key of the cell at (row, col). */
  function Key(row: nat, col: nat): (k: string)
    // a digit, the '-' and a digit at least
    ensures |k| >= 3
  {
    DecimalString(row) + "-" + DecimalString(col)
  }

  /** The renderer's reading of a key: parseInt of the first and of the
      second piece of split('-'); a missing piece parses to NaN. */
  function ParseKey(id: string): (r: (Option<int>, Option<int>))
    // a string without '-' has no second piece, so its column is NaN
    ensures '-' !in id ==> r.1.None?
    // nor does the empty string have a row
    ensures id == [] ==> r.0.None?
  {
    var parts := Split(id, '-');
    assert '-' !in id ==> parts == [id] by {
      if '-' !in id { SplitWithoutSeparator(id, '-'); }
    }
    (ParseInt(parts[0]), if |parts| > 1 then ParseInt(parts[1]) else None)
  }

  lemma {:induction false} DigitsOfDecimal(n: nat)
    ensures DigitsValue(DecimalString(n)) == n
  {
    var s := DecimalString(n);
    if n >= 10 {
      DigitsOfDecimal(n / 10);
      assert s[..|s| - 1] == DecimalString(n / 10);
    }
  }

  lemma {:induction false} LeadingDigitsOfDigits(s: string)
    requires AllDigits(s)
    ensures LeadingDigits(s) == s
  {
    if s != [] {
      LeadingDigitsOfDigits(s[1..]);
    }
  }

  /** parseInt reads back what the template literal printed. */
  lemma ParseDecimal(n: nat)
    ensures ParseInt(DecimalString(n)) == Some(n)
  {
    var s := DecimalString(n);
    LeadingDigitsOfDigits(s);
    DigitsOfDecimal(n);
  }

  lemma {:induction false} SplitWithoutSeparator(s: string, sep: char)
    requires sep !in s
    ensures Split(s, sep) == [s]
  {
    if s != [] {
      SplitWithoutSeparator(s[1..], sep);
      assert [s[0]] + s[1..] == s;
    }
  }

  lemma {:induction false} SplitAtFirstSeparator(a: string, sep: char, b: string)
    requires sep !in a
    ensures Split(a + [sep] + b, sep) == [a] + Split(b, sep)
  {
    if a == [] {
      assert a + [sep] + b == [sep] + b;
    } else {
      var s := a + [sep] + b;
      assert s[0] == a[0] && s[1..] == a[1..] + [sep] + b;
      SplitAtFirstSeparator(a[1..], sep, b);
      assert [a[0]] + a[1..] == a;
    }
  }

  lemma NoDashInDecimal(n: nat)
    ensures '-' !in DecimalString(n)
  {
  }

  /** Reading a key back gives the coordinates it was made from. */
  lemma KeyRoundTrip(row: nat, col: nat)
    ensures ParseKey(Key(row, col)) == (Some(row), Some(col))
  {
    NoDashInDecimal(row);
    NoDashInDecimal(col);
    assert Key(row, col) == DecimalString(row) + ['-'] + DecimalString(col);
    SplitAtFirstSeparator(DecimalString(row), '-', DecimalString(col));
    SplitWithoutSeparator(DecimalString(col), '-');
    ParseDecimal(row);
    ParseDecimal(col);
  }

  /** Distinct cells never share a key. */
  lemma KeyInjective(r1: nat, c1: nat, r2: nat, c2: nat)
    ensures Key(r1, c1) == Key(r2, c2) ==> r1 == r2 && c1 == c2
  {
    KeyRoundTrip(r1, c1);
    KeyRoundTrip(r2, c2);
  }
}
