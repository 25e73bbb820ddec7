/**
 * Spreadsheet cells as the table loader hands them over, their textual form
 * (Python's `str(value)`, pandas' `astype(str)`) and the decimal reading of a
 * text that `float(value)` performs, as an exact real number.
 */
module Cells {
  import opened Seqs

  /** A column name of the table. */
  type Name = string

  /** One value of a column. */
  datatype Cell =
    | Missing               // NaN, as `pd.isna` recognises it (None and NaT: see `Str`)
    | Num(n: int)           // an integral number
    | Real(x: real, repr: string)  // a floating-point number and Python's `str` of it
    | Flag(b: bool)         // a boolean
    | Text(s: string)       // a string
    | Other(repr: string)   // any other value (a timestamp, say), known only by its `str`

  predicate IsDigit(c: char)
  {
    '0' <= c <= '9'
  }

  predicate AllDigits(s: string)
  {
    forall i :: 0 <= i < |s| ==> IsDigit(s[i])
  }

  function DigitChar(d: nat): (c: char)
    requires d < 10
    ensures IsDigit(c)
  {
    (('0' as int) + d) as char
  }

  function DigitValue(c: char): (d: nat)
    requires IsDigit(c)
    ensures d < 10 && DigitChar(d) == c
  {
    (c as int) - ('0' as int)
  }

  /** Decimal digits of a natural number, most significant first. */
  function NatToString(n: nat): (s: string)
    ensures |s| > 0 && AllDigits(s)
  {
    if n < 10 then [DigitChar(n)] else NatToString(n / 10) + [DigitChar(n % 10)]
  }

  /** `str(n)` for a Python int. */
  function IntToString(n: int): string
  {
    if n < 0 then "-" + NatToString(-n) else NatToString(n)
  }

  /** The value of a string of decimal digits; the empty string has value 0. */
  function DigitsValue(s: string): nat
    requires AllDigits(s)
  {
    if |s| == 0 then 0
    else DigitsValue(s[..|s| - 1]) * 10 + DigitValue(s[|s| - 1])
  }

  function Pow10(k: nat): (p: nat)
    ensures p >= 1
  {
    if k == 0 then 1 else 10 * Pow10(k - 1)
  }

  /** Index of the first '.' in `s`, or `|s|` when there is none. */
  function DotIndex(s: string): (d: nat)
    ensures d <= |s|
  {
    if s == [] then 0
    else if s[0] == '.' then 0
    else 1 + DotIndex(s[1..])
  }

  /** The index found holds the first '.', if any. */
  lemma {:induction false} DotIndexSpec(s: string)
    ensures DotIndex(s) < |s| ==> s[DotIndex(s)] == '.'
    ensures forall i :: 0 <= i < DotIndex(s) ==> s[i] != '.'
  {
    if s != [] && s[0] != '.' {
      DotIndexSpec(s[1..]);
      assert forall i :: 1 <= i < |s| ==> s[i] == s[1..][i - 1];
    }
  }

  /**
   * An unsigned decimal literal as `float` accepts it: digits with at most
   * one '.', and at least one digit ("7", "7.", ".5", "7.25").
   */
  predicate Unsigned(s: string)
  {
    (|s| > 0 && AllDigits(s)) ||
    (exists d :: 0 <= d < |s| && s[d] == '.' && |s| > 1 && AllDigits(s[..d]) && AllDigits(s[d + 1..]))
  }

  /** The value of an unsigned decimal literal. */
  function ParseUnsigned(s: string): Option<real>
  {
    var d := DotIndex(s);
    if d == |s| then
      if |s| > 0 && AllDigits(s) then Some(DigitsValue(s) as real) else None
    else
      var whole := s[..d];
      var frac := s[d + 1..];
      if |s| > 1 && AllDigits(whole) && AllDigits(frac) then
        Some(DigitsValue(whole) as real + DigitsValue(frac) as real / Pow10(|frac|) as real)
      else
        None
  }

  /** Exactly the unsigned literals are read, each as a number no less than zero. */
  lemma ParseUnsignedSpec(s: string)
    ensures ParseUnsigned(s).Some? <==> Unsigned(s)
    ensures ParseUnsigned(s).Some? ==> ParseUnsigned(s).value >= 0.0
  {
    DotIndexSpec(s);
    var d := DotIndex(s);
    if d == |s| {
      assert forall k :: 0 <= k < |s| ==> s[k] != '.';
    }
  }

  /**
   * The texts `float` reads as a finite number, limited to decimal
   * notation: an optional sign followed by an unsigned decimal literal.
   */
  function ParseDecimal(s: string): Option<real>
  {
    if |s| > 0 && (s[0] == '-' || s[0] == '+') then
      match ParseUnsigned(s[1..])
      case Some(magnitude) => Some(if s[0] == '-' then -magnitude else magnitude)
      case None => None
    else
      ParseUnsigned(s)
  }

  /** Exactly the optionally signed unsigned literals are read. */
  lemma ParseDecimalSpec(s: string)
    ensures ParseDecimal(s).Some? <==>
      Unsigned(s) || (|s| > 1 && (s[0] == '-' || s[0] == '+') && Unsigned(s[1..]))
  {
    if |s| > 0 && (s[0] == '-' || s[0] == '+') {
      ParseUnsignedSpec(s[1..]);
      assert !AllDigits(s);
      assert forall d :: 0 < d < |s| ==> !AllDigits(s[..d]) by {
        forall d | 0 < d < |s|
          ensures !AllDigits(s[..d])
        {
          assert s[..d][0] == s[0];
        }
      }
    } else {
      ParseUnsignedSpec(s);
    }
  }

  lemma {:induction false} DigitsOfNat(n: nat)
    ensures DigitsValue(NatToString(n)) == n
  {
    if n >= 10 {
      var s := NatToString(n);
      assert s[..|s| - 1] == NatToString(n / 10);
      DigitsOfNat(n / 10);
    }
  }

  /** Reading back the decimal form of an integer gives the integer. */
  lemma ParseIntToString(n: int)
    ensures ParseDecimal(IntToString(n)) == Some(n as real)
  {
    var s := IntToString(n);
    if n < 0 {
      var digits := NatToString(-n);
      assert s[1..] == digits;
      DotIndexSpec(digits);
      assert DotIndex(digits) == |digits|;
      DigitsOfNat(-n);
    } else {
      DotIndexSpec(s);
      assert DotIndex(s) == |s|;
      DigitsOfNat(n);
    }
  }

  /**
   * `str(value)`, as pandas' `astype(str)` writes each cell. A missing value
   * reads "nan", the form of NaN; a None or NaT cell would read "None" or
   * "NaT", which this model does not distinguish.
   */
  function Str(c: Cell): string
  {
    match c
    case Missing => "nan"
    case Num(n) => IntToString(n)
    case Real(_, repr) => repr
    case Flag(b) => if b then "True" else "False"
    case Text(s) => s
    case Other(repr) => repr
  }
}
