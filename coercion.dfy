/**
 * Type inference (`infer_dtype`, app.py:67-79), the per-cell integer
 * coercion (`validate_int_range`, app.py:82-104) and the column conversion
 * (`convert_dtype`, app.py:124-147).
 */
module Coercion {
  import opened Seqs
  import opened Cells
  import opened Cleaning

  /** The six target types offered for a column. */
  datatype TargetType = Varchar | Int | BigInt | Float | Bool | Datetime

  /** Bounds of PostgreSQL's INTEGER and BIGINT. */
  const IntMin: int := -2147483648
  const IntMax: int := 2147483647
  const BigIntMin: int := -9223372036854775808
  const BigIntMax: int := 9223372036854775807

  function Lower(useBigint: bool): int
  {
    if useBigint then BigIntMin else IntMin
  }

  function Upper(useBigint: bool): int
  {
    if useBigint then BigIntMax else IntMax
  }

  /** `haystack.startswith(needle)`, character by character. */
  function StartsWith(haystack: string, needle: string): bool
    decreases |needle|
  {
    needle == [] ||
    (haystack != [] && haystack[0] == needle[0] && StartsWith(haystack[1..], needle[1..]))
  }

  /** Starting with `needle` is having it as the prefix of that length. */
  lemma {:induction false} StartsWithIffPrefix(haystack: string, needle: string)
    ensures StartsWith(haystack, needle) <==> |needle| <= |haystack| && haystack[..|needle|] == needle
    decreases |needle|
  {
    if needle != [] && haystack != [] {
      StartsWithIffPrefix(haystack[1..], needle[1..]);
      if |needle| <= |haystack| {
        assert haystack[..|needle|] == [haystack[0]] + haystack[1..][..|needle| - 1];
        assert needle == [needle[0]] + needle[1..];
      }
    }
  }

  /** `needle in haystack` for Python strings. */
  function Contains(haystack: string, needle: string): bool
    decreases |haystack|
  {
    StartsWith(haystack, needle) || (haystack != [] && Contains(haystack[1..], needle))
  }

  /** `needle` occurs in `haystack` starting at index `i`. */
  predicate OccursAt(haystack: string, needle: string, i: nat)
  {
    i + |needle| <= |haystack| && haystack[i..i + |needle|] == needle
  }

  /** `Contains` finds exactly the occurrences of `needle` at some offset. */
  lemma {:induction false} ContainsIffOccurs(haystack: string, needle: string)
    ensures Contains(haystack, needle) <==> exists i: nat :: OccursAt(haystack, needle, i)
    decreases |haystack|
  {
    StartsWithIffPrefix(haystack, needle);
    if StartsWith(haystack, needle) {
      assert OccursAt(haystack, needle, 0);
    } else if haystack != [] {
      ContainsIffOccurs(haystack[1..], needle);
      if Contains(haystack[1..], needle) {
        var i: nat :| OccursAt(haystack[1..], needle, i);
        var a, b := haystack[i + 1..i + 1 + |needle|], haystack[1..][i..i + |needle|];
        assert forall k :: 0 <= k < |a| ==> a[k] == b[k];
        assert a == b;
        assert OccursAt(haystack, needle, i + 1);
      }
      if exists i: nat :: OccursAt(haystack, needle, i) {
        var i: nat :| OccursAt(haystack, needle, i);
        assert i != 0;
        var a, b := haystack[1..][i - 1..i - 1 + |needle|], haystack[i..i + |needle|];
        assert forall k :: 0 <= k < |a| ==> a[k] == b[k];
        assert a == b;
        assert OccursAt(haystack[1..], needle, i - 1);
      }
    }
  }

  /**
   * `infer_dtype`: the default target type for a column whose pandas dtype is
   * named `dtype`. The first of "int", "float", "bool", "datetime" occurring
   * in the name decides; BigInt is never proposed.
   */
  function InferDtype(dtype: string): (t: TargetType)
    ensures t != BigInt
    ensures t == Int <==> Contains(dtype, "int")
    ensures t == Float <==> !Contains(dtype, "int") && Contains(dtype, "float")
    ensures t == Bool <==> !Contains(dtype, "int") && !Contains(dtype, "float") && Contains(dtype, "bool")
    ensures t == Datetime <==>
      !Contains(dtype, "int") && !Contains(dtype, "float") && !Contains(dtype, "bool") && Contains(dtype, "datetime")
  {
    if Contains(dtype, "int") then Int
    else if Contains(dtype, "float") then Float
    else if Contains(dtype, "bool") then Bool
    else if Contains(dtype, "datetime") then Datetime
    else Varchar
  }

  /**
   * `float(value)` followed by the `pd.isna` test: None when `float` raises or
   * yields NaN, the number otherwise. A text is read after `float`'s own
   * removal of surrounding whitespace.
   */
  function ParseNumber(u: CharClasses, c: Cell): Option<real>
  {
    match c
    case Missing => None
    case Num(n) => Some(n as real)
    case Real(x, _) => Some(x)
    case Flag(b) => Some(if b then 1.0 else 0.0)
    case Text(s) => ParseDecimal(Strip(u, s))
    case Other(_) => None
  }

  /** Python's `int(x)` for a float: the integer part, rounding toward zero. */
  function Trunc(x: real): (r: int)
    ensures x >= 0.0 ==> r >= 0 && r as real <= x < r as real + 1.0
    ensures x < 0.0 ==> r <= 0 && r as real - 1.0 < x <= r as real
  {
    if x >= 0.0 then x.Floor else -((-x).Floor)
  }

  /** The point of the INTEGER (BIGINT) range nearest to `x`. */
  function Clamp(x: real, useBigint: bool): real
  {
    if x > Upper(useBigint) as real then Upper(useBigint) as real
    else if x < Lower(useBigint) as real then Lower(useBigint) as real
    else x
  }

  /** The clamped value lies in the range and no point of the range is nearer. */
  lemma ClampIsNearest(x: real, useBigint: bool, k: real)
    requires Lower(useBigint) as real <= k <= Upper(useBigint) as real
    ensures Lower(useBigint) as real <= Clamp(x, useBigint) <= Upper(useBigint) as real
    ensures var y := Clamp(x, useBigint);
            (if y <= x then x - y else y - x) <= (if k <= x then x - k else k - x)
    ensures Clamp(x, useBigint) == x <==> Lower(useBigint) as real <= x <= Upper(useBigint) as real
  {
  }

  /**
   * `validate_int_range(value, use_bigint)`: never fails; an unparseable or
   * missing value gives 0, a number above (below) the INTEGER (or BIGINT)
   * range gives the upper (lower) bound, and a number within it is cut to
   * its integer part.
   */
  function ValidateIntRange(u: CharClasses, c: Cell, useBigint: bool): (r: int)
    ensures Lower(useBigint) <= r <= Upper(useBigint)
    ensures ParseNumber(u, c).None? ==> r == 0
    ensures ParseNumber(u, c).Some? ==>
      var x := ParseNumber(u, c).value;
      (Lower(useBigint) as real <= x <= Upper(useBigint) as real ==> r == Trunc(x)) &&
      (x > Upper(useBigint) as real ==> r == Upper(useBigint)) &&
      (x < Lower(useBigint) as real ==> r == Lower(useBigint))
  {
    match ParseNumber(u, c)
    case None => 0
    case Some(x) =>
      if x > Upper(useBigint) as real then Upper(useBigint)
      else if x < Lower(useBigint) as real then Lower(useBigint)
      else Trunc(x)
  }

  /** Coercion is the integer part of the nearest point of the range. */
  lemma ValidateIntRangeIsTruncatedClamp(u: CharClasses, c: Cell, useBigint: bool)
    requires ParseNumber(u, c).Some?
    ensures ValidateIntRange(u, c, useBigint) == Trunc(Clamp(ParseNumber(u, c).value, useBigint))
  {
    var x := ParseNumber(u, c).value;
    if x > Upper(useBigint) as real {
      assert Trunc(Upper(useBigint) as real) == Upper(useBigint);
    } else if x < Lower(useBigint) as real {
      assert Trunc(Lower(useBigint) as real) == Lower(useBigint);
    }
  }

  /** Coercing an already coerced value changes nothing. */
  lemma ValidateIntRangeIdempotent(u: CharClasses, c: Cell, useBigint: bool)
    ensures var r := ValidateIntRange(u, c, useBigint);
            ValidateIntRange(u, Num(r), useBigint) == r
  {
    var r := ValidateIntRange(u, c, useBigint);
    assert Trunc(r as real) == r;
  }

  /** Cutting to the integer part keeps the order of numbers. */
  lemma TruncMonotone(x: real, y: real)
    requires x <= y
    ensures Trunc(x) <= Trunc(y)
  {
  }

  /** Coercion keeps the order of the parsed numbers. */
  lemma ValidateIntRangeMonotone(u: CharClasses, c: Cell, d: Cell, useBigint: bool)
    requires ParseNumber(u, c).Some? && ParseNumber(u, d).Some?
    requires ParseNumber(u, c).value <= ParseNumber(u, d).value
    ensures ValidateIntRange(u, c, useBigint) <= ValidateIntRange(u, d, useBigint)
  {
    TruncMonotone(ParseNumber(u, c).value, ParseNumber(u, d).value);
  }

  /**
   * The pandas conversions behind the float, bool and datetime branches
   * (`pd.to_numeric(errors='coerce')`, `astype(bool)`,
   * `pd.to_datetime(errors='coerce')`), which this model does not look into.
   */
  datatype Pandas = Pandas(
    toNumeric: seq<Cell> -> seq<Cell>,
    asBool: seq<Cell> -> seq<Cell>,
    toDatetime: seq<Cell> -> seq<Cell>)

  /**
   * `convert_dtype(series, target_type, max_len)`: an integer column is
   * clamped cell by cell, a varchar column is cleaned cell by cell and then
   * cut to `max_len` characters when `max_len` is positive; the other types
   * are handed to pandas.
   */
  function ConvertColumn(u: CharClasses, pandas: Pandas, cells: seq<Cell>, target: TargetType,
                         maxLen: Option<int>): (r: seq<Cell>)
    ensures target in {Int, BigInt, Varchar} ==> |r| == |cells|
  {
    match target
    case Int => seq(|cells|, i requires 0 <= i < |cells| => Num(ValidateIntRange(u, cells[i], false)))
    case BigInt => seq(|cells|, i requires 0 <= i < |cells| => Num(ValidateIntRange(u, cells[i], true)))
    case Float => pandas.toNumeric(cells)
    case Bool => pandas.asBool(cells)
    case Datetime => pandas.toDatetime(cells)
    case Varchar =>
      seq(|cells|, i requires 0 <= i < |cells| => Text(Truncate(CleanString(u, cells[i]), maxLen)))
  }

  /**
   * An INTEGER or BIGINT column: every output is a number within the range;
   * a value that does not read as a number becomes 0, a number within the
   * range is cut to its integer part, one above (below) the range becomes the
   * upper (lower) bound.
   */
  lemma IntColumnSpec(u: CharClasses, pandas: Pandas, cells: seq<Cell>, useBigint: bool)
    ensures var r := ConvertColumn(u, pandas, cells, if useBigint then BigInt else Int, None);
      |r| == |cells| &&
      forall i :: 0 <= i < |r| ==>
        r[i].Num? && Lower(useBigint) <= r[i].n <= Upper(useBigint) &&
        (ParseNumber(u, cells[i]).None? ==> r[i].n == 0) &&
        (ParseNumber(u, cells[i]).Some? ==>
           var x := ParseNumber(u, cells[i]).value;
           (Lower(useBigint) as real <= x <= Upper(useBigint) as real ==> r[i].n == Trunc(x)) &&
           (x > Upper(useBigint) as real ==> r[i].n == Upper(useBigint)) &&
           (x < Lower(useBigint) as real ==> r[i].n == Lower(useBigint)))
  {
  }

  /**
   * A varchar column: every output is a text, a prefix of the cleaned value
   * made of kept characters; with a positive limit it is at most that long,
   * exactly that long when the cleaned value is longer, and it equals the cleaned value unless the limit is positive and the
   * cleaned value is longer.
   */
  lemma VarcharColumnSpec(u: CharClasses, pandas: Pandas, cells: seq<Cell>, maxLen: Option<int>)
    ensures var r := ConvertColumn(u, pandas, cells, Varchar, maxLen);
      |r| == |cells| &&
      forall i :: 0 <= i < |r| ==>
        r[i].Text? && r[i].s <= CleanString(u, cells[i]) && AllKept(u, r[i].s) &&
        (maxLen.Some? && maxLen.value > 0 ==> |r[i].s| <= maxLen.value) &&
        (maxLen.Some? && maxLen.value > 0 && |CleanString(u, cells[i])| > maxLen.value ==>
           |r[i].s| == maxLen.value) &&
        (r[i].s == CleanString(u, cells[i]) <==>
           !(maxLen.Some? && maxLen.value > 0 && |CleanString(u, cells[i])| > maxLen.value))
  {
    var r := ConvertColumn(u, pandas, cells, Varchar, maxLen);
    forall i | 0 <= i < |r|
      ensures AllKept(u, r[i].s)
    {
      CleanStringSpec(u, cells[i]);
      assert forall k :: 0 <= k < |r[i].s| ==> r[i].s[k] == CleanString(u, cells[i])[k];
    }
  }

  /** A column of integers that already lie in the range comes back unchanged. */
  lemma InRangeColumnUnchanged(u: CharClasses, pandas: Pandas, cells: seq<Cell>, useBigint: bool)
    requires forall i :: 0 <= i < |cells| ==>
      cells[i].Num? && Lower(useBigint) <= cells[i].n <= Upper(useBigint)
    ensures ConvertColumn(u, pandas, cells, if useBigint then BigInt else Int, None) == cells
  {
    var r := ConvertColumn(u, pandas, cells, if useBigint then BigInt else Int, None);
    forall i | 0 <= i < |cells|
      ensures r[i] == cells[i]
    {
      assert Trunc(cells[i].n as real) == cells[i].n;
    }
  }
}
