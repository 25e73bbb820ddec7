/**
 * Concrete cases: the extreme-value column of the problem fixture
 * (xls-to-csv-converter/xls-to-csv-converter/create_test_problematic.py),
 * type inference on pandas dtype names, Python's number reading, and the
 * varchar cleaning and truncation.
 */
module Examples {
  import opened Seqs
  import opened Cells
  import opened Cleaning
  import opened Coercion
  import opened Counting
  import opened Frames
  import opened Diagnostics

  /** The `Valor_Extremo` column: at and beyond both INTEGER bounds. */
  function ExtremeValues(): seq<Cell>
  {
    [Num(2147483647), Num(2147483648), Num(-2147483648), Num(-2147483649), Num(1000000000)]
  }

  /** As INTEGER, the two values beyond the bounds are set to the bounds and counted. */
  lemma ExtremeValuesAsInteger(u: CharClasses, pandas: Pandas)
    ensures ConvertColumn(u, pandas, ExtremeValues(), Int, None) ==
      [Num(2147483647), Num(2147483647), Num(-2147483648), Num(-2147483648), Num(1000000000)]
    ensures OutOfRangeCount(u, ExtremeValues(), false) == 2
  {
    var cells := ExtremeValues();
    var p := c => OutOfBounds(u, c, false);
    assert cells[..0] == [];
    CountPrefix(cells, 0, p);
    CountPrefix(cells, 1, p);
    CountPrefix(cells, 2, p);
    CountPrefix(cells, 3, p);
    CountPrefix(cells, 4, p);
    assert cells[..5] == cells;
  }

  /** As BIGINT the same column passes unchanged and draws no count. */
  lemma ExtremeValuesAsBigint(u: CharClasses, pandas: Pandas)
    ensures ConvertColumn(u, pandas, ExtremeValues(), BigInt, None) == ExtremeValues()
    ensures OutOfRangeCount(u, ExtremeValues(), true) == 0
  {
    InRangeColumnUnchanged(u, pandas, ExtremeValues(), true);
    CountZeroIff(ExtremeValues(), c => OutOfBounds(u, c, true));
  }

  /** NumPy's integer dtype. */
  lemma InferDtypeInt64()
    ensures InferDtype("int64") == Int
  {
  }

  /** NumPy's floating-point dtype. */
  lemma InferDtypeFloat64()
    ensures InferDtype("float64") == Float
  {
  }

  /** NumPy's boolean dtype. */
  lemma InferDtypeBool()
    ensures InferDtype("bool") == Bool
  {
  }

  /** Columns of mixed Python objects, strings among them, become varchar. */
  lemma InferDtypeObject()
    ensures InferDtype("object") == Varchar
  {
  }

  /** pandas' nullable integer dtype is spelled with a capital I and is not recognised. */
  lemma InferDtypeNullableInt64()
    ensures InferDtype("Int64") == Varchar
  {
  }

  /** pandas' nullable boolean dtype contains "bool" and is read as bool. */
  lemma InferDtypeBoolean()
    ensures InferDtype("boolean") == Bool
  {
  }

  /** An interval dtype is taken for an integer column because its name contains "int". */
  lemma InferDtypeInterval()
    ensures InferDtype("interval[int64]") == Int
  {
  }

  /** `float` ignores surrounding whitespace: " 42 " coerces to 42. */
  lemma PaddedTextReadsAsNumber(u: CharClasses)
    requires AsciiConventional(u)
    ensures ValidateIntRange(u, Text(" 42 "), false) == 42
  {
    assert " 42 "[1..] == "42 ";
    assert LeadingSpaces(u, " 42 ") == 1;
    assert "42 "[..2] == "42";
    assert TrailingStart(u, "42 ") == 2;
    assert Strip(u, " 42 ") == "42";
    assert DotIndex("42") == 2;
    assert "42"[..1] == "4";
    assert DigitsValue("42") == 42;
    assert ParseDecimal("42") == Some(42.0);
  }

  /** `int` cuts toward zero: "4.5" coerces to 4. */
  lemma PositiveFractionCut(u: CharClasses)
    requires AsciiConventional(u)
    ensures ValidateIntRange(u, Text("4.5"), false) == 4
  {
    StripSpec(u, "4.5");
    assert DotIndex("4.5") == 1;
    assert "4.5"[..1] == "4" && "4.5"[2..] == "5";
    assert ParseDecimal("4.5") == Some(4.5);
  }

  /** `int` cuts toward zero, not down: "-4.5" coerces to -4. */
  lemma NegativeFractionCut(u: CharClasses)
    requires AsciiConventional(u)
    ensures ValidateIntRange(u, Text("-4.5"), false) == -4
  {
    StripSpec(u, "-4.5");
    assert "-4.5"[1..] == "4.5";
    assert DotIndex("4.5") == 1;
    assert "4.5"[..1] == "4" && "4.5"[2..] == "5";
    assert ParseDecimal("-4.5") == Some(-4.5);
  }

  /** A text that is not a number coerces to 0, as do a missing value and False. */
  lemma NonNumbersReadAsZero(u: CharClasses)
    requires AsciiConventional(u)
    ensures ValidateIntRange(u, Text("12abc"), false) == 0
    ensures ValidateIntRange(u, Missing, false) == 0
    ensures ValidateIntRange(u, Flag(true), true) == 1
  {
    StripSpec(u, "12abc");
    ParseDecimalSpec("12abc");
    assert !AllDigits("12abc") by { assert !IsDigit("12abc"[2]); }
    assert forall d :: 0 <= d < 5 ==> "12abc"[d] != '.';
  }

  /**
   * A number just above the INTEGER range is counted as adjusted to the
   * limit, although the limit is also what `int` alone would give.
   */
  lemma CountedButNotMoved(u: CharClasses)
    ensures OutOfBounds(u, Real(2147483647.5, "2147483647.5"), false)
    ensures ValidateIntRange(u, Real(2147483647.5, "2147483647.5"), false) ==
      Trunc(2147483647.5)
  {
  }

  /** Only the value whose cleaned length exceeds the limit is counted. */
  lemma TruncationCountExample(u: CharClasses)
    requires AsciiConventional(u)
    ensures TruncatedCount(u, [Text("abcdefghij"), Text("abc")], 5) == 1
  {
    CleanTextOfCleanIsIdentity(u, "abcdefghij");
    CleanTextOfCleanIsIdentity(u, "abc");
    var cells := [Text("abcdefghij"), Text("abc")];
    var p := c => |CleanString(u, c)| > 5;
    assert cells[..0] == [];
    CountPrefix(cells, 0, p);
    CountPrefix(cells, 1, p);
    assert cells[..2] == cells;
  }

  /** A text longer than the limit keeps exactly its first `max_len` characters. */
  lemma TruncateExample()
    ensures Truncate("abcdefghij", Some(5)) == "abcde"
  {
  }

  /**
   * Cleaning strips before truncation cuts, so a cut text can end in
   * whitespace again.
   */
  lemma TruncationExposesTrailingSpace(u: CharClasses)
    requires AsciiConventional(u)
    ensures Truncate(CleanString(u, Text("abc def")), Some(4)) == "abc "
    ensures !Trimmed(u, Truncate(CleanString(u, Text("abc def")), Some(4)))
  {
    CleanTextOfCleanIsIdentity(u, "abc def");
  }

  /**
   * A missing value becomes the empty text, but the encoding check reads it
   * as "nan" and does not count it; a text with a leading space or a control
   * character is counted.
   */
  lemma EncodingCountExample(u: CharClasses)
    requires AsciiConventional(u)
    ensures CleanString(u, Missing) == ""
    ensures CleanedCount(u, ["nan", " x", "a\U{7}b", "ok"]) == 2
  {
    var values := ["nan", " x", "a\U{7}b", "ok"];
    var p := v => ChangedByCleaning(u, v);
    EncodingCheckSkipsNonText(u, Missing);
    assert !p(values[0]);
    CleanChangesIff(u, " x");
    assert p(values[1]);
    CleanChangesIff(u, "a\U{7}b");
    assert !Kept(u, "a\U{7}b"[1]);
    assert p(values[2]);
    CleanTextOfCleanIsIdentity(u, "ok");
    assert !p(values[3]);
    assert values[..0] == [];
    CountPrefix(values, 0, p);
    CountPrefix(values, 1, p);
    CountPrefix(values, 2, p);
    CountPrefix(values, 3, p);
    assert values[..4] == values;
  }

  /** The column the encoding check reads for [missing, " x", "a\U{7}b", "ok"]. */
  lemma AsStringsExample()
    ensures AsStrings([Missing, Text(" x"), Text("a\U{7}b"), Text("ok")]) == ["nan", " x", "a\U{7}b", "ok"]
  {
  }

  /** Two columns of the fixture: the extreme values and a clean name. */
  function FixtureColumns(): map<Name, seq<Cell>>
  {
    map["Valor_Extremo" := ExtremeValues(), "Nome" := [Text("Normal Name")]]
  }

  /** The extreme values as INTEGER, the names as varchar. */
  function FixtureTypes(): map<Name, TargetType>
  {
    map["Valor_Extremo" := Int, "Nome" := Varchar]
  }

  function FixtureSelection(): seq<Name>
  {
    ["Valor_Extremo", "Nome"]
  }

  /** The range check finds the two values beyond the INTEGER bounds. */
  lemma FixtureRangePass(u: CharClasses)
    ensures Configured(FixtureColumns(), FixtureTypes(), FixtureSelection())
    ensures Pass(u, FixtureColumns(), FixtureTypes(), map[], RangeCheck, FixtureSelection()) ==
      [OutOfRange("Valor_Extremo", 2, false)]
  {
    var selected := FixtureSelection();
    ExtremeValuesAsInteger(u, Pandas(c => c, c => c, c => c));
    RangeStep(u, FixtureColumns(), FixtureTypes(), map[], "Valor_Extremo", 2);
    assert selected[..2] == selected && selected[..1] == ["Valor_Extremo"] && selected[..0] == [];
    PassPrefix(u, FixtureColumns(), FixtureTypes(), map[], RangeCheck, selected, 0);
    PassPrefix(u, FixtureColumns(), FixtureTypes(), map[], RangeCheck, selected, 1);
  }

  /** The clean name draws neither a truncation nor an encoding warning. */
  lemma FixtureVarcharPasses(u: CharClasses, check: Check)
    requires AsciiConventional(u) && check != RangeCheck
    ensures Configured(FixtureColumns(), FixtureTypes(), FixtureSelection())
    ensures Pass(u, FixtureColumns(), FixtureTypes(), map[], check, FixtureSelection()) == []
  {
    var selected := FixtureSelection();
    assert AllKept(u, "Normal Name") && Trimmed(u, "Normal Name");
    CleanColumnHasNoFinding(u, FixtureColumns(), FixtureTypes(), map[], "Nome");
    assert selected[..2] == selected && selected[..1] == ["Valor_Extremo"] && selected[..0] == [];
    PassPrefix(u, FixtureColumns(), FixtureTypes(), map[], check, selected, 0);
    PassPrefix(u, FixtureColumns(), FixtureTypes(), map[], check, selected, 1);
  }

  /**
   * Validating the extreme-value column as INTEGER next to a clean varchar
   * column yields exactly one warning: two values out of range.
   */
  lemma FixtureWarnings(u: CharClasses)
    requires AsciiConventional(u)
    ensures Configured(FixtureColumns(), FixtureTypes(), FixtureSelection())
    ensures Warnings(u, FixtureColumns(), FixtureTypes(), map[], FixtureSelection()) ==
      [OutOfRange("Valor_Extremo", 2, false)]
  {
    FixtureRangePass(u);
    FixtureVarcharPasses(u, TruncationCheck);
    FixtureVarcharPasses(u, EncodingCheck);
  }
}
