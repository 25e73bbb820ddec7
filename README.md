# Column coercion and validation of the XLS-to-CSV converter

The converter is a Streamlit app. It reads a spreadsheet, lets the user
pick columns and a PostgreSQL-oriented target type for each one, and
writes a CSV file. This project models the engine behind that: what the
app computes between reading the sheet and writing the file. The engine
has five parts:

- `infer_dtype` proposes a default target type from the pandas dtype name.
- `validate_int_range` coerces one cell to an integer. Missing and
  unreadable values become 0. Numbers are clamped to PostgreSQL's INTEGER
  range, or to its BIGINT range.
- `clean_string` cleans one cell to text. It drops characters that are not
  printable, keeping line breaks and tabs, and strips surrounding
  whitespace.
- `convert_dtype` converts a whole column. For varchar it cleans each cell
  and then cuts the text to the configured length.
- Two steps run over the selected columns:
  - the output-table build (`Frames.BuildOutput`, a loop over a
    `DataFrame` class whose columns are replaced in place);
  - the validation pass (`Diagnostics.Validate`). It runs three loops
    that append warnings. They count values outside the integer range,
    texts that will be truncated, and texts that cleaning changes.

The model is organised as follows:

- Cells are the datatype `Cells.Cell`:
  - missing;
  - an integer;
  - a float, kept together with its `str` form;
  - a boolean;
  - a text;
  - any other object, given by its `str` form.
- Python's `float(...)` becomes `Coercion.ParseNumber`. It reads a decimal
  literal into an exact real. Python's `int(...)` becomes
  `Coercion.Trunc`, which rounds toward zero.
- Two kinds of facts the code takes from libraries become parameters, so
  every property holds whatever those libraries say:
  - Python's Unicode classes (`isprintable`, and the whitespace that
    `strip` removes) are a `Cleaning.CharClasses` value. Where a property
    needs concrete facts about ASCII, it requires
    `Cleaning.AsciiConventional`.
  - The pandas conversions behind the float, bool and datetime targets
    are a `Coercion.Pandas` value.
- Each warning is modelled by its structured fields. The message text
  around them is presentation and is not modelled.

## Model

| member | source | states |
|---|---|---|
| Coercion.InferDtype | app.py:67-79 | Never BigInt. Int exactly when the dtype name contains "int". Float exactly when it contains "float" but not "int". Bool and Datetime likewise, each after the earlier tests fail. Varchar otherwise. |
| Coercion.StartsWithIffPrefix | app.py:70-77 | The character-by-character prefix test used for `in` holds exactly when the needle is the prefix of the haystack of its own length. |
| Coercion.ContainsIffOccurs | app.py:70-77 | The model of Python's substring test `needle in dtype` holds exactly when the needle occurs at some offset. |
| Cells.ParseDecimalSpec | app.py:85 | `float` of a stripped text succeeds exactly when it is an unsigned decimal literal, optionally preceded by one sign. |
| Cells.ParseIntToString | app.py:85 | Reading back the decimal text of any integer gives that integer. |
| Coercion.Trunc | app.py:102 | `int(val)` rounds toward zero. For x ≥ 0 the result r is a non-negative integer with r ≤ x < r+1. For x < 0 it is non-positive, with r−1 < x ≤ r. |
| Coercion.ValidateIntRange | app.py:82-104 | Total. The result always lies in [−2147483648, 2147483647], or in the BIGINT range [−9223372036854775808, 9223372036854775807] when BIGINT is chosen. A missing or unreadable value gives 0. A number above the range gives the upper bound, one below it the lower bound. A number inside the range gives its integer part. |
| Coercion.ClampIsNearest | app.py:89-100 | The clamp lies in the range. No point of the range is nearer to the value. The value is unchanged exactly when it is in range. |
| Coercion.ValidateIntRangeIsTruncatedClamp | app.py:89-102 | For any readable value, the coercion equals the integer part of the nearest point of the range. |
| Coercion.ValidateIntRangeIdempotent | app.py:82-104 | Coercing an already coerced integer returns it unchanged. |
| Coercion.TruncMonotone | app.py:102 | Rounding toward zero preserves order. |
| Coercion.ValidateIntRangeMonotone | app.py:82-104 | The coercion preserves the order of the numbers read. |
| Cleaning.KeepPrintableSpec | app.py:117 | The filter's result is a subsequence of its input. Every character in the result is kept (printable, or `\n`, `\r`, `\t`). A character occurs in the result exactly when it occurs in the input and is kept. Its length is the number of kept characters of the input, so every kept occurrence survives. The input is unchanged exactly when it has nothing to drop. |
| Cleaning.LeadingSpacesSpec | app.py:118 | Every leading character that `strip` counts is whitespace. The first character not counted is not whitespace. |
| Cleaning.TrailingStartSpec | app.py:118 | Every character from the trailing cut onward is whitespace. The character just before the cut is not. |
| Cleaning.StripSpec | app.py:118 | The result of `strip` has no whitespace at either end. It is a slice of the input, with only whitespace before and after it. The input is unchanged exactly when its ends are not whitespace. |
| Cleaning.CleanStringSpec | app.py:107-120 | A missing value gives "". The result contains only kept characters and has no whitespace at either end. It is a subsequence of `str(value)`, so it is never longer. |
| Cleaning.CleanTextOfCleanIsIdentity | app.py:107-120 | A text made only of kept characters, with no surrounding whitespace, is returned unchanged. |
| Cleaning.CleanStringIdempotent | app.py:107-120 | Cleaning an already cleaned value changes nothing. |
| Cleaning.CleanChangesIff | app.py:107-120 | Cleaning changes a text exactly when the text holds a dropped character or has whitespace at one of its ends. |
| Cleaning.Truncate | app.py:144-147 | The result is a prefix of the cleaned text. With a positive limit, it is at most that long, and a longer text is cut to exactly that many characters. It is unchanged exactly when there is no positive limit or the text already fits. |
| Coercion.ConvertColumn | app.py:124-147 | The INTEGER, BIGINT and varchar conversions keep the column's length. |
| Coercion.IntColumnSpec | app.py:127-132 | Each cell of an INTEGER or BIGINT column becomes the number given by `validate_int_range`, with that member's range, zero, bound and integer-part cases. |
| Coercion.VarcharColumnSpec | app.py:139-147 | Each output cell of a varchar column is a text made of kept characters. It is a prefix of the cleaned value, and within the limit when the limit is positive. A cleaned value longer than a positive limit is cut to exactly the limit. It equals the cleaned value exactly when no positive limit cuts it. |
| Coercion.InRangeColumnUnchanged | app.py:127-132 | An integer column whose values are already in range converts to itself. |
| Frames.DataFrame.constructor | app.py:288 | A table holds its distinct column names and their values. |
| Frames.DataFrame.Select | app.py:288 | `df[selected].copy()` is a fresh table. It holds exactly the selected columns, in selection order, with the source values. |
| Frames.DataFrame.SetColumn | app.py:299 | `output_df[col] = ...` replaces that one column. The names and every other column are unchanged. |
| Frames.LengthFor | app.py:297 | The varchar length is the one configured for the column, and 255 when none is configured. |
| Frames.MaxLenFor | app.py:294-297 | A length is passed to the conversion exactly for varchar columns, and it is the column's configured length (255 by default). |
| Frames.BuildOutput | app.py:288-299 | The output is a fresh table with exactly the selected columns, in selection order. Each column is the conversion of the source column to its type, with the varchar length defaulting to 255. The source table is unchanged. |
| Diagnostics.Finding | app.py:333-378 | A check's warning for a column is of that check's kind, names that column and carries a positive count. |
| Diagnostics.PassPrefix | app.py:333-378 | Extending the selection by one column appends that column's finding, if there is one, to the pass. |
| Diagnostics.AppendRangeWarnings | app.py:333-350 | The range loop appends exactly the out-of-range warnings of the selected columns, in selection order. |
| Diagnostics.AppendTruncationWarnings | app.py:353-364 | The truncation loop appends exactly the truncation warnings of the selected varchar columns, in selection order. |
| Diagnostics.CountCleaned | app.py:371-374 | The counting loop returns the number of texts that `clean_string` changes. |
| Diagnostics.AppendEncodingWarnings | app.py:367-378 | The encoding loop appends exactly the invalid-character warnings of the selected varchar columns, in selection order. |
| Diagnostics.Validate | app.py:330-378 | The whole pass returns the range warnings, then the truncation warnings, then the encoding warnings. |
| Diagnostics.PassMembership | app.py:333-378 | A warning is in one loop's output exactly when that loop's check finds it for some selected column. |
| Diagnostics.PassFollowsSelection | app.py:333-378 | Within one loop's output, the columns named by the warnings appear in selection order. |
| Diagnostics.WarningsOrdered | app.py:330-378 | The warnings are grouped by kind: all out-of-range warnings, then all truncation warnings, then all encoding warnings. Within each group the columns follow selection order. |
| Diagnostics.WarningsMembership | app.py:330-378 | A warning is in the list exactly when its own check finds it for a selected column. |
| Diagnostics.RangeWarningIff | app.py:335-348 | An out-of-range warning with the column's count is present exactly when the column is INTEGER or BIGINT and the count is positive. |
| Diagnostics.TruncationWarningIff | app.py:354-362 | A truncation warning with the count and the length is present exactly when the column is varchar and the count is positive. |
| Diagnostics.EncodingWarningIff | app.py:368-376 | An invalid-character warning with the count is present exactly when the column is varchar and the count is positive. |
| Diagnostics.OutOfRangeCountIsClamped | app.py:339-348 | The count equals the number of values that read as a number strictly outside the bounds. It also equals the number of values that the clamp moves. The conversion turns each counted value into the bound on its side. |
| Diagnostics.TruncatedCountIsCut | app.py:356-359 | With a positive limit, the count equals the number of values that the varchar conversion cuts. |
| Diagnostics.CleanedCountIsDirty | app.py:370-374 | The count equals the number of texts that hold a dropped character or surrounding whitespace. |
| Diagnostics.EncodingCheckSkipsNonText | app.py:370-374 | Missing values, integers and booleans are never counted, because their `str` forms are already clean. A missing value is compared as "nan", although the conversion turns it into "". |
| Diagnostics.PassEmpty | app.py:333-378 | A loop whose check finds nothing in any column adds no warning. |
| Diagnostics.CleanColumnHasNoFinding | app.py:333-378 | An integer column with every number in range has no finding. So does a varchar column of clean texts within its length. |
| Diagnostics.NoWarningsOnCleanData | app.py:330-378 | Clean data produces no warning. |
| Examples.ExtremeValuesAsInteger | xls-to-csv-converter/xls-to-csv-converter/create_test_problematic.py:15 | As INTEGER, [2147483647, 2147483648, −2147483648, −2147483649, 1000000000] becomes [2147483647, 2147483647, −2147483648, −2147483648, 1000000000], with an out-of-range count of 2. |
| Examples.ExtremeValuesAsBigint | xls-to-csv-converter/xls-to-csv-converter/create_test_problematic.py:15 | As BIGINT the same column is unchanged, with a count of 0. |
| Examples.InferDtypeNullableInt64 | app.py:70 | The test is case-sensitive, so pandas' nullable "Int64" is proposed as varchar. |
| Examples.InferDtypeBoolean | app.py:74 | "boolean" is proposed as bool. |
| Examples.InferDtypeInterval | app.py:70 | "interval[int64]" is proposed as int. |
| Examples.PaddedTextReadsAsNumber | app.py:85 | " 42 " coerces to 42. |
| Examples.NegativeFractionCut | app.py:102 | "-4.5" coerces to −4, not −5. |
| Examples.NonNumbersReadAsZero | app.py:84-104 | "12abc" and a missing value coerce to 0. True coerces to 1. |
| Examples.CountedButNotMoved | app.py:97-102 | 2147483647.5 counts as out of range, although the clamp gives the same result as `int` alone. |
| Examples.TruncationCountExample | app.py:358-359 | With a limit of 5, only the 10-character text is counted. |
| Examples.TruncateExample | app.py:145 | "abcdefghij" with a limit of 5 becomes "abcde". |
| Examples.TruncationExposesTrailingSpace | app.py:141-145 | Cutting "abc def" to 4 characters gives "abc ". Cleaning strips before the cut, so the output can end in whitespace. |
| Examples.EncodingCountExample | app.py:370-374 | Of "nan", " x", a text holding a BEL control character, and "ok", exactly two are counted. A text whose only fault is surrounding whitespace counts as holding invalid characters. |
| Examples.FixtureWarnings | app.py:330-378 | The extreme-value column as INTEGER, next to a clean varchar column, yields exactly one warning: two values out of range. |

## Left out

- The Streamlit interface and session state are not modelled. Selections, lengths and types enter as parameters.
- Reading the Excel file and writing the CSV are not modelled. This covers the chosen encoding and separator. It also covers the preview, the table of final types and the memory metric.
- Coercion.ConvertColumn: the float, bool and datetime branches (`pd.to_numeric`, `astype(bool)`, `pd.to_datetime`) are opaque parameters, so nothing is stated about their results.
- Coercion.ParseNumber does not read exponents, `inf` or `nan` literals, underscores or non-ASCII digits. It uses exact reals instead of 64-bit floats, so rounding of very large values through `float` is not modelled.
- Diagnostics.OutOfBounds reads values for `pd.to_numeric` the same way `float` reads them. Any difference between the two parsers is not modelled. In particular, for a datetime column typed INTEGER or BIGINT, pandas compares the timestamps' int64 nanosecond counts. Every timestamp after 1970 then counts as out of the INTEGER range, while `validate_int_range` turns each one into 0. The model reads such values as `Other` and counts none of them.
- Cells.Str: every missing value reads "nan", the `str` of NaN. A None or NaT cell reads "None" or "NaT" in Python. Those forms are not distinguished, but all three texts are clean, so no count changes.
- The `except` branches are not modelled. This covers `convert_dtype` returning the input with a UI warning, and the silent `pass` in each validation loop. No operation of the model raises, so they are never reached.
- The UTF-8 encode/decode round trip at app.py:115 has no counterpart. It only drops lone surrogates, and a Dafny `char` cannot be one.
- Python's Unicode tables (`isprintable` and `strip`'s whitespace) are a parameter, not a table.
- The warning message texts and their emoji markers are not modelled. Each warning keeps its column, count, and range or length.
- Integer columns that pandas stores as floats because they contain NaN: their `str` form is modelled through the cell's stored text, not derived.
- create_sample.py is not part of this model. It only writes sample files. create_test_problematic.py appears only through its extreme-value column.
