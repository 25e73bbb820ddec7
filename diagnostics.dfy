/**
 * The validation pass run before export (app.py:330-378): for each selected
 * column, in selection order, the integer range check, then the truncation
 * check, then the encoding check, each adding at most one warning per column
 * and only when its count is positive.
 */
module Diagnostics {
  import opened Seqs
  import opened Cells
  import opened Cleaning
  import opened Coercion
  import opened Counting
  import opened Frames

  /** A warning's structured fields; the message text around them is presentation. */
  datatype Warning =
    | OutOfRange(column: Name, count: nat, useBigint: bool)
    | Truncated(column: Name, count: nat, maxLen: int)
    | InvalidChars(column: Name, count: nat)

  /** The three checks, in the order the pass runs them. */
  datatype Check = RangeCheck | TruncationCheck | EncodingCheck

  function CheckOf(w: Warning): Check
  {
    match w
    case OutOfRange(_, _, _) => RangeCheck
    case Truncated(_, _, _) => TruncationCheck
    case InvalidChars(_, _) => EncodingCheck
  }

  function Rank(c: Check): nat
  {
    match c
    case RangeCheck => 0
    case TruncationCheck => 1
    case EncodingCheck => 2
  }

  /**
   * `pd.to_numeric(v, errors='coerce')` compared with the bounds: a value that
   * reads as a number strictly above the upper or below the lower bound.
   * Missing values and texts that are not numbers compare as NaN and are
   * never out of bounds. Every other value of kind `Other` is treated the
   * same way; for a datetime column pandas instead compares the timestamps'
   * int64 nanosecond counts, which this predicate does not model.
   */
  predicate OutOfBounds(u: CharClasses, c: Cell, useBigint: bool)
  {
    match ParseNumber(u, c)
    case None => false
    case Some(x) => x > Upper(useBigint) as real || x < Lower(useBigint) as real
  }

  /** app.py:342 and app.py:346: the number of out-of-range values of a column. */
  function OutOfRangeCount(u: CharClasses, cells: seq<Cell>, useBigint: bool): nat
  {
    Count(cells, c => OutOfBounds(u, c, useBigint))
  }

  /** app.py:358-359: the number of values whose cleaned length exceeds `maxLen`. */
  function TruncatedCount(u: CharClasses, cells: seq<Cell>, maxLen: int): nat
  {
    Count(cells, c => |CleanString(u, c)| > maxLen)
  }

  /** `astype(str)` of a column (app.py:370). */
  function AsStrings(cells: seq<Cell>): (r: seq<string>)
    ensures |r| == |cells| && forall i :: 0 <= i < |r| ==> r[i] == Str(cells[i])
  {
    seq(|cells|, i requires 0 <= i < |cells| => Str(cells[i]))
  }

  /** `val != clean_string(val)` of app.py:373. */
  predicate ChangedByCleaning(u: CharClasses, v: string)
  {
    v != CleanString(u, Text(v))
  }

  /** app.py:371-374: the number of texts that cleaning changes. */
  function CleanedCount(u: CharClasses, values: seq<string>): nat
  {
    Count(values, v => ChangedByCleaning(u, v))
  }

  /** Every selected column exists and has a configured type. */
  predicate Configured(cols: map<Name, seq<Cell>>, types: map<Name, TargetType>, selected: seq<Name>)
  {
    forall c :: c in selected ==> c in cols && c in types
  }

  /** The warning one check adds for column `c`, if any. */
  function Finding(u: CharClasses, cols: map<Name, seq<Cell>>, types: map<Name, TargetType>,
                   lengths: map<Name, int>, check: Check, c: Name): (r: Option<Warning>)
    requires c in cols && c in types
    ensures r.Some? ==> CheckOf(r.value) == check && r.value.column == c && r.value.count > 0
  {
    match check
    case RangeCheck =>
      if types[c] == Int || types[c] == BigInt then
        var big := types[c] == BigInt;
        var k := OutOfRangeCount(u, cols[c], big);
        if k > 0 then Some(OutOfRange(c, k, big)) else None
      else None
    case TruncationCheck =>
      if types[c] == Varchar then
        var m := LengthFor(lengths, c);
        var k := TruncatedCount(u, cols[c], m);
        if k > 0 then Some(Truncated(c, k, m)) else None
      else None
    case EncodingCheck =>
      if types[c] == Varchar then
        var k := CleanedCount(u, AsStrings(cols[c]));
        if k > 0 then Some(InvalidChars(c, k)) else None
      else None
  }

  function OptionToSeq(o: Option<Warning>): seq<Warning>
  {
    if o.Some? then [o.value] else []
  }

  /** One of the three loops over the selected columns. */
  function Pass(u: CharClasses, cols: map<Name, seq<Cell>>, types: map<Name, TargetType>,
                lengths: map<Name, int>, check: Check, selected: seq<Name>): seq<Warning>
    requires Configured(cols, types, selected)
  {
    if selected == [] then []
    else
      var last := selected[|selected| - 1];
      Pass(u, cols, types, lengths, check, selected[..|selected| - 1]) +
      OptionToSeq(Finding(u, cols, types, lengths, check, last))
  }

  /** Running a pass over one more selected column. */
  lemma PassPrefix(u: CharClasses, cols: map<Name, seq<Cell>>, types: map<Name, TargetType>,
                   lengths: map<Name, int>, check: Check, selected: seq<Name>, k: nat)
    requires Configured(cols, types, selected) && k < |selected|
    ensures Configured(cols, types, selected[..k]) && Configured(cols, types, selected[..k + 1])
    ensures Pass(u, cols, types, lengths, check, selected[..k + 1]) ==
      Pass(u, cols, types, lengths, check, selected[..k]) +
      OptionToSeq(Finding(u, cols, types, lengths, check, selected[k]))
  {
    assert selected[..k + 1][..k] == selected[..k];
    assert forall c :: c in selected[..k + 1] ==> c in selected;
  }

  /** The `warnings` list that app.py:330-378 builds. */
  function Warnings(u: CharClasses, cols: map<Name, seq<Cell>>, types: map<Name, TargetType>,
                    lengths: map<Name, int>, selected: seq<Name>): seq<Warning>
    requires Configured(cols, types, selected)
  {
    Pass(u, cols, types, lengths, RangeCheck, selected) +
    Pass(u, cols, types, lengths, TruncationCheck, selected) +
    Pass(u, cols, types, lengths, EncodingCheck, selected)
  }

  function Columns(ws: seq<Warning>): (r: seq<Name>)
    ensures |r| == |ws| && forall i :: 0 <= i < |r| ==> r[i] == ws[i].column
  {
    seq(|ws|, i requires 0 <= i < |ws| => ws[i].column)
  }

  /** A pass holds exactly the findings of its check for the selected columns. */
  lemma {:induction false} PassMembership(u: CharClasses, cols: map<Name, seq<Cell>>,
                                          types: map<Name, TargetType>, lengths: map<Name, int>,
                                          check: Check, selected: seq<Name>, w: Warning)
    requires Configured(cols, types, selected)
    ensures w in Pass(u, cols, types, lengths, check, selected) <==>
      exists i :: 0 <= i < |selected| && Finding(u, cols, types, lengths, check, selected[i]) == Some(w)
    decreases |selected|
  {
    if selected != [] {
      var front := selected[..|selected| - 1];
      PassMembership(u, cols, types, lengths, check, front, w);
      assert forall i :: 0 <= i < |front| ==> front[i] == selected[i];
      if exists i :: 0 <= i < |selected| && Finding(u, cols, types, lengths, check, selected[i]) == Some(w) {
        var i :| 0 <= i < |selected| && Finding(u, cols, types, lengths, check, selected[i]) == Some(w);
        if i < |front| {
          assert Finding(u, cols, types, lengths, check, front[i]) == Some(w);
        }
      }
    }
  }

  /** A pass lists its warnings in the order of the selected columns. */
  lemma {:induction false} PassFollowsSelection(u: CharClasses, cols: map<Name, seq<Cell>>,
                                                types: map<Name, TargetType>, lengths: map<Name, int>,
                                                check: Check, selected: seq<Name>)
    requires Configured(cols, types, selected)
    ensures IsSubsequence(Columns(Pass(u, cols, types, lengths, check, selected)), selected)
    decreases |selected|
  {
    if selected != [] {
      var n := |selected| - 1;
      var front := selected[..n];
      var earlier := Pass(u, cols, types, lengths, check, front);
      var here := OptionToSeq(Finding(u, cols, types, lengths, check, selected[n]));
      PassFollowsSelection(u, cols, types, lengths, check, front);
      assert Columns(earlier + here) == Columns(earlier) + Columns(here);
      assert selected == front + [selected[n]];
      if here == [] {
        assert Columns(here) == [];
      } else {
        assert Columns(here) == [selected[n]];
      }
      assert IsSubsequence(Columns(here), [selected[n]]);
      SubsequenceConcat(Columns(earlier), front, Columns(here), [selected[n]]);
    }
  }

  /** Three groups of warnings, each of one kind, concatenated in check order. */
  lemma GroupsOrdered(a: seq<Warning>, b: seq<Warning>, c: seq<Warning>)
    requires forall w :: w in a ==> CheckOf(w) == RangeCheck
    requires forall w :: w in b ==> CheckOf(w) == TruncationCheck
    requires forall w :: w in c ==> CheckOf(w) == EncodingCheck
    ensures var ws := a + b + c;
            forall i, j :: 0 <= i < j < |ws| ==> Rank(CheckOf(ws[i])) <= Rank(CheckOf(ws[j]))
  {
    var ws := a + b + c;
    forall i | 0 <= i < |ws|
      ensures Rank(CheckOf(ws[i])) == (if i < |a| then 0 else if i < |a| + |b| then 1 else 2)
    {
      if i < |a| {
        assert ws[i] in a;
      } else if i < |a| + |b| {
        assert ws[i] == b[i - |a|];
      } else {
        assert ws[i] == c[i - |a| - |b|];
      }
    }
  }

  /** Every warning of a pass is of that pass's kind. */
  lemma PassKind(u: CharClasses, cols: map<Name, seq<Cell>>, types: map<Name, TargetType>,
                 lengths: map<Name, int>, check: Check, selected: seq<Name>)
    requires Configured(cols, types, selected)
    ensures forall w :: w in Pass(u, cols, types, lengths, check, selected) ==> CheckOf(w) == check
  {
    forall w | w in Pass(u, cols, types, lengths, check, selected)
      ensures CheckOf(w) == check
    {
      PassMembership(u, cols, types, lengths, check, selected, w);
    }
  }

  /**
   * The warnings come grouped by check (range, then truncation, then
   * encoding), each group in selection order, each warning of its group's
   * kind.
   */
  lemma WarningsOrdered(u: CharClasses, cols: map<Name, seq<Cell>>, types: map<Name, TargetType>,
                        lengths: map<Name, int>, selected: seq<Name>)
    requires Configured(cols, types, selected)
    ensures var ws := Warnings(u, cols, types, lengths, selected);
            forall i, j :: 0 <= i < j < |ws| ==> Rank(CheckOf(ws[i])) <= Rank(CheckOf(ws[j]))
    ensures forall check :: IsSubsequence(Columns(Pass(u, cols, types, lengths, check, selected)), selected)
  {
    forall check: Check
      ensures IsSubsequence(Columns(Pass(u, cols, types, lengths, check, selected)), selected)
    {
      PassFollowsSelection(u, cols, types, lengths, check, selected);
    }
    PassKind(u, cols, types, lengths, RangeCheck, selected);
    PassKind(u, cols, types, lengths, TruncationCheck, selected);
    PassKind(u, cols, types, lengths, EncodingCheck, selected);
    GroupsOrdered(Pass(u, cols, types, lengths, RangeCheck, selected),
                  Pass(u, cols, types, lengths, TruncationCheck, selected),
                  Pass(u, cols, types, lengths, EncodingCheck, selected));
  }

  /** A warning is in the list exactly when its check found it for a selected column. */
  lemma WarningsMembership(u: CharClasses, cols: map<Name, seq<Cell>>, types: map<Name, TargetType>,
                           lengths: map<Name, int>, selected: seq<Name>, w: Warning)
    requires Configured(cols, types, selected)
    ensures w in Warnings(u, cols, types, lengths, selected) <==>
      exists i :: 0 <= i < |selected| && Finding(u, cols, types, lengths, CheckOf(w), selected[i]) == Some(w)
  {
    PassMembership(u, cols, types, lengths, RangeCheck, selected, w);
    PassMembership(u, cols, types, lengths, TruncationCheck, selected, w);
    PassMembership(u, cols, types, lengths, EncodingCheck, selected, w);
  }

  /**
   * An INTEGER or BIGINT column draws an out-of-range warning exactly when
   * its count is positive, and the warning carries that count.
   */
  lemma RangeWarningIff(u: CharClasses, cols: map<Name, seq<Cell>>, types: map<Name, TargetType>,
                        lengths: map<Name, int>, selected: seq<Name>, c: Name)
    requires Configured(cols, types, selected) && c in selected
    ensures var big := types[c] == BigInt;
            var k := OutOfRangeCount(u, cols[c], big);
            OutOfRange(c, k, big) in Warnings(u, cols, types, lengths, selected) <==>
              types[c] in {Int, BigInt} && k > 0
  {
    var big := types[c] == BigInt;
    var w := OutOfRange(c, OutOfRangeCount(u, cols[c], big), big);
    WarningsMembership(u, cols, types, lengths, selected, w);
    var i :| 0 <= i < |selected| && selected[i] == c;
    assert Finding(u, cols, types, lengths, RangeCheck, selected[i]) == Finding(u, cols, types, lengths, RangeCheck, c);
  }

  /**
   * A varchar column draws a truncation warning exactly when some value's
   * cleaned length exceeds its limit, and the warning carries the count.
   */
  lemma TruncationWarningIff(u: CharClasses, cols: map<Name, seq<Cell>>, types: map<Name, TargetType>,
                             lengths: map<Name, int>, selected: seq<Name>, c: Name)
    requires Configured(cols, types, selected) && c in selected
    ensures var m := LengthFor(lengths, c);
            var k := TruncatedCount(u, cols[c], m);
            Truncated(c, k, m) in Warnings(u, cols, types, lengths, selected) <==>
              types[c] == Varchar && k > 0
  {
    var m := LengthFor(lengths, c);
    var w := Truncated(c, TruncatedCount(u, cols[c], m), m);
    WarningsMembership(u, cols, types, lengths, selected, w);
    var i :| 0 <= i < |selected| && selected[i] == c;
    assert Finding(u, cols, types, lengths, TruncationCheck, selected[i]) ==
      Finding(u, cols, types, lengths, TruncationCheck, c);
  }

  /**
   * A varchar column draws an invalid-characters warning exactly when
   * cleaning changes some value's text, and the warning carries the count.
   */
  lemma EncodingWarningIff(u: CharClasses, cols: map<Name, seq<Cell>>, types: map<Name, TargetType>,
                           lengths: map<Name, int>, selected: seq<Name>, c: Name)
    requires Configured(cols, types, selected) && c in selected
    ensures var k := CleanedCount(u, AsStrings(cols[c]));
            InvalidChars(c, k) in Warnings(u, cols, types, lengths, selected) <==>
              types[c] == Varchar && k > 0
  {
    var w := InvalidChars(c, CleanedCount(u, AsStrings(cols[c])));
    WarningsMembership(u, cols, types, lengths, selected, w);
    var i :| 0 <= i < |selected| && selected[i] == c;
    assert Finding(u, cols, types, lengths, EncodingCheck, selected[i]) ==
      Finding(u, cols, types, lengths, EncodingCheck, c);
  }

  /**
   * The out-of-range count is the number of values that read as a number
   * outside the bounds; these are exactly the values the clamp moves, and
   * the integer conversion turns each of them into the bound on its side.
   */
  lemma OutOfRangeCountIsClamped(u: CharClasses, pandas: Pandas, cells: seq<Cell>, useBigint: bool)
    ensures OutOfRangeCount(u, cells, useBigint) ==
      |set i | 0 <= i < |cells| && ParseNumber(u, cells[i]).Some? &&
               (ParseNumber(u, cells[i]).value > Upper(useBigint) as real ||
                ParseNumber(u, cells[i]).value < Lower(useBigint) as real)|
    ensures OutOfRangeCount(u, cells, useBigint) ==
      |set i | 0 <= i < |cells| && ParseNumber(u, cells[i]).Some? &&
               Clamp(ParseNumber(u, cells[i]).value, useBigint) != ParseNumber(u, cells[i]).value|
    ensures var out := ConvertColumn(u, pandas, cells, if useBigint then BigInt else Int, None);
      forall i :: 0 <= i < |cells| && OutOfBounds(u, cells[i], useBigint) ==>
        out[i] == Num(if ParseNumber(u, cells[i]).value > 0.0 then Upper(useBigint) else Lower(useBigint))
  {
    CountIsPositions(cells, c => OutOfBounds(u, c, useBigint));
    IntColumnSpec(u, pandas, cells, useBigint);
    assert Positions(cells, c => OutOfBounds(u, c, useBigint)) ==
      set i | 0 <= i < |cells| && ParseNumber(u, cells[i]).Some? &&
              Clamp(ParseNumber(u, cells[i]).value, useBigint) != ParseNumber(u, cells[i]).value;
    assert Positions(cells, c => OutOfBounds(u, c, useBigint)) ==
      set i | 0 <= i < |cells| && ParseNumber(u, cells[i]).Some? &&
              (ParseNumber(u, cells[i]).value > Upper(useBigint) as real ||
               ParseNumber(u, cells[i]).value < Lower(useBigint) as real);
  }

  /**
   * With a positive limit, the truncation count is the number of values the
   * varchar conversion actually cuts.
   */
  lemma TruncatedCountIsCut(u: CharClasses, pandas: Pandas, cells: seq<Cell>, maxLen: int)
    requires maxLen > 0
    ensures var out := ConvertColumn(u, pandas, cells, Varchar, Some(maxLen));
      TruncatedCount(u, cells, maxLen) ==
      |set i | 0 <= i < |cells| && out[i] != Text(CleanString(u, cells[i]))|
  {
    CountIsPositions(cells, c => |CleanString(u, c)| > maxLen);
    VarcharColumnSpec(u, pandas, cells, Some(maxLen));
    var out := ConvertColumn(u, pandas, cells, Varchar, Some(maxLen));
    assert Positions(cells, c => |CleanString(u, c)| > maxLen) ==
      set i | 0 <= i < |cells| && out[i] != Text(CleanString(u, cells[i]));
  }

  /**
   * The encoding count is the number of texts holding a dropped character or
   * surrounding whitespace.
   */
  lemma CleanedCountIsDirty(u: CharClasses, values: seq<string>)
    ensures CleanedCount(u, values) ==
      |set i | 0 <= i < |values| && (!AllKept(u, values[i]) || !Trimmed(u, values[i]))|
  {
    CountIsPositions(values, v => ChangedByCleaning(u, v));
    forall i | 0 <= i < |values|
      ensures values[i] != CleanString(u, Text(values[i])) <==> !AllKept(u, values[i]) || !Trimmed(u, values[i])
    {
      CleanChangesIff(u, values[i]);
    }
    assert Positions(values, v => ChangedByCleaning(u, v)) ==
      set i | 0 <= i < |values| && (!AllKept(u, values[i]) || !Trimmed(u, values[i]));
  }

  lemma {:induction false} DecimalIsAscii(n: int)
    ensures forall i :: 0 <= i < |IntToString(n)| ==> '!' <= IntToString(n)[i] <= '~'
  {
    var s := IntToString(n);
    if n < 0 {
      var digits := NatToString(-n);
      assert s == "-" + digits;
      assert forall i :: 1 <= i < |s| ==> s[i] == digits[i - 1];
    }
  }

  /**
   * The encoding check reads values through `astype(str)`: a missing value is
   * checked as "nan" and a number or boolean as its digits or name, which
   * cleaning leaves alone; so such values are never counted, although the
   * conversion turns a missing value into the empty string.
   */
  lemma EncodingCheckSkipsNonText(u: CharClasses, c: Cell)
    requires AsciiConventional(u)
    requires c.Missing? || c.Num? || c.Flag?
    ensures CleanString(u, Text(Str(c))) == Str(c)
    ensures c.Missing? ==> CleanString(u, c) == "" != Str(c)
  {
    if c.Num? {
      DecimalIsAscii(c.n);
    }
    var s := Str(c);
    assert forall i :: 0 <= i < |s| ==> '!' <= s[i] <= '~';
    CleanTextOfCleanIsIdentity(u, s);
  }

  /** A pass in which no column has a finding is empty. */
  lemma {:induction false} PassEmpty(u: CharClasses, cols: map<Name, seq<Cell>>, types: map<Name, TargetType>,
                                     lengths: map<Name, int>, check: Check, selected: seq<Name>)
    requires Configured(cols, types, selected)
    requires forall c :: c in selected ==> Finding(u, cols, types, lengths, check, c).None?
    ensures Pass(u, cols, types, lengths, check, selected) == []
    decreases |selected|
  {
    if selected != [] {
      var front := selected[..|selected| - 1];
      assert forall c :: c in front ==> c in selected;
      PassEmpty(u, cols, types, lengths, check, front);
    }
  }

  /** A column with no out-of-range number, or of clean, short enough texts, has no finding. */
  lemma CleanColumnHasNoFinding(u: CharClasses, cols: map<Name, seq<Cell>>, types: map<Name, TargetType>,
                                lengths: map<Name, int>, c: Name)
    requires c in cols && c in types
    requires types[c] in {Int, BigInt} ==>
      forall i :: 0 <= i < |cols[c]| && ParseNumber(u, cols[c][i]).Some? ==>
        Lower(types[c] == BigInt) as real <= ParseNumber(u, cols[c][i]).value <= Upper(types[c] == BigInt) as real
    requires types[c] == Varchar ==>
      forall i :: 0 <= i < |cols[c]| ==>
        cols[c][i].Text? && AllKept(u, cols[c][i].s) && Trimmed(u, cols[c][i].s) &&
        |cols[c][i].s| <= LengthFor(lengths, c)
    ensures Finding(u, cols, types, lengths, RangeCheck, c).None?
    ensures Finding(u, cols, types, lengths, TruncationCheck, c).None?
    ensures Finding(u, cols, types, lengths, EncodingCheck, c).None?
  {
    var cells := cols[c];
    if types[c] in {Int, BigInt} {
      CountZeroIff(cells, x => OutOfBounds(u, x, types[c] == BigInt));
    }
    if types[c] == Varchar {
      forall i | 0 <= i < |cells|
        ensures CleanString(u, cells[i]) == cells[i].s
      {
        CleanTextOfCleanIsIdentity(u, cells[i].s);
      }
      CountZeroIff(cells, x => |CleanString(u, x)| > LengthFor(lengths, c));
      var strs := AsStrings(cells);
      forall i | 0 <= i < |strs|
        ensures !ChangedByCleaning(u, strs[i])
      {
        CleanTextOfCleanIsIdentity(u, cells[i].s);
      }
      CountZeroIff(strs, v => ChangedByCleaning(u, v));
    }
  }

  /**
   * Clean data draws no warning: integer columns with no number outside the
   * range, varchar columns of clean texts within their length.
   */
  lemma NoWarningsOnCleanData(u: CharClasses, cols: map<Name, seq<Cell>>, types: map<Name, TargetType>,
                              lengths: map<Name, int>, selected: seq<Name>)
    requires Configured(cols, types, selected)
    requires forall c, i ::
      c in selected && types[c] in {Int, BigInt} && 0 <= i < |cols[c]| && ParseNumber(u, cols[c][i]).Some? ==>
      Lower(types[c] == BigInt) as real <= ParseNumber(u, cols[c][i]).value <= Upper(types[c] == BigInt) as real
    requires forall c, i :: c in selected && types[c] == Varchar && 0 <= i < |cols[c]| ==>
      cols[c][i].Text? && AllKept(u, cols[c][i].s) && Trimmed(u, cols[c][i].s) &&
      |cols[c][i].s| <= LengthFor(lengths, c)
    ensures Warnings(u, cols, types, lengths, selected) == []
  {
    forall c | c in selected
      ensures Finding(u, cols, types, lengths, RangeCheck, c).None?
      ensures Finding(u, cols, types, lengths, TruncationCheck, c).None?
      ensures Finding(u, cols, types, lengths, EncodingCheck, c).None?
    {
      CleanColumnHasNoFinding(u, cols, types, lengths, c);
    }
    PassEmpty(u, cols, types, lengths, RangeCheck, selected);
    PassEmpty(u, cols, types, lengths, TruncationCheck, selected);
    PassEmpty(u, cols, types, lengths, EncodingCheck, selected);
  }

  /** The explicit counting loop of app.py:371-374. */
  method CountCleaned(u: CharClasses, values: seq<string>) returns (count: nat)
    ensures count == CleanedCount(u, values)
  {
    count := 0;
    for i := 0 to |values|
      invariant count == CleanedCount(u, values[..i])
    {
      if ChangedByCleaning(u, values[i]) {
        count := count + 1;
      }
      CountPrefix(values, i, v => ChangedByCleaning(u, v));
    }
    assert values[..|values|] == values;
  }

  /** What the range check adds for one column, given its out-of-range count `k`. */
  lemma RangeStep(u: CharClasses, cols: map<Name, seq<Cell>>, types: map<Name, TargetType>,
                  lengths: map<Name, int>, c: Name, k: nat)
    requires c in cols && c in types
    requires types[c] in {Int, BigInt} ==> k == OutOfRangeCount(u, cols[c], types[c] == BigInt)
    ensures OptionToSeq(Finding(u, cols, types, lengths, RangeCheck, c)) ==
      if types[c] in {Int, BigInt} && k > 0 then [OutOfRange(c, k, types[c] == BigInt)] else []
  {
  }

  /** What the truncation check adds for one column, given its count `k`. */
  lemma TruncationStep(u: CharClasses, cols: map<Name, seq<Cell>>, types: map<Name, TargetType>,
                       lengths: map<Name, int>, c: Name, k: nat)
    requires c in cols && c in types
    requires types[c] == Varchar ==> k == TruncatedCount(u, cols[c], LengthFor(lengths, c))
    ensures OptionToSeq(Finding(u, cols, types, lengths, TruncationCheck, c)) ==
      if types[c] == Varchar && k > 0 then [Truncated(c, k, LengthFor(lengths, c))] else []
  {
  }

  /** What the encoding check adds for one column, given its count `k`. */
  lemma EncodingStep(u: CharClasses, cols: map<Name, seq<Cell>>, types: map<Name, TargetType>,
                     lengths: map<Name, int>, c: Name, k: nat)
    requires c in cols && c in types
    requires types[c] == Varchar ==> k == CleanedCount(u, AsStrings(cols[c]))
    ensures OptionToSeq(Finding(u, cols, types, lengths, EncodingCheck, c)) ==
      if types[c] == Varchar && k > 0 then [InvalidChars(c, k)] else []
  {
  }

  /** One iteration of a check's loop: appending the column's finding extends the pass by that column. */
  lemma PassStep(u: CharClasses, cols: map<Name, seq<Cell>>, types: map<Name, TargetType>,
                 lengths: map<Name, int>, check: Check, selected: seq<Name>, k: nat,
                 warnings: seq<Warning>, before: seq<Warning>, added: seq<Warning>)
    requires Configured(cols, types, selected) && k < |selected|
    requires Configured(cols, types, selected[..k])
    requires before == warnings + Pass(u, cols, types, lengths, check, selected[..k])
    requires added == OptionToSeq(Finding(u, cols, types, lengths, check, selected[k]))
    ensures Configured(cols, types, selected[..k + 1])
    ensures before + added == warnings + Pass(u, cols, types, lengths, check, selected[..k + 1])
  {
    PassPrefix(u, cols, types, lengths, check, selected, k);
  }

  /** The loop of app.py:333-350: append the out-of-range warnings. */
  method AppendRangeWarnings(u: CharClasses, cols: map<Name, seq<Cell>>, selected: seq<Name>,
                             types: map<Name, TargetType>, lengths: map<Name, int>,
                             warnings: seq<Warning>) returns (result: seq<Warning>)
    requires Configured(cols, types, selected)
    ensures result == warnings + Pass(u, cols, types, lengths, RangeCheck, selected)
  {
    result := warnings;
    for k := 0 to |selected|
      invariant Configured(cols, types, selected[..k])
      invariant result == warnings + Pass(u, cols, types, lengths, RangeCheck, selected[..k])
    {
      var col := selected[k];
      ghost var before := result;
      if types[col] == Int || types[col] == BigInt {
        var big := types[col] == BigInt;
        var outOfRange := OutOfRangeCount(u, cols[col], big);
        RangeStep(u, cols, types, lengths, col, outOfRange);
        if outOfRange > 0 {
          result := result + [OutOfRange(col, outOfRange, big)];
        }
      } else {
        RangeStep(u, cols, types, lengths, col, 0);
      }
      PassStep(u, cols, types, lengths, RangeCheck, selected, k, warnings, before, result[|before|..]);
    }
    assert selected[..|selected|] == selected;
  }

  /** The loop of app.py:353-364: append the truncation warnings. */
  method AppendTruncationWarnings(u: CharClasses, cols: map<Name, seq<Cell>>, selected: seq<Name>,
                                  types: map<Name, TargetType>, lengths: map<Name, int>,
                                  warnings: seq<Warning>) returns (result: seq<Warning>)
    requires Configured(cols, types, selected)
    ensures result == warnings + Pass(u, cols, types, lengths, TruncationCheck, selected)
  {
    result := warnings;
    for k := 0 to |selected|
      invariant Configured(cols, types, selected[..k])
      invariant result == warnings + Pass(u, cols, types, lengths, TruncationCheck, selected[..k])
    {
      var col := selected[k];
      ghost var before := result;
      if types[col] == Varchar {
        var maxLen := LengthFor(lengths, col);
        var truncated := TruncatedCount(u, cols[col], maxLen);
        TruncationStep(u, cols, types, lengths, col, truncated);
        if truncated > 0 {
          result := result + [Truncated(col, truncated, maxLen)];
        }
      } else {
        TruncationStep(u, cols, types, lengths, col, 0);
      }
      PassStep(u, cols, types, lengths, TruncationCheck, selected, k, warnings, before, result[|before|..]);
    }
    assert selected[..|selected|] == selected;
  }

  /** The loop of app.py:367-378: append the encoding warnings. */
  method AppendEncodingWarnings(u: CharClasses, cols: map<Name, seq<Cell>>, selected: seq<Name>,
                                types: map<Name, TargetType>, lengths: map<Name, int>,
                                warnings: seq<Warning>) returns (result: seq<Warning>)
    requires Configured(cols, types, selected)
    ensures result == warnings + Pass(u, cols, types, lengths, EncodingCheck, selected)
  {
    result := warnings;
    for k := 0 to |selected|
      invariant Configured(cols, types, selected[..k])
      invariant result == warnings + Pass(u, cols, types, lengths, EncodingCheck, selected[..k])
    {
      var col := selected[k];
      ghost var before := result;
      if types[col] == Varchar {
        var cleaned := CountCleaned(u, AsStrings(cols[col]));
        EncodingStep(u, cols, types, lengths, col, cleaned);
        if cleaned > 0 {
          result := result + [InvalidChars(col, cleaned)];
        }
      } else {
        EncodingStep(u, cols, types, lengths, col, 0);
      }
      PassStep(u, cols, types, lengths, EncodingCheck, selected, k, warnings, before, result[|before|..]);
    }
    assert selected[..|selected|] == selected;
  }

  /** The validation pass of app.py:330-378 over the source table `df`. */
  method Validate(u: CharClasses, df: DataFrame, selected: seq<Name>, types: map<Name, TargetType>,
                  lengths: map<Name, int>) returns (warnings: seq<Warning>)
    requires Configured(df.cols, types, selected)
    ensures warnings == Warnings(u, df.cols, types, lengths, selected)
  {
    var cols := df.cols;
    var ranges := AppendRangeWarnings(u, cols, selected, types, lengths, []);
    var truncations := AppendTruncationWarnings(u, cols, selected, types, lengths, ranges);
    warnings := AppendEncodingWarnings(u, cols, selected, types, lengths, truncations);
    assert ranges == Pass(u, cols, types, lengths, RangeCheck, selected);
  }
}
