/**
 * Tables and the construction of the output table (app.py:288-299): the
 * selected columns are copied out of the source table and each copy is
 * replaced by its conversion.
 */
module Frames {
  import opened Seqs
  import opened Cells
  import opened Cleaning
  import opened Coercion

  /** A pandas DataFrame: column names in order, and each column's values. */
  class DataFrame {
    var names: seq<Name>
    var cols: map<Name, seq<Cell>>

    /** Column names are unique and are exactly the columns held. */
    ghost predicate Valid()
      reads this
    {
      Distinct(names) && forall n :: n in cols <==> n in names
    }

    constructor (names: seq<Name>, cols: map<Name, seq<Cell>>)
      requires Distinct(names) && forall n :: n in cols <==> n in names
      ensures Valid() && this.names == names && this.cols == cols
    {
      this.names := names;
      this.cols := cols;
    }

    /** `df[selected].copy()`: a new table holding the selected columns in selection order. */
    method Select(selected: seq<Name>) returns (out: DataFrame)
      requires Valid() && Distinct(selected) && forall n :: n in selected ==> n in cols
      ensures fresh(out) && out.Valid() && out.names == selected
      ensures forall n :: n in selected ==> n in out.cols && out.cols[n] == cols[n]
    {
      out := new DataFrame(selected, map n | n in selected :: cols[n]);
    }

    /** `df[name] = values` for a column the table already has. */
    method SetColumn(name: Name, values: seq<Cell>)
      requires Valid() && name in cols
      modifies this
      ensures Valid() && names == old(names) && cols == old(cols)[name := values]
    {
      cols := cols[name := values];
    }
  }

  /** `column_lengths.get(col, 255)`: the configured varchar length, 255 by default. */
  function LengthFor(lengths: map<Name, int>, c: Name): (m: int)
    ensures c in lengths ==> m == lengths[c]
    ensures c !in lengths ==> m == 255
  {
    if c in lengths then lengths[c] else 255
  }

  /** The `max_len` handed to the conversion: a length for varchar columns only. */
  function MaxLenFor(types: map<Name, TargetType>, lengths: map<Name, int>, c: Name): (m: Option<int>)
    requires c in types
    ensures m.Some? <==> types[c] == Varchar
    ensures m.Some? ==> m.value == LengthFor(lengths, c)
  {
    if types[c] == Varchar then Some(LengthFor(lengths, c)) else None
  }

  /**
   * The output table of app.py:288-299: exactly the selected columns, in
   * selection order, each one converted to its configured type. The source
   * table is left as it was.
   */
  method BuildOutput(u: CharClasses, pandas: Pandas, df: DataFrame, selected: seq<Name>,
                     types: map<Name, TargetType>, lengths: map<Name, int>) returns (out: DataFrame)
    requires df.Valid() && Distinct(selected)
    requires forall c :: c in selected ==> c in df.cols && c in types
    ensures fresh(out) && out.Valid() && out.names == selected
    ensures forall c :: c in selected ==>
      c in out.cols && out.cols[c] == ConvertColumn(u, pandas, df.cols[c], types[c], MaxLenFor(types, lengths, c))
    ensures unchanged(df)
  {
    out := df.Select(selected);
    for i := 0 to |selected|
      invariant fresh(out) && out.Valid() && out.names == selected
      invariant forall k :: 0 <= k < i ==>
        out.cols[selected[k]] ==
          ConvertColumn(u, pandas, df.cols[selected[k]], types[selected[k]], MaxLenFor(types, lengths, selected[k]))
      invariant forall k :: i <= k < |selected| ==> out.cols[selected[k]] == df.cols[selected[k]]
      invariant unchanged(df)
    {
      var col := selected[i];
      var maxLen := MaxLenFor(types, lengths, col);
      out.SetColumn(col, ConvertColumn(u, pandas, out.cols[col], types[col], maxLen));
    }
  }
}
