/** The chunk layout of the older `CSVProcessor.process`: one summary chunk, one chunk per column
    and one chunk per row of `df.head(5)`. */
module LegacyCsv {
  import opened Text
  import opened Collections
  import opened Tabular

  /** Rows shown by `df.head(5)`. */
  const SampleRows: nat := 5

  /** How pandas shows a cell inside an f-string: a missing value is `nan`. */
  function Display(c: Cell): string {
    match c
    case Missing => "nan"
    case Value(text) => text
  }

  /** The summary chunk. */
  function SummaryText(t: Table, a: Analysis): string {
    "CSV Document Analysis:\nTotal rows: " + NatToString(t.rows) + ", Total columns: " + NatToString(|t.columns|)
    + "\nNumeric columns: " + Join(a.numericColumns, ", ")
    + "\nCategorical columns: " + Join(a.categoricalColumns, ", ") + "\n"
  }

  /** The column chunk: mean and standard deviation (formatted by pandas, `stats`) when the column is
      listed as numeric, otherwise its number of distinct values. */
  function ColumnText(c: Column, a: Analysis, stats: string -> (string, string)): string {
    "Column '" + c.name + "': " +
    if c.name in a.numericColumns then "Numeric data, mean: " + stats(c.name).0 + ", std: " + stats(c.name).1
    else "Categorical data with " + NatToString(NUnique(c.cells)) + " unique values"
  }

  /** `iterrows` hands each row over as one Series of the frame's common dtype: when every column
      is numeric and one of them holds floats, that dtype is `float64` and integer cells become
      floats. Any object or bool column makes it `object`, and every cell keeps its own type. */
  predicate UpcastsInts(cols: seq<Column>) {
    (forall k :: 0 <= k < |cols| ==> IsNumeric(cols[k])) && exists k :: 0 <= k < |cols| && cols[k].dtype == Float64
  }

  /** A cell of an `iterrows` row: an integer upcast to a float shows as `1.0`. */
  function RowDisplay(c: Column, cell: Cell, upcast: bool): string {
    if upcast && c.dtype == Int64 && cell.Value? then cell.text + ".0" else Display(cell)
  }

  /** `f"{col}={value}, "` for every column of row `i`, in column order; `upcast` is whether the
      row's Series is `float64` (`UpcastsInts` of the whole frame). */
  function RowItems(cols: seq<Column>, i: nat, upcast: bool): string
    requires forall k :: 0 <= k < |cols| ==> i < |cols[k].cells|
  {
    if cols == [] then ""
    else cols[0].name + "=" + RowDisplay(cols[0], cols[0].cells[i], upcast) + ", " + RowItems(cols[1..], i, upcast)
  }

  function RowHeader(i: nat): string { "Row " + NatToString(i + 1) + ": " }

  /** The row chunk: header and items with trailing commas and spaces removed (`rstrip(", ")`). */
  function RowText(cols: seq<Column>, i: nat, upcast: bool): string
    requires forall k :: 0 <= k < |cols| ==> i < |cols[k].cells|
  {
    RStripChars(RowHeader(i) + RowItems(cols, i, upcast), {',', ' '})
  }

  datatype LegacyResult = LegacyResult(
    analysis: Analysis,
    chunks: seq<string>,
    totalChunks: nat,
    totalWords: nat)

  function ColumnTexts(cols: seq<Column>, a: Analysis, stats: string -> (string, string)): (r: seq<string>)
    ensures |r| == |cols| && forall k {:trigger r[k]} :: 0 <= k < |cols| ==> r[k] == ColumnText(cols[k], a, stats)
  {
    seq(|cols|, k requires 0 <= k < |cols| => ColumnText(cols[k], a, stats))
  }

  function RowTexts(cols: seq<Column>, n: nat): (r: seq<string>)
    requires forall k :: 0 <= k < |cols| ==> n <= |cols[k].cells|
    ensures |r| == n && forall i {:trigger r[i]} :: 0 <= i < n ==> r[i] == RowText(cols, i, UpcastsInts(cols))
  {
    seq(n, i requires 0 <= i < n => RowText(cols, i, UpcastsInts(cols)))
  }

  /** The chunks in order: summary, columns, sample rows. */
  function Layout(t: Table, a: Analysis, stats: string -> (string, string)): (chunks: seq<string>)
    requires t.Valid()
  {
    [SummaryText(t, a)] + ColumnTexts(t.columns, a, stats) + RowTexts(t.columns, Min(SampleRows, t.rows))
  }

  /** The loop that builds one row's text item by item. */
  method BuildRowText(t: Table, i: nat) returns (text: string)
    requires t.Valid() && i < t.rows
    ensures text == RowText(t.columns, i, UpcastsInts(t.columns))
  {
    var upcast := UpcastsInts(t.columns);
    var raw := AppendRowItems(RowHeader(i), t.columns, i, upcast);
    text := RStripChars(raw, {',', ' '});
  }

  /** The inner loop: `f"{col}={value}, "` appended for each column of row `i`, in column order. */
  method AppendRowItems(raw: string, cols: seq<Column>, i: nat, upcast: bool) returns (out: string)
    requires forall k :: 0 <= k < |cols| ==> i < |cols[k].cells|
    ensures out == raw + RowItems(cols, i, upcast)
  {
    out := raw;
    assert cols[0..] == cols;
    for k := 0 to |cols|
      invariant out + RowItems(cols[k..], i, upcast) == raw + RowItems(cols, i, upcast)
    {
      var col := cols[k];
      assert cols[k..][0] == col && cols[k..][1..] == cols[k + 1..];
      var item := col.name + "=" + RowDisplay(col, col.cells[i], upcast) + ", ";
      assert RowItems(cols[k..], i, upcast) == item + RowItems(cols[k + 1..], i, upcast);
      out := out + item;
    }
    assert cols[|cols|..] == [];
  }

  /** `CSVProcessor.process` (older version) after `read_csv`: the summary chunk, a loop over the
      columns and a loop over the first five rows, then the counts. */
  method Process(t: Table, parsesAsDate: string -> bool, stats: string -> (string, string))
    returns (r: LegacyResult)
    requires t.Valid()
    ensures r.analysis.numericColumns == NumericColumns(t)
    ensures r.analysis.categoricalColumns == CategoricalColumns(t)
    ensures r.analysis.dateColumns == DateColumns(t, parsesAsDate)
    ensures r.analysis == Analyzed(t, parsesAsDate)
    ensures r.chunks == Layout(t, r.analysis, stats)
    ensures r.totalChunks == |r.chunks| && r.totalWords == TotalWords(r.chunks)
  {
    var a := AnalyzeData(t, parsesAsDate);
    var chunks := [SummaryText(t, a)];
    chunks := AppendColumnTexts(chunks, t, a, stats);
    chunks := AppendRowTexts(chunks, t, Min(SampleRows, t.rows));
    r := LegacyResult(a, chunks, |chunks|, TotalWords(chunks));
  }

  /** The loop over the columns: one column chunk each, in order. */
  method AppendColumnTexts(chunks: seq<string>, t: Table, a: Analysis, stats: string -> (string, string))
    returns (out: seq<string>)
    ensures out == chunks + ColumnTexts(t.columns, a, stats)
  {
    ghost var columns := ColumnTexts(t.columns, a, stats);
    out := chunks;
    for k := 0 to |t.columns|
      invariant out == chunks + columns[..k]
    {
      assert columns[k] == ColumnText(t.columns[k], a, stats);
      assert columns[..k + 1] == columns[..k] + [columns[k]];
      out := out + [ColumnText(t.columns[k], a, stats)];
    }
    assert columns[..|t.columns|] == columns;
  }

  /** The loop over the first `sample` rows: one row chunk each, in order. */
  method AppendRowTexts(chunks: seq<string>, t: Table, sample: nat) returns (out: seq<string>)
    requires t.Valid() && sample <= t.rows
    ensures out == chunks + RowTexts(t.columns, sample)
  {
    ghost var rows := RowTexts(t.columns, sample);
    out := chunks;
    for i := 0 to sample
      invariant out == chunks + rows[..i]
    {
      var row := BuildRowText(t, i);
      assert rows[i] == row;
      assert rows[..i + 1] == rows[..i] + [rows[i]];
      out := out + [row];
    }
    assert rows[..sample] == rows;
  }

  /** There are `1 + ncols + min(5, nrows)` chunks. */
  lemma LayoutCount(t: Table, a: Analysis, stats: string -> (string, string))
    requires t.Valid()
    ensures |Layout(t, a, stats)| == 1 + |t.columns| + Min(SampleRows, t.rows)
  {
  }

  /** A column chunk reports numeric statistics exactly when the column has a number dtype
      (given the analysis of the same table); otherwise it reports the distinct-value count. */
  lemma ColumnNumericIff(t: Table, a: Analysis, stats: string -> (string, string), k: nat)
    requires t.Valid() && k < |t.columns| && a.numericColumns == NumericColumns(t)
    ensures var prefix := "Column '" + t.columns[k].name + "': ";
      StartsWith(ColumnText(t.columns[k], a, stats), prefix + "Numeric data") <==> IsNumeric(t.columns[k])
  {
    var c := t.columns[k];
    var prefix := "Column '" + c.name + "': ";
    var text := ColumnText(c, a, stats);
    if IsNumeric(c) {
      MemberNamed(t.columns, IsNumeric, c);
      assert text == prefix + "Numeric data" + (", mean: " + stats(c.name).0 + ", std: " + stats(c.name).1);
    } else {
      if c.name in a.numericColumns {
        NamedMember(t.columns, IsNumeric, c.name);
        var d :| d in t.columns && IsNumeric(d) && d.name == c.name;
        NameIdentifies(t, c.name, c, d);
      }
      var rest := "Categorical data with " + NatToString(NUnique(c.cells)) + " unique values";
      var numericPrefix := prefix + "Numeric data";
      assert text == prefix + rest;
      assert text[|prefix|] == 'C' && numericPrefix[|prefix|] == 'N';
      assert |numericPrefix| <= |text| ==> text[..|numericPrefix|][|prefix|] != numericPrefix[|prefix|];
    }
  }

  /** `RowItems` contains an `=` after the column name of the first column. */
  lemma RowItemsHasEquals(cols: seq<Column>, i: nat, upcast: bool)
    requires |cols| > 0 && forall k :: 0 <= k < |cols| ==> i < |cols[k].cells|
    ensures |cols[0].name| < |RowItems(cols, i, upcast)| && RowItems(cols, i, upcast)[|cols[0].name|] == '='
  {
    var rest := RowDisplay(cols[0], cols[0].cells[i], upcast) + ", " + RowItems(cols[1..], i, upcast);
    assert RowItems(cols, i, upcast) == cols[0].name + "=" + rest;
  }

  /** `rstrip(", ")` never reaches the row header: a row chunk of a table with columns starts with
      `"Row {i+1}: "` followed by the first column's name and `=`. */
  lemma RowTextKeepsHeader(cols: seq<Column>, i: nat, upcast: bool)
    requires |cols| > 0 && forall k :: 0 <= k < |cols| ==> i < |cols[k].cells|
    ensures StartsWith(RowText(cols, i, upcast), RowHeader(i) + cols[0].name + "=")
  {
    var raw := RowHeader(i) + RowItems(cols, i, upcast);
    var p := RowHeader(i) + cols[0].name + "=";
    var r := RowText(cols, i, upcast);
    RowItemsHasEquals(cols, i, upcast);
    var eq := |RowHeader(i)| + |cols[0].name|;
    assert raw[eq] == '=';
    assert raw[..|p|] == p;
    assert r[..|p|] == raw[..|p|];
  }

  /** A row chunk never ends in a comma or a space, and what was removed was only commas and spaces. */
  lemma RowTextTrimmed(cols: seq<Column>, i: nat, upcast: bool)
    requires forall k :: 0 <= k < |cols| ==> i < |cols[k].cells|
    ensures var r := RowText(cols, i, upcast); var raw := RowHeader(i) + RowItems(cols, i, upcast);
      r <= raw && (r == [] || (r[|r| - 1] != ',' && r[|r| - 1] != ' ')) &&
      forall k :: |r| <= k < |raw| ==> raw[k] == ',' || raw[k] == ' '
  {
  }

  /** The frame read from `a,b` / `1,1.5`: an integer and a float column, so the row is upcast and
      the integer shows as `1.0`. */
  lemma IntFloatRowUpcast()
    ensures var cols := [Column("a", Int64, [Value("1")]), Column("b", Float64, [Value("1.5")])];
      UpcastsInts(cols) && RowItems(cols, 0, UpcastsInts(cols)) == "a=1.0, b=1.5, "
  {
    var cols := [Column("a", Int64, [Value("1")]), Column("b", Float64, [Value("1.5")])];
    assert cols[1].dtype == Float64;
    assert cols[1..][1..] == [];
    assert RowItems(cols[1..], 0, true) == "b=" + "1.5" + ", " + "";
    assert RowItems(cols, 0, true) == "a=" + "1" + ".0" + ", " + RowItems(cols[1..], 0, true);
  }

  /** With an object column beside it, the row is an `object` Series and the integer keeps its text. */
  lemma ObjectRowKeepsInts()
    ensures var cols := [Column("a", Int64, [Value("1")]), Column("c", Object, [Value("x")])];
      !UpcastsInts(cols) && RowItems(cols, 0, UpcastsInts(cols)) == "a=1, c=x, "
  {
    var cols := [Column("a", Int64, [Value("1")]), Column("c", Object, [Value("x")])];
    assert !IsNumeric(cols[1]);
    assert cols[1..][1..] == [];
    assert RowItems(cols[1..], 0, false) == "c=" + "x" + ", " + "";
    assert RowItems(cols, 0, false) == "a=" + "1" + ", " + RowItems(cols[1..], 0, false);
  }
}
