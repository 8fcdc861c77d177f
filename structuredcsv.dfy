/** The multi-strategy chunk layout of the current `CSVProcessor` (`create_structured_chunks` and
    its `_create_*` helpers) and the ordinal `[CSV_CHUNK_n]` labelling of `process`. Chunks are
    modelled by what they describe (a `Facet`); the pandas-rendered statistics inside them are an
    opaque `Facet -> string` parameter. */
module StructuredCsv {
  import opened Results
  import opened Text
  import opened Collections
  import opened Tabular

  /** What one structured chunk describes. */
  datatype Facet =
    | Overview
    | ColumnAnalysis(col: string, numeric: bool)
    | Correlation
    | SummaryStatistics
    | RowBatch(first: nat, end: nat)
    | CategoryAnalysis(col: string)
    | TimeSeries(col: string)

  /** Categorical columns with more distinct values than this get no category chunk. */
  const MaxCategoryValues: nat := 50

  /** Characters of chunk budget the row batching assumes per cell. */
  const CharsPerCell: nat := 20

  // ---------------------------------------------------------------- column analysis

  /** `_create_column_analysis_chunks`: one chunk per column, in column order, flagged numeric
      when the column is listed among the numeric columns. */
  method ColumnAnalysisChunks(t: Table, a: Analysis) returns (chunks: seq<Facet>)
    ensures chunks == ColumnFacets(t.columns, a.numericColumns)
  {
    chunks := [];
    for i := 0 to |t.columns|
      invariant chunks == ColumnFacets(t.columns[..i], a.numericColumns)
    {
      var col := t.columns[i];
      chunks := chunks + [ColumnAnalysis(col.name, col.name in a.numericColumns)];
    }
    assert t.columns[..|t.columns|] == t.columns;
  }

  function ColumnFacets(cols: seq<Column>, numeric: seq<string>): (r: seq<Facet>)
    ensures |r| == |cols|
  {
    seq(|cols|, i requires 0 <= i < |cols| => ColumnAnalysis(cols[i].name, cols[i].name in numeric))
  }

  /** With the analysis of the same table, a column chunk is flagged numeric exactly when the
      column's dtype is a number type. */
  lemma ColumnFlagIsDtype(t: Table, parsesAsDate: string -> bool, a: Analysis, i: nat)
    requires t.Valid() && i < |t.columns|
    requires a.numericColumns == NumericColumns(t)
    ensures ColumnFacets(t.columns, a.numericColumns)[i] == ColumnAnalysis(t.columns[i].name, IsNumeric(t.columns[i]))
  {
    var c := t.columns[i];
    if IsNumeric(c) {
      MemberNamed(t.columns, IsNumeric, c);
    } else if c.name in a.numericColumns {
      NamedMember(t.columns, IsNumeric, c.name);
      var d :| d in t.columns && IsNumeric(d) && d.name == c.name;
      NameIdentifies(t, c.name, c, d);
    }
  }

  // ---------------------------------------------------------------- statistics

  /** `_create_statistical_chunks`: a correlation chunk when there are at least two numeric
      columns, then a summary chunk when there is at least one. */
  function StatisticalChunks(numeric: seq<string>): (r: seq<Facet>)
    ensures Correlation in r <==> |numeric| >= 2
    ensures SummaryStatistics in r <==> |numeric| >= 1
    ensures |r| == if |numeric| >= 2 then 2 else |numeric|
    ensures r == [] || r[|r| - 1] == SummaryStatistics
  {
    if |numeric| > 0 then (if |numeric| > 1 then [Correlation] else []) + [SummaryStatistics]
    else []
  }

  // ---------------------------------------------------------------- row batches

  /** `rows_per_chunk = max(1, chunk_size // (ncols * 20))`. */
  function RowsPerChunk(chunkSize: nat, ncols: nat): (r: nat)
    requires ncols > 0
    ensures r >= 1
  {
    Max(1, chunkSize / (ncols * CharsPerCell))
  }

  /** The batches `[s, min(s + rpc, n))` for `s` in `range(start, n, rpc)`. */
  function RowBatchesFrom(n: nat, rpc: nat, start: nat): seq<Facet>
    requires rpc > 0
    decreases n - start
  {
    if start >= n then [] else [RowBatch(start, Min(start + rpc, n))] + RowBatchesFrom(n, rpc, start + rpc)
  }

  /** `_create_row_based_chunks`: a loop over batch starts, each batch covering the next
      `rows_per_chunk` rows (fewer for the last). */
  method RowBasedChunks(nrows: nat, ncols: nat, chunkSize: nat) returns (chunks: seq<Facet>)
    requires ncols > 0
    ensures chunks == RowBatchesFrom(nrows, RowsPerChunk(chunkSize, ncols), 0)
  {
    var rpc := Max(1, chunkSize / (ncols * CharsPerCell));
    chunks := [];
    var start := 0;
    while start < nrows
      invariant chunks + RowBatchesFrom(nrows, rpc, start) == RowBatchesFrom(nrows, rpc, 0)
      decreases nrows - start
    {
      var end := Min(start + rpc, nrows);
      chunks := chunks + [RowBatch(start, end)];
      start := start + rpc;
    }
  }

  /** Batch count: the least `c` with `start + c * rpc >= n`. */
  lemma {:induction false} RowBatchesCount(n: nat, rpc: nat, start: nat)
    requires rpc > 0
    ensures var c := |RowBatchesFrom(n, rpc, start)|;
      start + Offset(c, rpc) >= n && (c == 0 || start + Offset(c - 1, rpc) < n)
    decreases n - start
  {
    if start < n {
      var c := |RowBatchesFrom(n, rpc, start + rpc)|;
      RowBatchesCount(n, rpc, start + rpc);
      OffsetSucc(c, rpc);
      if c > 0 {
        OffsetSucc(c - 1, rpc);
      }
    }
  }

  /** Batch `k` covers rows `[start + k*rpc, min(start + (k+1)*rpc, n))`. */
  lemma {:induction false} RowBatchesAt(n: nat, rpc: nat, start: nat, k: nat)
    requires rpc > 0 && k < |RowBatchesFrom(n, rpc, start)|
    ensures start + Offset(k, rpc) < n
    ensures RowBatchesFrom(n, rpc, start)[k] == RowBatch(start + Offset(k, rpc), Min(start + Offset(k + 1, rpc), n))
    decreases k
  {
    OffsetSucc(k, rpc);
    if k > 0 {
      RowBatchesAt(n, rpc, start + rpc, k - 1);
      OffsetSucc(k - 1, rpc);
    }
  }

  /** Batch `k` of the batches from row 0, spelled out. */
  lemma RowBatchFromZero(n: nat, rpc: nat, k: nat)
    requires rpc > 0 && k < |RowBatchesFrom(n, rpc, 0)|
    ensures var b := RowBatchesFrom(n, rpc, 0)[k];
      b.RowBatch? && b.first == Offset(k, rpc) < n &&
      b.end == Min(Offset(k, rpc) + rpc, n)
  {
    RowBatchesAt(n, rpc, 0, k);
    OffsetSucc(k, rpc);
  }

  /** The row batches partition rows `0..n-1` in order: there are `ceil(n / rpc)` of them, the
      first starts at row 0, each is non-empty and holds at most `rpc` rows, each starts where the
      previous ended, and the last ends at `n`. No rows give no batches. */
  lemma RowBatchesPartition(n: nat, rpc: nat)
    requires rpc > 0
    ensures var bs := RowBatchesFrom(n, rpc, 0);
      |bs| == CeilDiv(n, rpc) &&
      (n == 0 <==> bs == []) &&
      (forall k :: 0 <= k < |bs| ==> bs[k].RowBatch? && bs[k].first < bs[k].end <= bs[k].first + rpc) &&
      (bs != [] ==> bs[0].first == 0 && bs[|bs| - 1].end == n) &&
      (forall k :: 0 <= k < |bs| - 1 ==> bs[k].end == bs[k + 1].first)
  {
    var bs := RowBatchesFrom(n, rpc, 0);
    RowBatchesCount(n, rpc, 0);
    CeilDivUnique(|bs|, n, rpc);
    forall k | 0 <= k < |bs|
      ensures bs[k].RowBatch? && bs[k].first < bs[k].end <= bs[k].first + rpc
    {
      RowBatchFromZero(n, rpc, k);
    }
    forall k | 0 <= k < |bs| - 1
      ensures bs[k].end == bs[k + 1].first
    {
      RowBatchFromZero(n, rpc, k);
      RowBatchFromZero(n, rpc, k + 1);
      OffsetSucc(k, rpc);
    }
    if bs != [] {
      var c := |bs|;
      RowBatchFromZero(n, rpc, 0);
      RowBatchFromZero(n, rpc, c - 1);
      OffsetSucc(c - 1, rpc);
    }
  }

  /** The header of a row-batch chunk, numbering rows from 1: `"Data Rows {s+1}-{end}:\n"`. */
  function RowBatchHeader(first: nat, end: nat): string {
    "Data Rows " + NatToString(first + 1) + "-" + NatToString(end) + ":\n"
  }

  // ---------------------------------------------------------------- categories and time series

  predicate IsSmallCategory(t: Table, name: string) {
    Lookup(t.columns, name).Some? && NUnique(Lookup(t.columns, name).value.cells) <= MaxCategoryValues
  }

  /** `IsSmallCategory` of a table, as the filter the category step applies to the column names. */
  function Small(t: Table): string -> bool {
    name => IsSmallCategory(t, name)
  }

  function CategoryFacets(names: seq<string>): (r: seq<Facet>)
    ensures |r| == |names| && forall i {:trigger r[i]} :: 0 <= i < |names| ==> r[i] == CategoryAnalysis(names[i])
  {
    seq(|names|, i requires 0 <= i < |names| => CategoryAnalysis(names[i]))
  }

  /** `_create_category_chunks`: one chunk per categorical column with at most 50 distinct values,
      in the order of the categorical column list. */
  method CategoryChunks(t: Table, categorical: seq<string>) returns (chunks: seq<Facet>)
    ensures chunks == CategoryFacets(Filter(categorical, Small(t)))
  {
    var small := Small(t);
    chunks := [];
    for i := 0 to |categorical|
      invariant chunks == CategoryFacets(Filter(categorical[..i], small))
    {
      var name := categorical[i];
      FilterSnoc(categorical[..i], name, small);
      assert categorical[..i + 1] == categorical[..i] + [name];
      var col := Lookup(t.columns, name);
      if col.Some? && NUnique(col.value.cells) <= MaxCategoryValues {
        chunks := chunks + [CategoryAnalysis(name)];
      }
    }
    assert categorical[..|categorical|] == categorical;
  }

  function TimeSeriesFacets(names: seq<string>): (r: seq<Facet>)
    ensures |r| == |names| && forall i {:trigger r[i]} :: 0 <= i < |names| ==> r[i] == TimeSeries(names[i])
  {
    seq(|names|, i requires 0 <= i < |names| => TimeSeries(names[i]))
  }

  /** `_create_timeseries_chunks`: one chunk per date column whose conversion and aggregation
      succeed (`timeSeriesOk`); a failing column is skipped and the rest still processed. */
  method TimeSeriesChunks(dates: seq<string>, timeSeriesOk: string -> bool) returns (chunks: seq<Facet>)
    ensures chunks == TimeSeriesFacets(Filter(dates, timeSeriesOk))
  {
    chunks := [];
    for i := 0 to |dates|
      invariant chunks == TimeSeriesFacets(Filter(dates[..i], timeSeriesOk))
    {
      FilterSnoc(dates[..i], dates[i], timeSeriesOk);
      assert dates[..i + 1] == dates[..i] + [dates[i]];
      if timeSeriesOk(dates[i]) {
        chunks := chunks + [TimeSeries(dates[i])];
      }
    }
    assert dates[..|dates|] == dates;
  }

  // ---------------------------------------------------------------- the layout

  /** The full layout, strategy by strategy. */
  function Layout(t: Table, a: Analysis, chunkSize: nat, timeSeriesOk: string -> bool): seq<Facet>
    requires |t.columns| > 0
  {
    [Overview]
    + ColumnFacets(t.columns, a.numericColumns)
    + StatisticalChunks(a.numericColumns)
    + RowBatchesFrom(t.rows, RowsPerChunk(chunkSize, |t.columns|), 0)
    + CategoryFacets(Filter(a.categoricalColumns, Small(t)))
    + (if a.dateColumns != [] then TimeSeriesFacets(Filter(a.dateColumns, timeSeriesOk)) else [])
  }

  /** `create_structured_chunks`: overview, column analyses, statistics, row batches, categories
      and (when there are date columns) time series, appended in that order. */
  method CreateStructuredChunks(t: Table, a: Analysis, chunkSize: nat, timeSeriesOk: string -> bool)
    returns (chunks: seq<Facet>)
    requires |t.columns| > 0
    ensures chunks == Layout(t, a, chunkSize, timeSeriesOk)
  {
    chunks := [Overview];
    var columnChunks := ColumnAnalysisChunks(t, a);
    chunks := chunks + columnChunks;
    chunks := chunks + StatisticalChunks(a.numericColumns);
    var rowChunks := RowBasedChunks(t.rows, |t.columns|, chunkSize);
    chunks := chunks + rowChunks;
    var categoryChunks := CategoryChunks(t, a.categoricalColumns);
    chunks := chunks + categoryChunks;
    if a.dateColumns != [] {
      var timeSeriesChunks := TimeSeriesChunks(a.dateColumns, timeSeriesOk);
      chunks := chunks + timeSeriesChunks;
    }
  }

  /** The chunk count, strategy by strategy. */
  lemma LayoutCount(t: Table, a: Analysis, chunkSize: nat, timeSeriesOk: string -> bool)
    requires |t.columns| > 0
    ensures |Layout(t, a, chunkSize, timeSeriesOk)| ==
      1 + |t.columns|
      + (if |a.numericColumns| >= 2 then 2 else |a.numericColumns|)
      + CeilDiv(t.rows, RowsPerChunk(chunkSize, |t.columns|))
      + |Filter(a.categoricalColumns, Small(t))|
      + |Filter(a.dateColumns, timeSeriesOk)|
  {
    RowBatchesPartition(t.rows, RowsPerChunk(chunkSize, |t.columns|));
  }

  /** The layout opens with exactly one overview chunk, followed by one analysis chunk per column in
      column order; no other chunk is an overview or a column analysis. */
  lemma LayoutOrder(t: Table, a: Analysis, chunkSize: nat, timeSeriesOk: string -> bool)
    requires |t.columns| > 0
    ensures var l := Layout(t, a, chunkSize, timeSeriesOk);
      l[0] == Overview &&
      (forall i :: 0 <= i < |t.columns| ==> l[1 + i].ColumnAnalysis? && l[1 + i].col == t.columns[i].name) &&
      (forall i :: 1 + |t.columns| <= i < |l| ==> !l[i].Overview? && !l[i].ColumnAnalysis?)
  {
    var l := Layout(t, a, chunkSize, timeSeriesOk);
    var rpc := RowsPerChunk(chunkSize, |t.columns|);
    var rows := RowBatchesFrom(t.rows, rpc, 0);
    RowBatchesPartition(t.rows, rpc);
    var cats := CategoryFacets(Filter(a.categoricalColumns, Small(t)));
    var ts := if a.dateColumns != [] then TimeSeriesFacets(Filter(a.dateColumns, timeSeriesOk)) else [];
    var tail := StatisticalChunks(a.numericColumns) + rows + cats + ts;
    assert l == [Overview] + ColumnFacets(t.columns, a.numericColumns) + tail;
    forall i | 0 <= i < |tail|
      ensures !tail[i].Overview? && !tail[i].ColumnAnalysis?
    {
      var s := StatisticalChunks(a.numericColumns);
      if i < |s| {
      } else if i < |s| + |rows| {
        assert tail[i] == rows[i - |s|];
      } else if i < |s| + |rows| + |cats| {
        assert tail[i] == cats[i - |s| - |rows|];
      } else {
        assert tail[i] == ts[i - |s| - |rows| - |cats|];
      }
    }
  }

  /** The sample `date,revenue,costs,profit` file with twelve monthly rows: one object column
      holding dates and three integer columns give 1 overview, 4 column, 2 statistics, 1 row-batch,
      1 category and 1 time-series chunk. */
  lemma SampleCsvChunkCount(t: Table, parsesAsDate: string -> bool, timeSeriesOk: string -> bool)
    requires t.Valid() && t.rows == 12 && |t.columns| == 4
    requires t.columns[0].name == "date" && t.columns[0].dtype == Object
    requires IsDate(t.columns[0], parsesAsDate) && NUnique(t.columns[0].cells) <= MaxCategoryValues
    requires forall i :: 1 <= i < 4 ==> t.columns[i].dtype == Int64
    requires timeSeriesOk("date")
    ensures var a := Analysis(t.rows, Names(t.columns), NumericColumns(t), CategoricalColumns(t),
                              DateColumns(t, parsesAsDate));
      |Layout(t, a, 1000, timeSeriesOk)| == 10
  {
    var cs := t.columns;
    var isDate := c => IsDate(c, parsesAsDate);
    assert cs == [cs[0]] + cs[1..] && cs[1..] == [cs[1]] + cs[2..] && cs[2..] == [cs[2]] + cs[3..];
    assert cs[3..] == [cs[3]] + cs[4..] && cs[4..] == [];
    assert Filter(cs[3..], IsNumeric) == [cs[3]] && Filter(cs[2..], IsNumeric) == [cs[2], cs[3]];
    assert Filter(cs[1..], IsNumeric) == [cs[1], cs[2], cs[3]];
    assert |Filter(cs, IsNumeric)| == 3;
    assert Filter(cs[3..], IsObject) == [] && Filter(cs[2..], IsObject) == [];
    assert Filter(cs[1..], IsObject) == [] && Filter(cs, IsObject) == [cs[0]];
    assert Filter(cs[3..], isDate) == [] && Filter(cs[2..], isDate) == [];
    assert Filter(cs[1..], isDate) == [] && Filter(cs, isDate) == [cs[0]];
    var small := Small(t);
    assert Lookup(cs, "date") == Some(cs[0]);
    assert Filter(["date"], small) == ["date"];
    assert Filter(["date"], timeSeriesOk) == ["date"];
    assert RowsPerChunk(1000, 4) == 12;
    assert CeilDiv(12, 12) == 1;
    LayoutCount(t, Analysis(t.rows, Names(cs), NumericColumns(t), CategoricalColumns(t),
                            DateColumns(t, parsesAsDate)), 1000, timeSeriesOk);
  }

  // ---------------------------------------------------------------- rendering and labelling

  /** `", ".join(names)`, or `'None'` for an empty list, as in the overview chunk. */
  function ListOrNone(names: seq<string>): string {
    if names == [] then "None" else Join(names, ", ")
  }

  /** The text of a chunk: the fixed heading the source writes, then the pandas-rendered part
      (`pandas`), which is outside this model. */
  function FacetText(f: Facet, t: Table, a: Analysis, pandas: Facet -> string): string {
    match f
    case Overview =>
      "CSV Document Overview:\nDataset: " + NatToString(t.rows) + " rows × " + NatToString(|t.columns|)
      + " columns\nColumns: " + Join(Names(t.columns), ", ")
      + "\nNumeric columns: " + ListOrNone(a.numericColumns)
      + "\nCategorical columns: " + ListOrNone(a.categoricalColumns)
      + "\nDate columns: " + ListOrNone(a.dateColumns)
      + "\n\nData Types:\n" + pandas(f)
    case ColumnAnalysis(col, _) => "Column Analysis: " + col + "\n" + pandas(f)
    case Correlation => "Correlation Matrix:\n" + pandas(f)
    case SummaryStatistics => "Summary Statistics:\n" + pandas(f)
    case RowBatch(first, end) => RowBatchHeader(first, end) + pandas(f)
    case CategoryAnalysis(col) => "Category Analysis for " + col + ":\n" + pandas(f)
    case TimeSeries(col) => "Time Series Analysis for " + col + ":\n" + pandas(f)
  }

  /** `f"[CSV_CHUNK_{n}]\n"`. */
  function ChunkLabel(n: nat): string {
    "[CSV_CHUNK_" + NatToString(n) + "]\n"
  }

  /** `process`: chunk `i` (from 0) becomes `"[CSV_CHUNK_{i+1}]\n" + chunk`. */
  method LabelChunks(chunks: seq<string>) returns (labelled: seq<string>)
    ensures |labelled| == |chunks|
    ensures forall i :: 0 <= i < |chunks| ==> labelled[i] == ChunkLabel(i + 1) + chunks[i]
  {
    labelled := [];
    for i := 0 to |chunks|
      invariant |labelled| == i
      invariant forall j :: 0 <= j < i ==> labelled[j] == ChunkLabel(j + 1) + chunks[j]
    {
      labelled := labelled + [ChunkLabel(i + 1) + chunks[i]];
    }
  }

  /** Length of the run of digits at the start of `s`. */
  function DigitRun(s: string): (n: nat)
    ensures n <= |s| && (forall k :: 0 <= k < n ==> IsDigit(s[k])) && (n < |s| ==> !IsDigit(s[n]))
  {
    if |s| > 0 && IsDigit(s[0]) then 1 + DigitRun(s[1..]) else 0
  }

  lemma {:induction false} DigitRunOf(ds: string, rest: string)
    requires forall k :: 0 <= k < |ds| ==> IsDigit(ds[k])
    requires rest == [] || !IsDigit(rest[0])
    ensures DigitRun(ds + rest) == |ds|
  {
    if |ds| > 0 {
      assert (ds + rest)[1..] == ds[1..] + rest;
      DigitRunOf(ds[1..], rest);
    }
  }

  /** Read a labelled chunk back into its ordinal and its original text. */
  function ParseLabelled(s: string): Option<(nat, string)> {
    var prefix := "[CSV_CHUNK_";
    if !StartsWith(s, prefix) then None
    else
      var rest := s[|prefix|..];
      var d := DigitRun(rest);
      if d > 0 && StartsWith(rest[d..], "]\n") then Some((ParseDigits(rest[..d]), rest[d + 2..]))
      else None
  }

  /** Labelling loses nothing: the ordinal and the original chunk can be read back. */
  lemma LabelRoundTrip(n: nat, chunk: string)
    ensures ParseLabelled(ChunkLabel(n) + chunk) == Some((n, chunk))
  {
    var s := ChunkLabel(n) + chunk;
    var ds := NatToString(n);
    assert s == "[CSV_CHUNK_" + (ds + ("]\n" + chunk));
    var rest := s[11..];
    assert rest == ds + ("]\n" + chunk);
    DigitRunOf(ds, "]\n" + chunk);
    assert rest[..|ds|] == ds;
    assert rest[|ds|..] == "]\n" + chunk;
    ParseNatToString(n);
  }

  /** Labelled chunks are pairwise distinct and each carries its own position. */
  lemma LabelsIdentifyPositions(chunks: seq<string>, labelled: seq<string>, i: nat, j: nat)
    requires |labelled| == |chunks|
    requires forall k :: 0 <= k < |chunks| ==> labelled[k] == ChunkLabel(k + 1) + chunks[k]
    requires i < j < |chunks|
    ensures labelled[i] != labelled[j]
  {
    LabelRoundTrip(i + 1, chunks[i]);
    LabelRoundTrip(j + 1, chunks[j]);
  }

  datatype CsvResult = CsvResult(
    analysis: Analysis,
    chunks: seq<string>,
    totalChunks: nat,
    totalWords: nat,
    strategy: string)

  function Render(fs: seq<Facet>, t: Table, a: Analysis, pandas: Facet -> string): (r: seq<string>)
    ensures |r| == |fs| && forall i :: 0 <= i < |fs| ==> r[i] == FacetText(fs[i], t, a, pandas)
  {
    seq(|fs|, i requires 0 <= i < |fs| => FacetText(fs[i], t, a, pandas))
  }

  /** `CSVProcessor.process` after `read_csv`: analyse, lay out, render and label the chunks, and
      count them and their words. */
  method Process(t: Table, chunkSize: nat, parsesAsDate: string -> bool, timeSeriesOk: string -> bool,
                 pandas: Facet -> string) returns (r: CsvResult)
    requires t.Valid()
    ensures r.analysis.numericColumns == NumericColumns(t)
    ensures r.analysis.categoricalColumns == CategoricalColumns(t)
    ensures r.analysis.dateColumns == DateColumns(t, parsesAsDate)
    ensures r.analysis == Analyzed(t, parsesAsDate)
    ensures var texts := Render(Layout(t, r.analysis, chunkSize, timeSeriesOk), t, r.analysis, pandas);
      |r.chunks| == |texts| &&
      forall i :: 0 <= i < |texts| ==> r.chunks[i] == ChunkLabel(i + 1) + texts[i]
    ensures r.totalChunks == |r.chunks| && r.totalWords == TotalWords(r.chunks)
    ensures r.strategy == "multi_strategy_csv"
  {
    var a := AnalyzeData(t, parsesAsDate);
    var facets := CreateStructuredChunks(t, a, chunkSize, timeSeriesOk);
    var labelled := LabelChunks(Render(facets, t, a, pandas));
    r := CsvResult(a, labelled, |labelled|, TotalWords(labelled), "multi_strategy_csv");
  }
}
