/** The part of a pandas `DataFrame` the CSV processors look at, and `CSVProcessor.analyze_data`
    (identical in both pipeline versions): the numeric / categorical / date column partition. */
module Tabular {
  import opened Results
  import opened Collections

  /** The dtypes `pd.read_csv` infers without `parse_dates`. */
  datatype DType = Int64 | Float64 | Bool | Object

  /** A cell as read: missing (`NaN`) or the value as pandas displays it. */
  datatype Cell = Missing | Value(text: string)

  datatype Column = Column(name: string, dtype: DType, cells: seq<Cell>)

  /** A parsed CSV: `read_csv` always yields at least one column (an empty file is an error), column
      labels are unique (duplicates are renamed) and every column has one cell per row. */
  datatype Table = Table(columns: seq<Column>, rows: nat) {
    ghost predicate Valid() {
      |columns| > 0 &&
      (forall i :: 0 <= i < |columns| ==> |columns[i].cells| == rows) &&
      (forall i, j :: 0 <= i < j < |columns| ==> columns[i].name != columns[j].name)
    }
  }

  /** `select_dtypes(include=['number'])`: integer and float columns; booleans are not numbers. */
  predicate IsNumeric(c: Column) { c.dtype == Int64 || c.dtype == Float64 }

  /** `select_dtypes(include=['object'])`. */
  predicate IsObject(c: Column) { c.dtype == Object }

  /** `df[col].dropna().iloc[0]`, or `None` where `iloc[0]` raises on an all-missing column. */
  function FirstValue(cells: seq<Cell>): (r: Option<string>)
    ensures r.Some? <==> exists k :: 0 <= k < |cells| && cells[k].Value?
    ensures r.Some? ==>
      exists k :: 0 <= k < |cells| && cells[k] == Value(r.value) && forall j :: 0 <= j < k ==> cells[j].Missing?
  {
    if |cells| == 0 then None
    else if cells[0].Value? then Some(cells[0].text)
    else
      var r := FirstValue(cells[1..]);
      assert forall k :: 1 <= k < |cells| ==> cells[k] == cells[1..][k - 1];
      r
  }

  /** The date probe: an object column whose first non-missing value `pd.to_datetime` accepts
      (`parsesAsDate` stands for that call). */
  predicate IsDate(c: Column, parsesAsDate: string -> bool) {
    IsObject(c) && FirstValue(c.cells).Some? && parsesAsDate(FirstValue(c.cells).value)
  }

  function Names(cols: seq<Column>): (r: seq<string>)
    ensures |r| == |cols| && forall k :: 0 <= k < |cols| ==> r[k] == cols[k].name
  {
    seq(|cols|, k requires 0 <= k < |cols| => cols[k].name)
  }

  lemma NamesSnoc(cols: seq<Column>, c: Column)
    ensures Names(cols + [c]) == Names(cols) + [c.name]
  {
  }

  /** `df[col]` for a column label of the table. */
  function Lookup(cols: seq<Column>, name: string): (r: Option<Column>)
    ensures r.Some? ==> r.value in cols && r.value.name == name
    ensures r.None? ==> forall c :: c in cols ==> c.name != name
  {
    if |cols| == 0 then None
    else if cols[0].name == name then Some(cols[0])
    else Lookup(cols[1..], name)
  }

  /** `nunique()`: the number of distinct non-missing values. */
  function NUnique(cells: seq<Cell>): nat {
    |set k | 0 <= k < |cells| && cells[k].Value? :: cells[k].text|
  }

  datatype Analysis = Analysis(
    rows: nat,
    columns: seq<string>,
    numericColumns: seq<string>,
    categoricalColumns: seq<string>,
    dateColumns: seq<string>)

  function NumericColumns(t: Table): seq<string> { Names(Filter(t.columns, IsNumeric)) }

  function CategoricalColumns(t: Table): seq<string> { Names(Filter(t.columns, IsObject)) }

  function DateColumns(t: Table, parsesAsDate: string -> bool): seq<string> {
    Names(Filter(t.columns, c => IsDate(c, parsesAsDate)))
  }

  /** What `analyze_data` reports for a table: its size, its column names and the three lists. */
  function Analyzed(t: Table, parsesAsDate: string -> bool): Analysis {
    Analysis(t.rows, Names(t.columns), NumericColumns(t), CategoricalColumns(t), DateColumns(t, parsesAsDate))
  }

  /** `analyze_data`: the numeric and object column lists by dtype, and a loop that adds each
      object column whose first value parses as a date. */
  method AnalyzeData(t: Table, parsesAsDate: string -> bool) returns (a: Analysis)
    ensures a.rows == t.rows && a.columns == Names(t.columns)
    ensures a.numericColumns == NumericColumns(t)
    ensures a.categoricalColumns == CategoricalColumns(t)
    ensures a.dateColumns == DateColumns(t, parsesAsDate)
  {
    var isDate := c => IsDate(c, parsesAsDate);
    var dates: seq<string> := [];
    for i := 0 to |t.columns|
      invariant dates == Names(Filter(t.columns[..i], isDate))
    {
      var col := t.columns[i];
      FilterSnoc(t.columns[..i], col, isDate);
      assert t.columns[..i + 1] == t.columns[..i] + [col];
      NamesSnoc(Filter(t.columns[..i], isDate), col);
      if col.dtype == Object {
        var first := FirstValue(col.cells);
        if first.Some? && parsesAsDate(first.value) {
          dates := dates + [col.name];
        }
      }
    }
    assert t.columns[..|t.columns|] == t.columns;
    a := Analysis(t.rows, Names(t.columns), NumericColumns(t), CategoricalColumns(t), dates);
  }

  /** The name of a column of a valid table identifies it. */
  lemma NameIdentifies(t: Table, name: string, c: Column, d: Column)
    requires t.Valid() && c in t.columns && d in t.columns && c.name == name && d.name == name
    ensures c == d
  {
  }

  /** A name in `Names(Filter(cols, p))` belongs to some column of `cols` satisfying `p`. */
  lemma NamedMember(cols: seq<Column>, p: Column -> bool, name: string)
    requires name in Names(Filter(cols, p))
    ensures exists c :: c in cols && p(c) && c.name == name
  {
    var f := Filter(cols, p);
    var k :| 0 <= k < |f| && Names(f)[k] == name;
    FilterMembership(cols, p, f[k]);
  }

  /** A column satisfying `p` has its name in `Names(Filter(cols, p))`. */
  lemma MemberNamed(cols: seq<Column>, p: Column -> bool, c: Column)
    requires c in cols && p(c)
    ensures c.name in Names(Filter(cols, p))
  {
    FilterMembership(cols, p, c);
    var f := Filter(cols, p);
    var k :| 0 <= k < |f| && f[k] == c;
    assert Names(f)[k] == c.name;
  }

  /** No column is both numeric and categorical. */
  lemma NumericCategoricalDisjoint(t: Table, name: string)
    requires t.Valid()
    ensures !(name in NumericColumns(t) && name in CategoricalColumns(t))
  {
    if name in NumericColumns(t) && name in CategoricalColumns(t) {
      NamedMember(t.columns, IsNumeric, name);
      NamedMember(t.columns, IsObject, name);
      var c :| c in t.columns && IsNumeric(c) && c.name == name;
      var d :| d in t.columns && IsObject(d) && d.name == name;
      NameIdentifies(t, name, c, d);
    }
  }

  /** Every date column is a categorical column. */
  lemma DatesAreCategorical(t: Table, parsesAsDate: string -> bool, name: string)
    requires name in DateColumns(t, parsesAsDate)
    ensures name in CategoricalColumns(t)
  {
    NamedMember(t.columns, c => IsDate(c, parsesAsDate), name);
    var c :| c in t.columns && IsDate(c, parsesAsDate) && c.name == name;
    MemberNamed(t.columns, IsObject, c);
  }

  /** An object column is a date column exactly when it has a non-missing value and the first such
      value parses; an all-missing column is never one. */
  lemma DateColumnIff(t: Table, parsesAsDate: string -> bool, c: Column)
    requires t.Valid() && c in t.columns
    ensures c.name in DateColumns(t, parsesAsDate) <==>
      IsObject(c) && FirstValue(c.cells).Some? && parsesAsDate(FirstValue(c.cells).value)
  {
    if c.name in DateColumns(t, parsesAsDate) {
      NamedMember(t.columns, d => IsDate(d, parsesAsDate), c.name);
      var d :| d in t.columns && IsDate(d, parsesAsDate) && d.name == c.name;
      NameIdentifies(t, c.name, c, d);
    }
    if IsDate(c, parsesAsDate) {
      MemberNamed(t.columns, d => IsDate(d, parsesAsDate), c);
    }
  }

  /** A boolean column lands in none of the three lists: the lists do not partition the columns. */
  lemma BoolColumnUnlisted(t: Table, parsesAsDate: string -> bool, c: Column)
    requires t.Valid() && c in t.columns && c.dtype == Bool
    ensures c.name !in NumericColumns(t) && c.name !in CategoricalColumns(t)
    ensures c.name !in DateColumns(t, parsesAsDate)
  {
    if c.name in NumericColumns(t) {
      NamedMember(t.columns, IsNumeric, c.name);
      var d :| d in t.columns && IsNumeric(d) && d.name == c.name;
      NameIdentifies(t, c.name, c, d);
    }
    if c.name in CategoricalColumns(t) {
      NamedMember(t.columns, IsObject, c.name);
      var d :| d in t.columns && IsObject(d) && d.name == c.name;
      NameIdentifies(t, c.name, c, d);
    }
    if c.name in DateColumns(t, parsesAsDate) {
      DatesAreCategorical(t, parsesAsDate, c.name);
    }
  }
}
