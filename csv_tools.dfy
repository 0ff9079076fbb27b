/** The tabular data-access layer (tools/csv_tools.py): a `CSVAnalyzer` owns a
    loaded table and answers read-only queries over it, each returning either a
    success payload or an error payload, never raising. */
module CsvTools {
  import opened Wrappers
  import opened Text
  import opened Seqs

  /** A record as `to_dict('records')` gives it: column name to (stringified) cell. */
  type Row = map<string, string>

  /** The dtype category of a column, as pandas inferred it on load: `Boolean` is a column
      of `True`/`False` that `read_csv` loads as `bool`, which `select_dtypes` does not count
      as numeric. */
  datatype DType = Numeric | Boolean | NonNumeric

  /** A loaded DataFrame: columns in declared order, their dtypes, rows in order. */
  datatype Table = Table(columns: seq<string>, dtypes: map<string, DType>, rows: seq<Row>)

  function ColumnSet(t: Table): set<string> {
    set c | c in t.columns
  }

  /** Distinct column names; every row and the dtype map have exactly the table's columns. */
  ghost predicate WellFormed(t: Table) {
    && (forall i, j :: 0 <= i < j < |t.columns| ==> t.columns[i] != t.columns[j])
    && t.dtypes.Keys == ColumnSet(t)
    && (forall r :: r in t.rows ==> r.Keys == ColumnSet(t))
  }

  /** `DataFrame.query`: parses an expression into a row predicate, or fails with a message. */
  type QueryEngine = string -> Result<Row -> bool, string>

  /** `SeriesGroupBy.agg(name)`. pandas looks the name up before it touches any group:
      `resolve(name)` is the error raised when it names no aggregation. `apply(name, values)`
      is the aggregate of one group's values, or the error it raised. */
  datatype AggFn = AggFn(resolve: string -> Option<string>, apply: (string, seq<string>) -> Result<string, string>)

  datatype GroupRow = GroupRow(key: string, value: string)

  /** The dictionaries the analyzer returns. */
  datatype Payload =
    | Error(error: string)
    | Message(message: string)
    | Info(shape: (nat, nat), columns: seq<string>, dtypes: map<string, DType>, sampleData: seq<Row>)
    | Stats(numericColumns: seq<string>)
    | QueryResult(query: string, resultCount: nat, data: seq<Row>)
    | FilterResult(filter: string, resultCount: nat, data: seq<Row>)
    | Aggregated(operation: string, groups: seq<GroupRow>)
    | UniqueValues(column: string, uniqueCount: nat, uniqueValues: seq<string>)
    | SearchResult(searchTerm: string, column: string, matches: nat, data: seq<Row>)

  /** What Python says when a method touches `self.df` before a table is loaded. */
  const NoColumnsAttribute := "'NoneType' object has no attribute 'columns'"
  const NoQueryAttribute := "'NoneType' object has no attribute 'query'"

  const SampleSize := 3
  const RowLimit := 10
  const UniqueLimit := 20

  function Min(a: nat, b: nat): nat { if a <= b then a else b }

  /** `d` is what `.head(n)` (or `[:n]`) leaves of `s`: its first min(n, |s|) elements. */
  predicate IsHead<T(==)>(d: seq<T>, s: seq<T>, n: nat) {
    |d| == Min(n, |s|) && d == s[..|d|]
  }

  function Head<T(==)>(s: seq<T>, n: nat): (d: seq<T>)
    ensures IsHead(d, s, n)
  {
    s[..Min(n, |s|)]
  }

  /** The cells of column `c`, in row order (`df[c]`). */
  function Cells(rows: seq<Row>, c: string): (vs: seq<string>)
    requires forall r :: r in rows ==> c in r
    ensures |vs| == |rows| && forall i :: 0 <= i < |rows| ==> vs[i] == rows[i][c]
  {
    seq(|rows|, i requires 0 <= i < |rows| => rows[i][c])
  }

  /** The mask `df[c] == value`. A text value never equals a cell of a numeric or a bool
      column, whose cells are not strings. */
  function CellEquals(c: string, value: string, dtype: DType): Row -> bool {
    (r: Row) => dtype == NonNumeric && c in r && r[c] == value
  }

  /** The mask `df[c].astype(str).str.contains(term, case=False)` for `loweredTerm == Lower(term)`,
      with the term read literally. */
  function CellContains(c: string, loweredTerm: string): Row -> bool {
    (r: Row) => c in r && Contains(Lower(r[c]), loweredTerm)
  }

  function IsNumericIn(t: Table): string -> bool {
    (c: string) => c in t.dtypes && t.dtypes[c] == Numeric
  }

  /** The rows of one group: those whose `g` cell is `key`. */
  function InGroup(g: string, key: string): Row -> bool {
    (r: Row) => g in r && r[g] == key
  }

  /** The values of column `a` within the group `key` of column `g`. */
  function GroupValues(t: Table, g: string, key: string, a: string): seq<string>
    requires WellFormed(t) && a in t.columns
  {
    Cells(Select(t.rows, InGroup(g, key)), a)
  }

  /** The aggregate `f` of one group, or the error it raised. */
  function GroupAggregate(t: Table, g: string, key: string, a: string, f: string, agg: AggFn): Result<string, string>
    requires WellFormed(t) && a in t.columns
  {
    agg.apply(f, GroupValues(t, g, key, a))
  }

  /** The aggregate of each group, in the order of `keys`. */
  function GroupAggregates(t: Table, keys: seq<string>, g: string, a: string, f: string, agg: AggFn)
    : (rs: seq<Result<string, string>>)
    requires WellFormed(t) && a in t.columns
    ensures |rs| == |keys| && forall i :: 0 <= i < |keys| ==> rs[i] == GroupAggregate(t, g, keys[i], a, f, agg)
  {
    seq(|keys|, i requires 0 <= i < |keys| => GroupAggregate(t, g, keys[i], a, f, agg))
  }

  /** The groups' aggregates, paired with their keys; the first failure wins. */
  function AggregateGroups(keys: seq<string>, rs: seq<Result<string, string>>): (r: Result<seq<GroupRow>, string>)
    requires |rs| == |keys|
    ensures r.Success? <==> forall i :: 0 <= i < |rs| ==> rs[i].Success?
    ensures r.Success? ==>
      && |r.value| == |keys|
      && forall i :: 0 <= i < |keys| ==> r.value[i].key == keys[i] && rs[i] == Success(r.value[i].value)
    ensures r.Failure? ==> exists i :: 0 <= i < |rs| && rs[i] == Failure(r.error)
  {
    if keys == [] then Success([])
    else
      match rs[0]
      case Failure(e) => Failure(e)
      case Success(v) =>
        match AggregateGroups(keys[1..], rs[1..])
        case Failure(e) =>
          assert exists i :: 0 <= i < |rs| && rs[i] == Failure(e) by {
            var j :| 0 <= j < |rs[1..]| && rs[1..][j] == Failure(e);
            assert rs[j + 1] == Failure(e);
          }
          Failure(e)
        case Success(rest) =>
          var r := [GroupRow(keys[0], v)] + rest;
          assert forall i :: 0 < i < |keys| ==> r[i] == rest[i - 1] && keys[i] == keys[1..][i - 1] && rs[i] == rs[1..][i - 1];
          Success(r)
  }

  /** The grouping of `group_and_aggregate` once the columns exist and the function name
      resolves: the error of a failing group; otherwise one row per distinct group key, unless
      the group column is also the aggregated one, where `reset_index` cannot insert the key
      column next to the aggregate column of the same name. */
  function Grouped(t: Table, groupBy: string, aggColumn: string, aggFunc: string, agg: AggFn): (r: Payload)
    requires WellFormed(t) && groupBy in t.columns && aggColumn in t.columns
    ensures var keys := Distinct(Cells(t.rows, groupBy));
      && (r.Error? || r.Aggregated?)
      && (r.Error? ==> StartsWith(r.error, "Aggregation error: "))
      && ((exists i :: 0 <= i < |keys| && agg.apply(aggFunc, GroupValues(t, groupBy, keys[i], aggColumn)).Failure?) ==>
            && r.Error?
            && exists i :: 0 <= i < |keys| &&
                 agg.apply(aggFunc, GroupValues(t, groupBy, keys[i], aggColumn)) == Failure(r.error[|"Aggregation error: "|..]))
      && ((forall i :: 0 <= i < |keys| ==> agg.apply(aggFunc, GroupValues(t, groupBy, keys[i], aggColumn)).Success?) &&
          groupBy == aggColumn ==>
            r == Error("Aggregation error: " + ("cannot insert " + groupBy + ", already exists")))
      && (r.Aggregated? ==>
            && groupBy != aggColumn
            && r.operation == aggFunc + "(" + aggColumn + ") grouped by " + groupBy
            && |r.groups| == |keys|
            && forall i :: 0 <= i < |keys| ==>
                 r.groups[i].key == keys[i] &&
                 agg.apply(aggFunc, GroupValues(t, groupBy, keys[i], aggColumn)) == Success(r.groups[i].value))
  {
    var keys := Distinct(Cells(t.rows, groupBy));
    match AggregateGroups(keys, GroupAggregates(t, keys, groupBy, aggColumn, aggFunc, agg))
    case Failure(e) =>
      PrefixedParts("Aggregation error: ", e);
      Error("Aggregation error: " + e)
    case Success(groups) =>
      if groupBy == aggColumn then
        PrefixedParts("Aggregation error: ", "cannot insert " + groupBy + ", already exists");
        Error("Aggregation error: " + ("cannot insert " + groupBy + ", already exists"))
      else Aggregated(aggFunc + "(" + aggColumn + ") grouped by " + groupBy, groups)
  }

  class CSVAnalyzer {
    var csvPath: string
    var df: Option<Table>

    /** A loaded table is well formed. */
    ghost predicate Valid()
      reads this
    {
      df.Some? ==> WellFormed(df.value)
    }

    /** `__init__` up to the call of `load_csv`: the path is stored and no table is loaded yet. */
    constructor (csvPath: string)
      ensures Valid() && this.csvPath == csvPath && df == None
    {
      this.csvPath := csvPath;
      df := None;
    }

    /** `load_csv`, given what `pd.read_csv(self.csv_path)` produced. A failed read leaves
        `df` as it was and reports the error `load_csv` raises. */
    method LoadCsv(source: Result<Table, string>) returns (err: Option<string>)
      requires Valid()
      requires source.Success? ==> WellFormed(source.value)
      modifies this
      ensures Valid() && csvPath == old(csvPath)
      ensures source.Success? ==> df == Some(source.value) && err == None
      ensures source.Failure? ==> df == old(df) && err == Some("Error loading CSV: " + source.error)
    {
      match source
      case Success(t) =>
        df := Some(t);
        err := None;
      case Failure(e) =>
        err := Some("Error loading CSV: " + e);
    }

    /** `get_info` */
    function GetInfo(): (r: Payload)
      reads this
      ensures df.None? ==> r == Error("No data loaded")
      ensures df.Some? ==>
        && r.Info?
        && r.shape == (|df.value.rows|, |df.value.columns|)
        && r.columns == df.value.columns
        && r.dtypes == df.value.dtypes
        && IsHead(r.sampleData, df.value.rows, SampleSize)
    {
      match df
      case None => Error("No data loaded")
      case Some(t) => Info((|t.rows|, |t.columns|), t.columns, t.dtypes, Head(t.rows, SampleSize))
    }

    /** `get_summary_stats`; the `describe()` figures themselves are not modelled. */
    function GetSummaryStats(): (r: Payload)
      reads this
      ensures df.None? ==> r == Error("No data loaded")
      ensures df.Some? ==>
        (r == Message("No numeric columns found") <==>
          forall c :: c in df.value.columns ==> !IsNumericIn(df.value)(c))
      ensures df.Some? ==> r.Message? || r.Stats?
      ensures r.Stats? ==>
        r.numericColumns != [] &&
        forall c :: c in r.numericColumns <==> c in df.value.columns && IsNumericIn(df.value)(c)
    {
      match df
      case None => Error("No data loaded")
      case Some(t) =>
        var numeric := Select(t.columns, IsNumericIn(t));
        if numeric == [] then
          assert forall c :: c in t.columns ==> !IsNumericIn(t)(c) by {
            forall c | c in t.columns ensures !IsNumericIn(t)(c) {
              assert multiset(numeric)[c] == 0;
            }
          }
          Message("No numeric columns found")
        else
          assert forall c :: c in t.columns && IsNumericIn(t)(c) ==> c in numeric by {
            forall c | c in t.columns && IsNumericIn(t)(c) ensures c in numeric {
              assert multiset(numeric)[c] == multiset(t.columns)[c];
            }
          }
          Stats(numeric)
    }

    /** `query_data`: `result_count` counts every matching row, `data` holds at most 10. */
    function QueryData(query: string, engine: QueryEngine): (r: Payload)
      reads this
      ensures df.None? ==> r == Error("Query error: " + NoQueryAttribute)
      ensures df.Some? && engine(query).Failure? ==> r == Error("Query error: " + engine(query).error)
      ensures df.Some? && engine(query).Success? ==>
        var matching := Select(df.value.rows, engine(query).value);
        && r.QueryResult? && r.query == query && r.resultCount == |matching|
        && IsHead(r.data, matching, RowLimit)
    {
      match df
      case None => Error("Query error: " + NoQueryAttribute)
      case Some(t) =>
        match engine(query)
        case Failure(e) => Error("Query error: " + e)
        case Success(p) =>
          var matching := Select(t.rows, p);
          QueryResult(query, |matching|, Head(matching, RowLimit))
    }

    /** `filter_data` */
    function FilterData(column: string, value: string): (r: Payload)
      reads this
      requires Valid()
      ensures df.None? ==> r == Error("Filter error: " + NoColumnsAttribute)
      ensures df.Some? && column !in df.value.columns ==> r == Error("Column '" + column + "' not found")
      ensures df.Some? && column in df.value.columns ==>
        var matching := Select(df.value.rows, CellEquals(column, value, df.value.dtypes[column]));
        && r.FilterResult? && r.filter == column + " == " + value && r.resultCount == |matching|
        && IsHead(r.data, matching, RowLimit)
    {
      match df
      case None => Error("Filter error: " + NoColumnsAttribute)
      case Some(t) =>
        if column !in t.columns then Error("Column '" + column + "' not found")
        else
          var matching := Select(t.rows, CellEquals(column, value, t.dtypes[column]));
          FilterResult(column + " == " + value, |matching|, Head(matching, RowLimit))
    }

    /** `group_and_aggregate`: the group column is checked before the aggregation column, then
        the function name; what is left is the grouping `Grouped` states. */
    function GroupAndAggregate(groupBy: string, aggColumn: string, aggFunc: string, agg: AggFn): (r: Payload)
      reads this
      requires Valid()
      ensures df.None? ==> r == Error("Aggregation error: " + NoColumnsAttribute)
      ensures df.Some? && groupBy !in df.value.columns ==>
        r == Error("Group column '" + groupBy + "' not found")
      ensures df.Some? && groupBy in df.value.columns && aggColumn !in df.value.columns ==>
        r == Error("Aggregation column '" + aggColumn + "' not found")
      ensures df.Some? && groupBy in df.value.columns && aggColumn in df.value.columns && agg.resolve(aggFunc).Some? ==>
        r == Error("Aggregation error: " + agg.resolve(aggFunc).value)
      ensures df.Some? && groupBy in df.value.columns && aggColumn in df.value.columns && agg.resolve(aggFunc).None? ==>
        r == Grouped(df.value, groupBy, aggColumn, aggFunc, agg)
    {
      match df
      case None => Error("Aggregation error: " + NoColumnsAttribute)
      case Some(t) =>
        if groupBy !in t.columns then Error("Group column '" + groupBy + "' not found")
        else if aggColumn !in t.columns then Error("Aggregation column '" + aggColumn + "' not found")
        else
          match agg.resolve(aggFunc)
          case Some(e) => Error("Aggregation error: " + e)
          case None => Grouped(t, groupBy, aggColumn, aggFunc, agg)
    }

    /** `get_unique_values`: `unique_count` is not capped; the list is. */
    function GetUniqueValues(column: string): (r: Payload)
      reads this
      requires Valid()
      ensures df.None? ==> r == Error("Error getting unique values: " + NoColumnsAttribute)
      ensures df.Some? && column !in df.value.columns ==> r == Error("Column '" + column + "' not found")
      ensures df.Some? && column in df.value.columns ==>
        var cells := Cells(df.value.rows, column);
        && r.UniqueValues?
        && r.column == column
        && r.uniqueCount == |set v | v in cells|
        && IsHead(r.uniqueValues, Distinct(cells), UniqueLimit)
    {
      match df
      case None => Error("Error getting unique values: " + NoColumnsAttribute)
      case Some(t) =>
        if column !in t.columns then Error("Column '" + column + "' not found")
        else
          var distinct := Distinct(Cells(t.rows, column));
          DistinctCount(Cells(t.rows, column));
          UniqueValues(column, |distinct|, Head(distinct, UniqueLimit))
    }

    /** `search_text` */
    function SearchText(column: string, searchTerm: string): (r: Payload)
      reads this
      requires Valid()
      ensures df.None? ==> r == Error("Search error: " + NoColumnsAttribute)
      ensures df.Some? && column !in df.value.columns ==> r == Error("Column '" + column + "' not found")
      ensures df.Some? && column in df.value.columns ==>
        var matching := Select(df.value.rows, CellContains(column, Lower(searchTerm)));
        && r.SearchResult? && r.searchTerm == searchTerm && r.column == column && r.matches == |matching|
        && IsHead(r.data, matching, RowLimit)
    {
      match df
      case None => Error("Search error: " + NoColumnsAttribute)
      case Some(t) =>
        if column !in t.columns then Error("Column '" + column + "' not found")
        else
          var matching := Select(t.rows, CellContains(column, Lower(searchTerm)));
          SearchResult(searchTerm, column, |matching|, Head(matching, RowLimit))
    }
  }

  /** `CSVAnalyzer(csv_path)`: construct, then load; a failed load raises. */
  method Open(csvPath: string, source: Result<Table, string>) returns (r: Result<CSVAnalyzer, string>)
    requires source.Success? ==> WellFormed(source.value)
    ensures source.Success? ==>
      r.Success? && fresh(r.value) && r.value.Valid() && r.value.df == Some(source.value) && r.value.csvPath == csvPath
    ensures source.Failure? ==> r == Failure("Error loading CSV: " + source.error)
  {
    var a := new CSVAnalyzer(csvPath);
    var err := a.LoadCsv(source);
    match err
    case Some(e) => r := Failure(e);
    case None => r := Success(a);
  }

  /** The listed unique values have no repeats, and there are min(20, unique_count) of them. */
  lemma UniqueValuesBounded(a: CSVAnalyzer, column: string)
    requires a.Valid() && a.df.Some? && column in a.df.value.columns
    ensures var r := a.GetUniqueValues(column);
      && (forall i, j :: 0 <= i < j < |r.uniqueValues| ==> r.uniqueValues[i] != r.uniqueValues[j])
      && |r.uniqueValues| == Min(UniqueLimit, r.uniqueCount)
  {
    var cells := Cells(a.df.value.rows, column);
    var d := Distinct(cells);
    DistinctCount(cells);
    var r := a.GetUniqueValues(column);
    assert r.uniqueValues == d[..|r.uniqueValues|];
  }

  /** Upper-casing a text and then lower-casing it is the same as lower-casing it. */
  lemma LowerOfUpper(s: string)
    ensures Lower(Upper(s)) == Lower(s)
  {
    forall i | 0 <= i < |s| ensures Lower(Upper(s))[i] == Lower(s)[i] {
      assert Upper(s)[i] == UpperChar(s[i]);
    }
  }

  /** `search_text` ignores the case of the search term: searching for the term in
      upper case finds the same rows. */
  lemma SearchIgnoresTermCase(a: CSVAnalyzer, column: string, term: string)
    requires a.Valid() && a.df.Some? && column in a.df.value.columns
    ensures a.SearchText(column, Upper(term)).matches == a.SearchText(column, term).matches
    ensures a.SearchText(column, Upper(term)).data == a.SearchText(column, term).data
  {
    LowerOfUpper(term);
  }

  /** `df[c] == value` on a bool column compares `True`/`False` with a string, so filtering
      such a column by any text matches no row. */
  lemma FilterBoolColumnMatchesNothing(a: CSVAnalyzer, column: string, value: string)
    requires a.Valid() && a.df.Some? && column in a.df.value.columns
    requires column in a.df.value.dtypes && a.df.value.dtypes[column] == Boolean
    ensures a.FilterData(column, value).FilterResult?
    ensures a.FilterData(column, value).resultCount == 0 && a.FilterData(column, value).data == []
  {
  }
}
