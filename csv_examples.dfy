/** A worked example (three rows of university enrolment
    figures), run through the analyzer's queries. */
module CsvExamples {
  import opened Wrappers
  import opened Text
  import opened Seqs
  import opened CsvTools

  /** The three-row example table. */
  const ExampleRow0: Row := map["university_name" := "A", "year" := "2020", "Total" := "100"]
  const ExampleRow1: Row := map["university_name" := "B", "year" := "2020", "Total" := "200"]
  const ExampleRow2: Row := map["university_name" := "A", "year" := "2021", "Total" := "150"]

  function ExampleTable(): Table {
    Table(["university_name", "year", "Total"],
          map["university_name" := NonNumeric, "year" := Numeric, "Total" := Numeric],
          [ExampleRow0, ExampleRow1, ExampleRow2])
  }

  const ExampleColumns: set<string> := {"university_name", "year", "Total"}

  lemma ExampleColumnSet()
    ensures ColumnSet(ExampleTable()) == ExampleColumns
    ensures ExampleTable().dtypes.Keys == ExampleColumns
  {
    var t := ExampleTable();
    assert forall c :: c in t.columns <==> c in ExampleColumns;
  }

  lemma ExampleRowKeys()
    ensures ExampleRow0.Keys == ExampleColumns
    ensures ExampleRow1.Keys == ExampleColumns
    ensures ExampleRow2.Keys == ExampleColumns
  {
  }

  lemma ExampleDistinctColumns()
    ensures forall i, j :: 0 <= i < j < |ExampleTable().columns| ==> ExampleTable().columns[i] != ExampleTable().columns[j]
  {
    var cs := ExampleTable().columns;
    assert cs[0][0] == 'u' && cs[1][0] == 'y' && cs[2][0] == 'T';
  }

  lemma ExampleWellFormed()
    ensures WellFormed(ExampleTable())
  {
    ExampleColumnSet();
    ExampleRowKeys();
    ExampleDistinctColumns();
  }

  const ExampleYearCells: seq<string> := ["2020", "2020", "2021"]

  lemma ExampleYears()
    ensures Cells(ExampleTable().rows, "year") == ExampleYearCells
  {
    var cs := Cells(ExampleTable().rows, "year");
    assert |cs| == 3;
    assert cs[0] == ExampleRow0["year"] == "2020";
    assert cs[1] == ExampleRow1["year"] == "2020";
    assert cs[2] == ExampleRow2["year"] == "2021";
  }

  lemma ExampleDistinctYears()
    ensures Distinct(ExampleYearCells) == ["2020", "2021"]
  {
    var years := ExampleYearCells;
    var y1: seq<string>, y2: seq<string> := ["2020"], ["2020", "2020"];
    assert y1[..0] == [] && Distinct(y1) == ["2020"];
    assert y2[..1] == y1 && Distinct(y2) == ["2020"];
    assert years[..2] == y2;
  }

  lemma ExampleYearCount()
    ensures |set v | v in ExampleYearCells| == 2
  {
    assert (set v | v in ExampleYearCells) == {"2020", "2021"};
  }

  /** On the worked example, the years are listed once each, in first-seen order,
      and counted without a cap. */
  lemma ExampleUniqueYears(a: CSVAnalyzer)
    requires a.df == Some(ExampleTable())
    ensures a.Valid()
    ensures a.GetUniqueValues("year") == UniqueValues("year", 2, ["2020", "2021"])
  {
    ExampleWellFormed();
    assert ExampleTable().columns[1] == "year";
    ExampleYears();
    ExampleDistinctYears();
    ExampleYearCount();
  }

  lemma ExampleGroupMembership()
    ensures InGroup("year", "2020")(ExampleRow0) && InGroup("year", "2020")(ExampleRow1)
    ensures !InGroup("year", "2020")(ExampleRow2)
    ensures InGroup("year", "2021")(ExampleRow2)
    ensures !InGroup("year", "2021")(ExampleRow0) && !InGroup("year", "2021")(ExampleRow1)
  {
    assert ExampleRow0["year"] == "2020" && ExampleRow1["year"] == "2020" && ExampleRow2["year"] == "2021";
  }

  lemma ExampleGroup2020Rows()
    ensures Select(ExampleTable().rows, InGroup("year", "2020")) == [ExampleRow0, ExampleRow1]
  {
    var r0, r1, r2 := ExampleRow0, ExampleRow1, ExampleRow2;
    var p := InGroup("year", "2020");
    assert p(r0) && p(r1) && !p(r2) by { ExampleGroupMembership(); }
    assert ExampleTable().rows == [r0, r1, r2];
    assert Select([r2], p) == [] by { assert [r2][1..] == []; }
    assert Select([r1, r2], p) == [r1] by { assert [r1, r2][1..] == [r2]; }
    assert Select([r0, r1, r2], p) == [r0, r1] by { assert [r0, r1, r2][1..] == [r1, r2]; }
  }

  lemma ExampleGroup2021Rows()
    ensures Select(ExampleTable().rows, InGroup("year", "2021")) == [ExampleRow2]
  {
    var r0, r1, r2 := ExampleRow0, ExampleRow1, ExampleRow2;
    var p := InGroup("year", "2021");
    assert !p(r0) && !p(r1) && p(r2) by { ExampleGroupMembership(); }
    assert ExampleTable().rows == [r0, r1, r2];
    assert Select([r2], p) == [r2] by { assert [r2][1..] == []; }
    assert Select([r1, r2], p) == [r2] by { assert [r1, r2][1..] == [r2]; }
    assert Select([r0, r1, r2], p) == [r2] by { assert [r0, r1, r2][1..] == [r1, r2]; }
  }

  lemma ExampleTotalCells()
    ensures Cells([ExampleRow0, ExampleRow1], "Total") == ["100", "200"]
    ensures Cells([ExampleRow2], "Total") == ["150"]
  {
    assert ExampleRow0["Total"] == "100" && ExampleRow1["Total"] == "200" && ExampleRow2["Total"] == "150";
  }

  lemma ExampleTotals2020()
    ensures WellFormed(ExampleTable())
    ensures GroupValues(ExampleTable(), "year", "2020", "Total") == ["100", "200"]
  {
    ExampleWellFormed();
    assert ExampleTable().columns[2] == "Total";
    ExampleGroup2020Rows();
    ExampleTotalCells();
  }

  lemma ExampleTotals2021()
    ensures WellFormed(ExampleTable())
    ensures GroupValues(ExampleTable(), "year", "2021", "Total") == ["150"]
  {
    ExampleWellFormed();
    assert ExampleTable().columns[2] == "Total";
    ExampleGroup2021Rows();
    ExampleTotalCells();
  }

  /** On the worked example, each year group holds the totals of that year's rows:
      the values a `mean` aggregation of Total by year averages. */
  lemma ExampleYearGroups()
    ensures WellFormed(ExampleTable())
    ensures GroupValues(ExampleTable(), "year", "2020", "Total") == ["100", "200"]
    ensures GroupValues(ExampleTable(), "year", "2021", "Total") == ["150"]
  {
    ExampleTotals2020();
    ExampleTotals2021();
  }

  /** On the worked example, an aggregation name pandas does not know fails with its
      error, although every group is non-empty and no group values are looked at. */
  lemma ExampleUnknownFunction(a: CSVAnalyzer, agg: AggFn, f: string)
    requires a.df == Some(ExampleTable())
    requires agg.resolve(f).Some?
    ensures a.Valid()
    ensures a.GroupAndAggregate("year", "Total", f, agg) == Error("Aggregation error: " + agg.resolve(f).value)
  {
    ExampleWellFormed();
    assert ExampleTable().columns[1] == "year" && ExampleTable().columns[2] == "Total";
  }

  lemma ExampleNameMatches()
    ensures CellContains("university_name", "a")(ExampleRow0)
    ensures !CellContains("university_name", "a")(ExampleRow1)
    ensures CellContains("university_name", "a")(ExampleRow2)
  {
    var A: string, B: string := "A", "B";
    assert Lower(A) == "a" && Lower(B) == "b";
    assert StartsWith("a", "a");
    var b: string := "b";
    assert b[1..] == "" && !Contains("", "a");
    assert b[..1] != "a" by { assert b[..1][0] == 'b'; }
    assert !Contains(b, "a");
  }

  lemma ExampleSearchRows()
    ensures Select(ExampleTable().rows, CellContains("university_name", "a")) == [ExampleRow0, ExampleRow2]
  {
    var p := CellContains("university_name", "a");
    var r0, r1, r2 := ExampleRow0, ExampleRow1, ExampleRow2;
    assert p(r0) && !p(r1) && p(r2) by { ExampleNameMatches(); }
    assert ExampleTable().rows == [r0, r1, r2];
    assert Select([r2], p) == [r2] by { assert [r2][1..] == []; }
    assert Select([r1, r2], p) == [r2] by { assert [r1, r2][1..] == [r2]; }
    assert Select([r0, r1, r2], p) == [r0, r2] by { assert [r0, r1, r2][1..] == [r1, r2]; }
  }

  /** On the worked example, a search for "a" ignores case and finds both "A" rows. */
  lemma ExampleSearch(a: CSVAnalyzer)
    requires a.df == Some(ExampleTable())
    ensures a.Valid()
    ensures a.SearchText("university_name", "a").matches == 2
  {
    ExampleWellFormed();
    assert ExampleTable().columns[0] == "university_name";
    assert Lower("a") == "a";
    ExampleSearchRows();
  }
}
