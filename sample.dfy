/** The dataset `generate_sample_csv` writes, and what the report says
    about it. */
module Sample {
  import opened Optional
  import opened PyInt
  import opened OrderedDict
  import opened CrimeData
  import opened Report

  /** One data row of `generate_sample_csv`, before it is written. */
  datatype Record = Record(city: string, violent: int, property: int, drug: int)

  /** The rows `generate_sample_csv` writes under the header row. */
  const SampleData: seq<Record> := [
    Record("New York", 500, 3000, 200),
    Record("Los Angeles", 800, 2500, 300),
    Record("Chicago", 600, 2000, 250),
    Record("Houston", 400, 1500, 150),
    Record("Phoenix", 300, 1200, 100)]

  /** A record as `csv.writer` writes it and `csv.DictReader` reads it
      back: each count is the text `str` gives it. */
  function Written(r: Record): Row {
    Row(r.city, IntToString(r.violent), IntToString(r.property), IntToString(r.drug))
  }

  function WrittenRows(records: seq<Record>): (rows: seq<Row>)
    ensures |rows| == |records|
  {
    seq(|records|, k requires 0 <= k < |records| => Written(records[k]))
  }

  function Value(r: Record, c: Category): int {
    Column(c, r.violent, r.property, r.drug)
  }

  function ColumnSum(records: seq<Record>, c: Category): int {
    if records == [] then 0 else ColumnSum(records[..|records| - 1], c) + Value(records[|records| - 1], c)
  }

  /** A written row reads back as the numbers it was written from. */
  lemma WrittenCounts(r: Record)
    ensures WellFormed(Written(r))
    ensures forall c :: Count(Written(r), c) == Value(r, c)
  {
    ParseIntOfString(r.violent);
    ParseIntOfString(r.property);
    ParseIntOfString(r.drug);
  }

  /** Written records read back whole: every row parses and each column
      sums to what was written. */
  lemma {:induction false} WrittenRowSums(records: seq<Record>)
    ensures AllWellFormed(WrittenRows(records))
    ensures forall c :: RowSum(WrittenRows(records), c) == ColumnSum(records, c)
  {
    var rows := WrittenRows(records);
    forall k | 0 <= k < |rows|
      ensures WellFormed(rows[k])
    {
      WrittenCounts(records[k]);
    }
    if records != [] {
      var init := records[..|records| - 1];
      WrittenRowSums(init);
      assert rows[..|rows| - 1] == WrittenRows(init);
      AllWellFormedSplit(rows);
      WrittenCounts(records[|records| - 1]);
    }
  }

  lemma {:induction false} WrittenCities(records: seq<Record>)
    ensures Cities(WrittenRows(records)) == seq(|records|, k requires 0 <= k < |records| => records[k].city)
  {
  }

  const SampleCities: seq<string> := ["New York", "Los Angeles", "Chicago", "Houston", "Phoenix"]

  lemma ColumnSumPrefix(records: seq<Record>, k: nat, c: Category)
    requires k < |records|
    ensures ColumnSum(records[..k + 1], c) == ColumnSum(records[..k], c) + Value(records[k], c)
  {
    assert records[..k + 1][..k] == records[..k];
  }

  lemma SampleColumns()
    ensures ColumnSum(SampleData, ViolentCrime) == 2600
    ensures ColumnSum(SampleData, PropertyCrime) == 10200
    ensures ColumnSum(SampleData, DrugOffenses) == 1000
  {
    var d := SampleData;
    forall c
      ensures ColumnSum(d, c) ==
        Value(d[0], c) + Value(d[1], c) + Value(d[2], c) + Value(d[3], c) + Value(d[4], c)
    {
      assert d[..0] == [];
      ColumnSumPrefix(d, 0, c);
      ColumnSumPrefix(d, 1, c);
      ColumnSumPrefix(d, 2, c);
      ColumnSumPrefix(d, 3, c);
      ColumnSumPrefix(d, 4, c);
      assert d[..5] == d;
    }
  }

  /** A list without repetitions is its own first-seen order. */
  lemma {:induction false} FirstSeenOfDistinct(s: seq<string>)
    requires Distinct(s)
    ensures FirstSeen(s) == s
  {
    if s != [] {
      var init := s[..|s| - 1];
      FirstSeenOfDistinct(init);
      assert s[|s| - 1] !in init;
    }
  }

  /** The rows of written records are those records' cities and counts:
      the aggregation succeeds, lists each city once in first-seen order,
      and each total is the column's sum over the records. */
  lemma RecordsReport(records: seq<Record>)
    ensures Aggregate(WrittenRows(records)).Some?
    ensures var data := Aggregate(WrittenRows(records)).value;
      data.keys == FirstSeen(seq(|records|, k requires 0 <= k < |records| => records[k].city)) &&
      forall c :: Total(data, c) == ColumnSum(records, c)
  {
    var rows := WrittenRows(records);
    WrittenRowSums(records);
    AggregateSucceedsIff(rows);
    var data := Aggregate(rows).value;
    TotalsMatchRows(rows, data);
    AggregateKeys(rows, data);
    WrittenCities(records);
  }

  // The sample lemmas take the records as a parameter equal to
  // `SampleData`, and the digit lemmas take a number equal to the
  // literal, rather than writing the literal in the statement: the
  // verifier unfolds recursive functions eagerly on literal arguments,
  // which makes these proofs slow.

  lemma SampleDataCities(records: seq<Record>)
    requires records == SampleData
    ensures seq(|records|, k requires 0 <= k < |records| => records[k].city) == SampleCities
    ensures Distinct(SampleCities)
  {
  }

  /** The sample yields its five cities, each once and in file order, and
      the totals 2600, 10200 and 1000. */
  lemma SampleReport(records: seq<Record>)
    requires records == SampleData
    ensures Aggregate(WrittenRows(records)).Some?
    ensures var data := Aggregate(WrittenRows(records)).value;
      data.keys == SampleCities &&
      Total(data, ViolentCrime) == 2600 && Total(data, PropertyCrime) == 10200 &&
      Total(data, DrugOffenses) == 1000
  {
    RecordsReport(records);
    SampleColumns();
    SampleDataCities(records);
    FirstSeenOfDistinct(SampleCities);
  }

  lemma Digits2600(n: int)
    requires n == 2600
    ensures IntToString(n) == "2600"
  {
    assert IntToString(2600) == "2600";
  }

  lemma Digits10200(n: int)
    requires n == 10200
    ensures IntToString(n) == "10200"
  {
    assert IntToString(10200) == "10200";
  }

  lemma Digits1000(n: int)
    requires n == 1000
    ensures IntToString(n) == "1000"
  {
    assert IntToString(1000) == "1000";
  }

  lemma Digits0(n: int)
    requires n == 0
    ensures IntToString(n) == "0"
  {
  }

  /** The summary the sample's report prints. */
  lemma SampleSummary(records: seq<Record>)
    requires records == SampleData
    ensures Aggregate(WrittenRows(records)).Some?
    ensures SummaryLines(Aggregate(WrittenRows(records)).value) ==
      ["Overall Crime Totals:",
       "Total Violent Crimes reported: 2600",
       "Total Property Crimes reported: 10200",
       "Total Drug Offenses reported: 1000"]
  {
    SampleReport(records);
    SampleTotalsText(Aggregate(WrittenRows(records)).value);
  }

  lemma SampleTotalsText(data: CityTable)
    requires Total(data, ViolentCrime) == 2600 && Total(data, PropertyCrime) == 10200
    requires Total(data, DrugOffenses) == 1000
    ensures SummaryLines(data) ==
      ["Overall Crime Totals:",
       "Total Violent Crimes reported: 2600",
       "Total Property Crimes reported: 10200",
       "Total Drug Offenses reported: 1000"]
  {
    var violent, property, drug := Total(data, ViolentCrime), Total(data, PropertyCrime), Total(data, DrugOffenses);
    SummaryOfTotals(data, violent, property, drug);
    Digits2600(violent);
    Digits10200(property);
    Digits1000(drug);
    SummaryWords("2600", "10200", "1000");
    assert "Total Violent Crimes reported: " + "2600" == "Total Violent Crimes reported: 2600";
    assert "Total Property Crimes reported: " + "10200" == "Total Property Crimes reported: 10200";
    assert "Total Drug Offenses reported: " + "1000" == "Total Drug Offenses reported: 1000";
  }

  /** The summary labels, each followed by the digits of its total. */
  lemma SummaryWords(violent: string, property: string, drug: string)
    ensures [SummaryHeading,
             SummaryLabel(ViolentCrime) + violent,
             SummaryLabel(PropertyCrime) + property,
             SummaryLabel(DrugOffenses) + drug] ==
      ["Overall Crime Totals:",
       "Total Violent Crimes reported: " + violent,
       "Total Property Crimes reported: " + property,
       "Total Drug Offenses reported: " + drug]
  {
  }

  /** An empty file gives an empty table, a breakdown with only its heading
      and three totals of 0. */
  lemma EmptyReport()
    ensures Aggregate([]) == Some(Empty())
    ensures ReportBody(Empty()) == [BreakdownHeading]
    ensures SummaryLines(Empty()) ==
      ["Overall Crime Totals:",
       "Total Violent Crimes reported: 0",
       "Total Property Crimes reported: 0",
       "Total Drug Offenses reported: 0"]
  {
    var none: CityTable := Empty();
    assert CityBlocks(none, []) == [];
    var violent, property, drug := Total(none, ViolentCrime), Total(none, PropertyCrime), Total(none, DrugOffenses);
    SummaryOfTotals(none, violent, property, drug);
    Digits0(violent);
    Digits0(property);
    Digits0(drug);
    SummaryWords("0", "0", "0");
    assert "Total Violent Crimes reported: " + "0" == "Total Violent Crimes reported: 0";
    assert "Total Property Crimes reported: " + "0" == "Total Property Crimes reported: 0";
    assert "Total Drug Offenses reported: " + "0" == "Total Drug Offenses reported: 0";
  }
}
