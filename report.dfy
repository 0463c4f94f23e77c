/** The text the PDF report writes from the aggregated table: the
    per-city breakdown of `PDFReport.report_body` and the totals of
    `PDFReport.add_summary`. */
module Report {
  import opened Optional
  import opened PyInt
  import opened OrderedDict
  import opened CrimeData

  /** `crimes[category]` for the city's counts, 0 for a city not in `entries`. */
  function CategoryCount(entries: map<string, Crimes>, city: string, category: Category): int {
    if city in entries then Get(entries[city], category, 0) else 0
  }

  /** The sum of `category` over the counts of `cities`. */
  function SumOver(cities: seq<string>, entries: map<string, Crimes>, category: Category): int {
    if cities == [] then 0
    else SumOver(cities[..|cities| - 1], entries, category) + CategoryCount(entries, cities[|cities| - 1], category)
  }

  /** `sum(crimes[category] for crimes in city_crime_data.values())`. */
  function Total(data: CityTable, category: Category): int {
    SumOver(data.keys, data.entries, category)
  }

  lemma {:induction false} SumOverSameCounts(cities: seq<string>, m1: map<string, Crimes>, m2: map<string, Crimes>, category: Category)
    requires forall c :: c in cities ==> CategoryCount(m1, c, category) == CategoryCount(m2, c, category)
    ensures SumOver(cities, m1, category) == SumOver(cities, m2, category)
  {
    if cities != [] {
      var init := cities[..|cities| - 1];
      assert forall c :: c in init ==> c in cities;
      SumOverSameCounts(init, m1, m2, category);
    }
  }

  lemma {:induction false} SumOverUpdate(cities: seq<string>, m: map<string, Crimes>, k: string, x: Crimes, category: Category)
    requires Distinct(cities) && k in cities
    ensures SumOver(cities, m[k := x], category) ==
      SumOver(cities, m, category) - CategoryCount(m, k, category) + Get(x, category, 0)
  {
    var init, last := cities[..|cities| - 1], cities[|cities| - 1];
    assert cities == init + [last];
    if last == k {
      assert k !in init;
      SumOverSameCounts(init, m[k := x], m, category);
    } else {
      assert k in init;
      SumOverUpdate(init, m, k, x, category);
    }
  }

  /** How `d[k] = x` changes a total: the old counts of `k` are replaced by `x`'s. */
  lemma TotalAfterPut(data: CityTable, k: string, x: Crimes, category: Category)
    requires Valid(data)
    ensures Total(Put(data, k, x), category) ==
      Total(data, category) - CategoryCount(data.entries, k, category) + Get(x, category, 0)
  {
    if k in data.keys {
      SumOverUpdate(data.keys, data.entries, k, x, category);
    } else {
      var next := Put(data, k, x);
      assert next.keys[..|next.keys| - 1] == data.keys;
      SumOverSameCounts(data.keys, next.entries, data.entries, category);
    }
  }

  /** The count `column` picks out of one row's three counts. */
  function Column(category: Category, violent: int, property: int, drug: int): int {
    match category
    case ViolentCrime => violent
    case PropertyCrime => property
    case DrugOffenses => drug
  }

  lemma ColumnOfRow(row: Row, category: Category)
    requires WellFormed(row)
    ensures Column(category, Count(row, ViolentCrime), Count(row, PropertyCrime), Count(row, DrugOffenses))
      == Count(row, category)
  {
  }

  /** The three additions of one row raise each column's total by that
      row's count for the column. */
  lemma TotalAfterAdd(prev: CityTable, city: string, violent: int, property: int, drug: int,
                      next: CityTable, category: Category)
    requires Valid(prev)
    requires next == Put(prev, city, AddCounts(Get(prev, city, Empty()), violent, property, drug))
    ensures Total(next, category) == Total(prev, category) + Column(category, violent, property, drug)
  {
    var prior := Get(prev, city, Empty());
    var x := AddCounts(prior, violent, property, drug);
    assert Get(x, category, 0) == Get(prior, category, 0) + Column(category, violent, property, drug) by {
      AddCountsEffect(prior, violent, property, drug);
    }
    assert Total(next, category) ==
      Total(prev, category) - CategoryCount(prev.entries, city, category) + Get(x, category, 0) by {
      TotalAfterPut(prev, city, x, category);
    }
    assert CategoryCount(prev.entries, city, category) == Get(prior, category, 0);
  }

  /** One row raises each category total by that row's count. */
  lemma TotalAfterStep(prev: CityTable, row: Row, data: CityTable, category: Category)
    requires Valid(prev) && Step(prev, row) == Some(data)
    ensures WellFormed(row)
    ensures Total(data, category) == Total(prev, category) + Count(row, category)
  {
    TotalAfterAdd(prev, row.city, Count(row, ViolentCrime), Count(row, PropertyCrime),
      Count(row, DrugOffenses), data, category);
    ColumnOfRow(row, category);
  }

  lemma RowSumOfLast(rows: seq<Row>, category: Category)
    requires AllWellFormed(rows) && rows != []
    ensures AllWellFormed(rows[..|rows| - 1]) && WellFormed(rows[|rows| - 1])
    ensures RowSum(rows, category) == RowSum(rows[..|rows| - 1], category) + Count(rows[|rows| - 1], category)
  {
    AllWellFormedSplit(rows);
  }

  /** Each summary total equals the sum of that column over all the raw
      rows; the sum over cities regroups the same rows. */
  lemma {:induction false} TotalsMatchRows(rows: seq<Row>, data: CityTable)
    requires Aggregate(rows) == Some(data)
    ensures AllWellFormed(rows)
    ensures forall category :: Total(data, category) == RowSum(rows, category)
  {
    AggregateSucceedsIff(rows);
    if rows != [] {
      var init := rows[..|rows| - 1];
      match Aggregate(init)
      case Some(prev) =>
        TotalsMatchRows(init, prev);
        forall category
          ensures Total(data, category) == RowSum(rows, category)
        {
          var last := rows[|rows| - 1];
          AllWellFormedSplit(rows);
          assert Total(data, category) == Total(prev, category) + Count(last, category) by {
            TotalAfterStep(prev, last, data, category);
          }
          assert RowSum(rows, category) == RowSum(init, category) + Count(last, category) by {
            RowSumOfLast(rows, category);
          }
        }
    }
  }

  const SummaryHeading: string := "Overall Crime Totals:"

  /** The text before a category's total in `add_summary`. */
  function SummaryLabel(category: Category): string {
    match category
    case ViolentCrime => "Total Violent Crimes reported: "
    case PropertyCrime => "Total Property Crimes reported: "
    case DrugOffenses => "Total Drug Offenses reported: "
  }

  /** One total line of `add_summary`. */
  function SummaryLine(data: CityTable, category: Category): string {
    SummaryLabel(category) + IntToString(Total(data, category))
  }

  /** The lines `add_summary` writes. */
  function SummaryLines(data: CityTable): seq<string> {
    [SummaryHeading,
     SummaryLine(data, ViolentCrime), SummaryLine(data, PropertyCrime), SummaryLine(data, DrugOffenses)]
  }

  /** The summary is the heading and then one line per category, in
      column order, each ending in the total of that column over the raw
      rows. */
  lemma SummaryOfRows(rows: seq<Row>, data: CityTable)
    requires Aggregate(rows) == Some(data)
    ensures AllWellFormed(rows)
    ensures SummaryLines(data) ==
      [SummaryHeading,
       SummaryLabel(ViolentCrime) + IntToString(RowSum(rows, ViolentCrime)),
       SummaryLabel(PropertyCrime) + IntToString(RowSum(rows, PropertyCrime)),
       SummaryLabel(DrugOffenses) + IntToString(RowSum(rows, DrugOffenses))]
  {
    TotalsMatchRows(rows, data);
    SummaryOfTotals(data, RowSum(rows, ViolentCrime), RowSum(rows, PropertyCrime), RowSum(rows, DrugOffenses));
  }

  /** The summary for given totals. */
  lemma SummaryOfTotals(data: CityTable, violent: int, property: int, drug: int)
    requires Total(data, ViolentCrime) == violent
    requires Total(data, PropertyCrime) == property
    requires Total(data, DrugOffenses) == drug
    ensures SummaryLines(data) ==
      [SummaryHeading,
       SummaryLabel(ViolentCrime) + IntToString(violent),
       SummaryLabel(PropertyCrime) + IntToString(property),
       SummaryLabel(DrugOffenses) + IntToString(drug)]
  {
  }

  /** The number after a summary label is written so that `int(...)`
      reads the same total back. */
  lemma SummaryLineReadsBack(data: CityTable, category: Category)
    ensures ParseInt(SummaryLine(data, category)[|SummaryLabel(category)|..]) == Some(Total(data, category))
  {
    var n := Total(data, category);
    assert SummaryLine(data, category)[|SummaryLabel(category)|..] == IntToString(n);
    ParseIntOfString(n);
  }

  const BreakdownHeading: string := "Crime Data Breakdown by City:"

  /** One line of the inner loop of `report_body`: a category and its count. */
  function IncidentLine(category: Category, count: int): string {
    "- " + Name(category) + ": " + IntToString(count) + " incidents"
  }

  /** The inner loop of `report_body` over `crimes.items()`, for the given keys. */
  function IncidentLines(crimes: Crimes, categories: seq<Category>): seq<string> {
    if categories == [] then []
    else
      var last := categories[|categories| - 1];
      IncidentLines(crimes, categories[..|categories| - 1]) + [IncidentLine(last, Get(crimes, last, 0))]
  }

  /** The lines `report_body` writes for one city: its name, then its counts. */
  function CityBlock(data: CityTable, city: string): seq<string> {
    var crimes := Get(data, city, Empty());
    [city] + IncidentLines(crimes, crimes.keys)
  }

  /** The blocks of lines laid end to end. */
  function Flatten(blocks: seq<seq<string>>): seq<string> {
    if blocks == [] then []
    else Flatten(blocks[..|blocks| - 1]) + blocks[|blocks| - 1]
  }

  /** The outer loop of `report_body` over the given cities: each city's
      block, in the given order. */
  function CityLines(data: CityTable, cities: seq<string>): seq<string> {
    Flatten(CityBlocks(data, cities))
  }

  function CityBlocks(data: CityTable, cities: seq<string>): (r: seq<seq<string>>)
    ensures |r| == |cities|
  {
    seq(|cities|, k requires 0 <= k < |cities| => CityBlock(data, cities[k]))
  }

  /** The text lines `report_body` writes, in order. */
  function ReportBody(data: CityTable): seq<string> {
    [BreakdownHeading] + CityLines(data, data.keys)
  }

  /** A city whose counts have exactly the three categories gets a block of
      four lines: its name, then one line per category in column order. */
  lemma CityBlockOfCategories(data: CityTable, city: string)
    requires Get(data, city, Empty()).keys == Categories
    ensures var crimes := Get(data, city, Empty());
      CityBlock(data, city) ==
        [city,
         IncidentLine(ViolentCrime, Get(crimes, ViolentCrime, 0)),
         IncidentLine(PropertyCrime, Get(crimes, PropertyCrime, 0)),
         IncidentLine(DrugOffenses, Get(crimes, DrugOffenses, 0))]
  {
    var crimes := Get(data, city, Empty());
    var one := [ViolentCrime];
    var two := [ViolentCrime, PropertyCrime];
    assert one[..0] == [];
    assert two[..1] == one;
    assert Categories[..2] == two;
    var v := IncidentLine(ViolentCrime, Get(crimes, ViolentCrime, 0));
    var p := IncidentLine(PropertyCrime, Get(crimes, PropertyCrime, 0));
    var d := IncidentLine(DrugOffenses, Get(crimes, DrugOffenses, 0));
    assert IncidentLines(crimes, one) == [v];
    assert IncidentLines(crimes, two) == [v, p];
    assert IncidentLines(crimes, Categories) == [v, p, d];
  }

  /** Blocks of four lines laid end to end: lines `4 * k` to `4 * k + 3`
      are block `k`. */
  lemma {:induction false} FlattenLayout(blocks: seq<seq<string>>)
    requires forall k :: 0 <= k < |blocks| ==> |blocks[k]| == 4
    ensures |Flatten(blocks)| == 4 * |blocks|
    ensures forall k :: 0 <= k < |blocks| ==> Flatten(blocks)[4 * k..4 * k + 4] == blocks[k]
  {
    if blocks != [] {
      var init := blocks[..|blocks| - 1];
      FlattenLayout(init);
      var lines := Flatten(blocks);
      forall k | 0 <= k < |blocks|
        ensures lines[4 * k..4 * k + 4] == blocks[k]
      {
        if k < |init| {
          assert lines[4 * k..4 * k + 4] == Flatten(init)[4 * k..4 * k + 4];
          assert init[k] == blocks[k];
        }
      }
    }
  }

  lemma SliceAfterHeading(heading: string, lines: seq<string>, i: nat, j: nat)
    requires i <= j <= |lines|
    ensures ([heading] + lines)[i + 1..j + 1] == lines[i..j]
  {
  }

  /** The block the breakdown should show for `city`, read straight off
      the raw rows: the name, then each column's sum over the city's rows. */
  function RowsBlock(rows: seq<Row>, city: string): seq<string>
    requires AllWellFormed(rows)
  {
    [city,
     IncidentLine(ViolentCrime, CitySum(rows, city, ViolentCrime)),
     IncidentLine(PropertyCrime, CitySum(rows, city, PropertyCrime)),
     IncidentLine(DrugOffenses, CitySum(rows, city, DrugOffenses))]
  }

  /** Each aggregated city's block is the one its rows call for. */
  lemma CityBlockOfRows(rows: seq<Row>, data: CityTable, city: string)
    requires Aggregate(rows) == Some(data) && city in data.entries
    ensures AllWellFormed(rows)
    ensures CityBlock(data, city) == RowsBlock(rows, city)
  {
    AggregateShape(rows, data);
    AggregateCounts(rows, data);
    CityBlockOfCategories(data, city);
  }

  /** The breakdown is the heading and then, for each city in order of
      first appearance in the rows, four lines: the city's name and its
      three category counts, each the sum of that column over the city's
      rows. */
  lemma BreakdownOfRows(rows: seq<Row>, data: CityTable)
    requires Aggregate(rows) == Some(data)
    ensures AllWellFormed(rows)
    ensures |ReportBody(data)| == 1 + 4 * |data.keys| && ReportBody(data)[0] == BreakdownHeading
    ensures forall k :: 0 <= k < |data.keys| ==>
      ReportBody(data)[1 + 4 * k..5 + 4 * k] == RowsBlock(rows, data.keys[k])
  {
    AggregateSucceedsIff(rows);
    var cities := data.keys;
    var blocks := CityBlocks(data, cities);
    forall k | 0 <= k < |cities|
      ensures blocks[k] == RowsBlock(rows, cities[k])
    {
      CityBlockOfRows(rows, data, cities[k]);
    }
    FlattenLayout(blocks);
    var body := ReportBody(data);
    forall k | 0 <= k < |cities|
      ensures body[1 + 4 * k..5 + 4 * k] == RowsBlock(rows, cities[k])
    {
      SliceAfterHeading(BreakdownHeading, Flatten(blocks), 4 * k, 4 * k + 4);
    }
  }
}
