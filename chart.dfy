/** The integer part of `create_graph`: the city labels of the bar chart
    and the three bar heights per city. */
module Chart {
  import opened Optional
  import opened OrderedDict
  import opened CrimeData
  import opened Report

  /** The data series handed to the plotting library. */
  datatype Series = Series(cities: seq<string>, violent: seq<int>, property: seq<int>, drug: seq<int>)

  /** `[city_crime_data[city][category] for city in cities]`. */
  function Bars(data: CityTable, cities: seq<string>, category: Category): (r: seq<int>)
    ensures |r| == |cities|
  {
    seq(|cities|, k requires 0 <= k < |cities| => Get(Get(data, cities[k], Empty()), category, 0))
  }

  /** The lists `create_graph` builds before drawing. */
  function GraphSeries(data: CityTable): Series {
    var cities := data.keys;
    Series(cities, Bars(data, cities, ViolentCrime), Bars(data, cities, PropertyCrime), Bars(data, cities, DrugOffenses))
  }

  /** The bars of one category, by the category. */
  function SeriesOf(s: Series, category: Category): seq<int> {
    match category
    case ViolentCrime => s.violent
    case PropertyCrime => s.property
    case DrugOffenses => s.drug
  }

  function Sum(xs: seq<int>): int {
    if xs == [] then 0 else Sum(xs[..|xs| - 1]) + xs[|xs| - 1]
  }

  /** The chart shows every city of the rows once, in order of first
      appearance, and the three series run parallel to the city list. */
  lemma SeriesCities(rows: seq<Row>, data: CityTable)
    requires Aggregate(rows) == Some(data)
    ensures var s := GraphSeries(data);
      s.cities == FirstSeen(Cities(rows)) &&
      |s.violent| == |s.cities| && |s.property| == |s.cities| && |s.drug| == |s.cities|
  {
    AggregateKeys(rows, data);
  }

  /** The height of an aggregated city's bar is that column's sum over the
      city's rows. */
  lemma BarOfRows(rows: seq<Row>, data: CityTable, city: string, category: Category)
    requires Aggregate(rows) == Some(data) && city in data.entries
    ensures AllWellFormed(rows)
    ensures Get(Get(data, city, Empty()), category, 0) == CitySum(rows, city, category)
  {
    AggregateCounts(rows, data);
  }

  /** Bar `k` of a series is the `k`-th city's total for that category
      over its rows. */
  lemma SeriesCounts(rows: seq<Row>, data: CityTable, category: Category)
    requires Aggregate(rows) == Some(data)
    ensures AllWellFormed(rows)
    ensures var s := GraphSeries(data);
      |SeriesOf(s, category)| == |s.cities| &&
      forall k :: 0 <= k < |s.cities| ==> SeriesOf(s, category)[k] == CitySum(rows, s.cities[k], category)
  {
    AggregateSucceedsIff(rows);
    var cities := data.keys;
    var bars := Bars(data, cities, category);
    assert SeriesOf(GraphSeries(data), category) == bars;
    forall k | 0 <= k < |cities|
      ensures bars[k] == CitySum(rows, cities[k], category)
    {
      BarOfRows(rows, data, cities[k], category);
    }
  }

  lemma {:induction false} SumOfBars(data: CityTable, cities: seq<string>, category: Category)
    ensures Sum(Bars(data, cities, category)) == SumOver(cities, data.entries, category)
  {
    if cities != [] {
      var init := cities[..|cities| - 1];
      SumOfBars(data, init, category);
      assert Bars(data, cities, category)[..|init|] == Bars(data, init, category);
    }
  }

  /** The bars of a category add up to the summary's total for it, which
      is the sum of that column over the raw rows. */
  lemma SeriesSumIsTotal(rows: seq<Row>, data: CityTable, category: Category)
    requires Aggregate(rows) == Some(data)
    ensures AllWellFormed(rows)
    ensures Sum(SeriesOf(GraphSeries(data), category)) == Total(data, category) == RowSum(rows, category)
  {
    TotalsMatchRows(rows, data);
    SumOfBars(data, data.keys, category);
    assert SeriesOf(GraphSeries(data), category) == Bars(data, data.keys, category);
  }

  /** The chart's `k`-th label is the city of the breakdown's `k`-th block,
      and its bars are the counts that block reports. */
  lemma ChartMatchesBreakdown(rows: seq<Row>, data: CityTable, k: nat)
    requires Aggregate(rows) == Some(data) && k < |data.keys|
    ensures AllWellFormed(rows)
    ensures var s := GraphSeries(data);
      k < |s.cities| && k < |s.violent| && k < |s.property| && k < |s.drug| &&
      5 + 4 * k <= |ReportBody(data)| &&
      ReportBody(data)[1 + 4 * k..5 + 4 * k] ==
        [s.cities[k],
         IncidentLine(ViolentCrime, s.violent[k]),
         IncidentLine(PropertyCrime, s.property[k]),
         IncidentLine(DrugOffenses, s.drug[k])]
  {
    BreakdownOfRows(rows, data);
    var city := data.keys[k];
    BarOfRows(rows, data, city, ViolentCrime);
    BarOfRows(rows, data, city, PropertyCrime);
    BarOfRows(rows, data, city, DrugOffenses);
  }
}
