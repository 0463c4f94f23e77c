/** `read_and_analyze_data`: fold the CSV rows into per-city, per-category
    incident counts, keeping cities in the order they first appear. */
module CrimeData {
  import opened Optional
  import opened PyInt
  import opened OrderedDict

  /** The three count columns. The script uses their header strings as
      dictionary keys; `Name` gives each one's string. */
  datatype Category = ViolentCrime | PropertyCrime | DrugOffenses

  function Name(c: Category): string {
    match c
    case ViolentCrime => "Violent Crime"
    case PropertyCrime => "Property Crime"
    case DrugOffenses => "Drug Offenses"
  }

  /** The categories in the order the loop body adds them. */
  const Categories: seq<Category> := [ViolentCrime, PropertyCrime, DrugOffenses]

  /** One data row of the CSV file: the `City` column and the three count
      columns, as the text the reader yields. */
  datatype Row = Row(city: string, violent: string, property: string, drug: string)

  /** One city's counts, keyed by category. */
  type Crimes = Dict<Category, int>

  /** The whole aggregation, keyed by city. */
  type CityTable = Dict<string, Crimes>

  /** `row[Name(c)]`. */
  function Field(row: Row, c: Category): string {
    match c
    case ViolentCrime => row.violent
    case PropertyCrime => row.property
    case DrugOffenses => row.drug
  }

  /** All three count fields of `row` pass `int(...)`. */
  predicate WellFormed(row: Row) {
    ParseInt(row.violent).Some? && ParseInt(row.property).Some? && ParseInt(row.drug).Some?
  }

  /** Every row's count fields pass `int(...)`. */
  predicate AllWellFormed(rows: seq<Row>) {
    forall row :: row in rows ==> WellFormed(row)
  }

  /** `int(row[Name(c)])`. */
  function Count(row: Row, c: Category): int
    requires WellFormed(row)
  {
    ParseInt(Field(row, c)).value
  }

  /** The `City` column of every row, in file order. */
  function Cities(rows: seq<Row>): (r: seq<string>)
    ensures |r| == |rows|
  {
    seq(|rows|, k requires 0 <= k < |rows| => rows[k].city)
  }

  /** The three `+=` statements of the loop body, applied to one city's counts. */
  function AddCounts(crimes: Crimes, violent: int, property: int, drug: int): Crimes {
    AddTo(AddTo(AddTo(crimes, ViolentCrime, violent), PropertyCrime, property), DrugOffenses, drug)
  }

  /** One pass of the loop body; `None` when an `int(...)` raises. */
  function Step(data: CityTable, row: Row): Option<CityTable> {
    if WellFormed(row) then
      Some(Put(data, row.city, AddCounts(Get(data, row.city, Empty()),
        Count(row, ViolentCrime), Count(row, PropertyCrime), Count(row, DrugOffenses))))
    else None
  }

  /** What `read_and_analyze_data` returns for `rows`: the loop body folded
      over the rows from an empty table, `None` once any row fails. */
  function Aggregate(rows: seq<Row>): (r: Option<CityTable>)
    ensures r.Some? ==> Valid(r.value)
  {
    if rows == [] then Some(Empty())
    else
      match Aggregate(rows[..|rows| - 1])
      case None => None
      case Some(data) => Step(data, rows[|rows| - 1])
  }

  /** The loop of `read_and_analyze_data`, updating the table row by row. */
  method ReadAndAnalyzeData(rows: seq<Row>) returns (result: Option<CityTable>)
    ensures result == Aggregate(rows)
  {
    var data: CityTable := Empty();
    for i := 0 to |rows|
      invariant Aggregate(rows[..i]) == Some(data)
    {
      assert rows[..i + 1][..i] == rows[..i];
      var row := rows[i];
      var crimes := Get(data, row.city, Empty());
      var violent := ParseInt(row.violent);
      if violent.None? {
        MalformedRowAborts(rows, i);
        return None;
      }
      crimes := AddTo(crimes, ViolentCrime, violent.value);
      var property := ParseInt(row.property);
      if property.None? {
        MalformedRowAborts(rows, i);
        return None;
      }
      crimes := AddTo(crimes, PropertyCrime, property.value);
      var drug := ParseInt(row.drug);
      if drug.None? {
        MalformedRowAborts(rows, i);
        return None;
      }
      crimes := AddTo(crimes, DrugOffenses, drug.value);
      StepOfParsed(data, row, violent.value, property.value, drug.value);
      data := Put(data, row.city, crimes);
    }
    assert rows[..|rows|] == rows;
    return Some(data);
  }

  lemma ParsedCounts(row: Row, violent: int, property: int, drug: int)
    requires ParseInt(row.violent) == Some(violent)
    requires ParseInt(row.property) == Some(property)
    requires ParseInt(row.drug) == Some(drug)
    ensures WellFormed(row)
    ensures Count(row, ViolentCrime) == violent && Count(row, PropertyCrime) == property && Count(row, DrugOffenses) == drug
  {
  }

  lemma StepOfParsed(data: CityTable, row: Row, violent: int, property: int, drug: int)
    requires ParseInt(row.violent) == Some(violent)
    requires ParseInt(row.property) == Some(property)
    requires ParseInt(row.drug) == Some(drug)
    ensures Step(data, row) == Some(Put(data, row.city, AddCounts(Get(data, row.city, Empty()), violent, property, drug)))
  {
    ParsedCounts(row, violent, property, drug);
  }

  lemma AllWellFormedSplit(rows: seq<Row>)
    requires rows != []
    ensures AllWellFormed(rows) <==> AllWellFormed(rows[..|rows| - 1]) && WellFormed(rows[|rows| - 1])
  {
    assert rows == rows[..|rows| - 1] + [rows[|rows| - 1]];
  }

  /** The aggregation produces a table exactly when every count field of
      every row is an integer. */
  lemma {:induction false} AggregateSucceedsIff(rows: seq<Row>)
    ensures Aggregate(rows).Some? <==> AllWellFormed(rows)
  {
    if rows != [] {
      var init := rows[..|rows| - 1];
      AggregateSucceedsIff(init);
      AllWellFormedSplit(rows);
    }
  }

  /** One malformed row makes the whole aggregation fail. */
  lemma MalformedRowAborts(rows: seq<Row>, k: int)
    requires 0 <= k < |rows| && !WellFormed(rows[k])
    ensures Aggregate(rows) == None
  {
    AggregateSucceedsIff(rows);
  }

  /** A count field holding a character `int(...)` cannot accept (a
      letter, a decimal point, a thousands comma) aborts the aggregation. */
  lemma ForeignCharAborts(rows: seq<Row>, k: int, c: Category, i: int)
    requires 0 <= k < |rows| && 0 <= i < |Field(rows[k], c)| && !IntChar(Field(rows[k], c)[i])
    ensures Aggregate(rows) == None
  {
    if ParseInt(Field(rows[k], c)).Some? {
      ParseIntChars(Field(rows[k], c));
    }
    MalformedRowAborts(rows, k);
  }

  /** A count field starting with an ASCII separator (U+001C to U+001F)
      aborts the aggregation, although `str.isspace()` holds for it. */
  lemma SeparatorFieldAborts(rows: seq<Row>, k: int, c: Category)
    requires 0 <= k < |rows| && |Field(rows[k], c)| > 0
    requires '\U{1C}' <= Field(rows[k], c)[0] <= '\U{1F}'
    ensures Aggregate(rows) == None
  {
    var f := Field(rows[k], c);
    assert f == [f[0]] + f[1..];
    SeparatorRejected(f[0], f[1..]);
    MalformedRowAborts(rows, k);
  }

  /** The distinct elements of `s`, each where it first occurs: the order a
      Python dict gives keys stored in the order of `s`. */
  function FirstSeen(s: seq<string>): (r: seq<string>)
    ensures Distinct(r)
    ensures forall x :: x in r <==> x in s
  {
    if s == [] then []
    else
      var init := s[..|s| - 1];
      var seen := FirstSeen(init);
      assert s == init + [s[|s| - 1]];
      if s[|s| - 1] in seen then seen else seen + [s[|s| - 1]]
  }

  /** The position where `x` first occurs in `s`. */
  function FirstIndex(s: seq<string>, x: string): (r: nat)
    requires x in s
    ensures r < |s| && s[r] == x
    ensures forall p :: 0 <= p < r ==> s[p] != x
  {
    if s[0] == x then 0 else 1 + FirstIndex(s[1..], x)
  }

  lemma FirstIndexOfPrefix(s: seq<string>, y: string, x: string)
    requires x in s
    ensures FirstIndex(s + [y], x) == FirstIndex(s, x)
  {
    assert (s + [y])[FirstIndex(s, x)] == x;
  }

  /** `FirstSeen(s)` lists its elements in the order of their first
      occurrence in `s`. */
  lemma {:induction false} FirstSeenOrder(s: seq<string>)
    ensures forall i, j :: 0 <= i < j < |FirstSeen(s)| ==>
      FirstIndex(s, FirstSeen(s)[i]) < FirstIndex(s, FirstSeen(s)[j])
  {
    if s != [] {
      var init, y := s[..|s| - 1], s[|s| - 1];
      assert s == init + [y];
      var seen := FirstSeen(init);
      FirstSeenOrder(init);
      forall x | x in init
        ensures FirstIndex(s, x) == FirstIndex(init, x) < |init|
      {
        FirstIndexOfPrefix(init, y, x);
      }
      if y !in seen {
        assert FirstIndex(s, y) == |init|;
      }
    }
  }

  lemma CitiesOfInit(rows: seq<Row>)
    requires rows != []
    ensures Cities(rows) == Cities(rows[..|rows| - 1]) + [rows[|rows| - 1].city]
  {
  }

  lemma StepKeys(data: CityTable, row: Row)
    requires Step(data, row).Some?
    ensures Step(data, row).value.keys ==
      if row.city in data.keys then data.keys else data.keys + [row.city]
  {
  }

  /** The cities of a successful aggregation are the rows' cities, each
      once, in the order of first appearance. */
  lemma {:induction false} AggregateKeys(rows: seq<Row>, data: CityTable)
    requires Aggregate(rows) == Some(data)
    ensures data.keys == FirstSeen(Cities(rows))
  {
    if rows != [] {
      var init := rows[..|rows| - 1];
      CitiesOfInit(rows);
      match Aggregate(init)
      case Some(prev) =>
        AggregateKeys(init, prev);
        StepKeys(prev, rows[|rows| - 1]);
    }
  }

  /** The property behind `defaultdict` insertion order: the table's keys
      are exactly the cities named by some row, without repetition, and a
      city comes before another exactly when its first row does. */
  lemma AggregateCityOrder(rows: seq<Row>, data: CityTable)
    requires Aggregate(rows) == Some(data)
    ensures Distinct(data.keys)
    ensures forall c :: c in data.keys <==> c in Cities(rows)
    ensures forall i, j :: 0 <= i < j < |data.keys| ==>
      FirstIndex(Cities(rows), data.keys[i]) < FirstIndex(Cities(rows), data.keys[j])
  {
    AggregateKeys(rows, data);
    FirstSeenOrder(Cities(rows));
  }

  /** A city missing from the table is named by no row. */
  lemma AbsentCity(rows: seq<Row>, data: CityTable, city: string)
    requires Aggregate(rows) == Some(data) && city !in data.entries
    ensures city !in Cities(rows)
  {
    AggregateKeys(rows, data);
  }

  /** The total of column `c` over the rows naming `city`. */
  function CitySum(rows: seq<Row>, city: string, c: Category): int
    requires AllWellFormed(rows)
  {
    if rows == [] then 0
    else
      AllWellFormedSplit(rows);
      var last := rows[|rows| - 1];
      CitySum(rows[..|rows| - 1], city, c) + (if last.city == city then Count(last, c) else 0)
  }

  /** The total of column `c` over all rows. */
  function RowSum(rows: seq<Row>, c: Category): int
    requires AllWellFormed(rows)
  {
    if rows == [] then 0
    else
      AllWellFormedSplit(rows);
      RowSum(rows[..|rows| - 1], c) + Count(rows[|rows| - 1], c)
  }

  lemma CitySumOfLast(rows: seq<Row>, city: string, c: Category)
    requires AllWellFormed(rows) && rows != []
    ensures AllWellFormed(rows[..|rows| - 1]) && WellFormed(rows[|rows| - 1])
    ensures CitySum(rows, city, c) == CitySum(rows[..|rows| - 1], city, c) +
      (if rows[|rows| - 1].city == city then Count(rows[|rows| - 1], c) else 0)
  {
    AllWellFormedSplit(rows);
  }

  lemma {:induction false} CitySumOfAbsent(rows: seq<Row>, city: string, c: Category)
    requires AllWellFormed(rows) && city !in Cities(rows)
    ensures CitySum(rows, city, c) == 0
  {
    if rows != [] {
      AllWellFormedSplit(rows);
      CitiesOfInit(rows);
      CitySumOfAbsent(rows[..|rows| - 1], city, c);
    }
  }

  /** The three additions of one row, whatever the city's counts were:
      each category grows by its own count. */
  lemma AddCountsEffect(crimes: Crimes, violent: int, property: int, drug: int)
    ensures var r := AddCounts(crimes, violent, property, drug);
      Get(r, ViolentCrime, 0) == Get(crimes, ViolentCrime, 0) + violent &&
      Get(r, PropertyCrime, 0) == Get(crimes, PropertyCrime, 0) + property &&
      Get(r, DrugOffenses, 0) == Get(crimes, DrugOffenses, 0) + drug
  {
    var v := AddTo(crimes, ViolentCrime, violent);
    var p := AddTo(v, PropertyCrime, property);
    var r := AddTo(p, DrugOffenses, drug);
    assert Get(r, ViolentCrime, 0) == Get(crimes, ViolentCrime, 0) + violent by {
      assert Get(p, ViolentCrime, 0) == Get(v, ViolentCrime, 0);
      assert Get(r, ViolentCrime, 0) == Get(p, ViolentCrime, 0);
    }
    assert Get(r, PropertyCrime, 0) == Get(crimes, PropertyCrime, 0) + property by {
      assert Get(r, PropertyCrime, 0) == Get(p, PropertyCrime, 0);
    }
  }

  /** A city seen for the first time gets the categories in column order. */
  lemma NewCityShape(crimes: Crimes, violent: int, property: int, drug: int)
    requires Valid(crimes) && crimes.keys == []
    ensures var r := AddCounts(crimes, violent, property, drug);
      Valid(r) && r.keys == Categories
  {
    var v := AddTo(crimes, ViolentCrime, violent);
    var p := AddTo(v, PropertyCrime, property);
    assert v.keys == [ViolentCrime];
    assert p.keys == [ViolentCrime, PropertyCrime];
  }

  /** A city seen before keeps its categories and their order. */
  lemma KnownCityShape(crimes: Crimes, violent: int, property: int, drug: int)
    requires Valid(crimes) && crimes.keys == Categories
    ensures var r := AddCounts(crimes, violent, property, drug);
      Valid(r) && r.keys == Categories
  {
    var v := AddTo(crimes, ViolentCrime, violent);
    var p := AddTo(v, PropertyCrime, property);
    assert Categories[0] == ViolentCrime && Categories[1] == PropertyCrime && Categories[2] == DrugOffenses;
    assert v.keys == Categories;
    assert p.keys == Categories;
  }

  /** The three additions keep a city's counts a complete set of
      categories, in column order, whether the city is new or not. */
  lemma AddCountsShape(crimes: Crimes, violent: int, property: int, drug: int)
    requires Valid(crimes) && (crimes.keys == [] || crimes.keys == Categories)
    ensures var r := AddCounts(crimes, violent, property, drug);
      Valid(r) && r.keys == Categories
  {
    if crimes.keys == [] {
      NewCityShape(crimes, violent, property, drug);
    } else {
      KnownCityShape(crimes, violent, property, drug);
    }
  }

  lemma StepEffect(data: CityTable, row: Row, next: CityTable)
    requires Step(data, row) == Some(next)
    ensures WellFormed(row)
    ensures forall c :: c in next.entries <==> c in data.entries || c == row.city
    ensures forall c :: c in data.entries && c != row.city ==> next.entries[c] == data.entries[c]
    ensures next.entries[row.city] ==
      AddCounts(Get(data, row.city, Empty()),
        Count(row, ViolentCrime), Count(row, PropertyCrime), Count(row, DrugOffenses))
  {
  }


  /** One row keeps every city's counts a complete set of categories. */
  lemma ShapeAfterStep(prev: CityTable, row: Row, data: CityTable, city: string)
    requires Step(prev, row) == Some(data) && city in data.entries
    requires city in prev.entries ==>
      Valid(prev.entries[city]) && prev.entries[city].keys == Categories
    ensures Valid(data.entries[city]) && data.entries[city].keys == Categories
  {
    StepEffect(prev, row, data);
    if city == row.city {
      AddCountsShape(Get(prev, city, Empty()),
        Count(row, ViolentCrime), Count(row, PropertyCrime), Count(row, DrugOffenses));
    }
  }

  /** One row adds its counts to its own city and to no other. */
  lemma CountAfterStep(prev: CityTable, row: Row, data: CityTable, city: string, c: Category)
    requires Step(prev, row) == Some(data) && city in data.entries
    ensures WellFormed(row)
    ensures Get(data.entries[city], c, 0) ==
      Get(Get(prev, city, Empty()), c, 0) + (if row.city == city then Count(row, c) else 0)
  {
    StepEffect(prev, row, data);
    if city == row.city {
      AddCountsEffect(Get(prev, city, Empty()),
        Count(row, ViolentCrime), Count(row, PropertyCrime), Count(row, DrugOffenses));
    }
  }

  /** Every city of a successful aggregation has exactly the three
      categories, in column order. */
  lemma {:induction false} AggregateShape(rows: seq<Row>, data: CityTable)
    requires Aggregate(rows) == Some(data)
    ensures forall city :: city in data.entries ==>
      Valid(data.entries[city]) && data.entries[city].keys == Categories
  {
    if rows != [] {
      var init, row := rows[..|rows| - 1], rows[|rows| - 1];
      match Aggregate(init)
      case Some(prev) =>
        AggregateShape(init, prev);
        forall city | city in data.entries
          ensures Valid(data.entries[city]) && data.entries[city].keys == Categories
        {
          ShapeAfterStep(prev, row, data, city);
        }
    }
  }

  /** The step of `AggregateCounts` for one city and category: the new
      count is the old one plus the last row's share, and so is the sum. */
  lemma CitySumAfterStep(rows: seq<Row>, prev: CityTable, data: CityTable, city: string, c: Category)
    requires rows != [] && AllWellFormed(rows) && city in data.entries
    requires Get(data.entries[city], c, 0) == Get(Get(prev, city, Empty()), c, 0) +
      (if rows[|rows| - 1].city == city then Count(rows[|rows| - 1], c) else 0)
    requires city in prev.entries ==> Get(prev.entries[city], c, 0) == CitySum(rows[..|rows| - 1], city, c)
    requires city !in prev.entries ==> city !in Cities(rows[..|rows| - 1])
    ensures Get(data.entries[city], c, 0) == CitySum(rows, city, c)
  {
    var init := rows[..|rows| - 1];
    CitySumOfLast(rows, city, c);
    if city !in prev.entries {
      CitySumOfAbsent(init, city, c);
      var none: Crimes := Empty();
      assert Get(prev, city, Empty()) == none;
    }
  }

  /** Accumulation is additive: each count of a successful aggregation is
      the sum of that column over every row naming the city, so a repeated
      city adds up and does not overwrite. */
  lemma {:induction false} AggregateCounts(rows: seq<Row>, data: CityTable)
    requires Aggregate(rows) == Some(data)
    ensures AllWellFormed(rows)
    ensures forall city, c :: city in data.entries ==>
      Get(data.entries[city], c, 0) == CitySum(rows, city, c)
  {
    AggregateSucceedsIff(rows);
    if rows != [] {
      var init, row := rows[..|rows| - 1], rows[|rows| - 1];
      match Aggregate(init)
      case Some(prev) =>
        AggregateCounts(init, prev);
        forall city, c | city in data.entries
          ensures Get(data.entries[city], c, 0) == CitySum(rows, city, c)
        {
          if city !in prev.entries {
            AbsentCity(init, prev, city);
          }
          CountAfterStep(prev, row, data, city, c);
          CitySumAfterStep(rows, prev, data, city, c);
        }
    }
  }
}
