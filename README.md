# Crime report generator — verified model of its core

`generate_report.py` reads a CSV file of crime counts per city and folds
its rows into an insertion-ordered table of per-city, per-category
counts. From that table it writes a PDF report (an intro, a per-city
breakdown, overall totals and a disclaimer, then a page with a bar chart)
and draws the chart.

This project models the computing core of the script in Dafny:

- `optional.dfy` (`Optional`): `None` stands for a raised exception.
- `python_int.dfy` (`PyInt`): Python's `int(s)` for base-10 text and
  `str(n)` / `f"{n}"` for integers. `int(s)` strips leading and trailing
  whitespace: the ASCII characters `\t \n \v \f \r` and space, plus the
  non-ASCII characters for which `str.isspace()` holds. The ASCII
  separators U+001C to U+001F pass `str.isspace()`, but `int(s)` rejects
  them. After the whitespace it takes an optional sign, then ASCII digits
  with single underscores between them.
- `ordered_dict.dfy` (`OrderedDict`): a Python `dict`, meaning keys in
  insertion order plus a map. It covers reading a `defaultdict` with a
  default, `d[k] = v`, and `d[k] += n`.
- `aggregate.dfy` (`CrimeData`): `read_and_analyze_data`.
  - `Aggregate` is the fold, as a function.
  - `ReadAndAnalyzeData` is the loop, as a method proved equal to it.
  - `CitySum` and `RowSum` are the reference sums over the raw rows.
- `report.dfy` (`Report`): the text of `report_body` and `add_summary`, and
  the three totals.
- `chart.dfy` (`Chart`): the city list and the three bar series of
  `create_graph`.
- `pdf.dfy` (`PdfDocument`): the `PDFReport` object as a class that
  collects the document's sections in order, and `create_pdf`.
- `sample.dfy` (`Sample`): the dataset of `generate_sample_csv` and the
  report it yields, plus the empty file.

Categories are modelled as the datatype `Category`, and `Name` gives the
column header string each one stands for. Rows are the four strings
`csv.DictReader` yields for the columns `City`, `Violent Crime`,
`Property Crime` and `Drug Offenses`.

Two behaviours of the code are worth stating outright:

- `int(...)` accepts negative counts such as `-5`, so counts are not
  restricted to non-negative values.
- A missing count field is not treated as zero. `int(None)` raises on it
  (see "Left out").

## Model

| member | source | states |
|---|---|---|
| PyInt.ParseIntOfString | generate_report.py:29 | `int(...)` reads back exactly the integer that `str`/an f-string wrote, negatives included |
| PyInt.PaddedParse | generate_report.py:29 | whitespace before and after a written integer does not change the value `int(...)` reads |
| PyInt.SeparatorRejected | generate_report.py:29 | a field that starts with one of the ASCII separators U+001C to U+001F makes `int(...)` raise, whatever follows |
| PyInt.ParseIntChars | generate_report.py:29 | `int(...)` succeeds only on text made of whitespace, digits, `_`, `+` and `-` |
| PyInt.NatToString | generate_report.py:74 | `str(n)` of a natural is a non-empty digit string with no leading zero unless `n` is 0 |
| OrderedDict.Empty | generate_report.py:24 | a fresh dict is valid and has no keys |
| OrderedDict.Put | generate_report.py:24 | `d[k] = v` keeps keys distinct, maps `k` to `v`, and appends `k` only when it is new |
| OrderedDict.AddTo | generate_report.py:29-31 | `d[k] += n` on a `defaultdict(int)` raises `k`'s value (0 if absent) by `n`, leaves other keys' values alone, and appends `k` only when new |
| CrimeData.Aggregate | generate_report.py:23-32 | the result of the fold is always a valid ordered table |
| CrimeData.ReadAndAnalyzeData | generate_report.py:23-32 | the row-by-row loop returns exactly the fold `Aggregate(rows)`, including `None` when a row fails |
| CrimeData.AggregateSucceedsIff | generate_report.py:29-31 | the aggregation yields a table if and only if every count field of every row parses |
| CrimeData.MalformedRowAborts | generate_report.py:29-31 | one row with an unparsable count makes the whole aggregation yield nothing |
| CrimeData.ForeignCharAborts | generate_report.py:29-31 | a count field containing a letter, decimal point or comma aborts the aggregation |
| CrimeData.SeparatorFieldAborts | generate_report.py:29-31 | a count field that starts with an ASCII separator (U+001C to U+001F) aborts the aggregation |
| CrimeData.FirstSeen | generate_report.py:24 | the first-seen list has no repeats and holds exactly the elements of its input |
| CrimeData.FirstSeenOrder | generate_report.py:24 | first-seen order lists elements by the position of their first occurrence |
| CrimeData.AggregateKeys | generate_report.py:24-31 | the table's cities are the rows' cities in first-seen order |
| CrimeData.AggregateCityOrder | generate_report.py:24-31 | cities are distinct, are exactly the cities of the rows, and one comes before another exactly when its first row does |
| CrimeData.AggregateShape | generate_report.py:29-31 | every city's counts have exactly the keys Violent Crime, Property Crime, Drug Offenses, in that order |
| CrimeData.AggregateCounts | generate_report.py:27-31 | each city's count for a category is that column's sum over all rows naming the city, so a repeated city adds up |
| CrimeData.AddCountsEffect | generate_report.py:29-31 | the three `+=` raise each category by its own count, whatever the city's counts were before |
| CrimeData.AddCountsShape | generate_report.py:29-31 | after the three `+=`, a new city's counts have the keys Violent Crime, Property Crime, Drug Offenses in that order, and a known city's keep them |
| CrimeData.StepEffect | generate_report.py:28-31 | one row changes only its own city's entry and adds that city if it is new |
| CrimeData.CountAfterStep | generate_report.py:28-31 | one row adds its counts to its own city and to no other |
| CrimeData.CitySumOfAbsent | generate_report.py:27-31 | a city named by no row sums to 0 |
| Report.TotalAfterPut | generate_report.py:78-80 | `d[k] = x` changes a category total by replacing `k`'s old count with `x`'s |
| Report.TotalAfterAdd | generate_report.py:78-80 | one row's three additions raise each category total by that row's count |
| Report.TotalAfterStep | generate_report.py:78-80 | one loop pass over a row raises each category total by that row's count for the category |
| Report.TotalsMatchRows | generate_report.py:78-80 | each summary total equals the sum of that column over the raw rows |
| Report.SummaryOfRows | generate_report.py:78-90 | the summary is exactly the heading plus three lines, violent, property, drug in that order, each label followed by the sum of that column over the raw rows |
| Report.SummaryLineReadsBack | generate_report.py:88-90 | the number after each summary label reads back as the total |
| Report.CityBlockOfCategories | generate_report.py:70-74 | a city with the three categories gets four lines: its name, then one `- <category>: <count> incidents` line per category |
| Report.FlattenLayout | generate_report.py:67-75 | four-line city blocks laid end to end put block `k` at lines `4k` to `4k+3` |
| Report.CityBlockOfRows | generate_report.py:67-74 | each city's block shows the column sums over that city's rows |
| Report.BreakdownOfRows | generate_report.py:60-75 | the breakdown is its heading then four lines per city in table order, `1 + 4 * cities` lines in all, each block read off the raw rows |
| Chart.Bars | generate_report.py:129-131 | a series has one bar per city |
| Chart.SeriesCities | generate_report.py:128-131 | the chart's cities are the rows' cities in first-seen order, and all three series have the same length as that list |
| Chart.BarOfRows | generate_report.py:129-131 | a city's bar height is that column's sum over the city's rows |
| Chart.SeriesCounts | generate_report.py:128-131 | bar `k` of a series is the `k`-th city's raw-row total for that category |
| Chart.SumOfBars | generate_report.py:129-131 | a series adds up to the sum of that category over the listed cities |
| Chart.SeriesSumIsTotal | generate_report.py:128-131 | a series adds up to the summary total for its category, which is the raw-row total |
| Chart.ChartMatchesBreakdown | generate_report.py:128-131 | the chart's `k`-th city and its bars are the breakdown's `k`-th block |
| PdfDocument.PagesNumberedAppend | generate_report.py:48 | adding a section, or a page with the next number, keeps pages numbered 1, 2, 3, ... |
| PdfDocument.PdfReport.constructor | generate_report.py:117 | a new document has no pages and no sections |
| PdfDocument.PdfReport.AddPage | generate_report.py:118 | `add_page` starts the page numbered one past the current one |
| PdfDocument.PdfReport.AddIntro | generate_report.py:50-58 | `add_intro` appends the intro on the current page |
| PdfDocument.PdfReport.ReportBreakdown | generate_report.py:60-75 | `report_body` appends one breakdown section drawn from the table, without an explicit `add_page`; its text (`Text`, see `LayoutText`) is `ReportBody`, the heading and four lines per city |
| PdfDocument.PdfReport.AddSummary | generate_report.py:77-91 | `add_summary` appends one summary section drawn from the table, without an explicit `add_page`; its text (`Text`, see `LayoutText`) is `SummaryLines`, the heading and the three totals |
| PdfDocument.PdfReport.AddDisclaimer | generate_report.py:93-100 | `add_disclaimer` appends the disclaimer |
| PdfDocument.PdfReport.AddGraph | generate_report.py:102-114 | `add_graph` starts a new page and puts the chart heading and image on it |
| PdfDocument.CreatePdf | generate_report.py:116-123 | `create_pdf` adds page 1, intro, breakdown, summary, disclaimer, page 2, graph, in that order; its two explicit `add_page` calls leave `page_no()` at 2 |
| PdfDocument.LayoutPages | generate_report.py:116-123 | the two explicit `add_page` calls start pages 1 and 2 in order: intro, breakdown, summary and disclaimer come after the first and before the second, and only the chart follows the second |
| PdfDocument.LayoutText | generate_report.py:40-123 | the text of the header and the sections, in reading order, is the banner, the intro, the breakdown lines, the summary lines, the disclaimer, then the banner and the chart heading; the page footers are not in it |
| PdfDocument.FooterReadsBack | generate_report.py:48 | the footer of page `n` is "Page " followed by digits that read back as `n` |
| Sample.WrittenCounts | generate_report.py:17-19 | a row written with `csv.writer` from integers parses back to those integers |
| Sample.WrittenRowSums | generate_report.py:17-19 | written records parse back whole, and each column sums to what was written |
| Sample.FirstSeenOfDistinct | generate_report.py:24 | a list without repeats is its own first-seen order |
| Sample.RecordsReport | generate_report.py:9-19 | written records aggregate to their cities in first-seen order, with totals equal to the column sums |
| Sample.SampleColumns | generate_report.py:9-16 | the sample columns sum to 2600, 10200 and 1000 |
| Sample.SampleReport | generate_report.py:9-16 | the sample yields its five cities in file order, with totals 2600 / 10200 / 1000 |
| Sample.SampleSummary | generate_report.py:88-90 | the sample's summary reads "Total Violent Crimes reported: 2600", "... 10200", "... 1000" |
| Sample.EmptyReport | generate_report.py:78-90 | an empty file gives an empty table, a bare breakdown heading and three totals of 0 |

## Left out

- CSV I/O is not modelled: `generate_sample_csv`'s file writing, `open`, `csv.DictReader` and the file-exists check in `__main__`. Rows are an input sequence of four strings.
- A short CSV row gives `None` for its missing fields, and a missing column raises `KeyError`. Either way the script aborts. The model's rows always carry four strings, so this abort path is not represented.
- `int(...)` on non-ASCII Unicode digits is not modelled: the model accepts ASCII `0`-`9` only, where Python also accepts other scripts' decimal digits. Python's limit of 4300 digits on int/str conversion is not modelled either.
- PDF rendering is not modelled: fonts, colours, cell sizes, line breaks, automatic page breaks, image placement and `output`. The document is modelled as its ordered sections and their text.
- The header and footer are not modelled as separate sections. They are drawn by the PDF library on every page: `Title` and `Footer(number)` give their text.
- PdfDocument.CreatePdf: `page_no()` counts only the two explicit `add_page` calls. FPDF also breaks pages automatically near the bottom of an A4 page. With four or more cities (the five-city sample included) the summary, the disclaimer or the breakdown itself moves to a new page, so the chart page gets number 3 or higher. That depends on cell heights, which are not modelled.
- PdfDocument.LayoutPages: "two pages, the chart alone on the second" holds for the pages the explicit `add_page` calls start. Automatic page breaks, which can split the first part over several pages, are not modelled, for the same reason.
- PdfDocument.PdfReport.ReportBreakdown: the breakdown goes on without an explicit `add_page`. It can still start on, or run over onto, a page FPDF adds automatically, which is not modelled.
- PdfDocument.PdfReport.AddSummary: the summary goes on without an explicit `add_page`. In the five-city sample FPDF puts it on an automatically added page 2, which is not modelled.
- PdfDocument.LayoutText: it gives the text of the header and the sections in reading order. It does not say where automatic page breaks fall. The banner `header` draws on each automatically added page is not in it. Nor is the `Footer(n)` line (`Page <n>`) that `footer` draws at the bottom of every page, because which page numbers occur, and after which line, depends on those automatic breaks.
- PdfDocument.FooterReadsBack: it states the footer text of any page number. Which page numbers occur depends on the automatic page breaks that are left out above.
- Floating-point geometry is not modelled: bar offsets, bar width and the image size.
- Matplotlib drawing and saving are not modelled. Only the city list and the three series passed to it are.
- `__main__` (generate_report.py:151-165) is not modelled. It only chains the modelled operations with file names and prints.
