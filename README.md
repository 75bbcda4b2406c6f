# openDQ data validation, modelled in Dafny

The repository checks a customer table with three fixed rules. It writes one outcome
record per rule to `validation_results.json`, then renders that document as an HTML
report. The model covers the three Python files that do this:

- **validate_with_pandas.py** (`PandasValidation`). Its `validate_data` runs the
  e-mail, age and country checks. It builds each outcome record, appends the records in
  order, then overwrites the statistics and the overall success flag. The table lookups
  and comparisons can raise, and each of those paths is modelled as an `Err`. A
  header-only table raises `KeyError('email')`. Its e-mail mask is empty and keeps the
  `object` dtype, so pandas reads `df[mask]` as a selection of no columns, and the
  `['email']` that follows fails before `len(df)` is ever divided by.
- **simple_validate.py** (`SimpleValidation`). This is the same pipeline written
  differently:
  - e-mail cells are not coerced with `str()`, so a non-text cell raises `TypeError`;
  - a missing age is not flagged;
  - the percentage is guarded against an empty table, although an empty table raises
    the same `KeyError('email')` before the guard is reached;
  - the distinct countries are capped at ten;
  - no overall flag is written;
  - the console summary shows three examples per failed check.
- **generate_report.py** (`HtmlReport`). `generate_html_report` reads the document and
  grows the page with `+=`: a header with the time, the summary panel, one block per
  expectation (with a nested loop over the unexpected values), and a footer with the
  same time. It writes the page once, at the end, so any missing key or ill-typed value
  leaves no file.

The supporting modules are:

- `PyRuntime`: Python exceptions as a `Result`, `str()` of integers, and the `.1f`/`.2f`
  formats.
- `EmailPattern`: a recogniser for the one regular expression both scripts use. It is
  proved equal to the anchored pattern and models the `$`-before-newline behaviour of
  `re.match`.
- `Frame`: the table, stored column by column.
- `Document`: the loaded JSON.
- `Expectations`: outcome records, the failing-cell filter, de-duplication,
  percentages, aggregation and serialisation.
- `Pipeline`: connects the two halves. Every document either script dumps is read back
  field for field and produces a page.

Where the methods follow the source's loops and in-place updates, they are proved
against specification functions: `ValidateData`, `CountSuccessful`, `AllSuccessful`,
`PrintDetails`, `BuildPage`, `RenderBlocks` and `RenderBlock`. The properties are proved
as lemmas about those functions.

## Model

| member | source | states |
|---|---|---|
| `EmailPattern.EmailShapeIsFullMatch` | validate_with_pandas.py:7 | The hand-written recogniser accepts exactly the strings that the anchored pattern matches in full: a local part, `@`, a domain, `.`, and a top-level label of at least two letters. |
| `EmailPattern.AcceptedHasOneAtSign` | validate_with_pandas.py:7-8 | Every accepted string has exactly one `@`, because `@` is in neither character class. |
| `EmailPattern.NoAtSignNoMatch` | validate_with_pandas.py:7-8 | A string with no `@` is never accepted. |
| `EmailPattern.FullMatchEndsInLetter` | validate_with_pandas.py:7 | A full match ends in an ASCII letter. |
| `EmailPattern.SampleAddressMatches` | validate_with_pandas.py:7 | `a@b.io` matches. |
| `EmailPattern.TrailingNewlineAccepted` | validate_with_pandas.py:8 | `re.match` with `$` accepts `a@b.io` plus one newline, although the anchored pattern does not match that string. |
| `EmailPattern.SecondNewlineRejected` | validate_with_pandas.py:8 | A second trailing newline is rejected. |
| `Frame.PyStr` | validate_with_pandas.py:8 | `str()` of a non-text cell (an integer, or `nan`) contains no `@`. |
| `Frame.Column` | validate_with_pandas.py:27 | `df[name]` gives the column, one cell per row, when it exists, and `KeyError(name)` exactly when it does not. |
| `Expectations.Unexpected` | validate_with_pandas.py:28 | The failing cells are never more than the cells. |
| `Expectations.UnexpectedCountsFailingRows` | validate_with_pandas.py:28-35 | There is one failing value per failing row, duplicates kept, so the unexpected count is the number of failing rows. |
| `Expectations.UnexpectedMembership` | validate_with_pandas.py:28 | A value is reported exactly when some row holds it and the check rejects it. |
| `Expectations.UnexpectedAppend` | validate_with_pandas.py:28 | Row order is kept: the failures of `a + b` are the failures of `a` followed by those of `b`. |
| `Expectations.NoUnexpectedIffAllPass` | validate_with_pandas.py:32 | The failure list is empty exactly when every row passes. |
| `Expectations.UnexpectedAllBad` | validate_with_pandas.py:28 | When every row fails, every cell is reported. |
| `Expectations.Distinct` | validate_with_pandas.py:61 | `unique()` keeps each value once, the same set of values, and no more than the input. |
| `Expectations.DistinctOfDuplicateFree` | validate_with_pandas.py:61 | `unique()` leaves a duplicate-free sequence unchanged. |
| `Expectations.DistinctKeepsFirstOccurrenceOrder` | validate_with_pandas.py:61 | `unique()` lists values in the order of their first occurrences. |
| `Expectations.Percent` | validate_with_pandas.py:36 | `count / n * 100` times `n` is `100 * count`. It lies in 0..100 when `count <= n`, is 0 exactly when `count` is 0, and is 100 exactly when `count == n`. |
| `Expectations.ResultsToJson` | validate_with_pandas.py:100-101 | `json.dump(results)`: the statistics and expectations under `validation_results`, plus `total_records` and `success` only when the script wrote them. `Pipeline.DocumentFields` and `Pipeline.DocumentParses` state what the report reads back. |
| `Expectations.NumSuccessful` | validate_with_pandas.py:77-79 | The successful count never exceeds the number of outcomes. |
| `Expectations.AllSucceededIffAllCounted` | validate_with_pandas.py:76-84 | Every outcome succeeded exactly when the successful count equals the evaluated count. |
| `Expectations.CountSuccessful` | validate_with_pandas.py:77-79 | The counting loop returns the number of successful outcomes. |
| `Expectations.AllSuccessful` | validate_with_pandas.py:82-84 | The `all(...)` loop is true exactly when every outcome succeeded. |
| `PandasValidation.ValidateData` | validate_with_pandas.py:10-84 | Each error case: `KeyError` for a missing `email`, `age` or `country` column, `KeyError('email')` for a header-only table (the empty mask selects no columns at line 28), and `TypeError` for text in `age`. Success happens exactly when none of these applies. The outcomes are then email, age and country in that order, `total_records` is the row count, `evaluated` is the number of outcomes, `successful` is the number that succeeded, and `success` is their conjunction. |
| `PandasValidation.ValidateEmail` | validate_with_pandas.py:5-8 | A cell is valid when its `str()` is accepted by the pattern. |
| `PandasValidation.AgeInRange` | validate_with_pandas.py:43 | An age is in range when it is present and within 18..60, both bounds included. |
| `PandasValidation.CountryUnexpected` | validate_with_pandas.py:60 | A country fails unless it is exactly one of the three listed names. |
| `PandasValidation.SampledOutcome` | validate_with_pandas.py:27-56 | The e-mail and age record: the failing cells in row order, the first ten kept, the exact percentage, and success when there are none. `PandasValidation.SampledOutcomeFacts` states its properties. |
| `PandasValidation.EmailOutcome` | validate_with_pandas.py:26-40 | The e-mail check's record, with its type, column and description. |
| `PandasValidation.AgeOutcome` | validate_with_pandas.py:42-56 | The age check's record, with its type, column and description. |
| `PandasValidation.CountryOutcome` | validate_with_pandas.py:58-73 | The country record: every failing row counted, and the uncapped `unique()` list. `PandasValidation.CountryOutcomeFacts` states its properties. |
| `PandasValidation.NonTextEmailFails` | validate_with_pandas.py:5-8 | After `str()`, a missing or numeric e-mail cell always fails. |
| `PandasValidation.AcceptedEmailHasOneAtSign` | validate_with_pandas.py:5-8 | An accepted e-mail cell is text with exactly one `@`. |
| `PandasValidation.AgeUnexpectedIff` | validate_with_pandas.py:43-44 | An age is flagged exactly when it is missing or outside 18..60, both bounds inclusive. |
| `PandasValidation.SampledOutcomeFacts` | validate_with_pandas.py:27-56 | For the e-mail and age outcomes: `element_count` is the row count. The unexpected count is the number of failing rows. Success holds exactly when no row fails, and exactly when the count is 0. The percentage is `Percent(count, rows)`, lies in 0..100, and is 0 exactly on success. The list is the first `min(10, count)` failures in row order. |
| `PandasValidation.CountryOutcomeFacts` | validate_with_pandas.py:59-70 | Every failing row is counted, duplicates included. Success holds exactly when no row fails. The list holds exactly the failing values, each once, in order of first occurrence. |
| `PandasValidation.CountryListIsUncapped` | validate_with_pandas.py:61-70 | The country list has no cap: eleven distinct unknown countries are all listed. |
| `PandasValidation.OverallSuccessIffAllCounted` | validate_with_pandas.py:76-84 | The overall flag equals `successful == evaluated`, and `successful <= evaluated`. |
| `SimpleValidation.ValidateData` | simple_validate.py:10-72 | Each error case: `KeyError` for a missing column, `TypeError` for a non-text e-mail cell, `KeyError('email')` for a header-only table (the empty mask selects no columns at line 23), and `TypeError` for text in `age`. Success happens exactly when none of these applies. The outcomes are then email, age and country in that order, the statistics are the outcome count and the successful count, and there is no overall flag. |
| `SimpleValidation.SampledOutcomeFacts` | simple_validate.py:23-50 | For the e-mail and age outcomes: the failing-row count, success exactly when nothing fails, the guarded percentage (0 for an empty table, otherwise `Percent`, always in 0..100), and the first `min(10, count)` failures in row order. |
| `SimpleValidation.CountryOutcomeFacts` | simple_validate.py:53-63 | Every failing row is counted. The sample is distinct failing values, `min(10, distinct)` of them, and all of them when there are at most ten. |
| `SimpleValidation.GuardAlwaysHolds` | simple_validate.py:29-31 | On every table the script gets past, the `len(df) > 0` guard holds. Each outcome counts all the table's rows, and its percentage is the plain ratio `Percent(count, rows)`, as in the pandas script. |
| `SimpleValidation.GuardedPercent` | simple_validate.py:31 | The percentage with its guard: `Percent(count, n)` for a non-empty table, and `0` otherwise. Its bounds are stated by `SimpleValidation.SampledOutcomeFacts`, and `SimpleValidation.GuardAlwaysHolds` shows the guard always holds. |
| `SimpleValidation.SampledOutcome` | simple_validate.py:22-50 | The e-mail and age record: the failing cells in row order, the first ten kept, and success when there are none. `SimpleValidation.SampledOutcomeFacts` states its properties. |
| `SimpleValidation.EmailOutcome` | simple_validate.py:22-35 | The e-mail check's record, with its type, column and description. |
| `SimpleValidation.AgeOutcome` | simple_validate.py:37-50 | The age check's record, with its type, column and description. |
| `SimpleValidation.CountrySample` | simple_validate.py:63 | `list(set(...))[:10]`: at most ten distinct failing countries. `SimpleValidation.CountryOutcomeFacts` states distinctness, membership and length. |
| `SimpleValidation.CountryOutcome` | simple_validate.py:52-66 | The country record: every failing row counted, the guarded percentage, and the capped distinct sample. `SimpleValidation.CountryOutcomeFacts` states its properties. |
| `SimpleValidation.EmailUnexpected` | simple_validate.py:5-8 | A cell fails unless it is text that the pattern accepts. |
| `SimpleValidation.AgeUnexpected` | simple_validate.py:38 | An age fails only when it is present and outside 18..60. |
| `SimpleValidation.CountryUnexpected` | simple_validate.py:54 | A country fails unless it is exactly one of the three listed names. |
| `SimpleValidation.OutcomeLines` | simple_validate.py:86-91 | The lines printed for one outcome. `SimpleValidation.DetailLinesCount` states how many there are. |
| `SimpleValidation.JoinShown` | simple_validate.py:91 | `', '.join(map(str, ...))` of the examples. |
| `SimpleValidation.AgeChecksDifferOnlyOnMissing` | simple_validate.py:38 | This script's failing age rows are the pandas script's failing rows minus the missing ages. |
| `SimpleValidation.EmailChecksAgreeOnText` | simple_validate.py:5-8 | On text cells the two e-mail checks agree. On other cells the pandas script reports a failure, where this script raises. |
| `SimpleValidation.SuccessfulAtMostEvaluated` | simple_validate.py:69-72 | `successful <= evaluated`, with equality exactly when every check succeeded. |
| `SimpleValidation.DetailLinesCount` | simple_validate.py:85-91 | Each outcome prints one line, one more if it failed, and one more if it failed with samples. |
| `SimpleValidation.PrintDetails` | simple_validate.py:85-91 | The detail loop prints `DetailLines`: the status, then for a failure the count and at most three examples. |
| `SimpleValidation.PrintSummary` | simple_validate.py:79-91 | The console output is the three summary lines, the heading, and then the detail lines, in print order. |
| `PyRuntime.Decimal` | generate_report.py:122 | `str(i)` is non-empty, contains only digits and a sign, and has a leading `-` exactly for a negative `i`. |
| `PyRuntime.NatToDecimalRoundTrip` | generate_report.py:122 | Reading the digits of `str(n)` back gives `n`. |
| `PyRuntime.RoundHalfEven` | generate_report.py:175 | The rounding used by the fixed-point formats returns an integer within 0.5 of its argument, and never a negative one for a non-negative argument. |
| `PyRuntime.PadZeros` | generate_report.py:175 | Zero-padding gives exactly the requested width (or the string's own width, if that is larger) and keeps a string of digits all digits. |
| `PyRuntime.DecimalWidth` | generate_report.py:175 | A number below `10^d` prints in at most `d` digits, so the decimals never spill over. |
| `PyRuntime.FormatFixed` | generate_report.py:134 | `format(x, '.<d>f')`: round the exact value half to even at `d` decimals, and print a sign, the integer part and the padded decimals. `PyRuntime.FormatFixedShape` states its shape. |
| `PyRuntime.FormatFixedShape` | generate_report.py:175 | A formatted number starts with `-` exactly when it is negative. With `d > 0` decimals it ends in a point followed by exactly `d` digits. |
| `HtmlReport.Truthy` | generate_report.py:178 | Python truthiness of a loaded JSON value: `None`, `False`, zero, the empty string and empty containers are false. |
| `HtmlReport.Iterate` | generate_report.py:186 | `for x in j` over a loaded value: a list yields its items, a string its one-character strings, and the empty object nothing. Any other value raises `TypeError`. |
| `HtmlReport.Show` | generate_report.py:152-187 | `str()` as the f-strings insert it: text verbatim without escaping, integers in decimal, `None`, `True`, `False` and `nan` by name. |
| `HtmlReport.ParseExpectation` | generate_report.py:145-192 | One iteration's lookups in the order the f-strings make them. `HtmlReport.ParseExpectationOkIff` states when it succeeds. |
| `HtmlReport.ParseReport` | generate_report.py:10-13 | The statistics lookups, the subtraction that needs two integers, and the loop over the expectations at line 144. `HtmlReport.ParseReportOkIff` states when it succeeds. |
| `HtmlReport.SuccessRate` | generate_report.py:14 | The guarded rate `successful / total * 100`, and 0 for an empty report. `HtmlReport.SuccessRateBounds` states its bounds. |
| `HtmlReport.Render` | generate_report.py:9-206 | The page for a document, or the first exception the script raises. `HtmlReport.RenderOkIff` and `HtmlReport.TimestampInHeaderAndFooter` state its properties. |
| `HtmlReport.Field` | generate_report.py:10-12 | `j[key]` succeeds exactly on an object that has the key, and then gives that key's value. |
| `HtmlReport.FormatNumber` | generate_report.py:175 | `:.2f` succeeds exactly on numbers (and booleans). |
| `HtmlReport.GenerateHtmlReport` | generate_report.py:4-210 | The script's result is `Render(Html, doc, now)`: the page for the loaded document with the script's own fixed text, or the first exception it raises. |
| `HtmlReport.BuildPage` | generate_report.py:9-206 | The page built step by step with `+=` is `Render(t, doc, now)`. |
| `HtmlReport.RenderBlocks` | generate_report.py:144-197 | The loop over the expectations appends their blocks in document order, or stops with the first exception raised by one of them. |
| `HtmlReport.RenderBlock` | generate_report.py:145-197 | One iteration, including the nested `<li>` loop, produces `Block(t, exp)`. |
| `HtmlReport.ParseEachErrorPersists` | generate_report.py:144 | Once one expectation raises, the whole loop raises that same error. |
| `HtmlReport.ParseEachOkIff` | generate_report.py:144 | The loop completes exactly when every expectation is read without raising. |
| `HtmlReport.ParseEachOk` | generate_report.py:144 | A completed loop keeps one view per expectation, in order. |
| `HtmlReport.ParseEachAll` | generate_report.py:144 | When every expectation reads as the matching view, the loop reads as those views. |
| `HtmlReport.ParseExpectationOkIff` | generate_report.py:145-192 | One iteration runs without raising exactly for a well-formed expectation entry. |
| `HtmlReport.ExpectationsOkIff` | generate_report.py:144-192 | The expectations are all read exactly when they form a list of well-formed entries, an empty string or an empty object. |
| `HtmlReport.ParseReportOkIff` | generate_report.py:10-192 | The document is read without raising exactly when it is well-formed. |
| `HtmlReport.RenderOkIff` | generate_report.py:9-210 | A page is written exactly for the well-formed documents. Any other document raises before the write. |
| `HtmlReport.ConcatMapAppend` | generate_report.py:144-197 | The blocks of a concatenation are the blocks of its parts, joined. |
| `HtmlReport.ConcatMapAt` | generate_report.py:186-187 | The string of element `i` sits between the strings of the elements before and after it. |
| `HtmlReport.BlocksInOrder` | generate_report.py:144-197 | There is one block per expectation, in document order: block `i` sits between the blocks before it and those after it. |
| `HtmlReport.TimestampInHeaderAndFooter` | generate_report.py:17-206 | Every page opens with the header and the generation time, and ends with the same time in the footer followed by the closing text. |
| `HtmlReport.PageTimestamps` | generate_report.py:115-206 | The same property stated for any page view. |
| `HtmlReport.BlockMarkup` | generate_report.py:145-152 | A block's class is `passed` exactly when the expectation succeeded, and otherwise `failed`. The description follows the heading tag verbatim. |
| `HtmlReport.BadgeMarkup` | generate_report.py:146-153 | The badge after the heading has class `passed-badge` and text `Passed` for a success, and `failed-badge` and `Failed` otherwise. |
| `HtmlReport.ValuesRowShown` | generate_report.py:178-192 | The unexpected-values row is present exactly for failures that list values. It then consists of the row's opening, `<ul>`, the `<li>` of each value in list order, `</ul>` and the row's closing, and each value's item sits between the items before and after it. |
| `HtmlReport.SuccessRateBounds` | generate_report.py:13-14 | With `0 <= passed <= total`, the failed count is non-negative. The rate lies in 0..100, is 100 exactly when `total > 0` and every expectation passed, and is 0 when `total` is 0. |
| `Pipeline.OutcomeParses` | generate_report.py:145-192 | Each outcome record either script writes is read back field for field. |
| `Pipeline.ShownValuesOfOutcome` | generate_report.py:178-186 | A failed outcome's values are read back from its list. A passed outcome shows none. |
| `Pipeline.OutcomesParse` | generate_report.py:144 | The dumped list of outcomes is read back whole, in order. |
| `Pipeline.DocumentFields` | generate_report.py:10-12 | The report's lookups in a dumped document find the statistics and expectations that were dumped. |
| `Pipeline.DocumentParses` | generate_report.py:10-14 | A dumped document reads as its statistics and its outcome views. |
| `Pipeline.DocumentRenders` | generate_report.py:9-210 | Every document either script dumps is well-formed and yields a page. |
| `Pipeline.PageRateIffAllSucceeded` | generate_report.py:14 | With the statistics the scripts write, the page's rate lies in 0..100 and is 100.0 exactly when every check succeeded. |

## Left out

- File and console I/O are not modelled:
  - `pd.read_csv` is replaced by a `DataFrame` parameter;
  - `json.dump` and `json.load` are replaced by the `Json` value;
  - the file writes become a returned `Result`;
  - the pandas script's console summary (validate_with_pandas.py:103-119) is not modelled.
- `datetime.now().strftime(...)` is replaced by the `now` parameter.
- `convert_numpy_types` is not modelled. Cells are already native values, so that conversion has nothing to do here.
- Table cells are text, integers or missing values only. A pandas integer column with a missing value becomes a float column, so its values would print as `25.0`. The model keeps them as integers.
- `Expectations.Percent` is exact real arithmetic, not binary floating point.
- `PyRuntime.FormatFixed` rounds half to even on the exact value, not on the nearest double.
- `HtmlReport.Show`: floats other than integers print with six decimals, as a stand-in for Python's shortest repr. Integral floats always print as their digits plus `.0`: Python switches to exponent form from `1e16` (`str(1e16)` is `1e+16`, where the model gives `10000000000000000.0`), and keeps the sign of negative zero (`str(-0.0)` is `-0.0`, where the model, whose reals have no signed zero, gives `0.0`). Lists and dictionaries are shown as placeholders.
- `HtmlReport.Iterate`: iterating a non-empty JSON object (Python yields its keys) is treated as a `TypeError`. Only the empty object is modelled.
- `HtmlReport.ParseReport`: the counts must be JSON integers. Python would also subtract floats or booleans.
- `HtmlReport.StyleSheet` stands in for the page's fixed stylesheet. The stylesheet carries no data, so the rest of the template text is kept verbatim.
- `HtmlReport.BlockMarkup`: verbatim placement is stated for the status class and the description, and `HtmlReport.BadgeMarkup` states the badge class and text. The other inserted fields (type, column, counts and percentage) go through the same `Show` and `Row` functions, but their offsets are not stated.
- `SimpleValidation.CountrySample`: `list(set(...))` follows the set's hash order, which can change from one run to the next, and so can which ten values survive the cap. The model fixes one order, first occurrences first, and `SimpleValidation.ValidateData`'s result carries that chosen order. The lemmas about the sample state only what holds for every order: distinctness, membership and length.
- Python may keep several distinct missing values in a set. The model has one missing value, so de-duplication keeps at most one.
- `SimpleValidation.GuardedPercent` returns `0.0` where the script writes the integer `0`. That branch is never reached, because an empty table raises `KeyError('email')` first.
- The empty-mask behaviour of `df[mask]` comes from pandas itself. The model states its outcome, the `KeyError`, and not how pandas decides between a row mask and a column list.
- The Great Expectations scripts (`setup_ge_validation.py`, `create_expectations.py`, `init_ge.py`, `setup_ge_cli.py` and `validate_data.py`) only call the framework and the CLI. They are not part of this model.
