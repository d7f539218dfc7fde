# Spare-parts aggregation, modelled in Dafny

The program reads a workbook of maintenance sheets. Each sheet lists machines in blocks:
the first row of a block carries the machine's serial number, and the rows after it the
parts used on that machine (item no., description, unit price, total and spare
quantity). For every sheet it

1. resolves six required fields (`serial`, `total qty`, `spare qty`, `item no.`,
   `description`, `unit price ($)`) to the sheet's own, possibly misspelt, column
   labels by fuzzy matching (`find_best_column_matches`);
2. builds a reference index from an equipment table (serial number to model and to
   equipment type, with `MODEL MISSING` / `TYPE MISSING` sentinels);
3. walks the rows, skips the first row of every machine block, drops rows without a
   part and rows whose item no. is the `TBD` placeholder, and aggregates the rest per
   equipment type and item no.: summed total quantity, the set of models and serials,
   the last description and unit price, and the spare quantity summed per machine;
4. takes, per part, the peak of those per-machine sums, scales it by a factor that
   grows with the number of machines (1.0, 1.25, 1.5, 1.75, 2.0), and emits a report:
   a header row per equipment type in ascending order, followed by its parts sorted
   stably by description, with the models joined in ascending order;
5. writes one output sheet per input sheet, under the first 31 characters of its name:
   the report, or a one-cell error table when the sheet could not be processed.

The model follows the code's own structure. The loops that fill the `matches` dict, the
two reference dicts, the two nested aggregation dicts, the peak pass, the report rows
and the output sheets are methods with loop invariants, each proved equal to a
specification function; the properties the program promises are lemmas about those
functions.

| file | module | models |
|---|---|---|
| `wrappers.dfy` | `Wrappers` | `Option` and `Result` |
| `text.dfy` | `Text` | `strip`, `lower`, `upper`, `title`, `join`, Python's `<` on strings |
| `sorting.dfy` | `Sorting` | `sorted` with a key (stable) and `sorted` of a set of strings |
| `columns.dfy` | `Columns` | `find_best_column_matches` and the choice `get_close_matches` makes |
| `reference.dfy` | `Reference` | `serial_to_model`, `serial_to_type` and their lookups |
| `rows.dfy` | `Rows` | the block-skip and placeholder filter, the quantity coercion |
| `aggregate.dfy` | `Aggregate` | `type_spares`, `per_machine_spares`, the peak pass |
| `scale.dfy` | `Scale` | the scale-factor chain and the final spare quantity |
| `report.dfy` | `Report` | `output_rows` |
| `workbook.dfy` | `Workbook` | `process_single_sheet` and the per-sheet loop of `process_excel` |
| `findings.dfy` | `Findings` | the quantity coercion as written, on floats with NaN |

Three details of the code that the model keeps as written: description and unit price
are those of the LAST kept row of a part (app.py:90-92); the final spare quantity is not
rounded up (app.py:127); among equally similar column labels the matcher picks the larger
string, because `heapq.nlargest` ranks `(score, label)` pairs (app.py:16).

## Model

| member | source | states |
|---|---|---|
| Text.LowerAt | app.py:13 | `lower()` keeps the length and lower-cases each character in place |
| Text.UpperAt | app.py:86 | `upper()` keeps the length and upper-cases each character in place |
| Text.StripLeftSpec | app.py:13 | stripping on the left removes exactly a leading run of whitespace; what is left is a suffix that does not start with whitespace |
| Text.StripRightSpec | app.py:13 | stripping on the right removes exactly a trailing run of whitespace; what is left is a prefix that does not end with whitespace |
| Text.LessIrreflexive | app.py:109 | no string sorts before itself |
| Text.LessTransitive | app.py:109 | string order is transitive |
| Text.LessTrichotomy | app.py:109 | any two strings are equal or one sorts before the other |
| Text.LessAsymmetric | app.py:109 | two strings never sort before each other |
| Text.Join | app.py:135 | joining no models gives the empty string, joining one gives that model |
| Text.JoinAppend | app.py:135 | joining one more model appends the separator and that model, so the models appear in list order separated by `', '` |
| Text.TitleFromAt | app.py:31-32 | `title()` keeps the length; each letter is upper-cased at the start of a word and lower-cased after a letter; other characters are kept |
| Sorting.SortBySorted | app.py:112 | the parts sorted by description are in non-decreasing description order |
| Sorting.SortByPermutes | app.py:112 | sorting keeps every part, each as often as before |
| Sorting.SortByStable | app.py:112 | parts with equal descriptions keep their input order |
| Sorting.SortedSet | app.py:109 | `sorted` of a set lists each element exactly once, in strictly ascending order |
| Columns.IndexKeys | app.py:13 | the `normalized` dict has an entry for exactly the normalised string labels |
| Columns.IndexCharacterised | app.py:13 | each entry of `normalized` is a string label of the sheet that normalises to its key, and every string label has its entry |
| Columns.IndexLastWins | app.py:13 | when several string labels normalise alike, the entry is the label of the last such column |
| Columns.BetterIsStrictOrder | app.py:16 | the ranking `get_close_matches` uses (score, then the label itself) is a strict total order |
| Columns.CloseMatch | app.py:16 | there is no match exactly when every label scores below 0.6; otherwise the match is a label scoring at least 0.6 that no other such label outranks |
| Columns.CloseMatchSetDetermined | app.py:16 | the match depends only on which labels there are, not on their order or repetition |
| Columns.FirstUnmatched | app.py:15-20 | every required name before the returned position has a match, and the one at it has none |
| Columns.ResolveTargets | app.py:12-21 | success exactly when every required name has a match; then the dict has exactly the required names as keys, each mapped to an original string label that normalises to its match; otherwise the error names the first required name without a match |
| Columns.Matches | app.py:14-18 | the filled `matches` dict has the required names as keys, each mapped to an original label normalising to its match |
| Columns.FindBestColumnMatches | app.py:12-21 | the method returns the resolution of the six required names |
| Columns.MatchEach | app.py:14-21 | the loop fills `matches` target by target and stops at the first target without a match, agreeing with `ResolveTargets` |
| Columns.UnlabelledIgnored | app.py:13 | a column whose label is not a string does not change the resolution |
| Columns.OrderIndependent | app.py:13-18 | reordering the columns does not change the resolution when no two labels normalise alike |
| Reference.BuildIndex | app.py:34-44 | the loop builds both dicts, skipping rows with a null serial, a later row overwriting an earlier one |
| Reference.IndexedSerials | app.py:34-44 | both dicts have an entry for exactly the serials that occur in the table |
| Reference.UnknownSerial | app.py:75-76 | a serial not in the table is looked up as `MODEL MISSING` and `TYPE MISSING` |
| Reference.LastRowWins | app.py:39-44 | a known serial is looked up as the model and type of its last row in the table, with the sentinel for a null cell |
| Rows.KeptRule | app.py:64-87 | a row is aggregated exactly when it is not the first row, its serial is present and equal to the previous row's, item no. and description are present, and the item no. is not the placeholder |
| Rows.UsesAreKeptRows | app.py:65-96 | the rows that reach the aggregation are exactly the kept ones, one usage each, in row order |
| Rows.NoPlaceholderUses | app.py:86-87 | no aggregated usage carries the placeholder item no. |
| Rows.PlaceholderSpellings | app.py:86 | an item no. is the placeholder exactly when, stripped, it is the letters T, B, D in any case |
| Aggregate.RecordSummarises | app.py:89-95 | recording one kept row keeps every (type, item no.) entry a summary of that pair's rows |
| Aggregate.TallyCharacterised | app.py:89-95 | each `type_spares[type][item no.]` entry exists exactly when a kept row has that pair, and holds the summed total quantity, exactly the models and serials of those rows, and the description and unit price of the last of them |
| Aggregate.TallyTables | app.py:89 | the types of `type_spares` are the types of the kept rows; each type's dict lists every item no. once in first-insertion order |
| Aggregate.TallyOrder | app.py:89 | each type's dict lists its item nos in the order of their first kept rows |
| Aggregate.MachineTallyCharacterised | app.py:96 | `per_machine_spares` has the same types; an (item no., serial) entry exists exactly when that machine has a kept row of the part, and holds that machine's summed spare quantity |
| Aggregate.PeakAmongCorrect | app.py:102-105 | the peak over a set of keys is the largest of 0 and the sums of the item's keys among them |
| Aggregate.PeakCorrect | app.py:102-106 | the peak is the largest of 0 and the item's per-machine sums |
| Aggregate.MaxSpareFor | app.py:102-105 | the innermost loop computes that peak |
| Aggregate.SetPeak | app.py:102-106 | one pass of the middle loop sets one part's peak and changes nothing else |
| Aggregate.FillTable | app.py:100-106 | the middle loop sets the peak of every part of one type and keeps the key order |
| Aggregate.FillMaxSpare | app.py:99-106 | the second pass sets the peak of every part of every type |
| Aggregate.RecordRow | app.py:89-96 | one kept row updates both dicts as one step of the two folds |
| Aggregate.AccumulateRows | app.py:64-96 | the row loop with `last_serial` and `skip_next` leaves both dicts equal to the folds over the kept rows |
| Aggregate.PeakIsBusiestMachine | app.py:96-106 | a part's peak is the largest of 0 and, over the machines using it, the machine's spare quantity summed over all its rows of the part: summed per machine before the maximum |
| Aggregate.WithPeaksKeeps | app.py:99-106 | the second pass changes only the peaks: same types, same keys in the same order, every other field kept |
| Aggregate.BlockExampleUses | app.py:64-87 | in a two-block example the block header rows are dropped and the three part rows kept with the sentinels |
| Aggregate.BlockExampleTotals | app.py:89-106 | in that example the part totals 8 over two machines with peak 3 (1 + 1 on the first machine, 3 on the second) |
| Aggregate.BlockExample | app.py:64-106 | the example end to end, from the rows |
| Scale.ScaleClosedForm | app.py:114-126 | the factor is one quarter more for every full 5 machines, capped at 2.0 from 20 machines on |
| Scale.ScaleMonotone | app.py:114-126 | the factor never decreases with more machines and stays between 1.0 and 2.0 |
| Scale.FinalSpareBounds | app.py:114-127 | the final quantity lies between the peak and twice the peak, equals the peak below 5 machines, and never decreases with more machines |
| Scale.FinalSpareClosedForm | app.py:114-127 | the final quantity is the peak times 4 plus one per full 5 machines (at most 8) quarters |
| Scale.FinalSpareFacts | app.py:114-127 | for any peak, the final quantity has the closed form above, equals the peak below 5 machines, and lies between the peak and twice the peak when the peak is not negative |
| Scale.NotRounded | app.py:127 | the final quantity is not rounded up: a peak of 1 on 5 machines gives 1.25 |
| Report.BuildReport | app.py:108-136 | the method builds the report: the sections of the types in ascending order |
| Report.ReportSections | app.py:109-136 | the outer loop appends one section per type, in order |
| Report.SectionRows | app.py:110-136 | one pass appends the type's header row and then one line per part in description order |
| Report.PartRow | app.py:114-136 | one part's line carries that part's item no., description, unit price and total; its spare quantity is the peak times a quarter more per full 5 machines up to 2.0, so between the peak and twice the peak and equal to the peak below 5 machines; its models cell is the part's models, each once, in ascending order, joined by `', '` |
| Report.EntriesListed | app.py:111-112 | `parts.items()` lists each part once, in insertion order |
| Report.TypesInOrder | app.py:109-110 | the header rows name every equipment type once, in ascending order, and no other |
| Report.SectionLayout | app.py:110-136 | a section is its type's header row followed by one part line per part of the type, in non-decreasing description order |
| Report.SectionParts | app.py:112-136 | a section's lines are the lines of all of the type's parts, each once, and parts with equal descriptions keep their insertion order |
| Report.RowCount | app.py:108-136 | the report has one row per equipment type plus one per part |
| Report.ReportRowCount | app.py:89-136 | for a sheet's kept rows, the report has one row per equipment type plus one per (type, item no.) pair |
| Workbook.ProcessSingleSheet | app.py:29-139 | the method returns the sheet's report or the text of the error it raises |
| Workbook.DisplacedIffShared | app.py:31-32 | the column selection finds every title-cased name exactly when the six required names matched six different labels |
| Workbook.MissingColumnFails | app.py:15-20 | a sheet with an unmatched required name fails with the message naming the first unmatched name in required order |
| Workbook.ResolvedSheetReports | app.py:29-139 | a sheet whose six names match six different labels yields the report of its kept rows; with no kept row, an empty report |
| Workbook.WriteSheet | app.py:148-154 | one pass writes the report, or on an error the message naming the sheet, under the truncated name |
| Workbook.ProcessExcel | app.py:147-154 | one output sheet per input sheet, in order, each depending only on its own input sheet |
| Workbook.SheetNameTruncated | app.py:151 | the written name is the sheet name cut to its first 31 characters |
| Findings.OrZeroKeepsNaN | app.py:80-81 | as written, `or 0` keeps every number and leaves NaN as NaN |
| Findings.BlankPoisonsSum | app.py:81 | as written, a machine's spare sum is NaN exactly when one of its cells is blank or not a number |
| Findings.SumsAgreeWithoutBlanks | app.py:80-81 | without blank cells the sum as written and the corrected sum agree |
| Findings.PeakSkipsNaN | app.py:102-105 | as written, the peak is the largest of 0 and the finite sums: NaN sums are skipped |
| Findings.BlankCellHidesBusiestMachine | app.py:81-105 | a blank cell on the busiest machine makes the peak as written come from another machine |
| Findings.CorrectedCoercion | app.py:80-81 | with a blank cell counting 0, a blank adds nothing to a sum, and on all-number cells the result is the one written |

## Left out

- The Streamlit interface (app.py:158-174): title, uploader, spinner and download button are user interface only.
- `get_ami_data` (app.py:23-27): the SQL query is external I/O; the equipment table is an input sequence of rows.
- Reading and writing the workbook (app.py:142-146, app.py:151, app.py:154-156): a sheet is given as its name, its column labels and its rows as read through the resolved columns; the output is a sequence of named tables.
- The similarity score of `difflib.SequenceMatcher.ratio` is not modelled: it is the parameter `sim`. The way `get_close_matches` picks a candidate from those scores is modelled.
- Text.TitleFromAt: `lower`, `upper` and `title` are modelled on the ASCII letters only; other characters are kept as they are.
- Float arithmetic: quantities are integers and prices reals; float rounding in the sums and in the scale product is not modelled.
- Cells of other types: serial, item no. and description are strings or empty; numeric item numbers, `str(item_no)` on them, and the `TypeError` that sorting mixed descriptions or types would raise are not modelled.
- The rename and selection of columns (app.py:31-32) are modelled only through their error: two required names matched to the same label leave a title-cased name missing. A renamed column that collides with another existing column of the same title is not modelled.
- Other exceptions a sheet can raise (for example a malformed equipment table) are not modelled; only the missing-match and missing-column errors are.
- The exact wording of pandas' `KeyError` message follows pandas' own format for a list of missing labels; it is not tied to a particular pandas version.
- Two input sheets whose names agree in their first 31 characters are written as two entries under the same name; what the workbook writer then does is not modelled.
- The dict iteration order of the peak pass (app.py:99-106) is not modelled: the loops pick keys from sets, and the result is proved not to depend on the order.
- The model uses the corrected quantity coercion (a blank counts 0); the coercion as written is kept in the Findings module (see below).

## Findings

| source | as written | input that shows it | evidently intended | confidence | as-written member | corrected member |
|---|---|---|---|---|---|---|
| app.py:80-81 | `pd.to_numeric(cell, errors='coerce') or 0` leaves NaN unchanged, because NaN is truthy, so a blank quantity poisons the machine's spare sum (and, through the same `+=`, the part's `Total qty`) and `max` at app.py:105 silently skips the NaN sum | one part on two machines: spare cells 4 and blank on the first, 1 on the second; as written the first sum is NaN and the peak is 1 | a blank or non-numeric quantity counts 0, so the first sum is 4 and the peak is 4 | not executed; follows from Python's truthiness of NaN and NaN comparisons | Findings.BlankCellHidesBusiestMachine | Findings.CorrectedCoercion |
