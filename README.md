# Web traffic transform — Dafny model

`transform_web_traffic.py` reads every CSV object of an S3 bucket. It keeps the
tables that have the columns `user_id`, `path` and `length`, sums `length` per
`(user_id, path)` and writes a matrix with one row per user, one column per
path, and 0 where a user never visited a path. This project models the part
between the fetch and the write (lines 42-77) and proves what it computes.

Modules, in the order data flows through them:

- `Outcomes` (outcomes.dfy): the three ways a run ends without output, plus
  `Result` and `Option`.
  - A `ClientError` from the object store ends the loop; the script prints
    its message and exits.
  - A body that `pd.read_csv` cannot read (empty, not UTF-8, ragged rows)
    raises an exception that nothing catches, so the script stops there.
  - An empty list makes `pd.concat` raise.
- `Frames` (frames.dfy): a parsed table as a column store.
  - `Table` is a frame with distinct column names and one column of `height`
    values per name. The three named columns hold user ids, text paths and
    integer lengths.
  - The module also has the required-column test (line 56), the projection
    (line 60) and the reading of rows as `Visit`s.
- `KeyFilter` (key_filter.dfy): `re.match('.*\.csv$', key)`, with Python's
  meaning of `.` and `$`. A dot never matches a newline. `$` also matches just
  before a final newline, so `"a.csv\n"` is accepted. The match is
  case-sensitive, so `"a.CSV"` is not accepted.
- `Ingestion` (ingestion.dfy): the `for` loop of lines 45-64.
  - The loop is a `while` loop that appends to a sequence, proved against the
    specification function `Accepted`.
  - `Accepted` is related to a front-to-back reference: the error of the
    first CSV object that cannot be fetched or parsed (`FirstFailure`) and
    the projections of the complete CSV tables (`Kept`).
- `Aggregation` (aggregation.dfy): `pd.concat` (line 68) and the
  `groupby(...).sum()` of line 70. The totals are proved equal to an
  independent per-pair sum `SumFor`.
- `Pivot` (pivot.dfy): `reset_index`/`pivot`/`fillna`/`astype` (lines 72-77).
  - `pivot` is `Reshape`, which gives a map of maps with `None` for a missing
    combination.
  - `fillna(0)` is `FillMissing`.
  - `Stack` is the inverse of `Reshape`.
- `Pipeline` (pipeline.dfy): the whole chain, `Transform`, and the end-to-end
  statement `OutputMeaning`.

User ids are values of an arbitrary type `U`, paths are strings and lengths
are unbounded integers. The matrix is a `map<U, map<string, int>>`.

## Model

| member | source | states |
|---|---|---|
| KeyFilter.IsCsvKey | transform_web_traffic.py:49 | an accepted key ends in `.csv`, or in `.csv` followed by one newline; a key without newlines that ends in `.csv` is accepted |
| KeyFilter.IsCsvKeyMatchesPattern | transform_web_traffic.py:49 | the key test accepts a key iff, from its start, newline-free characters are followed by `.csv` at the end of the key or just before a final newline |
| Frames.HasRequired | transform_web_traffic.py:56 | the test holds iff the set of the names `user_id`, `path`, `length` is a subset of the table's column names |
| Frames.Project | transform_web_traffic.py:60 | the projected table has exactly the columns `user_id`, `path`, `length` in that order, the same height, and the same values in those columns |
| Frames.ProjectKeepsVisits | transform_web_traffic.py:60 | projection does not change the rows read as visits |
| Ingestion.Step | transform_web_traffic.py:49-60 | one pass of the loop body fails iff the key passes the `.csv` test and the object cannot be fetched or parsed; it adds at most one table, always with exactly the three required columns, and adds one iff the key passes the test and the parsed table has all three columns |
| Ingestion.Accepted | transform_web_traffic.py:42-60 | every table in the list the loop builds has exactly the three required columns |
| Ingestion.Ingest | transform_web_traffic.py:42-64 | the loop returns the list `Accepted` describes, or the first client error or unreadable CSV body |
| Ingestion.AcceptedAppend | transform_web_traffic.py:45-60 | running the loop over two listings one after the other is the loop over their concatenation: the lists are joined in order, and an error in the first part wins |
| Ingestion.AcceptedStopsAtError | transform_web_traffic.py:52-64 | once a client error or an unreadable CSV body has occurred, the rest of the listing does not change the outcome |
| Ingestion.DroppedObjectChangesNothing | transform_web_traffic.py:49-60 | an object that adds no table can be removed from the listing without changing the outcome |
| Ingestion.NonCsvKeyIgnored | transform_web_traffic.py:49 | an object whose key fails the `.csv` test does not affect the outcome, even if fetching it would fail |
| Ingestion.IncompleteTableIgnored | transform_web_traffic.py:56-60 | a CSV table missing `user_id`, `path` or `length` is skipped and does not affect the outcome |
| Ingestion.Kept | transform_web_traffic.py:56-60 | the reference list of projected complete CSV tables has only tables with the three required columns |
| Ingestion.AcceptedMeaning | transform_web_traffic.py:42-64 | the loop fails with the error of the first CSV object that cannot be fetched (its client error message) or parsed; otherwise it returns, in listing order, exactly the projections of the CSV tables that have all three required columns |
| Aggregation.AppendRows | transform_web_traffic.py:68 | stacking two tables with the same columns keeps those columns, adds the heights and puts each column of the second table under that of the first |
| Aggregation.VisitsAppend | transform_web_traffic.py:68 | the rows of two stacked tables are the rows of the first followed by the rows of the second |
| Aggregation.Concat | transform_web_traffic.py:67-68 | concatenation fails with "no objects to concatenate" iff the list is empty; otherwise the result has the three columns, the summed height and the rows of the tables in list order |
| Aggregation.AllVisitsLength | transform_web_traffic.py:68 | the unified dataset has as many rows as the kept tables together |
| Aggregation.SumForAppend | transform_web_traffic.py:70 | the total of a pair over two row sequences is the sum of its totals over each |
| Aggregation.SumForAbsent | transform_web_traffic.py:70 | a pair that occurs in no row totals 0 |
| Aggregation.GroupSum | transform_web_traffic.py:70 | there is one total per distinct `(user_id, path)` pair among the rows and no other, and it equals the sum of `length` over the rows carrying that pair |
| Aggregation.SumForPermutation | transform_web_traffic.py:68-70 | the total of a pair is the same for any reordering of the rows |
| Aggregation.GroupSumPermutation | transform_web_traffic.py:68-70 | the grouped totals are the same for any reordering of the rows |
| Aggregation.GroupSumSplit | transform_web_traffic.py:68-70 | the totals of rows split over two files are the per-file totals added pair by pair |
| Aggregation.SingleVisitKeepsLength | transform_web_traffic.py:70 | a pair that occurs in one row only has that row's length as its total |
| Pivot.Reshape | transform_web_traffic.py:75 | one row per distinct user and one column per distinct path in the totals; a cell is present iff the pair has a total, and then holds it |
| Pivot.StackReshape | transform_web_traffic.py:75 | stacking the reshaped matrix gives back exactly the totals |
| Pivot.FillMissing | transform_web_traffic.py:76-77 | the filled matrix has the same rows and columns, keeps every present value and has the fill value where a cell was missing |
| Pivot.PivotTotals | transform_web_traffic.py:72-77 | rows are exactly the distinct users, every row's columns are exactly the distinct paths, and a cell is the pair's total, or 0 where the pair never occurred |
| Pipeline.Output | transform_web_traffic.py:42-77 | an error of the loop is the run's error; past the loop, the run fails iff no table was kept, and then with the concat error; the matrix is dense: all its rows have the same paths |
| Pipeline.Transform | transform_web_traffic.py:42-77 | the script's chain of ingest, concat, group-sum and pivot computes `Output` |
| Pipeline.UsersOfTotals | transform_web_traffic.py:70-75 | the users in the grouped totals are exactly the users among the rows |
| Pipeline.PathsOfTotals | transform_web_traffic.py:70-75 | the paths in the grouped totals are exactly the paths among the rows |
| Pipeline.PivotReports | transform_web_traffic.py:70-77 | the pivoted totals have a row for every user among the rows, a column for every path, and in each cell the total length of that user's rows on that path (0 if none) |
| Pipeline.OutputMeaning | transform_web_traffic.py:42-77 | end to end: the first CSV object that cannot be fetched or parsed ends the run with its error; otherwise no kept table means the concat error; otherwise the output reports the rows of the kept tables |
| Pipeline.OutputIgnoresRowOrder | transform_web_traffic.py:68-77 | two runs whose kept rows are the same multiset write the same matrix, whatever order the files and rows come in |
| Pipeline.TwoFileExample | transform_web_traffic.py:70-77 | the rows (1,/a,5),(1,/b,3) of one file followed by the rows (1,/a,2),(2,/b,7) of another, once grouped and pivoted, give row 1 = {/a: 7, /b: 3} and row 2 = {/a: 0, /b: 7} |

## Left out

- Command-line parsing and the bucket, prefix and output-name settings (lines 9-28) are configuration, not logic.
- The S3 resource, bucket listing, prefix filter and object fetch (lines 31-52) are network I/O. The listing becomes a parameter: a sequence of `SourceObject`s, each with its key and what fetching it would yield (a parsed table or a client error).
- A `ClientError` raised while the listing itself is being paged (line 46) is not modelled. Only a failing fetch of a CSV object ends the loop.
- Printing the error message and calling `exit()` (lines 62-64) are reduced to the `ClientError` result. The process exit status is not modelled.
- `pd.read_csv` parsing and dtype inference (line 52) belong to a library. A body it reads is given as a table assumed to hold user ids in `user_id`, text in `path` and integers in `length`, with distinct column names; a body it refuses is `ParseFailed`, whatever the reason. Which bytes it refuses is not modelled.
- Writing the CSV (line 78) is file I/O. `Output` is the matrix that would be written.
- The float NaN that `pivot` puts in missing cells, and the `astype('int')` casts (lines 74, 77), are not modelled as floats. A missing cell is `None`, and both casts are taken as the identity on integer totals.
- Pivot.PivotTotals: a cell equals the exact total. In the script, a path column with a missing cell becomes float64 at line 75, so a total above 2^53 there is rounded before line 77 turns it back into an integer. Both casts go to the platform's C `long`, which is 32-bit on some platforms. The model's cells equal the script's only while every total fits both float64's exact integer range and that integer type.
- The sorted row and column order that `groupby` and `pivot` produce comes from the library. The model uses maps and sets, which have no order.
- Lengths and totals are unbounded integers. Overflow of the integer type pandas uses for them is not modelled.
- `groupby` drops rows whose `user_id` or `path` is missing (NaN). Cells are never missing in this model, so no row is dropped.
- Concat: `pd.concat` also aligns tables with different columns. Here it is only applied to projected tables, which all have the same three columns, so that case never arises.

## Notes on the script's behaviour

- There is no per-row validation. Lines 57-59 between the column check and the append are empty, so every row of a kept table is aggregated, whatever its path or length looks like. The model does the same.
- When no table was kept, `pd.concat` of the empty list raises and no output is written. There is no dedicated message. The model returns `NoObjectsToConcatenate`.
- Any `ClientError` aborts the whole loop, not just the object that caused it (`AcceptedStopsAtError`, `OutputMeaning`).
- After a `ClientError`, the script calls `exit()` without an argument, which ends the process with status 0. Exit status is outside the model.
