# ETABS to RAM load transfer — a Dafny model

The application moves column axial loads from an ETABS analysis model onto a
loading layer of a RAM Concept model. Its core works on one shared table of
columns (`cols_df`): one row per column with its name (`MyNames`), its story
(`StoryName`) and its ETABS point (`Point1X`/`Point1Y`). Two user actions
change that table in place:

- **Calibration** applies a point transform (derived from two reference-point
  pairs) to every row's ETABS point and stores the result as the row's RAM
  point (`RAM_X`/`RAM_Y`).
- **Load transfer** takes the selected story and the ordered selection of load
  cases. For each case it asks ETABS for the peak axial force of the columns
  on that story, and stores the answers under the key `P_max_<case>`. When two
  or more cases are selected it adds a combined key, `P_max_<case1>_<case2>…`,
  holding the row-wise sum of the per-case columns, where a missing entry
  counts as zero. It then hands three index-aligned lists (RAM x, RAM y, and
  the value under the last key) for the rows of the story to the loading-layer
  write.

The model has four modules:

- `LoadKeys` (`load_keys.dfy`): key naming, as functions.
- `ColumnData` (`column_table.dfy`): the table as a sequence of `Column`
  records. It gives the effect of each action as a function of the table
  before it, plus lemmas on those functions.
- `LoadTransfer` (`load_transfer.dfy`): the class `ColumnTable`. Methods with
  loops update `rows` in place and are proved equal to those functions.
- `AnalysisTypes` (`analysis_types.dfy`): the table of analysis-type codes.

Some parts of the core stay outside the model and become inputs:

- The ETABS peak-force query (`find_max_axial` after `change_ETABS_output_case`)
  is a function parameter `PeakQuery`. It maps a case and the list of names
  asked for to a map from name to force.
- The coordinate transform (`calibrate` and `convert_point_to_new_coord_system`)
  is a parameter `Point -> Point`.
- The loading-layer write is the returned `LayerInput` value.

Forces are `real`. A missing pandas entry (NaN) is `None`.

Three behaviours of the code are easy to miss, and this model keeps them:

- A failure does not roll back. The load columns are written before the
  output lists are read, so a transfer that then fails still leaves them in
  the table. `TransferLoads` changes `rows` on every path.
- The code fails on an uncalibrated table because the `RAM_X` column does not
  exist. That happens whatever the story is. It happens before the empty-selection
  failure (`df_keys[-1]`), because the arguments are evaluated in that order.
  `TransferLoads` reports `CalibrationMissing` first.
- With two or more cases, rows of other stories get the combined key holding
  0. This is because `DataFrame.sum(axis=1)` skips missing entries. Under each
  case key they get a missing entry. Both hold when the row's name is unique
  in the table and the query reports only the names it was asked for;
  otherwise such a row picks up the force reported for its name.
- Calibration of a table without rows fails: the row-wise apply then returns
  no `RAM_X`/`RAM_Y` pair to assign. `Calibrate` reports this and leaves the
  table, including its calibrated flag, unchanged.

## Model

| member | source | states |
|---|---|---|
| `LoadKeys.CaseKeysInOrder` | ETABS_to_RAM_APP.py:456-471 | the i-th per-case key is "P_max_" followed by the i-th selected case, one key per case in selection order |
| `LoadKeys.CaseKeyInjective` | ETABS_to_RAM_APP.py:470 | two cases get the same key only if they are the same case |
| `LoadKeys.CombinedKeySpelling` | ETABS_to_RAM_APP.py:476-477 | the combined key is "P_max" followed by "_" and the case name for each case, in order |
| `LoadKeys.CombinedKeyExample` | ETABS_to_RAM_APP.py:476-477 | selecting DL then LL gives the key P_max_DL_LL |
| `LoadKeys.CombinedKeyIsFresh` | ETABS_to_RAM_APP.py:470-478 | with two or more cases the combined key differs from every per-case key, so writing it cannot overwrite a per-case column |
| `LoadKeys.OutputKeyChoice` | ETABS_to_RAM_APP.py:479-481 | the key written out (the last key) is the combined key for several cases and "P_max_" followed by the case for a single case |
| `LoadKeys.WrittenKeysContents` | ETABS_to_RAM_APP.py:456-481 | there are as many keys as cases, plus one combined key only when more than one case is selected |
| `ColumnData.StoryRowsMembers` | ETABS_to_RAM_APP.py:462 | the story filter keeps exactly the rows whose story is the selected level |
| `ColumnData.StoryRowsAppend` | ETABS_to_RAM_APP.py:490-497 | filtering keeps table order: the filter of a concatenation is the concatenation of the filters |
| `ColumnData.StoryRowsCount` | ETABS_to_RAM_APP.py:490-497 | the filtered rows are as many as the rows on the story, counted independently |
| `ColumnData.StoryNamesFrom` | ETABS_to_RAM_APP.py:460-465 | every name in the peak-force query belongs to a row on the selected story |
| `ColumnData.CalibrateOverwrites` | ETABS_to_RAM_APP.py:429-439 | a second calibration replaces the first: the result depends only on the last transform |
| `ColumnData.CalibrateRowsShape` | ETABS_to_RAM_APP.py:429-439 | after calibration every row has RAM coordinates equal to the transform of its own ETABS point, and its name, story, ETABS point and loads are unchanged |
| `ColumnData.CaseColumnsAt` | ETABS_to_RAM_APP.py:470-471 | in a row's written entries, every selected case's key holds the force reported for that row's name, even when the case is selected twice |
| `ColumnData.CaseColumnsKeys` | ETABS_to_RAM_APP.py:458-471 | the per-case loop writes exactly the keys of the selected cases |
| `ColumnData.RowSumIsCaseSum` | ETABS_to_RAM_APP.py:478 | the row-wise sum over the case keys equals the sum of the reported forces, a case with no report for the row adding zero |
| `ColumnData.ApplyCasesRows` | ETABS_to_RAM_APP.py:458-471 | after the per-case loop each row is its old self with its per-case entries laid over its load columns; the names queried are those on the story of the table before the loop |
| `ColumnData.TransferRows` | ETABS_to_RAM_APP.py:456-481 | the whole transfer lays over each row entries that depend only on its name, the story's names, the cases and the reports |
| `ColumnData.CaseValueAfterTransfer` | ETABS_to_RAM_APP.py:460-471 | after a transfer each row's "P_max_"+case entry is the force reported for its name for that case, or missing when not reported |
| `ColumnData.CombinedValueAfterTransfer` | ETABS_to_RAM_APP.py:475-478 | with two or more cases each row's combined entry is the sum over the cases of its reported forces, missing counted as zero |
| `ColumnData.TransferKeepsTheRest` | ETABS_to_RAM_APP.py:456-481 | the transfer adds exactly the written keys to each row and leaves every other load column, the name, story, ETABS point and RAM point unchanged |
| `ColumnData.OtherStoryGetsNoForce` | ETABS_to_RAM_APP.py:460-471 | a uniquely named column of another story gets a missing entry under every case key, when the query reports only names it was asked for |
| `ColumnData.OtherStoryCombinedIsZero` | ETABS_to_RAM_APP.py:478 | such a column gets 0 under the combined key, because the sum skips missing entries |
| `ColumnData.TransferIdempotent` | ETABS_to_RAM_APP.py:471-478 | re-running a transfer with the same selection and reports overwrites rather than accumulates: two runs give the table of one |
| `ColumnData.CalibrateCommutesWithTransfer` | ETABS_to_RAM_APP.py:429-478 | calibration and load transfer touch disjoint fields, so their order does not change the table |
| `ColumnData.CalibratedStoryRows` | ETABS_to_RAM_APP.py:490-495 | in a calibrated table, the rows of any story have RAM coordinates |
| `ColumnData.LayerLoadsShape` | ETABS_to_RAM_APP.py:487-499 | the x, y and value lists have equal length, the number of rows on the story; a story with no rows gives three empty lists; the k-th entries of the three lists come from one row on the story, the k-th one queried |
| `ColumnData.TransferOutputValues` | ETABS_to_RAM_APP.py:456-499 | once the table is calibrated and a transfer has run, the k-th value written out belongs to the k-th column on the story: its reported force (single case) or its sum over the cases (several cases) |
| `LoadTransfer.ColumnTable.constructor` | ETABS_to_RAM_APP.py:338 | the pulled table has one row per column that the column finder returns, with no RAM coordinates and no load columns |
| `LoadTransfer.ColumnTable.Calibrate` | ETABS_to_RAM_APP.py:429-439 | on a non-empty table the row-by-row loop leaves the table equal to the calibrated table and marks the RAM columns as present; on an empty table it reports failure and changes nothing |
| `LoadTransfer.ColumnTable.AssignCaseColumn` | ETABS_to_RAM_APP.py:471 | the row-by-row loop gives every row the reported force for its name, or a missing entry, under the key; the key joins the table's load columns |
| `LoadTransfer.ColumnTable.AssignSumColumn` | ETABS_to_RAM_APP.py:478 | the row-by-row loop gives every row the sum of its entries under the keys, missing as zero, under the new key |
| `LoadTransfer.ColumnTable.TransferLoads` | ETABS_to_RAM_APP.py:447-499 | the table becomes the transferred table on every path; the result is "calibration missing" on an uncalibrated table; otherwise it is "no load case" on an empty selection; otherwise it is the story's three lists under the last key |
| `AnalysisTypes.CodeOf` | ETABS_to_RAM_APP.py:38-53 | the lookup succeeds exactly for the listed types, and the i-th listed type gets code i + 1, a code from 1 to 14 |
| `AnalysisTypes.DefaultType` | ETABS_to_RAM_APP.py:185-187 | the selector's default, the first listed type, has code 1 |
| `AnalysisTypes.NamesAreKeys` | ETABS_to_RAM_APP.py:38-53 | the selector lists the 14 table names in table order, so the i-th listed type has code i + 1 |
| `AnalysisTypes.CodesDistinct` | ETABS_to_RAM_APP.py:38-53 | different types have different codes |

## Left out

- The ETABS and RAM calls are foreign calls on external state, so none of them is modelled. This covers opening, analysing, switching the output case, querying frames and peak forces, listing layers, writing the layer, saving and shutting down. The peak-force query is an input function. The layer write is the returned lists. A "case not found" error from ETABS would come from one of these calls, so it is not modelled.
- The rigid-transform maths (`calibrate`, `convert_point_to_new_coord_system`) lives in utility modules that are not part of this model and uses floating-point trigonometry. The transform is an opaque parameter, so the model says nothing about rotation or translation.
- The tkinter interface is not modelled: widgets, button enabling, list-box striping and reading the selection. The selected story, cases and layer are parameters.
- Logging (`writeToLog`, `timestamp`) is console and widget output, so it is left out.
- Parsing the calibration entries with `float(...)` reads GUI text, so it is left out.
- Forces and coordinates are exact `real`s, so float rounding of the sums is not modelled.
- `ColumnData.OtherStoryGetsNoForce`: it assumes two facts the code does not check. The column's name is unique, and the query reports only the names it was asked for. Without them, a column of another story whose name matches a reported one gets that force.
- `LoadTransfer.ColumnTable.TransferLoads`: the peak-force query is modelled as a function of the case and the names. So two queries for the same case and names return the same forces, as a fixed analysis result does.
