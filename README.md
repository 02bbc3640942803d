# Roster lookup of bob-3sc, modelled in Dafny

The page reads a colour-coded roster from a spreadsheet and shows which project a person is
assigned to in the morning (AM) and the afternoon (PM) of today. The roster has one sheet per
month, with names in column B and, in row 2, the day numbers. Each day has two cells: the AM cell
in the day's column and the PM cell in the column after it. The page works out an assignment in
four steps:

1. It finds the person's row. The first name equal to the query, ignoring case, wins.
2. It finds the day's column. The first header cell whose number is the day of the month wins.
3. It reads the legend. The three blocks of the `KEY` sheet are flattened in order into a list of
   `{key, value: {value, color}}` entries.
4. It reads the two cells of that row and classifies each one on its own. A cell whose background
   colour has no channels is a `Holiday`. Any other cell gets the first legend entry with the
   same text and a structurally equal colour, or `undefined` when no entry matches.

On a Saturday or Sunday the page shows a fixed `Weekend` pair and reads nothing. When no schedule
can be obtained (there is no access token, or a read or the processing throws), it shows the
`N/A` pair.

The model is pure: the core of `schedule.js` is built from recursion and from `findIndex`, `find`,
`map` and `flat`, and the model uses datatypes, functions and lemmas to match.

- `ColumnCodec`: `columnNumberToIndex`, the bijective base-26 column labels. There is also a
  decoder, and both round trips are proved.
- `Seqs`: `findIndex`, `find`, and a `map` whose callback may throw. Each is fully specified.
- `Sheet`: the cell records of the spreadsheet responses, the `{key, value}` records, and the fixed
  `Weekend`, `N/A` and `Holiday` assignments. A colour is a map from channel name to value, so
  `_.isEqual` becomes map equality and "no channels" becomes the empty map.
- `Lookup`: the row lookup (`getRowNumber`) and the column lookup (`getColumnNumber`).
- `Ranges`: the A1 ranges that are read, including the AM/PM range that `getCell` builds. A small
  reader of `sheet!<cell>:<cell>` ranges states which sheet and which cells each range covers;
  whole-column and whole-row ranges (`B:B`, `2:2`) are only split at `!`.
- `Legend`: `getKeys`.
- `Slots`: how `getScheduledEntry` classifies the two cells.
- `Schedule`: `getScheduledEntry` and what `renderSchedule` decides to show.
- `Scenarios`: whole resolutions on a small concrete June sheet.

The model treats these as inputs:

- The date is three parameters: the weekday (`getDay`), the day of the month (`getDate`) and the
  month's sheet name.
- The access token is a boolean.
- `toLowerCase` is a function parameter `lower`.
- Each kind of spreadsheet read is a function from the range it asks for to the part of the
  response the code uses. `None` stands for a failed request or for a response without that part.
  A JavaScript `TypeError` thrown while handling a response becomes `None` or `Failed`. Every
  such throw ends in the `N/A` pair.

Behaviour of the code that the model keeps, where it may surprise a reader:

- A name or day that is not found is not an error at that point. `getCell` still builds a range
  from `null`. `columnNumberToIndex(null)` is `""` because `null <= 0`, and `null + 1` is `1`, so
  a missing row and day give `MON!null:Anull`. Only the failure of that read leads to `N/A`.
- Names are compared after lower-casing, with no trimming: `"  Alice "` does not find `alice`.
- A non-holiday cell that matches no legend entry gives an `undefined` slot. There is no
  "Key not found" placeholder, and the legend has no synthetic "Not assigned" entry.
- There is no earliest supported date. The date is the page's load time (`today`), not a date
  typed in.
- The code throws, and so the page shows `N/A`, when:
  - a legend row has fewer than two cells, or its first cell has no `effectiveValue`;
  - some cell of the AM/PM read has no `effectiveFormat`;
  - the read returns fewer than two cells;
  - the AM or the PM cell has no `backgroundColor`.

## Model

| member | source | states |
|---|---|---|
| `ColumnCodec.ColumnNumberToIndex` | schedule.js:218-227 | the label is empty exactly when the column number is at most 0; every character is a letter A–Z |
| `ColumnCodec.DecodeEncode` | schedule.js:218-227 | decoding the label of any positive column gives that column back |
| `ColumnCodec.EncodeDecode` | schedule.js:218-227 | encoding the value of any A–Z label gives the label back |
| `ColumnCodec.ColumnNumberToIndexInjective` | schedule.js:218-227 | distinct positive columns get distinct labels |
| `ColumnCodec.ColumnNumberToIndexOnto` | schedule.js:218-227 | every non-empty A–Z label is the label of some positive column |
| `ColumnCodec.ColumnNumberToIndexExamples` | schedule.js:218-227 | 1→A, 26→Z, 27→AA, 52→AZ, 53→BA, 702→ZZ, 703→AAA; 0 and negatives give "" |
| `Seqs.FindIndex` | schedule.js:187-189 | `findIndex`: the result is an index whose element satisfies the predicate and no earlier one does; `None` exactly when no element does |
| `Seqs.FindIndexUnique` | schedule.js:187-189 | any first satisfying index is the one `findIndex` returns, so its contract determines it |
| `Seqs.FindIndexAgree` | schedule.js:187-189 | predicates that agree on every element give the same index |
| `Seqs.FindIndexPrefix` | schedule.js:206-208 | elements after a match never change the index found |
| `Seqs.Find` | schedule.js:89-96 | `find`: the result is the element at the first satisfying index; `None` exactly when no element satisfies |
| `Seqs.FindPrefix` | schedule.js:89-96 | elements after a match never change the element found |
| `Seqs.MapAll` | schedule.js:170-173 | a `map` whose callback may throw: it succeeds exactly when the callback succeeds on every element, and then gives the element-wise image with the same length |
| `Seqs.MapAllAppend` | schedule.js:137-147 | mapping a concatenation succeeds exactly when mapping both parts does, and gives the concatenation of the results |
| `Lookup.RowNumber` | schedule.js:187-191 | the result is in 1..\|names\|, the entry at that row matches the name ignoring case and no earlier entry does; `null` exactly when no entry matches; absent entries never match |
| `Lookup.RowNumberIgnoresCase` | schedule.js:187-189 | two queries with the same lower-case form find the same row |
| `Lookup.RowNumberFirstMatchWins` | schedule.js:187-191 | rows after the first match do not affect the row found |
| `Lookup.ColumnNumber` | schedule.js:206-210 | the result is in 1..\|header\|, the cell at that column has `numberValue` equal to the day and no earlier cell does; `null` exactly when none does; cells without an `effectiveValue` never match |
| `Lookup.ColumnNumberFirstMatchWins` | schedule.js:206-210 | header cells after the first match do not affect the column found |
| `Ranges.SlotColumns` | schedule.js:158-159 | for a column c ≥ 1, the AM letters decode to c and the PM letters to c + 1; for a `null` column they are "" and "A" |
| `Ranges.DecimalText` | schedule.js:161 | the printed row number is a non-empty string of decimal digits |
| `Ranges.DecimalRoundTrip` | schedule.js:161 | the printed row number reads back as the same number |
| `Ranges.CellRangeSheet` | schedule.js:161 | whatever the row and column, the AM/PM range reads from the month's own sheet (the text before its first `!` is the month) |
| `Ranges.CellRangeCells` | schedule.js:157-161 | with a row r and a column c ≥ 1, the range parses as exactly the two cells (c, r) and (c + 1, r) of the month's sheet |
| `Ranges.NameRangeSheet` | schedule.js:178-179 | the names are read from the month's sheet, range `B:B` (all of column B) |
| `Ranges.HeaderRangeSheet` | schedule.js:195-196 | the day numbers are read from the month's sheet, range `2:2` (all of row 2) |
| `Ranges.LegendRangesBlocks` | schedule.js:122 | the three legend blocks lie on sheet `KEY` and are each two columns wide: A2–B31, A34–B48, D2–E9, in that order |
| `Ranges.SplitAt` | schedule.js:161 | part of the reference range reader, which the roster code does not have, used to check what line 161 builds: splitting at `!` fails exactly when there is no `!`; otherwise the parts rejoin to the range and the first part holds no `!` |
| `Ranges.SplitAtJoin` | schedule.js:161 | the reference reader inverts the `!` join of line 161: splitting `sheet!rest`, where the sheet name has no `!`, gives back the sheet and the rest |
| `Ranges.CellRangeExample` | schedule.js:157-161 | row 4, column 10 is read as `JUN!J4:K4` |
| `Ranges.CellRangeCarryExample` | schedule.js:157-161 | row 12, column 26 is read as `JUN!Z12:AA12` (the PM letters carry over) |
| `Ranges.CellRangeNoRowExample` | schedule.js:157-161 | a row that was not found prints as `null`: `JUN!Jnull:Knull` |
| `Ranges.CellRangeNullExample` | schedule.js:157-161 | with neither row nor column found, the range is `JUN!null:Anull` |
| `Sheet.TextOf` | schedule.js:142 | a cell's text is its `stringValue` when it has one, and "" otherwise |
| `Legend.KeyOfRow` | schedule.js:139-145 | a legend row gives an entry exactly when it has at least two cells, both present, and its first cell has an `effectiveValue`; the entry's key is the first cell's `stringValue`, its text is the second cell's text and its colour the second cell's `backgroundColor` (`undefined` without an `effectiveFormat`) |
| `Legend.GetKeys` | schedule.js:137-147 | the legend has as many entries as all blocks have rows, and equals the row-by-row mapping of the blocks' rows concatenated in order |
| `Legend.GetKeysDefined` | schedule.js:137-147 | the legend is built exactly when every row of every block is well formed |
| `Legend.GetKeysAt` | schedule.js:137-147 | row i of block b is legend entry `Offset(b) + i`, so the blocks keep their order and each row keeps its place |
| `Legend.LegendTextDefault` | schedule.js:142 | an entry whose second cell holds no string has the text "" |
| `Legend.ConcatAt` | schedule.js:147 | row i of block b sits at position `Offset(b) + i` of the flattened rows |
| `Legend.ConcatLength` | schedule.js:147 | the flattened rows number the sum of the block lengths |
| `Slots.Classify` | schedule.js:85-109 | a colour without channels gives `Holiday` with the cell's text and colour `{}`; otherwise the result is the earliest legend entry with equal text and equal colour, and `undefined` exactly when no entry matches |
| `Slots.ClassifyEarlierEntryWins` | schedule.js:89-96 | once an entry matches, entries after it (duplicates included) never change the assignment |
| `Slots.ClassifyHolidayIgnoresLegend` | schedule.js:85-109 | a cell whose colour has no channels is a Holiday whatever the legend holds |
| `Slots.SlotOf` | schedule.js:170-173 | a read cell gives `{value, color}` exactly when it exists and has an `effectiveFormat`; its text defaults to "" |
| `Slots.SlotsOf` | schedule.js:170-173 | the cells are mapped one by one, and the mapping fails exactly when some cell does |
| `Slots.ClassifyPair` | schedule.js:84-114 | the pair resolves exactly when there are two cells and both have a background colour; AM is classified from the first cell and PM from the second |
| `Slots.ClassifyPairIndependent` | schedule.js:89-109 | the AM assignment does not depend on the PM cell, and the PM assignment does not depend on the AM cell |
| `Schedule.Fetch` | schedule.js:76-84 | the data of a resolution exists exactly when the names, header and legend reads succeed, the legend is well formed, the read of the cells at the row of the name and the column of the day succeeds, and every cell has an `effectiveFormat`; it is then the legend together with those cells' `{value, color}` |
| `Schedule.GetScheduledEntry` | schedule.js:70-115 | no token exactly when the outcome is `NoToken`; with a token it fails exactly when the data cannot be fetched or the pair cannot be classified, and once the data is fetched it is the classification of the two cells against the legend |
| `Schedule.RenderSchedule` | schedule.js:7-39 | an empty name is refused and nothing else is; a weekend gives the Weekend pair; a working day without a token, or with a failed resolution, gives the N/A pair |
| `Schedule.WeekendDays` | schedule.js:18 | of the weekdays 0–6 numbered by `getDay`, exactly Sunday (0) and Saturday (6) are the weekend |
| `Schedule.WorkingDayShown` | schedule.js:21-39 | on a working day with a token, when every read succeeds and both cells have a colour, the page shows the AM cell and the PM cell each classified against the legend |
| `Schedule.WeekendReadsNothing` | schedule.js:18-25 | on a weekend the page depends neither on the token nor on anything the spreadsheet holds |
| `Schedule.ResolvedIsShown` | schedule.js:26-39 | a resolved schedule is shown as it is, `undefined` slots included |
| `Schedule.HolidayCellShown` | schedule.js:98-103 | on a working day, an AM cell with colour `{}` shows as Holiday with the cell's text |
| `Scenarios.NameIsNotTrimmed` | schedule.js:187-189 | `"  Alice "` does not find `alice`, while `"ALICE"` does |
| `Scenarios.BobOnThursday` | schedule.js:7-114 | Bob on Thursday 15 June: the AM cell matches the Project X entry, and the black PM cell is a Holiday |
| `Scenarios.ZedIsNotOnTheRoster` | schedule.js:157-191 | a name not on the roster leads to a read of `JUN!Jnull:Knull`; when it fails, the page shows N/A |
| `Scenarios.SaturdayIsWeekend` | schedule.js:18-25 | Saturday shows the Weekend pair even without a token |

## Left out

- Network I/O is not modelled: `googleSheetGET`, the axios calls, URL and query-string building,
  and the navigation of the response trees. Each read is a parameter that returns the navigated
  part or `None`. A legend block without `rowData` counts as part of that navigation. A legend row
  without `values` is modelled as a row with no cells, which throws just like the code does.
- google-auth-init.js (the OAuth token client and its revoke callback) is not part of this model.
  Only whether a token is present matters, and that is a boolean input.
- DOM work is not modelled: `renderInfo`, `renderError`, the button states, and the text and
  background writes. `View` is what the page would show. When a slot is `undefined`, the page's
  own `am.key` / `pm.key` throws; the model keeps such a slot as `None`.
- The ×255 scaling of colour channels with `?? 0` defaults is floating-point render glue.
- `Promise.all` is modelled as sequential composition. Any one of the three reads failing fails
  the whole resolution.
- The clock and locale reads (`today`, `month`) are parameters.
- `alert`, `console.error` and the text of caught error messages are I/O.
- JavaScript numbers are not modelled as floats. Row and column numbers are naturals, header day
  numbers and colour channels are reals, and the emoji of the Weekend slot is one character.
