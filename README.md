# Fitness analytics ingestion core, modelled in Dafny

This project models the two readers of the fitness analytics system and the
aggregations built on them.

- **Workout CSV reader** (`workoutReader.js`). `readWorkoutCsv` subscribes to
  the events of a file stream piped into `csv-parser`: stream error, header,
  data row, parser error and end. It keeps a `rows` array and two flags,
  `sawHeaders` and `headerProblem`. Its promise settles once: with the rows,
  with "Corrupted CSV at <path>", with "Workout data file not found at <path>",
  or with the stream's own error. `countWorkouts` counts the rows.
  `calculateTotalMinutes` checks the requested column against the first row.
  It then sums, in a loop, every cell that parses as a number.
- **Health JSON reader** (`healthreader.js`). `readHealthJson` maps the outcome
  of reading and parsing a file to one of these results, in a fixed order:
  file not found, invalid JSON, not an array, any other error unchanged, or the
  parsed array unchanged. `countHealthEntries` counts the array.

Files:

- `wrappers.dfy`: `Option` and `Result`.
- `runtime.dfy`: JavaScript error objects (`JsError`: name, code, message) and
  promise states (`Outcome`: pending, resolved, rejected; the first settlement
  wins).
- `csv_events.dfy`: the tokenizer's output as a sequence of `CsvEvent`s. A row
  is a sequence of (column, text) cells, in `Object.keys` order.
- `workout_reader.dfy`: the reader as a class (`WorkoutCsvReader`) with one
  method per event handler. Beside it are a pure replay of the handlers
  (`Step`, `Replay`) and a characterisation that uses no handlers at all
  (`ReadResult`: the first settling event decides). Also here are
  `CountWorkouts`, the summing loop `TotalMinutes` with its specification
  `SumParsed`, and the full pipeline `CalculateTotalMinutes`.
- `health_reader.dfy`: `ReadHealthJson`, split into its `try` part (`Attempt`)
  and its `catch` part (`Rethrow`), and `CountHealthEntries`.

The file system, the CSV tokenizer, `JSON.parse` and JavaScript's `Number`
are inputs. The CSV stream is an event sequence. The JSON read is a
`HealthSource` (read failed, unparsable, or parsed to a `JsonValue`).
`Number(text)` is a parameter `parseNum: string -> Option<real>`, where `None`
stands for NaN. A missing cell is `undefined`, and `Number(undefined)` is NaN,
so such a row is skipped whatever `parseNum` does.

## Model

| member | source | states |
|---|---|---|
| `CsvEvents.Keys` | workoutReader.js:53 | `Object.keys(row)`: one column name per cell, in cell order |
| `CsvEvents.Lookup` | workoutReader.js:50-58 | `row[field]` is defined exactly when `field in row`, and then it is the text of a cell of that column |
| `WorkoutReader.AcceptableHeader` | workoutReader.js:25-27 | the header test of the `headers` handler; a header it accepts contains each of `date`, `type`, `minutes` (the converse is `AcceptableHeaderIff`) |
| `WorkoutReader.Step` | workoutReader.js:15-37 | the five handlers as one function: a data event appends its row, a header event sets `sawHeaders` and makes `headerProblem` sticky on a bad header, only stream error, parser error and end touch the promise, and a settled promise never changes again |
| `WorkoutReader.WorkoutCsvReader.constructor` | workoutReader.js:10-12 | a fresh read starts with no rows, both flags false, and the promise pending |
| `WorkoutReader.WorkoutCsvReader.Settle` | workoutReader.js:9 | `resolve`/`reject` change only a pending promise; rows and flags stay as they are |
| `WorkoutReader.WorkoutCsvReader.OnStreamError` | workoutReader.js:15-20 | an ENOENT stream error rejects with "Workout data file not found at <path>"; any other stream error rejects with that error unchanged |
| `WorkoutReader.WorkoutCsvReader.OnHeaders` | workoutReader.js:23-29 | sets `sawHeaders`; sets `headerProblem` (sticky) exactly when the header is empty or lacks a required column |
| `WorkoutReader.WorkoutCsvReader.OnData` | workoutReader.js:30 | appends the row at the end of `rows`; nothing else changes |
| `WorkoutReader.WorkoutCsvReader.OnParserError` | workoutReader.js:31 | rejects with "Corrupted CSV at <path>" whatever the parser's error was |
| `WorkoutReader.WorkoutCsvReader.OnEnd` | workoutReader.js:32-37 | rejects as corrupted when no header was seen or a header was bad; otherwise resolves with the rows collected so far |
| `WorkoutReader.WorkoutCsvReader.OnEvent` | workoutReader.js:14-37 | dispatching an event changes the reader's state as the pure `Step` says |
| `WorkoutReader.SettleIndex` | workoutReader.js:15-37 | the position of the first stream error, parser error or end: every earlier event is a header or a data row |
| `WorkoutReader.ReadResultAppend` | workoutReader.js:9-37 | one more event can change the read's result only while it is pending, and only if that event settles it |
| `WorkoutReader.ReplayState` | workoutReader.js:10-37 | replaying the handlers over any events leaves exactly the data rows in order, the flags as the header events set them, and the promise as the first settling event decides (`ReadResult`) |
| `WorkoutReader.ReadWorkoutCsv` | workoutReader.js:8-39 | feeding the events one by one to a fresh reader object yields exactly `ReadResult` |
| `WorkoutReader.AcceptableHeaderIff` | workoutReader.js:25-27 | a header is acceptable iff it contains `date`, `type` and `minutes` |
| `WorkoutReader.AcceptableHeaderBySet` | workoutReader.js:25-27 | two headers with the same names, in any order and with any repetition, are judged alike |
| `WorkoutReader.AcceptableHeaderExtraColumns` | workoutReader.js:25-27 | extra columns before or after an acceptable header keep it acceptable |
| `WorkoutReader.WellFormedFile` | workoutReader.js:23-37 | a header, one data event per row, then end: resolves with exactly those rows in order if the header is acceptable, else rejects as corrupted |
| `WorkoutReader.NoHeaderIsCorrupted` | workoutReader.js:32-35 | end without any header event (an empty file) rejects as corrupted, even when data rows were collected |
| `WorkoutReader.ParserErrorIsCorrupted` | workoutReader.js:31 | a parser error, when it is the first settling event, rejects with "Corrupted CSV at <path>" and not with the parser's error |
| `WorkoutReader.StreamErrorOutcome` | workoutReader.js:15-20 | a stream error, when it is the first settling event, rejects with "Workout data file not found at <path>" for ENOENT and with the error itself otherwise |
| `WorkoutReader.ResolvedNeedsAcceptableHeader` | workoutReader.js:32-36 | a resolved read had an end, an acceptable header before it and no bad one, and resolved with the data rows before that end |
| `WorkoutReader.RejectionKinds` | workoutReader.js:15-34 | a rejection is the corruption error, the not-found error, or a non-ENOENT stream error from the input passed through unchanged |
| `WorkoutReader.CountWorkouts` | workoutReader.js:42-45 | resolves with the number of rows exactly when the read resolves; a rejected read rejects the count with the same error |
| `WorkoutReader.CountWellFormedFile` | workoutReader.js:42-45 | a file with an acceptable header and N data rows counts N |
| `WorkoutReader.SumParsedAppend` | workoutReader.js:56-61 | the total over two runs of rows is the sum of their totals |
| `WorkoutReader.SumParsedIsSumOfParsedValues` | workoutReader.js:56-61 | the total is the arithmetic sum of exactly the values that parse as numbers |
| `WorkoutReader.UnparsedRowAddsNothing` | workoutReader.js:57-59 | a row whose cell is missing or not a number adds nothing: removing it leaves the total unchanged |
| `WorkoutReader.SumParsedPermutation` | workoutReader.js:56-61 | the total does not depend on the order of the rows |
| `WorkoutReader.TotalMinutes` | workoutReader.js:50-61 | for non-empty rows whose first row lacks the field, fails with the message naming the field and the first row's columns joined by ", "; otherwise (including no rows) the loop's total is the sum of the parsed values |
| `WorkoutReader.CalculateTotalMinutes` | workoutReader.js:48-62 | the field defaults to `minutes`; a failed read fails with the read's error; a resolved read gives the missing-column error or the total over its rows |
| `WorkoutReader.NonNumericSkipped` | workoutReader.test.js:36-39 | cells 30, foo, 20 total 50 |
| `WorkoutReader.CustomFieldSum` | workoutReader.test.js:42-46 | rows already read under a `duration` column, summed by that name, total 70 |
| `WorkoutReader.NonNumericSkippedFile` | workoutReader.test.js:36-39 | the file with cells 30, foo, 20, read whole and summed under the default field, resolves with 50 |
| `WorkoutReader.CustomFieldFile` | workoutReader.test.js:42-46 | the `date,type,duration` file, read whole and summed under `duration`, rejects with "Corrupted CSV at <path>" |
| `WorkoutReader.CustomFieldFileRejected` | workoutReader.js:25-34 | the file `date,type,duration` with two rows is rejected as corrupted by the read |
| `HealthReader.Attempt` | healthreader.js:7-13 | the `try` block: succeeds exactly on a parsed array; a read error is thrown as it is; a parse failure throws a `SyntaxError`; a parsed array is returned unchanged; a non-array throws `new Error("Invalid JSON: expected an array of entries")` |
| `HealthReader.Rethrow` | healthreader.js:14-22 | the `catch` block: ENOENT becomes "Health data file not found at <path>"; otherwise a `SyntaxError` becomes "Invalid JSON in <path>" (ENOENT is tested first); an error that is neither is rethrown unchanged; a replaced error is a plain `Error` with no code; the result is never ENOENT or a `SyntaxError` |
| `HealthReader.ReadHealthJson` | healthreader.js:6-23 | succeeds exactly on a parsed array and returns it unchanged; ENOENT gives "Health data file not found at <path>"; a syntax error gives "Invalid JSON in <path>"; a non-array gives "Invalid JSON: expected an array of entries"; any other read error is returned unchanged |
| `HealthReader.CountHealthEntries` | healthreader.js:26-29 | the length of the array the read returns; a failed read fails the count with the same error |
| `HealthReader.CountParsedArray` | healthreader.js:13 | any parsed array is returned unchanged, without checking its entries, and counts its length |
| `HealthReader.NotAnArrayIgnoresPath` | healthreader.js:10-21 | the not-an-array error carries no path (the same for every path) and is not turned into the "Invalid JSON in <path>" error |
| `HealthReader.ThreeObjects` | healthReader.test.js:19-30 | `[{"a":1},{"a":2},{"a":3}]` counts 3 |
| `HealthReader.ObjectIsRejected` | healthReader.test.js:41-43 | `{"not":"array"}` fails with the array expectation |

## Code and tests disagree

The test at workoutReader.test.js:42-46 expects the file
`date,type,duration` with rows 30 and 40 to total 70 when summed under
`duration`. The header check at workoutReader.js:25-27 rejects every header
that lacks `minutes`. At the end of the stream, workoutReader.js:33-34 then
rejects the read as corrupted. The model follows the code:
`CustomFieldFileRejected` proves that the whole pipeline rejects this file.
`CustomFieldSum` proves that the summing step alone gives 70 on those rows,
and `CustomFieldFile` runs the whole of `CalculateTotalMinutes` on the file
and gets the corruption error.

## Left out

- CSV tokenizing (quoting, unterminated quotes, header splitting) happens inside `csv-parser`; the model takes its events as input.
- The file stream, its handle and its closing are not modelled; its only effect here is the stream-error event.
- Reading the health file and `JSON.parse` are foreign calls; their outcome is the input `HealthSource`.
- JavaScript `Number` (whitespace, exponents, hex, `Infinity`, rounding) is the abstract `parseNum`; totals are exact reals, not doubles.
- TotalMinutes, CalculateTotalMinutes: `field in rows[0]` in JavaScript also sees inherited properties such as `constructor`; the model checks only the row's own columns, so for such a field name it fails where the source goes on and totals 0.
- CsvEvents.Lookup, CsvEvents.Keys: a row is a sequence of cells, so a repeated column name yields its first cell in `Lookup` and is listed once per cell by `Keys` (and so in the missing-column message of `TotalMinutes`); a JavaScript object holds one value per key and `Object.keys` lists each key once.
- The resolved `rows` array is shared with the handlers, so a data event after `end` would change it; the model resolves with a snapshot (`csv-parser` emits nothing after `end`).
- A stream that never settles stays `Pending`; promise scheduling beyond "the first resolve or reject decides" is not modelled.
- `countWorkouts` and `calculateTotalMinutes` each read the file again; the model gives both the same events, so reading twice gives the same result by construction.
- dataProcessor.js (environment variables, printing, `Promise.all`, exit code, the weekly goal message) is not part of this model.
