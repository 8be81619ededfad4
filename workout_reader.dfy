/**
 * The workout CSV reader (workoutReader.js): `readWorkoutCsv`, which reacts
 * to the tokenizer's events and settles a promise once, and the two
 * aggregations built on it, `countWorkouts` and `calculateTotalMinutes`.
 */
module WorkoutReader {
  import opened Wrappers
  import opened Runtime
  import opened CsvEvents

  // ---------------------------------------------------------------------------
  // Header check and error messages

  /** The columns every workout file must declare. */
  const RequiredColumns: seq<string> := ["date", "type", "minutes"]

  /** The header test of the `headers` handler: non-empty, and every required
      column appears somewhere in it. */
  predicate AcceptableHeader(names: seq<string>): (ok: bool)
    ensures ok ==> "date" in names && "type" in names && "minutes" in names
  {
    assert RequiredColumns[0] == "date" && RequiredColumns[1] == "type" && RequiredColumns[2] == "minutes";
    |names| != 0 && forall i :: 0 <= i < |RequiredColumns| ==> RequiredColumns[i] in names
  }

  function NotFoundError(path: string): JsError
  {
    PlainError("Workout data file not found at " + path)
  }

  function CorruptedError(path: string): JsError
  {
    PlainError("Corrupted CSV at " + path)
  }

  /** What the read stream's `error` handler rejects with. */
  function StreamFailure(path: string, err: JsError): JsError
  {
    if err.code == Some(NoSuchFile) then NotFoundError(path) else err
  }

  // ---------------------------------------------------------------------------
  // The reader's state and how one event changes it

  /** The variables of one `readWorkoutCsv` call and the state of its promise. */
  datatype ReadState = ReadState(rows: seq<Row>, sawHeaders: bool, headerProblem: bool,
                                 outcome: Outcome<seq<Row>>)

  const Initial: ReadState := ReadState([], false, false, Pending)

  /** The handler of one event. Handlers keep updating `rows` and the flags
      after the promise has settled; only the promise ignores later calls. */
  function Step(path: string, s: ReadState, e: CsvEvent): (r: ReadState)
    ensures r.rows == s.rows + (if e.Data? then [e.row] else [])
    ensures r.sawHeaders == (s.sawHeaders || e.Headers?)
    ensures r.headerProblem == (s.headerProblem || (e.Headers? && !AcceptableHeader(e.names)))
    ensures !s.outcome.Pending? ==> r.outcome == s.outcome
    ensures !Settles(e) ==> r.outcome == s.outcome
    ensures s.outcome.Pending? && Settles(e) ==> !r.outcome.Pending?
  {
    match e
    case StreamError(err) => s.(outcome := Settle(s.outcome, Rejected(StreamFailure(path, err))))
    case Headers(names) =>
      s.(sawHeaders := true, headerProblem := if AcceptableHeader(names) then s.headerProblem else true)
    case Data(row) => s.(rows := s.rows + [row])
    case ParserError(_) => s.(outcome := Settle(s.outcome, Rejected(CorruptedError(path))))
    case End =>
      var done := if !s.sawHeaders || s.headerProblem then Rejected(CorruptedError(path)) else Resolved(s.rows);
      s.(outcome := Settle(s.outcome, done))
  }

  /** The state after handling `events` in order. */
  function Replay(path: string, events: seq<CsvEvent>): ReadState
  {
    if events == [] then Initial
    else Step(path, Replay(path, events[..|events| - 1]), events[|events| - 1])
  }

  /** The object behind one `readWorkoutCsv` call: the `rows` array, the two
      flags and the promise, updated in place by the event handlers. */
  class WorkoutCsvReader {
    const path: string
    var rows: seq<Row>
    var sawHeaders: bool
    var headerProblem: bool
    var outcome: Outcome<seq<Row>>

    function State(): ReadState
      reads this
    {
      ReadState(rows, sawHeaders, headerProblem, outcome)
    }

    constructor (path: string)
      ensures this.path == path && State() == Initial
    {
      this.path := path;
      rows := [];
      sawHeaders := false;
      headerProblem := false;
      outcome := Pending;
    }

    /** `resolve`/`reject`: only the first call settles the promise. */
    method Settle(next: Outcome<seq<Row>>)
      modifies this
      ensures outcome == Runtime.Settle(old(outcome), next)
      ensures rows == old(rows) && sawHeaders == old(sawHeaders) && headerProblem == old(headerProblem)
    {
      if outcome.Pending? {
        outcome := next;
      }
    }

    method OnStreamError(err: JsError)
      modifies this
      ensures outcome == Runtime.Settle(old(outcome), Rejected(StreamFailure(path, err)))
      ensures rows == old(rows) && sawHeaders == old(sawHeaders) && headerProblem == old(headerProblem)
    {
      if err.code == Some(NoSuchFile) {
        Settle(Rejected(NotFoundError(path)));
      } else {
        Settle(Rejected(err));
      }
    }

    method OnHeaders(names: seq<string>)
      modifies this
      ensures sawHeaders
      ensures headerProblem == (old(headerProblem) || !AcceptableHeader(names))
      ensures rows == old(rows) && outcome == old(outcome)
    {
      sawHeaders := true;
      var i := 0;
      var allPresent := true;
      while i < |RequiredColumns|
        invariant 0 <= i <= |RequiredColumns|
        invariant allPresent == forall j :: 0 <= j < i ==> RequiredColumns[j] in names
      {
        allPresent := allPresent && RequiredColumns[i] in names;
        i := i + 1;
      }
      if |names| == 0 || !allPresent {
        headerProblem := true;
      }
    }

    method OnData(row: Row)
      modifies this
      ensures rows == old(rows) + [row]
      ensures sawHeaders == old(sawHeaders) && headerProblem == old(headerProblem) && outcome == old(outcome)
    {
      rows := rows + [row];
    }

    /** The parser's own error is dropped in favour of a corruption error. */
    method OnParserError(cause: JsError)
      modifies this
      ensures outcome == Runtime.Settle(old(outcome), Rejected(CorruptedError(path)))
      ensures rows == old(rows) && sawHeaders == old(sawHeaders) && headerProblem == old(headerProblem)
    {
      Settle(Rejected(CorruptedError(path)));
    }

    method OnEnd()
      modifies this
      ensures outcome == Runtime.Settle(old(outcome),
        if !old(sawHeaders) || old(headerProblem) then Rejected(CorruptedError(path)) else Resolved(old(rows)))
      ensures rows == old(rows) && sawHeaders == old(sawHeaders) && headerProblem == old(headerProblem)
    {
      if !sawHeaders || headerProblem {
        Settle(Rejected(CorruptedError(path)));
        return;
      }
      Settle(Resolved(rows));
    }

    /** Dispatches an event to its handler. */
    method OnEvent(e: CsvEvent)
      modifies this
      ensures State() == Step(path, old(State()), e)
    {
      match e
      case StreamError(err) => OnStreamError(err);
      case Headers(names) => OnHeaders(names);
      case Data(row) => OnData(row);
      case ParserError(cause) => OnParserError(cause);
      case End => OnEnd();
    }
  }

  // ---------------------------------------------------------------------------
  // What the read settles to, stated without the handlers

  /** The events that settle the promise: stream error, parser error, end. */
  predicate Settles(e: CsvEvent)
  {
    e.StreamError? || e.ParserError? || e.End?
  }

  /** The position of the first settling event, or |events| if there is none. */
  function SettleIndex(events: seq<CsvEvent>): (k: nat)
    ensures k <= |events|
    ensures forall j :: 0 <= j < k ==> !Settles(events[j])
    ensures k < |events| ==> Settles(events[k])
  {
    if events == [] then 0
    else if Settles(events[0]) then 0
    else 1 + SettleIndex(events[1..])
  }

  /** Some `headers` event occurred. */
  predicate SawHeaders(events: seq<CsvEvent>)
  {
    exists i :: 0 <= i < |events| && events[i].Headers?
  }

  /** Some `headers` event carried an unacceptable header. */
  predicate HeaderProblem(events: seq<CsvEvent>)
  {
    exists i :: 0 <= i < |events| && events[i].Headers? && !AcceptableHeader(events[i].names)
  }

  /** The rows of the `data` events, in the order they arrived. */
  function DataRows(events: seq<CsvEvent>): seq<Row>
  {
    if events == [] then []
    else (if events[0].Data? then [events[0].row] else []) + DataRows(events[1..])
  }

  /** The promise of `readWorkoutCsv`: decided by the first settling event
      alone. An `end` resolves with the rows received so far only when a
      header was seen and every header was acceptable. */
  function ReadResult(path: string, events: seq<CsvEvent>): Outcome<seq<Row>>
  {
    var k := SettleIndex(events);
    if k == |events| then Pending
    else
      var e := events[k];
      if e.End? then
        if SawHeaders(events[..k]) && !HeaderProblem(events[..k]) then Resolved(DataRows(events[..k]))
        else Rejected(CorruptedError(path))
      else if e.ParserError? then Rejected(CorruptedError(path))
      else Rejected(StreamFailure(path, e.err))
  }

  lemma {:induction false} DataRowsAppend(a: seq<CsvEvent>, b: seq<CsvEvent>)
    ensures DataRows(a + b) == DataRows(a) + DataRows(b)
  {
    if a == [] {
      assert a + b == b;
    } else {
      assert (a + b)[1..] == a[1..] + b;
      DataRowsAppend(a[1..], b);
    }
  }

  lemma SettleIndexIs(events: seq<CsvEvent>, k: nat)
    requires k <= |events|
    requires forall j :: 0 <= j < k ==> !Settles(events[j])
    requires k < |events| ==> Settles(events[k])
    ensures SettleIndex(events) == k
  {
  }

  lemma SawHeadersAppend(p: seq<CsvEvent>, e: CsvEvent)
    ensures SawHeaders(p + [e]) == (SawHeaders(p) || e.Headers?)
  {
    var events := p + [e];
    if e.Headers? {
      assert events[|p|].Headers?;
    }
    if SawHeaders(events) && !e.Headers? {
      var i :| 0 <= i < |events| && events[i].Headers?;
      assert i < |p| && p[i] == events[i];
    }
    if SawHeaders(p) {
      var i :| 0 <= i < |p| && p[i].Headers?;
      assert events[i] == p[i];
    }
  }

  lemma HeaderProblemAppend(p: seq<CsvEvent>, e: CsvEvent)
    ensures HeaderProblem(p + [e]) == (HeaderProblem(p) || (e.Headers? && !AcceptableHeader(e.names)))
  {
    var events := p + [e];
    if e.Headers? && !AcceptableHeader(e.names) {
      assert events[|p|] == e;
    }
    if HeaderProblem(events) && !(e.Headers? && !AcceptableHeader(e.names)) {
      var i :| 0 <= i < |events| && events[i].Headers? && !AcceptableHeader(events[i].names);
      assert i < |p| && p[i] == events[i];
    }
    if HeaderProblem(p) {
      var i :| 0 <= i < |p| && p[i].Headers? && !AcceptableHeader(p[i].names);
      assert events[i] == p[i];
    }
  }

  /** One more event changes the result only while it is still pending, and
      then only if the event settles it. */
  lemma {:induction false} ReadResultAppend(path: string, p: seq<CsvEvent>, e: CsvEvent)
    ensures ReadResult(path, p + [e]) == Settle(ReadResult(path, p),
      if e.StreamError? then Rejected(StreamFailure(path, e.err))
      else if e.ParserError? then Rejected(CorruptedError(path))
      else if e.End? then
        (if !SawHeaders(p) || HeaderProblem(p) then Rejected(CorruptedError(path)) else Resolved(DataRows(p)))
      else Pending)
  {
    var events := p + [e];
    var k := SettleIndex(p);
    if k < |p| {
      SettleIndexIs(events, k);
      assert events[..k] == p[..k];
      assert events[k] == p[k];
    } else if Settles(e) {
      SettleIndexIs(events, |p|);
      assert events[..|p|] == p;
    } else {
      SettleIndexIs(events, |p| + 1);
    }
  }

  /** The handlers, replayed over any event sequence, leave exactly the rows
      of the `data` events, the two flags as the header events set them, and
      the promise as `ReadResult` says. */
  lemma {:induction false} ReplayState(path: string, events: seq<CsvEvent>)
    ensures Replay(path, events)
         == ReadState(DataRows(events), SawHeaders(events), HeaderProblem(events), ReadResult(path, events))
  {
    if events == [] {
      return;
    }
    var n := |events| - 1;
    var p, e := events[..n], events[n];
    assert events == p + [e];
    ReplayState(path, p);
    DataRowsAppend(p, [e]);
    SawHeadersAppend(p, e);
    HeaderProblemAppend(p, e);
    ReadResultAppend(path, p, e);
    assert DataRows([e]) == if e.Data? then [e.row] else [];
  }

  /** `readWorkoutCsv`: feeds the events to a fresh reader, in order, and
      returns the state of its promise. */
  method ReadWorkoutCsv(path: string, events: seq<CsvEvent>) returns (o: Outcome<seq<Row>>)
    ensures o == ReadResult(path, events)
  {
    var reader := new WorkoutCsvReader(path);
    for i := 0 to |events|
      invariant reader.path == path
      invariant reader.State() == Replay(path, events[..i])
    {
      assert events[..i + 1][..i] == events[..i];
      reader.OnEvent(events[i]);
    }
    assert events[..|events|] == events;
    ReplayState(path, events);
    o := reader.outcome;
  }

  // ---------------------------------------------------------------------------
  // Properties of the read

  /** The header test depends only on which names occur: order and extra
      columns do not matter. */
  lemma AcceptableHeaderIff(names: seq<string>)
    ensures AcceptableHeader(names) <==> "date" in names && "type" in names && "minutes" in names
  {
    if "date" in names && "type" in names && "minutes" in names {
      assert forall i :: 0 <= i < |RequiredColumns| ==> RequiredColumns[i] in names by {
        assert RequiredColumns == ["date", "type", "minutes"];
      }
    }
    if AcceptableHeader(names) {
      assert RequiredColumns[0] in names && RequiredColumns[1] in names && RequiredColumns[2] in names;
    }
  }

  lemma {:induction false} AcceptableHeaderBySet(a: seq<string>, b: seq<string>)
    requires forall x :: x in a <==> x in b
    ensures AcceptableHeader(a) <==> AcceptableHeader(b)
  {
    AcceptableHeaderIff(a);
    AcceptableHeaderIff(b);
  }

  lemma {:induction false} AcceptableHeaderExtraColumns(names: seq<string>, before: seq<string>, after: seq<string>)
    requires AcceptableHeader(names)
    ensures AcceptableHeader(before + names + after)
  {
    AcceptableHeaderIff(names);
    AcceptableHeaderIff(before + names + after);
    var all := before + names + after;
    forall x | x in names ensures x in all {
      var i :| 0 <= i < |names| && names[i] == x;
      assert all[|before| + i] == x;
    }
  }

  /** The data events of a file's rows. */
  function RowEvents(rows: seq<Row>): (es: seq<CsvEvent>)
    ensures |es| == |rows|
    ensures forall i :: 0 <= i < |rows| ==> es[i] == Data(rows[i])
  {
    if rows == [] then [] else [Data(rows[0])] + RowEvents(rows[1..])
  }

  lemma {:induction false} DataRowsOfRowEvents(rows: seq<Row>)
    ensures DataRows(RowEvents(rows)) == rows
  {
    if rows != [] {
      var es := RowEvents(rows);
      assert es[1..] == RowEvents(rows[1..]);
      DataRowsOfRowEvents(rows[1..]);
    }
  }

  /** A well-formed file: a header, one data event per row, then `end`. It
      resolves with exactly those rows, in order, when the header is
      acceptable, and is corrupted otherwise. */
  lemma {:induction false} WellFormedFile(path: string, names: seq<string>, rows: seq<Row>)
    ensures var events := [Headers(names)] + RowEvents(rows) + [End];
      ReadResult(path, events)
        == if AcceptableHeader(names) then Resolved(rows) else Rejected(CorruptedError(path))
  {
    var events := [Headers(names)] + RowEvents(rows) + [End];
    var k := |rows| + 1;
    SettleIndexIs(events, k);
    var prefix := events[..k];
    assert prefix == [Headers(names)] + RowEvents(rows);
    assert prefix[0] == Headers(names);
    assert forall i :: 1 <= i < |prefix| ==> prefix[i] == Data(rows[i - 1]);
    DataRowsAppend([Headers(names)], RowEvents(rows));
    DataRowsOfRowEvents(rows);
    assert DataRows([Headers(names)]) == [];
    assert events[k] == End;
    assert SawHeaders(prefix) by {
      assert prefix[0].Headers?;
    }
    if HeaderProblem(prefix) {
      var i :| 0 <= i < |prefix| && prefix[i].Headers? && !AcceptableHeader(prefix[i].names);
      assert i == 0;
    }
    if !AcceptableHeader(names) {
      assert prefix[0].Headers? && !AcceptableHeader(prefix[0].names);
    }
    assert HeaderProblem(prefix) == !AcceptableHeader(names);
    assert DataRows(prefix) == rows;
    assert ReadResult(path, events)
        == if SawHeaders(prefix) && !HeaderProblem(prefix) then Resolved(DataRows(prefix))
           else Rejected(CorruptedError(path));
  }

  /** Without a `headers` event (an empty file), `end` rejects as corrupted,
      even when data rows were collected. */
  lemma {:induction false} NoHeaderIsCorrupted(path: string, rows: seq<Row>)
    ensures ReadResult(path, RowEvents(rows) + [End]) == Rejected(CorruptedError(path))
  {
    var events := RowEvents(rows) + [End];
    SettleIndexIs(events, |rows|);
    assert events[..|rows|] == RowEvents(rows);
    assert !SawHeaders(events[..|rows|]);
  }

  /** A parser error, when nothing settled before it, rejects with the
      corruption error and never with the parser's own error. */
  lemma {:induction false} ParserErrorIsCorrupted(path: string, before: seq<CsvEvent>, cause: JsError, after: seq<CsvEvent>)
    requires forall j :: 0 <= j < |before| ==> !Settles(before[j])
    ensures ReadResult(path, before + [ParserError(cause)] + after) == Rejected(CorruptedError(path))
  {
    var events := before + [ParserError(cause)] + after;
    assert forall j :: 0 <= j < |before| ==> events[j] == before[j];
    SettleIndexIs(events, |before|);
  }

  /** A stream error, when nothing settled before it, rejects with the
      not-found error for ENOENT and with the stream's own error otherwise. */
  lemma {:induction false} StreamErrorOutcome(path: string, before: seq<CsvEvent>, err: JsError, after: seq<CsvEvent>)
    requires forall j :: 0 <= j < |before| ==> !Settles(before[j])
    ensures err.code == Some(NoSuchFile) ==>
      ReadResult(path, before + [StreamError(err)] + after) == Rejected(PlainError("Workout data file not found at " + path))
    ensures err.code != Some(NoSuchFile) ==>
      ReadResult(path, before + [StreamError(err)] + after) == Rejected(err)
  {
    var events := before + [StreamError(err)] + after;
    assert forall j :: 0 <= j < |before| ==> events[j] == before[j];
    SettleIndexIs(events, |before|);
  }

  /** A resolved read saw an acceptable header, and no unacceptable one,
      before its `end`; it resolved with the data rows before that `end`. */
  lemma {:induction false} ResolvedNeedsAcceptableHeader(path: string, events: seq<CsvEvent>)
    requires ReadResult(path, events).Resolved?
    ensures exists k :: (0 <= k < |events| && events[k].End?
      && (exists i :: 0 <= i < k && events[i].Headers? && AcceptableHeader(events[i].names))
      && (forall i :: 0 <= i < k && events[i].Headers? ==> AcceptableHeader(events[i].names))
      && ReadResult(path, events).value == DataRows(events[..k]))
  {
    var k := SettleIndex(events);
    var p := events[..k];
    assert SawHeaders(p) && !HeaderProblem(p);
    var i :| 0 <= i < |p| && p[i].Headers?;
    assert events[i] == p[i];
    forall j | 0 <= j < k && events[j].Headers? ensures AcceptableHeader(events[j].names) {
      assert p[j] == events[j];
    }
  }

  /** Every rejection is one of the reader's own two errors or a stream
      error other than ENOENT, passed through unchanged. */
  lemma {:induction false} RejectionKinds(path: string, events: seq<CsvEvent>)
    requires ReadResult(path, events).Rejected?
    ensures var err := ReadResult(path, events).error;
      err == CorruptedError(path) || err == NotFoundError(path)
      || (err.code != Some(NoSuchFile) && StreamError(err) in events)
  {
    var k := SettleIndex(events);
    if events[k].StreamError? && events[k].err.code != Some(NoSuchFile) {
      assert events[k] == StreamError(events[k].err);
    }
  }

  // ---------------------------------------------------------------------------
  // countWorkouts

  /** `countWorkouts`: the number of rows the read resolves with; a failed
      read fails the count with the same error. */
  function CountWorkouts(path: string, events: seq<CsvEvent>): (r: Outcome<nat>)
    ensures r.Resolved? <==> ReadResult(path, events).Resolved?
    ensures r.Resolved? ==> r.value == |ReadResult(path, events).value|
    ensures r.Rejected? <==> ReadResult(path, events).Rejected?
    ensures r.Rejected? ==> r.error == ReadResult(path, events).error
  {
    match ReadResult(path, events)
    case Pending => Pending
    case Resolved(rows) => Resolved(|rows|)
    case Rejected(err) => Rejected(err)
  }

  /** A well-formed file with an acceptable header and N rows counts N. */
  lemma {:induction false} CountWellFormedFile(path: string, names: seq<string>, rows: seq<Row>)
    requires AcceptableHeader(names)
    ensures CountWorkouts(path, [Headers(names)] + RowEvents(rows) + [End]) == Resolved(|rows|)
  {
    WellFormedFile(path, names, rows);
  }

  // ---------------------------------------------------------------------------
  // calculateTotalMinutes

  /** `Number(text)` for the cells: `Some(v)` for a number, `None` for NaN. */
  type NumberParser = string -> Option<real>

  /** `Number(row[field])`: a missing cell is `undefined`, which is NaN. */
  function NumberOf(cell: Option<string>, parseNum: NumberParser): Option<real>
  {
    match cell
    case None => None
    case Some(text) => parseNum(text)
  }

  /** What one row adds to the total: its number, or nothing for NaN. */
  function Contribution(row: Row, field: string, parseNum: NumberParser): real
  {
    match NumberOf(Lookup(row, field), parseNum)
    case Some(v) => v
    case None => 0.0
  }

  /** The total of the field over the rows whose cell parses as a number. */
  function SumParsed(rows: seq<Row>, field: string, parseNum: NumberParser): real
  {
    if rows == [] then 0.0
    else Contribution(rows[0], field, parseNum) + SumParsed(rows[1..], field, parseNum)
  }

  /** The values that parse, in row order. */
  function ParsedValues(rows: seq<Row>, field: string, parseNum: NumberParser): seq<real>
  {
    if rows == [] then []
    else
      var rest := ParsedValues(rows[1..], field, parseNum);
      match NumberOf(Lookup(rows[0], field), parseNum)
      case Some(v) => [v] + rest
      case None => rest
  }

  function Sum(xs: seq<real>): real
  {
    if xs == [] then 0.0 else xs[0] + Sum(xs[1..])
  }

  /** The column `calculateTotalMinutes` sums when no field is given. */
  const DefaultMinutesField: string := "minutes"

  /** `Object.keys(...).join(sep)`. */
  function Join(parts: seq<string>, sep: string): string
  {
    if parts == [] then ""
    else if |parts| == 1 then parts[0]
    else parts[0] + sep + Join(parts[1..], sep)
  }

  function MissingColumnError(field: string, columns: seq<string>): JsError
  {
    PlainError("CSV is missing expected column \"" + field + "\". Available columns: " + Join(columns, ", "))
  }

  lemma {:induction false} SumParsedAppend(a: seq<Row>, b: seq<Row>, field: string, parseNum: NumberParser)
    ensures SumParsed(a + b, field, parseNum) == SumParsed(a, field, parseNum) + SumParsed(b, field, parseNum)
  {
    if a == [] {
      assert a + b == b;
    } else {
      assert (a + b)[1..] == a[1..] + b;
      SumParsedAppend(a[1..], b, field, parseNum);
    }
  }

  /** The total is the arithmetic sum of exactly the values that parse. */
  lemma {:induction false} SumParsedIsSumOfParsedValues(rows: seq<Row>, field: string, parseNum: NumberParser)
    ensures SumParsed(rows, field, parseNum) == Sum(ParsedValues(rows, field, parseNum))
  {
    if rows != [] {
      SumParsedIsSumOfParsedValues(rows[1..], field, parseNum);
    }
  }

  /** A row whose cell is missing or does not parse adds nothing and causes
      no error: removing it leaves the total unchanged. */
  lemma {:induction false} UnparsedRowAddsNothing(before: seq<Row>, row: Row, after: seq<Row>, field: string, parseNum: NumberParser)
    requires NumberOf(Lookup(row, field), parseNum) == None
    ensures SumParsed(before + [row] + after, field, parseNum) == SumParsed(before + after, field, parseNum)
  {
    SumParsedAppend(before + [row], after, field, parseNum);
    SumParsedAppend(before, [row], field, parseNum);
    SumParsedAppend(before, after, field, parseNum);
    assert SumParsed([row], field, parseNum) == 0.0 by {
      assert [row][1..] == [];
    }
  }

  /** The total does not depend on the order of the rows. */
  lemma {:induction false} SumParsedPermutation(a: seq<Row>, b: seq<Row>, field: string, parseNum: NumberParser)
    requires multiset(a) == multiset(b)
    ensures SumParsed(a, field, parseNum) == SumParsed(b, field, parseNum)
    decreases |a|
  {
    if a == [] {
      assert |b| == |multiset(b)| == 0;
      return;
    }
    var x := a[0];
    assert x in multiset(b);
    var i :| 0 <= i < |b| && b[i] == x;
    var rest := b[..i] + b[i + 1..];
    assert b == b[..i] + [x] + b[i + 1..];
    assert a == [x] + a[1..];
    assert multiset(a[1..]) == multiset(rest) by {
      assert multiset(a) == multiset([x]) + multiset(a[1..]);
      assert multiset(rest) == multiset(b[..i]) + multiset(b[i + 1..]);
      assert multiset(b) == multiset(b[..i]) + multiset([x]) + multiset(b[i + 1..]);
      assert multiset(a[1..]) == multiset(a) - multiset{x};
      assert multiset(rest) == multiset(b) - multiset{x};
    }
    SumParsedPermutation(a[1..], rest, field, parseNum);
    SumParsedAppend(b[..i] + [x], b[i + 1..], field, parseNum);
    SumParsedAppend(b[..i], [x], field, parseNum);
    SumParsedAppend(b[..i], b[i + 1..], field, parseNum);
    assert SumParsed([x], field, parseNum) == Contribution(x, field, parseNum) by {
      assert [x][1..] == [];
    }
  }

  /** The summing part of `calculateTotalMinutes`, over rows already read:
      a non-empty sequence whose first row lacks the field fails, listing
      that row's columns; otherwise the loop adds up every cell that parses
      as a number. */
  method TotalMinutes(rows: seq<Row>, field: string, parseNum: NumberParser) returns (r: Result<real, JsError>)
    ensures |rows| != 0 && !Has(rows[0], field) ==> r == Failure(MissingColumnError(field, Keys(rows[0])))
    ensures |rows| == 0 || Has(rows[0], field) ==> r == Success(SumParsed(rows, field, parseNum))
  {
    if |rows| != 0 && !Has(rows[0], field) {
      return Failure(MissingColumnError(field, Keys(rows[0])));
    }
    var total := 0.0;
    for i := 0 to |rows|
      invariant total == SumParsed(rows[..i], field, parseNum)
    {
      SumParsedAppend(rows[..i], [rows[i]], field, parseNum);
      assert rows[..i + 1] == rows[..i] + [rows[i]];
      assert SumParsed([rows[i]], field, parseNum) == Contribution(rows[i], field, parseNum) by {
        assert [rows[i]][1..] == [];
      }
      var v := NumberOf(Lookup(rows[i], field), parseNum);
      if v.Some? {
        total := total + v.value;
      }
    }
    assert rows[..|rows|] == rows;
    return Success(total);
  }

  /** `calculateTotalMinutes`: reads the file, then sums. A failed read
      fails with the read's error. */
  method CalculateTotalMinutes(path: string, events: seq<CsvEvent>, parseNum: NumberParser,
                               field: string := DefaultMinutesField)
    returns (o: Outcome<real>)
    ensures ReadResult(path, events).Pending? ==> o.Pending?
    ensures ReadResult(path, events).Rejected? ==> o == Rejected(ReadResult(path, events).error)
    ensures ReadResult(path, events).Resolved? ==>
      var rows := ReadResult(path, events).value;
      o == if |rows| != 0 && !Has(rows[0], field) then Rejected(MissingColumnError(field, Keys(rows[0])))
           else Resolved(SumParsed(rows, field, parseNum))
  {
    var read := ReadWorkoutCsv(path, events);
    match read
    case Pending => o := Pending;
    case Rejected(err) => o := Rejected(err);
    case Resolved(rows) =>
      var total := TotalMinutes(rows, field, parseNum);
      match total
      case Success(t) => o := Resolved(t);
      case Failure(err) => o := Rejected(err);
  }

  // ---------------------------------------------------------------------------
  // The documented examples

  function ExampleRow(date: string, kind: string, column: string, value: string): Row
  {
    [Cell("date", date), Cell("type", kind), Cell(column, value)]
  }

  /** Rows 30, foo, 20 total 50: the "foo" row is skipped. */
  lemma NonNumericSkipped(parseNum: NumberParser)
    requires parseNum("30") == Some(30.0) && parseNum("foo") == None && parseNum("20") == Some(20.0)
    ensures SumParsed([ExampleRow("2025-01-01", "run", "minutes", "30"),
                       ExampleRow("2025-01-02", "lift", "minutes", "foo"),
                       ExampleRow("2025-01-03", "swim", "minutes", "20")], DefaultMinutesField, parseNum) == 50.0
  {
  }

  /** Rows read under a `duration` column, summed by that name, total 70. */
  lemma CustomFieldSum(parseNum: NumberParser)
    requires parseNum("30") == Some(30.0) && parseNum("40") == Some(40.0)
    ensures var rows := [ExampleRow("2025-01-01", "run", "duration", "30"),
                         ExampleRow("2025-01-02", "lift", "duration", "40")];
      Has(rows[0], "duration") && SumParsed(rows, "duration", parseNum) == 70.0
  {
  }

  /** The same file read whole: its header lacks `minutes`, so the read,
      and with it the total, rejects as corrupted. */
  lemma {:induction false} CustomFieldFileRejected(path: string)
    ensures var rows := [ExampleRow("2025-01-01", "run", "duration", "30"),
                         ExampleRow("2025-01-02", "lift", "duration", "40")];
      ReadResult(path, [Headers(["date", "type", "duration"])] + RowEvents(rows) + [End])
        == Rejected(PlainError("Corrupted CSV at " + path))
  {
    var rows := [ExampleRow("2025-01-01", "run", "duration", "30"),
                 ExampleRow("2025-01-02", "lift", "duration", "40")];
    AcceptableHeaderIff(["date", "type", "duration"]);
    WellFormedFile(path, ["date", "type", "duration"], rows);
  }

  /** The 30, foo, 20 file read whole and summed under the default field:
      the read resolves with its three rows and the total is 50. */
  method NonNumericSkippedFile(path: string, parseNum: NumberParser) returns (o: Outcome<real>)
    requires parseNum("30") == Some(30.0) && parseNum("foo") == None && parseNum("20") == Some(20.0)
    ensures o == Resolved(50.0)
  {
    var rows := [ExampleRow("2025-01-01", "run", "minutes", "30"),
                 ExampleRow("2025-01-02", "lift", "minutes", "foo"),
                 ExampleRow("2025-01-03", "swim", "minutes", "20")];
    AcceptableHeaderIff(RequiredColumns);
    WellFormedFile(path, RequiredColumns, rows);
    NonNumericSkipped(parseNum);
    assert Has(rows[0], DefaultMinutesField) by {
      assert Keys(rows[0])[2] == "minutes";
    }
    o := CalculateTotalMinutes(path, [Headers(RequiredColumns)] + RowEvents(rows) + [End], parseNum);
  }

  /** The `date,type,duration` file read whole and summed under `duration`:
      the read rejects, so the total rejects as corrupted too. */
  method CustomFieldFile(path: string, parseNum: NumberParser) returns (o: Outcome<real>)
    ensures o == Rejected(CorruptedError(path))
  {
    var rows := [ExampleRow("2025-01-01", "run", "duration", "30"),
                 ExampleRow("2025-01-02", "lift", "duration", "40")];
    CustomFieldFileRejected(path);
    o := CalculateTotalMinutes(path, [Headers(["date", "type", "duration"])] + RowEvents(rows) + [End],
                               parseNum, "duration");
  }
}
