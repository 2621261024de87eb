/** parse_custom_csv of real-time-datasets/process.py: a line-oriented state
    machine over the rows of an exported sensor file. "Session start time"
    rows set the session's start, a "Markdown" row gives the headers, and
    "IAPF"/"Baseline" rows are data, padded or truncated to the headers.
    A finished session becomes rows of (student id, heart rate, EEG, skin
    conductance, timestamp). Date parsing, float parsing and the numeric
    coercion of pandas are parameters. */
module SessionCsv {
  import opened Wrappers
  import opened Text

  /** One cell of a stored data line: text from the file, or the `None`
      used for padding. */
  datatype Cell = Str(s: string) | Pad

  /** The loop variables: `current_start_dt` (seconds since some epoch),
      `headers`, `data_lines`, `data_started`, and the emitted sessions. */
  datatype State = State(
    start: Option<int>,
    headers: seq<string>,
    lines: seq<seq<Cell>>,
    started: bool,
    sessions: seq<seq<OutRow>>)

  /** One row of a cleaned session. `heartRate` and `eeg` are `None` where
      pandas coerces to NaN; skin conductance is always missing. */
  datatype OutRow = OutRow(studentId: string, heartRate: Option<real>, eeg: Option<real>, skinConductance: Option<real>, timestamp: int)

  /** The inputs the parser does not compute itself. */
  datatype Context = Context(
    studentId: string,
    /** `session_date_str`. */
    date: string,
    /** `datetime.strptime` of "%Y-%m-%d" text, in seconds; `None` when it
        raises. */
    parseDate: string -> Option<int>,
    /** `datetime.strptime` of "%Y-%m-%d %H:%M:%S" text. */
    parseDateTime: string -> Option<int>,
    /** `float(s)` for a finite result; `None` when `float` or the `int`
        that follows it raises. */
    toFloat: string -> Option<real>,
    /** `pd.to_numeric(s, errors='coerce')`, `None` for NaN. */
    toNumeric: string -> Option<real>)

  const Init := State(None, [], [], false, [])

  /** The columns of the result, also those of the empty result. */
  const OutColumns: seq<string> := ["student_id", "HeartRate", "EEG", "SkinConductance", "timestamp"]

  /** `not row or all(cell.strip() == '' for cell in row)`. */
  predicate BlankRow(row: seq<string>) {
    forall k :: 0 <= k < |row| ==> IsBlank(row[k])
  }

  predicate IsSessionStart(row: seq<string>) {
    row != [] && StartsWith(row[0], "Session start time")
  }

  predicate IsHeaderRow(row: seq<string>) {
    row != [] && StartsWith(row[0], "Markdown")
  }

  predicate IsDataRow(row: seq<string>) {
    row != [] && (StartsWith(row[0], "IAPF") || StartsWith(row[0], "Baseline"))
  }

  /** Pads `values` with `None` up to `n` cells, or truncates it to `n`. */
  function Fit(values: seq<string>, n: nat): (r: seq<Cell>)
    ensures |r| == n
    ensures forall k :: 0 <= k < n ==> r[k] == if k < |values| then Str(values[k]) else Pad
  {
    seq(n, k requires 0 <= k < n => if k < |values| then Str(values[k]) else Pad)
  }

  /** Python's `int(x)` of a float: truncation toward zero. */
  function Truncate(x: real): int {
    if x >= 0.0 then x.Floor else -((-x).Floor)
  }

  lemma TruncateTowardZero(x: real)
    ensures Truncate(x) as real <= x < Truncate(x) as real + 1.0 || Truncate(x) as real - 1.0 < x <= Truncate(x) as real
    ensures 0.0 <= x ==> 0 <= Truncate(x) && Truncate(x) as real <= x
    ensures x <= 0.0 ==> Truncate(x) <= 0 && x <= Truncate(x) as real
    ensures Truncate(-x) == -Truncate(x)
  {
  }

  /** The first position of `name` among the headers. */
  function IndexOf(headers: seq<string>, name: string): (r: Option<nat>)
    ensures r.Some? ==> r.value < |headers| && headers[r.value] == name
    ensures r.None? ==> name !in headers
  {
    if headers == [] then None
    else if headers[0] == name then Some(0)
    else match IndexOf(headers[1..], name)
      case None => None
      case Some(k) => Some(k + 1)
  }

  /** `name` names more than one column. */
  predicate Duplicated(headers: seq<string>, name: string) {
    match IndexOf(headers, name)
    case None => false
    case Some(k) => name in headers[k + 1..]
  }

  /** `int(float(row.get(name, 0)))`: 0 for a missing column; `None` when it
      raises, as it does for padding, for the empty strings pandas has
      replaced by NA, and for a duplicated name, where `row.get` gives a
      Series that `float` refuses. */
  function WholeField(line: seq<Cell>, headers: seq<string>, name: string, ctx: Context): Option<int>
    requires |line| == |headers|
  {
    match IndexOf(headers, name)
    case None => Some(0)
    case Some(k) =>
      if name in headers[k + 1..] then None
      else match line[k]
      case Pad => None
      case Str(s) =>
        if s == "" then None
        else match ctx.toFloat(s)
          case None => None
          case Some(x) => Some(Truncate(x))
  }

  /** `pd.to_numeric(session_df.get(name), errors='coerce')` for one line:
      missing column, padding, NA and unparsable text are all NaN. A
      duplicated name makes the call raise, which `Flush` models. */
  function NumericField(line: seq<Cell>, headers: seq<string>, name: string, ctx: Context): Option<real>
    requires |line| == |headers|
  {
    match IndexOf(headers, name)
    case None => None
    case Some(k) =>
      match line[k]
      case Pad => None
      case Str(s) => if s == "" then None else ctx.toNumeric(s)
  }

  /** One cleaned row: the start plus whole minutes and whole seconds. */
  function OutRowOf(line: seq<Cell>, headers: seq<string>, start: int, ctx: Context): Option<OutRow>
    requires |line| == |headers|
  {
    var minutes := WholeField(line, headers, "Time, min", ctx);
    var seconds := WholeField(line, headers, "Time, sec", ctx);
    if minutes.None? || seconds.None? then None
    else Some(OutRow(
      ctx.studentId,
      NumericField(line, headers, "Heart Rate", ctx),
      NumericField(line, headers, "Alpha Peak frequency", ctx),
      None,
      start + 60 * minutes.value + seconds.value))
  }

  /** The rows of a session; `None` when a timestamp cannot be computed,
      where the session is dropped. */
  function SessionRows(lines: seq<seq<Cell>>, headers: seq<string>, start: int, ctx: Context): (r: Option<seq<OutRow>>)
    requires forall k :: 0 <= k < |lines| ==> |lines[k]| == |headers|
    ensures r.Some? ==> |r.value| == |lines|
  {
    if lines == [] then Some([])
    else match OutRowOf(lines[0], headers, start, ctx)
      case None => None
      case Some(row) =>
        match SessionRows(lines[1..], headers, start, ctx)
        case None => None
        case Some(rest) => Some([row] + rest)
  }

  /** The state after the branch on the first cell, before the flush
      check. */
  function Classify(st: State, row: seq<string>, ctx: Context): State
    requires row != []
  {
    if IsSessionStart(row) then
      if |row| > 1 then
        st.(start := ctx.parseDateTime(ctx.date + " " + Strip(row[1])), lines := [], started := false)
      else st
    else if IsHeaderRow(row) then st.(headers := row[1..], started := true)
    else if st.started && IsDataRow(row) then st.(lines := st.lines + [Fit(row[1..], |st.headers|)])
    else st
  }

  /** Whether the flush check at the bottom of the loop fires. */
  predicate FlushDue(st: State, row: seq<string>, isLast: bool) {
    (IsSessionStart(row) || isLast) && st.lines != [] && st.headers != [] && st.start.Some?
  }

  /** The widest stored line; 0 when there is none. Lines differ in width
      when a "Markdown" row changes the headers in the middle of a
      session, because it keeps the lines stored before it. */
  function MaxWidth(lines: seq<seq<Cell>>): (w: nat)
    ensures forall k :: 0 <= k < |lines| ==> |lines[k]| <= w
    ensures lines != [] ==> exists k :: 0 <= k < |lines| && |lines[k]| == w
  {
    if lines == [] then 0
    else
      var w := MaxWidth(lines[1..]);
      assert forall k :: 1 <= k < |lines| ==> lines[k] == lines[1..][k - 1];
      if |lines[0]| > w then |lines[0]| else w
  }

  /** A stored line padded with `None` up to `n` cells, as the data frame
      pads every line narrower than the widest. */
  function Widen(line: seq<Cell>, n: nat): (r: seq<Cell>)
    requires |line| <= n
    ensures |r| == n
    ensures forall k :: 0 <= k < n ==> r[k] == if k < |line| then line[k] else Pad
  {
    line + seq(n - |line|, _ => Pad)
  }

  /** Every stored line widened to `n` cells. */
  function WidenAll(lines: seq<seq<Cell>>, n: nat): (r: seq<seq<Cell>>)
    requires forall k :: 0 <= k < |lines| ==> |lines[k]| <= n
    ensures |r| == |lines|
    ensures forall k :: 0 <= k < |r| ==> r[k] == Widen(lines[k], n)
  {
    seq(|lines|, k requires 0 <= k < |lines| => Widen(lines[k], n))
  }

  /** The flush: `None` when building the data frame raises, because the
      widest stored line does not match the headers' width, or when
      `pd.to_numeric` is given the several columns of a duplicated "Heart
      Rate" or "Alpha Peak frequency". A session whose timestamps cannot be
      computed is skipped, and the state stays as it was. */
  function Flush(st: State, ctx: Context): Option<State>
    requires st.start.Some?
  {
    if MaxWidth(st.lines) != |st.headers| then None
    else match SessionRows(WidenAll(st.lines, |st.headers|), st.headers, st.start.value, ctx)
      case None => Some(st)
      case Some(rows) =>
        if Duplicated(st.headers, "Heart Rate") || Duplicated(st.headers, "Alpha Peak frequency") then None
        else Some(st.(sessions := st.sessions + [rows], started := false))
  }

  /** One pass of the loop body on row `row`; `None` when it raises. */
  function Step(st: State, row: seq<string>, isLast: bool, ctx: Context): Option<State> {
    if BlankRow(row) then Some(st)
    else
      var next := Classify(st, row, ctx);
      if FlushDue(next, row, isLast) then Flush(next, ctx) else Some(next)
  }

  /** The loop from row `i` on. */
  function RunFrom(st: State, rows: seq<seq<string>>, i: nat, ctx: Context): Option<State>
    requires i <= |rows|
    decreases |rows| - i
  {
    if i == |rows| then Some(st)
    else match Step(st, rows[i], i == |rows| - 1, ctx)
      case None => None
      case Some(next) => RunFrom(next, rows, i + 1, ctx)
  }

  /** The concatenation of the sessions. */
  function Concat(sessions: seq<seq<OutRow>>): seq<OutRow> {
    if sessions == [] then [] else sessions[0] + Concat(sessions[1..])
  }

  /** parse_custom_csv as a specification: `None` when it raises. */
  function ParseCustomCsvSpec(rows: seq<seq<string>>, ctx: Context): Option<seq<OutRow>> {
    if ctx.parseDate(ctx.date).None? then None
    else match RunFrom(Init, rows, 0, ctx)
      case None => None
      case Some(st) => Some(Concat(st.sessions))
  }

  /** parse_custom_csv: the loop over the rows with its local state. */
  method ParseCustomCsv(rows: seq<seq<string>>, ctx: Context) returns (result: Option<seq<OutRow>>)
    ensures result == ParseCustomCsvSpec(rows, ctx)
  {
    if ctx.parseDate(ctx.date).None? {
      return None;
    }
    var st := Init;
    var i := 0;
    while i < |rows|
      invariant 0 <= i <= |rows|
      invariant RunFrom(st, rows, i, ctx) == RunFrom(Init, rows, 0, ctx)
    {
      var next := StepRow(st, rows[i], i == |rows| - 1, ctx);
      if next.None? {
        return None;
      }
      RunFromStep(st, rows, i, next.value, ctx);
      st := next.value;
      i := i + 1;
    }
    return Some(Concat(st.sessions));
  }

  /** The body of the loop for one row, over the loop variables held in
      `st`; `None` when it raises. */
  method StepRow(st: State, row: seq<string>, isLast: bool, ctx: Context) returns (next: Option<State>)
    ensures next == Step(st, row, isLast, ctx)
  {
    if BlankRow(row) {
      return Some(st);
    }
    var start, headers, lines, started, sessions := st.start, st.headers, st.lines, st.started, st.sessions;
    if IsSessionStart(row) {
      if |row| > 1 {
        start := ctx.parseDateTime(ctx.date + " " + Strip(row[1]));
        lines := [];
        started := false;
      }
    } else if IsHeaderRow(row) {
      headers := row[1..];
      started := true;
    } else if started && IsDataRow(row) {
      lines := lines + [Fit(row[1..], |headers|)];
    }
    var classified := State(start, headers, lines, started, sessions);
    assert classified == Classify(st, row, ctx);
    if (IsSessionStart(row) || isLast) && lines != [] && headers != [] && start.Some? {
      next := FlushSession(classified, ctx);
    } else {
      next := Some(classified);
    }
  }

  /** The body of the flush check: the data frame, the timestamps, then
      the numeric columns. */
  method FlushSession(st: State, ctx: Context) returns (next: Option<State>)
    requires st.start.Some?
    ensures next == Flush(st, ctx)
  {
    if MaxWidth(st.lines) != |st.headers| {
      return None;
    }
    var session := SessionRows(WidenAll(st.lines, |st.headers|), st.headers, st.start.value, ctx);
    if session.None? {
      return Some(st);
    }
    if Duplicated(st.headers, "Heart Rate") || Duplicated(st.headers, "Alpha Peak frequency") {
      return None;
    }
    return Some(st.(sessions := st.sessions + [session.value], started := false));
  }

  // ----- properties of one step -----

  /** Blank rows change nothing. */
  lemma BlankRowUnchanged(st: State, row: seq<string>, isLast: bool, ctx: Context)
    requires BlankRow(row)
    ensures Step(st, row, isLast, ctx) == Some(st)
  {
  }

  /** A "Markdown" row makes the rest of the row the headers and starts the
      data. */
  lemma HeaderRowSetsHeaders(st: State, row: seq<string>, isLast: bool, ctx: Context)
    requires !BlankRow(row) && IsHeaderRow(row) && !IsSessionStart(row)
    requires Step(st, row, isLast, ctx).Some?
    ensures var next := Step(st, row, isLast, ctx).value;
      next.headers == row[1..] && next.start == st.start
      && (next.started <==> next.sessions == st.sessions)
  {
  }

  /** A data line is stored only while the data has started, only for an
      "IAPF"/"Baseline" row, and with exactly as many cells as there are
      headers: the row's cells after the first, padded or truncated. */
  lemma DataRowFitsHeaders(st: State, row: seq<string>, ctx: Context)
    requires row != [] && !IsSessionStart(row) && !IsHeaderRow(row)
    ensures Classify(st, row, ctx).lines ==
      if st.started && IsDataRow(row) then st.lines + [Fit(row[1..], |st.headers|)] else st.lines
    ensures Classify(st, row, ctx).headers == st.headers
  {
  }

  /** A "Session start time" row with a second cell clears the pending
      lines and stops the data; the start is the parsed time or `None`. A
      bare one changes nothing. */
  lemma SessionStartResets(st: State, row: seq<string>, ctx: Context)
    requires IsSessionStart(row)
    ensures |row| > 1 ==>
      Classify(st, row, ctx) == st.(start := ctx.parseDateTime(ctx.date + " " + Strip(row[1])), lines := [], started := false)
    ensures |row| == 1 ==> Classify(st, row, ctx) == st
  {
  }

  /** Sessions are emitted only at a session-start row or at the last row;
      a session-start row with a second cell never emits one, because it
      has just cleared the pending lines. */
  lemma EmitOnlyAtBoundary(st: State, row: seq<string>, isLast: bool, ctx: Context)
    requires Step(st, row, isLast, ctx).Some?
    ensures var next := Step(st, row, isLast, ctx).value;
      next.sessions != st.sessions ==> !BlankRow(row) && (IsSessionStart(row) || isLast)
    ensures IsSessionStart(row) && |row| > 1 ==> Step(st, row, isLast, ctx).value.sessions == st.sessions
  {
  }

  /** The sessions only grow. */
  lemma {:induction false} RunKeepsSessions(st: State, rows: seq<seq<string>>, i: nat, ctx: Context)
    requires i <= |rows| && RunFrom(st, rows, i, ctx).Some?
    ensures st.sessions <= RunFrom(st, rows, i, ctx).value.sessions
    decreases |rows| - i
  {
    if i < |rows| {
      var next := Step(st, rows[i], i == |rows| - 1, ctx).value;
      RunKeepsSessions(next, rows, i + 1, ctx);
    }
  }

  /** Each cleaned row's timestamp is the start plus the truncated minutes
      and seconds, and a missing column counts as 0. */
  lemma OutRowTimestamp(line: seq<Cell>, headers: seq<string>, start: int, ctx: Context)
    requires |line| == |headers| && OutRowOf(line, headers, start, ctx).Some?
    ensures var r := OutRowOf(line, headers, start, ctx).value;
      r.studentId == ctx.studentId && r.skinConductance.None?
      && r.timestamp == start + 60 * WholeField(line, headers, "Time, min", ctx).value + WholeField(line, headers, "Time, sec", ctx).value
    ensures "Time, min" !in headers ==> WholeField(line, headers, "Time, min", ctx) == Some(0)
  {
  }

  // ----- the data frame -----

  /** Without a duplicated numeric column, the flush raises exactly when
      the widest stored line is not as wide as the headers. */
  lemma FlushRaisesIff(st: State, ctx: Context)
    requires st.start.Some?
    requires !Duplicated(st.headers, "Heart Rate") && !Duplicated(st.headers, "Alpha Peak frequency")
    ensures Flush(st, ctx).None? <==> MaxWidth(st.lines) != |st.headers|
  {
  }

  /** A duplicated time column makes every timestamp raise, so a session
      with lines is skipped and the state stays as it was. */
  lemma DuplicatedTimeSkipsSession(st: State, ctx: Context)
    requires st.start.Some? && st.lines != [] && MaxWidth(st.lines) == |st.headers|
    requires Duplicated(st.headers, "Time, min") || Duplicated(st.headers, "Time, sec")
    ensures Flush(st, ctx) == Some(st)
  {
    var widened := WidenAll(st.lines, |st.headers|);
    assert OutRowOf(widened[0], st.headers, st.start.value, ctx).None?;
  }

  /** A duplicated "Heart Rate" or "Alpha Peak frequency" makes a session
      whose timestamps are fine raise out of the whole parse. */
  lemma DuplicatedNumericRaises(st: State, ctx: Context)
    requires Duplicated(st.headers, "Heart Rate") || Duplicated(st.headers, "Alpha Peak frequency")
    requires st.start.Some? && MaxWidth(st.lines) == |st.headers|
    requires SessionRows(WidenAll(st.lines, |st.headers|), st.headers, st.start.value, ctx).Some?
    ensures Flush(st, ctx).None?
  {
  }

  /** Headers that grew in the middle of a session: a line stored under
      one header, then a line under two. The data frame pads the first
      line, and the session is emitted with both rows. */
  lemma FlushPadsNarrowLines(start: int, ctx: Context)
    ensures var st := State(Some(start), ["Heart Rate", "Alpha Peak frequency"], [[Str("70")], [Str("71"), Str("9")]], true, []);
      Flush(st, ctx).Some? && |Flush(st, ctx).value.sessions| == 1
      && var rows := Flush(st, ctx).value.sessions[0];
      |rows| == 2
      && rows[0].heartRate == ctx.toNumeric("70") && rows[0].eeg.None?
      && rows[1].heartRate == ctx.toNumeric("71") && rows[1].eeg == ctx.toNumeric("9")
      && rows[0].timestamp == start && rows[1].timestamp == start
  {
    var headers := ["Heart Rate", "Alpha Peak frequency"];
    var lines := [[Str("70")], [Str("71"), Str("9")]];
    var widened := [[Str("70"), Pad], [Str("71"), Str("9")]];
    GrownLinesWiden(lines, widened);
    GrownHeaders(headers);
    var row0 := OutRow(ctx.studentId, ctx.toNumeric("70"), None, None, start);
    var row1 := OutRow(ctx.studentId, ctx.toNumeric("71"), ctx.toNumeric("9"), None, start);
    assert OutRowOf(widened[0], headers, start, ctx) == Some(row0);
    assert OutRowOf(widened[1], headers, start, ctx) == Some(row1);
    TwoSessionRows(widened[0], widened[1], headers, start, ctx);
    assert [widened[0], widened[1]] == widened;
  }

  /** The session rows of two lines are their two rows. */
  lemma TwoSessionRows(l0: seq<Cell>, l1: seq<Cell>, headers: seq<string>, start: int, ctx: Context)
    requires |l0| == |headers| && |l1| == |headers|
    requires OutRowOf(l0, headers, start, ctx).Some? && OutRowOf(l1, headers, start, ctx).Some?
    ensures SessionRows([l0, l1], headers, start, ctx)
      == Some([OutRowOf(l0, headers, start, ctx).value, OutRowOf(l1, headers, start, ctx).value])
  {
    var r0 := OutRowOf(l0, headers, start, ctx).value;
    var r1 := OutRowOf(l1, headers, start, ctx).value;
    assert SessionRows([l1], headers, start, ctx) == Some([r1]) by {
      assert [l1][0] == l1 && [l1][1..] == [];
      assert [r1] + [] == [r1];
    }
    assert [l0, l1][0] == l0 && [l0, l1][1..] == [l1];
    assert [r0] + [r1] == [r0, r1];
  }

  /** The two lines of `FlushPadsNarrowLines`: widest 2, the first padded. */
  lemma GrownLinesWiden(lines: seq<seq<Cell>>, widened: seq<seq<Cell>>)
    requires lines == [[Str("70")], [Str("71"), Str("9")]]
    requires widened == [[Str("70"), Pad], [Str("71"), Str("9")]]
    ensures MaxWidth(lines) == 2 && WidenAll(lines, 2) == widened
  {
    assert MaxWidth(lines[1..]) == 2 by {
      assert lines[1..][1..] == [];
    }
    var w := WidenAll(lines, 2);
    assert w[0] == widened[0] by {
      assert w[0] == Widen(lines[0], 2);
    }
    assert w[1] == widened[1] by {
      assert w[1] == Widen(lines[1], 2);
    }
  }

  /** The headers of `FlushPadsNarrowLines`: no time column, each numeric
      column once. */
  lemma GrownHeaders(headers: seq<string>)
    requires headers == ["Heart Rate", "Alpha Peak frequency"]
    ensures IndexOf(headers, "Time, min").None? && IndexOf(headers, "Time, sec").None?
    ensures IndexOf(headers, "Heart Rate") == Some(0) && IndexOf(headers, "Alpha Peak frequency") == Some(1)
    ensures !Duplicated(headers, "Heart Rate") && !Duplicated(headers, "Alpha Peak frequency")
  {
    assert headers[0][0] != 'T' && headers[1][0] != 'T' && headers[0][0] != headers[1][0];
    assert headers[1..] == ["Alpha Peak frequency"] && headers[2..] == [];
    assert headers[1..][1..] == [];
  }

  // ----- the flush placement, as written and as intended -----

  /** A session is ready to be emitted. */
  predicate Ready(st: State) {
    st.lines != [] && st.headers != [] && st.start.Some?
  }

  /** As written, a "Session start time" row with a second cell discards
      the pending lines of the previous session without emitting them. */
  lemma SessionStartDiscardsPending(st: State, row: seq<string>, isLast: bool, ctx: Context)
    requires IsSessionStart(row) && |row| > 1 && Ready(st)
    ensures Step(st, row, isLast, ctx).Some?
    ensures Step(st, row, isLast, ctx).value.lines == []
    ensures Step(st, row, isLast, ctx).value.sessions == st.sessions
  {
    assert !BlankRow(row) by {
      assert !IsBlank(row[0]) by {
        assert row[0][0] == 'S';
      }
    }
  }

  /** As written, a blank last row skips the final flush: the pending
      session stays pending and the loop ends. */
  lemma LastBlankRowNeverFlushes(st: State, row: seq<string>, ctx: Context)
    requires BlankRow(row) && Ready(st)
    ensures Step(st, row, true, ctx) == Some(st)
  {
  }

  /** The intended loop body: a session-start row first emits the pending
      session, then starts the new one. */
  function StepIntended(st: State, row: seq<string>, ctx: Context): Option<State> {
    if BlankRow(row) then Some(st)
    else
      var pre := if IsSessionStart(row) && Ready(st) then Flush(st, ctx) else Some(st);
      match pre
      case None => None
      case Some(p) => Some(Classify(p, row, ctx))
  }

  /** The intended loop from row `i` on, with the final flush after the
      last row whatever that row holds. */
  function RunIntendedFrom(st: State, rows: seq<seq<string>>, i: nat, ctx: Context): Option<State>
    requires i <= |rows|
    decreases |rows| - i
  {
    if i == |rows| then (if Ready(st) then Flush(st, ctx) else Some(st))
    else match StepIntended(st, rows[i], ctx)
      case None => None
      case Some(next) => RunIntendedFrom(next, rows, i + 1, ctx)
  }

  /** parse_custom_csv with the flush placed as intended. */
  function ParseIntended(rows: seq<seq<string>>, ctx: Context): Option<seq<OutRow>> {
    if ctx.parseDate(ctx.date).None? then None
    else match RunIntendedFrom(Init, rows, 0, ctx)
      case None => None
      case Some(st) => Some(Concat(st.sessions))
  }

  /** With the intended placement a session-start row emits the pending
      session before resetting. */
  lemma StepIntendedEmitsPending(st: State, row: seq<string>, ctx: Context)
    requires IsSessionStart(row) && Ready(st)
    requires forall k :: 0 <= k < |st.lines| ==> |st.lines[k]| == |st.headers|
    requires SessionRows(st.lines, st.headers, st.start.value, ctx).Some?
    requires !Duplicated(st.headers, "Heart Rate") && !Duplicated(st.headers, "Alpha Peak frequency")
    ensures StepIntended(st, row, ctx).Some?
    ensures StepIntended(st, row, ctx).value.sessions == st.sessions + [SessionRows(st.lines, st.headers, st.start.value, ctx).value]
    ensures |row| > 1 ==> StepIntended(st, row, ctx).value.lines == []
  {
    WidenAllSame(st.lines, |st.headers|);
    assert !BlankRow(row) by {
      assert !IsBlank(row[0]) by {
        assert row[0][0] == 'S';
      }
    }
  }

  /** With the intended placement, blank rows at the end of the file make
      no difference. */
  lemma {:induction false} TrailingBlankIrrelevant(st: State, rows: seq<seq<string>>, blank: seq<string>, i: nat, ctx: Context)
    requires i <= |rows| && BlankRow(blank)
    ensures RunIntendedFrom(st, rows + [blank], i, ctx) == RunIntendedFrom(st, rows, i, ctx)
    decreases |rows| - i
  {
    var extended := rows + [blank];
    if i == |rows| {
      assert extended[i] == blank;
      assert RunIntendedFrom(st, extended, i + 1, ctx) == (if Ready(st) then Flush(st, ctx) else Some(st));
    } else {
      assert extended[i] == rows[i];
      match StepIntended(st, rows[i], ctx)
      case None =>
      case Some(next) =>
        TrailingBlankIrrelevant(next, rows, blank, i + 1, ctx);
    }
  }

  // ----- a file that shows the difference -----

  const StartRow: seq<string> := ["Session start time", "10:00:00"]
  const HeaderRow: seq<string> := ["Markdown", "Heart Rate"]
  const DataRow: seq<string> := ["IAPF", "70"]
  const NextStartRow: seq<string> := ["Session start time", "11:00:00"]

  /** A file whose first three rows hold one complete session: a start
      time, a "Markdown" header and an "IAPF" data line. */
  predicate OneSessionThen(rows: seq<seq<string>>) {
    |rows| == 4 && rows[0] == StartRow && rows[1] == HeaderRow && rows[2] == DataRow
  }

  lemma RowKinds()
    ensures !BlankRow(StartRow) && IsSessionStart(StartRow)
    ensures !BlankRow(NextStartRow) && IsSessionStart(NextStartRow)
    ensures !BlankRow(HeaderRow) && !IsSessionStart(HeaderRow) && IsHeaderRow(HeaderRow)
    ensures !BlankRow(DataRow) && !IsSessionStart(DataRow) && !IsHeaderRow(DataRow) && IsDataRow(DataRow)
    ensures BlankRow([""])
  {
    assert !IsPySpace(StartRow[0][0]);
    assert !IsPySpace(NextStartRow[0][0]);
    assert !IsPySpace(HeaderRow[0][0]);
    assert !IsPySpace(DataRow[0][0]);
  }

  /** The start the first row gives: the session date at "10:00:00". */
  function FirstStart(ctx: Context): Option<int> {
    ctx.parseDateTime(ctx.date + " " + Strip(StartRow[1]))
  }

  /** The state after the "Session start time" row. */
  function AfterStart(start: Option<int>): State {
    Init.(start := start)
  }

  /** The state after the "Markdown" row. */
  function AfterHeader(start: Option<int>): State {
    AfterStart(start).(headers := ["Heart Rate"], started := true)
  }

  /** The state after the first three rows: one complete session with
      one data line, pending. */
  function Pending(start: Option<int>): State {
    AfterHeader(start).(lines := [[Str("70")]])
  }

  lemma StartStep(ctx: Context)
    ensures Step(Init, StartRow, false, ctx) == Some(AfterStart(FirstStart(ctx)))
    ensures StepIntended(Init, StartRow, ctx) == Some(AfterStart(FirstStart(ctx)))
  {
    RowKinds();
  }

  lemma HeaderStep(start: Option<int>, ctx: Context)
    ensures Step(AfterStart(start), HeaderRow, false, ctx) == Some(AfterHeader(start))
    ensures StepIntended(AfterStart(start), HeaderRow, ctx) == Some(AfterHeader(start))
  {
    RowKinds();
    assert HeaderRow[1..] == ["Heart Rate"];
  }

  lemma DataStep(start: Option<int>, ctx: Context)
    ensures Step(AfterHeader(start), DataRow, false, ctx) == Some(Pending(start))
    ensures StepIntended(AfterHeader(start), DataRow, ctx) == Some(Pending(start))
  {
    RowKinds();
    var st := AfterHeader(start);
    assert Classify(st, DataRow, ctx) == Pending(start) by {
      assert Fit(DataRow[1..], 1) == [Str("70")];
      assert st.lines + [Fit(DataRow[1..], |st.headers|)] == [[Str("70")]];
    }
  }

  /** Lines already as wide as the headers are not padded. */
  lemma WidenAllSame(lines: seq<seq<Cell>>, n: nat)
    requires forall k :: 0 <= k < |lines| ==> |lines[k]| == n
    ensures WidenAll(lines, n) == lines
  {
    forall k | 0 <= k < |lines|
      ensures WidenAll(lines, n)[k] == lines[k]
    {
      assert Widen(lines[k], n) == lines[k];
    }
  }

  /** The pending session's one header is not duplicated. */
  lemma PendingHeadersDistinct()
    ensures !Duplicated(["Heart Rate"], "Heart Rate") && !Duplicated(["Heart Rate"], "Alpha Peak frequency")
  {
    assert ["Heart Rate"][1..] == [];
    assert "Heart Rate"[0] != "Alpha Peak frequency"[0];
  }

  /** One row of the loop as written. */
  lemma RunFromStep(st: State, rows: seq<seq<string>>, i: nat, next: State, ctx: Context)
    requires i < |rows| && Step(st, rows[i], i == |rows| - 1, ctx) == Some(next)
    ensures RunFrom(st, rows, i, ctx) == RunFrom(next, rows, i + 1, ctx)
  {
  }

  /** One row of the intended loop. */
  lemma RunIntendedFromStep(st: State, rows: seq<seq<string>>, i: nat, next: State, ctx: Context)
    requires i < |rows| && StepIntended(st, rows[i], ctx) == Some(next)
    ensures RunIntendedFrom(st, rows, i, ctx) == RunIntendedFrom(next, rows, i + 1, ctx)
  {
  }

  /** After the first three rows, the loop as written has the pending
      session. */
  lemma FirstSessionPending(ctx: Context, rows: seq<seq<string>>)
    requires OneSessionThen(rows)
    ensures RunFrom(Init, rows, 0, ctx) == RunFrom(Pending(FirstStart(ctx)), rows, 3, ctx)
  {
    var start := FirstStart(ctx);
    StartStep(ctx);
    RunFromStep(Init, rows, 0, AfterStart(start), ctx);
    HeaderStep(start, ctx);
    RunFromStep(AfterStart(start), rows, 1, AfterHeader(start), ctx);
    DataStep(start, ctx);
    RunFromStep(AfterHeader(start), rows, 2, Pending(start), ctx);
  }

  /** After the first three rows, the intended loop has the pending
      session too. */
  lemma FirstSessionPendingIntended(ctx: Context, rows: seq<seq<string>>)
    requires OneSessionThen(rows)
    ensures RunIntendedFrom(Init, rows, 0, ctx) == RunIntendedFrom(Pending(FirstStart(ctx)), rows, 3, ctx)
  {
    var start := FirstStart(ctx);
    StartStep(ctx);
    RunIntendedFromStep(Init, rows, 0, AfterStart(start), ctx);
    HeaderStep(start, ctx);
    RunIntendedFromStep(AfterStart(start), rows, 1, AfterHeader(start), ctx);
    DataStep(start, ctx);
    RunIntendedFromStep(AfterHeader(start), rows, 2, Pending(start), ctx);
  }

  /** The one cleaned row of the pending session. */
  lemma PendingRow(ctx: Context, start: int)
    ensures OutRowOf([Str("70")], ["Heart Rate"], start, ctx).Some?
  {
    assert IndexOf(["Heart Rate"], "Time, min") == None by {
      assert "Heart Rate"[0] != "Time, min"[0];
      assert ["Heart Rate"][1..] == [];
    }
    assert IndexOf(["Heart Rate"], "Time, sec") == None by {
      assert "Heart Rate"[0] != "Time, sec"[0];
      assert ["Heart Rate"][1..] == [];
    }
  }

  lemma PendingSessionRows(ctx: Context, start: int)
    ensures SessionRows([[Str("70")]], ["Heart Rate"], start, ctx).Some?
    ensures |SessionRows([[Str("70")]], ["Heart Rate"], start, ctx).value| == 1
  {
    PendingRow(ctx, start);
    assert [[Str("70")]][1..] == [];
  }

  /** Flushing the pending session emits it as one row. */
  lemma FlushPending(start: int, ctx: Context)
    ensures Flush(Pending(Some(start)), ctx).Some?
    ensures var next := Flush(Pending(Some(start)), ctx).value;
      |next.sessions| == 1 && |next.sessions[0]| == 1 && next.lines == [[Str("70")]]
      && next.headers == ["Heart Rate"] && next.start == Some(start)
  {
    var st := Pending(Some(start));
    WidenAllSame(st.lines, 1);
    PendingSessionRows(ctx, start);
    PendingHeadersDistinct();
  }

  /** As written, a fourth row that starts a new session, or a blank
      one, leaves the pending session unemitted. */
  lemma LastRowAsWritten(start: int, rows: seq<seq<string>>, ctx: Context)
    requires OneSessionThen(rows) && (rows[3] == NextStartRow || BlankRow(rows[3]))
    ensures RunFrom(Pending(Some(start)), rows, 3, ctx).Some?
    ensures RunFrom(Pending(Some(start)), rows, 3, ctx).value.sessions == []
  {
    var st := Pending(Some(start));
    if rows[3] == NextStartRow {
      SessionStartDiscardsPending(st, NextStartRow, true, ctx);
      var next := Step(st, NextStartRow, true, ctx).value;
      RunFromStep(st, rows, 3, next, ctx);
    } else {
      RunFromStep(st, rows, 3, st, ctx);
    }
  }

  /** As written, a complete session followed by the start of another
      yields no rows at all, and so does one followed by a blank row. */
  lemma CompleteSessionLostAsWritten(ctx: Context, rows: seq<seq<string>>)
    requires ctx.parseDate(ctx.date).Some?
    requires FirstStart(ctx).Some?
    requires OneSessionThen(rows) && (rows[3] == NextStartRow || BlankRow(rows[3]))
    ensures ParseCustomCsvSpec(rows, ctx) == Some([])
  {
    FirstSessionPending(ctx, rows);
    LastRowAsWritten(FirstStart(ctx).value, rows, ctx);
  }

  /** The concatenation of a single session is that session. */
  lemma ConcatOne(rows: seq<OutRow>)
    ensures Concat([rows]) == rows
  {
    assert [rows][1..] == [];
  }

  /** With the intended placement, the next session-start row emits the
      pending session and leaves nothing ready. */
  lemma NextStartIntended(start: int, ctx: Context)
    ensures StepIntended(Pending(Some(start)), NextStartRow, ctx).Some?
    ensures var next := StepIntended(Pending(Some(start)), NextStartRow, ctx).value;
      !Ready(next) && |next.sessions| == 1 && |next.sessions[0]| == 1
  {
    RowKinds();
    PendingSessionRows(ctx, start);
    StepIntendedEmitsPending(Pending(Some(start)), NextStartRow, ctx);
  }

  /** With the intended flush placement a complete session followed by
      the start of another yields the one row of the complete session. */
  lemma InterruptedKeptAsIntended(ctx: Context, rows: seq<seq<string>>)
    requires ctx.parseDate(ctx.date).Some?
    requires FirstStart(ctx).Some?
    requires OneSessionThen(rows) && rows[3] == NextStartRow
    ensures ParseIntended(rows, ctx).Some? && |ParseIntended(rows, ctx).value| == 1
  {
    var start := FirstStart(ctx).value;
    FirstSessionPendingIntended(ctx, rows);
    NextStartIntended(start, ctx);
    var next := StepIntended(Pending(Some(start)), NextStartRow, ctx).value;
    RunIntendedFromStep(Pending(Some(start)), rows, 3, next, ctx);
    assert RunIntendedFrom(next, rows, 4, ctx) == Some(next);
    ConcatOne(next.sessions[0]);
    assert next.sessions == [next.sessions[0]];
  }

  /** With the intended flush placement a complete session followed by a
      blank row yields the one row of the session. */
  lemma TrailingBlankKeptAsIntended(ctx: Context, rows: seq<seq<string>>)
    requires ctx.parseDate(ctx.date).Some?
    requires FirstStart(ctx).Some?
    requires OneSessionThen(rows) && BlankRow(rows[3])
    ensures ParseIntended(rows, ctx).Some? && |ParseIntended(rows, ctx).value| == 1
  {
    var start := FirstStart(ctx).value;
    var st := Pending(Some(start));
    FirstSessionPendingIntended(ctx, rows);
    RunIntendedFromStep(st, rows, 3, st, ctx);
    FlushPending(start, ctx);
    var flushed := Flush(st, ctx).value;
    assert RunIntendedFrom(st, rows, 4, ctx) == Some(flushed);
    ConcatOne(flushed.sessions[0]);
    assert flushed.sessions == [flushed.sessions[0]];
  }
}
