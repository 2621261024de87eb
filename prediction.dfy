/** The request logic of backend/prediction.py: range validation, severity
    grading, the choice of the two most important features, the ordered
    checks of the manual and CSV prediction routes, and the owner check of
    the history delete route. The trained model, the SHAP weights, the
    column means, the token check, the clock, the timestamp parser and the
    random choice of a feedback template are parameters. */
module Prediction {
  import opened Wrappers
  import opened Text
  import opened Values

  /** `expected_columns`, in order. */
  datatype Column = HeartRate | SkinConductance | EEG
  {
    function Name(): string {
      match this
      case HeartRate => "HeartRate"
      case SkinConductance => "SkinConductance"
      case EEG => "EEG"
    }
  }

  const ExpectedColumns: seq<Column> := [HeartRate, SkinConductance, EEG]

  /** One row of sensor values. */
  datatype Reading = Reading(heartRate: real, skinConductance: real, eeg: real)
  {
    function Value(c: Column): real {
      match c
      case HeartRate => heartRate
      case SkinConductance => skinConductance
      case EEG => eeg
    }
  }

  // ----- grade_severity -----

  datatype Severity = Normal | Mild | Severe
  {
    function Name(): string {
      match this
      case Normal => "normal"
      case Mild => "mild"
      case Severe => "severe"
    }

    function Rank(): nat {
      match this
      case Normal => 0
      case Mild => 1
      case Severe => 2
    }
  }

  function Abs(x: real): real {
    if x < 0.0 then -x else x
  }

  /** grade_severity: the distance from the column mean, graded at 0.5 and
      1.5. */
  function GradeSeverity(value: real, mean: real): Severity {
    var deviation := Abs(value - mean);
    if deviation < 0.5 then Normal
    else if deviation < 1.5 then Mild
    else Severe
  }

  /** The grade depends on the distance from the mean alone, not on its
      sign, and a larger distance never grades milder. */
  lemma GradeSeverityByDistance(v1: real, m1: real, v2: real, m2: real)
    requires Abs(v1 - m1) <= Abs(v2 - m2)
    ensures GradeSeverity(v1, m1).Rank() <= GradeSeverity(v2, m2).Rank()
    ensures Abs(v1 - m1) == Abs(v2 - m2) ==> GradeSeverity(v1, m1) == GradeSeverity(v2, m2)
    ensures GradeSeverity(v1, m1) == GradeSeverity(m1 + (m1 - v1), m1)
  {
  }

  // ----- validate_ranges -----

  /** The three range messages, in the order they are checked. */
  datatype RangeError = HrvOutOfRange | EegOutOfRange | GsrOutOfRange
  {
    function Text(): string {
      match this
      case HrvOutOfRange => "HRV must be between 20 and 100 ms."
      case EegOutOfRange => "EEG Alpha Waves must be between 1 and 20 Hz."
      case GsrOutOfRange => "GSR must be between 0.01 and 20 \U{B5}S."
    }

    function Rank(): nat {
      match this
      case HrvOutOfRange => 0
      case EegOutOfRange => 1
      case GsrOutOfRange => 2
    }
  }

  /** The accepted ranges, all inclusive. */
  predicate InRange(r: Reading) {
    20.0 <= r.heartRate <= 100.0 && 1.0 <= r.eeg <= 20.0 && 0.01 <= r.skinConductance <= 20.0
  }

  /** The errors validate_ranges reports, heart rate first, then EEG, then
      skin conductance. */
  function RangeErrors(r: Reading): (errs: seq<RangeError>)
    ensures |errs| <= 3
    ensures HrvOutOfRange in errs <==> !(20.0 <= r.heartRate <= 100.0)
    ensures EegOutOfRange in errs <==> !(1.0 <= r.eeg <= 20.0)
    ensures GsrOutOfRange in errs <==> !(0.01 <= r.skinConductance <= 20.0)
  {
    (if 20.0 <= r.heartRate <= 100.0 then [] else [HrvOutOfRange])
    + (if 1.0 <= r.eeg <= 20.0 then [] else [EegOutOfRange])
    + (if 0.01 <= r.skinConductance <= 20.0 then [] else [GsrOutOfRange])
  }

  /** validate_ranges: one append per failed check. */
  method ValidateRanges(r: Reading) returns (errors: seq<RangeError>)
    ensures errors == RangeErrors(r)
  {
    errors := [];
    if !(20.0 <= r.heartRate <= 100.0) {
      errors := errors + [HrvOutOfRange];
    }
    if !(1.0 <= r.eeg <= 20.0) {
      errors := errors + [EegOutOfRange];
    }
    if !(0.01 <= r.skinConductance <= 20.0) {
      errors := errors + [GsrOutOfRange];
    }
  }

  /** No error exactly when every value is in range; the errors come in
      check order, each at most once. */
  lemma RangeErrorsSound(r: Reading)
    ensures RangeErrors(r) == [] <==> InRange(r)
    ensures forall i, j :: 0 <= i < j < |RangeErrors(r)| ==> RangeErrors(r)[i].Rank() < RangeErrors(r)[j].Rank()
  {
  }

  /** `sep.join(parts)`. */
  function Join(parts: seq<string>, sep: string): string {
    if parts == [] then ""
    else if |parts| == 1 then parts[0]
    else parts[0] + sep + Join(parts[1..], sep)
  }

  /** The texts of a list of range errors. */
  function Texts(errs: seq<RangeError>): (ts: seq<string>)
    ensures |ts| == |errs|
    ensures forall i :: 0 <= i < |errs| ==> ts[i] == errs[i].Text()
  {
    seq(|errs|, i requires 0 <= i < |errs| => errs[i].Text())
  }

  // ----- generate_feedback -----

  /** The SHAP weights of one level, as (feature, weight) pairs in the
      dictionary's order. */
  type Weights = seq<(string, real)>

  /** The first position of a largest weight. */
  function FirstMax(ws: Weights): (i: nat)
    requires ws != []
    ensures i < |ws|
    ensures forall k :: 0 <= k < |ws| ==> ws[k].1 <= ws[i].1
    ensures forall k :: 0 <= k < i ==> ws[k].1 < ws[i].1
  {
    if |ws| == 1 then 0
    else
      var j := FirstMax(ws[..|ws| - 1]);
      if ws[|ws| - 1].1 > ws[j].1 then |ws| - 1 else j
  }

  /** The first two entries of the weights sorted by descending weight with
      Python's stable sort: the first largest, then the first largest of
      the others. `None` when there are fewer than two, where unpacking
      into `cause1, cause2` raises. */
  function TopTwo(ws: Weights): (r: Option<(nat, nat)>)
    ensures r.None? <==> |ws| < 2
    ensures r.Some? ==> r.value.0 < |ws| && r.value.1 < |ws| && r.value.0 != r.value.1
  {
    if |ws| < 2 then None
    else
      var i := FirstMax(ws);
      Some((i, SecondLargest(ws, i)))
  }

  /** The first largest of the entries other than `i`: found in `ws`
      without its entry at `i`, then mapped back to a position of `ws`. */
  function SecondLargest(ws: Weights, i: nat): (j: nat)
    requires |ws| >= 2 && i < |ws|
    ensures j < |ws| && j != i
  {
    var m := FirstMax(Without(ws, i));
    if m < i then m else m + 1
  }

  /** `ws` without its entry at `i`. */
  function Without(ws: Weights, i: nat): (r: Weights)
    requires i < |ws|
    ensures |r| == |ws| - 1
    ensures forall k :: 0 <= k < i ==> r[k] == ws[k]
    ensures forall k :: i < k < |ws| ==> r[k - 1] == ws[k]
  {
    ws[..i] + ws[i + 1..]
  }

  /** `i` holds the largest weight, and no earlier entry ties with it:
      where a stable descending sort puts its first entry. */
  predicate FirstLargest(ws: Weights, i: nat) {
    i < |ws|
    && (forall k :: 0 <= k < |ws| ==> ws[k].1 <= ws[i].1)
    && (forall k :: 0 <= k < i ==> ws[k].1 < ws[i].1)
  }

  /** `j` is the first largest entry other than `i`: where a stable
      descending sort puts its second entry once `i` is first. */
  predicate FirstLargestOfOthers(ws: Weights, i: nat, j: nat) {
    j < |ws| && j != i
    && (forall k :: 0 <= k < |ws| && k != i ==> ws[k].1 <= ws[j].1)
    && (forall k :: 0 <= k < j && k != i ==> ws[k].1 < ws[j].1)
  }

  /** The two positions are those of the stable descending sort's first
      two entries: the first largest weight, then the first largest among
      the others. */
  lemma TopTwoIsSortedPrefix(ws: Weights)
    requires |ws| >= 2
    ensures FirstLargest(ws, TopTwo(ws).value.0)
    ensures FirstLargestOfOthers(ws, TopTwo(ws).value.0, TopTwo(ws).value.1)
  {
    SecondIsFirstMaxOfRest(ws, FirstMax(ws));
  }

  /** The second position is the first largest of the others. */
  lemma SecondIsFirstMaxOfRest(ws: Weights, i: nat)
    requires |ws| >= 2 && i < |ws|
    ensures FirstLargestOfOthers(ws, i, SecondLargest(ws, i))
  {
    var rest := Without(ws, i);
    var m := FirstMax(rest);
    var j := if m < i then m else m + 1;
    assert rest[m] == ws[j];
    forall k | 0 <= k < |ws| && k != i
      ensures ws[k].1 <= ws[j].1 && (k < j ==> ws[k].1 < ws[j].1)
    {
      var k' := if k < i then k else k - 1;
      assert rest[k'] == ws[k];
    }
  }

  /** What generate_feedback returns: the feedback sentence, the names of
      the two top features and the severity of every expected column. */
  datatype Feedback = Feedback(text: string, topFeatures: seq<string>, severities: map<Column, Severity>)

  /** The severities dictionary. */
  function Severities(r: Reading, means: Reading): (m: map<Column, Severity>)
    ensures m.Keys == {HeartRate, SkinConductance, EEG}
    ensures forall c :: c in m ==> m[c] == GradeSeverity(r.Value(c), means.Value(c))
  {
    map c | c in ExpectedColumns :: GradeSeverity(r.Value(c), means.Value(c))
  }

  /** What the route depends on but does not compute itself. */
  datatype Services = Services(
    /** verify_token: the username of a valid token. */
    verify: string -> Option<string>,
    /** The trained model's level for a row. */
    predict: Reading -> int,
    /** `shap_importance`, by level. */
    shap: map<int, Weights>,
    /** `column_means`. */
    means: Reading,
    /** The template `random.choice` picks for a level, filled with the two
        causes. */
    compose: (int, string, string) -> string,
    /** `pd.Timestamp.now()`. */
    now: int,
    /** `pd.to_datetime` of a string, `None` when it raises. */
    parseTime: string -> Option<int>)

  /** `shap_importance.get(int(level), {})`. */
  function ShapFor(level: int, env: Services): Weights {
    if level in env.shap then env.shap[level] else []
  }

  /** generate_feedback; `None` when it raises: fewer than two weighted
      features for the level, or a level without feedback templates. */
  function GenerateFeedback(level: int, r: Reading, env: Services): (f: Option<Feedback>)
    ensures f.Some? <==> |ShapFor(level, env)| >= 2 && 0 <= level <= 2
    ensures f.Some? ==> |f.value.topFeatures| == 2 && f.value.severities.Keys == {HeartRate, SkinConductance, EEG}
  {
    var ws := ShapFor(level, env);
    match TopTwo(ws)
    case None => None
    case Some((i, j)) =>
      if !(0 <= level <= 2) then None
      else
        var cause1 := ws[i].0;
        var cause2 := ws[j].0;
        Some(Feedback(env.compose(level, cause1, cause2), [cause1, cause2], Severities(r, env.means)))
  }

  // ----- the routes -----

  /** `request.headers.get('Authorization', '').replace('Bearer ', '')`. */
  function TokenOf(header: Option<string>): string {
    RemoveAll(header.GetOr(""), "Bearer ")
  }

  /** The username of the caller, when `verify_token` gives a truthy one. */
  function Caller(header: Option<string>, env: Services): (u: Option<string>)
    ensures u.Some? <==> PyTruthy(env.verify(TokenOf(header)))
    ensures u.Some? ==> u == env.verify(TokenOf(header)) && u.value != ""
  {
    var username := env.verify(TokenOf(header));
    if PyTruthy(username) then username else None
  }

  /** A header "Bearer t", with no further "Bearer " in t, identifies the
      caller exactly when `verify_token(t)` gives a truthy name, and then
      as that name. */
  lemma BearerCaller(t: string, env: Services)
    requires !Contains(t, "Bearer ")
    ensures Caller(Some("Bearer " + t), env) == if PyTruthy(env.verify(t)) then env.verify(t) else None
  {
    RemoveAllPrefix("Bearer ", t);
  }

  /** A stored prediction. */
  datatype Doc = Doc(
    username: string,
    studentId: PyValue,
    input: Reading,
    level: int,
    feedback: string,
    topFeatures: seq<string>,
    severities: map<Column, Severity>,
    timestamp: int)

  /** How a prediction route ends. `ServerError` is an exception Flask
      turns into a 500, listing the documents the route had already
      inserted before it raised; `Stored` lists the documents inserted,
      which the route also returns. */
  datatype Outcome = Unauthorized | BadRequest(message: string) | ServerError(inserted: seq<Doc>) | Stored(docs: seq<Doc>)
  {
    function Status(): int {
      match this
      case Unauthorized => 401
      case BadRequest(_) => 400
      case ServerError(_) => 500
      case Stored(_) => 200
    }
  }

  /** The first expected column the body lacks. */
  function MissingColumn(body: map<string, PyValue>, cols: seq<Column>): (c: Option<Column>)
    ensures c.Some? ==> c.value in cols && c.value.Name() !in body
    ensures c.None? ==> forall k :: 0 <= k < |cols| ==> cols[k].Name() in body
  {
    if cols == [] then None
    else if cols[0].Name() !in body then Some(cols[0])
    else MissingColumn(body, cols[1..])
  }

  /** The expected columns of a body as numbers; `None` when one of them
      is not a number, where the comparisons of validate_ranges raise. */
  function ReadingOf(body: map<string, PyValue>): Option<Reading>
    requires forall k :: 0 <= k < |ExpectedColumns| ==> ExpectedColumns[k].Name() in body
  {
    assert HeartRate.Name() in body && SkinConductance.Name() in body && EEG.Name() in body by {
      assert ExpectedColumns[0] == HeartRate && ExpectedColumns[1] == SkinConductance && ExpectedColumns[2] == EEG;
    }
    var hr := AsNumber(body["HeartRate"]);
    var sc := AsNumber(body["SkinConductance"]);
    var eeg := AsNumber(body["EEG"]);
    if hr.Some? && sc.Some? && eeg.Some? then Some(Reading(hr.value, sc.value, eeg.value)) else None
  }

  /** manual_predict: the token, then `student_id`, then the columns in
      order, then the ranges; only then the model and the insert. */
  function ManualPredict(header: Option<string>, body: map<string, PyValue>, env: Services): Outcome {
    var user := Caller(header, env);
    var studentId := if "student_id" in body then body["student_id"] else PyNone;
    if user.None? then Unauthorized
    else if !PyTrue(studentId) then BadRequest("Missing student_id")
    else match MissingColumn(body, ExpectedColumns)
      case Some(c) => BadRequest("Missing column: " + c.Name())
      case None =>
        match ReadingOf(body)
        case None => ServerError([])
        case Some(r) =>
          var errs := RangeErrors(r);
          if errs != [] then BadRequest(Join(Texts(errs), " | "))
          else
            var level := env.predict(r);
            match GenerateFeedback(level, r, env)
            case None => ServerError([])
            case Some(f) =>
              Stored([Doc(user.value, studentId, r, level, f.text, f.topFeatures, f.severities, env.now)])
  }

  /** The checks of manual_predict in order: an unverified token gets 401
      and nothing else does; a verified caller without a truthy
      `student_id` gets that 400; then the first missing column; an
      out-of-range reading gets its joined messages. */
  lemma ManualPredictCheckOrder(header: Option<string>, body: map<string, PyValue>, env: Services)
    ensures ManualPredict(header, body, env) == Unauthorized <==> Caller(header, env).None?
    ensures Caller(header, env).Some? && !("student_id" in body && PyTrue(body["student_id"])) ==>
      ManualPredict(header, body, env) == BadRequest("Missing student_id")
    ensures Caller(header, env).Some? && "student_id" in body && PyTrue(body["student_id"]) ==>
      match MissingColumn(body, ExpectedColumns)
      case Some(c) => ManualPredict(header, body, env) == BadRequest("Missing column: " + c.Name())
      case None => ReadingOf(body).Some? && !InRange(ReadingOf(body).value) ==>
        ManualPredict(header, body, env) == BadRequest(Join(Texts(RangeErrors(ReadingOf(body).value)), " | "))
  {
    if Caller(header, env).Some? && "student_id" in body && PyTrue(body["student_id"])
      && MissingColumn(body, ExpectedColumns).None? && ReadingOf(body).Some?
    {
      RangeErrorsSound(ReadingOf(body).value);
    }
  }

  /** A manual prediction is stored only for a verified caller, a truthy
      student id and an in-range reading, as exactly one document owned by
      the caller. */
  lemma ManualPredictStoresOnlyValid(header: Option<string>, body: map<string, PyValue>, env: Services)
    requires ManualPredict(header, body, env).Stored?
    ensures var docs := ManualPredict(header, body, env).docs;
      |docs| == 1 && Caller(header, env) == Some(docs[0].username)
      && "student_id" in body && PyTrue(body["student_id"]) && docs[0].studentId == body["student_id"]
      && Some(docs[0].input) == ReadingOf(body) && InRange(docs[0].input)
  {
    var r := ReadingOf(body).value;
    RangeErrorsSound(r);
  }

  // ----- csv_predict -----

  /** A numeric CSV cell; `Empty` is a blank cell pandas reads as NaN. */
  datatype Cell = Empty | Number(x: real)

  /** The `timestamp` cell of a row: no such column, NaN, a parsed
      non-string value, or text. */
  datatype Stamp = NoStamp | NaNStamp | NonString | StampText(s: string)

  datatype CsvRow = CsvRow(studentId: PyValue, heartRate: Cell, skinConductance: Cell, eeg: Cell, timestamp: Stamp)

  /** The uploaded file: absent, or its column names and rows. */
  datatype Upload = NoFile | Csv(columns: set<string>, rows: seq<CsvRow>)

  /** `df[col].fillna(column_means[col])`. */
  function Fill(c: Cell, mean: real): real {
    match c
    case Empty => mean
    case Number(x) => x
  }

  function FilledReading(row: CsvRow, means: Reading): Reading {
    Reading(Fill(row.heartRate, means.heartRate), Fill(row.skinConductance, means.skinConductance), Fill(row.eeg, means.eeg))
  }

  /** The timestamp stored for a row: the parsed text, or now when the cell
      is missing, NaN, not a string, blank, or does not parse. */
  function ResolveTimestamp(stamp: Stamp, env: Services): int {
    if stamp.StampText? && Strip(stamp.s) != "" && env.parseTime(stamp.s).Some? then env.parseTime(stamp.s).value
    else env.now
  }

  lemma ResolveTimestampFallback(stamp: Stamp, env: Services)
    ensures ResolveTimestamp(stamp, env) != env.now ==>
      stamp.StampText? && !IsBlank(stamp.s) && env.parseTime(stamp.s) == Some(ResolveTimestamp(stamp, env))
    ensures stamp.StampText? && !IsBlank(stamp.s) && env.parseTime(stamp.s).Some? ==>
      ResolveTimestamp(stamp, env) == env.parseTime(stamp.s).value
  {
    if stamp.StampText? {
      StripBlank(stamp.s);
    }
  }

  /** The document for one row, `None` inside when generate_feedback
      raises; the outer `None` is a skipped out-of-range row. */
  function RowDoc(row: CsvRow, user: string, env: Services): Option<Option<Doc>> {
    var r := FilledReading(row, env.means);
    if RangeErrors(r) != [] then None
    else
      var level := env.predict(r);
      match GenerateFeedback(level, r, env)
      case None => Some(None)
      case Some(f) => Some(Some(Doc(user, row.studentId, r, level, f.text, f.topFeatures, f.severities, ResolveTimestamp(row.timestamp, env))))
  }

  /** What the row loop leaves behind: the documents it inserted, in row
      order, and whether a row raised, which ends the loop with the
      earlier inserts in place. */
  datatype Collected = Collected(inserted: seq<Doc>, raised: bool)

  /** The row loop over `rows`: each in-range row inserts its document,
      until a row raises. */
  function Records(rows: seq<CsvRow>, user: string, env: Services): Collected {
    if rows == [] then Collected([], false)
    else
      var prev := Records(rows[..|rows| - 1], user, env);
      if prev.raised then prev
      else match RowDoc(rows[|rows| - 1], user, env)
        case None => prev
        case Some(None) => prev.(raised := true)
        case Some(Some(d)) => prev.(inserted := prev.inserted + [d])
  }

  /** The number of rows whose filled reading is in range. */
  function InRangeCount(rows: seq<CsvRow>, means: Reading): nat {
    if rows == [] then 0
    else InRangeCount(rows[..|rows| - 1], means) + (if InRange(FilledReading(rows[|rows| - 1], means)) then 1 else 0)
  }

  /** Every inserted document is in range and owned by the caller; the
      loop inserts at most one per in-range row, and exactly one per
      in-range row when no row raises. */
  lemma {:induction false} RecordsKeepInRange(rows: seq<CsvRow>, user: string, env: Services)
    ensures var c := Records(rows, user, env);
      forall k :: 0 <= k < |c.inserted| ==> InRange(c.inserted[k].input) && c.inserted[k].username == user
    ensures var c := Records(rows, user, env);
      |c.inserted| <= InRangeCount(rows, env.means)
      && (!c.raised ==> |c.inserted| == InRangeCount(rows, env.means))
    ensures InRangeCount(rows, env.means) == 0 ==> Records(rows, user, env) == Collected([], false)
  {
    if rows != [] {
      RecordsKeepInRange(rows[..|rows| - 1], user, env);
      RangeErrorsSound(FilledReading(rows[|rows| - 1], env.means));
    }
  }

  const MissingFileMessage := "CSV file is missing"
  const AllSkippedMessage := "All valid rows were skipped due to out-of-range values."

  /** The CSV header check: every expected column and `student_id`. */
  const RequiredColumnsMessage := "CSV must contain columns: ['HeartRate', 'SkinConductance', 'EEG', 'student_id']"

  /** csv_predict. */
  function CsvPredictSpec(header: Option<string>, upload: Upload, env: Services): Outcome {
    var user := Caller(header, env);
    if user.None? then Unauthorized
    else if upload.NoFile? then BadRequest(MissingFileMessage)
    else if !({"HeartRate", "SkinConductance", "EEG", "student_id"} <= upload.columns) then BadRequest(RequiredColumnsMessage)
    else if upload.rows == [] then ServerError([])
    else
      var c := Records(upload.rows, user.value, env);
      if c.raised then ServerError(c.inserted)
      else if c.inserted == [] then BadRequest(AllSkippedMessage)
      else Stored(c.inserted)
  }

  /** csv_predict: the guards, then the model over the whole frame, which
      raises for a file without data rows, then the row loop. */
  method CsvPredict(header: Option<string>, upload: Upload, env: Services) returns (outcome: Outcome)
    ensures outcome == CsvPredictSpec(header, upload, env)
  {
    var user := Caller(header, env);
    if user.None? {
      return Unauthorized;
    }
    if upload.NoFile? {
      return BadRequest(MissingFileMessage);
    }
    if !({"HeartRate", "SkinConductance", "EEG", "student_id"} <= upload.columns) {
      return BadRequest(RequiredColumnsMessage);
    }
    if upload.rows == [] {
      return ServerError([]);
    }
    var records := CollectRecords(upload.rows, user.value, env);
    if records.raised {
      return ServerError(records.inserted);
    }
    if records.inserted == [] {
      return BadRequest(AllSkippedMessage);
    }
    return Stored(records.inserted);
  }

  /** The row loop of csv_predict: out-of-range rows are skipped, every
      other row inserts one document, and a row that raises ends the loop. */
  method CollectRecords(rows: seq<CsvRow>, user: string, env: Services) returns (records: Collected)
    ensures records == Records(rows, user, env)
  {
    var done: seq<Doc> := [];
    var i := 0;
    while i < |rows|
      invariant 0 <= i <= |rows|
      invariant Records(rows[..i], user, env) == Collected(done, false)
    {
      RecordsStep(rows, i, user, env);
      var d := RowRecord(rows[i], user, env);
      match d {
        case None =>
        case Some(None) =>
          RecordsRaisedPersists(rows, i + 1, user, env);
          return Collected(done, true);
        case Some(Some(doc)) =>
          done := done + [doc];
      }
      i := i + 1;
    }
    assert rows[..i] == rows;
    return Collected(done, false);
  }

  /** One pass of the row loop: `None` for a row out of range, which is
      skipped; `Some(None)` when the feedback raises; otherwise the
      document inserted. */
  method RowRecord(row: CsvRow, user: string, env: Services) returns (d: Option<Option<Doc>>)
    ensures d == RowDoc(row, user, env)
  {
    var r := FilledReading(row, env.means);
    var errs := ValidateRanges(r);
    if errs != [] {
      return None;
    }
    var level := env.predict(r);
    var f := GenerateFeedback(level, r, env);
    if f.None? {
      return Some(None);
    }
    var timestamp := ResolveTimestamp(row.timestamp, env);
    return Some(Some(Doc(user, row.studentId, r, level, f.value.text, f.value.topFeatures, f.value.severities, timestamp)));
  }

  /** One more row: the records of the longer prefix extend those of the
      shorter one by that row's document, if any. */
  lemma RecordsStep(rows: seq<CsvRow>, i: nat, user: string, env: Services)
    requires i < |rows|
    ensures Records(rows[..i + 1], user, env) ==
      var prev := Records(rows[..i], user, env);
      if prev.raised then prev
      else match RowDoc(rows[i], user, env)
        case None => prev
        case Some(None) => prev.(raised := true)
        case Some(Some(d)) => prev.(inserted := prev.inserted + [d])
  {
    assert rows[..i + 1][..i] == rows[..i];
  }

  /** Once a prefix raises, the loop ends there: the whole file gives what
      that prefix gave. */
  lemma {:induction false} RecordsRaisedPersists(rows: seq<CsvRow>, n: nat, user: string, env: Services)
    requires n <= |rows| && Records(rows[..n], user, env).raised
    ensures Records(rows, user, env) == Records(rows[..n], user, env)
    decreases |rows| - n
  {
    if n < |rows| {
      assert rows[..n + 1][..n] == rows[..n];
      RecordsRaisedPersists(rows, n + 1, user, env);
    } else {
      assert rows[..n] == rows;
    }
  }

  /** A row whose feedback raises ends the loop with a 500, and the
      documents of the rows before it stay inserted. */
  lemma RaiseKeepsEarlierInserts(rows: seq<CsvRow>, n: nat, user: string, env: Services)
    requires n < |rows| && !Records(rows[..n], user, env).raised && RowDoc(rows[n], user, env) == Some(None)
    ensures Records(rows, user, env) == Collected(Records(rows[..n], user, env).inserted, true)
  {
    RecordsStep(rows, n, user, env);
    RecordsRaisedPersists(rows, n + 1, user, env);
  }

  /** What the CSV route stores: only in-range rows, all of them, owned by
      the caller; on a 500 the documents already inserted are in range and
      the caller's too. A file without data rows gets a 500 from the model,
      and one whose rows are all out of range a 400. */
  lemma CsvPredictStoresOnlyInRange(header: Option<string>, upload: Upload, env: Services)
    ensures var o := CsvPredictSpec(header, upload, env);
      o.Stored? ==>
        (upload.Csv? && Caller(header, env).Some?
        && |o.docs| == InRangeCount(upload.rows, env.means) > 0
        && forall k :: 0 <= k < |o.docs| ==> InRange(o.docs[k].input) && Some(o.docs[k].username) == Caller(header, env))
    ensures var o := CsvPredictSpec(header, upload, env);
      o.ServerError? ==>
        (upload.Csv? && Caller(header, env).Some?
        && |o.inserted| <= InRangeCount(upload.rows, env.means)
        && forall k :: 0 <= k < |o.inserted| ==> InRange(o.inserted[k].input) && Some(o.inserted[k].username) == Caller(header, env))
    ensures var o := CsvPredictSpec(header, upload, env);
      upload.Csv? && Caller(header, env).Some? && {"HeartRate", "SkinConductance", "EEG", "student_id"} <= upload.columns ==>
      (upload.rows == [] ==> o == ServerError([]))
      && (upload.rows != [] && InRangeCount(upload.rows, env.means) == 0 ==> o == BadRequest(AllSkippedMessage))
  {
    if upload.Csv? && Caller(header, env).Some? {
      RecordsKeepInRange(upload.rows, Caller(header, env).value, env);
    }
  }

  // ----- delete_history_item -----

  /** A hexadecimal digit. */
  predicate IsHexDigit(c: char) {
    '0' <= c <= '9' || 'a' <= c <= 'f' || 'A' <= c <= 'F'
  }

  /** `ObjectId(history_id)` accepts exactly 24 hexadecimal digits and
      raises otherwise; upper- and lower-case digits name the same id. */
  function ObjectId(s: string): (id: Option<string>)
    ensures id.Some? <==> |s| == 24 && forall k :: 0 <= k < |s| ==> IsHexDigit(s[k])
    ensures id.Some? ==> |id.value| == 24
  {
    if |s| == 24 && forall k :: 0 <= k < |s| ==> IsHexDigit(s[k]) then Some(Lower(s)) else None
  }

  datatype DeleteReply = DeleteUnauthorized | InvalidId | Deleted | NotFound
  {
    function Status(): int {
      match this
      case DeleteUnauthorized => 401
      case InvalidId => 500
      case Deleted => 200
      case NotFound => 404
    }
  }

  /** delete_history_item over the stored predictions, keyed by id:
      `delete_one` matches both the id and the caller's username. */
  function DeleteHistoryItem(docs: map<string, Doc>, header: Option<string>, historyId: string, env: Services): (r: (DeleteReply, map<string, Doc>))
  {
    var user := Caller(header, env);
    if user.None? then (DeleteUnauthorized, docs)
    else match ObjectId(historyId)
      case None => (InvalidId, docs)
      case Some(id) =>
        if id in docs && docs[id].username == user.value then (Deleted, docs - {id})
        else (NotFound, docs)
  }

  /** Only the caller's own document goes, and only that one; every other
      reply leaves the store as it was. */
  lemma DeleteOnlyOwn(docs: map<string, Doc>, header: Option<string>, historyId: string, env: Services)
    ensures var (reply, after) := DeleteHistoryItem(docs, header, historyId, env);
      (reply == Deleted <==>
        (Caller(header, env).Some? && ObjectId(historyId).Some?
        && ObjectId(historyId).value in docs && Some(docs[ObjectId(historyId).value].username) == Caller(header, env)))
      && (reply == Deleted ==>
        (after.Keys == docs.Keys - {ObjectId(historyId).value}
        && forall k :: k in after ==> after[k] == docs[k]))
      && (reply != Deleted ==> after == docs)
  {
  }
}
