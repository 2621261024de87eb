/** The payload built for each dataset row by backend/simulate_stream.py
    before it is posted: every expected column is filled, numeric columns
    that are NaN or 0 take a default, and categorical columns outside
    their valid values take a default. */
module StreamPayload {
  import opened Wrappers

  /** A cell of the dataset as pandas holds it. */
  datatype Cell = NaN | Num(x: real) | Str(s: string)

  const ExpectedColumns: seq<string> := [
    "HeartRate", "SkinConductance", "EEG", "Temperature", "PupilDiameter",
    "SmileIntensity", "FrownIntensity", "CortisolLevel", "ActivityLevel",
    "AmbientNoiseLevel", "LightingLevel", "EmotionalState", "CognitiveState"]

  const ValidEmotionalStates: seq<string> := ["engaged", "partially engaged", "disengaged"]
  const ValidCognitiveStates: seq<string> := ["distracted", "focused"]

  const DefaultNumeric: map<string, real> := map[
    "HeartRate" := 60.0, "SkinConductance" := 5.0, "EEG" := 10.0,
    "Temperature" := 36.5, "PupilDiameter" := 3.0, "SmileIntensity" := 0.5,
    "FrownIntensity" := 0.5, "CortisolLevel" := 0.5, "ActivityLevel" := 50.0,
    "AmbientNoiseLevel" := 400.0, "LightingLevel" := 400.0]

  const DefaultEmotional := "engaged"
  const DefaultCognitive := "focused"

  /** `val in valid`: only a string can equal one of the valid names. */
  predicate IsOneOf(v: Cell, valid: seq<string>) {
    v.Str? && v.s in valid
  }

  /** The payload value of an expected column the dataset has, with `v`
      the row's value: the numeric replacement first, then the
      categorical check. */
  function Normalise(col: string, v: Cell): Cell {
    var w := if col in DefaultNumeric && (v.NaN? || v == Num(0.0)) then Num(DefaultNumeric[col]) else v;
    if col == "EmotionalState" then (if IsOneOf(w, ValidEmotionalStates) then w else Str(DefaultEmotional))
    else if col == "CognitiveState" then (if IsOneOf(w, ValidCognitiveStates) then w else Str(DefaultCognitive))
    else w
  }

  /** The payload value of an expected column the dataset lacks; `None`
      for a column with no default, where nothing is assigned. */
  function MissingDefault(col: string): Option<Cell> {
    if col in DefaultNumeric then Some(Num(DefaultNumeric[col]))
    else if col == "EmotionalState" then Some(Str(DefaultEmotional))
    else if col == "CognitiveState" then Some(Str(DefaultCognitive))
    else None
  }

  /** The payload value of column `col` for `row`, whether or not the
      dataset has that column. */
  function ColumnValue(col: string, row: map<string, Cell>): Option<Cell> {
    if col in row then Some(Normalise(col, row[col])) else MissingDefault(col)
  }

  /** The inner loop over `expected_columns` for one row; the row maps the
      dataset's columns to this row's values. Every expected column ends up
      in the payload, and nothing else does. */
  method BuildPayload(row: map<string, Cell>) returns (payload: map<string, Cell>)
    ensures forall c :: c in payload <==> c in ExpectedColumns
    ensures forall c :: c in ExpectedColumns && c in row ==> payload[c] == Normalise(c, row[c])
    ensures forall c :: c in ExpectedColumns && c !in row ==> Some(payload[c]) == MissingDefault(c)
  {
    forall c | c in ExpectedColumns
      ensures MissingDefault(c).Some?
    {
      EveryColumnHasDefault(c);
    }
    payload := FillColumns(ExpectedColumns, row);
  }

  /** The loop itself, over any list of columns that all have a default:
      the payload has exactly those columns, each with its value for the
      row. */
  method FillColumns(cols: seq<string>, row: map<string, Cell>) returns (payload: map<string, Cell>)
    requires forall c :: c in cols ==> MissingDefault(c).Some?
    ensures forall c :: c in payload <==> c in cols
    ensures forall c :: c in payload ==> Some(payload[c]) == ColumnValue(c, row)
  {
    payload := map[];
    for k := 0 to |cols|
      invariant payload.Keys == set i | 0 <= i < k :: cols[i]
      invariant forall c :: c in payload ==> Some(payload[c]) == ColumnValue(c, row)
    {
      var col := cols[k];
      var val := FillColumn(col, row);
      payload := payload[col := val];
    }
  }

  /** The body of the loop for one expected column: the row's value
      normalised, or the column's default when the dataset lacks it. */
  method FillColumn(col: string, row: map<string, Cell>) returns (val: Cell)
    requires MissingDefault(col).Some?
    ensures Some(val) == ColumnValue(col, row)
  {
    if col in row {
      val := row[col];
      if col in DefaultNumeric {
        if val.NaN? || val == Num(0.0) {
          val := Num(DefaultNumeric[col]);
        }
      }
      if col == "EmotionalState" {
        if !IsOneOf(val, ValidEmotionalStates) {
          val := Str(DefaultEmotional);
        }
      } else if col == "CognitiveState" {
        if !IsOneOf(val, ValidCognitiveStates) {
          val := Str(DefaultCognitive);
        }
      }
    } else {
      if col in DefaultNumeric {
        val := Num(DefaultNumeric[col]);
      } else if col == "EmotionalState" {
        val := Str(DefaultEmotional);
      } else {
        val := Str(DefaultCognitive);
      }
    }
  }

  /** Each expected column is numeric or one of the two categoricals, so
      a column the dataset lacks always gets a default. */
  lemma EveryColumnHasDefault(col: string)
    requires col in ExpectedColumns
    ensures MissingDefault(col).Some?
    ensures col in DefaultNumeric <==> col != "EmotionalState" && col != "CognitiveState"
  {
  }

  /** A numeric column's value is replaced by its default exactly when it
      is NaN or 0, and passes through otherwise. */
  lemma NumericReplacement(col: string, v: Cell)
    requires col in DefaultNumeric
    ensures (v.NaN? || v == Num(0.0)) ==> Normalise(col, v) == Num(DefaultNumeric[col])
    ensures !(v.NaN? || v == Num(0.0)) ==> Normalise(col, v) == v
  {
  }

  /** No numeric default is NaN or 0, so a numeric column of the payload
      is never NaN or 0, whether or not the dataset has it. */
  lemma NumericNeverMissing(col: string, v: Cell)
    requires col in DefaultNumeric
    ensures Normalise(col, v) != NaN && Normalise(col, v) != Num(0.0)
    ensures MissingDefault(col) == Some(Num(DefaultNumeric[col])) && DefaultNumeric[col] > 0.0
  {
  }

  /** The two categorical columns of the payload always hold a valid
      state: the row's own when it is valid, the default otherwise. */
  lemma CategoricalAlwaysValid(v: Cell)
    ensures IsOneOf(Normalise("EmotionalState", v), ValidEmotionalStates)
    ensures IsOneOf(Normalise("CognitiveState", v), ValidCognitiveStates)
    ensures IsOneOf(v, ValidEmotionalStates) ==> Normalise("EmotionalState", v) == v
    ensures !IsOneOf(v, ValidEmotionalStates) ==> Normalise("EmotionalState", v) == Str("engaged")
    ensures IsOneOf(v, ValidCognitiveStates) ==> Normalise("CognitiveState", v) == v
    ensures !IsOneOf(v, ValidCognitiveStates) ==> Normalise("CognitiveState", v) == Str("focused")
  {
    assert "EmotionalState" !in DefaultNumeric;
    assert "CognitiveState" !in DefaultNumeric;
  }
}
