/** The submit handlers and result cells of
    frontend/src/components/Dashboard.jsx. Each handler first resets its
    part of the page, then applies the outcome of its request, which is a
    parameter; `mapEngagementLabel` is Labels.LabelOf. */
module Dashboard {
  import opened Wrappers
  import opened Values
  import Labels

  /** A JSON object of a response as the client reads it: a missing key
      reads as `undefined`. */
  type JsObject = map<string, JsValue>

  function Member(o: JsObject, key: string): JsValue {
    if key in o then o[key] else JsUndefined
  }

  const CsvMissingMessage := "Please select a CSV file"

  class DashboardPage {
    var manualResult: JsValue
    var manualFeedback: JsValue
    /** Whether a file is selected: `csvFile` is `null` or a `File`. */
    var csvFileSelected: bool
    var csvResults: seq<JsObject>
    var csvError: JsValue

    constructor()
      ensures manualResult == JsNull && manualFeedback == JsStr("")
      ensures !csvFileSelected && csvResults == [] && csvError == JsStr("")
    {
      manualResult := JsNull;
      manualFeedback := JsStr("");
      csvFileSelected := false;
      csvResults := [];
      csvError := JsStr("");
    }

    /** handleManualSubmit: the result and feedback are cleared before the
        request, so a failure leaves them cleared and raises an alert with
        the server's message or "Prediction failed"; a success shows the
        predicted level and the feedback, "" when it is missing. */
    method HandleManualSubmit(outcome: Response<JsObject>) returns (alert: Option<JsValue>)
      modifies this
      ensures outcome.Succeeded? ==>
        manualResult == Member(outcome.data, "EngagementLevel")
        && manualFeedback == Or(Member(outcome.data, "Feedback"), JsStr(""))
        && alert == None
      ensures outcome.Failed? ==>
        manualResult == JsNull && manualFeedback == JsStr("")
        && alert == Some(Or(outcome.error, JsStr("Prediction failed")))
      ensures csvFileSelected == old(csvFileSelected) && csvResults == old(csvResults) && csvError == old(csvError)
    {
      manualResult := JsNull;
      manualFeedback := JsStr("");
      match outcome
      case Succeeded(data) =>
        manualResult := Member(data, "EngagementLevel");
        manualFeedback := Or(Member(data, "Feedback"), JsStr(""));
        alert := None;
      case Failed(e) =>
        alert := Some(Or(e, JsStr("Prediction failed")));
    }

    /** The file input's `onChange`: `csvFile` becomes the first chosen
        file, or `undefined` when the choice was cancelled and no file is
        listed. */
    method SelectFile(filesChosen: nat)
      modifies this
      ensures csvFileSelected <==> filesChosen > 0
      ensures manualResult == old(manualResult) && manualFeedback == old(manualFeedback)
      ensures csvResults == old(csvResults) && csvError == old(csvError)
    {
      csvFileSelected := filesChosen > 0;
    }

    /** handleCsvSubmit: results and error are cleared first; without a
        file the error asks for one and no request is made; otherwise the
        results are the response rows or the error is the server's message
        or "CSV Prediction failed". */
    method HandleCsvSubmit(outcome: Response<seq<JsObject>>) returns (requested: bool)
      modifies this
      ensures requested == csvFileSelected
      ensures !requested ==> csvResults == [] && csvError == JsStr(CsvMissingMessage)
      ensures requested && outcome.Succeeded? ==> csvResults == outcome.data && csvError == JsStr("")
      ensures requested && outcome.Failed? ==>
        csvResults == [] && csvError == Or(outcome.error, JsStr("CSV Prediction failed"))
      ensures csvFileSelected == old(csvFileSelected)
      ensures manualResult == old(manualResult) && manualFeedback == old(manualFeedback)
    {
      csvResults := [];
      csvError := JsStr("");
      if !csvFileSelected {
        csvError := JsStr(CsvMissingMessage);
        return false;
      }
      requested := true;
      match outcome
      case Succeeded(rows) =>
        csvResults := rows;
      case Failed(e) =>
        csvError := Or(e, JsStr("CSV Prediction failed"));
    }
  }

  /** The student id cell of a result row: `student_id`, else `studentId`,
      else "N/A", each taken only when truthy. */
  function StudentIdCell(row: JsObject): (r: JsValue)
    ensures Truthy(Member(row, "student_id")) ==> r == row["student_id"]
    ensures !Truthy(Member(row, "student_id")) && Truthy(Member(row, "studentId")) ==> r == row["studentId"]
    ensures !Truthy(Member(row, "student_id")) && !Truthy(Member(row, "studentId")) ==> r == JsStr("N/A")
    ensures Truthy(r)
  {
    Or(Or(Member(row, "student_id"), Member(row, "studentId")), JsStr("N/A"))
  }

  /** The feedback cell: the row's feedback when truthy, else "". */
  function FeedbackCell(row: JsObject): (r: JsValue)
    ensures Truthy(Member(row, "Feedback")) ==> r == row["Feedback"]
    ensures !Truthy(Member(row, "Feedback")) ==> r == JsStr("")
  {
    Or(Member(row, "Feedback"), JsStr(""))
  }

  /** The level cell: the label of the predicted level. */
  function LevelCell(row: JsObject): (r: string)
    ensures r != "Unknown" <==>
      ("PredictedEngagementLevel" in row && row["PredictedEngagementLevel"] in {JsNum(0.0), JsNum(1.0), JsNum(2.0)})
  {
    Labels.LabelOf(Member(row, "PredictedEngagementLevel"))
  }

  /** A row whose `student_id` is empty, null or missing falls back to its
      `studentId`, and a row with neither shows "N/A"; an id of 0 is
      falsy and is replaced too. */
  lemma StudentIdFallbacks(id: string)
    ensures StudentIdCell(map["student_id" := JsStr(""), "studentId" := JsStr(id)])
      == (if id == "" then JsStr("N/A") else JsStr(id))
    ensures StudentIdCell(map["student_id" := JsNum(0.0)]) == JsStr("N/A")
    ensures StudentIdCell(map[]) == JsStr("N/A")
  {
  }
}
