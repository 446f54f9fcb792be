/**
 * The final analysis endpoint of backend/app/api/final_analysis.py: the
 * prompt input built from the validated form, the derived flexion and
 * extension answers, the append-only result log, and the mapping of raised
 * errors to HTTP responses. The language model is a parameter that either
 * returns a result or raises.
 */
module FinalAnalysisApi {
  import opened Wrappers
  import opened Json
  import opened Http
  import opened Text
  import opened FinalAnalysisModels

  // ---------------------------------------------------------------------------
  // Prompt input
  // ---------------------------------------------------------------------------

  /** `input_data.get(key, "")`. */
  function GetOrEmpty(input: map<string, string>, key: string): string {
    if key in input then input[key] else ""
  }

  /** The `painInFlexion` and `painInExtension` answers derived from `positionChangePain`. */
  function DerivePositionPain(positionChangePain: string): (string, string) {
    if positionChangePain == "flexion" then ("yes", "no")
    else if positionChangePain == "extension" then ("no", "yes")
    else ("no", "no")
  }

  /** Flexion pain is "yes" exactly for "flexion", extension pain exactly for "extension"; never both. */
  lemma DerivePositionPainFacts(p: string)
    ensures var (flexion, extension) := DerivePositionPain(p);
      && flexion in {"yes", "no"} && extension in {"yes", "no"}
      && (flexion == "yes" <==> p == "flexion")
      && (extension == "yes" <==> p == "extension")
      && !(flexion == "yes" && extension == "yes")
  {
  }

  const PromptKeys: set<string> :=
    {"positionChangePain", "activityLevel", "legPain", "painTime", "accidents", "bowelBladder", "fever"}

  /** `formatted_input`: the seven form fields (each defaulting to "") plus the two derived keys. */
  function FormatInput(input: map<string, string>): map<string, string> {
    var (flexion, extension) := DerivePositionPain(GetOrEmpty(input, "positionChangePain"));
    (map k | k in PromptKeys :: GetOrEmpty(input, k))["painInFlexion" := flexion]["painInExtension" := extension]
  }

  /** The prompt input holds exactly nine keys: the form's seven, copied or "", and the two derived ones. */
  lemma FormatInputFacts(input: map<string, string>)
    ensures var r := FormatInput(input);
      var (flexion, extension) := DerivePositionPain(GetOrEmpty(input, "positionChangePain"));
      && r.Keys == PromptKeys + {"painInFlexion", "painInExtension"}
      && (forall k | k in PromptKeys :: r[k] == (if k in input then input[k] else ""))
      && r["painInFlexion"] == flexion && r["painInExtension"] == extension
  {
  }

  /** `data.dict()`: the validated form with its enumeration members as their string values. */
  function InputData(d: FinalAnalysisFormData): map<string, string> {
    map[
      "positionChangePain" := PositionChangePainValue(d.positionChangePain),
      "activityLevel" := ActivityLevelValue(d.activityLevel),
      "legPain" := d.legPain,
      "painTime" := PainTimeValue(d.painTime),
      "accidents" := d.accidents,
      "bowelBladder" := d.bowelBladder,
      "fever" := d.fever
    ]
  }

  /** For a validated form the derived answers follow the enumeration member chosen. */
  lemma DerivedFromValidatedForm(d: FinalAnalysisFormData)
    ensures var r := FormatInput(InputData(d));
      && (r["painInFlexion"] == "yes" <==> d.positionChangePain == Flexion)
      && (r["painInExtension"] == "yes" <==> d.positionChangePain == Extension)
      && r["activityLevel"] == ActivityLevelValue(d.activityLevel)
      && r["legPain"] == d.legPain && r["fever"] == d.fever
  {
    DerivePositionPainFacts(PositionChangePainValue(d.positionChangePain));
  }

  // ---------------------------------------------------------------------------
  // Result log and errors
  // ---------------------------------------------------------------------------

  /** One line of `final_analysis_responses.jsonl`. */
  datatype StoredRecord = StoredRecord(
    timestamp: string,
    sessionId: string,
    formData: map<string, string>,
    analysisResult: AnalysisResult,
    source: string)

  /**
   * `store_analysis_result`: the record is appended when the write succeeds;
   * a failed write is only logged. It never raises: its result is always a log.
   */
  function StoreAnalysisResult(log: seq<StoredRecord>, formData: map<string, string>, result: AnalysisResult,
                               sessionId: string, timestamp: string, writeSucceeds: bool): (r: seq<StoredRecord>)
    ensures writeSucceeds ==> r == log + [StoredRecord(timestamp, sessionId, formData, result, "user_generated")]
    ensures !writeSucceeds ==> r == log
  {
    if writeSucceeds then log + [StoredRecord(timestamp, sessionId, formData, result, "user_generated")] else log
  }

  /** The prefixes of the two 500 details: the handler's own, and the one raised around a failed LLM call. */
  const FormErrorPrefix := "Error analyzing final form: "
  const LlmErrorPrefix := "Error in LLM service: "

  /** What an exception raised inside the handler's `try` is. */
  datatype RaisedError = ValidationError(message: string, errors: seq<Json>) | OtherError(text: string)

  /** The two `except` clauses: a validation error is a 400 with a structured detail, anything else a 500. */
  function ErrorResponse(e: RaisedError): (r: HttpException)
    ensures r.statusCode == 400 <==> e.ValidationError?
    ensures r.statusCode == 500 <==> e.OtherError?
    ensures e.ValidationError? ==> r.detail == JObj(map[
      "error" := JStr("Validation Error"), "message" := JStr(e.message), "errors" := JArr(e.errors)])
    ensures e.OtherError? ==> r.detail == JStr(FormErrorPrefix + e.text)
  {
    match e
    case ValidationError(message, errors) =>
      HttpException(400, JObj(map["error" := JStr("Validation Error"), "message" := JStr(message),
                                  "errors" := JArr(errors)]))
    case OtherError(text) => HttpException(500, JStr(FormErrorPrefix + text))
  }

  /** `str(HTTPException(status, detail))` for a string detail: "status: detail". */
  function HttpExceptionText(status: nat, detail: string): string {
    DecimalString(status) + ": " + detail
  }

  /** The language model call: a parsed result, or the message of whatever it raised. */
  datatype LlmOutcome = LlmSucceeded(result: AnalysisResult) | LlmRaised(message: string)

  /**
   * `analyze_final_form` on a validated form: the response and the result log
   * afterwards. The session id (a per-process `hash`) and the timestamp are
   * parameters, as is whether the log write succeeds.
   */
  function AnalyzeFinalForm(data: FinalAnalysisFormData, llm: LlmOutcome, log: seq<StoredRecord>,
                            sessionId: string, timestamp: string, writeSucceeds: bool)
    : (Result<AnalysisResult, HttpException>, seq<StoredRecord>)
  {
    var inputData := InputData(data);
    var _ := FormatInput(inputData);
    match llm
    case LlmRaised(message) =>
      // The inner handler's HTTPException(500) is caught again by `except Exception`.
      var inner := HttpExceptionText(500, LlmErrorPrefix + message);
      (Err(ErrorResponse(OtherError(inner))), log)
    case LlmSucceeded(result) =>
      (Ok(result), StoreAnalysisResult(log, inputData, result, sessionId, timestamp, writeSucceeds))
  }

  /**
   * The endpoint returns the model's result whatever happens to the log
   * write; the log gains exactly that one record or is left as it was; a
   * model failure reaches the client as a 500 that wraps the inner 500, and
   * the 400 branch is never reached from inside the handler.
   */
  lemma AnalyzeFinalFormFacts(data: FinalAnalysisFormData, llm: LlmOutcome, log: seq<StoredRecord>,
                              sessionId: string, timestamp: string, writeSucceeds: bool)
    ensures var (r, log') := AnalyzeFinalForm(data, llm, log, sessionId, timestamp, writeSucceeds);
      && (llm.LlmSucceeded? ==> r == Ok(llm.result))
      && (llm.LlmSucceeded? && writeSucceeds ==>
            log' == log + [StoredRecord(timestamp, sessionId, InputData(data), llm.result, "user_generated")])
      && (llm.LlmRaised? || !writeSucceeds ==> log' == log)
      && (llm.LlmRaised? ==> r == Err(HttpException(500,
            JStr(FormErrorPrefix + "500: " + LlmErrorPrefix + llm.message))))
      && (r.Err? ==> r.error.statusCode == 500)
  {
    if llm.LlmRaised? {
      LlmFailureDetail(llm.message);
    }
  }

  /** The text the client sees when the model raises: the inner 500 is nested, status first, in the outer detail. */
  lemma LlmFailureDetail(message: string)
    ensures FormErrorPrefix + HttpExceptionText(500, LlmErrorPrefix + message)
         == FormErrorPrefix + "500: " + LlmErrorPrefix + message
  {
    StatusCode500();
    assert DecimalString(500) + ": " == "500: ";
    var outer, inner := FormErrorPrefix, LlmErrorPrefix;
    assert outer + ("500: " + (inner + message)) == outer + "500: " + inner + message;
  }

  lemma StatusCode500()
    ensures DecimalString(500) == "500"
  {
    assert DecimalString(5) == "5";
    assert DecimalString(50) == "50";
  }
}
