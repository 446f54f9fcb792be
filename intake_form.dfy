/**
 * The rules of the patient intake form (frontend/app/intake-form/page.js):
 * which of questions 15-21 are shown, how the submitted values are
 * normalised, and when a submission counts as accepted.
 */
module IntakeForm {
  import opened Wrappers
  import opened Json
  import opened Text

  // ---------------------------------------------------------------------------
  // Visibility of questions 15-21
  // ---------------------------------------------------------------------------

  /** `painLocation?.includes(x)`: an `undefined` selection contains nothing. */
  predicate Selected(painLocation: Option<seq<string>>, location: string) {
    painLocation.Some? && location in painLocation.value
  }

  /** The block holding questions 15-21 is rendered unless "other" is selected. */
  predicate DetailSectionShown(painLocation: Option<seq<string>>) {
    !Selected(painLocation, "other")
  }

  /** Whether question `q` (15 to 21) is on screen for the selected pain locations. */
  predicate QuestionShown(q: int, painLocation: Option<seq<string>>)
    requires 15 <= q <= 21
  {
    DetailSectionShown(painLocation)
    && (q <= 17
        || (q <= 20 && (Selected(painLocation, "lower_back") || Selected(painLocation, "neck")))
        || (q == 21 && Selected(painLocation, "lower_back")))
  }

  /** The set of detailed questions on screen. */
  function ShownQuestions(painLocation: Option<seq<string>>): (r: set<int>)
    ensures forall q :: q in r <==> 15 <= q <= 21 && QuestionShown(q, painLocation)
  {
    set q | 15 <= q <= 21 && QuestionShown(q, painLocation)
  }

  /** Each question's visibility condition stated from the selection alone. */
  lemma VisibilityRules(painLocation: Option<seq<string>>)
    ensures Selected(painLocation, "other") ==> ShownQuestions(painLocation) == {}
    ensures forall q | 15 <= q <= 17 :: QuestionShown(q, painLocation) <==> !Selected(painLocation, "other")
    ensures forall q | 18 <= q <= 20 :: QuestionShown(q, painLocation) <==>
      !Selected(painLocation, "other")
      && (Selected(painLocation, "lower_back") || Selected(painLocation, "neck"))
    ensures QuestionShown(21, painLocation) <==>
      !Selected(painLocation, "other") && Selected(painLocation, "lower_back")
    ensures QuestionShown(21, painLocation) ==>
      forall q | 15 <= q <= 20 :: QuestionShown(q, painLocation)
  {
  }

  /** The three selections the form's behaviour is usually described by. */
  lemma VisibilityExamples()
    ensures ShownQuestions(Some(["other"])) == {}
    ensures ShownQuestions(Some(["lower_back"])) == {15, 16, 17, 18, 19, 20, 21}
    ensures ShownQuestions(Some(["neck"])) == {15, 16, 17, 18, 19, 20}
    ensures ShownQuestions(Some(["knee"])) == {15, 16, 17}
    ensures ShownQuestions(Some([])) == {15, 16, 17}
    ensures ShownQuestions(Some(["lower_back", "other"])) == {}
  {
    var lb := Some(["lower_back"]);
    assert Selected(lb, "lower_back");
    var n := Some(["neck"]);
    assert Selected(n, "neck");
    assert !Selected(n, "lower_back");
    var k := Some(["knee"]);
    assert !Selected(k, "lower_back") && !Selected(k, "neck") && !Selected(k, "other");
    var both := Some(["lower_back", "other"]);
    assert Selected(both, "other");
  }

  // ---------------------------------------------------------------------------
  // Field values and JavaScript's parseInt
  // ---------------------------------------------------------------------------

  /**
   * A react-hook-form value: text from inputs and selects, a list from a
   * checkbox group, or, after normalisation, a number (`NaN` included).
   */
  datatype FieldValue = Text(s: string) | Choices(items: seq<string>) | Number(n: int) | NaN

  type FormValues = map<string, FieldValue>

  predicate FieldTruthy(v: FieldValue) {
    match v
    case Text(s) => s != ""
    case Choices(_) => true
    case Number(n) => n != 0
    case NaN => false
  }

  /** `data[key]` is truthy; a missing key reads `undefined`, which is falsy. */
  predicate KeyTruthy(data: FormValues, key: string) {
    key in data && FieldTruthy(data[key])
  }

  /** Decimal value of a string of digits, most significant first. */
  function DigitsValue(ds: string): nat
    requires AllDigits(ds)
  {
    if ds == [] then 0 else DigitsValue(ds[..|ds| - 1]) * 10 + DigitValue(ds[|ds| - 1])
  }

  /** The longest prefix of digits. */
  function DigitPrefix(s: string): (r: string)
    ensures AllDigits(r) && |r| <= |s| && r == s[..|r|]
  {
    if s != [] && IsDigit(s[0]) then [s[0]] + DigitPrefix(s[1..]) else []
  }

  /** Leading white space and line terminators removed, as `parseInt` does before reading. */
  function SkipLeadingWhitespace(s: string): string {
    if s != [] && IsJsWhitespace(s[0]) then SkipLeadingWhitespace(s[1..]) else s
  }

  /** `parseInt(s, 10)`: optional sign, then the longest run of digits; no digits gives `NaN`. */
  function ParseInt(s: string): FieldValue {
    var t := SkipLeadingWhitespace(s);
    var negative := t != [] && t[0] == '-';
    var unsigned := if t != [] && (t[0] == '-' || t[0] == '+') then t[1..] else t;
    var digits := DigitPrefix(unsigned);
    if digits == [] then NaN
    else if negative then Number(-(DigitsValue(digits) as int))
    else Number(DigitsValue(digits))
  }

  /** `String(v)` for the values a form field holds (an array joins its items with commas). */
  function FieldToString(v: FieldValue): string
    requires !v.Number? && !v.NaN?
  {
    match v
    case Text(s) => s
    case Choices(items) => Join(items, ",")
  }

  lemma {:induction false} DigitPrefixOfDigits(s: string)
    requires AllDigits(s)
    ensures DigitPrefix(s) == s
    decreases |s|
  {
    if s != [] {
      DigitPrefixOfDigits(s[1..]);
    }
  }

  /** Printing a natural number and reading it back with `parseInt(…, 10)` gives the number. */
  lemma {:induction false} ParseIntOfDecimalString(n: nat)
    ensures ParseInt(DecimalString(n)) == Number(n)
  {
    var s := DecimalString(n);
    DigitPrefixOfDigits(s);
    assert SkipLeadingWhitespace(s) == s;
    DecimalValue(n);
  }

  lemma {:induction false} DecimalValue(n: nat)
    ensures DigitsValue(DecimalString(n)) == n
  {
    var s := DecimalString(n);
    if n >= 10 {
      DecimalValue(n / 10);
      assert s[..|s| - 1] == DecimalString(n / 10);
    }
  }

  // ---------------------------------------------------------------------------
  // Normalisation in onSubmit
  // ---------------------------------------------------------------------------

  /** The enumerated fields whose empty value is replaced, with their replacement. */
  const EnumDefaults: map<string, string> := map[
    "pain_frequency" := "constant",
    "pain_duration" := "less_than_1_week",
    "pain_onset" := "gradually",
    "pain_progression" := "same",
    "detail_pain_activity" := "medium",
    "detail_pain_timing" := "both",
    "detail_pain_accident" := "no",
    "detail_pain_position" := "no",
    "detail_pain_lowerbody" := "no",
    "detail_pain_fever" := "no",
    "detail_pain_serious" := "no"
  ]

  /** `parseInt(data.pain_severity || "0", 10)`. */
  function ParseSeverity(data: FormValues): FieldValue {
    if !KeyTruthy(data, "pain_severity") then ParseInt("0")
    else match data["pain_severity"]
      case Number(n) => Number(n)
      case NaN => ParseInt("0")
      case Text(s) => ParseInt(s)
      case Choices(items) => ParseInt(Join(items, ","))
  }

  /**
   * The `formData` object built in `onSubmit`: the spread of `data`, then
   * `pain_severity` parsed and each enumerated field as `data[key] || default`.
   */
  function Normalise(data: FormValues): FormValues {
    map k | k in data.Keys + EnumDefaults.Keys + {"pain_severity"} ::
      if k == "pain_severity" then ParseSeverity(data)
      else if k in EnumDefaults then (if KeyTruthy(data, k) then data[k] else Text(EnumDefaults[k]))
      else data[k]
  }

  /**
   * Every enumerated field keeps a non-empty value and is otherwise given its
   * default; `pain_severity` becomes the parsed number.
   */
  lemma NormaliseFacts(data: FormValues)
    ensures var r := Normalise(data);
      && (forall k | k in EnumDefaults :: k in r &&
            r[k] == if KeyTruthy(data, k) then data[k] else Text(EnumDefaults[k]))
      && "pain_severity" in r && r["pain_severity"] == ParseSeverity(data)
  {
    assert "pain_severity" !in EnumDefaults;
  }

  /** Every other field of the submitted data passes through unchanged, and no other key appears. */
  lemma NormaliseKeepsOtherFields(data: FormValues)
    ensures var r := Normalise(data);
      forall k | k != "pain_severity" && k !in EnumDefaults :: (k in r <==> k in data) && (k in data ==> r[k] == data[k])
  {
  }

  /** The submitted defaults are never empty, so a normalised enumerated field is never empty. */
  lemma NormalisedEnumsAreFilled(data: FormValues)
    ensures forall k | k in EnumDefaults :: FieldTruthy(Normalise(data)[k])
  {
  }

  /**
   * A severity chosen from the 0..10 select (or left empty, or never set)
   * reaches the server as an integer between 0 and 10.
   */
  lemma SeverityFromSelectIsInRange(data: FormValues, choice: nat)
    requires choice <= 10
    requires "pain_severity" !in data || data["pain_severity"] in {Text(""), Text(DecimalString(choice))}
    ensures ParseSeverity(data).Number? && 0 <= ParseSeverity(data).n <= 10
    ensures "pain_severity" in data && data["pain_severity"] == Text(DecimalString(choice)) ==>
      ParseSeverity(data) == Number(choice)
  {
    assert ParseInt("0") == Number(0) by {
      assert DecimalString(0) == "0";
      ParseIntOfDecimalString(0);
    }
    ParseIntOfDecimalString(choice);
  }

  // ---------------------------------------------------------------------------
  // Submission
  // ---------------------------------------------------------------------------

  /** The two fields registered with `required: true`; react-hook-form blocks submission on an empty one. */
  const RequiredFields: seq<string> := ["primary_complaint", "pain_movement"]

  predicate RequiredFilled(data: FormValues) {
    forall i | 0 <= i < |RequiredFields| ::
      RequiredFields[i] in data && data[RequiredFields[i]] != Text("")
  }

  /** What the `fetch` to the intake analysis endpoint gave: a thrown error, or a response with an `ok` flag and a JSON body (`None` when the body is not JSON). */
  datatype FetchOutcome = NetworkError | Response(ok: bool, body: Option<Json>)

  /** A submission is accepted when the response is OK, parses, and carries a truthy `session_id`. */
  predicate SubmissionAccepted(outcome: FetchOutcome) {
    outcome.Response? && outcome.ok && outcome.body.Some?
    && JsTruthyOpt(Property(outcome.body.value, "session_id"))
  }

  const FailureAlert := "Unable to analyze the intake data. Please try again later."

  /** The page's state: `loading`, the two atoms it writes, the current route and the alerts shown. */
  class IntakeFormPage {
    var loading: bool
    var intakeData: FormValues
    var analysisResult: Json
    var route: string
    var alerts: seq<string>

    constructor (initialIntake: FormValues, initialResult: Json)
      ensures !loading && intakeData == initialIntake && analysisResult == initialResult
      ensures route == "/intake-form" && alerts == []
    {
      loading := false;
      intakeData := initialIntake;
      analysisResult := initialResult;
      route := "/intake-form";
      alerts := [];
    }

    /**
     * `onSubmit`: posts the normalised data; only an accepted response
     * stores the data and the result and navigates on. Every failure shows
     * one alert and changes nothing else. `loading` is false afterwards.
     */
    method OnSubmit(data: FormValues, outcome: FetchOutcome) returns (posted: FormValues)
      modifies this
      ensures posted == Normalise(data)
      ensures !loading
      ensures SubmissionAccepted(outcome) ==>
        intakeData == Normalise(data) && analysisResult == outcome.body.value
        && route == "/intake-analysis-result" && alerts == old(alerts)
      ensures !SubmissionAccepted(outcome) ==>
        intakeData == old(intakeData) && analysisResult == old(analysisResult)
        && route == old(route) && alerts == old(alerts) + [FailureAlert]
    {
      loading := true;
      var formData := Normalise(data);
      posted := formData;
      if !SubmissionAccepted(outcome) {
        alerts := alerts + [FailureAlert];
      } else {
        var result := outcome.body.value;
        intakeData := formData;
        analysisResult := result;
        route := "/intake-analysis-result";
      }
      loading := false;
    }

    /**
     * `handleSubmit(onSubmit)`: the required fields are checked first; an
     * empty one blocks the submission before any request is made.
     */
    method Submit(data: FormValues, outcome: FetchOutcome) returns (posted: Option<FormValues>)
      modifies this
      ensures !RequiredFilled(data) ==>
        posted == None && loading == old(loading) && intakeData == old(intakeData)
        && analysisResult == old(analysisResult) && route == old(route) && alerts == old(alerts)
      ensures RequiredFilled(data) ==> posted == Some(Normalise(data)) && !loading
      ensures RequiredFilled(data) && SubmissionAccepted(outcome) ==>
        intakeData == Normalise(data) && analysisResult == outcome.body.value
        && route == "/intake-analysis-result" && alerts == old(alerts)
      ensures RequiredFilled(data) && !SubmissionAccepted(outcome) ==>
        intakeData == old(intakeData) && analysisResult == old(analysisResult) && route == old(route)
        && alerts == old(alerts) + [FailureAlert]
    {
      if !RequiredFilled(data) {
        return None;
      }
      var sent := OnSubmit(data, outcome);
      posted := Some(sent);
    }
  }
}
