/**
 * The final analysis questionnaire page (frontend/app/final-analysis/page.js):
 * the form object and its single-field update, the empty-field check, the
 * request it posts, and the order in which an error message is chosen.
 * The health check and the POST are parameters giving what `fetch` returned.
 */
module FinalAnalysisPage {
  import opened Wrappers
  import opened Json
  import opened Text
  import FinalAnalysisModels

  // ---------------------------------------------------------------------------
  // The form object
  // ---------------------------------------------------------------------------

  /** A JavaScript object of string fields, keys in insertion order (the order `Object.entries` walks). */
  type FormEntries = seq<(string, string)>

  predicate DistinctKeys(f: FormEntries) {
    forall i, j | 0 <= i < j < |f| :: f[i].0 != f[j].0
  }

  function Keys(f: FormEntries): seq<string> {
    seq(|f|, i requires 0 <= i < |f| => f[i].0)
  }

  /** `form[key]`, `None` for `undefined`. */
  function Lookup(f: FormEntries, key: string): Option<string> {
    if f == [] then None else if f[0].0 == key then Some(f[0].1) else Lookup(f[1..], key)
  }

  /** The initial `formData`. */
  const DefaultForm: FormEntries := [
    ("position_change_pain", "no pain"),
    ("activity_level", "none"),
    ("leg_pain", "no"),
    ("pain_time", "AM"),
    ("accidents", "no"),
    ("bowel_bladder", "no"),
    ("fever", "no")
  ]

  /** `{...prev, [field]: value}`: an existing key keeps its place, a new one goes last. */
  function ChangeField(f: FormEntries, field: string, value: string): FormEntries {
    if f == [] then [(field, value)]
    else if f[0].0 == field then [(field, value)] + f[1..]
    else [f[0]] + ChangeField(f[1..], field, value)
  }

  /**
   * `handleChange(field, value)` sets that one field to `value` and leaves
   * every other field, and the order of the keys, as it was.
   */
  lemma ChangeFieldFacts(f: FormEntries, field: string, value: string)
    requires DistinctKeys(f)
    ensures var r := ChangeField(f, field, value);
      && DistinctKeys(r)
      && Lookup(r, field) == Some(value)
      && (forall k | k != field :: Lookup(r, k) == Lookup(f, k))
      && Keys(r) == (if field in Keys(f) then Keys(f) else Keys(f) + [field])
  {
    ChangeFieldLookup(f, field, value);
    ChangeFieldKeys(f, field, value);
    var r := ChangeField(f, field, value);
    forall i, j | 0 <= i < j < |r| ensures r[i].0 != r[j].0 {
      assert r[i].0 == Keys(r)[i] && r[j].0 == Keys(r)[j];
      if field !in Keys(f) && j == |f| {
        assert Keys(r)[i] == Keys(f)[i];
      } else {
        assert Keys(r)[i] == f[i].0 && Keys(r)[j] == f[j].0;
      }
    }
  }

  /** Reading the changed field gives the new value; every other field reads as before. */
  lemma {:induction false} ChangeFieldLookup(f: FormEntries, field: string, value: string)
    ensures Lookup(ChangeField(f, field, value), field) == Some(value)
    ensures forall k | k != field :: Lookup(ChangeField(f, field, value), k) == Lookup(f, k)
    decreases |f|
  {
    if f != [] && f[0].0 != field {
      ChangeFieldLookup(f[1..], field, value);
      var r := ChangeField(f, field, value);
      assert r[1..] == ChangeField(f[1..], field, value);
    }
  }

  /** An existing key keeps its place; a new one is added last. */
  lemma {:induction false} ChangeFieldKeys(f: FormEntries, field: string, value: string)
    ensures Keys(ChangeField(f, field, value)) == if field in Keys(f) then Keys(f) else Keys(f) + [field]
    decreases |f|
  {
    var r := ChangeField(f, field, value);
    if f == [] {
    } else if f[0].0 == field {
      assert Keys(f)[0] == field;
      assert Keys(r) == Keys(f);
    } else {
      var rest := ChangeField(f[1..], field, value);
      ChangeFieldKeys(f[1..], field, value);
      assert r == [f[0]] + rest;
      assert Keys(f) == [f[0].0] + Keys(f[1..]);
      assert Keys(r) == [f[0].0] + Keys(rest);
      assert field in Keys(f) <==> field in Keys(f[1..]);
    }
  }

  // ---------------------------------------------------------------------------
  // The empty-field check
  // ---------------------------------------------------------------------------

  /** `Object.entries(formData).filter(([_, v]) => !v).map(([k]) => k)`. */
  function EmptyFields(f: FormEntries): seq<string> {
    if f == [] then [] else (if f[0].1 == "" then [f[0].0] else []) + EmptyFields(f[1..])
  }

  /** The check lists exactly the keys whose value is empty, and nothing when every field is filled. */
  lemma {:induction false} EmptyFieldsFacts(f: FormEntries)
    ensures forall k :: k in EmptyFields(f) <==> exists i | 0 <= i < |f| :: f[i].0 == k && f[i].1 == ""
    ensures EmptyFields(f) == [] <==> forall i | 0 <= i < |f| :: f[i].1 != ""
    decreases |f|
  {
    if f != [] {
      EmptyFieldsFacts(f[1..]);
      forall k ensures k in EmptyFields(f) <==> exists i | 0 <= i < |f| :: f[i].0 == k && f[i].1 == "" {
        if k in EmptyFields(f[1..]) {
          var i :| 0 <= i < |f[1..]| && f[1..][i].0 == k && f[1..][i].1 == "";
          assert f[i + 1] == f[1..][i];
        }
        if exists i | 0 <= i < |f| :: f[i].0 == k && f[i].1 == "" {
          var i :| 0 <= i < |f| && f[i].0 == k && f[i].1 == "";
          if i > 0 {
            assert f[1..][i - 1] == f[i];
          }
        }
      }
      if forall i | 0 <= i < |f[1..]| :: f[1..][i].1 != "" {
        assert forall i | 1 <= i < |f| :: f[i].1 == f[1..][i - 1].1;
      }
    }
  }

  const MissingPrefix := "Please answer all questions. Missing: "

  // ---------------------------------------------------------------------------
  // The request and the backend's schema
  // ---------------------------------------------------------------------------

  /** The snake_case keys the page posts, in the order it writes them. */
  const PostedKeys: seq<string> :=
    ["position_change_pain", "activity_level", "leg_pain", "pain_time", "accidents", "bowel_bladder", "fever"]

  /** The POST body as written: snake_case keys; `JSON.stringify` drops a key whose value is `undefined`. */
  function ClientPayload(f: FormEntries): map<string, Json> {
    map k | k in PostedKeys && Lookup(f, k).Some? :: JStr(Lookup(f, k).value)
  }

  /**
   * As written, the body always fails the backend's validation: five of the
   * seven keys the schema requires are spelled differently, so FastAPI
   * answers 422 whatever the answers are.
   */
  lemma ClientPayloadAlwaysRejected(f: FormEntries)
    ensures FinalAnalysisModels.ValidateFormData(ClientPayload(f)).Err?
    ensures var errs := FinalAnalysisModels.InvalidFields(ClientPayload(f));
      forall k | k in ["positionChangePain", "activityLevel", "legPain", "painTime", "bowelBladder"] :: k in errs
  {
    var body := ClientPayload(f);
    assert "positionChangePain" !in body && "activityLevel" !in body && "legPain" !in body;
    assert "painTime" !in body && "bowelBladder" !in body;
  }

  /** The schema's camelCase field names. */
  const CamelKeys: set<string> :=
    {"positionChangePain", "activityLevel", "legPain", "painTime", "accidents", "bowelBladder", "fever"}

  /** The form key each camelCase field takes its value from. */
  function SnakeOf(camel: string): string {
    if camel == "positionChangePain" then "position_change_pain"
    else if camel == "activityLevel" then "activity_level"
    else if camel == "legPain" then "leg_pain"
    else if camel == "painTime" then "pain_time"
    else if camel == "bowelBladder" then "bowel_bladder"
    else camel
  }

  /** The body with the schema's camelCase keys, the form of the request the backend accepts. */
  function CamelCasePayload(f: FormEntries): map<string, Json> {
    map k | k in CamelKeys && Lookup(f, SnakeOf(k)).Some? :: JStr(Lookup(f, SnakeOf(k)).value)
  }

  /** Every value is one the page's radio buttons offer. */
  predicate FromRadioOptions(f: FormEntries) {
    && Lookup(f, "position_change_pain") in {Some("no pain"), Some("extension"), Some("flexion")}
    && Lookup(f, "activity_level") in {Some("none"), Some("light"), Some("moderate"), Some("heavy")}
    && Lookup(f, "leg_pain") in {Some("yes"), Some("no")}
    && Lookup(f, "pain_time") in {Some("AM"), Some("PM")}
    && Lookup(f, "accidents") in {Some("yes"), Some("no")}
    && Lookup(f, "bowel_bladder") in {Some("yes"), Some("no")}
    && Lookup(f, "fever") in {Some("yes"), Some("no")}
  }

  /** Each camelCase field of the corrected body carries the form's answer for it. */
  lemma CamelCasePayloadFields(f: FormEntries)
    ensures CarriesAnswers(CamelCasePayload(f), f)
  {
    assert SnakeOf("positionChangePain") == "position_change_pain";
    assert SnakeOf("activityLevel") == "activity_level";
    assert SnakeOf("legPain") == "leg_pain";
    assert SnakeOf("painTime") == "pain_time";
    assert SnakeOf("accidents") == "accidents";
    assert SnakeOf("bowelBladder") == "bowel_bladder";
    assert SnakeOf("fever") == "fever";
  }

  /** A body whose seven fields carry a radio-produced form's answers validates to those answers. */
  predicate CarriesAnswers(body: map<string, Json>, f: FormEntries) {
    && FinalAnalysisModels.StringField(body, "positionChangePain") == Lookup(f, "position_change_pain")
    && FinalAnalysisModels.StringField(body, "activityLevel") == Lookup(f, "activity_level")
    && FinalAnalysisModels.StringField(body, "legPain") == Lookup(f, "leg_pain")
    && FinalAnalysisModels.StringField(body, "painTime") == Lookup(f, "pain_time")
    && FinalAnalysisModels.StringField(body, "accidents") == Lookup(f, "accidents")
    && FinalAnalysisModels.StringField(body, "bowelBladder") == Lookup(f, "bowel_bladder")
    && FinalAnalysisModels.StringField(body, "fever") == Lookup(f, "fever")
  }

  /** A body whose seven fields hold radio-button answers validates, and the validated form holds those answers. */
  lemma ValidatesToAnswers(body: map<string, Json>, pos: string, act: string, leg: string, time: string,
                           acc: string, bowel: string, fever: string)
    requires pos in {"no pain", "extension", "flexion"} && act in {"none", "light", "moderate", "heavy"}
    requires time in {"AM", "PM"}
    requires FinalAnalysisModels.StringField(body, "positionChangePain") == Some(pos)
    requires FinalAnalysisModels.StringField(body, "activityLevel") == Some(act)
    requires FinalAnalysisModels.StringField(body, "legPain") == Some(leg)
    requires FinalAnalysisModels.StringField(body, "painTime") == Some(time)
    requires FinalAnalysisModels.StringField(body, "accidents") == Some(acc)
    requires FinalAnalysisModels.StringField(body, "bowelBladder") == Some(bowel)
    requires FinalAnalysisModels.StringField(body, "fever") == Some(fever)
    ensures var r := FinalAnalysisModels.ValidateFormData(body);
      && r.Ok?
      && FinalAnalysisModels.PositionChangePainValue(r.value.positionChangePain) == pos
      && FinalAnalysisModels.ActivityLevelValue(r.value.activityLevel) == act
      && FinalAnalysisModels.PainTimeValue(r.value.painTime) == time
      && r.value.legPain == leg && r.value.accidents == acc && r.value.bowelBladder == bowel && r.value.fever == fever
  {
    FinalAnalysisModels.EnumerationsAcceptExactlyTheirValues(pos);
    FinalAnalysisModels.EnumerationsAcceptExactlyTheirValues(act);
    FinalAnalysisModels.EnumerationsAcceptExactlyTheirValues(time);
    assert FinalAnalysisModels.AllFieldsValid(body);
  }

  /** With camelCase keys, every form the radio buttons can produce validates, carrying the chosen answers. */
  lemma CamelCasePayloadAccepted(f: FormEntries)
    requires FromRadioOptions(f)
    ensures FinalAnalysisModels.ValidateFormData(CamelCasePayload(f)).Ok?
    ensures CarriesAnswers(CamelCasePayload(f), f)
  {
    CamelCasePayloadFields(f);
    ValidatesToAnswers(CamelCasePayload(f), Lookup(f, "position_change_pain").value, Lookup(f, "activity_level").value,
      Lookup(f, "leg_pain").value, Lookup(f, "pain_time").value, Lookup(f, "accidents").value,
      Lookup(f, "bowel_bladder").value, Lookup(f, "fever").value);
  }

  /** The initial form has no empty field, so submitting it untouched passes the check. */
  lemma DefaultFormComplete()
    ensures EmptyFields(DefaultForm) == []
  {
  }

  /** The initial form has no repeated key. */
  lemma DefaultFormDistinctKeys()
    ensures DistinctKeys(DefaultForm)
  {
  }

  /** Every initial value is one the radio buttons offer. */
  lemma DefaultFormFromRadioOptions()
    ensures FromRadioOptions(DefaultForm)
  {
  }

  // ---------------------------------------------------------------------------
  // Submission outcome
  // ---------------------------------------------------------------------------

  /** What the health check's `fetch` gave: a thrown error, or a response with its `ok` flag. */
  datatype HealthOutcome = HealthUnreachable | HealthAnswered(ok: bool)

  /** What the POST's `fetch` gave: a thrown error with its message, or a response; `body` is `None` when it is not JSON. */
  datatype PostOutcome =
    | PostFailed(message: string)
    | PostAnswered(status: nat, ok: bool, statusText: string, body: Option<Json>)

  /**
   * The message shown: a fixed or thrown message, the invalid-form and
   * empty-response messages, the server's `detail` (shown through
   * `new Error(detail).message`), or the status line.
   */
  datatype ErrorText =
    | Plain(text: string)
    | InvalidForm
    | EmptyResponse
    | DetailOf(detail: Json)
    | ServerError(status: nat, statusText: string)

  const InvalidFormMessage := "Invalid form data. Please check your inputs and try again."
  const EmptyResponseMessage := "Server returned an empty response. Please try again later."
  const InvalidResponseMessage := "Invalid response from server"
  /** `process.env.NEXT_PUBLIC_API_URL || 'http://localhost:8000'`. */
  function ApiBaseUrl(env: Option<string>): string {
    if env.Some? && env.value != "" then env.value else "http://localhost:8000"
  }

  const UnreachablePrefix := "Cannot connect to the backend server. Please make sure it is running and accessible at "

  /** `Object.keys(data).length` for a parsed body. */
  function KeyCount(data: Json): nat {
    match data
    case JObj(fields) => |fields|
    case JArr(items) => |items|
    case JStr(s) => |s|
    case _ => 0
  }

  /** `!data || Object.keys(data).length === 0`. */
  predicate EmptyBody(data: Json) {
    !JsTruthy(data) || KeyCount(data) == 0
  }

  /** The error chosen for a non-OK response with a parsed body, in the page's order of precedence. */
  function NonOkError(status: nat, statusText: string, data: Json): ErrorText {
    if status == 422 then InvalidForm
    else if EmptyBody(data) then EmptyResponse
    else if JsTruthyOpt(Property(data, "detail")) then DetailOf(Property(data, "detail").value)
    else ServerError(status, statusText)
  }

  const ServerErrorPrefix := "Server error ("

  /** The text `setError(error.message)` displays for an error; `None` for a non-string detail. */
  function Shown(e: ErrorText): Option<string> {
    match e
    case Plain(text) => Some(text)
    case InvalidForm => Some(InvalidFormMessage)
    case EmptyResponse => Some(EmptyResponseMessage)
    case DetailOf(detail) => if detail.JStr? then Some(detail.s) else None
    case ServerError(status, statusText) => Some(ServerErrorPrefix + DecimalString(status) + "): " + statusText)
  }

  /**
   * Every error but a non-string detail has a displayed text: a thrown
   * message and a string detail are shown as they are, and the status line
   * is "Server error (<status>): <statusText>" with the status in decimal.
   * The invalid-form and empty-response messages differ.
   */
  lemma ShownFacts(e: ErrorText)
    ensures Shown(e).None? <==> e.DetailOf? && !e.detail.JStr?
    ensures e.Plain? ==> Shown(e) == Some(e.text)
    ensures e.DetailOf? && e.detail.JStr? ==> Shown(e) == Some(e.detail.s)
    ensures e.ServerError? ==>
      var t := Shown(e).value;
      var digits := DecimalString(e.status);
      && StartsWith(t, ServerErrorPrefix)
      && t[|ServerErrorPrefix|..|ServerErrorPrefix| + |digits|] == digits && AllDigits(digits)
      && t[|ServerErrorPrefix| + |digits|..] == "): " + e.statusText
    ensures Shown(InvalidForm) != Shown(EmptyResponse)
  {
    if e.ServerError? {
      var digits := DecimalString(e.status);
      assert Shown(e).value == ServerErrorPrefix + digits + ("): " + e.statusText);
    }
  }

  /**
   * Status 422 and only it gives the invalid-form message; the empty-body
   * message needs a non-422 status; a detail is shown only for a non-422,
   * non-empty body that has one; otherwise the status and its text are shown.
   */
  lemma NonOkErrorPrecedence(status: nat, statusText: string, data: Json)
    ensures NonOkError(status, statusText, data) == InvalidForm <==> status == 422
    ensures NonOkError(status, statusText, data) == EmptyResponse <==> status != 422 && EmptyBody(data)
    ensures NonOkError(status, statusText, data).DetailOf? <==>
      status != 422 && !EmptyBody(data) && JsTruthyOpt(Property(data, "detail"))
    ensures NonOkError(status, statusText, data).ServerError? ==>
      NonOkError(status, statusText, data) == ServerError(status, statusText)
  {
  }

  /** How `handleSubmit` ends: blocked before any request, failed with a message, or succeeded with the parsed body. */
  datatype SubmitOutcome =
    | Blocked(message: string)
    | Failed(error: ErrorText, posted: bool)
    | Succeeded(data: Json)

  /** The path `handleSubmit` takes for the form and what the two `fetch` calls gave. */
  function Submission(f: FormEntries, health: HealthOutcome, post: PostOutcome, apiBaseUrl: string): SubmitOutcome {
    if EmptyFields(f) != [] then Blocked(MissingPrefix + Join(EmptyFields(f), ", "))
    else if health != HealthAnswered(true) then Failed(Plain(UnreachablePrefix + apiBaseUrl), false)
    else match post
      case PostFailed(message) => Failed(Plain(message), true)
      case PostAnswered(status, ok, statusText, body) =>
        if body.None? then Failed(Plain(InvalidResponseMessage), true)
        else if !ok then Failed(NonOkError(status, statusText, body.value), true)
        else Succeeded(body.value)
  }

  /**
   * The guards in order: an empty field stops everything and names exactly
   * the empty keys; a failed health check stops the POST and names the base
   * URL; an unparseable body gives the same message whatever the status;
   * success needs an OK, parseable response.
   */
  lemma SubmissionFacts(f: FormEntries, health: HealthOutcome, post: PostOutcome, apiBaseUrl: string)
    ensures var o := Submission(f, health, post, apiBaseUrl);
      && (o.Blocked? <==> exists i | 0 <= i < |f| :: f[i].1 == "")
      && (o.Blocked? ==> forall k :: k in EmptyFields(f) <==> exists i | 0 <= i < |f| :: f[i].0 == k && f[i].1 == "")
      && (!o.Blocked? && health != HealthAnswered(true) ==> o == Failed(Plain(UnreachablePrefix + apiBaseUrl), false))
      && (o.Failed? && o.posted ==> health == HealthAnswered(true))
      && (!o.Blocked? && health == HealthAnswered(true) && post.PostAnswered? && post.body.None? ==>
            o == Failed(Plain(InvalidResponseMessage), true))
      && (o.Succeeded? <==>
            !o.Blocked? && health == HealthAnswered(true) && post.PostAnswered? && post.ok && post.body.Some?)
  {
    EmptyFieldsFacts(f);
  }

  /**
   * As written, a complete form sent to a healthy backend ends with the
   * invalid-form message, since the backend answers the snake_case body with 422.
   */
  lemma SnakeCaseSubmissionFails(f: FormEntries, statusText: string, body: Json, apiBaseUrl: string)
    requires EmptyFields(f) == []
    ensures FinalAnalysisModels.ValidateFormData(ClientPayload(f)).Err?
    ensures Submission(f, HealthAnswered(true), PostAnswered(422, false, statusText, Some(body)), apiBaseUrl)
         == Failed(InvalidForm, true)
  {
    ClientPayloadAlwaysRejected(f);
  }

  // ---------------------------------------------------------------------------
  // The page's state
  // ---------------------------------------------------------------------------

  class FinalAnalysisPageState {
    var loading: bool
    var error: Option<ErrorText>
    var formData: FormEntries
    var analysisResult: Option<Json>
    var route: string
    /** The bodies of the POST requests sent so far. */
    var posts: seq<map<string, Json>>
    const apiBaseUrl: string

    constructor (apiUrlSetting: Option<string>)
      ensures !loading && error == None && formData == DefaultForm && analysisResult == None
      ensures route == "/final-analysis" && posts == [] && apiBaseUrl == ApiBaseUrl(apiUrlSetting)
    {
      loading := false;
      error := None;
      formData := DefaultForm;
      analysisResult := None;
      route := "/final-analysis";
      posts := [];
      apiBaseUrl := ApiBaseUrl(apiUrlSetting);
    }

    /** `handleChange`: a record update of one field. */
    method HandleChange(field: string, value: string)
      modifies this
      ensures formData == ChangeField(old(formData), field, value)
      ensures loading == old(loading) && error == old(error) && analysisResult == old(analysisResult)
      ensures route == old(route) && posts == old(posts)
    {
      formData := ChangeField(formData, field, value);
    }

    /**
     * `handleSubmit`: the error shown, the request sent, the result atom and
     * the route follow `Submission`; the atom is set and the page navigates
     * only on success; `loading` is false again on every path. The body
     * recorded is the snake_case one the page sends, which the backend's
     * schema rejects (see `ClientPayloadAlwaysRejected`).
     */
    method HandleSubmit(health: HealthOutcome, post: PostOutcome)
      modifies this
      ensures var o := Submission(old(formData), health, post, apiBaseUrl);
        && !loading
        && formData == old(formData)
        && (o.Blocked? ==> error == Some(Plain(o.message)) && posts == old(posts))
        && (o.Failed? ==>
              error == Some(o.error) && posts == old(posts) + (if o.posted then [ClientPayload(old(formData))] else []))
        && (o.Succeeded? ==>
              && error == None && posts == old(posts) + [ClientPayload(old(formData))]
              && analysisResult == Some(o.data) && route == "/final-analysis-treatment-plan")
        && (!o.Succeeded? ==> analysisResult == old(analysisResult) && route == old(route))
    {
      loading := true;
      error := None;
      var empty := EmptyFields(formData);
      if empty != [] {
        error := Some(Plain(MissingPrefix + Join(empty, ", ")));
        loading := false;
        return;
      }
      if health != HealthAnswered(true) {
        error := Some(Plain(UnreachablePrefix + apiBaseUrl));
        loading := false;
        return;
      }
      posts := posts + [ClientPayload(formData)];
      match post {
        case PostFailed(message) =>
          error := Some(Plain(message));
        case PostAnswered(status, ok, statusText, body) =>
          if body.None? {
            error := Some(Plain(InvalidResponseMessage));
          } else if !ok {
            error := Some(NonOkError(status, statusText, body.value));
          } else {
            analysisResult := Some(body.value);
            route := "/final-analysis-treatment-plan";
          }
      }
      loading := false;
    }
  }
}
