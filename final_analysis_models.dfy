/**
 * The pydantic schema of backend/app/models/final_analysis.py: the three
 * enumerations of the questionnaire, the bounded probabilities of the
 * analysis result, the validator on the differentiation probabilities and
 * the request body of the final analysis endpoint. Floats are reals.
 */
module FinalAnalysisModels {
  import opened Wrappers
  import opened Json

  // ---------------------------------------------------------------------------
  // Enumerations
  // ---------------------------------------------------------------------------

  datatype PositionChangePain = NoPain | Flexion | Extension
  datatype ActivityLevel = NoActivity | Light | Moderate | Heavy
  datatype PainTime = AM | PM

  function PositionChangePainValue(p: PositionChangePain): string {
    match p
    case NoPain => "no pain"
    case Flexion => "flexion"
    case Extension => "extension"
  }

  function ActivityLevelValue(a: ActivityLevel): string {
    match a
    case NoActivity => "none"
    case Light => "light"
    case Moderate => "moderate"
    case Heavy => "heavy"
  }

  function PainTimeValue(t: PainTime): string {
    match t
    case AM => "AM"
    case PM => "PM"
  }

  /** `PositionChangePain(s)`: the member whose value is `s`, if any. */
  function ParsePositionChangePain(s: string): Option<PositionChangePain> {
    if s == "no pain" then Some(NoPain)
    else if s == "flexion" then Some(Flexion)
    else if s == "extension" then Some(Extension)
    else None
  }

  function ParseActivityLevel(s: string): Option<ActivityLevel> {
    if s == "none" then Some(NoActivity)
    else if s == "light" then Some(Light)
    else if s == "moderate" then Some(Moderate)
    else if s == "heavy" then Some(Heavy)
    else None
  }

  function ParsePainTime(s: string): Option<PainTime> {
    if s == "AM" then Some(AM)
    else if s == "PM" then Some(PM)
    else None
  }

  /** Each enumeration accepts exactly its listed values, and parsing inverts the value map. */
  lemma EnumerationsAcceptExactlyTheirValues(s: string)
    ensures ParsePositionChangePain(s).Some? <==> s in {"no pain", "flexion", "extension"}
    ensures ParseActivityLevel(s).Some? <==> s in {"none", "light", "moderate", "heavy"}
    ensures ParsePainTime(s).Some? <==> s in {"AM", "PM"}
    ensures forall p :: ParsePositionChangePain(s) == Some(p) <==> PositionChangePainValue(p) == s
    ensures forall a :: ParseActivityLevel(s) == Some(a) <==> ActivityLevelValue(a) == s
    ensures forall t :: ParsePainTime(s) == Some(t) <==> PainTimeValue(t) == s
  {
  }

  // ---------------------------------------------------------------------------
  // Analysis result
  // ---------------------------------------------------------------------------

  /** `Field(..., ge=0, le=1)`. */
  predicate ProbabilityInRange(p: real) {
    0.0 <= p <= 1.0
  }

  datatype BaseDiagnosis = BaseDiagnosis(diagnosis: string, probability: real)

  /** `ProbabilisticDiagnosis(BaseDiagnosis)` adds `icd10_code` and `simple_explanation`. */
  datatype ProbabilisticDiagnosis = ProbabilisticDiagnosis(
    diagnosis: string, probability: real, icd10Code: string, simpleExplanation: string)

  /** `MainDiagnosis(ProbabilisticDiagnosis)` adds `reasoning`. */
  datatype MainDiagnosis = MainDiagnosis(
    diagnosis: string, probability: real, icd10Code: string, simpleExplanation: string, reasoning: string)

  datatype BigMuscleGroup = BigMuscleGroup(name: string, description: string, probability: real)

  datatype AnalysisResult = AnalysisResult(
    seriousVsTreatable: BaseDiagnosis,
    differentiationProbabilities: seq<BaseDiagnosis>,
    bigMuscleGroup: BigMuscleGroup,
    mainDiagnosis: MainDiagnosis,
    otherProbabilisticDiagnosis: seq<ProbabilisticDiagnosis>)

  /** `sum(item.probability for item in v)`, added left to right. */
  function Sum(v: seq<BaseDiagnosis>): real {
    if v == [] then 0.0 else Sum(v[..|v| - 1]) + v[|v| - 1].probability
  }

  const SumError := "Probabilities must sum to 1"

  /** `validate_probabilities_sum`: the list is kept exactly when its sum lies in [0.99, 1.01]. */
  function ValidateProbabilitiesSum(v: seq<BaseDiagnosis>): (r: Result<seq<BaseDiagnosis>, string>)
    ensures r.Ok? <==> 0.99 <= Sum(v) <= 1.01
    ensures r.Ok? ==> r.value == v
    ensures r.Err? ==> r.error == SumError
  {
    var total := Sum(v);
    if !(0.99 <= total <= 1.01) then Err(SumError) else Ok(v)
  }

  /** The validator rejects an empty list, whose sum is 0. */
  lemma EmptyDifferentiationRejected()
    ensures ValidateProbabilitiesSum([]) == Err(SumError)
  {
  }

  lemma {:induction false} SumConcat(a: seq<BaseDiagnosis>, b: seq<BaseDiagnosis>)
    ensures Sum(a + b) == Sum(a) + Sum(b)
    decreases |b|
  {
    if b != [] {
      assert (a + b)[..|a + b| - 1] == a + b[..|b| - 1];
      SumConcat(a, b[..|b| - 1]);
    } else {
      assert a + b == a;
    }
  }

  /** Taking one item out of the list takes its probability out of the sum. */
  lemma SumRemove(b: seq<BaseDiagnosis>, i: nat)
    requires i < |b|
    ensures Sum(b) == Sum(b[..i] + b[i + 1..]) + b[i].probability
  {
    var x := b[i];
    assert b == b[..i] + ([x] + b[i + 1..]);
    SumConcat(b[..i], [x] + b[i + 1..]);
    SumConcat([x], b[i + 1..]);
    SumConcat(b[..i], b[i + 1..]);
    assert Sum([x]) == x.probability by {
      assert [x][..0] == [];
    }
  }

  lemma MultisetRemove(b: seq<BaseDiagnosis>, i: nat)
    requires i < |b|
    ensures multiset(b[..i] + b[i + 1..]) == multiset(b) - multiset{b[i]}
  {
    assert b == b[..i] + [b[i]] + b[i + 1..];
  }

  /** The validator's verdict depends only on which probabilities are listed, not on their order. */
  lemma {:induction false} SumIgnoresOrder(a: seq<BaseDiagnosis>, b: seq<BaseDiagnosis>)
    requires multiset(a) == multiset(b)
    ensures Sum(a) == Sum(b)
    ensures ValidateProbabilitiesSum(a).Ok? == ValidateProbabilitiesSum(b).Ok?
    decreases |a|
  {
    if a == [] {
      assert |b| == |multiset(b)| == 0;
    } else {
      var x := a[|a| - 1];
      var a' := a[..|a| - 1];
      assert multiset(a') == multiset(a) - multiset{x} by {
        assert a == a' + [x];
      }
      assert x in b by {
        assert x in multiset(b);
      }
      var i :| 0 <= i < |b| && b[i] == x;
      MultisetRemove(b, i);
      SumIgnoresOrder(a', b[..i] + b[i + 1..]);
      SumRemove(b, i);
    }
  }

  /** Bounded probabilities sum to at most the list length, so an accepted list is never empty. */
  lemma {:induction false} SumOfBoundedProbabilities(v: seq<BaseDiagnosis>)
    requires forall i | 0 <= i < |v| :: ProbabilityInRange(v[i].probability)
    ensures 0.0 <= Sum(v) <= |v| as real
    ensures ValidateProbabilitiesSum(v).Ok? ==> v != []
  {
    if v != [] {
      SumOfBoundedProbabilities(v[..|v| - 1]);
    }
  }

  /** Every constraint the schema puts on an analysis result. */
  predicate WellFormed(r: AnalysisResult) {
    && ProbabilityInRange(r.seriousVsTreatable.probability)
    && (forall i | 0 <= i < |r.differentiationProbabilities| ::
          ProbabilityInRange(r.differentiationProbabilities[i].probability))
    && ProbabilityInRange(r.bigMuscleGroup.probability)
    && ProbabilityInRange(r.mainDiagnosis.probability)
    && (forall i | 0 <= i < |r.otherProbabilisticDiagnosis| ::
          ProbabilityInRange(r.otherProbabilisticDiagnosis[i].probability))
    && ValidateProbabilitiesSum(r.differentiationProbabilities).Ok?
  }

  /** A well-formed result names at least one differentiation probability. */
  lemma WellFormedHasDifferentiation(r: AnalysisResult)
    requires WellFormed(r)
    ensures r.differentiationProbabilities != []
  {
    SumOfBoundedProbabilities(r.differentiationProbabilities);
  }

  function BaseDiagnosisJson(d: BaseDiagnosis): Json {
    JObj(map["diagnosis" := JStr(d.diagnosis), "probability" := JNum(d.probability)])
  }

  function ProbabilisticDiagnosisJson(d: ProbabilisticDiagnosis): Json {
    JObj(map["diagnosis" := JStr(d.diagnosis), "probability" := JNum(d.probability),
             "icd10_code" := JStr(d.icd10Code), "simple_explanation" := JStr(d.simpleExplanation)])
  }

  /** The JSON body FastAPI sends for an `AnalysisResult` (`response_model=AnalysisResult`). */
  function AnalysisResultJson(r: AnalysisResult): Json {
    JObj(map[
      "serious_vs_treatable" := BaseDiagnosisJson(r.seriousVsTreatable),
      "differentiation_probabilities" :=
        JArr(seq(|r.differentiationProbabilities|, i requires 0 <= i < |r.differentiationProbabilities| =>
          BaseDiagnosisJson(r.differentiationProbabilities[i]))),
      "big_muscle_group" := JObj(map["name" := JStr(r.bigMuscleGroup.name),
                                     "description" := JStr(r.bigMuscleGroup.description),
                                     "probability" := JNum(r.bigMuscleGroup.probability)]),
      "main_diagnosis" := JObj(map["diagnosis" := JStr(r.mainDiagnosis.diagnosis),
                                   "probability" := JNum(r.mainDiagnosis.probability),
                                   "icd10_code" := JStr(r.mainDiagnosis.icd10Code),
                                   "simple_explanation" := JStr(r.mainDiagnosis.simpleExplanation),
                                   "reasoning" := JStr(r.mainDiagnosis.reasoning)]),
      "other_probabilistic_diagnosis" :=
        JArr(seq(|r.otherProbabilisticDiagnosis|, i requires 0 <= i < |r.otherProbabilisticDiagnosis| =>
          ProbabilisticDiagnosisJson(r.otherProbabilisticDiagnosis[i])))
    ])
  }

  // ---------------------------------------------------------------------------
  // Request body of the final analysis endpoint
  // ---------------------------------------------------------------------------

  datatype FinalAnalysisFormData = FinalAnalysisFormData(
    positionChangePain: PositionChangePain,
    activityLevel: ActivityLevel,
    legPain: string,
    painTime: PainTime,
    accidents: string,
    bowelBladder: string,
    fever: string)

  /** The string under `key`, if the body has one there. */
  function StringField(body: map<string, Json>, key: string): Option<string> {
    if key in body && body[key].JStr? then Some(body[key].s) else None
  }

  predicate PositionChangePainValid(body: map<string, Json>) {
    StringField(body, "positionChangePain").Some?
    && ParsePositionChangePain(StringField(body, "positionChangePain").value).Some?
  }

  predicate ActivityLevelValid(body: map<string, Json>) {
    StringField(body, "activityLevel").Some?
    && ParseActivityLevel(StringField(body, "activityLevel").value).Some?
  }

  predicate PainTimeValid(body: map<string, Json>) {
    StringField(body, "painTime").Some? && ParsePainTime(StringField(body, "painTime").value).Some?
  }

  /** The fields that fail validation, in declaration order (pydantic reports one error per field). */
  function InvalidFields(body: map<string, Json>): seq<string> {
    (if PositionChangePainValid(body) then [] else ["positionChangePain"])
    + (if ActivityLevelValid(body) then [] else ["activityLevel"])
    + (if StringField(body, "legPain").Some? then [] else ["legPain"])
    + (if PainTimeValid(body) then [] else ["painTime"])
    + (if StringField(body, "accidents").Some? then [] else ["accidents"])
    + (if StringField(body, "bowelBladder").Some? then [] else ["bowelBladder"])
    + (if StringField(body, "fever").Some? then [] else ["fever"])
  }

  /** Every field of the request passes its validation. */
  predicate AllFieldsValid(body: map<string, Json>) {
    && PositionChangePainValid(body)
    && ActivityLevelValid(body)
    && StringField(body, "legPain").Some?
    && PainTimeValid(body)
    && StringField(body, "accidents").Some?
    && StringField(body, "bowelBladder").Some?
    && StringField(body, "fever").Some?
  }

  /**
   * Validation of the JSON body into `FinalAnalysisFormData`: the error lists
   * every missing or invalid field in declaration order; extra keys are ignored.
   */
  function ValidateFormData(body: map<string, Json>): (r: Result<FinalAnalysisFormData, seq<string>>)
    ensures r.Ok? <==> AllFieldsValid(body)
    ensures r.Err? ==> r.error == InvalidFields(body) && r.error != []
    ensures r.Ok? ==>
      && body["positionChangePain"] == JStr(PositionChangePainValue(r.value.positionChangePain))
      && body["activityLevel"] == JStr(ActivityLevelValue(r.value.activityLevel))
      && body["legPain"] == JStr(r.value.legPain)
      && body["painTime"] == JStr(PainTimeValue(r.value.painTime))
      && body["accidents"] == JStr(r.value.accidents)
      && body["bowelBladder"] == JStr(r.value.bowelBladder)
      && body["fever"] == JStr(r.value.fever)
  {
    var errors := InvalidFields(body);
    if errors != [] then Err(errors)
    else
      EnumerationsAcceptExactlyTheirValues(body["positionChangePain"].s);
      EnumerationsAcceptExactlyTheirValues(body["activityLevel"].s);
      EnumerationsAcceptExactlyTheirValues(body["painTime"].s);
      Ok(FinalAnalysisFormData(
        ParsePositionChangePain(body["positionChangePain"].s).value,
        ParseActivityLevel(body["activityLevel"].s).value,
        body["legPain"].s,
        ParsePainTime(body["painTime"].s).value,
        body["accidents"].s,
        body["bowelBladder"].s,
        body["fever"].s))
  }

  /** The form as a JSON object with the schema's camelCase keys. */
  function FormDataJson(d: FinalAnalysisFormData): map<string, Json> {
    map[
      "positionChangePain" := JStr(PositionChangePainValue(d.positionChangePain)),
      "activityLevel" := JStr(ActivityLevelValue(d.activityLevel)),
      "legPain" := JStr(d.legPain),
      "painTime" := JStr(PainTimeValue(d.painTime)),
      "accidents" := JStr(d.accidents),
      "bowelBladder" := JStr(d.bowelBladder),
      "fever" := JStr(d.fever)
    ]
  }

  /** Encoding a form with camelCase keys and validating it gives the form back. */
  lemma FormDataRoundTrip(d: FinalAnalysisFormData)
    ensures ValidateFormData(FormDataJson(d)) == Ok(d)
  {
    var body := FormDataJson(d);
    EnumerationsAcceptExactlyTheirValues(PositionChangePainValue(d.positionChangePain));
    EnumerationsAcceptExactlyTheirValues(ActivityLevelValue(d.activityLevel));
    EnumerationsAcceptExactlyTheirValues(PainTimeValue(d.painTime));
    assert AllFieldsValid(body);
  }
}
