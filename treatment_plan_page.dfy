/**
 * The page that shows a final analysis (frontend/app/final-analysis-treatment-plan/page.js):
 * which of its views a stored result selects, the filter that lists missing
 * required fields, and the colour of the serious/treatable badge.
 */
module TreatmentPlanPage {
  import opened Wrappers
  import opened Json
  import opened Text
  import FinalAnalysisModels

  /** The fields the page requires, in the order it lists them. */
  const RequiredFields: seq<string> := [
    "main_diagnosis", "big_muscle_group", "other_probabilistic_diagnosis",
    "treatment_recommendations", "serious_vs_treatable", "differentiation_probabilities"
  ]

  /** `result[field]` is falsy (`undefined` included). */
  predicate Lacks(result: Json, field: string) {
    !JsTruthyOpt(Property(result, field))
  }

  /** `fields.filter(field => !result[field])`. */
  function MissingAmong(fields: seq<string>, result: Json): seq<string> {
    if fields == [] then [] else
      MissingAmong(fields[..|fields| - 1], result)
      + (if Lacks(result, fields[|fields| - 1]) then [fields[|fields| - 1]] else [])
  }

  /** The filter keeps exactly the falsy fields, never more entries than it was given. */
  lemma {:induction false} MissingAmongFacts(fields: seq<string>, result: Json)
    ensures forall k :: k in MissingAmong(fields, result) <==> k in fields && Lacks(result, k)
    ensures |MissingAmong(fields, result)| <= |fields|
  {
    if fields != [] {
      var init := fields[..|fields| - 1];
      MissingAmongFacts(init, result);
      assert fields == init + [fields[|fields| - 1]];
    }
  }

  /** The filter over a prefix one longer adds at most that prefix's last field. */
  lemma MissingAmongPrefix(fields: seq<string>, k: nat, result: Json)
    requires 0 < k <= |fields|
    ensures MissingAmong(fields[..k], result)
         == MissingAmong(fields[..k - 1], result) + (if Lacks(result, fields[k - 1]) then [fields[k - 1]] else [])
  {
    assert fields[..k][..k - 1] == fields[..k - 1];
  }

  /** `requiredFields.filter(field => !analysisResult[field])`. */
  function MissingFields(result: Json): seq<string> {
    MissingAmong(RequiredFields, result)
  }

  /** The page's filter keeps exactly the required fields that are falsy, in list order. */
  lemma MissingFieldsFacts(result: Json)
    ensures forall k :: k in MissingFields(result) <==> k in RequiredFields && Lacks(result, k)
    ensures MissingFields(result) == [] <==> forall k | k in RequiredFields :: !Lacks(result, k)
    ensures |MissingFields(result)| <= |RequiredFields|
  {
    MissingAmongFacts(RequiredFields, result);
    if MissingFields(result) != [] {
      assert MissingFields(result)[0] in MissingFields(result);
    }
  }

  /** An empty list is truthy in JavaScript, so a field holding `[]` is never reported missing. */
  lemma EmptyListIsNotMissing(result: Json, field: string)
    requires Property(result, field) == Some(JArr([]))
    ensures field !in MissingFields(result)
  {
    MissingFieldsFacts(result);
  }

  /** The two badge variants. */
  datatype Variant = Destructive | Success

  /** `diagnosis.toLowerCase() === "serious" ? "destructive" : "success"`. */
  function BadgeFor(diagnosis: string): Variant {
    if AsciiLower(diagnosis) == "serious" then Destructive else Success
  }

  /**
   * The badge is destructive exactly for "serious" written in any mix of
   * letter cases, and for nothing longer or shorter.
   */
  lemma BadgeFacts(diagnosis: string)
    ensures BadgeFor(diagnosis) == Destructive <==>
      |diagnosis| == 7 && forall i | 0 <= i < 7 :: diagnosis[i] == "serious"[i] || diagnosis[i] == "SERIOUS"[i]
    ensures BadgeFor(diagnosis) == Destructive ==> |diagnosis| == 7
  {
    var lower, upper := "serious", "SERIOUS";
    forall i | 0 <= i < 7
      ensures 'a' <= lower[i] <= 'z' && lower[i] as int == upper[i] as int + 32
    {
      assert lower[0] == 's' && lower[1] == 'e' && lower[2] == 'r' && lower[3] == 'i';
      assert lower[4] == 'o' && lower[5] == 'u' && lower[6] == 's';
      assert upper[0] == 'S' && upper[1] == 'E' && upper[2] == 'R' && upper[3] == 'I';
      assert upper[4] == 'O' && upper[5] == 'U' && upper[6] == 'S';
    }
    if |diagnosis| == 7 && forall i | 0 <= i < 7 :: diagnosis[i] == lower[i] || diagnosis[i] == upper[i] {
      assert AsciiLower(diagnosis) == lower;
    }
  }

  /** Letter case does not matter: "SERIOUS" gives the destructive badge. */
  lemma BadgeIgnoresCase()
    ensures BadgeFor("SERIOUS") == Destructive
  {
    var upper := "SERIOUS";
    var lower := AsciiLower(upper);
    assert upper[0] == 'S' && upper[1] == 'E' && upper[2] == 'R' && upper[3] == 'I';
    assert upper[4] == 'O' && upper[5] == 'U' && upper[6] == 'S';
    assert lower == "serious";
  }

  /** A longer text that starts with "serious" is not serious. */
  lemma BadgeNeedsWholeWord()
    ensures BadgeFor("serious!") == Success
  {
    assert |AsciiLower("serious!")| == 8;
  }

  /** The view the page renders. `RenderFailure` is a `TypeError` thrown while rendering the results. */
  datatype View = NoResults | InvalidResults(missing: seq<string>) | Results(badge: Variant) | RenderFailure

  /** A list field that `.map` can walk and whose items can be read (a `null` item throws). */
  predicate ListRenders(v: Option<Json>) {
    v.Some? && v.value.JArr? && forall i | 0 <= i < |v.value.items| :: v.value.items[i] != JNull
  }

  /** `serious_vs_treatable.diagnosis` when it is a string, the only case `toLowerCase` accepts. */
  function SeriousDiagnosis(result: Json): Option<string> {
    var svt := Property(result, "serious_vs_treatable");
    if svt.Some? && Property(svt.value, "diagnosis").Some? && Property(svt.value, "diagnosis").value.JStr?
    then Some(Property(svt.value, "diagnosis").value.s)
    else None
  }

  /** The view for the value held by the final analysis atom (`null` before any analysis). */
  function ViewFor(result: Json): View {
    if !JsTruthy(result) then NoResults
    else if MissingFields(result) != [] then InvalidResults(MissingFields(result))
    else if SeriousDiagnosis(result).None?
         || !ListRenders(Property(result, "differentiation_probabilities"))
         || !ListRenders(Property(result, "other_probabilistic_diagnosis"))
         || !ListRenders(Property(result, "treatment_recommendations"))
    then RenderFailure
    else Results(BadgeFor(SeriousDiagnosis(result).value))
  }

  /**
   * A falsy atom and only it gives the empty view; the invalid view lists
   * exactly the falsy required fields; the results view needs every
   * required field present and its badge follows the diagnosis text.
   */
  lemma ViewFacts(result: Json)
    ensures ViewFor(result) == NoResults <==> !JsTruthy(result)
    ensures ViewFor(result).InvalidResults? ==>
      JsTruthy(result) && forall k :: k in ViewFor(result).missing <==> k in RequiredFields && Lacks(result, k)
    ensures ViewFor(result).Results? ==>
      && (forall k | k in RequiredFields :: !Lacks(result, k))
      && SeriousDiagnosis(result).Some?
      && (ViewFor(result).badge == Destructive <==> AsciiLower(SeriousDiagnosis(result).value) == "serious")
  {
    MissingFieldsFacts(result);
  }

  /**
   * The backend's `AnalysisResult` has no `treatment_recommendations`, so the
   * page shows the invalid view, naming that field alone, for every result
   * the backend returns.
   */
  lemma BackendResultNeverShown(r: FinalAnalysisModels.AnalysisResult)
    ensures ViewFor(FinalAnalysisModels.AnalysisResultJson(r)) == InvalidResults(["treatment_recommendations"])
  {
    var j := FinalAnalysisModels.AnalysisResultJson(r);
    var rf := RequiredFields;
    BackendResultFields(r);
    for k := 1 to 7
      invariant MissingAmong(rf[..k - 1], j) == (if k <= 4 then [] else [rf[3]])
    {
      MissingAmongPrefix(rf, k, j);
    }
    assert rf[..6] == rf;
  }

  /** Of the required fields, the backend's result has every one but `treatment_recommendations`. */
  lemma BackendResultFields(r: FinalAnalysisModels.AnalysisResult)
    ensures var j := FinalAnalysisModels.AnalysisResultJson(r);
      && !Lacks(j, RequiredFields[0]) && !Lacks(j, RequiredFields[1]) && !Lacks(j, RequiredFields[2])
      && Lacks(j, RequiredFields[3]) && !Lacks(j, RequiredFields[4]) && !Lacks(j, RequiredFields[5])
  {
  }
}
