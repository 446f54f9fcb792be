/** The single mutable cell of backend/app/core/atoms.py holding the last intake analysis result. */
module Atoms {
  import opened Wrappers

  /** `AnalysisResult` of backend/app/models/intake.py; floats are modelled as reals. */
  datatype IntakeAnalysisResult = IntakeAnalysisResult(
    seriousVsTreatable: string,
    differentiationProbabilities: map<string, real>,
    icd10Codes: seq<string>,
    recommendations: Option<string>)

  /** The module global `_intake_analysis_result`. */
  class IntakeAnalysisResultCell {
    var current: Option<IntakeAnalysisResult>

    /** The cell starts as `None`. */
    constructor ()
      ensures current == None
    {
      current := None;
    }

    /** `get_intake_analysis_result`: reads the cell without changing it. */
    method Get() returns (r: Option<IntakeAnalysisResult>)
      ensures r == current
    {
      r := current;
    }

    /** `set_intake_analysis_result`: replaces whatever the cell held. */
    method Set(result: IntakeAnalysisResult)
      modifies this
      ensures current == Some(result)
    {
      current := Some(result);
    }
  }

  /** Reading before any write gives `None`; after two writes, the later one. */
  method LaterSetWins(first: IntakeAnalysisResult, second: IntakeAnalysisResult)
  {
    var cell := new IntakeAnalysisResultCell();
    var r0 := cell.Get();
    assert r0 == None;
    cell.Set(first);
    var r1 := cell.Get();
    assert r1 == Some(first);
    cell.Set(second);
    var r2 := cell.Get();
    var r3 := cell.Get();
    assert r2 == r3 == Some(second);
  }
}
