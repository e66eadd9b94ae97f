/** ICD-10-CM coding output schema (backend/app/models/icd_models.py). */
module IcdModels {
  import opened Wrappers

  /** `code` is required; `description` and `confidence` are optional and default to None. */
  datatype ICDCode = ICDCode(code: string, description: Option<string>, confidence: Option<real>)

  function DefaultICDCode(code: string): ICDCode {
    ICDCode(code, None, None)
  }

  /** A present confidence lies in [0.0, 1.0]. */
  predicate ValidICDCode(c: ICDCode) {
    c.confidence.Some? ==> 0.0 <= c.confidence.value <= 1.0
  }

  datatype ICDCodingOutput = ICDCodingOutput(icdCodes: seq<ICDCode>)

  predicate ValidICDCodingOutput(o: ICDCodingOutput) {
    forall k :: 0 <= k < |o.icdCodes| ==> ValidICDCode(o.icdCodes[k])
  }

  /**
   * A code given with its required field only is valid, a code without a
   * confidence is valid whatever its description, and a code with a
   * confidence is valid exactly when that confidence lies in [0.0, 1.0].
   */
  lemma ICDCodeConstraints(code: string, description: Option<string>, confidence: real)
    ensures ValidICDCode(DefaultICDCode(code))
    ensures ValidICDCode(ICDCode(code, description, None))
    ensures ValidICDCode(ICDCode(code, description, Some(confidence))) <==> 0.0 <= confidence <= 1.0
  {
  }
}
