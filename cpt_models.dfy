/** CPT-4 coding output schema (backend/app/models/cpt_models.py). */
module CptModels {
  import opened Wrappers

  /**
   * `code`, `linked_icd_codes` and `confidence` are required; `description`
   * is optional and defaults to None. The schema does not ask for the link
   * list to be non-empty nor for its entries to be codes of the same run.
   */
  datatype CPTCode = CPTCode(code: string, description: Option<string>, linkedIcdCodes: seq<string>, confidence: real)

  /** The confidence lies in [0.0, 1.0]. */
  predicate ValidCPTCode(c: CPTCode) {
    0.0 <= c.confidence <= 1.0
  }

  datatype CPTCodingOutput = CPTCodingOutput(cptCodes: seq<CPTCode>)

  predicate ValidCPTCodingOutput(o: CPTCodingOutput) {
    forall k :: 0 <= k < |o.cptCodes| ==> ValidCPTCode(o.cptCodes[k])
  }

  /**
   * A code is valid exactly when its confidence lies in [0.0, 1.0], whatever
   * its description and its links; in particular an empty link list is accepted.
   */
  lemma CPTCodeConstraints(code: string, description: Option<string>, links: seq<string>, confidence: real)
    ensures ValidCPTCode(CPTCode(code, description, links, confidence)) <==> 0.0 <= confidence <= 1.0
    ensures ValidCPTCode(CPTCode(code, description, [], 1.0))
  {
  }
}
