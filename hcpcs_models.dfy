/** HCPCS Level II coding output schema (backend/app/models/hcpcs_models.py). */
module HcpcsModels {
  import opened Wrappers

  /**
   * `code`, `linked_icd_codes` and `confidence` are required; `description`
   * is optional and defaults to None. The schema does not ask for the link
   * list to be non-empty nor for its entries to be codes of the same run.
   */
  datatype HCPCSCode = HCPCSCode(code: string, description: Option<string>, linkedIcdCodes: seq<string>, confidence: real)

  /** The confidence lies in [0.0, 1.0]. */
  predicate ValidHCPCSCode(c: HCPCSCode) {
    0.0 <= c.confidence <= 1.0
  }

  datatype HCPCSCodingOutput = HCPCSCodingOutput(hcpcsCodes: seq<HCPCSCode>)

  predicate ValidHCPCSCodingOutput(o: HCPCSCodingOutput) {
    forall k :: 0 <= k < |o.hcpcsCodes| ==> ValidHCPCSCode(o.hcpcsCodes[k])
  }

  /**
   * A code is valid exactly when its confidence lies in [0.0, 1.0], whatever
   * its description and its links; in particular an empty link list is accepted.
   */
  lemma HCPCSCodeConstraints(code: string, description: Option<string>, links: seq<string>, confidence: real)
    ensures ValidHCPCSCode(HCPCSCode(code, description, links, confidence)) <==> 0.0 <= confidence <= 1.0
    ensures ValidHCPCSCode(HCPCSCode(code, description, [], 1.0))
  {
  }
}
