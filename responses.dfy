/** Pipeline response records (backend/app/models/responses.py). */
module Responses {
  import opened Wrappers
  import opened Entities
  import opened IcdModels
  import opened CptModels
  import opened HcpcsModels
  import opened JudgeModels

  /**
   * A structured (pydantic) task output, of whichever of the four schemas
   * the task produced. The coding result's slots hold such values: the
   * pipeline assigns them by position and the record does not validate on
   * assignment, so a slot holds whatever its task produced.
   */
  datatype StructuredOutput =
    | EntitiesOutput(entities: StructuredMedicalEntities)
    | IcdOutput(icd: ICDCodingOutput)
    | CptOutput(cpt: CPTCodingOutput)
    | HcpcsOutput(hcpcs: HCPCSCodingOutput)

  /** `CodingResult`: four optional slots, each defaulting to None. */
  datatype CodingResult = CodingResult(
    entities: Option<StructuredOutput>,
    icdCodes: Option<StructuredOutput>,
    cptCodes: Option<StructuredOutput>,
    hcpcsCodes: Option<StructuredOutput>)

  /** `CodingResult()`. */
  function EmptyCodingResult(): CodingResult {
    CodingResult(None, None, None, None)
  }

  /** Every filled slot holds the schema its field is declared with. */
  predicate WellTypedCodingResult(r: CodingResult) {
    && (r.entities.Some? ==> r.entities.value.EntitiesOutput?)
    && (r.icdCodes.Some? ==> r.icdCodes.value.IcdOutput?)
    && (r.cptCodes.Some? ==> r.cptCodes.value.CptOutput?)
    && (r.hcpcsCodes.Some? ==> r.hcpcsCodes.value.HcpcsOutput?)
  }

  /** Token usage statistics of a crew run, passed through untouched. */
  type TokenUsage = map<string, int>

  /** `PipelineResponse`: `success` is required, every other field defaults to None. */
  datatype PipelineResponse = PipelineResponse(
    success: bool,
    traceId: Option<string>,
    codingResult: Option<CodingResult>,
    evaluation: Option<MedicalCodingJudgeOutput>,
    tokenUsage: Option<TokenUsage>,
    error: Option<string>)

  /** `PipelineResponse(success=False, error=message)`. */
  function FailedResponse(message: string): PipelineResponse {
    PipelineResponse(false, None, None, None, None, Some(message))
  }

  /** `HealthResponse`: three required strings. */
  datatype HealthResponse = HealthResponse(status: string, version: string, environment: string)
}
