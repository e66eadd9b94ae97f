/**
 * The judge's verdict schema (backend/app/models/judge_models.py): three
 * closed enumerations, per-code and per-section judgements, and the
 * aggregate record with its two field constraints.
 */
module JudgeModels {
  import opened Wrappers

  /** `Verdict(str, Enum)`: the values "pass" and "fail". */
  datatype Verdict = Pass | Fail

  function VerdictValue(v: Verdict): string {
    match v
    case Pass => "pass"
    case Fail => "fail"
  }

  /** Looking an enum member up by its value, as the enum constructor `Verdict(s)` does. */
  function VerdictOf(s: string): (r: Option<Verdict>)
    ensures r.Some? <==> s == "pass" || s == "fail"
    ensures r.Some? ==> VerdictValue(r.value) == s
  {
    if s == "pass" then Some(Pass) else if s == "fail" then Some(Fail) else None
  }

  /** `SupportLevel(Enum)`: HALLUCINATED = 0, PARTIALLY_SUPPORTED = 1, FULLY_SUPPORTED = 2. */
  datatype SupportLevel = Hallucinated | PartiallySupported | FullySupported

  function SupportLevelValue(l: SupportLevel): int {
    match l
    case Hallucinated => 0
    case PartiallySupported => 1
    case FullySupported => 2
  }

  function SupportLevelOf(n: int): (r: Option<SupportLevel>)
    ensures r.Some? <==> 0 <= n <= 2
    ensures r.Some? ==> SupportLevelValue(r.value) == n
  {
    if n == 0 then Some(Hallucinated)
    else if n == 1 then Some(PartiallySupported)
    else if n == 2 then Some(FullySupported)
    else None
  }

  /** `RiskLevel(str, Enum)`: the values "low", "medium" and "high". */
  datatype RiskLevel = Low | Medium | High

  function RiskLevelValue(r: RiskLevel): string {
    match r
    case Low => "low"
    case Medium => "medium"
    case High => "high"
  }

  function RiskLevelOf(s: string): (r: Option<RiskLevel>)
    ensures r.Some? <==> s == "low" || s == "medium" || s == "high"
    ensures r.Some? ==> RiskLevelValue(r.value) == s
  {
    if s == "low" then Some(Low)
    else if s == "medium" then Some(Medium)
    else if s == "high" then Some(High)
    else None
  }

  /** Every member's value leads back to that member: the value tables are injective. */
  lemma EnumValuesRoundTrip(v: Verdict, l: SupportLevel, r: RiskLevel)
    ensures VerdictOf(VerdictValue(v)) == Some(v)
    ensures SupportLevelOf(SupportLevelValue(l)) == Some(l)
    ensures RiskLevelOf(RiskLevelValue(r)) == Some(r)
  {
  }

  /**
   * One code's evaluation. `codeType` is a free string (the schema only
   * describes it as icd | cpt | hcpcs); `linkageValid` and `issues` are
   * optional and default to None.
   */
  datatype CodeJudgement = CodeJudgement(
    code: string,
    codeType: string,
    termMatch: bool,
    documentationSupport: SupportLevel,
    linkageValid: Option<bool>,
    confidenceAlignment: bool,
    issues: Option<seq<string>>)

  /** A code judgement built with only its required fields. */
  function DefaultCodeJudgement(code: string, codeType: string, termMatch: bool,
                                support: SupportLevel, confidenceAlignment: bool): CodeJudgement
  {
    CodeJudgement(code, codeType, termMatch, support, None, confidenceAlignment, None)
  }

  /** One section's evaluation; `section` is a free string and `notes` defaults to None. */
  datatype SectionJudgement = SectionJudgement(section: string, verdict: Verdict, notes: Option<string>)

  datatype MedicalCodingJudgeOutput = MedicalCodingJudgeOutput(
    overallVerdict: Verdict,
    overallScore: real,
    sectionJudgements: seq<SectionJudgement>,
    codeJudgements: seq<CodeJudgement>,
    complianceRisk: RiskLevel,
    summary: string,
    notes: Option<string>)

  const MinSummaryLength: nat := 30

  /** The field constraints: `overall_score` in [0.0, 1.0] and `summary` at least 30 characters. */
  predicate ValidJudgeOutput(o: MedicalCodingJudgeOutput) {
    0.0 <= o.overallScore <= 1.0 && |o.summary| >= MinSummaryLength
  }

  /** Both bounds of the score are inclusive, and nothing is asked of the judgement lists. */
  lemma JudgeOutputBounds(summary: string, sections: seq<SectionJudgement>, codes: seq<CodeJudgement>)
    requires |summary| == MinSummaryLength
    ensures ValidJudgeOutput(MedicalCodingJudgeOutput(Fail, 0.0, sections, codes, High, summary, None))
    ensures ValidJudgeOutput(MedicalCodingJudgeOutput(Pass, 1.0, sections, codes, Low, summary, None))
    ensures !ValidJudgeOutput(MedicalCodingJudgeOutput(Pass, 1.0, sections, codes, Low, summary[1..], None))
  {
  }
}
