/**
 * The translation of a judge verdict into trace scores
 * (backend/app/services/tracing_service.py, `add_evaluation_scores`).
 * The observability client is modelled as a score log that may reject a
 * score (`create_score` raising); a rejected score stops the translation.
 */
module TracingService {
  import opened Wrappers
  import opened PyStr
  import opened JudgeModels

  /** One `create_score` call: trace id, name, value, optional comment and optional data type. */
  datatype Score = Score(traceId: string, name: string, value: real, comment: Option<string>, dataType: Option<string>)

  /** `1 if verdict.value == "pass" else 0`. */
  function VerdictScore(v: Verdict): real {
    if VerdictValue(v) == "pass" then 1.0 else 0.0
  }

  /** `{"low": 1.0, "medium": 0.5, "high": 0.0}.get(risk_value, 0.5)`. */
  function RiskScore(riskValue: string): real {
    if riskValue == "low" then 1.0
    else if riskValue == "medium" then 0.5
    else if riskValue == "high" then 0.0
    else 0.5
  }

  /** `{2: 1.0, 1: 0.5, 0: 0.0}.get(support_level, 0.0)`. */
  function SupportScore(level: int): real {
    if level == 2 then 1.0
    else if level == 1 then 0.5
    else if level == 0 then 0.0
    else 0.0
  }

  /** `str(b)` for a bool. */
  function PyBool(b: bool): string {
    if b then "True" else "False"
  }

  /** `str(xs)` for a list of strings, each shown in single quotes. */
  function ReprStrList(xs: seq<string>): string {
    "[" + Join(seq(|xs|, k requires 0 <= k < |xs| => "'" + xs[k] + "'"), ", ") + "]"
  }

  /** The issues as the comment shows them: the stored None prints as "None". */
  function IssuesText(issues: Option<seq<string>>): string {
    match issues
    case None => "None"
    case Some(xs) => ReprStrList(xs)
  }

  function SupportComment(c: CodeJudgement): string {
    "Term match: " + PyBool(c.termMatch) + ", Issues: " + IssuesText(c.issues)
  }

  /** The three aggregate scores, in emission order. */
  function HeaderScores(ev: MedicalCodingJudgeOutput, traceId: string): seq<Score> {
    var risk := RiskLevelValue(ev.complianceRisk);
    [ Score(traceId, "overall_score", ev.overallScore, None, Some("NUMERIC")),
      Score(traceId, "overall_verdict", VerdictScore(ev.overallVerdict), Some(ev.summary), None),
      Score(traceId, "compliance_risk", RiskScore(risk), Some("Risk Level: " + risk), None) ]
  }

  /** A section's score; its comment is the stored `notes`, None included. */
  function SectionScore(s: SectionJudgement, traceId: string): Score {
    Score(traceId, "section_" + s.section + "_verdict", VerdictScore(s.verdict), s.notes, None)
  }

  function SectionScores(ss: seq<SectionJudgement>, traceId: string): (r: seq<Score>)
    ensures |r| == |ss|
    ensures forall k :: 0 <= k < |ss| ==> r[k] == SectionScore(ss[k], traceId)
  {
    seq(|ss|, k requires 0 <= k < |ss| => SectionScore(ss[k], traceId))
  }

  /** A code's support score, followed by its linkage score when `linkage_valid` is set. */
  function CodeScores(c: CodeJudgement, traceId: string): seq<Score> {
    var codeName := "code_" + c.code;
    var support := Score(traceId, codeName + "_support",
                         SupportScore(SupportLevelValue(c.documentationSupport)), Some(SupportComment(c)), None);
    match c.linkageValid
    case None => [support]
    case Some(valid) =>
      [support, Score(traceId, c.codeType + "_" + codeName + "_linkage", if valid then 1.0 else 0.0, None, None)]
  }

  /** The code scores of `cs`, code by code in list order. */
  function AllCodeScores(cs: seq<CodeJudgement>, traceId: string): seq<Score> {
    if cs == [] then []
    else AllCodeScores(cs[..|cs| - 1], traceId) + CodeScores(cs[|cs| - 1], traceId)
  }

  /** Every score `add_evaluation_scores` emits, in emission order. */
  function EvaluationScores(ev: MedicalCodingJudgeOutput, traceId: string): seq<Score> {
    HeaderScores(ev, traceId) + SectionScores(ev.sectionJudgements, traceId)
    + AllCodeScores(ev.codeJudgements, traceId)
  }

  /**
   * Sending `pending` in order to a client that rejects a score `s` with
   * `failure(s)`: the scores accepted before the first rejection, and that
   * rejection's message.
   */
  function SendAll(pending: seq<Score>, failure: Score -> Option<string>): (seq<Score>, Option<string>) {
    if pending == [] then ([], None)
    else match failure(pending[0])
      case Some(e) => ([], Some(e))
      case None =>
        var rest := SendAll(pending[1..], failure);
        ([pending[0]] + rest.0, rest.1)
  }

  /** Sending `a` then `b`: `b` is reached only if every score of `a` was accepted. */
  lemma {:induction false} SendAllConcat(a: seq<Score>, b: seq<Score>, failure: Score -> Option<string>)
    ensures SendAll(a + b, failure)
      == (var ra := SendAll(a, failure);
          if ra.1.Some? then ra else (ra.0 + SendAll(b, failure).0, SendAll(b, failure).1))
  {
    if a == [] {
      assert a + b == b;
      assert SendAll(a, failure) == ([], None);
      assert [] + SendAll(b, failure).0 == SendAll(b, failure).0;
    } else {
      assert (a + b)[1..] == a[1..] + b;
      SendAllConcat(a[1..], b, failure);
      if failure(a[0]).None? {
        var rb := SendAll(b, failure);
        var ra' := SendAll(a[1..], failure);
        if ra'.1.None? {
          assert [a[0]] + (ra'.0 + rb.0) == ([a[0]] + ra'.0) + rb.0;
        }
      }
    }
  }

  /** Without a rejection every score was sent. */
  lemma {:induction false} SendAllNoError(pending: seq<Score>, failure: Score -> Option<string>)
    requires SendAll(pending, failure).1.None?
    ensures SendAll(pending, failure).0 == pending
  {
    if pending != [] {
      SendAllNoError(pending[1..], failure);
      assert [pending[0]] + pending[1..] == pending;
    }
  }

  /** The client's score log (the `create_score` side of the Langfuse client). */
  class ScoreSink {
    var scores: seq<Score>
    /** Whether the client rejects a score, and with which message. */
    const failure: Score -> Option<string>

    constructor(failure: Score -> Option<string>)
      ensures scores == [] && this.failure == failure
    {
      scores := [];
      this.failure := failure;
    }

    /** `create_score`: appends the score, or raises and records nothing. */
    method CreateScore(s: Score) returns (error: Option<string>)
      modifies this
      ensures error == failure(s)
      ensures scores == if error.None? then old(scores) + [s] else old(scores)
    {
      error := failure(s);
      if error.None? {
        scores := scores + [s];
      }
    }
  }

  /** The code scores of a list split in two are those of each part. */
  lemma {:induction false} AllCodeScoresConcat(a: seq<CodeJudgement>, b: seq<CodeJudgement>, traceId: string)
    ensures AllCodeScores(a + b, traceId) == AllCodeScores(a, traceId) + AllCodeScores(b, traceId)
    decreases |b|
  {
    if b == [] {
      assert a + b == a;
    } else {
      var n := |b| - 1;
      assert (a + b)[..|a + b| - 1] == a + b[..n];
      assert (a + b)[|a + b| - 1] == b[n];
      AllCodeScoresConcat(a, b[..n], traceId);
      var sa, sb := AllCodeScores(a, traceId), AllCodeScores(b[..n], traceId);
      assert AllCodeScores(a + b, traceId) == (sa + sb) + CodeScores(b[n], traceId);
      assert AllCodeScores(b, traceId) == sb + CodeScores(b[n], traceId);
      assert (sa + sb) + CodeScores(b[n], traceId) == sa + (sb + CodeScores(b[n], traceId));
    }
  }

  /** Sends one score and states the outcome in terms of `SendAll`. */
  method Send(sink: ScoreSink, s: Score) returns (error: Option<string>)
    modifies sink
    ensures sink.scores == old(sink.scores) + SendAll([s], sink.failure).0
    ensures error == SendAll([s], sink.failure).1
  {
    error := sink.CreateScore(s);
  }

  /** The three aggregate scores. */
  method SendHeaderScores(sink: ScoreSink, ev: MedicalCodingJudgeOutput, traceId: string)
    returns (error: Option<string>)
    modifies sink
    ensures var sent := SendAll(HeaderScores(ev, traceId), sink.failure);
      sink.scores == old(sink.scores) + sent.0 && error == sent.1
  {
    var risk := RiskLevelValue(ev.complianceRisk);
    var overall := Score(traceId, "overall_score", ev.overallScore, None, Some("NUMERIC"));
    var verdict := Score(traceId, "overall_verdict", VerdictScore(ev.overallVerdict), Some(ev.summary), None);
    var compliance := Score(traceId, "compliance_risk", RiskScore(risk), Some("Risk Level: " + risk), None);
    SendAllConcat([overall], [verdict], sink.failure);
    SendAllConcat([overall, verdict], [compliance], sink.failure);
    assert [overall] + [verdict] == [overall, verdict];
    assert [overall, verdict] + [compliance] == HeaderScores(ev, traceId);
    error := Send(sink, overall);
    if error.Some? {
      return;
    }
    error := Send(sink, verdict);
    if error.Some? {
      return;
    }
    error := Send(sink, compliance);
  }

  /** One pass of the section loop, in terms of `SendAll`. */
  lemma SectionStep(ss: seq<SectionJudgement>, k: nat, traceId: string, failure: Score -> Option<string>)
    requires k < |ss| && SendAll(SectionScores(ss[..k], traceId), failure).1.None?
    ensures var done, s := SectionScores(ss[..k], traceId), SectionScore(ss[k], traceId);
      && SendAll([s], failure) == (if failure(s).Some? then ([], failure(s)) else ([s], None))
      && SectionScores(ss[..k + 1], traceId) == done + [s]
      && (failure(s).Some? ==> SendAll(SectionScores(ss, traceId), failure) == (done, failure(s)))
      && (failure(s).None? ==> SendAll(SectionScores(ss[..k + 1], traceId), failure).1.None?)
  {
    var s := SectionScore(ss[k], traceId);
    var done := SectionScores(ss[..k], traceId);
    var rest := SectionScores(ss[k + 1..], traceId);
    SendOne(s, failure);
    SectionScoresSplit(ss, k, traceId);
    SendAllNoError(done, failure);
    SendAllConcat(done, [s], failure);
    SendAllConcat(done + [s], rest, failure);
    assert done + [] == done;
  }

  lemma SendOne(s: Score, failure: Score -> Option<string>)
    ensures SendAll([s], failure) == (if failure(s).Some? then ([], failure(s)) else ([s], None))
  {
    assert [s][1..] == [];
    assert SendAll([s][1..], failure) == ([], None);
    assert [s] + [] == [s];
  }

  /** The section scores of a prefix grow by one score per section. */
  lemma SectionScoresSplit(ss: seq<SectionJudgement>, k: nat, traceId: string)
    requires k < |ss|
    ensures SectionScores(ss[..k + 1], traceId) == SectionScores(ss[..k], traceId) + [SectionScore(ss[k], traceId)]
    ensures SectionScores(ss, traceId) == SectionScores(ss[..k + 1], traceId) + SectionScores(ss[k + 1..], traceId)
  {
  }

  /** The loop over `section_judgements`. */
  method SendSectionScores(sink: ScoreSink, ss: seq<SectionJudgement>, traceId: string)
    returns (error: Option<string>)
    modifies sink
    ensures var sent := SendAll(SectionScores(ss, traceId), sink.failure);
      sink.scores == old(sink.scores) + sent.0 && error == sent.1
  {
    for k := 0 to |ss|
      invariant SendAll(SectionScores(ss[..k], traceId), sink.failure).1.None?
      invariant sink.scores == old(sink.scores) + SectionScores(ss[..k], traceId)
    {
      var s := SectionScore(ss[k], traceId);
      SectionStep(ss, k, traceId, sink.failure);
      error := Send(sink, s);
      if error.Some? {
        return;
      }
    }
    assert ss[..|ss|] == ss;
    SendAllNoError(SectionScores(ss, traceId), sink.failure);
    error := None;
  }

  /** One code's support score, then its linkage score when `linkage_valid` is set. */
  method SendCodeScores(sink: ScoreSink, c: CodeJudgement, traceId: string)
    returns (error: Option<string>)
    modifies sink
    ensures var sent := SendAll(CodeScores(c, traceId), sink.failure);
      sink.scores == old(sink.scores) + sent.0 && error == sent.1
  {
    var codeName := "code_" + c.code;
    var codeType := c.codeType;
    var support := Score(traceId, codeName + "_support",
                         SupportScore(SupportLevelValue(c.documentationSupport)), Some(SupportComment(c)), None);
    error := Send(sink, support);
    if error.Some? || c.linkageValid.None? {
      return;
    }
    var linkage := Score(traceId, codeType + "_" + codeName + "_linkage",
                         if c.linkageValid.value then 1.0 else 0.0, None, None);
    SendAllConcat([support], [linkage], sink.failure);
    assert [support] + [linkage] == CodeScores(c, traceId);
    error := Send(sink, linkage);
  }

  /**
   * Sending the scores of `cs` after those of `cs[..k]` were all accepted:
   * the outcome is decided by code k's own scores when one of them is
   * rejected, and code k's scores extend the accepted prefix otherwise.
   */
  lemma CodeScoresStep(cs: seq<CodeJudgement>, k: nat, traceId: string, failure: Score -> Option<string>)
    requires k < |cs|
    requires SendAll(AllCodeScores(cs[..k], traceId), failure).1.None?
    ensures var done, mine := AllCodeScores(cs[..k], traceId), CodeScores(cs[k], traceId);
      var rm := SendAll(mine, failure);
      && AllCodeScores(cs[..k + 1], traceId) == done + mine
      && (rm.1.Some? ==> SendAll(AllCodeScores(cs, traceId), failure) == (done + rm.0, rm.1))
      && (rm.1.None? ==> rm.0 == mine && SendAll(done + mine, failure).1.None?)
  {
    var done, mine := AllCodeScores(cs[..k], traceId), CodeScores(cs[k], traceId);
    var rest := AllCodeScores(cs[k + 1..], traceId);
    CodeScoresAround(cs, k, traceId);
    SendAllStep(done, mine, rest, failure);
  }

  lemma CodeScoresAround(cs: seq<CodeJudgement>, k: nat, traceId: string)
    requires k < |cs|
    ensures AllCodeScores(cs[..k + 1], traceId) == AllCodeScores(cs[..k], traceId) + CodeScores(cs[k], traceId)
    ensures AllCodeScores(cs, traceId) == AllCodeScores(cs[..k + 1], traceId) + AllCodeScores(cs[k + 1..], traceId)
  {
    assert cs[..k + 1][..k] == cs[..k];
    assert cs[..k + 1] + cs[k + 1..] == cs;
    AllCodeScoresConcat(cs[..k + 1], cs[k + 1..], traceId);
  }

  /** One step of a loop sending `mine` after the fully accepted `done`, with `rest` still to come. */
  lemma SendAllStep(done: seq<Score>, mine: seq<Score>, rest: seq<Score>, failure: Score -> Option<string>)
    requires SendAll(done, failure).1.None?
    ensures var rm := SendAll(mine, failure);
      && (rm.1.Some? ==> SendAll((done + mine) + rest, failure) == (done + rm.0, rm.1))
      && (rm.1.None? ==> rm.0 == mine && SendAll(done + mine, failure).1.None?)
  {
    SendAllConcat(done, mine, failure);
    SendAllConcat(done + mine, rest, failure);
    SendAllNoError(done, failure);
    if SendAll(mine, failure).1.None? {
      SendAllNoError(mine, failure);
    }
  }

  /** The loop over `code_judgements`. */
  method SendAllCodeScores(sink: ScoreSink, cs: seq<CodeJudgement>, traceId: string)
    returns (error: Option<string>)
    modifies sink
    ensures var sent := SendAll(AllCodeScores(cs, traceId), sink.failure);
      sink.scores == old(sink.scores) + sent.0 && error == sent.1
  {
    error := None;
    var k := 0;
    while k < |cs|
      invariant k <= |cs|
      invariant SendAll(AllCodeScores(cs[..k], traceId), sink.failure).1.None?
      invariant sink.scores == old(sink.scores) + AllCodeScores(cs[..k], traceId)
      invariant error == None
    {
      CodeScoresStep(cs, k, traceId, sink.failure);
      ghost var done := AllCodeScores(cs[..k], traceId);
      ghost var before := sink.scores;
      error := SendCodeScores(sink, cs[k], traceId);
      AppendAssoc(old(sink.scores), done, SendAll(CodeScores(cs[k], traceId), sink.failure).0);
      if error.Some? {
        return;
      }
      k := k + 1;
    }
    assert cs[..|cs|] == cs;
    SendAllNoError(AllCodeScores(cs, traceId), sink.failure);
  }

  lemma AppendAssoc(a: seq<Score>, b: seq<Score>, c: seq<Score>)
    ensures (a + b) + c == a + (b + c)
  {
  }

  /** Sending three lists in turn, each reached only if the ones before were fully accepted. */
  lemma SendAllThree(a: seq<Score>, b: seq<Score>, c: seq<Score>, failure: Score -> Option<string>)
    ensures var ra, rb, rc := SendAll(a, failure), SendAll(b, failure), SendAll(c, failure);
      SendAll(a + b + c, failure)
        == if ra.1.Some? then ra
           else if rb.1.Some? then (ra.0 + rb.0, rb.1)
           else (ra.0 + rb.0 + rc.0, rc.1)
  {
    SendAllConcat(a, b, failure);
    SendAllConcat(a + b, c, failure);
  }

  /**
   * `add_evaluation_scores`: sends the scores of `EvaluationScores` in
   * order; the log grows by those accepted before the first rejection,
   * whose message is returned.
   */
  method AddEvaluationScores(sink: ScoreSink, ev: MedicalCodingJudgeOutput, traceId: string)
    returns (error: Option<string>)
    modifies sink
    ensures var sent := SendAll(EvaluationScores(ev, traceId), sink.failure);
      sink.scores == old(sink.scores) + sent.0 && error == sent.1
  {
    ghost var failure := sink.failure;
    ghost var header, sections, codes :=
      HeaderScores(ev, traceId), SectionScores(ev.sectionJudgements, traceId), AllCodeScores(ev.codeJudgements, traceId);
    SendAllThree(header, sections, codes, failure);
    assert EvaluationScores(ev, traceId) == header + sections + codes;
    ghost var base := sink.scores;
    ghost var rh, rs, rc := SendAll(header, failure), SendAll(sections, failure), SendAll(codes, failure);
    error := SendHeaderScores(sink, ev, traceId);
    if error.None? {
      error := SendSectionScores(sink, ev.sectionJudgements, traceId);
      AppendAssoc(base, rh.0, rs.0);
      if error.None? {
        error := SendAllCodeScores(sink, ev.codeJudgements, traceId);
        AppendAssoc(base + rh.0, rs.0, rc.0);
        AppendAssoc(base, rh.0 + rs.0, rc.0);
        AppendAssoc(base, rh.0, rs.0);
      }
    }
  }

  // ---------------------------------------------------------------------
  // Properties of the translation
  // ---------------------------------------------------------------------

  /** The number of code judgements whose `linkage_valid` is set. */
  function LinkedCount(cs: seq<CodeJudgement>): nat {
    if cs == [] then 0
    else LinkedCount(cs[..|cs| - 1]) + (if cs[|cs| - 1].linkageValid.Some? then 1 else 0)
  }

  lemma {:induction false} AllCodeScoresFacts(cs: seq<CodeJudgement>, traceId: string)
    ensures var r := AllCodeScores(cs, traceId);
      && |r| == |cs| + LinkedCount(cs)
      && forall k :: 0 <= k < |r| ==> r[k].traceId == traceId && 0.0 <= r[k].value <= 1.0
  {
    if cs != [] {
      var init := cs[..|cs| - 1];
      AllCodeScoresFacts(init, traceId);
      var a, b := AllCodeScores(init, traceId), CodeScores(cs[|cs| - 1], traceId);
      var r: seq<Score> := a + b;
      forall k | 0 <= k < |r| ensures r[k].traceId == traceId && 0.0 <= r[k].value <= 1.0 {
        if k >= |a| {
          assert r[k] == b[k - |a|];
        }
      }
    }
  }

  /**
   * The translation emits 3 + #sections + #codes + #codes with a linkage
   * verdict scores, every one under the given trace id. Apart from
   * `overall_score`, which is passed through, every value lies in
   * [0.0, 1.0]; for a judge output that satisfies its schema, so does
   * `overall_score`.
   */
  lemma EvaluationScoresShape(ev: MedicalCodingJudgeOutput, traceId: string)
    ensures var r := EvaluationScores(ev, traceId);
      && |r| == 3 + |ev.sectionJudgements| + |ev.codeJudgements| + LinkedCount(ev.codeJudgements)
      && (forall k :: 0 <= k < |r| ==> r[k].traceId == traceId)
      && (forall k :: 1 <= k < |r| ==> 0.0 <= r[k].value <= 1.0)
      && (ValidJudgeOutput(ev) ==> forall k :: 0 <= k < |r| ==> 0.0 <= r[k].value <= 1.0)
  {
    var h := HeaderScores(ev, traceId);
    var ss := SectionScores(ev.sectionJudgements, traceId);
    var cs := AllCodeScores(ev.codeJudgements, traceId);
    HeaderScoresFacts(ev, traceId);
    SectionScoresFacts(ev.sectionJudgements, traceId);
    AllCodeScoresFacts(ev.codeJudgements, traceId);
    var r := h + ss + cs;
    assert r[0] == h[0];
    forall k | 0 <= k < |r| ensures r[k].traceId == traceId && (k >= 1 ==> 0.0 <= r[k].value <= 1.0) {
      if k >= |h| + |ss| {
        assert r[k] == cs[k - |h| - |ss|];
      } else if k >= |h| {
        assert r[k] == ss[k - |h|];
      } else {
        assert r[k] == h[k];
      }
    }
  }

  lemma HeaderScoresFacts(ev: MedicalCodingJudgeOutput, traceId: string)
    ensures var h := HeaderScores(ev, traceId);
      && |h| == 3 && h[0].value == ev.overallScore
      && forall k :: 0 <= k < 3 ==> h[k].traceId == traceId && (k >= 1 ==> 0.0 <= h[k].value <= 1.0)
  {
    VerdictScoreRange(ev.overallVerdict);
    RiskScoreRange(RiskLevelValue(ev.complianceRisk));
  }

  lemma SectionScoresFacts(ss: seq<SectionJudgement>, traceId: string)
    ensures forall k :: 0 <= k < |ss| ==>
      SectionScores(ss, traceId)[k].traceId == traceId && 0.0 <= SectionScores(ss, traceId)[k].value <= 1.0
  {
    forall k | 0 <= k < |ss|
      ensures SectionScores(ss, traceId)[k].traceId == traceId && 0.0 <= SectionScores(ss, traceId)[k].value <= 1.0
    {
      VerdictScoreRange(ss[k].verdict);
    }
  }

  lemma VerdictScoreRange(v: Verdict)
    ensures 0.0 <= VerdictScore(v) <= 1.0
  {
  }

  lemma RiskScoreRange(risk: string)
    ensures 0.0 <= RiskScore(risk) <= 1.0
  {
  }

  /**
   * The first three scores: `overall_score` passed through as NUMERIC,
   * `overall_verdict` as 1 exactly for "pass" with the summary as comment,
   * and `compliance_risk` as 1.0 / 0.5 / 0.0 for low / medium / high with
   * comment "Risk Level: <risk>". Then one score per section, in list
   * order, named `section_<section>_verdict`, valued 1 exactly for "pass",
   * commented with its notes.
   */
  lemma EvaluationScoresHeaderAndSections(ev: MedicalCodingJudgeOutput, traceId: string)
    ensures var r := EvaluationScores(ev, traceId);
      var risk := ev.complianceRisk;
      && |r| >= 3 + |ev.sectionJudgements|
      && r[0] == Score(traceId, "overall_score", ev.overallScore, None, Some("NUMERIC"))
      && r[1].name == "overall_verdict" && r[1].comment == Some(ev.summary)
      && (r[1].value == 1.0 <==> ev.overallVerdict == Pass) && (r[1].value == 0.0 <==> ev.overallVerdict == Fail)
      && r[2].name == "compliance_risk" && r[2].comment == Some("Risk Level: " + RiskLevelValue(risk))
      && r[2].value == (if risk == Low then 1.0 else if risk == Medium then 0.5 else 0.0)
      && forall k :: 0 <= k < |ev.sectionJudgements| ==>
           var s := ev.sectionJudgements[k];
           && r[3 + k].name == "section_" + s.section + "_verdict"
           && r[3 + k].comment == s.notes
           && (r[3 + k].value == 1.0 <==> s.verdict == Pass)
           && (r[3 + k].value == 0.0 <==> s.verdict == Fail)
  {
    var h := HeaderScores(ev, traceId);
    var ss := SectionScores(ev.sectionJudgements, traceId);
    var r := h + ss + AllCodeScores(ev.codeJudgements, traceId);
    forall k | 0 <= k < |ev.sectionJudgements| ensures r[3 + k] == ss[k] {
    }
  }

  /**
   * A code's scores: first `code_<code>_support`, valued 1.0 / 0.5 / 0.0
   * for fully supported / partially supported / hallucinated, commented
   * with the term match and the issues; then, exactly when `linkage_valid`
   * is set, `<code_type>_code_<code>_linkage`, valued 1 exactly when it is
   * true.
   */
  lemma CodeScoresContent(c: CodeJudgement, traceId: string)
    ensures var r := CodeScores(c, traceId);
      && |r| == 1 + (if c.linkageValid.Some? then 1 else 0)
      && r[0].name == "code_" + c.code + "_support"
      && r[0].comment == Some("Term match: " + PyBool(c.termMatch) + ", Issues: " + IssuesText(c.issues))
      && r[0].value == (match c.documentationSupport
                        case FullySupported => 1.0
                        case PartiallySupported => 0.5
                        case Hallucinated => 0.0)
      && (c.linkageValid.Some? ==>
            && r[1].name == c.codeType + "_code_" + c.code + "_linkage"
            && r[1].comment == None
            && (r[1].value == 1.0 <==> c.linkageValid.value)
            && (r[1].value == 0.0 <==> !c.linkageValid.value))
  {
    assert "code_" + c.code + "_support" == ("code_" + c.code) + "_support";
    assert c.codeType + "_code_" + c.code + "_linkage" == c.codeType + "_" + ("code_" + c.code) + "_linkage";
  }

  /**
   * The scores of code k follow the header, the sections and the scores of
   * the codes before it, and the next code's scores follow them directly.
   */
  lemma EvaluationScoresCodesAt(ev: MedicalCodingJudgeOutput, traceId: string, k: nat)
    requires k < |ev.codeJudgements|
    ensures var r := EvaluationScores(ev, traceId);
      var cs := ev.codeJudgements;
      var at := 3 + |ev.sectionJudgements| + k + LinkedCount(cs[..k]);
      var next := 3 + |ev.sectionJudgements| + (k + 1) + LinkedCount(cs[..k + 1]);
      && at <= next <= |r|
      && r[at..next] == CodeScores(cs[k], traceId)
  {
    var cs := ev.codeJudgements;
    var hs := HeaderScores(ev, traceId) + SectionScores(ev.sectionJudgements, traceId);
    var before, mine, after := AllCodeScores(cs[..k], traceId), CodeScores(cs[k], traceId), AllCodeScores(cs[k + 1..], traceId);
    CodeScoresAround(cs, k, traceId);
    AllCodeScoresLength(cs[..k], traceId);
    assert |mine| == 1 + (if cs[k].linkageValid.Some? then 1 else 0);
    assert cs[..k + 1][..k] == cs[..k];
    assert cs[..k + 1][k] == cs[k];
    assert LinkedCount(cs[..k + 1]) == LinkedCount(cs[..k]) + (if cs[k].linkageValid.Some? then 1 else 0);
    assert |hs| == 3 + |ev.sectionJudgements|;
    assert EvaluationScores(ev, traceId) == hs + ((before + mine) + after);
    SliceOfMiddle(hs, before, mine, after);
  }

  lemma AllCodeScoresLength(cs: seq<CodeJudgement>, traceId: string)
    ensures |AllCodeScores(cs, traceId)| == |cs| + LinkedCount(cs)
  {
    AllCodeScoresFacts(cs, traceId);
  }

  lemma SliceOfMiddle(a: seq<Score>, b: seq<Score>, m: seq<Score>, c: seq<Score>)
    ensures (a + ((b + m) + c))[|a| + |b|..|a| + |b| + |m|] == m
  {
    var r := a + ((b + m) + c);
    assert forall j :: 0 <= j < |m| ==> r[|a| + |b| + j] == m[j];
  }
}
