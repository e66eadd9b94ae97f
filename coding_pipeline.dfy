/**
 * The coding pipeline (backend/app/services/coding_pipeline.py):
 * preprocess the clinical text, run the crew, map its task outputs by
 * position into a coding result, optionally have the judge evaluate the
 * structured outputs and record the judge's scores, and turn any failure
 * into a failed response. The crew engine, the judge and the score client
 * are oracles; the trace id is supplied to the run.
 */
module CodingPipeline {
  import opened Wrappers
  import opened TextUtils
  import opened JudgeModels
  import opened Responses
  import opened Crew
  import opened TracingService
  import opened PdfExtractor

  /** The judge chain: clinical note and structured outputs to a raw verdict; may raise. */
  type Judge = (string, seq<StructuredOutput>) -> Result<MedicalCodingJudgeOutput, string>

  /** The message of the validation error raised when the judge's answer breaks the judge schema. */
  const JudgeValidationMessage: string := "validation error for MedicalCodingJudgeOutput"

  /** `judge_service.evaluate`: the judge's answer, validated against the judge schema. */
  function Evaluate(judge: Judge, clinicalNote: string, codingOutput: seq<StructuredOutput>)
    : (r: Result<MedicalCodingJudgeOutput, string>)
    ensures r.Success? ==> ValidJudgeOutput(r.value) && judge(clinicalNote, codingOutput) == Success(r.value)
    ensures r.Success? <==>
      judge(clinicalNote, codingOutput).Success? && ValidJudgeOutput(judge(clinicalNote, codingOutput).value)
    ensures judge(clinicalNote, codingOutput).Failure? ==> r == Failure(judge(clinicalNote, codingOutput).error)
    ensures judge(clinicalNote, codingOutput).Success? && !ValidJudgeOutput(judge(clinicalNote, codingOutput).value)
      ==> r == Failure(JudgeValidationMessage)
  {
    match judge(clinicalNote, codingOutput)
    case Failure(e) => Failure(e)
    case Success(o) => if ValidJudgeOutput(o) then Success(o) else Failure(JudgeValidationMessage)
  }

  // ---------------------------------------------------------------------
  // Mapping task outputs to the coding result
  // ---------------------------------------------------------------------

  /** `json_data`: the structured outputs of the tasks that have one, in task order. */
  function StructuredOutputs(tasks: seq<TaskOutput>): seq<StructuredOutput> {
    if tasks == [] then []
    else
      StructuredOutputs(tasks[..|tasks| - 1])
      + (match tasks[|tasks| - 1].pydantic case Some(p) => [p] case None => [])
  }

  /** The structured output of the task at position i, if there is such a task. */
  function OutputAt(tasks: seq<TaskOutput>, i: nat): Option<StructuredOutput> {
    if i < |tasks| then tasks[i].pydantic else None
  }

  /** The coding result after the loop: position 0 to entities, 1 to ICD, 2 to HCPCS, 3 to CPT. */
  function CodingResultOf(tasks: seq<TaskOutput>): CodingResult {
    CodingResult(
      entities := OutputAt(tasks, 0),
      icdCodes := OutputAt(tasks, 1),
      cptCodes := OutputAt(tasks, 3),
      hcpcsCodes := OutputAt(tasks, 2))
  }

  /** The `for i, task_out in enumerate(crew_output.tasks_output)` loop. */
  method AssembleCodingResult(tasksOutput: seq<TaskOutput>)
    returns (jsonData: seq<StructuredOutput>, codingResult: CodingResult)
    ensures jsonData == StructuredOutputs(tasksOutput)
    ensures codingResult == CodingResultOf(tasksOutput)
  {
    jsonData := [];
    codingResult := EmptyCodingResult();
    for i := 0 to |tasksOutput|
      invariant jsonData == StructuredOutputs(tasksOutput[..i])
      invariant codingResult == CodingResultOf(tasksOutput[..i])
    {
      var taskOut := tasksOutput[i];
      assert tasksOutput[..i + 1][..i] == tasksOutput[..i];
      if taskOut.pydantic.Some? {
        jsonData := jsonData + [taskOut.pydantic.value];
        if i == 0 {
          codingResult := codingResult.(entities := taskOut.pydantic);
        } else if i == 1 {
          codingResult := codingResult.(icdCodes := taskOut.pydantic);
        } else if i == 2 {
          codingResult := codingResult.(hcpcsCodes := taskOut.pydantic);
        } else if i == 3 {
          codingResult := codingResult.(cptCodes := taskOut.pydantic);
        }
      }
    }
    assert tasksOutput[..|tasksOutput|] == tasksOutput;
  }

  /** The positions of the tasks that have a structured output, in increasing order. */
  function StructuredPositions(tasks: seq<TaskOutput>): seq<nat> {
    if tasks == [] then []
    else
      StructuredPositions(tasks[..|tasks| - 1])
      + (if tasks[|tasks| - 1].pydantic.Some? then [|tasks| - 1] else [])
  }

  /**
   * `json_data` holds exactly the structured outputs, in task order: its
   * j-th element comes from the task at the j-th of the strictly
   * increasing positions, and a position occurs exactly when that task
   * has a structured output. A task without one adds nothing but still
   * uses up its position.
   */
  lemma {:induction false} StructuredOutputsInOrder(tasks: seq<TaskOutput>)
    ensures var json, pos := StructuredOutputs(tasks), StructuredPositions(tasks);
      && |json| == |pos|
      && (forall j :: 0 <= j < |pos| ==> pos[j] < |tasks| && tasks[pos[j]].pydantic == Some(json[j]))
      && (forall j, l :: 0 <= j < l < |pos| ==> pos[j] < pos[l])
      && (forall i :: 0 <= i < |tasks| ==> (tasks[i].pydantic.Some? <==> i in pos))
  {
    if tasks != [] {
      var n := |tasks| - 1;
      var init := tasks[..n];
      StructuredOutputsInOrder(init);
      assert forall i :: 0 <= i < n ==> init[i] == tasks[i];
      var json, json0 := StructuredOutputs(tasks), StructuredOutputs(init);
      var pos, pos0 := StructuredPositions(tasks), StructuredPositions(init);
      if tasks[n].pydantic.Some? {
        assert json == json0 + [tasks[n].pydantic.value];
        assert pos == pos0 + [n];
      } else {
        assert json == json0;
        assert pos == pos0;
      }
      assert forall j :: 0 <= j < |pos0| ==> pos[j] == pos0[j] && json[j] == json0[j];
      forall i | 0 <= i < |tasks| ensures tasks[i].pydantic.Some? <==> i in pos {
        if i < n {
          assert i in pos0 <==> i in pos;
        }
      }
    }
  }

  /** `json_data` is empty exactly when no task has a structured output. */
  lemma StructuredOutputsEmpty(tasks: seq<TaskOutput>)
    ensures StructuredOutputs(tasks) == [] <==> forall i :: 0 <= i < |tasks| ==> tasks[i].pydantic.None?
  {
    StructuredOutputsInOrder(tasks);
    var pos := StructuredPositions(tasks);
    if StructuredOutputs(tasks) != [] {
      assert pos[0] in pos;
    }
  }

  /**
   * The positional mapping agrees with the crew's task order: when each
   * task among the first four produced the schema of its stage in
   * `TaskOrder`, every slot of the coding result holds the schema it is
   * declared with.
   */
  lemma SlotsFollowTaskOrder(tasks: seq<TaskOutput>, verbose: bool)
    requires forall i :: 0 <= i < |tasks| && i < |TaskOrder| && tasks[i].pydantic.Some? ==>
      HasStageSchema(TaskOrder[i], tasks[i].pydantic.value)
    ensures WellTypedCodingResult(CodingResultOf(tasks))
    ensures forall i :: 0 <= i < |TaskOrder| ==> StandardCrew(verbose).tasks[i].stage == TaskOrder[i]
  {
  }

  /** Task outputs after the fourth reach no slot. */
  lemma LaterTasksReachNoSlot(tasks: seq<TaskOutput>, extra: seq<TaskOutput>)
    requires |tasks| >= |TaskOrder|
    ensures CodingResultOf(tasks + extra) == CodingResultOf(tasks)
  {
    assert forall i :: 0 <= i < |tasks| ==> (tasks + extra)[i] == tasks[i];
  }

  // ---------------------------------------------------------------------
  // A whole run
  // ---------------------------------------------------------------------

  /** What a run returns, and the scores it recorded with the score client. */
  datatype RunOutcome = RunOutcome(response: PipelineResponse, scores: seq<Score>)

  /** The run once the crew has answered. */
  function AfterCrew(text: string, includeEvaluation: bool, traceId: string, out: CrewOutput,
                     judge: Judge, scoreFailure: Score -> Option<string>): RunOutcome
  {
    var json := StructuredOutputs(out.tasksOutput);
    var result := CodingResultOf(out.tasksOutput);
    if includeEvaluation && |json| > 0 then
      match Evaluate(judge, text, json)
      case Failure(e) => RunOutcome(FailedResponse(e), [])
      case Success(ev) =>
        var sent := SendAll(EvaluationScores(ev, traceId), scoreFailure);
        match sent.1
        case Some(e) => RunOutcome(FailedResponse(e), sent.0)
        case None =>
          RunOutcome(PipelineResponse(true, Some(traceId), Some(result), Some(ev), Some(out.tokenUsage), None), sent.0)
    else
      RunOutcome(PipelineResponse(true, Some(traceId), Some(result), None, Some(out.tokenUsage), None), [])
  }

  /** `process_text` on the raw text, with the standard crew. */
  function ProcessTextRun(raw: string, includeEvaluation: bool, traceId: string, verbose: bool,
                          engine: CrewEngine, judge: Judge, scoreFailure: Score -> Option<string>): RunOutcome
  {
    var text := PreprocessMedicalText(raw);
    match engine(StandardCrew(verbose), map[ReportTextKey := text])
    case Failure(e) => RunOutcome(FailedResponse(e), [])
    case Success(out) => AfterCrew(text, includeEvaluation, traceId, out, judge, scoreFailure)
  }

  /** `CodingPipelineService`: a crew of its own, and the judge and score client it reports to. */
  class CodingPipelineService {
    const verbose: bool
    const crew: MedicalCodingCrew
    const engine: CrewEngine
    const judge: Judge
    const sink: ScoreSink

    ghost predicate Valid()
      reads this, crew
    {
      crew.Valid() && crew.verbose == verbose && crew != sink as object
    }

    constructor(verbose: bool, engine: CrewEngine, judge: Judge, sink: ScoreSink)
      ensures Valid() && fresh(crew) && !crew.initialized
      ensures this.verbose == verbose && this.engine == engine && this.judge == judge && this.sink == sink
    {
      this.verbose := verbose;
      var c := GetMedicalCodingCrew(verbose);
      crew := c;
      this.engine := engine;
      this.judge := judge;
      this.sink := sink;
    }

    /** `process_text`, with the trace id the run creates supplied as `traceId`. */
    method ProcessText(medicalReportText: string, includeEvaluation: bool, traceId: string)
      returns (response: PipelineResponse)
      requires Valid()
      modifies crew, sink
      ensures Valid()
      ensures crew.initialized && crew.crew == Some(StandardCrew(verbose))
      ensures old(crew.initialized) ==> unchanged(crew)
      ensures var run := ProcessTextRun(medicalReportText, includeEvaluation, traceId, verbose,
                                        engine, judge, sink.failure);
        response == run.response && sink.scores == old(sink.scores) + run.scores
    {
      var text := PreprocessMedicalText(medicalReportText);
      var crewOutput := crew.Kickoff(engine, text);
      if crewOutput.Failure? {
        return FailedResponse(crewOutput.error);
      }
      var jsonData, codingResult := AssembleCodingResult(crewOutput.value.tasksOutput);
      var evaluation: Option<MedicalCodingJudgeOutput> := None;
      if includeEvaluation && |jsonData| > 0 {
        var judged := Evaluate(judge, text, jsonData);
        if judged.Failure? {
          return FailedResponse(judged.error);
        }
        var scoreError := AddEvaluationScores(sink, judged.value, traceId);
        if scoreError.Some? {
          return FailedResponse(scoreError.value);
        }
        evaluation := Some(judged.value);
      }
      response := PipelineResponse(true, Some(traceId), Some(codingResult), evaluation,
                                   Some(crewOutput.value.tokenUsage), None);
    }

    /** `process_pdf`: extraction failure gives a failed response, otherwise exactly `process_text`. */
    method ProcessPdf(pdfPath: string, includeEvaluation: bool, traceId: string, fileExists: string -> bool,
                      open: string -> Result<seq<PdfPage>, LibError>)
      returns (response: PipelineResponse)
      requires Valid()
      modifies crew, sink
      ensures Valid()
      ensures ExtractFromPath(pdfPath, fileExists, open).Failure? ==> unchanged(crew)
      ensures ExtractFromPath(pdfPath, fileExists, open).Success? ==>
        crew.initialized && (old(crew.initialized) ==> unchanged(crew))
      ensures match ExtractFromPath(pdfPath, fileExists, open)
        case Failure(m) => response == FailedResponse(m) && sink.scores == old(sink.scores)
        case Success(text) =>
          var run := ProcessTextRun(text, includeEvaluation, traceId, verbose, engine, judge, sink.failure);
          response == run.response && sink.scores == old(sink.scores) + run.scores
    {
      var text := ExtractTextFromPdf(pdfPath, fileExists, open);
      if text.Failure? {
        return FailedResponse(text.error);
      }
      response := ProcessText(text.value, includeEvaluation, traceId);
    }

    /** `process_pdf_bytes`: the same, extracting from the uploaded bytes. */
    method ProcessPdfBytes(pdfBytes: seq<byte>, includeEvaluation: bool, traceId: string,
                           openStream: seq<byte> -> Result<seq<PdfPage>, LibError>)
      returns (response: PipelineResponse)
      requires Valid()
      modifies crew, sink
      ensures Valid()
      ensures ExtractFromBytes(pdfBytes, openStream).Failure? ==> unchanged(crew)
      ensures ExtractFromBytes(pdfBytes, openStream).Success? ==>
        crew.initialized && (old(crew.initialized) ==> unchanged(crew))
      ensures match ExtractFromBytes(pdfBytes, openStream)
        case Failure(m) => response == FailedResponse(m) && sink.scores == old(sink.scores)
        case Success(text) =>
          var run := ProcessTextRun(text, includeEvaluation, traceId, verbose, engine, judge, sink.failure);
          response == run.response && sink.scores == old(sink.scores) + run.scores
    {
      var text := ExtractTextFromBytes(pdfBytes, openStream);
      if text.Failure? {
        return FailedResponse(text.error);
      }
      response := ProcessText(text.value, includeEvaluation, traceId);
    }
  }

  // ---------------------------------------------------------------------
  // Properties of a run
  // ---------------------------------------------------------------------

  /**
   * A failed response carries only its error: no trace id, coding result,
   * evaluation or token usage. A successful one carries the run's trace
   * id, a coding result and the token usage, and no error.
   */
  lemma ResponseShape(raw: string, includeEvaluation: bool, traceId: string, verbose: bool,
                      engine: CrewEngine, judge: Judge, scoreFailure: Score -> Option<string>)
    ensures var r := ProcessTextRun(raw, includeEvaluation, traceId, verbose, engine, judge, scoreFailure).response;
      && (!r.success ==> r.error.Some? && r.traceId.None? && r.codingResult.None? && r.evaluation.None? && r.tokenUsage.None?)
      && (r.success ==> r.error.None? && r.traceId == Some(traceId) && r.codingResult.Some? && r.tokenUsage.Some?)
  {
  }

  /**
   * The crew and the judge see only the preprocessed text: runs on two
   * raw texts that preprocess alike are identical, and collaborators that
   * agree on the preprocessed text give identical runs.
   */
  lemma RunSeesOnlyPreprocessedText(raw: string, raw': string, includeEvaluation: bool, traceId: string,
                                    verbose: bool, engine: CrewEngine, engine': CrewEngine,
                                    judge: Judge, judge': Judge, scoreFailure: Score -> Option<string>)
    requires PreprocessMedicalText(raw) == PreprocessMedicalText(raw')
    requires var input := map[ReportTextKey := PreprocessMedicalText(raw)];
      engine(StandardCrew(verbose), input) == engine'(StandardCrew(verbose), input)
    requires forall json :: judge(PreprocessMedicalText(raw), json) == judge'(PreprocessMedicalText(raw), json)
    ensures ProcessTextRun(raw, includeEvaluation, traceId, verbose, engine, judge, scoreFailure)
         == ProcessTextRun(raw', includeEvaluation, traceId, verbose, engine', judge', scoreFailure)
  {
  }

  /**
   * The judge is consulted only when evaluation is requested and some task
   * produced a structured output: otherwise the run is the same whatever
   * the judge does, records no score and has no evaluation. When an
   * evaluation is present it satisfies the judge schema and was judged on
   * the preprocessed text and the structured outputs.
   */
  lemma JudgeOnlyWhenRequested(raw: string, includeEvaluation: bool, traceId: string, verbose: bool,
                               engine: CrewEngine, judge: Judge, judge': Judge,
                               scoreFailure: Score -> Option<string>)
    ensures var text := PreprocessMedicalText(raw);
      var crewRun := engine(StandardCrew(verbose), map[ReportTextKey := text]);
      var run := ProcessTextRun(raw, includeEvaluation, traceId, verbose, engine, judge, scoreFailure);
      && ((crewRun.Failure? || !includeEvaluation || StructuredOutputs(crewRun.value.tasksOutput) == []) ==>
            && run == ProcessTextRun(raw, includeEvaluation, traceId, verbose, engine, judge', scoreFailure)
            && run.scores == [] && run.response.evaluation.None?)
      && (run.response.evaluation.Some? ==>
            && crewRun.Success? && includeEvaluation
            && var json := StructuredOutputs(crewRun.value.tasksOutput);
               |json| > 0 && ValidJudgeOutput(run.response.evaluation.value)
               && judge(text, json) == Success(run.response.evaluation.value))
  {
  }

  lemma {:induction false} SendAllPrefix(pending: seq<Score>, failure: Score -> Option<string>)
    ensures |SendAll(pending, failure).0| <= |pending|
    ensures SendAll(pending, failure).0 == pending[..|SendAll(pending, failure).0|]
    ensures SendAll(pending, failure).1.None? ==> SendAll(pending, failure).0 == pending
  {
    if pending != [] {
      SendAllPrefix(pending[1..], failure);
      if failure(pending[0]).None? {
        var rest := SendAll(pending[1..], failure).0;
        assert pending[..|rest| + 1] == [pending[0]] + pending[1..][..|rest|];
        assert [pending[0]] + pending[1..] == pending;
      }
    }
  }

  /**
   * The scores a run records are a prefix of the judge's scores, all under
   * the run's trace id. A failed judge call or a rejected score makes the
   * whole run fail with that message, discarding the coding result already
   * assembled; a successful evaluation means every score was recorded.
   */
  lemma ScoresAfterCrew(text: string, includeEvaluation: bool, traceId: string, out: CrewOutput,
                        judge: Judge, scoreFailure: Score -> Option<string>)
    ensures var run := AfterCrew(text, includeEvaluation, traceId, out, judge, scoreFailure);
      && (forall k :: 0 <= k < |run.scores| ==> run.scores[k].traceId == traceId)
      && (includeEvaluation && StructuredOutputs(out.tasksOutput) != [] ==>
            var ev := Evaluate(judge, text, StructuredOutputs(out.tasksOutput));
            && (ev.Failure? ==> run == RunOutcome(FailedResponse(ev.error), []))
            && (ev.Success? ==>
                  var all := EvaluationScores(ev.value, traceId);
                  var sent := SendAll(all, scoreFailure);
                  && |run.scores| <= |all| && run.scores == all[..|run.scores|]
                  && (sent.1.Some? ==> run.response == FailedResponse(sent.1.value))
                  && (sent.1.None? ==>
                        && run.scores == all && run.response.success
                        && run.response.codingResult == Some(CodingResultOf(out.tasksOutput))
                        && run.response.evaluation == Some(ev.value))))
  {
    var json := StructuredOutputs(out.tasksOutput);
    if includeEvaluation && |json| > 0 {
      var ev := Evaluate(judge, text, json);
      if ev.Success? {
        var all := EvaluationScores(ev.value, traceId);
        SendAllPrefix(all, scoreFailure);
        EvaluationScoresShape(ev.value, traceId);
        var run := AfterCrew(text, includeEvaluation, traceId, out, judge, scoreFailure);
        assert run.scores == SendAll(all, scoreFailure).0;
        forall k | 0 <= k < |run.scores| ensures run.scores[k].traceId == traceId {
          assert run.scores[k] == all[k];
        }
      }
    }
  }

  /** The same for a whole run: when the crew fails, nothing is recorded. */
  lemma ScoresOfRun(raw: string, includeEvaluation: bool, traceId: string, verbose: bool,
                    engine: CrewEngine, judge: Judge, scoreFailure: Score -> Option<string>)
    ensures var crewRun := engine(StandardCrew(verbose), map[ReportTextKey := PreprocessMedicalText(raw)]);
      var run := ProcessTextRun(raw, includeEvaluation, traceId, verbose, engine, judge, scoreFailure);
      && (crewRun.Failure? ==> run == RunOutcome(FailedResponse(crewRun.error), []))
      && (crewRun.Success? ==>
            run == AfterCrew(PreprocessMedicalText(raw), includeEvaluation, traceId, crewRun.value, judge, scoreFailure))
      && (forall k :: 0 <= k < |run.scores| ==> run.scores[k].traceId == traceId)
  {
    var crewRun := engine(StandardCrew(verbose), map[ReportTextKey := PreprocessMedicalText(raw)]);
    if crewRun.Success? {
      ScoresAfterCrew(PreprocessMedicalText(raw), includeEvaluation, traceId, crewRun.value, judge, scoreFailure);
    }
  }
}
