# Medical coding pipeline in Dafny

This project models the deterministic core of the medi-suite_AI backend, a
service that assigns ICD-10-CM, CPT and HCPCS codes to a clinical document
and then has an LLM judge audit its own output. The LLMs, the vector index,
the embedding model, the TOON encoder, PyMuPDF, Tesseract and Langfuse are
all outside the model. Each of them appears as an oracle: a function-typed
parameter or field that may fail. The model covers the logic around those
calls:

- **Text preprocessing** (`TextUtils`, with Python's `str.strip`,
  `str.split` and `str.join` in `PyStr`). It covers `clean_text`,
  `normalize_whitespace` and `preprocess_medical_text`.
- **Response compression** (`Compression`). The generic projection is
  `id`/`desc`/`score` and the ICD projection is
  `id`/`category`/`disease`/`score`, with the score rounded to four decimals.
- **The three vector-search tools** (`VectorSearch`, `IcdSearchTool`,
  `CptSearchTool`, `HcpcsSearchTool`). For each term, in order, the tool:
  - rejects it if it is not a string;
  - embeds it;
  - queries the index with top_k 5;
  - projects and encodes the answer;
  - formats a block.

  The blocks are then joined by a blank line. The embedding, the index and
  the encoder are oracles, and every call to them is logged.
- **The crew** (`Crew`): the `MedicalCodingCrew` class with its lazy
  `initialize`. It runs the four tasks in the order entity, ICD, HCPCS,
  CPT. Running the crew is an oracle.
- **Recording the judge's scores** (`TracingService`). A verdict is
  translated into an ordered list of named scores. With `ScoreSink`, the
  score client, the method sends them one by one and stops at the first
  rejected score.
- **PDF extraction** (`PdfExtractor`). It covers the existence and suffix
  checks, direct page text with an OCR fallback, cleaning, joining and
  error wrapping, from a path and from bytes.
- **The pipeline** (`CodingPipeline`): the `CodingPipelineService` class.
  It preprocesses, runs the crew, maps task outputs by position, calls the
  judge only when asked and when there is something to judge, and records
  the scores. Any failure becomes a failed response.
- **The record schemas**: `JudgeModels`, `IcdModels`, `CptModels`,
  `HcpcsModels`, `Entities` and `Responses`. Each is a datatype plus a
  validity predicate for its field constraints.
- **CORS origin parsing** (`Config`).

Each stateful operation is a method proved against a specification
function. For example, `SearchTerms` is proved against `Run`,
`AddEvaluationScores` against `SendAll` of `EvaluationScores`,
`ReadPages` against `DocumentText` and `ProcessText` against
`ProcessTextRun`. The lemmas then state what the source promises about
those functions.

Three facts about the code that a reader might expect otherwise:

- **Retrieval is per term.** Each search tool makes one embedding call
  and one index query for every query term, one term after another; see
  `VectorSearch.RunAllSucceedCalls`.
- **A failed run keeps nothing.** A failed run returns only its error
  message. A coding result that was already assembled is dropped; see
  `CodingPipeline.ResponseShape` and `CodingPipeline.ScoresAfterCrew`.
- **The stages run in a fixed order.** The crew runs its four tasks one
  after another: entities, ICD-10, HCPCS, then CPT; see
  `Crew.StandardCrewOrder`.

## Model

| member | source | states |
|---|---|---|
| PyStr.Strip | backend/app/utils/text_utils.py:38 | `str.strip()` gives the infix between the leading and trailing whitespace runs (Python's full `isspace` set). It has no whitespace at either end, and it is empty exactly when the input is all whitespace |
| PyStr.StripFixpoint | backend/app/utils/text_utils.py:38 | stripping leaves a string unchanged exactly when it is already trimmed |
| PyStr.StripIdempotent | backend/app/utils/text_utils.py:38 | stripping twice is stripping once |
| PyStr.Join | backend/app/services/pdf_extractor.py:64 | `sep.join(parts)`: a single part is returned unchanged; `PyStr.JoinSplit` shows that joining undoes `Split` |
| PyStr.Split | backend/app/core/config.py:46 | `str.split(sep)` gives one field per separator plus one, and no field contains the separator |
| PyStr.JoinSplit | backend/app/core/config.py:46 | joining the fields of a split with the separator gives back the original string |
| TextUtils.CleanText | backend/app/utils/text_utils.py:20 | the result holds only 0x20–0x7E, `\n`, `\r` and `\t`, and is no longer than the input |
| TextUtils.CleanTextCounts | backend/app/utils/text_utils.py:20 | every kept character occurs as often as in the input; every other character is gone |
| TextUtils.CleanTextSubsequence | backend/app/utils/text_utils.py:20 | the result is a subsequence of the input, so order is preserved |
| TextUtils.CleanTextFixpoint | backend/app/utils/text_utils.py:20 | cleaning leaves a string unchanged exactly when every character is in the kept class |
| TextUtils.CleanTextIdempotent | backend/app/utils/text_utils.py:20 | cleaning twice is cleaning once |
| TextUtils.CleanTextConcat | backend/app/utils/text_utils.py:20 | cleaning works character by character: the cleaning of a concatenation is the concatenation of the cleanings |
| TextUtils.CollapseBlanks | backend/app/utils/text_utils.py:35 | `re.sub(r'[ \t]+', ' ', text)`: the result is empty exactly when the input is; it starts with a space where the input starts with a blank and with the input's first character otherwise; every character of the result is a space or occurs in the input |
| TextUtils.CollapseBlanksShape | backend/app/utils/text_utils.py:35 | after `[ \t]+` → `' '` there is no tab and no two adjacent spaces |
| TextUtils.CollapseBlanksFixpoint | backend/app/utils/text_utils.py:35 | the substitution changes nothing exactly when the text has no tab and no double space |
| TextUtils.CollapseBlanksKeepsText | backend/app/utils/text_utils.py:35 | apart from spaces and tabs, the characters are unchanged and in order |
| TextUtils.CollapseBlanksRun | backend/app/utils/text_utils.py:35 | a maximal run of spaces and tabs becomes exactly one space, and the text on either side of it is collapsed on its own |
| TextUtils.CollapseNewlines | backend/app/utils/text_utils.py:37 | `re.sub(r'\n{3,}', '\n\n', text)`: the result is empty exactly when the input is, and starts with the input's first character |
| TextUtils.CollapseNewlinesShape | backend/app/utils/text_utils.py:37 | after `\n{3,}` → `\n\n` there is no run of three newlines |
| TextUtils.CollapseNewlinesFixpoint | backend/app/utils/text_utils.py:37 | the substitution changes nothing exactly when there is no run of three newlines |
| TextUtils.CollapseNewlinesSubsequence | backend/app/utils/text_utils.py:37 | the result is a subsequence of the input |
| TextUtils.CollapseNewlinesKeepsSingleSpaces | backend/app/utils/text_utils.py:35-37 | collapsing newline runs cannot create two adjacent spaces |
| TextUtils.CollapseNewlinesKeepsText | backend/app/utils/text_utils.py:37 | apart from newlines, the characters are unchanged and in order |
| TextUtils.CollapseNewlinesRun | backend/app/utils/text_utils.py:37 | a maximal run of three or more newlines becomes exactly `\n\n`, a run of one or two newlines stays as it is, and the text on either side is collapsed on its own |
| TextUtils.NormalizeWhitespaceShape | backend/app/utils/text_utils.py:34-38 | `normalize_whitespace` output has no tab, no double space, no triple newline, and no leading or trailing whitespace |
| TextUtils.NormalizeWhitespaceFixpoint | backend/app/utils/text_utils.py:34-38 | text already in that shape is returned unchanged |
| TextUtils.NormalizeWhitespaceIdempotent | backend/app/utils/text_utils.py:34-38 | normalising twice is normalising once |
| TextUtils.NormalizeWhitespaceKeepsKept | backend/app/utils/text_utils.py:34-38 | normalising cleaned text keeps it within the kept class |
| TextUtils.PreprocessMedicalTextShape | backend/app/utils/text_utils.py:51-53 | `preprocess_medical_text` output contains only 0x20–0x7E, `\n` and `\r`, and is normalised |
| TextUtils.PreprocessMedicalTextIdempotent | backend/app/utils/text_utils.py:51-53 | preprocessing twice is preprocessing once |
| Config.CorsOriginsList | backend/app/core/config.py:44-46 | one entry per comma-separated field (commas + 1). Each entry is trimmed and holds no comma, and an entry is "" exactly when its field is all whitespace, so empty fields are kept |
| Config.CorsOriginsListFields | backend/app/core/config.py:46 | the fields rejoined with ',' give the setting back, and entry k is field k stripped, so order is kept |
| Config.SplitAtFirstSeparator | backend/app/core/config.py:46 | splitting `a + sep + b` where `a` has no separator gives `a` followed by the fields of `b` |
| Config.TwoOrigins | backend/app/core/config.py:46 | two trimmed comma-free origins joined by ',' parse back to exactly those two |
| Config.DefaultCorsOriginsList | backend/app/core/config.py:41-46 | the default setting gives `["http://localhost:3000", "http://127.0.0.1:3000"]` |
| Compression.Round4Properties | backend/app/utils/compression.py:24 | `round(x, 4)` is within 0.00005 of x, has at most four decimals, and is unchanged by rounding again |
| Compression.CompressVectorDbResponse | backend/app/utils/compression.py:9-29 | one generic entry per match, in order, holding the match's id, the `description` metadata or "", and the rounded score |
| Compression.CompressIcdVectorDbResponse | backend/app/utils/compression.py:32-53 | one ICD entry per match, in order, holding the id, `category` or "", `disease` or "", and the rounded score |
| Compression.CompressDropsOtherMetadata | backend/app/utils/compression.py:19-28 | matches that agree on id, score and `description` project identically, so every other metadata field is dropped |
| Compression.CompressIcdDropsOtherMetadata | backend/app/utils/compression.py:42-52 | matches that agree on id, score, `category` and `disease` project identically |
| VectorSearch.QueryStep | backend/app/tools/icd_search_tool.py:36-48 | handling one term first embeds it; a successful step also makes exactly one index query |
| VectorSearch.SearchTerm | backend/app/tools/icd_search_tool.py:36-51 | one pass of the loop body for a string term: embed, query the index with top_k = 5, compress and encode, stopping at the first service error; it equals `QueryStep` |
| VectorSearch.SearchTerms | backend/app/tools/icd_search_tool.py:30-60 | the loop returns the outcome of the term-by-term function `Run` and logs exactly its calls |
| VectorSearch.RunStopsAtError | backend/app/tools/icd_search_tool.py:32-34 | once an error is raised, later terms change nothing |
| VectorSearch.CountIndexQueriesConcat | backend/app/tools/icd_search_tool.py:40-44 | index queries count additively over a call log |
| VectorSearch.RunCallsWellFormed | backend/app/tools/icd_search_tool.py:37-44 | there are at most as many blocks and index queries as terms, and every index query goes to this tool's index with top_k 5 |
| VectorSearch.StepOkCalls | backend/app/tools/icd_search_tool.py:37-44 | a successful term issues exactly its embedding call and then one index query with its vector and top_k 5 |
| VectorSearch.RunExtendOk | backend/app/tools/icd_search_tool.py:50-52 | a successful term appends its block and its two calls to the state |
| VectorSearch.RunAllSucceed | backend/app/tools/icd_search_tool.py:30-60 | when every term succeeds there is no error and there is one block per term, in input order |
| VectorSearch.RunAllSucceedCalls | backend/app/tools/icd_search_tool.py:37-44 | when every term succeeds there are exactly 2 calls per term and one index query per term, in term order |
| VectorSearch.RunSucceedsIff | backend/app/tools/icd_search_tool.py:32-48 | the tool succeeds exactly when every term is a string whose embedding, query and encoding all succeed |
| VectorSearch.RunStopsAtNonString | backend/app/tools/icd_search_tool.py:32-34 | the first non-string term raises the ValueError with this tool's message, and the calls for the terms before it were already made |
| VectorSearch.RunNoTerms | backend/app/tools/icd_search_tool.py:30-60 | an empty term list gives "" and makes no call |
| VectorSearch.BlockShape | backend/app/tools/icd_search_tool.py:47-52 | a block is `Results for <label> term '<q>':\n` followed by the encoded projection of q's matches |
| IcdSearchTool.ICDVectorSearchTool | backend/app/tools/icd_search_tool.py:15-60 | the ICD tool runs the search with the ICD index and the ICD projection. Every index query goes to the ICD index with top_k 5, and it succeeds exactly when every term does |
| CptSearchTool.CPTVectorSearchTool | backend/app/tools/cpt_search_tool.py:15-60 | the same for the CPT index, with the generic projection and the "procedure term" label |
| HcpcsSearchTool.HCPCSVectorSearchTool | backend/app/tools/hcpcs_search_tool.py:15-60 | the same for the HCPCS index, with the generic projection and the "HCPCS term" label |
| Crew.StandardCrewOrder | backend/app/agents/crew.py:49-63 | the crew runs its tasks in the order entity, ICD, HCPCS, CPT, registers its agents in the same order, and gives each task the agent of its stage |
| Crew.TaskOrderCoversStages | backend/app/agents/crew.py:56-61 | each of the four stages occurs exactly once in the task order |
| Crew.MedicalCodingCrew.constructor | backend/app/agents/crew.py:28-31 | a new crew is uninitialised and holds no underlying crew |
| Crew.MedicalCodingCrew.Initialize | backend/app/agents/crew.py:33-65 | after the call the crew is initialised with the standard crew; a call on an initialised crew changes nothing |
| Crew.MedicalCodingCrew.Kickoff | backend/app/agents/crew.py:67-78 | initialises first, then runs the standard crew with the text under `medical_report_text` |
| Crew.MedicalCodingCrew.GetCrew | backend/app/agents/crew.py:80-84 | initialises first, then returns the standard crew |
| Crew.GetMedicalCodingCrew | backend/app/agents/crew.py:87-89 | returns a new, uninitialised crew |
| JudgeModels.VerdictOf | backend/app/models/judge_models.py:11-14 | exactly "pass" and "fail" are verdict values |
| JudgeModels.SupportLevelOf | backend/app/models/judge_models.py:17-21 | exactly 0, 1 and 2 are support levels |
| JudgeModels.RiskLevelOf | backend/app/models/judge_models.py:24-28 | exactly "low", "medium" and "high" are risk levels |
| JudgeModels.EnumValuesRoundTrip | backend/app/models/judge_models.py:11-28 | each enum member is found again from its value: HALLUCINATED=0, PARTIALLY_SUPPORTED=1, FULLY_SUPPORTED=2 |
| JudgeModels.JudgeOutputBounds | backend/app/models/judge_models.py:72-85 | both score bounds 0.0 and 1.0 are accepted, a 30-character summary is accepted and a 29-character one is not, and the judgement lists are unconstrained |
| IcdModels.ICDCodeConstraints | backend/app/models/icd_models.py:9-20 | for every code and description: a code with only its required field is valid, a code without a confidence is valid, and a code with a confidence is valid exactly when 0.0 ≤ confidence ≤ 1.0 |
| CptModels.CPTCodeConstraints | backend/app/models/cpt_models.py:9-26 | for every code, description and link list, the code is valid exactly when 0.0 ≤ confidence ≤ 1.0; an empty link list is accepted |
| HcpcsModels.HCPCSCodeConstraints | backend/app/models/hcpcs_models.py:9-28 | for every code, description and link list, the code is valid exactly when 0.0 ≤ confidence ≤ 1.0; an empty link list is accepted |
| TracingService.SectionScores | backend/app/services/tracing_service.py:71-77 | one score per section, in list order |
| TracingService.ScoreSink.constructor | backend/app/services/tracing_service.py:39 | the client obtained for a run starts with an empty score log and the given rejection rule |
| TracingService.ScoreSink.CreateScore | backend/app/services/tracing_service.py:42-108 | the client records the score unless it rejects it, and reports the rejection |
| TracingService.Send | backend/app/services/tracing_service.py:42-48 | one `create_score` call: the log grows by what `SendAll` of that one score records, and the error is the one `SendAll` reports |
| TracingService.SendAllConcat | backend/app/services/tracing_service.py:41-108 | sending a concatenation sends the first part and then, if no error occurred, the second |
| TracingService.SendAllNoError | backend/app/services/tracing_service.py:41-108 | when no score is rejected, every score is recorded |
| TracingService.AllCodeScoresConcat | backend/app/services/tracing_service.py:80-108 | the per-code scores of a concatenation concatenate |
| TracingService.SendHeaderScores | backend/app/services/tracing_service.py:41-68 | sends `overall_score`, `overall_verdict` and `compliance_risk` in that order |
| TracingService.SendSectionScores | backend/app/services/tracing_service.py:70-77 | the loop sends the section scores in list order, stopping at the first rejection |
| TracingService.SendCodeScores | backend/app/services/tracing_service.py:84-108 | sends one code's support score and then its linkage score if there is one |
| TracingService.SendAllCodeScores | backend/app/services/tracing_service.py:79-108 | the loop sends every code's scores in list order, stopping at the first rejection |
| TracingService.AddEvaluationScores | backend/app/services/tracing_service.py:27-108 | records exactly the prefix of `EvaluationScores` up to the first rejected score, and returns that rejection |
| TracingService.AllCodeScoresFacts | backend/app/services/tracing_service.py:80-108 | the code scores number one per code plus one per set `linkage_valid`. All carry the trace id and have values in [0, 1] |
| TracingService.EvaluationScoresShape | backend/app/services/tracing_service.py:41-108 | there are 3 + #sections + #codes + #linkages scores, all under the given trace id. Every value but `overall_score` is in [0, 1], and all are when the verdict is valid |
| TracingService.EvaluationScoresHeaderAndSections | backend/app/services/tracing_service.py:41-77 | see the note below this table |
| TracingService.CodeScoresContent | backend/app/services/tracing_service.py:80-108 | the support score is `code_<code>_support` with 2→1.0, 1→0.5, 0→0.0 and the term-match/issues comment. `<code_type>_code_<code>_linkage` (1 or 0) follows exactly when `linkage_valid` is set |
| TracingService.EvaluationScoresCodesAt | backend/app/services/tracing_service.py:79-108 | code k's scores sit right after the header, the sections and the scores of codes 0..k-1 |
| PdfExtractor.OcrPage | backend/app/services/pdf_extractor.py:74-101 | an OCR failure yields "", otherwise the OCR text |
| PdfExtractor.ReadPages | backend/app/services/pdf_extractor.py:41-64 | the page loop returns the function `DocumentText` of the pages |
| PdfExtractor.PagesTextStopsAtError | backend/app/services/pdf_extractor.py:47-59 | a failing page ends the loop; later pages change nothing |
| PdfExtractor.PagesTextSucceedsIff | backend/app/services/pdf_extractor.py:47-59 | reading succeeds exactly when every page's direct text can be read |
| PdfExtractor.PagesTextValues | backend/app/services/pdf_extractor.py:51-59 | page k yields `clean_text` of its direct text, or of its OCR text when the direct text strips to "" |
| PdfExtractor.DocumentTextKept | backend/app/services/pdf_extractor.py:58-64 | the joined document holds only `clean_text`'s kept characters |
| PdfExtractor.LastDot | backend/app/services/pdf_extractor.py:38 | finds the last '.' of the name, if any |
| PdfExtractor.LastDotAfter | backend/app/services/pdf_extractor.py:38 | the last dot of `base.ext` is the one before `ext` |
| PdfExtractor.PathNameOfName | backend/app/services/pdf_extractor.py:34 | a plain name is its own final path component |
| PdfExtractor.PathSuffixOfName | backend/app/services/pdf_extractor.py:38 | `Path(base.ext).suffix` is `.ext`, and is "" for a dot file |
| PdfExtractor.ExtractTextFromPdf | backend/app/services/pdf_extractor.py:20-71 | the method returns the function `ExtractFromPath` |
| PdfExtractor.ExtractFromPathChecks | backend/app/services/pdf_extractor.py:35-39 | a missing file fails with "PDF file not found: ", checked before the suffix. A non-`.pdf` suffix fails with "File is not a PDF: ", and in both cases the file is not opened |
| PdfExtractor.ExtractTextFromBytes | backend/app/services/pdf_extractor.py:104-135 | the method returns the function `ExtractFromBytes` |
| PdfExtractor.EntryPointsAgree | backend/app/services/pdf_extractor.py:41-132 | for a valid `.pdf` path, both entry points read the same pages to the same text |
| PdfExtractor.ErrorWrapping | backend/app/services/pdf_extractor.py:66-135 | once the path checks pass, extraction fails exactly when opening or reading fails. A file data error becomes "Invalid PDF file: <msg>" and any other error "PDF extraction failed: <msg>". From bytes, every failure is "PDF extraction from bytes failed: <msg>" |
| CodingPipeline.Evaluate | backend/app/services/coding_pipeline.py:115-118 | the result is a success exactly when the judge answers and its answer satisfies the judge schema, and it is then that answer; a judge error is passed on; an answer that breaks the schema gives the validation error |
| CodingPipeline.AssembleCodingResult | backend/app/services/coding_pipeline.py:72-89 | the loop builds `json_data` and the coding result given by the functions `StructuredOutputs` and `CodingResultOf` |
| CodingPipeline.StructuredOutputsInOrder | backend/app/services/coding_pipeline.py:73-79 | `json_data` holds the structured outputs in task order, one per task that has one. A task without one adds nothing but still uses up its index |
| CodingPipeline.StructuredOutputsEmpty | backend/app/services/coding_pipeline.py:76-100 | `json_data` is empty exactly when no task has a structured output |
| CodingPipeline.SlotsFollowTaskOrder | backend/app/services/coding_pipeline.py:82-89 | with the crew's task order, index 0→entities, 1→ICD, 2→HCPCS, 3→CPT puts each schema in its own slot |
| CodingPipeline.LaterTasksReachNoSlot | backend/app/services/coding_pipeline.py:82-89 | task outputs at index 4 and beyond touch no slot |
| CodingPipeline.CodingPipelineService.constructor | backend/app/services/coding_pipeline.py:25-27 | the service owns a new, uninitialised crew with its verbosity |
| CodingPipeline.CodingPipelineService.ProcessText | backend/app/services/coding_pipeline.py:29-138 | `process_text` returns the response of `ProcessTextRun` and records exactly its scores; afterwards the crew is initialised with the standard crew, and a crew that was already initialised is left unchanged (built once) |
| CodingPipeline.CodingPipelineService.ProcessPdf | backend/app/services/coding_pipeline.py:140-166 | an extraction failure gives a failed response with its message, records nothing and leaves the crew unchanged; otherwise the result is exactly `process_text` of the extracted text, and the crew ends initialised, unchanged if it already was |
| CodingPipeline.CodingPipelineService.ProcessPdfBytes | backend/app/services/coding_pipeline.py:168-194 | the same for extraction from bytes: a failure gives a failed response, records nothing and leaves the crew unchanged; otherwise `process_text` of the extracted text, with the crew ending initialised and unchanged if it already was |
| CodingPipeline.ResponseShape | backend/app/services/coding_pipeline.py:126-138 | a failed response carries only its error. A successful one carries the run's trace id, a coding result and the token usage, and no error |
| CodingPipeline.RunSeesOnlyPreprocessedText | backend/app/services/coding_pipeline.py:46-118 | the crew and the judge see only the preprocessed text. Raw texts that preprocess alike give identical runs, and so do collaborators that agree on the preprocessed text |
| CodingPipeline.JudgeOnlyWhenRequested | backend/app/services/coding_pipeline.py:99-124 | see the note below this table |
| CodingPipeline.SendAllPrefix | backend/app/services/coding_pipeline.py:121-124 | the scores recorded are a prefix of those sent, and all of them when none is rejected |
| CodingPipeline.ScoresAfterCrew | backend/app/services/coding_pipeline.py:49-138 | scores are recorded under the run's trace id. A judge error or a rejected score fails the whole run with its message and discards the coding result; a valid verdict whose scores are all accepted records every score and gives a successful response with the coding result and that verdict |
| CodingPipeline.ScoresOfRun | backend/app/services/coding_pipeline.py:44-138 | a crew failure gives a failed response and records nothing. Otherwise the run continues with the crew's output; every recorded score is under the run's trace id |

Notes on two rows:

- `TracingService.EvaluationScoresHeaderAndSections`:
  - the first three scores are `overall_score` (NUMERIC, passed through);
  - then `overall_verdict`, which is 1 for pass and 0 otherwise and has the summary as its comment;
  - then `compliance_risk`, which is low→1.0, medium→0.5, high→0.0 with the comment "Risk Level: <risk>";
  - then one `section_<section>_verdict` per section, in order, with the notes as its comment.
- `CodingPipeline.JudgeOnlyWhenRequested`:
  - without evaluation requested, without structured output, or after a crew failure, the judge is irrelevant, nothing is recorded and there is no evaluation;
  - a present evaluation satisfies the judge schema and was judged on the preprocessed text and `json_data`.

## Left out

- **I/O and telemetry.** Langfuse spans, `propagate_attributes`,
  `span.update` in the tools, `get_timestamp` and `doc.close()` are left
  out. They do not affect any returned value.
- **Trace id.** `create_trace_id` draws a fresh uuid, so the trace id is
  a parameter of a run.
- **Foreign calls are oracles.** This covers:
  - crew kickoff, the judge chain, embedding, the index query and TOON `encode`;
  - page text, OCR, opening a PDF and the file-existence check.

  `CrewEngine` is called only with the standard crew, which the model
  proves. What an LLM answers is not modelled.
- **LLM prompts.** The agent and judge prompts, and the rules they state in
  natural language, are left out. Rules such as "call the tool once" and
  "no term in two lists" are not enforced by any code.
- **Exceptions are results.** Python exceptions are modelled as
  `Result.Failure` values carrying `str(e)`. An exception an oracle raises
  is represented by the oracle returning `Failure`.
- **Judge validation message.** When the judge's answer breaks the schema,
  the model returns a fixed message (`JudgeValidationMessage`), not
  pydantic's full text.
- Compression.Round4: rounds the exact real value half-to-even; binary
  floating point, and the rounding of values that are not exactly
  representable, is not modelled.
- Compression.CompressVectorDbResponse, Compression.CompressIcdVectorDbResponse:
  every match is assumed to carry a metadata map with string values. The
  AttributeError that `m["metadata"].get(...)` raises for a match without
  metadata is not modelled, and neither are metadata values of other types,
  which the source passes through unchanged. So
  `VectorSearch.RunSucceedsIff` and the tool lemmas built on it hold only
  for index responses of that shape.
- TracingService.ReprStrList: renders `issues` as `['a', 'b']` without
  Python's `repr` escaping of quotes and backslashes inside the strings.
- **Unreachable defaults.** The `.get(risk, 0.5)` and `.get(support, 0.0)`
  defaults are modelled in `RiskScore` and `SupportScore`. The enums are
  closed, so these branches never occur.
- **Section notes.** A section's `notes` reach the score as they are, None
  included. `model_dump()` keeps the `notes` key, so the `""` default of
  `.get` never applies.
- **Paths.** `Path.suffix` follows CPython's rule on POSIX paths: the last
  component's last dot, unless the dot is its first or last character.
  Windows drive and backslash handling is not modelled.
- **Agent identity.** The crew's agents and tasks are values naming their
  stage. Python object identity, and the agents' LLM configuration, are not
  modelled.
- **Object updates.** `coding_result` is updated slot by slot on a local
  object that nothing else references. The model updates it as a value
  inside the loop.
- **Outside the core.** These are not part of this model:
  - `judge_service.py`;
  - `embedding_service.py`;
  - `vector_db.py`, `llm_config.py` and `observability.py`;
  - `dependencies.py`, the HTTP layer and `requests.py`.
- **HealthResponse and StructuredMedicalEntities** are plain records. Their
  required fields are the datatype fields, and no member is needed.
