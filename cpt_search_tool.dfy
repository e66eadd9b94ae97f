/** The CPT retrieval tool (backend/app/tools/cpt_search_tool.py), searching the CPT-4 index. */
module CptSearchTool {
  import opened Wrappers
  import opened VectorSearch

  /**
   * `CPT_Vector_Search_Tool`: the shared search loop over the CPT-4 index.
   * Every index query it issues goes to that index with top_k = 5, and it
   * returns a result exactly when every term is a string whose embedding,
   * query and encoding succeed.
   */
  method CPTVectorSearchTool(queryTexts: seq<QueryArg>, backend: Backend)
    returns (result: Result<string, ToolError>, calls: seq<Call>)
    ensures result == Outcome(Run(CptSpace, backend, queryTexts))
    ensures calls == Run(CptSpace, backend, queryTexts).calls
    ensures forall k :: 0 <= k < |calls| && calls[k].IndexQuery? ==>
      calls[k].space == CptSpace && calls[k].topK == 5
    ensures result.Success? <==> forall k :: 0 <= k < |queryTexts| ==> StepOk(CptSpace, backend, queryTexts[k])
  {
    result, calls := SearchTerms(CptSpace, queryTexts, backend);
    RunCallsWellFormed(CptSpace, backend, queryTexts);
    RunSucceedsIff(CptSpace, backend, queryTexts);
  }
}
