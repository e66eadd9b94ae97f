/** The ICD retrieval tool (backend/app/tools/icd_search_tool.py), searching the ICD-10-CM index. */
module IcdSearchTool {
  import opened Wrappers
  import opened VectorSearch

  /**
   * `ICD_Vector_Search_Tool`: the shared search loop over the ICD-10-CM index.
   * Every index query it issues goes to that index with top_k = 5, and it
   * returns a result exactly when every term is a string whose embedding,
   * query and encoding succeed.
   */
  method ICDVectorSearchTool(queryTexts: seq<QueryArg>, backend: Backend)
    returns (result: Result<string, ToolError>, calls: seq<Call>)
    ensures result == Outcome(Run(IcdSpace, backend, queryTexts))
    ensures calls == Run(IcdSpace, backend, queryTexts).calls
    ensures forall k :: 0 <= k < |calls| && calls[k].IndexQuery? ==>
      calls[k].space == IcdSpace && calls[k].topK == 5
    ensures result.Success? <==> forall k :: 0 <= k < |queryTexts| ==> StepOk(IcdSpace, backend, queryTexts[k])
  {
    result, calls := SearchTerms(IcdSpace, queryTexts, backend);
    RunCallsWellFormed(IcdSpace, backend, queryTexts);
    RunSucceedsIff(IcdSpace, backend, queryTexts);
  }
}
