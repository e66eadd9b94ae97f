/** The HCPCS retrieval tool (backend/app/tools/hcpcs_search_tool.py), searching the HCPCS Level II index. */
module HcpcsSearchTool {
  import opened Wrappers
  import opened VectorSearch

  /**
   * `HCPCS_Vector_Search_Tool`: the shared search loop over the HCPCS Level II index.
   * Every index query it issues goes to that index with top_k = 5, and it
   * returns a result exactly when every term is a string whose embedding,
   * query and encoding succeed.
   */
  method HCPCSVectorSearchTool(queryTexts: seq<QueryArg>, backend: Backend)
    returns (result: Result<string, ToolError>, calls: seq<Call>)
    ensures result == Outcome(Run(HcpcsSpace, backend, queryTexts))
    ensures calls == Run(HcpcsSpace, backend, queryTexts).calls
    ensures forall k :: 0 <= k < |calls| && calls[k].IndexQuery? ==>
      calls[k].space == HcpcsSpace && calls[k].topK == 5
    ensures result.Success? <==> forall k :: 0 <= k < |queryTexts| ==> StepOk(HcpcsSpace, backend, queryTexts[k])
  {
    result, calls := SearchTerms(HcpcsSpace, queryTexts, backend);
    RunCallsWellFormed(HcpcsSpace, backend, queryTexts);
    RunSucceedsIff(HcpcsSpace, backend, queryTexts);
  }
}
