/**
 * The loop shared by the three retrieval tools
 * (backend/app/tools/icd_search_tool.py, cpt_search_tool.py,
 * hcpcs_search_tool.py): for each query term, in order, embed it, query
 * the code space's index for the 5 nearest entries, project and encode the
 * response, and append one formatted block; finally join the blocks with a
 * blank line. The three tools differ only in the constants of `CodeSpace`.
 */
module VectorSearch {
  import opened Wrappers
  import opened PyStr
  import opened Compression

  datatype CodeSpace = IcdSpace | CptSpace | HcpcsSpace

  /** The words that open each block: "Results for <label> '<term>':". */
  function TermLabel(space: CodeSpace): string {
    match space
    case IcdSpace => "diagnostic term"
    case CptSpace => "procedure term"
    case HcpcsSpace => "HCPCS term"
  }

  /** The message of the `ValueError` raised for a non-string element. */
  function NonStringMessage(space: CodeSpace): string {
    match space
    case IcdSpace => "ICD vector search accepts a single query string only."
    case CptSpace => "CPT vector search accepts a single query string only."
    case HcpcsSpace => "HCPCS vector search accepts a single query string only."
  }

  /** The ICD tool keeps category and disease; the CPT and HCPCS tools keep the description. */
  function Project(space: CodeSpace, resp: QueryResponse): CompactResponse {
    if space == IcdSpace then CompressIcdVectorDbResponse(resp) else CompressVectorDbResponse(resp)
  }

  const TopK: nat := 5

  /** An element of `query_texts`: the tool's argument is not type-checked, so it may be a non-string. */
  datatype QueryArg = Text(text: string) | NonText

  type Embedding = seq<real>

  /** The foreign services a tool call uses; each may raise (`Failure`). */
  datatype Backend = Backend(
    embed: string -> Result<Embedding, string>,
    query: (CodeSpace, Embedding, nat) -> Result<QueryResponse, string>,
    encode: CompactResponse -> Result<string, string>)

  /** A call made to a foreign service. */
  datatype Call = EmbedCall(text: string) | IndexQuery(space: CodeSpace, vector: Embedding, topK: nat)

  datatype ToolError = ValueError(message: string) | ServiceError(message: string)

  function BlockHeader(space: CodeSpace, term: string): string {
    "Results for " + TermLabel(space) + " '" + term + "':\n"
  }

  /** What one string term does: the calls it issues, and its block or the error raised. */
  datatype Step = Step(outcome: Result<string, ToolError>, calls: seq<Call>)

  function QueryStep(space: CodeSpace, b: Backend, term: string): (st: Step)
    ensures 1 <= |st.calls| <= 2 && st.calls[0] == EmbedCall(term)
    ensures st.outcome.Success? ==> |st.calls| == 2
  {
    match b.embed(term)
    case Failure(e) => Step(Failure(ServiceError(e)), [EmbedCall(term)])
    case Success(v) =>
      var calls := [EmbedCall(term), IndexQuery(space, v, TopK)];
      match b.query(space, v, TopK)
      case Failure(e) => Step(Failure(ServiceError(e)), calls)
      case Success(resp) =>
        match b.encode(Project(space, resp))
        case Failure(e) => Step(Failure(ServiceError(e)), calls)
        case Success(enc) => Step(Success(BlockHeader(space, term) + enc), calls)
  }

  /** The term is a string and its embedding, index query and encoding all succeed. */
  predicate StepOk(space: CodeSpace, b: Backend, q: QueryArg) {
    q.Text? && QueryStep(space, b, q.text).outcome.Success?
  }

  /** The block of a term whose step succeeds. */
  function Block(space: CodeSpace, b: Backend, q: QueryArg): string
    requires StepOk(space, b, q)
  {
    QueryStep(space, b, q.text).outcome.value
  }

  /** The state of a tool call after some prefix of the terms. */
  datatype SearchState = SearchState(blocks: seq<string>, calls: seq<Call>, error: Option<ToolError>)

  /** The state after handling the term `q` in the state `st`. */
  function Advance(space: CodeSpace, b: Backend, st: SearchState, q: QueryArg): SearchState {
    match q
    case NonText => st.(error := Some(ValueError(NonStringMessage(space))))
    case Text(term) =>
      var step := QueryStep(space, b, term);
      match step.outcome
      case Success(block) => SearchState(st.blocks + [block], st.calls + step.calls, None)
      case Failure(e) => SearchState(st.blocks, st.calls + step.calls, Some(e))
  }

  /** The state after the terms `qs`, stopping at the first error. */
  function Run(space: CodeSpace, b: Backend, qs: seq<QueryArg>): SearchState {
    if qs == [] then SearchState([], [], None)
    else
      var prev := Run(space, b, qs[..|qs| - 1]);
      if prev.error.Some? then prev else Advance(space, b, prev, qs[|qs| - 1])
  }

  /** What the tool returns for the final state: the error raised, or the blocks joined by a blank line. */
  function Outcome(st: SearchState): Result<string, ToolError> {
    match st.error
    case Some(e) => Failure(e)
    case None => Success(Join(st.blocks, "\n\n"))
  }

  /** Once a prefix has failed, the later terms change nothing: no further call is issued. */
  lemma {:induction false} RunStopsAtError(space: CodeSpace, b: Backend, qs: seq<QueryArg>, i: nat)
    requires i <= |qs|
    requires Run(space, b, qs[..i]).error.Some?
    ensures Run(space, b, qs) == Run(space, b, qs[..i])
    decreases |qs| - i
  {
    if i < |qs| {
      var j := i + 1;
      assert qs[..j][..i] == qs[..i];
      assert Run(space, b, qs[..j]) == Run(space, b, qs[..i]);
      RunStopsAtError(space, b, qs, j);
    } else {
      assert qs[..i] == qs;
    }
  }

  /** A prefix without an error grows by one `Advance` step. */
  lemma RunPrefixStep(space: CodeSpace, b: Backend, qs: seq<QueryArg>, i: nat)
    requires i < |qs| && Run(space, b, qs[..i]).error.None?
    ensures Run(space, b, qs[..i + 1]) == Advance(space, b, Run(space, b, qs[..i]), qs[i])
  {
    assert qs[..i + 1][..i] == qs[..i];
    assert qs[..i + 1][i] == qs[i];
  }

  /** One pass of the loop body for a string term: embed, query the index, compress and encode. */
  method SearchTerm(space: CodeSpace, term: string, b: Backend) returns (step: Step)
    ensures step == QueryStep(space, b, term)
  {
    var calls := [EmbedCall(term)];
    var embedded := b.embed(term);
    if embedded.Failure? {
      return Step(Failure(ServiceError(embedded.error)), calls);
    }
    var embedding := embedded.value;
    calls := calls + [IndexQuery(space, embedding, TopK)];
    var response := b.query(space, embedding, TopK);
    if response.Failure? {
      return Step(Failure(ServiceError(response.error)), calls);
    }
    var encoded := b.encode(Project(space, response.value));
    if encoded.Failure? {
      return Step(Failure(ServiceError(encoded.error)), calls);
    }
    step := Step(Success(BlockHeader(space, term) + encoded.value), calls);
  }

  /** The tool's loop over `query_texts`. */
  method SearchTerms(space: CodeSpace, queries: seq<QueryArg>, b: Backend)
    returns (result: Result<string, ToolError>, calls: seq<Call>)
    ensures result == Outcome(Run(space, b, queries))
    ensures calls == Run(space, b, queries).calls
  {
    var queriesResults: seq<string> := [];
    calls := [];
    for i := 0 to |queries|
      invariant Run(space, b, queries[..i]) == SearchState(queriesResults, calls, None)
    {
      var q := queries[i];
      RunPrefixStep(space, b, queries, i);
      if q.NonText? {
        RunStopsAtError(space, b, queries, i + 1);
        return Failure(ValueError(NonStringMessage(space))), calls;
      }
      var step := SearchTerm(space, q.text, b);
      calls := calls + step.calls;
      if step.outcome.Failure? {
        RunStopsAtError(space, b, queries, i + 1);
        return Failure(step.outcome.error), calls;
      }
      queriesResults := queriesResults + [step.outcome.value];
    }
    assert queries[..|queries|] == queries;
    result := Success(Join(queriesResults, "\n\n"));
  }

  // ---------------------------------------------------------------------
  // Properties of a tool call
  // ---------------------------------------------------------------------

  function CountIndexQueries(calls: seq<Call>): nat {
    if calls == [] then 0
    else (if calls[0].IndexQuery? then 1 else 0) + CountIndexQueries(calls[1..])
  }

  lemma {:induction false} CountIndexQueriesConcat(a: seq<Call>, b: seq<Call>)
    ensures CountIndexQueries(a + b) == CountIndexQueries(a) + CountIndexQueries(b)
  {
    if a != [] {
      assert (a + b)[1..] == a[1..] + b;
      CountIndexQueriesConcat(a[1..], b);
    } else {
      assert a + b == b;
    }
  }

  /**
   * In every run, each index query goes to the tool's own index with
   * top_k = 5, there are at most as many index queries as terms, and at
   * most one block per term.
   */
  lemma {:induction false} RunCallsWellFormed(space: CodeSpace, b: Backend, qs: seq<QueryArg>)
    ensures var st := Run(space, b, qs);
      && |st.blocks| <= |qs|
      && CountIndexQueries(st.calls) <= |qs|
      && forall k :: 0 <= k < |st.calls| && st.calls[k].IndexQuery? ==>
           st.calls[k].space == space && st.calls[k].topK == TopK
  {
    if qs != [] {
      var prev := Run(space, b, qs[..|qs| - 1]);
      RunCallsWellFormed(space, b, qs[..|qs| - 1]);
      var q := qs[|qs| - 1];
      if prev.error.None? && q.Text? {
        var step := QueryStep(space, b, q.text);
        CountIndexQueriesConcat(prev.calls, step.calls);
        assert CountIndexQueries(step.calls) <= 1 by {
          assert step.calls[0] == EmbedCall(q.text);
          assert CountIndexQueries(step.calls) == CountIndexQueries(step.calls[1..]);
          if |step.calls| == 2 {
            assert step.calls[1..][1..] == [];
            assert CountIndexQueries(step.calls[1..]) <= 1 + CountIndexQueries(step.calls[1..][1..]);
          } else {
            assert step.calls[1..] == [];
          }
        }
        var calls := prev.calls + step.calls;
        forall k | 0 <= k < |calls| && calls[k].IndexQuery?
          ensures calls[k].space == space && calls[k].topK == TopK
        {
          if k >= |prev.calls| {
            assert calls[k] == step.calls[k - |prev.calls|];
          }
        }
      }
    }
  }

  /** A term whose step succeeds issues one embedding and one index query with the embedding. */
  lemma StepOkCalls(space: CodeSpace, b: Backend, q: QueryArg)
    requires StepOk(space, b, q)
    ensures b.embed(q.text).Success?
    ensures QueryStep(space, b, q.text).calls == [EmbedCall(q.text), IndexQuery(space, b.embed(q.text).value, TopK)]
  {
  }

  /** Extending a successful prefix by a term whose step succeeds appends its block and its two calls. */
  lemma RunExtendOk(space: CodeSpace, b: Backend, qs: seq<QueryArg>, q: QueryArg)
    requires Run(space, b, qs).error.None? && StepOk(space, b, q)
    ensures var prev := Run(space, b, qs);
      Run(space, b, qs + [q])
        == SearchState(prev.blocks + [Block(space, b, q)], prev.calls + QueryStep(space, b, q.text).calls, None)
  {
    assert (qs + [q])[..|qs|] == qs;
  }

  /** calls[2k] and calls[2k+1] are the embedding and the index query of the string term `q`. */
  predicate TermCallsAt(space: CodeSpace, b: Backend, q: QueryArg, calls: seq<Call>, k: nat)
    requires 2 * k + 1 < |calls|
  {
    q.Text? && b.embed(q.text).Success?
    && calls[2 * k] == EmbedCall(q.text)
    && calls[2 * k + 1] == IndexQuery(space, b.embed(q.text).value, TopK)
  }

  /**
   * When every term is a string whose services all answer, the tool
   * succeeds with one block per term, in input order.
   */
  lemma {:induction false} RunAllSucceed(space: CodeSpace, b: Backend, qs: seq<QueryArg>)
    requires forall k :: 0 <= k < |qs| ==> StepOk(space, b, qs[k])
    ensures Run(space, b, qs).error == None
    ensures |Run(space, b, qs).blocks| == |qs|
    ensures forall k :: 0 <= k < |qs| ==> Run(space, b, qs).blocks[k] == Block(space, b, qs[k])
  {
    if qs != [] {
      var n := |qs| - 1;
      var init := qs[..n];
      assert forall k :: 0 <= k < n ==> init[k] == qs[k];
      RunAllSucceed(space, b, init);
      var prev := Run(space, b, init);
      var q := qs[n];
      assert init + [q] == qs;
      RunExtendOk(space, b, init, q);
      var blocks := Run(space, b, qs).blocks;
      assert blocks == prev.blocks + [Block(space, b, q)];
      forall k | 0 <= k < |qs| ensures blocks[k] == Block(space, b, qs[k]) {
        if k < n {
          assert blocks[k] == prev.blocks[k];
        }
      }
    }
  }

  /**
   * In the same case, the k-th term issues exactly one embedding
   * (calls[2k]) and one index query (calls[2k+1]), and nothing else is
   * called.
   */
  lemma {:induction false} RunAllSucceedCalls(space: CodeSpace, b: Backend, qs: seq<QueryArg>)
    requires forall k :: 0 <= k < |qs| ==> StepOk(space, b, qs[k])
    ensures |Run(space, b, qs).calls| == 2 * |qs|
    ensures CountIndexQueries(Run(space, b, qs).calls) == |qs|
    ensures forall k :: 0 <= k < |qs| ==> TermCallsAt(space, b, qs[k], Run(space, b, qs).calls, k)
    decreases |qs|, 1
  {
    if qs != [] {
      var n := |qs| - 1;
      var init := qs[..n];
      assert forall k :: 0 <= k < n ==> init[k] == qs[k];
      assert init + [qs[n]] == qs;
      RunAllSucceedCallsSnoc(space, b, init, qs[n]);
    }
  }

  /** The step of `RunAllSucceedCalls` from `init` to `init + [q]`. */
  lemma {:induction false} RunAllSucceedCallsSnoc(space: CodeSpace, b: Backend, init: seq<QueryArg>, q: QueryArg)
    requires forall k :: 0 <= k < |init| ==> StepOk(space, b, init[k])
    requires StepOk(space, b, q)
    ensures var qs := init + [q];
      && |Run(space, b, qs).calls| == 2 * |qs|
      && CountIndexQueries(Run(space, b, qs).calls) == |qs|
      && forall k :: 0 <= k < |qs| ==> TermCallsAt(space, b, qs[k], Run(space, b, qs).calls, k)
    decreases |init| + 1, 0
  {
    RunAllSucceed(space, b, init);
    RunAllSucceedCalls(space, b, init);
    var prev := Run(space, b, init).calls;
    var step := QueryStep(space, b, q.text).calls;
    RunExtendOk(space, b, init, q);
    assert Run(space, b, init + [q]).calls == prev + step;
    CountIndexQueriesConcat(prev, step);
    StepOkOneQuery(space, b, q);
    TermCallsExtend(space, b, init, q, prev);
  }

  /** A term whose step succeeds issues exactly one index query. */
  lemma StepOkOneQuery(space: CodeSpace, b: Backend, q: QueryArg)
    requires StepOk(space, b, q)
    ensures CountIndexQueries(QueryStep(space, b, q.text).calls) == 1
  {
    StepOkCalls(space, b, q);
    var step := QueryStep(space, b, q.text).calls;
    assert step[1..] == [IndexQuery(space, b.embed(q.text).value, TopK)];
    assert step[1..][1..] == [];
    assert CountIndexQueries(step) == CountIndexQueries(step[1..]);
    assert CountIndexQueries(step[1..]) == 1 + CountIndexQueries(step[1..][1..]);
  }

  /** Appending the two calls of a successful term keeps the earlier pairs and adds its own. */
  lemma TermCallsExtend(space: CodeSpace, b: Backend, init: seq<QueryArg>, q: QueryArg, prev: seq<Call>)
    requires StepOk(space, b, q) && |prev| == 2 * |init|
    requires forall k :: 0 <= k < |init| ==> TermCallsAt(space, b, init[k], prev, k)
    ensures var calls := prev + QueryStep(space, b, q.text).calls;
      && |calls| == 2 * |init + [q]|
      && forall k :: 0 <= k < |init + [q]| ==> TermCallsAt(space, b, (init + [q])[k], calls, k)
  {
    StepOkCalls(space, b, q);
    var step := QueryStep(space, b, q.text).calls;
    var calls := prev + step;
    var qs := init + [q];
    forall k | 0 <= k < |qs| ensures TermCallsAt(space, b, qs[k], calls, k) {
      if k < |init| {
        assert qs[k] == init[k];
        assert TermCallsAt(space, b, init[k], prev, k);
        assert calls[2 * k] == prev[2 * k] && calls[2 * k + 1] == prev[2 * k + 1];
      } else {
        assert qs[k] == q;
        assert calls[2 * k] == step[0] && calls[2 * k + 1] == step[1];
      }
    }
  }

  /** The tool succeeds exactly when every term is a string whose services all answer. */
  lemma {:induction false} RunSucceedsIff(space: CodeSpace, b: Backend, qs: seq<QueryArg>)
    ensures Run(space, b, qs).error.None? <==> forall k :: 0 <= k < |qs| ==> StepOk(space, b, qs[k])
  {
    if qs != [] {
      var n := |qs| - 1;
      var init := qs[..n];
      RunSucceedsIff(space, b, init);
      assert forall k :: 0 <= k < n ==> init[k] == qs[k];
      AdvanceSucceedsIff(space, b, Run(space, b, init), qs[n]);
      assert (forall k :: 0 <= k < |qs| ==> StepOk(space, b, qs[k]))
        <==> (forall k :: 0 <= k < n ==> StepOk(space, b, init[k])) && StepOk(space, b, qs[n]);
    }
  }

  lemma AdvanceSucceedsIff(space: CodeSpace, b: Backend, st: SearchState, q: QueryArg)
    ensures Advance(space, b, st, q).error.None? <==> StepOk(space, b, q)
  {
  }

  /**
   * The first non-string term raises `ValueError`: no result is returned,
   * and the calls of the terms before it, two per term, were already made.
   */
  lemma RunStopsAtNonString(space: CodeSpace, b: Backend, qs: seq<QueryArg>, k: nat)
    requires k < |qs| && qs[k].NonText?
    requires forall j :: 0 <= j < k ==> StepOk(space, b, qs[j])
    ensures Outcome(Run(space, b, qs)) == Failure(ValueError(NonStringMessage(space)))
    ensures Run(space, b, qs).calls == Run(space, b, qs[..k]).calls
    ensures |Run(space, b, qs).calls| == 2 * k
  {
    var init := qs[..k];
    assert forall j :: 0 <= j < k ==> init[j] == qs[j];
    RunAllSucceed(space, b, init);
    RunAllSucceedCalls(space, b, init);
    RunPrefixStep(space, b, qs, k);
    RunStopsAtError(space, b, qs, k + 1);
  }

  /** With no terms the tool issues no call and returns the empty string. */
  lemma RunNoTerms(space: CodeSpace, b: Backend)
    ensures Outcome(Run(space, b, [])) == Success("")
    ensures Run(space, b, []).calls == []
  {
  }

  /** The block of a term is its header followed by the encoding of the tool's projection of the term's matches. */
  lemma BlockShape(space: CodeSpace, b: Backend, q: QueryArg)
    requires StepOk(space, b, q)
    ensures var v := b.embed(q.text).value;
      var resp := b.query(space, v, TopK).value;
      Block(space, b, q) == BlockHeader(space, q.text) + b.encode(Project(space, resp)).value
  {
  }
}
