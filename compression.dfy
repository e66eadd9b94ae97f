/**
 * Field projection of vector-index query responses
 * (backend/app/utils/compression.py): each match keeps its id, a rounded
 * score and one or two metadata fields; everything else is dropped.
 */
module Compression {

  /** One raw nearest-neighbour match: id, similarity score and metadata. */
  datatype Match = Match(id: string, score: real, metadata: map<string, string>)

  datatype QueryResponse = QueryResponse(matches: seq<Match>)

  /** A projected match: the generic form (`id`, `desc`, `score`) or the ICD form (`id`, `category`, `disease`, `score`). */
  datatype CompactMatch =
    | GenericMatch(id: string, desc: string, score: real)
    | IcdMatch(id: string, category: string, disease: string, score: real)

  /** `{"matches": [...]}`. */
  datatype CompactResponse = CompactResponse(matches: seq<CompactMatch>)

  /** `metadata.get(key, "")`. */
  function MetadataGet(metadata: map<string, string>, key: string): string {
    if key in metadata then metadata[key] else ""
  }

  /**
   * `round(x, 4)` on the exact value of `x`: the nearest multiple of
   * 1/10000, halves going to the even neighbour.
   */
  function Round4(x: real): real {
    var scaled := x * 10000.0;
    var n := scaled.Floor;
    var frac := scaled - n as real;
    var m := if frac > 0.5 then n + 1
             else if frac < 0.5 then n
             else if n % 2 == 0 then n
             else n + 1;
    m as real / 10000.0
  }

  /** The rounded score has at most four decimals and is within half a unit of the fourth decimal. */
  lemma Round4Properties(x: real)
    ensures -0.00005 <= Round4(x) - x <= 0.00005
    ensures (Round4(x) * 10000.0).Floor as real == Round4(x) * 10000.0
    ensures Round4(Round4(x)) == Round4(x)
  {
    var scaled := x * 10000.0;
    var n := scaled.Floor;
    var frac := scaled - n as real;
    var m := if frac > 0.5 then n + 1
             else if frac < 0.5 then n
             else if n % 2 == 0 then n
             else n + 1;
    assert Round4(x) == m as real / 10000.0;
    assert Round4(x) * 10000.0 == m as real;
    var y := m as real / 10000.0;
    assert (y * 10000.0).Floor == m;
    assert y * 10000.0 - m as real == 0.0;
  }

  /** `compress_vector_db_response`: one generic entry per match, in order. */
  function CompressVectorDbResponse(resp: QueryResponse): (r: CompactResponse)
    ensures |r.matches| == |resp.matches|
    ensures forall k :: 0 <= k < |r.matches| ==>
      var m := resp.matches[k];
      r.matches[k] == GenericMatch(m.id, MetadataGet(m.metadata, "description"), Round4(m.score))
  {
    CompactResponse(seq(|resp.matches|, k requires 0 <= k < |resp.matches| =>
      var m := resp.matches[k];
      GenericMatch(m.id, MetadataGet(m.metadata, "description"), Round4(m.score))))
  }

  /** `compress_icd_vector_db_response`: one ICD entry per match, in order. */
  function CompressIcdVectorDbResponse(resp: QueryResponse): (r: CompactResponse)
    ensures |r.matches| == |resp.matches|
    ensures forall k :: 0 <= k < |r.matches| ==>
      var m := resp.matches[k];
      r.matches[k] == IcdMatch(m.id, MetadataGet(m.metadata, "category"),
                               MetadataGet(m.metadata, "disease"), Round4(m.score))
  {
    CompactResponse(seq(|resp.matches|, k requires 0 <= k < |resp.matches| =>
      var m := resp.matches[k];
      IcdMatch(m.id, MetadataGet(m.metadata, "category"), MetadataGet(m.metadata, "disease"), Round4(m.score))))
  }

  /** Two matches that agree on id, score and every metadata key in `keys`. */
  predicate AgreeOn(a: Match, b: Match, keys: set<string>) {
    a.id == b.id && a.score == b.score
    && forall key :: key in keys ==> MetadataGet(a.metadata, key) == MetadataGet(b.metadata, key)
  }

  /**
   * Only `id`, `score` and the `description` metadata reach a generic entry:
   * responses that agree on those project identically, whatever else their
   * metadata holds.
   */
  lemma CompressDropsOtherMetadata(a: QueryResponse, b: QueryResponse)
    requires |a.matches| == |b.matches|
    requires forall k :: 0 <= k < |a.matches| ==> AgreeOn(a.matches[k], b.matches[k], {"description"})
    ensures CompressVectorDbResponse(a) == CompressVectorDbResponse(b)
  {
    var ra, rb := CompressVectorDbResponse(a), CompressVectorDbResponse(b);
    forall k | 0 <= k < |ra.matches| ensures ra.matches[k] == rb.matches[k] {
      assert AgreeOn(a.matches[k], b.matches[k], {"description"});
    }
  }

  /** Only `id`, `score`, `category` and `disease` reach an ICD entry. */
  lemma CompressIcdDropsOtherMetadata(a: QueryResponse, b: QueryResponse)
    requires |a.matches| == |b.matches|
    requires forall k :: 0 <= k < |a.matches| ==> AgreeOn(a.matches[k], b.matches[k], {"category", "disease"})
    ensures CompressIcdVectorDbResponse(a) == CompressIcdVectorDbResponse(b)
  {
    var ra, rb := CompressIcdVectorDbResponse(a), CompressIcdVectorDbResponse(b);
    forall k | 0 <= k < |ra.matches| ensures ra.matches[k] == rb.matches[k] {
      assert AgreeOn(a.matches[k], b.matches[k], {"category", "disease"});
      assert "category" in {"category", "disease"} && "disease" in {"category", "disease"};
    }
  }
}
