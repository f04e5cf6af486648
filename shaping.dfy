/**
 * The two JSON listings of app.py: `/api/intents`, a summary of the intent
 * catalog, and `/api/search`, the retrieval hits for a query as records with
 * default values. Both build their list by appending, one entry per input.
 * The retrieval index (`searcher.search`, `searcher.doc`) is a parameter.
 */
module Shaping {
  import opened Wrappers
  import opened Http
  import opened PyStr

  // ---- `/api/intents` ----

  /** One catalog intent: its tag, its example patterns and its response templates. */
  datatype Intent = Intent(tag: string, patterns: seq<string>, responses: seq<string>)

  /** The summary `/api/intents` gives of one intent. */
  datatype IntentSummary = IntentSummary(
    tag: string, patternsCount: nat, responsesCount: nat, samplePatterns: seq<string>)

  /** The object `/api/intents` returns. */
  datatype IntentsResponse = IntentsResponse(intents: seq<IntentSummary>, total: nat)

  /** How many patterns a summary shows. */
  const SampleSize: nat := 3

  /** True when `s` summarises `intent`: same tag, both counts, the first patterns. */
  predicate Summarises(s: IntentSummary, intent: Intent)
  {
    && s.tag == intent.tag
    && s.patternsCount == |intent.patterns|
    && s.responsesCount == |intent.responses|
    && s.samplePatterns <= intent.patterns
    && |s.samplePatterns| == if |intent.patterns| < SampleSize then |intent.patterns| else SampleSize
  }

  /** The `/api/intents` view over the catalog `catalog` (`contents['intents']`). */
  method ApiIntents(catalog: seq<Intent>) returns (r: IntentsResponse)
    ensures |r.intents| == |catalog| && r.total == |r.intents|
    ensures forall i :: 0 <= i < |catalog| ==> Summarises(r.intents[i], catalog[i])
  {
    var intentsList: seq<IntentSummary> := [];
    for i := 0 to |catalog|
      invariant |intentsList| == i
      invariant forall j :: 0 <= j < i ==> Summarises(intentsList[j], catalog[j])
    {
      var intent := catalog[i];
      intentsList := intentsList + [IntentSummary(
        intent.tag, |intent.patterns|, |intent.responses|, Take(intent.patterns, SampleSize))];
    }
    r := IntentsResponse(intentsList, |intentsList|);
  }

  /** An intent has exactly one summary, so the contract of ApiIntents fixes its output. */
  lemma SummaryIsUnique(s1: IntentSummary, s2: IntentSummary, intent: Intent)
    requires Summarises(s1, intent) && Summarises(s2, intent)
    ensures s1 == s2
  {
  }

  /** An intent with at most three patterns shows all of them. */
  lemma FewPatternsShownInFull(s: IntentSummary, intent: Intent)
    requires Summarises(s, intent) && |intent.patterns| <= SampleSize
    ensures s.samplePatterns == intent.patterns
  {
  }

  // ---- `/api/search` ----

  /** One retrieval hit: the stored document's identifier and its relevance score. */
  datatype Hit = Hit(docid: string, score: real)

  /** One record of `/api/search`. */
  datatype SearchResult = SearchResult(id: Json, content: Json, score: real)

  /** The object `/api/search` returns. */
  datatype SearchResponse = SearchResponse(query: string, results: seq<SearchResult>, total: nat)

  /** The number of hits asked for when `limit` is absent or not an integer. */
  const DefaultLimit: int := 5

  /** The error text of `/api/search` without a query. */
  const MissingQuery: string := "Missing query parameter q"

  /**
   * The `/api/search` view. `q` and `limit` are the query arguments (`limit`
   * already converted to an integer, None when absent or not convertible);
   * `search(query, k)` is the ranked hit list, None when the search raises;
   * `stored(docid)` is the stored document as a JSON object, None when the
   * index has no such document or its raw text is not a JSON object. Each
   * None is an exception the view does not catch, so a 500.
   */
  method ApiSearch(q: Option<string>, limit: Option<int>,
                   search: (string, int) -> Option<seq<Hit>>,
                   stored: string -> Option<map<string, Json>>)
    returns (r: Result<SearchResponse, ApiError>)
    ensures q.GetOr("") == "" ==> r == Failure(ApiError(400, MissingQuery))
    ensures q.GetOr("") != "" && search(q.value, limit.GetOr(DefaultLimit)).None? ==>
      r == Failure(InternalServerError)
    ensures q.GetOr("") != "" && search(q.value, limit.GetOr(DefaultLimit)).Some? ==>
      var hits := search(q.value, limit.GetOr(DefaultLimit)).value;
      && (r.Success? <==> forall i :: 0 <= i < |hits| ==> stored(hits[i].docid).Some?)
      && (r.Failure? ==> r.error == InternalServerError)
      && (r.Success? ==> r.value.query == q.value
                         && |r.value.results| == |hits| && r.value.total == |hits|
                         && forall i :: 0 <= i < |hits| ==> Describes(r.value.results[i], hits[i], stored(hits[i].docid).value))
  {
    var query := q.GetOr("");
    if query == "" {
      return Failure(ApiError(400, MissingQuery));
    }
    var found := search(query, limit.GetOr(DefaultLimit));
    if found.None? {
      return Failure(InternalServerError);
    }
    var hits := found.value;
    var results: seq<SearchResult> := [];
    for i := 0 to |hits|
      invariant |results| == i
      invariant forall j :: 0 <= j < i ==> stored(hits[j].docid).Some?
      invariant forall j :: 0 <= j < i ==> Describes(results[j], hits[j], stored(hits[j].docid).value)
    {
      var hit := hits[i];
      var doc := stored(hit.docid);
      if doc.None? {
        return Failure(InternalServerError);
      }
      results := results + [SearchResult(
        Get(doc.value, "id", JStr(hit.docid)), Get(doc.value, "contents", JStr("")), hit.score)];
    }
    r := Success(SearchResponse(query, results, |results|));
  }

  /**
   * True when `record` reports `hit` on the stored document `doc`: the stored
   * `id`, else the hit's identifier; the stored `contents`, else the empty
   * string; and the hit's score.
   */
  predicate Describes(record: SearchResult, hit: Hit, doc: map<string, Json>)
  {
    && record.id == (if "id" in doc then doc["id"] else JStr(hit.docid))
    && record.content == (if "contents" in doc then doc["contents"] else JStr(""))
    && record.score == hit.score
  }
}
