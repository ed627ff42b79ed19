/**
 * The search client: builds the SerpAPI request for a query and normalises the
 * response's organic results, news results and knowledge panel into one
 * ordered list of uniform result records.
 */
module Search {
  import opened Base

  /** The `type` tag of a normalised result. */
  datatype Kind = Web | News | Knowledge {
    /** The tag as stored in the result dictionary. */
    function Name(): string
    {
      match this
      case Web => "web"
      case News => "news"
      case Knowledge => "knowledge"
    }
  }

  /**
   * One normalised result. Only news results carry a `date` key; for web and
   * knowledge results `date` is None (the key is absent).
   */
  datatype SearchResult = SearchResult(
    title: string,
    link: string,
    snippet: string,
    source: string,
    kind: Kind,
    date: Option<string>)

  /**
   * The parts of the decoded JSON response that the client reads; a part is
   * None when its key is missing from the response.
   */
  datatype Response = Response(
    organic: Option<seq<Dict>>,
    news: Option<seq<Dict>>,
    knowledgeGraph: Option<Dict>)

  /**
   * What the HTTP exchange yields: a decoded body, a `requests.RequestException`
   * (network error, timeout, non-2xx status, undecodable JSON), or any other
   * exception raised while the body is read.
   */
  datatype Fetch = Fetched(body: Response) | RequestFailed(reason: string) | Unexpected(reason: string)

  /** Which diagnostic the client reports beside its (possibly empty) result list. */
  datatype SearchStatus = Completed | MissingKey | RequestError(reason: string) | UnexpectedError(reason: string)

  /** The query parameters of the GET request; `tbm` is dropped from the URL when None. */
  datatype SearchParams = SearchParams(
    q: string,
    apiKey: string,
    engine: string,
    num: int,
    hl: string,
    gl: string,
    safe: string,
    tbm: Option<string>)

  /** The region selection meaning "no restriction". */
  const GlobalRegion: string := "global"
  /** The provider's default region, sent in place of the sentinel. */
  const DefaultRegion: string := "us"
  /** The `tbm` value that restricts the search to news. */
  const NewsFilter: string := "nws"
  /** The fixed `source` of the knowledge-panel entry. */
  const KnowledgeSource: string := "Knowledge Graph"

  /** The request parameters for a query (app.py:217-226). */
  function Params(query: string, key: string, num: int, language: string, country: string, searchNews: bool): (p: SearchParams)
    ensures p.q == query && p.apiKey == key && p.num == num && p.hl == language
    ensures p.engine == "google" && p.safe == "active"
    ensures country == GlobalRegion ==> p.gl == DefaultRegion
    ensures country != GlobalRegion ==> p.gl == country
    ensures p.tbm.Some? <==> searchNews
    ensures p.tbm.Some? ==> p.tbm.value == NewsFilter
  {
    SearchParams(query, key, "google", num, language,
                 if country != GlobalRegion then country else DefaultRegion,
                 "active", if searchNews then Some(NewsFilter) else None)
  }

  /** The region sentinel never reaches the provider. */
  lemma ParamsNeverGlobal(query: string, key: string, num: int, language: string, country: string, searchNews: bool)
    ensures Params(query, key, num, language, country, searchNews).gl != GlobalRegion
  {
  }

  /** `results.get("organic_results", [])` */
  function OrganicItems(r: Response): seq<Dict>
  {
    if r.organic.Some? then r.organic.value else []
  }

  /** `results.get("news_results", [])` */
  function NewsItems(r: Response): seq<Dict>
  {
    if r.news.Some? then r.news.value else []
  }

  /** `results.get("knowledge_graph", {})` */
  function KnowledgeGraph(r: Response): Dict
  {
    if r.knowledgeGraph.Some? then r.knowledgeGraph.value else map[]
  }

  /** `if knowledge_graph:` holds for a non-empty dictionary only. */
  predicate HasKnowledge(r: Response)
  {
    KnowledgeGraph(r) != map[]
  }

  function FromOrganic(item: Dict): SearchResult
  {
    SearchResult(Get(item, "title"), Get(item, "link"), Get(item, "snippet"),
                 Get(item, "displayed_link"), Web, None)
  }

  function FromNews(item: Dict): SearchResult
  {
    SearchResult(Get(item, "title"), Get(item, "link"), Get(item, "snippet"),
                 Get(item, "source"), News, Some(Get(item, "date")))
  }

  function FromKnowledge(kg: Dict): SearchResult
  {
    SearchResult(Get(kg, "title"), Get(kg, "website"), Get(kg, "description"),
                 KnowledgeSource, Knowledge, None)
  }

  /** The organic items, normalised one by one, in order. */
  function OrganicResults(items: seq<Dict>): (rs: seq<SearchResult>)
    ensures |rs| == |items|
  {
    if items == [] then [] else OrganicResults(items[..|items| - 1]) + [FromOrganic(items[|items| - 1])]
  }

  /** Entry `j` of the organic results is organic item `j`, normalised. */
  lemma {:induction false} OrganicResultsAt(items: seq<Dict>, j: int)
    requires 0 <= j < |items|
    ensures OrganicResults(items)[j] == FromOrganic(items[j])
  {
    if j < |items| - 1 {
      var front := items[..|items| - 1];
      OrganicResultsAt(front, j);
      assert front[j] == items[j];
    }
  }

  /** The news items, normalised one by one, in order. */
  function NewsResults(items: seq<Dict>): (rs: seq<SearchResult>)
    ensures |rs| == |items|
  {
    if items == [] then [] else NewsResults(items[..|items| - 1]) + [FromNews(items[|items| - 1])]
  }

  /** Entry `j` of the news results is news item `j`, normalised. */
  lemma {:induction false} NewsResultsAt(items: seq<Dict>, j: int)
    requires 0 <= j < |items|
    ensures NewsResults(items)[j] == FromNews(items[j])
  {
    if j < |items| - 1 {
      var front := items[..|items| - 1];
      NewsResultsAt(front, j);
      assert front[j] == items[j];
    }
  }

  /** The knowledge-panel entry, when the panel is non-empty. */
  function KnowledgeResults(r: Response): seq<SearchResult>
  {
    if HasKnowledge(r) then [FromKnowledge(KnowledgeGraph(r))] else []
  }

  /** Reference definition of a successful search: [knowledge?] ++ organic ++ news. */
  function Normalized(r: Response): seq<SearchResult>
  {
    KnowledgeResults(r) + OrganicResults(OrganicItems(r)) + NewsResults(NewsItems(r))
  }

  /**
   * `search_web` (app.py:211-277). With no key, nothing is requested and the
   * result is empty. Otherwise exactly one request, built by Params, goes to
   * `transport`; a body is normalised by appending the organic results, then
   * the news results, then inserting the knowledge panel at index 0; every
   * exception yields an empty list.
   */
  method SearchWeb(serpKey: Option<string>, query: string, numResults: int, language: string,
                   country: string, searchNews: bool, transport: SearchParams -> Fetch)
    returns (results: seq<SearchResult>, status: SearchStatus, request: Option<SearchParams>)
    ensures !Truthy(serpKey) ==> results == [] && status == MissingKey && request == None
    ensures Truthy(serpKey) ==>
      request == Some(Params(query, serpKey.value, numResults, language, country, searchNews))
    ensures request.Some? ==> match transport(request.value)
      case Fetched(body) => status == Completed && results == Normalized(body)
      case RequestFailed(e) => status == RequestError(e) && results == []
      case Unexpected(e) => status == UnexpectedError(e) && results == []
  {
    if !Truthy(serpKey) {
      return [], MissingKey, None;
    }
    var params := Params(query, serpKey.value, numResults, language, country, searchNews);
    request := Some(params);
    var fetched := transport(params);
    match fetched {
      case RequestFailed(e) =>
        return [], RequestError(e), request;
      case Unexpected(e) =>
        return [], UnexpectedError(e), request;
      case Fetched(body) =>
        results := NormalizeBody(body);
        return results, Completed, request;
    }
  }

  /**
   * The body of the `try` once the JSON is decoded (app.py:233-270): append
   * each organic result, then each news result, then insert a non-empty
   * knowledge panel at index 0.
   */
  method NormalizeBody(body: Response) returns (all: seq<SearchResult>)
    ensures all == Normalized(body)
  {
    all := [];
    var organic := OrganicItems(body);
    var i := 0;
    while i < |organic|
      invariant 0 <= i <= |organic|
      invariant all == OrganicResults(organic[..i])
    {
      assert organic[..i + 1][..i] == organic[..i];
      all := all + [FromOrganic(organic[i])];
      i := i + 1;
    }
    assert organic[..i] == organic;
    var news := NewsItems(body);
    i := 0;
    ghost var web := all;
    while i < |news|
      invariant 0 <= i <= |news|
      invariant all == web + NewsResults(news[..i])
    {
      assert news[..i + 1][..i] == news[..i];
      all := all + [FromNews(news[i])];
      i := i + 1;
    }
    assert news[..i] == news;
    var found := OrganicResults(organic) + NewsResults(news);
    assert all == found;
    var kg := KnowledgeGraph(body);
    if kg != map[] {
      all := [FromKnowledge(kg)] + all;
    }
    assert all == KnowledgeResults(body) + found;
    assert KnowledgeResults(body) + found == Normalized(body);
  }

  /**
   * The shape of a successful search: its length is |organic| + |news|, plus
   * one for a non-empty knowledge panel, and the entries appear as
   * [knowledge?] ++ organic ++ news with each item normalised in place.
   */
  lemma NormalizedLayout(r: Response)
    ensures var k := if HasKnowledge(r) then 1 else 0;
      var res := Normalized(r);
      |res| == k + |OrganicItems(r)| + |NewsItems(r)| &&
      (forall j :: 0 <= j < |OrganicItems(r)| ==> res[k + j] == FromOrganic(OrganicItems(r)[j])) &&
      (forall j :: 0 <= j < |NewsItems(r)| ==>
         res[k + |OrganicItems(r)| + j] == FromNews(NewsItems(r)[j]))
  {
    var k := if HasKnowledge(r) then 1 else 0;
    var kgs, org, nws := KnowledgeResults(r), OrganicResults(OrganicItems(r)), NewsResults(NewsItems(r));
    var res := kgs + org + nws;
    assert |kgs| == k;
    forall j | 0 <= j < |OrganicItems(r)| ensures res[k + j] == FromOrganic(OrganicItems(r)[j]) {
      OrganicResultsAt(OrganicItems(r), j);
      assert (kgs + org)[k + j] == org[j];
    }
    forall j | 0 <= j < |NewsItems(r)| ensures res[k + |OrganicItems(r)| + j] == FromNews(NewsItems(r)[j]) {
      NewsResultsAt(NewsItems(r), j);
    }
  }

  /**
   * A non-empty knowledge panel is entry 0, sourced "Knowledge Graph", with its
   * link from `website` and its snippet from `description`; it is the only
   * knowledge entry, and without a panel there is none.
   */
  lemma KnowledgeFirst(r: Response)
    ensures HasKnowledge(r) ==> var kg := KnowledgeGraph(r);
      Normalized(r)[0] == SearchResult(Get(kg, "title"), Get(kg, "website"), Get(kg, "description"),
                                        KnowledgeSource, Knowledge, None)
    ensures forall j :: 0 <= j < |Normalized(r)| && Normalized(r)[j].kind == Knowledge ==>
      j == 0 && HasKnowledge(r)
  {
    NormalizedLayout(r);
    var k := if HasKnowledge(r) then 1 else 0;
    forall j | 0 <= j < |Normalized(r)|
      ensures Normalized(r)[j].kind == Knowledge ==> j == 0 && HasKnowledge(r)
    {
      if j >= k + |OrganicItems(r)| {
        var n := j - k - |OrganicItems(r)|;
        assert Normalized(r)[k + |OrganicItems(r)| + n] == FromNews(NewsItems(r)[n]);
      } else if j >= k {
        var o := j - k;
        assert Normalized(r)[k + o] == FromOrganic(OrganicItems(r)[o]);
      }
    }
  }

  /**
   * Each text field missing from a response item becomes "": for organic
   * items the source comes from `displayed_link`, for news items the source
   * and date come from `source` and `date`.
   */
  lemma FieldDefaults(item: Dict)
    ensures "title" !in item ==> FromOrganic(item).title == "" && FromNews(item).title == ""
    ensures "link" !in item ==> FromOrganic(item).link == "" && FromNews(item).link == ""
    ensures "snippet" !in item ==> FromOrganic(item).snippet == "" && FromNews(item).snippet == ""
    ensures "displayed_link" !in item ==> FromOrganic(item).source == ""
    ensures "source" !in item ==> FromNews(item).source == ""
    ensures "date" !in item ==> FromNews(item).date == Some("")
    ensures "displayed_link" in item ==> FromOrganic(item).source == item["displayed_link"]
    ensures "source" in item ==> FromNews(item).source == item["source"]
    ensures "date" in item ==> FromNews(item).date == Some(item["date"])
    ensures "title" !in item ==> FromKnowledge(item).title == ""
    ensures "website" !in item ==> FromKnowledge(item).link == ""
    ensures "description" !in item ==> FromKnowledge(item).snippet == ""
  {
  }

  /** A response with no populated part is an empty result list, not an error. */
  lemma EmptyResponse(r: Response)
    requires OrganicItems(r) == [] && NewsItems(r) == [] && !HasKnowledge(r)
    ensures Normalized(r) == []
  {
  }
}
