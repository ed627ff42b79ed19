/**
 * One triggered run of the page (app.py:477-537): the credential checks,
 * the search, the short-circuit on an empty result list, the summary and the
 * source metrics.
 */
module Pipeline {
  import opened Base
  import opened Search
  import opened Context
  import opened Prompts
  import opened Dispatch
  import opened Sources

  /** What one run ends with. */
  datatype RunOutcome =
    | SearchKeyMissing
    | ProviderKeyMissing
    | NoResults
    | Analysed(results: seq<SearchResult>, summary: string, sourceCount: nat, webCount: nat, newsCount: nat)

  /**
   * The page's own provider check (app.py:479-482) names the two selectable
   * providers literally; any other value passes it.
   */
  predicate ProviderKeyAbsent(creds: Credentials, provider: string)
  {
    (provider == OpenAIProvider && !Truthy(creds.openaiKey)) ||
    (provider == "GroqCloud" && !Truthy(creds.groqKey))
  }

  /** The results a search with a present key ends with. */
  function SearchOutcome(f: Fetch): seq<SearchResult>
  {
    if f.Fetched? then Normalized(f.body) else []
  }

  method Run(creds: Credentials, query: string, numResults: int, language: string, country: string,
             searchNews: bool, provider: string, model: string, maxTokens: int, temperature: real,
             transport: SearchParams -> Fetch, call: ChatRequest -> CallOutcome)
    returns (outcome: RunOutcome, searchRequest: Option<SearchParams>, chatRequest: Option<ChatRequest>)
    ensures !Truthy(creds.serpKey) ==> outcome == SearchKeyMissing
    ensures Truthy(creds.serpKey) && ProviderKeyAbsent(creds, provider) ==> outcome == ProviderKeyMissing
    ensures outcome.SearchKeyMissing? || outcome.ProviderKeyMissing? ==>
      searchRequest == None && chatRequest == None
    ensures Truthy(creds.serpKey) && !ProviderKeyAbsent(creds, provider) ==>
      var params := Params(query, creds.serpKey.value, numResults, language, country, searchNews);
      var results := SearchOutcome(transport(params));
      var s := Summarize(creds, provider, model, Prompt(query, ContextText(results), model),
                         maxTokens, temperature, call);
      searchRequest == Some(params) &&
      (results == [] ==> outcome == NoResults && chatRequest == None) &&
      (results != [] ==> outcome == Analysed(results, s.text, |results|, |OfKind(results, Web)|,
                                             |OfKind(results, News)|) &&
                         chatRequest == s.request)
    ensures (provider == OpenAIProvider || provider == "GroqCloud") &&
            Truthy(creds.serpKey) && !ProviderKeyAbsent(creds, provider) ==>
      (chatRequest.None? <==>
       SearchOutcome(transport(Params(query, creds.serpKey.value, numResults, language, country, searchNews))) == [])
    ensures outcome.Analysed? ==>
      outcome.webCount + outcome.newsCount + |OfKind(outcome.results, Knowledge)| == outcome.sourceCount
  {
    if !Truthy(creds.serpKey) {
      return SearchKeyMissing, None, None;
    }
    if ProviderKeyAbsent(creds, provider) {
      return ProviderKeyMissing, None, None;
    }
    if provider == OpenAIProvider || provider == "GroqCloud" {
      PageCheckCoversDispatch(creds, provider);
    }
    var results, status, request := SearchWeb(creds.serpKey, query, numResults, language, country,
                                              searchNews, transport);
    searchRequest := request;
    if results == [] {
      return NoResults, searchRequest, None;
    }
    var summary := GenerateSummary(creds, query, results, provider, model, maxTokens, temperature, call);
    var webCount := |OfKind(results, Web)|;
    var newsCount := |OfKind(results, News)|;
    PartitionIsPermutation(results);
    outcome := Analysed(results, summary.text, |results|, webCount, newsCount);
    chatRequest := summary.request;
  }

  /**
   * With both checks passed, a run sends no summarisation request exactly
   * when the search failed or its response had no populated part.
   */
  lemma NothingToSummarize(f: Fetch)
    ensures SearchOutcome(f) == [] <==>
      (!f.Fetched? || (OrganicItems(f.body) == [] && NewsItems(f.body) == [] && !HasKnowledge(f.body)))
  {
    if f.Fetched? {
      NormalizedLayout(f.body);
    }
  }

  /**
   * For the two selectable providers the page's check and the dispatcher's
   * client check agree, so the dispatcher's configuration text is never
   * reached from a run of the page.
   */
  lemma PageCheckCoversDispatch(creds: Credentials, provider: string)
    requires provider == OpenAIProvider || provider == "GroqCloud"
    ensures !ProviderKeyAbsent(creds, provider) <==> ClientReady(creds, provider)
  {
  }
}
