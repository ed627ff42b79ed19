# magen-news search-and-summarise pipeline, in Dafny

This project models the data-shaping core of the "Motor de Busca Inteligente"
Streamlit app (`app.py`). Given a query, the app fetches SerpAPI results and
normalises them into one ordered list. It renders the first twelve results as
numbered `[FONTE i]` blocks, picks a prompt template by model family, and
sends the prompt to OpenAI or GroqCloud with a provider-specific request
shape. It then splits the result list by type for the source listing and the
metrics.

Modules, one per component:

- `Base` (`base.dfy`): `Option`, the credentials, `dict.get(k, "")`, Python
  truthiness, `startswith`, `str(n)`, ASCII `upper`, and an "occurs in order"
  predicate on strings.
- `Search` (`search.dfy`): the search parameters and `search_web`. The body
  of its `try` is a method with the source's two append loops and the insert
  at index 0, proved equal to a declarative reference, `Normalized`.
- `Context` (`context.dfy`): the context loop, as a method over the first
  twelve results. It is proved equal to the joined lines of the numbered
  blocks.
- `Prompts` (`prompts.dfy`): the two templates and the `"o1"` prefix choice
  between them.
- `Dispatch` (`dispatch.dfy`): the client check, the request shape for each
  provider and model family, the error mapping, and `generate_summary_with_ai`.
- `Sources` (`sources.dfy`): the type filters of `display_sources` and the
  metric counts.
- `Pipeline` (`pipeline.dfy`): one triggered run of the page. That covers the
  key checks, the search, the short-circuit on an empty list, the summary and
  the counts.

The network calls are parameters. The search transport is a function
`SearchParams -> Fetch` and chat completion is a function
`ChatRequest -> CallOutcome`. A call that is never made shows up as a `None`
request in the result. The provider selection is a string, as in the source:
`"OpenAI"` picks the OpenAI branch, and every other value picks the GroqCloud
branch.

Two behaviours of the code, which the model follows:

- A missing sub-list counts as zero results, and so does a value that
  iterates to nothing, such as `"organic_results": {}` or `""`; a `null` or
  otherwise falsy `knowledge_graph` reads as no panel (app.py:237-238,
  260-261). Both are the absent or empty case of `Response`. A value of any
  other wrong shape (a `null` sub-list, an item that is not a dictionary)
  raises inside the `try`, and the whole search then returns `[]`; that case
  is the transport's `Unexpected` outcome.
- Only the OpenAI branch tests the `"o1"` prefix, so GroqCloud always gets
  the system message and the sampling parameters
  (`Dispatch.ReasoningRequestsAreBare`). The prompt template, however, is
  chosen by the prefix alone, whatever the provider.

## Model

| member | source | states |
|---|---|---|
| Base.Get | app.py:240-243 | a missing key reads as "", a present key reads as its value |
| Search.Params | app.py:217-226 | query, key, count and language pass through; engine "google" and safe "active" are fixed; region "global" becomes "us" and any other region is unchanged; `tbm` is present exactly when the news flag is set, and is then "nws" |
| Search.ParamsNeverGlobal | app.py:223 | the sentinel "global" is never sent as the region |
| Search.SearchWeb | app.py:211-277 | with no truthy key: an empty list, the missing-key status, and no request; otherwise exactly the request Params builds; a body gives Normalized(body); a request exception or any other exception gives an empty list with the matching status |
| Search.NormalizeBody | app.py:233-270 | appending each organic result, then each news result, then inserting a non-empty panel at index 0 yields exactly Normalized(body) |
| Search.OrganicResultsAt | app.py:237-246 | organic entry j is organic item j normalised: title, link, snippet, `displayed_link` as source, type web, no date |
| Search.NewsResultsAt | app.py:248-258 | news entry j is news item j normalised: title, link, snippet, source, type news, and its date |
| Search.NormalizedLayout | app.py:234-270 | length is len(organic) + len(news) + (1 if the knowledge graph is non-empty); entries are [knowledge?] ++ organic ++ news, each item normalised in its own position, nothing re-sorted |
| Search.KnowledgeFirst | app.py:259-268 | a non-empty knowledge graph is entry 0, with source "Knowledge Graph", link from `website` and snippet from `description`; no other entry is a knowledge entry, and there is none without a graph |
| Search.FieldDefaults | app.py:239-268 | every missing text field becomes "": title, link and snippet of organic and news items, the organic `displayed_link`, the news `source` and `date`, and the panel's `title`, `website` and `description`; present ones are copied |
| Search.EmptyResponse | app.py:237-270 | a response with no populated part gives an empty list, not an error |
| Context.RenderContext | app.py:283-292 | the loop's text equals the joined lines of the blocks of the first min(12, n) results |
| Context.Shown | app.py:284 | `search_results[:12]` is a prefix of length min(12, n) |
| Base.NatToStringValue | app.py:285 | the decimal text of a source number reads back as that number |
| Context.HeaderLineDistinct | app.py:285 | two `[FONTE i]` lines are equal exactly when their numbers are |
| Context.BlockHeaders | app.py:285-292 | a block has exactly one `[FONTE i]` line, its first |
| Context.BlockDates | app.py:289-290 | a block has a `Data:` line exactly when its result has a non-empty date, and that line carries the date |
| Context.BlocksNumbered | app.py:284-285 | the header lines of n blocks are `[FONTE 1]` … `[FONTE n]`, in order |
| Context.BlocksDated | app.py:284-292 | the date lines of the blocks are those of the dated results, in input order |
| Context.ContextBlocks | app.py:283-292 | the context has exactly min(12, n) header lines, numbered 1..min(12, n) in order, and the date lines of exactly the shown dated results |
| Context.ContextWhole | app.py:284 | at most twelve results are all rendered |
| Context.ContextCap | app.py:284 | results after the twelfth never change the context |
| Prompts.PromptDependsOnPrefix | app.py:295 | the template depends on the model id only through its `"o1"` prefix |
| Prompts.StandardPromptStructure | app.py:312-347 | the standard prompt holds the query, then the context, then the five `##` section headers in their fixed order |
| Prompts.ReasoningPromptStructure | app.py:295-311 | the reasoning prompt holds the query, then the context |
| Prompts.PromptEmbedsQueryAndContext | app.py:295-347 | either template embeds the query and then the context; a non-o1 model also gets the five headers in order |
| Dispatch.ChatRequestFor | app.py:350-402 | OpenAI with an o1 model: exactly one user message and no max_tokens, temperature, top_p or stream; any other request: [system, user] with max_tokens and temperature; GroqCloud also gets top_p 0.9 and stream False; the model id passes through |
| Dispatch.Summarize | app.py:349-407 | a request is sent exactly when the selected client exists; a missing client yields that provider's configuration text; otherwise the text is the reply to the one request sent |
| Dispatch.GenerateSummary | app.py:279-407 | renders the context, picks the template and dispatches: the result is Summarize applied to that prompt |
| Dispatch.ErrorTextCarriesError | app.py:406-407 | the handler's text starts with "❌ Erro ao gerar resumo: " and then carries the error text |
| Dispatch.SummarizeOutcomes | app.py:380-407 | with a ready client: the first choice is returned verbatim; a raised error becomes the handler's text carrying that error; an empty choice list becomes the handler's text for the IndexError |
| Dispatch.FailuresMarked | app.py:349-407 | every configuration or error text starts with "❌" |
| Dispatch.ReasoningRequestsAreBare | app.py:355-402 | an o1 id on OpenAI sends one user message with no sampling parameters; on GroqCloud the same id still gets the system message and top_p |
| Sources.OfKind | app.py:414-416 | each partition holds only that type, is no longer than the input, and contains only input entries |
| Sources.OfKindStable | app.py:414-416 | each partition is a subsequence of the input, so input order is kept |
| Sources.OfKindCounts | app.py:414-416 | as a multiset, each partition is the input restricted to its type |
| Sources.PartitionIsPermutation | app.py:414-416 | the three partitions together are a permutation of the input, and their sizes add up to its length |
| Sources.NormalizedPartition | app.py:234-270 | partitioning a normalised response gives back its organic results, its news results and its knowledge entry |
| Sources.NormalizedCounts | app.py:533-537 | the web count equals the number of organic items, the news count the number of news items, and the knowledge count is 1 or 0 |
| Sources.ScenarioTwoOrganicOneNewsOnePanel | app.py:234-270 | 2 organic, 1 news and a panel give 4 results, knowledge first, split 2 / 1 / 1 |
| Pipeline.Run | app.py:477-537 | the search key is checked first, then the selected provider's key; with either missing, no request is sent; otherwise one search is sent, an empty list stops the run before any summary request, and a non-empty list is summarised, with sources, web and news counts adding up; for "OpenAI" or "GroqCloud" with both keys present, no summary request is sent exactly when the search outcome is empty |
| Pipeline.NothingToSummarize | app.py:496-501 | the search outcome that stops a run is empty exactly when the search failed or the response had no populated part |
| Pipeline.PageCheckCoversDispatch | app.py:479-482 | for "OpenAI" and "GroqCloud", passing the page's key check is the same as the dispatcher finding its client |

## Left out

- The Streamlit page is not modelled: layout, CSS, sidebar widgets, tabs, expanders, progress bars, and the info, warning and success messages (app.py:30-209, 418-451, 454-613 outside the lines above). It is presentation only.
- `requests.get` and the OpenAI and Groq client calls are foreign network code. They appear only as the function parameters `transport` and `call`, and the 15-second timeout is not modelled.
- The texts that `search_web` shows through `st.error` are reduced to a `SearchStatus` value without the message.
- The trigger for a run (`query and (search_button or last_query != query)`, app.py:474-475) and the session state behind it are not modelled. `Pipeline.Run` models one triggered run.
- Cache clearing and session reset (app.py:89-101) are framework side effects and are not modelled.
- Wall-clock timing and the generation-time display (app.py:515-518, 539, 559-570) are not modelled.
- `temperature` is an opaque `real` that is passed through. No float arithmetic takes place on it.
- The slider bounds on result count and max tokens are UI validation, so the model admits any integer.
- Search response values are taken to be text. An item's keys that the code never reads are ignored by `search_web` whatever their type; they are kept in the model's dictionaries with placeholder text, because `if knowledge_graph:` (app.py:261) depends on whether any key is present. A non-text value under a key the code does read (it is stored as-is, without raising) is not modelled.
- `str.upper()` is modelled for ASCII letters only. That covers every type tag it is applied to.
- A reply whose `message.content` is `None` is not modelled; the model treats every choice as text.
- Title truncation for display and the `"❌" in summary` display heuristic (app.py:546) are cosmetic and not modelled.
- Context.ContextBlocks: counts the `[FONTE i]` and `Data:` lines in the sequence of rendered lines, not as substrings of the joined text. A title or snippet that itself holds a newline followed by `[FONTE` is not ruled out.
