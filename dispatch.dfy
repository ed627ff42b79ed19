/**
 * Summarisation dispatch: the prompt goes to the OpenAI client or, for any
 * other provider selection, to the GroqCloud client, with a request shape
 * that depends on the provider and the model family. A missing client, a
 * raised error and an empty choice list all end in a fixed failure text.
 */
module Dispatch {
  import opened Base
  import opened Search
  import opened Context
  import opened Prompts

  datatype Message = Message(role: string, content: string)

  /** The keyword arguments of `chat.completions.create`; None means the argument is not passed. */
  datatype ChatRequest = ChatRequest(
    model: string,
    messages: seq<Message>,
    maxTokens: Option<int>,
    temperature: Option<real>,
    topP: Option<real>,
    stream: Option<bool>)

  /** What the remote call does: returns the message contents of its choices, or raises. */
  datatype CallOutcome = Completion(choices: seq<string>) | Raised(error: string)

  /** The text `generate_summary_with_ai` returns, and the request it sent, if any. */
  datatype Summary = Summary(text: string, request: Option<ChatRequest>)

  /** The provider selection that picks the OpenAI branch; every other value picks GroqCloud. */
  const OpenAIProvider: string := "OpenAI"

  const SystemInstruction: string :=
    "Você é um especialista em análise de informações que cria resumos precisos e bem estruturados baseados em fontes web confiáveis."
  /** Every failure text starts with this cross mark. */
  const FailureMark: string := "❌"
  const OpenAIMissing: string := FailureMark + " OpenAI não configurada. Configure OPENAI_API_KEY no arquivo .env"
  const GroqMissing: string := FailureMark + " GroqCloud não configurada. Configure GROQ_API_KEY no arquivo .env"
  const ErrorPrefix: string := FailureMark + " Erro ao gerar resumo: "
  const ErrorSuffix: string := "\n\nVerifique se sua chave de API está correta."
  /** `str(e)` of the IndexError raised by `response.choices[0]` on an empty list. */
  const EmptyChoicesError: string := "list index out of range"
  /** The fixed nucleus-sampling value sent to GroqCloud. */
  const GroqTopP: real := 0.9

  /** The exception handler's text for an error `e` (app.py:406-407). */
  function ErrorText(e: string): string
  {
    ErrorPrefix + (e + ErrorSuffix)
  }

  /** Whether the client of the selected provider was created at start-up. */
  predicate ClientReady(creds: Credentials, provider: string)
  {
    if provider == OpenAIProvider then Truthy(creds.openaiKey) else Truthy(creds.groqKey)
  }

  /**
   * The request sent for a ready client (app.py:355-402): an OpenAI o1 model
   * gets only the user message and no sampling parameters; every other
   * request gets the system message, then the user message, with `max_tokens`
   * and `temperature`; GroqCloud also gets `top_p = 0.9` and `stream = False`.
   */
  function ChatRequestFor(provider: string, model: string, prompt: string, maxTokens: int, temperature: real)
    : (r: ChatRequest)
    ensures r.model == model
    ensures |r.messages| > 0 && r.messages[|r.messages| - 1] == Message("user", prompt)
    ensures provider == OpenAIProvider && IsReasoningModel(model) ==>
      r.messages == [Message("user", prompt)] &&
      r.maxTokens.None? && r.temperature.None? && r.topP.None? && r.stream.None?
    ensures !(provider == OpenAIProvider && IsReasoningModel(model)) ==>
      r.messages == [Message("system", SystemInstruction), Message("user", prompt)] &&
      r.maxTokens == Some(maxTokens) && r.temperature == Some(temperature)
    ensures provider == OpenAIProvider ==> r.topP.None? && r.stream.None?
    ensures provider != OpenAIProvider ==> r.topP == Some(GroqTopP) && r.stream == Some(false)
  {
    var user := Message("user", prompt);
    var system := Message("system", SystemInstruction);
    if provider == OpenAIProvider then
      if IsReasoningModel(model) then ChatRequest(model, [user], None, None, None, None)
      else ChatRequest(model, [system, user], Some(maxTokens), Some(temperature), None, None)
    else
      ChatRequest(model, [system, user], Some(maxTokens), Some(temperature), Some(GroqTopP), Some(false))
  }

  /** `response.choices[0].message.content`, with the handler's text for anything raised. */
  function ReplyText(outcome: CallOutcome): string
  {
    match outcome
    case Raised(e) => ErrorText(e)
    case Completion(choices) => if |choices| > 0 then choices[0] else ErrorText(EmptyChoicesError)
  }

  /**
   * The provider branch of `generate_summary_with_ai` (app.py:349-407): the
   * client is checked before any call; a missing one yields its configuration
   * text and no request. Otherwise exactly one request goes to `call`.
   */
  function Summarize(creds: Credentials, provider: string, model: string, prompt: string,
                     maxTokens: int, temperature: real, call: ChatRequest -> CallOutcome): (s: Summary)
    ensures s.request.None? <==> !ClientReady(creds, provider)
    ensures !ClientReady(creds, provider) ==>
      s.text == if provider == OpenAIProvider then OpenAIMissing else GroqMissing
    ensures s.request.Some? ==>
      s.request.value == ChatRequestFor(provider, model, prompt, maxTokens, temperature) &&
      s.text == ReplyText(call(s.request.value))
  {
    if !ClientReady(creds, provider) then
      Summary(if provider == OpenAIProvider then OpenAIMissing else GroqMissing, None)
    else
      var request := ChatRequestFor(provider, model, prompt, maxTokens, temperature);
      Summary(ReplyText(call(request)), Some(request))
  }

  /**
   * `generate_summary_with_ai` (app.py:279-407): render the context, choose
   * the template, dispatch.
   */
  method GenerateSummary(creds: Credentials, query: string, results: seq<SearchResult>, provider: string,
                         model: string, maxTokens: int, temperature: real, call: ChatRequest -> CallOutcome)
    returns (summary: Summary)
    ensures summary == Summarize(creds, provider, model, Prompt(query, ContextText(results), model),
                                 maxTokens, temperature, call)
  {
    var context := RenderContext(results);
    var prompt := Prompt(query, context, model);
    summary := Summarize(creds, provider, model, prompt, maxTokens, temperature, call);
  }

  /** The handler's text starts with the fixed prefix and carries the error text. */
  lemma ErrorTextCarriesError(e: string)
    ensures StartsWith(ErrorText(e), ErrorPrefix)
    ensures ContainsInOrder(ErrorText(e), [ErrorPrefix, e])
  {
    var t := ErrorText(e);
    assert t[..|ErrorPrefix|] == ErrorPrefix;
    TwoSlots("", ErrorPrefix, "", e, ErrorSuffix);
    assert "" + (ErrorPrefix + ("" + (e + ErrorSuffix))) == t;
  }

  /**
   * With a ready client: a completion's first choice is returned verbatim,
   * and any raised error (or an empty choice list) becomes the handler's
   * text carrying that error.
   */
  lemma SummarizeOutcomes(creds: Credentials, provider: string, model: string, prompt: string,
                         maxTokens: int, temperature: real, call: ChatRequest -> CallOutcome)
    requires ClientReady(creds, provider)
    ensures var request := ChatRequestFor(provider, model, prompt, maxTokens, temperature);
      var s := Summarize(creds, provider, model, prompt, maxTokens, temperature, call);
      s.request == Some(request) &&
      (call(request).Raised? ==> StartsWith(s.text, ErrorPrefix) &&
                                 ContainsInOrder(s.text, [ErrorPrefix, call(request).error])) &&
      (call(request).Completion? && |call(request).choices| > 0 ==> s.text == call(request).choices[0]) &&
      (call(request) == Completion([]) ==> s.text == ErrorText(EmptyChoicesError))
  {
    var request := ChatRequestFor(provider, model, prompt, maxTokens, temperature);
    if call(request).Raised? {
      ErrorTextCarriesError(call(request).error);
    }
  }

  /**
   * Every text that is not a model reply starts with the cross mark: the
   * configuration texts and the handler's text.
   */
  lemma FailuresMarked(creds: Credentials, provider: string, model: string, prompt: string,
                       maxTokens: int, temperature: real, call: ChatRequest -> CallOutcome)
    ensures var s := Summarize(creds, provider, model, prompt, maxTokens, temperature, call);
      (s.request.None? || call(s.request.value).Raised? || call(s.request.value) == Completion([])) ==>
      StartsWith(s.text, FailureMark)
  {
    var s := Summarize(creds, provider, model, prompt, maxTokens, temperature, call);
    assert OpenAIMissing[..|FailureMark|] == FailureMark;
    assert GroqMissing[..|FailureMark|] == FailureMark;
    if s.request.Some? {
      var t := s.text;
      if call(s.request.value).Raised? || call(s.request.value) == Completion([]) {
        assert ErrorPrefix[..|FailureMark|] == FailureMark;
        assert t[..|ErrorPrefix|] == ErrorPrefix;
        assert t[..|FailureMark|] == ErrorPrefix[..|FailureMark|];
      }
    }
  }

  /**
   * A reasoning-family model on OpenAI is sent one user message and no
   * sampling parameter; the same id on GroqCloud still gets the system
   * message and the sampling parameters, since only the OpenAI branch tests
   * the prefix.
   */
  lemma ReasoningRequestsAreBare(creds: Credentials, provider: string, model: string, prompt: string,
                                 maxTokens: int, temperature: real, call: ChatRequest -> CallOutcome)
    requires IsReasoningModel(model)
    ensures var s := Summarize(creds, provider, model, prompt, maxTokens, temperature, call);
      s.request.Some? && provider == OpenAIProvider ==>
        |s.request.value.messages| == 1 && s.request.value.messages[0].role == "user" &&
        s.request.value.maxTokens.None? && s.request.value.temperature.None? && s.request.value.topP.None?
    ensures var s := Summarize(creds, provider, model, prompt, maxTokens, temperature, call);
      s.request.Some? && provider != OpenAIProvider ==>
        |s.request.value.messages| == 2 && s.request.value.messages[0].role == "system" &&
        s.request.value.topP == Some(GroqTopP)
  {
  }
}
