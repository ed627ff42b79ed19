/**
 * Prompt-template selection: a model id starting with "o1" gets the
 * reasoning template, every other id the standard template with its fixed
 * five-section markdown skeleton. Both embed the query and the context.
 */
module Prompts {
  import opened Base

  /** Model ids of the reasoning family start with this. */
  const ReasoningPrefix: string := "o1"

  predicate IsReasoningModel(model: string)
  {
    StartsWith(model, ReasoningPrefix)
  }

  // The reasoning template, around the query and the context.
  const ReasoningOpening: string := "Analise profundamente as informações sobre \""
  const ReasoningSources: string :=
    "\" e forneça uma análise estruturada e detalhada.\n\nFONTES DISPONÍVEIS:\n"
  const ReasoningClosing: string :=
    "\n\nComo um analista especializado, crie um resumo abrangente que demonstre raciocínio crítico e análise profunda. Use apenas as informações das fontes fornecidas.\n\n"
    + "Estruture sua resposta com:\n- Resumo executivo dos pontos principais\n- Análise detalhada com insights críticos\n"
    + "- Tendências e padrões identificados\n- Implicações e perspectivas futuras\n- Conclusões fundamentadas\n\n"
    + "Seja preciso, analítico e use markdown para formatação."

  // The standard template, around the query, the context and the five section headers.
  const StandardOpening: string :=
    "Você é um analista especializado em síntese de informações. Analise as fontes sobre \""
  const StandardSources: string := "\" e crie um resumo completo e estruturado.\n\nFONTES CONSULTADAS:\n"
  const StandardInstructions: string :=
    "\n\nINSTRUÇÕES:\n1. Crie um resumo abrangente e bem fundamentado\n2. Use APENAS informações das fontes fornecidas\n"
    + "3. Organize o conteúdo de forma lógica e fluida\n4. Destaque tendências e padrões importantes\n"
    + "5. Mantenha neutralidade e objetividade\n6. Use formatação markdown para clareza\n"
    + "7. Cite insights de diferentes fontes quando relevante\n\nESTRUTURA OBRIGATÓRIA:\n"

  const ExecutiveSummary: string := "## \U{1F3AF} Resumo Executivo"
  const DetailedAnalysis: string := "## \U{1F4CA} Análise Detalhada"
  const KeyInsights: string := "## \U{1F50D} Insights Principais"
  const TrendsOutlook: string := "## \U{1F4C8} Tendências e Perspectivas"
  const Conclusions: string := "## \U{1F4A1} Conclusões"

  /** The five section headers of the standard template, in their required order. */
  const SectionHeaders: seq<string> :=
    [ExecutiveSummary, DetailedAnalysis, KeyInsights, TrendsOutlook, Conclusions]

  const ExecutiveSummaryBody: string := "\n[Síntese dos pontos principais em 2-3 parágrafos]\n\n"
  const DetailedAnalysisBody: string := "\n[Desenvolvimento aprofundado dos temas centrais]\n\n"
  const KeyInsightsBody: string :=
    "\n• [Ponto relevante 1]\n• [Ponto relevante 2] \n• [Ponto relevante 3]\n• [Outros insights importantes]\n\n"
  const TrendsOutlookBody: string := "\n[Análise de tendências e projeções quando aplicável]\n\n"
  const ConclusionsBody: string :=
    "\n[Síntese final e considerações importantes]\n\nResponda APENAS com o resumo estruturado. Seja preciso e informativo."

  function ReasoningPrompt(query: string, context: string): string
  {
    ReasoningOpening + (query + (ReasoningSources + (context + ReasoningClosing)))
  }

  function StandardPrompt(query: string, context: string): string
  {
    StandardOpening + (query + (StandardSources + (context + (StandardInstructions +
    (ExecutiveSummary + (ExecutiveSummaryBody +
    (DetailedAnalysis + (DetailedAnalysisBody +
    (KeyInsights + (KeyInsightsBody +
    (TrendsOutlook + (TrendsOutlookBody +
    (Conclusions + ConclusionsBody)))))))))))))
  }

  /** The prompt of `generate_summary_with_ai` (app.py:295-347). */
  function Prompt(query: string, context: string, model: string): string
  {
    if IsReasoningModel(model) then ReasoningPrompt(query, context) else StandardPrompt(query, context)
  }

  /** The template depends on the model id only through the "o1" prefix test. */
  lemma PromptDependsOnPrefix(query: string, context: string, m1: string, m2: string)
    requires IsReasoningModel(m1) == IsReasoningModel(m2)
    ensures Prompt(query, context, m1) == Prompt(query, context, m2)
  {
  }

  /** Filler, then `h`, then an ordered occurrence of `hs`: an ordered occurrence of `[h] + hs`. */
  lemma Step(pad: string, h: string, rest: string, hs: seq<string>)
    requires ContainsInOrder(rest, hs)
    ensures ContainsInOrder(pad + (h + rest), [h] + hs)
  {
    ContainsInOrderCons(h, rest, hs);
    ContainsInOrderAfter(pad, h + rest, [h] + hs);
  }

  /** Where `q` and `c` are placed between fillers, they occur in that order. */
  lemma TwoSlots(o: string, q: string, s: string, c: string, rest: string)
    ensures ContainsInOrder(o + (q + (s + (c + rest))), [q, c])
  {
    Step(s, c, rest, []);
    Step(o, q, s + (c + rest), [c]);
    assert [q] + [c] == [q, c];
  }

  /** The shape of the standard template: two slots, then five headers, between fillers. */
  lemma SevenSlots(o: string, q: string, s: string, c: string, i: string,
                   h1: string, b1: string, h2: string, b2: string, h3: string, b3: string,
                   h4: string, b4: string, h5: string, b5: string)
    ensures ContainsInOrder(o + (q + (s + (c + (i + (h1 + (b1 + (h2 + (b2 + (h3 + (b3 + (h4 + (b4 + (h5 + b5))))))))))))),
                            [q, c, h1, h2, h3, h4, h5])
  {
    var x5 := b4 + (h5 + b5);
    Step(b4, h5, b5, []);
    assert [h5] + [] == [h5];
    var x4 := b3 + (h4 + x5);
    Step(b3, h4, x5, [h5]);
    assert [h4] + [h5] == [h4, h5];
    var x3 := b2 + (h3 + x4);
    Step(b2, h3, x4, [h4, h5]);
    assert [h3] + [h4, h5] == [h3, h4, h5];
    var x2 := b1 + (h2 + x3);
    Step(b1, h2, x3, [h3, h4, h5]);
    assert [h2] + [h3, h4, h5] == [h2, h3, h4, h5];
    var x1 := i + (h1 + x2);
    Step(i, h1, x2, [h2, h3, h4, h5]);
    assert [h1] + [h2, h3, h4, h5] == [h1, h2, h3, h4, h5];
    var x0 := s + (c + x1);
    Step(s, c, x1, [h1, h2, h3, h4, h5]);
    assert [c] + [h1, h2, h3, h4, h5] == [c, h1, h2, h3, h4, h5];
    Step(o, q, x0, [c, h1, h2, h3, h4, h5]);
    assert [q] + [c, h1, h2, h3, h4, h5] == [q, c, h1, h2, h3, h4, h5];
  }

  /**
   * The standard prompt holds the query, then the context, then the five
   * section headers, each after the previous one.
   */
  lemma StandardPromptStructure(query: string, context: string)
    ensures ContainsInOrder(StandardPrompt(query, context), [query, context] + SectionHeaders)
  {
    SevenSlots(StandardOpening, query, StandardSources, context, StandardInstructions,
               ExecutiveSummary, ExecutiveSummaryBody, DetailedAnalysis, DetailedAnalysisBody,
               KeyInsights, KeyInsightsBody, TrendsOutlook, TrendsOutlookBody,
               Conclusions, ConclusionsBody);
    assert [query, context] + SectionHeaders
        == [query, context, ExecutiveSummary, DetailedAnalysis, KeyInsights, TrendsOutlook, Conclusions];
  }

  /** The reasoning prompt holds the query, then the context. */
  lemma ReasoningPromptStructure(query: string, context: string)
    ensures ContainsInOrder(ReasoningPrompt(query, context), [query, context])
  {
    TwoSlots(ReasoningOpening, query, ReasoningSources, context, ReasoningClosing);
  }

  /** Whichever template is chosen, the prompt embeds the query and then the context. */
  lemma PromptEmbedsQueryAndContext(query: string, context: string, model: string)
    ensures ContainsInOrder(Prompt(query, context, model), [query, context])
    ensures !IsReasoningModel(model) ==>
      ContainsInOrder(Prompt(query, context, model), [query, context] + SectionHeaders)
  {
    if IsReasoningModel(model) {
      ReasoningPromptStructure(query, context);
    } else {
      StandardPromptStructure(query, context);
      TwoSlots(StandardOpening, query, StandardSources, context, StandardInstructions +
        (ExecutiveSummary + (ExecutiveSummaryBody + (DetailedAnalysis + (DetailedAnalysisBody +
        (KeyInsights + (KeyInsightsBody + (TrendsOutlook + (TrendsOutlookBody +
        (Conclusions + ConclusionsBody))))))))));
    }
  }
}
