/**
 * The document analysis service: the text taken from a document, the part of it the
 * language model sees, and the analysis read back from the answer. The model is a
 * parameter from the text in the prompt to its answer.
 */
module DocumentAnalysis {
  import opened Seqs

  const PromptTextLength := 25000
  const SummaryLength := 500

  datatype Entities = Entities(people: seq<string>, organizations: seq<string>, locations: seq<string>)

  datatype DateMention = DateMention(date: string, context: string)

  datatype DocumentAnalysis = DocumentAnalysis(
    summary: string,
    entities: Entities,
    dates: seq<DateMention>,
    legalIssues: seq<string>,
    risks: seq<string>,
    rawAnalysis: string)

  /** `extractText`: the content is taken to be text already, whatever its type. */
  function ExtractText(content: string, mimeType: string): (r: string)
    ensures r == content
  {
    content
  }

  /** The part of the text put into the prompt: its first 25000 characters. */
  function PromptText(text: string): (r: string)
    ensures |r| == Clamp(PromptTextLength, |text|)
    ensures r == text[..|r|]
  {
    Prefix(text, PromptTextLength)
  }

  /**
   * `parseAnalysisResponse`: the first 500 characters of the answer are the summary and the
   * whole answer is kept as the raw analysis; every list is empty.
   */
  function ParseAnalysisResponse(response: string): (r: DocumentAnalysis)
    ensures r.rawAnalysis == response
    ensures |r.summary| == Clamp(SummaryLength, |response|)
    ensures r.summary == r.rawAnalysis[..|r.summary|]
    ensures r.entities == Entities([], [], []) && r.dates == [] && r.legalIssues == [] && r.risks == []
  {
    DocumentAnalysis(
      summary := Prefix(response, SummaryLength),
      entities := Entities([], [], []),
      dates := [],
      legalIssues := [],
      risks := [],
      rawAnalysis := response)
  }

  /** `analyzeDocument`: extract the text, ask the model about its first 25000 characters, parse. */
  function AnalyzeDocument(documentId: string, content: string, mimeType: string, generate: string -> string): (r: DocumentAnalysis)
    ensures r.rawAnalysis == generate(PromptText(content))
    ensures |r.summary| <= SummaryLength
  {
    ParseAnalysisResponse(generate(PromptText(ExtractText(content, mimeType))))
  }

  /**
   * The analysis depends only on the first 25000 characters of the content: neither the
   * rest of it, nor the type, nor the document's id changes the result.
   */
  lemma AnalysisSeesOnlyPromptText(id1: string, c1: string, m1: string, id2: string, c2: string, m2: string, generate: string -> string)
    requires |c1| >= PromptTextLength && |c2| >= PromptTextLength
    requires c1[..PromptTextLength] == c2[..PromptTextLength]
    ensures AnalyzeDocument(id1, c1, m1, generate) == AnalyzeDocument(id2, c2, m2, generate)
  {
    assert PromptText(c1) == c1[..PromptTextLength];
    assert PromptText(c2) == c2[..PromptTextLength];
  }
}
