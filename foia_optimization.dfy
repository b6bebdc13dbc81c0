/**
 * The FOIA optimisation service: how the route's argument becomes a subject and a
 * description, and how the completion text is cut into an optimised request or a
 * template. The language model is a parameter: a function from the prompt's inputs
 * to the text it answers.
 */
module FoiaOptimization {
  import opened Wrappers
  import opened Seqs
  import opened Text

  const DefaultSubject := "Optimized FOIA Request Subject"
  const DefaultDescription := "Optimized FOIA Request Description"
  const TemplateCategory := "General"
  const DefaultSubjectTemplate := "FOIA Request Subject Template"
  const DefaultBodyTemplate := "FOIA Request Body Template"

  /** The value the route passes in, as far as the normalisation looks at it. */
  datatype RequestData =
    | ObjectValue(subject: Option<string>, description: Option<string>)  // an object other than null
    | NullValue                                                          // null, whose typeof is 'object' too
    | OtherValue(asString: string)                                       // any other value, as `String(value)` renders it

  datatype Request = Request(subject: string, description: string)

  datatype OptimizedFoiaRequest = OptimizedFoiaRequest(
    optimizedSubject: string,
    optimizedDescription: string,
    suggestedDetails: seq<string>,
    recommendedAgencies: seq<string>,
    tips: seq<string>)

  datatype FoiaTemplate = FoiaTemplate(
    category: string,
    subjectTemplate: string,
    bodyTemplate: string,
    suggestedAttachments: seq<string>,
    recommendedAgencies: seq<string>,
    tips: seq<string>)

  /**
   * The subject and description handed to the model. An object contributes its fields,
   * an absent or empty one becoming ""; any other value becomes the subject and the
   * description is "". For null the property read throws, so there is no request.
   */
  function NormaliseRequest(data: RequestData): (r: Option<Request>)
    ensures r.None? <==> data.NullValue?
    ensures data.ObjectValue? ==>
      r == Some(Request(data.subject.GetOr(""), data.description.GetOr("")))
    ensures data.OtherValue? ==> r == Some(Request(data.asString, ""))
  {
    match data
    case ObjectValue(subject, description) =>
      Some(Request(subject.GetOr(""), description.GetOr("")))
    case NullValue => None
    case OtherValue(text) => Some(Request(text, ""))
  }

  /**
   * The non-blank lines of the answer: the first is the subject, lines 1 to 4 joined with
   * spaces the description, then 3 suggested details, 2 agencies and 5 tips.
   */
  function ParseOptimizationResponse(response: string): (r: OptimizedFoiaRequest)
    ensures |r.suggestedDetails| <= 3 && |r.recommendedAgencies| <= 2 && |r.tips| <= 5
    ensures var lines := NonBlankLines(response);
      && |r.suggestedDetails| == Clamp(8, |lines|) - Clamp(5, |lines|)
      && (forall i :: 0 <= i < |r.suggestedDetails| ==> r.suggestedDetails[i] == lines[5 + i])
      && |r.recommendedAgencies| == Clamp(10, |lines|) - Clamp(8, |lines|)
      && (forall i :: 0 <= i < |r.recommendedAgencies| ==> r.recommendedAgencies[i] == lines[8 + i])
      && |r.tips| == Clamp(15, |lines|) - Clamp(10, |lines|)
      && (forall i :: 0 <= i < |r.tips| ==> r.tips[i] == lines[10 + i])
  {
    var lines := NonBlankLines(response);
    OptimizedFoiaRequest(
      optimizedSubject := if |lines| > 0 then OrElse(lines[0], DefaultSubject) else DefaultSubject,
      optimizedDescription := OrElse(Join(Slice(lines, 1, 5), " "), DefaultDescription),
      suggestedDetails := Slice(lines, 5, 8),
      recommendedAgencies := Slice(lines, 8, 10),
      tips := Slice(lines, 10, 15))
  }

  /** The three lists are, in order, exactly the non-blank lines 5 to 14 of the answer. */
  lemma OptimizationListsAreLinesFiveToFourteen(response: string)
    ensures var r := ParseOptimizationResponse(response);
      r.suggestedDetails + r.recommendedAgencies + r.tips == Slice(NonBlankLines(response), 5, 15)
  {
    var lines := NonBlankLines(response);
    SliceAdjacent(lines, 5, 8, 10);
    SliceAdjacent(lines, 5, 10, 15);
  }

  /**
   * The subject and the description are single lines. The subject is the first non-blank
   * line, and the default only for an answer with no such line; the description starts
   * with the second non-blank line, and is the default only when there is none.
   */
  lemma OptimizationTextFields(response: string)
    ensures var r := ParseOptimizationResponse(response);
      var lines := NonBlankLines(response);
      && '\n' !in r.optimizedSubject && '\n' !in r.optimizedDescription
      && (lines == [] ==> r.optimizedSubject == DefaultSubject)
      && (lines != [] ==> r.optimizedSubject == lines[0])
      && (|lines| <= 1 ==> r.optimizedDescription == DefaultDescription)
      && (|lines| >= 2 ==> r.optimizedDescription[..|lines[1]|] == lines[1])
  {
    JoinedRange(NonBlankLines(response), 1, 5);
    DefaultsAreSingleLines();
  }

  /** With a second non-blank line, the description is lines 1 to 4, in order, one space between each two. */
  lemma OptimizationDescriptionLayout(response: string)
    requires |NonBlankLines(response)| >= 2
    ensures LaidOut(ParseOptimizationResponse(response).optimizedDescription, Slice(NonBlankLines(response), 1, 5), ' ')
  {
    var body := Slice(NonBlankLines(response), 1, 5);
    JoinLines(body);
    JoinLaidOut(body, ' ');
  }

  /** `optimizeFOIARequest`: normalise the argument, ask the model, parse its answer. */
  function OptimizeFoiaRequest(data: RequestData, complete: (string, string) -> string): (r: Option<OptimizedFoiaRequest>)
    ensures r.None? <==> data.NullValue?
    ensures r.Some? ==>
      var req := NormaliseRequest(data).value;
      r.value == ParseOptimizationResponse(complete(req.subject, req.description))
  {
    match NormaliseRequest(data)
    case None => None
    case Some(req) => Some(ParseOptimizationResponse(complete(req.subject, req.description)))
  }

  /**
   * The template parser: category is always "General"; the first non-blank line is the
   * subject template, lines 1 to 5 joined the body, then 2 attachments, 2 agencies, 5 tips.
   */
  function ParseTemplateResponse(response: string): (r: FoiaTemplate)
    ensures r.category == TemplateCategory
    ensures |r.suggestedAttachments| <= 2 && |r.recommendedAgencies| <= 2 && |r.tips| <= 5
    ensures var lines := NonBlankLines(response);
      && |r.suggestedAttachments| == Clamp(8, |lines|) - Clamp(6, |lines|)
      && (forall i :: 0 <= i < |r.suggestedAttachments| ==> r.suggestedAttachments[i] == lines[6 + i])
      && |r.recommendedAgencies| == Clamp(10, |lines|) - Clamp(8, |lines|)
      && (forall i :: 0 <= i < |r.recommendedAgencies| ==> r.recommendedAgencies[i] == lines[8 + i])
      && |r.tips| == Clamp(15, |lines|) - Clamp(10, |lines|)
      && (forall i :: 0 <= i < |r.tips| ==> r.tips[i] == lines[10 + i])
  {
    var lines := NonBlankLines(response);
    FoiaTemplate(
      category := TemplateCategory,
      subjectTemplate := if |lines| > 0 then OrElse(lines[0], DefaultSubjectTemplate) else DefaultSubjectTemplate,
      bodyTemplate := OrElse(Join(Slice(lines, 1, 6), " "), DefaultBodyTemplate),
      suggestedAttachments := Slice(lines, 6, 8),
      recommendedAgencies := Slice(lines, 8, 10),
      tips := Slice(lines, 10, 15))
  }

  /** The three lists of a template are, in order, exactly the non-blank lines 6 to 14. */
  lemma TemplateListsAreLinesSixToFourteen(response: string)
    ensures var r := ParseTemplateResponse(response);
      r.suggestedAttachments + r.recommendedAgencies + r.tips == Slice(NonBlankLines(response), 6, 15)
  {
    var lines := NonBlankLines(response);
    SliceAdjacent(lines, 6, 8, 10);
    SliceAdjacent(lines, 6, 10, 15);
  }

  /** The subject and body templates are single lines, defaults only when lines are missing. */
  lemma TemplateTextFields(response: string)
    ensures var r := ParseTemplateResponse(response);
      var lines := NonBlankLines(response);
      && '\n' !in r.subjectTemplate && '\n' !in r.bodyTemplate
      && (lines != [] ==> r.subjectTemplate == lines[0])
      && (lines == [] ==> r.subjectTemplate == DefaultSubjectTemplate)
      && (|lines| <= 1 ==> r.bodyTemplate == DefaultBodyTemplate)
      && (|lines| >= 2 ==> r.bodyTemplate[..|lines[1]|] == lines[1])
  {
    JoinedRange(NonBlankLines(response), 1, 6);
    DefaultsAreSingleLines();
  }

  /** With a second non-blank line, the body template is lines 1 to 5, in order, one space between each two. */
  lemma TemplateBodyLayout(response: string)
    requires |NonBlankLines(response)| >= 2
    ensures LaidOut(ParseTemplateResponse(response).bodyTemplate, Slice(NonBlankLines(response), 1, 6), ' ')
  {
    var body := Slice(NonBlankLines(response), 1, 6);
    JoinLines(body);
    JoinLaidOut(body, ' ');
  }

  lemma DefaultsAreSingleLines()
    ensures '\n' !in DefaultSubject && '\n' !in DefaultDescription
    ensures '\n' !in DefaultSubjectTemplate && '\n' !in DefaultBodyTemplate
  {
  }

  /** `generateTemplate`: ask the model for the category and parse its answer. */
  function GenerateTemplate(category: string, complete: string -> string): (r: FoiaTemplate)
    ensures r.category == TemplateCategory
    ensures |r.suggestedAttachments| <= 2 && |r.recommendedAgencies| <= 2 && |r.tips| <= 5
  {
    ParseTemplateResponse(complete(category))
  }
}
