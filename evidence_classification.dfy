/**
 * The evidence classification service: the classification read from the language
 * model's answer. Only the tags and the description come from the answer; the other
 * fields are fixed. The model is a parameter from the evidence's name, description and
 * file type to its answer.
 */
module EvidenceClassification {
  import opened Seqs
  import opened Text

  const MaxTags := 5
  const DescriptionLength := 200
  const DefaultEvidenceType := "document"
  const DefaultRelevanceScore := 5

  /** The four sensitivity levels the classification may carry. */
  datatype Sensitivity = Public | Confidential | Sensitive | HighlySensitive

  /** The label each level has in the service's results. */
  function SensitivityLabel(s: Sensitivity): string {
    match s
    case Public => "public"
    case Confidential => "confidential"
    case Sensitive => "sensitive"
    case HighlySensitive => "highly sensitive"
  }

  datatype EvidenceClassification = EvidenceClassification(
    evidenceType: string,
    relevanceScore: int,
    tags: seq<string>,
    sensitivity: Sensitivity,
    description: string)

  /** `response.split(',').map(tag => tag.trim()).slice(0, 5)`: the first five pieces, trimmed. */
  function Tags(response: string): (tags: seq<string>)
    ensures |tags| == Clamp(MaxTags, |Split(response, ',')|) && 1 <= |tags| <= MaxTags
    ensures forall i :: 0 <= i < |tags| ==> tags[i] == Trim(Split(response, ',')[i])
  {
    var pieces := Split(response, ',');
    Prefix(Map(pieces, Trim), MaxTags)
  }

  /**
   * `parseClassificationResponse`: type "document", score 5 and sensitivity public whatever
   * the answer; the tags; and the first 200 characters as the description.
   */
  function ParseClassificationResponse(response: string): (r: EvidenceClassification)
    ensures r.evidenceType == DefaultEvidenceType && r.relevanceScore == DefaultRelevanceScore
    ensures r.sensitivity == Public
    ensures r.tags == Tags(response)
    ensures |r.description| == Clamp(DescriptionLength, |response|)
    ensures r.description == response[..|r.description|]
  {
    EvidenceClassification(
      evidenceType := DefaultEvidenceType,
      relevanceScore := DefaultRelevanceScore,
      tags := Tags(response),
      sensitivity := Public,
      description := Prefix(response, DescriptionLength))
  }

  /** No tag holds a comma or starts or ends with white space. */
  lemma TagsAreTrimmedPieces(response: string, i: nat)
    requires i < |Tags(response)|
    ensures var tag := Tags(response)[i];
      ',' !in tag && (tag == [] || (!IsSpace(tag[0]) && !IsSpace(tag[|tag| - 1])))
  {
    TrimAvoids(Split(response, ',')[i], ',');
  }

  /** An answer of at most 200 characters is the description as a whole. */
  lemma ShortAnswerIsDescription(response: string)
    requires |response| <= DescriptionLength
    ensures ParseClassificationResponse(response).description == response
  {
    assert response[..|response|] == response;
  }

  /** An answer without a comma gives one tag: the whole answer, trimmed. */
  lemma AnswerWithoutCommaIsOneTag(response: string)
    requires ',' !in response
    ensures Tags(response) == [Trim(response)]
  {
    SplitWithoutSeparator(response, ',');
  }

  /** `classifyEvidence`: ask the model about the item and parse its answer. */
  function ClassifyEvidence(evidenceId: string, name: string, description: string, fileType: string,
                            generate: (string, string, string) -> string): (r: EvidenceClassification)
    ensures r.evidenceType == DefaultEvidenceType && r.relevanceScore == DefaultRelevanceScore
    ensures r.sensitivity == Public && 1 <= |r.tags| <= MaxTags
  {
    ParseClassificationResponse(generate(name, description, fileType))
  }
}
