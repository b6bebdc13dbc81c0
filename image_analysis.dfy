/**
 * The image analysis service: the data-URL header removed from the image before it is
 * sent, and the analysis read back from the language model's answer. The model is a
 * parameter from the base64 data to its answer.
 */
module ImageAnalysis {
  import opened Seqs
  import opened Text

  const DataUrlHead := "data:image/"
  const Base64Marker := ";base64,"
  const DescriptionLength := 100
  const RelevanceEnd := 200
  const UnknownLocation := "unknown"

  datatype ImageAnalysis = ImageAnalysis(
    description: string,
    keyElements: seq<string>,
    people: seq<string>,
    locationType: string,
    visibleText: string,
    legalRelevance: string)

  /**
   * `replace(/^data:image\/\w+;base64,/, '')`: a leading "data:image/", one or more word
   * characters and ";base64," are removed; any other input is left as it is.
   */
  function StripDataUrlPrefix(s: string): (r: string)
    ensures |r| <= |s| && r == s[|s| - |r|..]
  {
    if StartsWith(s, DataUrlHead) then
      var rest := s[|DataUrlHead|..];
      var k := LeadingRun(rest, IsWordChar);
      if k > 0 && StartsWith(rest[k..], Base64Marker) then rest[k + |Base64Marker|..] else s
    else s
  }

  /** A well-formed header is removed exactly, leaving the data after it. */
  lemma StripsDataUrlPrefix(format: string, data: string)
    requires |format| > 0 && forall i :: 0 <= i < |format| ==> IsWordChar(format[i])
    ensures StripDataUrlPrefix(DataUrlHead + format + Base64Marker + data) == data
  {
    var s := DataUrlHead + format + Base64Marker + data;
    assert s[..|DataUrlHead|] == DataUrlHead;
    var rest := s[|DataUrlHead|..];
    assert rest == format + (Base64Marker + data);
    assert !IsWordChar((Base64Marker + data)[0]);
    LeadingRunOf(format, Base64Marker + data, IsWordChar);
    assert rest[|format|..] == Base64Marker + data;
    assert (Base64Marker + data)[..|Base64Marker|] == Base64Marker;
    assert rest[|format| + |Base64Marker|..] == data;
  }

  /**
   * Only such a header is ever removed: when the result differs from the input, the input
   * is "data:image/", a non-empty run of word characters, ";base64," and then the result.
   */
  lemma StripRemovesOnlyDataUrlPrefix(s: string)
    ensures var r := StripDataUrlPrefix(s);
      var n := |s| - |r| - |DataUrlHead| - |Base64Marker|;
      r == s || (n > 0
        && s == DataUrlHead + s[|DataUrlHead|..|DataUrlHead| + n] + Base64Marker + r
        && forall i :: |DataUrlHead| <= i < |DataUrlHead| + n ==> IsWordChar(s[i]))
  {
    var r := StripDataUrlPrefix(s);
    if r != s {
      var rest := s[|DataUrlHead|..];
      var k := LeadingRun(rest, IsWordChar);
      assert r == rest[k + |Base64Marker|..];
      assert |s| - |r| - |DataUrlHead| - |Base64Marker| == k;
      assert rest[k..k + |Base64Marker|] == Base64Marker;
      assert s == s[..|DataUrlHead|] + rest[..k] + rest[k..k + |Base64Marker|] + r;
      assert s[|DataUrlHead|..|DataUrlHead| + k] == rest[..k];
      forall i | |DataUrlHead| <= i < |DataUrlHead| + k
        ensures IsWordChar(s[i])
      {
        assert s[i] == rest[i - |DataUrlHead|];
      }
    }
  }

  /**
   * `parseImageAnalysisResponse`: the answer's first 100 characters are the description
   * and the next 100 the legal relevance; the lists are empty, the location "unknown" and
   * the visible text empty.
   */
  function ParseImageAnalysisResponse(response: string): (r: ImageAnalysis)
    ensures r.keyElements == [] && r.people == [] && r.locationType == UnknownLocation && r.visibleText == []
    ensures |r.description| == Clamp(DescriptionLength, |response|)
    ensures r.legalRelevance == [] <==> |response| <= DescriptionLength
  {
    ImageAnalysis(
      description := Slice(response, 0, DescriptionLength),
      keyElements := [],
      people := [],
      locationType := UnknownLocation,
      visibleText := [],
      legalRelevance := Slice(response, DescriptionLength, RelevanceEnd))
  }

  /** The description and the legal relevance together are the first 200 characters of the answer. */
  lemma ImageTextIsFirst200(response: string)
    ensures var r := ParseImageAnalysisResponse(response);
      r.description + r.legalRelevance == Prefix(response, RelevanceEnd)
  {
    SliceAdjacent(response, 0, DescriptionLength, RelevanceEnd);
  }

  /** `analyzeImage`: ask the model about the image data without its header and parse the answer. */
  function AnalyzeImage(imageBase64: string, generate: string -> string): (r: ImageAnalysis)
    ensures |r.description| <= DescriptionLength && |r.legalRelevance| <= RelevanceEnd - DescriptionLength
  {
    ParseImageAnalysisResponse(generate(StripDataUrlPrefix(imageBase64)))
  }

  /** The model is asked about the base64 data alone: an image given with its header is analysed as the bare data. */
  lemma HeaderNeverReachesModel(format: string, data: string, generate: string -> string)
    requires |format| > 0 && forall i :: 0 <= i < |format| ==> IsWordChar(format[i])
    ensures AnalyzeImage(DataUrlHead + format + Base64Marker + data, generate) == ParseImageAnalysisResponse(generate(data))
  {
    StripsDataUrlPrefix(format, data);
  }
}
