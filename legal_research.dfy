/**
 * The legal research service: the search queries and the research summary cut out of
 * the language model's answer. The model is a parameter from the prompt's inputs to its
 * answer.
 */
module LegalResearch {
  import opened Seqs
  import opened Text

  const MaxQueries := 5

  datatype ResearchSummary = ResearchSummary(
    summary: string,
    precedents: seq<string>,
    statutes: seq<string>,
    principles: seq<string>,
    application: string)

  /** A line that is kept as a query: not blank, and not starting with '#' as it stands (untrimmed). */
  predicate IsQueryLine(line: string) {
    Trim(line) != [] && !StartsWith(line, "#")
  }

  /**
   * `line.replace(/^\d+\.\s*\/, '')`: one or more leading digits followed by a dot, and
   * the white space after the dot, are removed; anything else leaves the line unchanged.
   */
  function StripNumbering(line: string): (r: string)
    ensures |r| <= |line| && r == line[|line| - |r|..]
    ensures var k := LeadingRun(line, IsDigit);
      if 0 < k < |line| && line[k] == '.' then r == TrimStart(line[k + 1..]) else r == line
  {
    var k := LeadingRun(line, IsDigit);
    if 0 < k < |line| && line[k] == '.' then TrimStart(line[k + 1..]) else line
  }

  /** A numbered line loses its number, its dot and the white space after them. */
  lemma StripNumberingRemovesNumber(digits: string, gap: string, text: string)
    requires |digits| > 0 && forall i :: 0 <= i < |digits| ==> IsDigit(digits[i])
    requires IsBlank(gap)
    requires text == [] || !IsSpace(text[0])
    ensures StripNumbering(digits + "." + gap + text) == text
  {
    var line := digits + "." + gap + text;
    assert line == digits + ("." + gap + text);
    LeadingRunOf(digits, "." + gap + text, IsDigit);
    assert line[|digits|] == '.';
    assert line[|digits| + 1..] == gap + text;
    TrimStartOfBlank(gap, text);
  }

  /** Trimming the start of blank text followed by text that starts with a non-space leaves that text. */
  lemma {:induction false} TrimStartOfBlank(gap: string, text: string)
    requires IsBlank(gap)
    requires text == [] || !IsSpace(text[0])
    ensures TrimStart(gap + text) == text
  {
    if gap == [] {
      assert gap + text == text;
    } else {
      assert (gap + text)[0] == gap[0];
      assert (gap + text)[1..] == gap[1..] + text;
      TrimStartOfBlank(gap[1..], text);
    }
  }

  /** A query: the line without its numbering, trimmed. */
  function CleanQuery(line: string): (q: string)
    ensures q == [] || (!IsSpace(q[0]) && !IsSpace(q[|q| - 1]))
  {
    Trim(StripNumbering(line))
  }

  /** A numbered line gives the trimmed text after its number and dot. */
  lemma NumberedLineQuery(digits: string, text: string)
    requires |digits| > 0 && forall i :: 0 <= i < |digits| ==> IsDigit(digits[i])
    ensures CleanQuery(digits + "." + text) == Trim(text)
  {
    var line := digits + "." + text;
    assert line == digits + ("." + text);
    LeadingRunOf(digits, "." + text, IsDigit);
    assert line[|digits|] == '.';
    assert line[|digits| + 1..] == text;
    TrimAfterTrimStart(text);
  }

  /** A line that does not start with a digit is only trimmed. */
  lemma UnnumberedLineQuery(line: string)
    requires line == [] || !IsDigit(line[0])
    ensures CleanQuery(line) == Trim(line)
  {
    assert LeadingRun(line, IsDigit) == 0;
  }

  /** The lines of the answer that are kept as queries, in order. */
  function QueryLines(response: string): (lines: seq<string>)
    ensures forall i :: 0 <= i < |lines| ==> IsQueryLine(lines[i])
  {
    Filter(Split(response, '\n'), IsQueryLine)
  }

  /**
   * `parseQueriesResponse`: at most five queries, the cleaned query lines in their order;
   * fewer only when the answer has fewer query lines.
   */
  function ParseQueriesResponse(response: string): (queries: seq<string>)
    ensures |queries| == Clamp(MaxQueries, |QueryLines(response)|)
    ensures forall i :: 0 <= i < |queries| ==> queries[i] == CleanQuery(QueryLines(response)[i])
  {
    Prefix(Map(QueryLines(response), CleanQuery), MaxQueries)
  }

  /** A cleaned query is trimmed already, so trimming it again changes nothing. */
  lemma CleanQueryIsTrimmed(line: string)
    ensures Trim(CleanQuery(line)) == CleanQuery(line)
  {
    TrimUnchanged(CleanQuery(line));
  }

  /** Every query of an answer is trimmed. */
  lemma QueriesAreTrimmed(response: string, i: nat)
    requires i < |ParseQueriesResponse(response)|
    ensures Trim(ParseQueriesResponse(response)[i]) == ParseQueriesResponse(response)[i]
  {
    CleanQueryIsTrimmed(QueryLines(response)[i]);
  }

  /** A line is a query line exactly when it is a piece of the answer, not blank, and not a '#' line. */
  lemma QueryLinesMember(response: string, line: string)
    ensures line in QueryLines(response) <==>
      line in Split(response, '\n') && !IsBlank(line) && !StartsWith(line, "#")
  {
    FilterMember(Split(response, '\n'), IsQueryLine, line);
    TrimEmptyIffBlank(line);
  }

  /** The '#' test looks at the untrimmed line: a heading indented by white space is kept. */
  lemma IndentedHeadingIsKept(indent: string, heading: string)
    requires indent != [] && IsBlank(indent)
    requires !IsBlank(heading)
    ensures IsQueryLine(indent + heading)
  {
    var line := indent + heading;
    assert line[..1] != "#" by {
      assert line[..1][0] == indent[0] && IsSpace(indent[0]);
    }
    assert !IsBlank(line) by {
      var k :| 0 <= k < |heading| && !IsSpace(heading[k]);
      assert line[|indent| + k] == heading[k];
    }
    TrimEmptyIffBlank(line);
  }

  /** A line that holds only a number and a dot survives the filter but gives an empty query. */
  lemma NumberOnlyLineGivesEmptyQuery(digits: string)
    requires |digits| > 0 && forall i :: 0 <= i < |digits| ==> IsDigit(digits[i])
    ensures IsQueryLine(digits + ".")
    ensures CleanQuery(digits + ".") == []
  {
    var line := digits + ".";
    assert line[0] == digits[0];
    assert !IsBlank(line) by {
      assert !IsSpace(line[0]);
    }
    TrimEmptyIffBlank(line);
    assert !StartsWith(line, "#") by {
      assert line[..1][0] == line[0];
    }
    StripNumberingRemovesNumber(digits, [], []);
    assert digits + "." + [] + [] == line;
  }

  /**
   * `parseSummaryResponse`: non-blank lines 0 to 2 joined with spaces are the summary,
   * then 3 precedents, 3 statutes, 3 principles, and lines 12 to 14 joined the application.
   */
  function ParseSummaryResponse(response: string): (r: ResearchSummary)
    ensures |r.precedents| <= 3 && |r.statutes| <= 3 && |r.principles| <= 3
    ensures var lines := NonBlankLines(response);
      && |r.precedents| == Clamp(6, |lines|) - Clamp(3, |lines|)
      && (forall i :: 0 <= i < |r.precedents| ==> r.precedents[i] == lines[3 + i])
      && |r.statutes| == Clamp(9, |lines|) - Clamp(6, |lines|)
      && (forall i :: 0 <= i < |r.statutes| ==> r.statutes[i] == lines[6 + i])
      && |r.principles| == Clamp(12, |lines|) - Clamp(9, |lines|)
      && (forall i :: 0 <= i < |r.principles| ==> r.principles[i] == lines[9 + i])
  {
    var lines := NonBlankLines(response);
    ResearchSummary(
      summary := Join(Slice(lines, 0, 3), " "),
      precedents := Slice(lines, 3, 6),
      statutes := Slice(lines, 6, 9),
      principles := Slice(lines, 9, 12),
      application := Join(Slice(lines, 12, 15), " "))
  }

  /** The three lists are, in order, exactly the non-blank lines 3 to 11 of the answer. */
  lemma SummaryListsAreLinesThreeToEleven(response: string)
    ensures var r := ParseSummaryResponse(response);
      r.precedents + r.statutes + r.principles == Slice(NonBlankLines(response), 3, 12)
  {
    var lines := NonBlankLines(response);
    SliceAdjacent(lines, 3, 6, 9);
    SliceAdjacent(lines, 3, 9, 12);
  }

  /**
   * The summary and the application are single lines; the summary is empty only for an
   * answer without any non-blank line, the application only when there are at most 12.
   */
  lemma SummaryTextFields(response: string)
    ensures var r := ParseSummaryResponse(response);
      var lines := NonBlankLines(response);
      && '\n' !in r.summary && '\n' !in r.application
      && (r.summary == [] <==> lines == [])
      && (r.application == [] <==> |lines| <= 12)
      && (lines != [] ==> r.summary[..|lines[0]|] == lines[0])
  {
    var r := ParseSummaryResponse(response);
    var lines := NonBlankLines(response);
    JoinedRange(lines, 0, 3);
    JoinedRange(lines, 12, 15);
  }

  /**
   * The summary is non-blank lines 0 to 2 and the application lines 12 to 14, each in
   * order with one space between each two, whenever the answer has those lines.
   */
  lemma SummaryTextLayout(response: string)
    ensures var r := ParseSummaryResponse(response);
      var lines := NonBlankLines(response);
      && (lines != [] ==> LaidOut(r.summary, Slice(lines, 0, 3), ' '))
      && (|lines| > 12 ==> LaidOut(r.application, Slice(lines, 12, 15), ' '))
  {
    var lines := NonBlankLines(response);
    if lines != [] {
      JoinLaidOut(Slice(lines, 0, 3), ' ');
    }
    if |lines| > 12 {
      JoinLaidOut(Slice(lines, 12, 15), ' ');
    }
  }

  /** `generateResearchQueries`: ask the model about the case and issue, parse the queries. */
  function GenerateResearchQueries(caseDescription: string, issue: string, complete: (string, string) -> string): (queries: seq<string>)
    ensures |queries| <= MaxQueries
  {
    ParseQueriesResponse(complete(caseDescription, issue))
  }

  /** `summarizeResearchResults`: ask the model to summarise the results, parse its answer. */
  function SummarizeResearchResults(results: string, complete: string -> string): (r: ResearchSummary)
    ensures |r.precedents| <= 3 && |r.statutes| <= 3 && |r.principles| <= 3
    ensures '\n' !in r.summary && '\n' !in r.application
  {
    SummaryTextFields(complete(results));
    ParseSummaryResponse(complete(results))
  }
}
