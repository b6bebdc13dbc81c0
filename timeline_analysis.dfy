/**
 * The timeline analysis service: the events of a case rendered one per line for the
 * language model, and the analysis read back from the first lines of its answer. The
 * model is a parameter from the rendered timeline to its answer.
 */
module TimelineAnalysis {
  import opened Wrappers
  import opened Seqs
  import opened Text

  const NoDescription := "No description"

  datatype TimelineEvent = TimelineEvent(date: string, title: string, description: Option<string>)

  /** A stretch of the timeline, with what it is about. */
  datatype Period = Period(startDate: string, endDate: string, description: string)

  datatype TimelineAnalysis = TimelineAnalysis(
    insights: seq<string>,
    gaps: seq<Period>,
    criticalPeriods: seq<Period>,
    suggestions: seq<string>)

  /** The analysis returned for a case without events: everything empty. */
  const EmptyAnalysis := TimelineAnalysis([], [], [], [])

  /** The events `getTimelineEvents` returns for every case: three fixed entries. */
  const MockEvents := [
    TimelineEvent("2023-01-01", "Case Filed", Some("Initial case filing")),
    TimelineEvent("2023-01-15", "Evidence Collected", Some("Collection of initial evidence")),
    TimelineEvent("2023-02-01", "Witness Interviewed", Some("Interview with key witness"))]

  /** One event as a line: "date: title - description", with "No description" for a missing or empty one. */
  function FormatEvent(e: TimelineEvent): (line: string)
    ensures |line| >= |e.date| + 2 && line[..|e.date| + 2] == e.date + ": "
    ensures |line| >= |e.date| + |e.title| + 5
    ensures line[|e.date| + 2..|e.date| + |e.title| + 5] == e.title + " - "
    ensures e.description.Some? && e.description.value != [] ==>
      |line| == |e.date| + |e.title| + 5 + |e.description.value|
    ensures e.description.None? || e.description.value == [] ==>
      |line| == |e.date| + |e.title| + 5 + |NoDescription|
    ensures e.description.Some? && e.description.value != [] ==>
      |line| >= |e.description.value| && line[|line| - |e.description.value|..] == e.description.value
    ensures e.description.None? || e.description.value == [] ==>
      |line| >= |NoDescription| && line[|line| - |NoDescription|..] == NoDescription
  {
    e.date + ": " + e.title + " - " + OrElse(e.description.GetOr(""), NoDescription)
  }

  /** The rendered timeline: the events' lines joined with line feeds. */
  function FormatEvents(events: seq<TimelineEvent>): string {
    Join(EventLines(events), "\n")
  }

  /** The events' lines, one per event, in order. */
  function EventLines(events: seq<TimelineEvent>): (lines: seq<string>)
    ensures |lines| == |events|
    ensures forall i :: 0 <= i < |events| ==> lines[i] == FormatEvent(events[i])
  {
    Map(events, FormatEvent)
  }

  /** An event whose fields hold no line feed renders as a single line. */
  predicate SingleLineEvent(e: TimelineEvent) {
    '\n' !in e.date && '\n' !in e.title && (e.description.Some? ==> '\n' !in e.description.value)
  }

  lemma SeparatorsAreSingleLine()
    ensures '\n' !in ": " && '\n' !in " - " && '\n' !in NoDescription
  {
  }

  lemma FormatEventSingleLine(e: TimelineEvent)
    requires SingleLineEvent(e)
    ensures '\n' !in FormatEvent(e)
  {
    SeparatorsAreSingleLine();
    var d := OrElse(e.description.GetOr(""), NoDescription);
    assert '\n' !in d;
    assert FormatEvent(e) == e.date + ": " + e.title + " - " + d;
  }

  /** Single-line events render as single lines, which split back apart once joined. */
  lemma EventLinesSplitBack(events: seq<TimelineEvent>, lines: seq<string>)
    requires |events| >= 1
    requires forall i :: 0 <= i < |events| ==> SingleLineEvent(events[i])
    requires lines == EventLines(events)
    ensures Split(Join(lines, "\n"), '\n') == lines
  {
    forall i | 0 <= i < |lines|
      ensures '\n' !in lines[i]
    {
      FormatEventSingleLine(events[i]);
    }
    SplitJoinLines(lines);
  }

  /** Splitting the rendered timeline at line feeds gives back one line per event, in order. */
  lemma FormatEventsSplitsBack(events: seq<TimelineEvent>)
    requires |events| >= 1
    requires forall i :: 0 <= i < |events| ==> SingleLineEvent(events[i])
    ensures Split(FormatEvents(events), '\n') == EventLines(events)
  {
    EventLinesSplitBack(events, EventLines(events));
  }

  /**
   * `parseAnalysisResponse`: the answer's lines 0 to 2 are the insights and lines 3 to 5
   * the suggestions; gaps and critical periods stay empty. The split always has a first
   * piece, so there is at least one insight.
   */
  function ParseAnalysisResponse(response: string): (r: TimelineAnalysis)
    ensures 1 <= |r.insights| <= 3 && |r.suggestions| <= 3
    ensures r.gaps == [] && r.criticalPeriods == []
    ensures var pieces := Split(response, '\n');
      && |r.insights| == Clamp(3, |pieces|)
      && (forall i :: 0 <= i < |r.insights| ==> r.insights[i] == pieces[i])
      && |r.suggestions| == Clamp(6, |pieces|) - Clamp(3, |pieces|)
      && (forall i :: 0 <= i < |r.suggestions| ==> r.suggestions[i] == pieces[3 + i])
  {
    var pieces := Split(response, '\n');
    TimelineAnalysis(
      insights := Slice(pieces, 0, 3),
      gaps := [],
      criticalPeriods := [],
      suggestions := Slice(pieces, 3, 6))
  }

  /** Insights then suggestions are the first six lines of the answer, each without a line feed. */
  lemma AnalysisIsFirstSixLines(response: string)
    ensures var r := ParseAnalysisResponse(response);
      && r.insights + r.suggestions == Prefix(Split(response, '\n'), 6)
      && (forall i :: 0 <= i < |r.insights| ==> '\n' !in r.insights[i])
      && (forall i :: 0 <= i < |r.suggestions| ==> '\n' !in r.suggestions[i])
  {
    SliceAdjacent(Split(response, '\n'), 0, 3, 6);
  }

  /** An answer of one line is one insight and no suggestion. */
  lemma SingleLineAnswer(response: string)
    requires '\n' !in response
    ensures ParseAnalysisResponse(response) == TimelineAnalysis([response], [], [], [])
  {
    SplitWithoutSeparator(response, '\n');
  }

  /**
   * `analyzeTimeline` on given events: no events give the empty analysis without asking
   * the model; otherwise the model's answer on the rendered events is parsed.
   */
  function AnalyzeTimeline(events: seq<TimelineEvent>, generate: string -> string): (r: TimelineAnalysis)
    ensures events == [] <==> r == EmptyAnalysis
  {
    if |events| == 0 then EmptyAnalysis
    else ParseAnalysisResponse(generate(FormatEvents(events)))
  }

  /**
   * `analyzeTimeline(caseId)`: the events come from `getTimelineEvents`, which returns the
   * same three events whatever the case, so the empty branch is never taken and every case
   * gets the analysis of the same rendered timeline.
   */
  function AnalyzeCaseTimeline(caseId: string, generate: string -> string): (r: TimelineAnalysis)
    ensures r != EmptyAnalysis && |r.insights| >= 1
  {
    AnalyzeTimeline(MockEvents, generate)
  }

  /** The case id plays no part: every case gets the analysis of the same three events. */
  lemma EveryCaseGetsTheSameAnalysis(caseA: string, caseB: string, generate: string -> string)
    ensures AnalyzeCaseTimeline(caseA, generate) == AnalyzeCaseTimeline(caseB, generate)
    ensures AnalyzeCaseTimeline(caseA, generate) == ParseAnalysisResponse(generate(FormatEvents(MockEvents)))
  {
  }
}
