/**
 * The search over the cases kept in the browser: a case, document, evidence item,
 * timeline event or FOIA request is a result when one of its text fields contains the
 * term, compared in lower case; the dates of timeline events are compared with the term
 * as typed. Results come case by case, and within a case in the order case, documents,
 * evidence, timeline, FOIA requests.
 */
module CaseSearch {
  import opened Wrappers
  import opened Seqs
  import opened Text
  import opened Cases

  const ExcerptLength := 100
  const Ellipsis := "..."

  datatype ResultKind = CaseKind | DocumentKind | EvidenceKind | TimelineKind | FoiaKind

  datatype SearchResult = SearchResult(
    kind: ResultKind,
    title: string,
    description: string,
    id: string,
    caseId: Option<string>,
    date: Option<string>)

  /** What the search shows: nothing at all for an empty term, otherwise a list of results (possibly none). */
  datatype SearchOutcome = Cleared | Results(results: seq<SearchResult>)

  /** `field && field.toLowerCase().includes(lowerTerm)`. */
  predicate FieldMatches(field: string, lowerTerm: string) {
    field != [] && Contains(ToLower(field), lowerTerm)
  }

  /** `ev.date && ev.date.includes(term)`: the date is compared with the term as typed. */
  predicate DateMatches(date: string, term: string) {
    date != [] && Contains(date, term)
  }

  /** `text ? text.substring(0, 100) + '...' : ''`. */
  function Excerpt(text: string): (r: string)
    ensures text == [] ==> r == []
    ensures text != [] ==>
      && |r| == Clamp(ExcerptLength, |text|) + |Ellipsis|
      && r[..|r| - |Ellipsis|] == text[..|r| - |Ellipsis|]
      && r[|r| - |Ellipsis|..] == Ellipsis
  {
    if text != [] then Prefix(text, ExcerptLength) + Ellipsis else []
  }

  predicate CaseMatches(c: Case, lowerTerm: string) {
    FieldMatches(c.title, lowerTerm) || FieldMatches(c.description, lowerTerm)
  }

  predicate DocumentMatches(d: Document, lowerTerm: string) {
    FieldMatches(d.name, lowerTerm) || FieldMatches(d.content, lowerTerm)
  }

  /** Evidence is searched by its name only. */
  predicate EvidenceMatches(e: Evidence, lowerTerm: string) {
    FieldMatches(e.name, lowerTerm)
  }

  predicate EventMatches(e: TimelineEvent, term: string, lowerTerm: string) {
    FieldMatches(e.title, lowerTerm) || FieldMatches(e.description, lowerTerm) || DateMatches(e.date, term)
  }

  predicate FoiaMatches(f: FoiaRequest, lowerTerm: string) {
    FieldMatches(f.subject, lowerTerm) || FieldMatches(f.description, lowerTerm)
  }

  function CaseResult(c: Case): SearchResult {
    SearchResult(CaseKind, c.title, c.description, c.id, None, None)
  }

  function DocumentResult(caseId: string, d: Document): SearchResult {
    SearchResult(DocumentKind, d.name, Excerpt(d.content), d.id, Some(caseId), None)
  }

  /** `ev.url || ''` is the url itself: a missing url is the empty string here. */
  function EvidenceResult(caseId: string, e: Evidence): SearchResult {
    SearchResult(EvidenceKind, e.name, e.url, e.id, Some(caseId), None)
  }

  function EventResult(caseId: string, e: TimelineEvent): SearchResult {
    SearchResult(TimelineKind, e.title, e.description, e.id, Some(caseId), Some(e.date))
  }

  function FoiaResult(caseId: string, f: FoiaRequest): SearchResult {
    SearchResult(FoiaKind, f.subject, Excerpt(f.description), f.id, Some(caseId), None)
  }

  // What one case or one item contributes: its result when it matches, nothing otherwise.

  function CaseHit(c: Case, lowerTerm: string): seq<SearchResult> {
    if CaseMatches(c, lowerTerm) then [CaseResult(c)] else []
  }

  function DocumentHit(caseId: string, lowerTerm: string, d: Document): seq<SearchResult> {
    if DocumentMatches(d, lowerTerm) then [DocumentResult(caseId, d)] else []
  }

  function EvidenceHit(caseId: string, lowerTerm: string, e: Evidence): seq<SearchResult> {
    if EvidenceMatches(e, lowerTerm) then [EvidenceResult(caseId, e)] else []
  }

  function EventHit(caseId: string, term: string, lowerTerm: string, e: TimelineEvent): seq<SearchResult> {
    if EventMatches(e, term, lowerTerm) then [EventResult(caseId, e)] else []
  }

  function FoiaHit(caseId: string, lowerTerm: string, f: FoiaRequest): seq<SearchResult> {
    if FoiaMatches(f, lowerTerm) then [FoiaResult(caseId, f)] else []
  }

  // The same, as functions of the item alone, for the walks over a case's lists.

  function DocumentHitOf(caseId: string, lowerTerm: string): Document -> seq<SearchResult> {
    d => DocumentHit(caseId, lowerTerm, d)
  }

  function EvidenceHitOf(caseId: string, lowerTerm: string): Evidence -> seq<SearchResult> {
    e => EvidenceHit(caseId, lowerTerm, e)
  }

  function EventHitOf(caseId: string, term: string, lowerTerm: string): TimelineEvent -> seq<SearchResult> {
    e => EventHit(caseId, term, lowerTerm, e)
  }

  function FoiaHitOf(caseId: string, lowerTerm: string): FoiaRequest -> seq<SearchResult> {
    f => FoiaHit(caseId, lowerTerm, f)
  }

  function DocumentHits(caseId: string, lowerTerm: string, docs: seq<Document>): seq<SearchResult> {
    FlatMap(docs, DocumentHitOf(caseId, lowerTerm))
  }

  function EvidenceHits(caseId: string, lowerTerm: string, evidence: seq<Evidence>): seq<SearchResult> {
    FlatMap(evidence, EvidenceHitOf(caseId, lowerTerm))
  }

  function EventHits(caseId: string, term: string, lowerTerm: string, events: seq<TimelineEvent>): seq<SearchResult> {
    FlatMap(events, EventHitOf(caseId, term, lowerTerm))
  }

  function FoiaHits(caseId: string, lowerTerm: string, requests: seq<FoiaRequest>): seq<SearchResult> {
    FlatMap(requests, FoiaHitOf(caseId, lowerTerm))
  }

  /** The results of one case, in the order the search visits its parts; a missing list gives nothing. */
  function CaseResults(c: Case, term: string, lowerTerm: string): seq<SearchResult> {
    CaseHit(c, lowerTerm)
      + DocumentHits(c.id, lowerTerm, OrEmpty(c.documents))
      + EvidenceHits(c.id, lowerTerm, OrEmpty(c.evidence))
      + EventHits(c.id, term, lowerTerm, OrEmpty(c.timeline))
      + FoiaHits(c.id, lowerTerm, OrEmpty(c.foia))
  }

  function CaseResultsOf(term: string, lowerTerm: string): Case -> seq<SearchResult> {
    c => CaseResults(c, term, lowerTerm)
  }

  /** The results of all the cases, case by case. */
  function AllResults(cases: seq<Case>, term: string, lowerTerm: string): seq<SearchResult> {
    FlatMap(cases, CaseResultsOf(term, lowerTerm))
  }

  /** The walk over the cases, one case further. */
  lemma AllResultsExtend(done: seq<Case>, c: Case, term: string, lowerTerm: string)
    ensures AllResults(done + [c], term, lowerTerm) == AllResults(done, term, lowerTerm) + CaseResults(c, term, lowerTerm)
  {
    var all := done + [c];
    assert all[..|all| - 1] == done;
  }

  /** `search(term)`: an empty term clears the results; otherwise the results for the lowered term are shown. */
  function Search(cases: seq<Case>, term: string): (r: SearchOutcome)
    ensures term == [] <==> r.Cleared?
  {
    if term == [] then Cleared else Results(AllResults(cases, term, ToLower(term)))
  }

  /** The case a click on a result selects: the result's own id for a case, its case's id otherwise. */
  function ClickTarget(r: SearchResult): string {
    if r.kind == CaseKind then r.id else r.caseId.GetOr([])
  }

  /** Searching a list of cases split in two gives the first part's results, then the second's. */
  lemma SearchFollowsCaseOrder(a: seq<Case>, b: seq<Case>, term: string)
    requires term != []
    ensures Search(a + b, term).results == Search(a, term).results + Search(b, term).results
  {
    FlatMapAppend(a, b, CaseResultsOf(term, ToLower(term)));
  }

  /** A result is in the search exactly when it is one of the results of some case. */
  lemma SearchFindsExactly(cases: seq<Case>, term: string, r: SearchResult)
    requires term != []
    ensures r in Search(cases, term).results <==>
      exists k :: 0 <= k < |cases| && r in CaseResults(cases[k], term, ToLower(term))
  {
    FlatMapMember(cases, CaseResultsOf(term, ToLower(term)), r);
  }

  /**
   * The results of a case are exactly: the case itself when it matches, and each of its
   * matching documents, evidence items, events and FOIA requests, labelled with the case's id.
   */
  lemma CaseResultsExactly(c: Case, term: string, lowerTerm: string, r: SearchResult)
    ensures r in CaseResults(c, term, lowerTerm) <==>
      || (CaseMatches(c, lowerTerm) && r == CaseResult(c))
      || (exists d :: d in OrEmpty(c.documents) && DocumentMatches(d, lowerTerm) && r == DocumentResult(c.id, d))
      || (exists e :: e in OrEmpty(c.evidence) && EvidenceMatches(e, lowerTerm) && r == EvidenceResult(c.id, e))
      || (exists e :: e in OrEmpty(c.timeline) && EventMatches(e, term, lowerTerm) && r == EventResult(c.id, e))
      || (exists f :: f in OrEmpty(c.foia) && FoiaMatches(f, lowerTerm) && r == FoiaResult(c.id, f))
  {
    var docs, evidence, events, requests := OrEmpty(c.documents), OrEmpty(c.evidence), OrEmpty(c.timeline), OrEmpty(c.foia);
    FlatMapMember(docs, DocumentHitOf(c.id, lowerTerm), r);
    FlatMapMember(evidence, EvidenceHitOf(c.id, lowerTerm), r);
    FlatMapMember(events, EventHitOf(c.id, term, lowerTerm), r);
    FlatMapMember(requests, FoiaHitOf(c.id, lowerTerm), r);
  }

  /** Every result of a case, when clicked, selects that case. */
  lemma CaseResultsSelectTheirCase(c: Case, term: string, lowerTerm: string, r: SearchResult)
    requires r in CaseResults(c, term, lowerTerm)
    ensures ClickTarget(r) == c.id
    ensures r.kind == CaseKind <==> r.caseId.None?
  {
    CaseResultsExactly(c, term, lowerTerm, r);
  }

  /** Clicking any result of a search selects a case that is in the list. */
  lemma ClickSelectsExistingCase(cases: seq<Case>, term: string, r: SearchResult)
    requires term != []
    requires r in Search(cases, term).results
    ensures FindCase(cases, ClickTarget(r)).Some?
  {
    SearchFindsExactly(cases, term, r);
    var k :| 0 <= k < |cases| && r in CaseResults(cases[k], term, ToLower(term));
    CaseResultsSelectTheirCase(cases[k], term, ToLower(term), r);
  }

  /** Each case and each item gives at most one result. */
  lemma AtMostOneResultPerItem(c: Case, term: string, lowerTerm: string)
    ensures |CaseResults(c, term, lowerTerm)| <=
      1 + |OrEmpty(c.documents)| + |OrEmpty(c.evidence)| + |OrEmpty(c.timeline)| + |OrEmpty(c.foia)|
  {
    FlatMapAtMostOne(OrEmpty(c.documents), DocumentHitOf(c.id, lowerTerm));
    FlatMapAtMostOne(OrEmpty(c.evidence), EvidenceHitOf(c.id, lowerTerm));
    FlatMapAtMostOne(OrEmpty(c.timeline), EventHitOf(c.id, term, lowerTerm));
    FlatMapAtMostOne(OrEmpty(c.foia), FoiaHitOf(c.id, lowerTerm));
  }

  /** A case added at the end contributes its results after those of the cases before it. */
  lemma SearchAfterAddingCase(cases: seq<Case>, c: Case, term: string)
    requires term != []
    ensures Search(cases + [c], term).results == Search(cases, term).results + CaseResults(c, term, ToLower(term))
  {
    SearchFollowsCaseOrder(cases, [c], term);
    assert [c][..0] == [];
  }
}
