/**
 * The cases kept in the browser: each case with its documents, evidence, timeline events
 * and FOIA requests. A list that a stored case lacks is `None`; adding an item to such a
 * case creates the list. The functions here say what each add does to the list of cases.
 */
module Cases {
  import opened Wrappers

  const PendingStatus := "Pending"

  datatype Document = Document(id: string, name: string, content: string)

  datatype Evidence = Evidence(id: string, name: string, url: string)

  datatype TimelineEvent = TimelineEvent(id: string, date: string, title: string, description: string)

  datatype FoiaRequest = FoiaRequest(id: string, subject: string, description: string, status: string)

  datatype Case = Case(
    id: string,
    title: string,
    description: string,
    documents: Option<seq<Document>>,
    evidence: Option<seq<Evidence>>,
    timeline: Option<seq<TimelineEvent>>,
    foia: Option<seq<FoiaRequest>>)

  /** `list || []`: a missing list reads as empty. */
  function OrEmpty<T>(list: Option<seq<T>>): (r: seq<T>)
    ensures list.Some? ==> r == list.value
    ensures list.None? ==> r == []
  {
    list.GetOr([])
  }

  /** `cases.find(c => c.id === id)`, as the index of the first case with that id. */
  function FindCase(cases: seq<Case>, id: string): (r: Option<nat>)
    ensures r.None? <==> forall j :: 0 <= j < |cases| ==> cases[j].id != id
    ensures r.Some? ==> r.value < |cases| && cases[r.value].id == id
    ensures r.Some? ==> forall j :: 0 <= j < r.value ==> cases[j].id != id
  {
    if cases == [] then None
    else if cases[0].id == id then Some(0)
    else match FindCase(cases[1..], id)
      case None => None
      case Some(k) => Some(k + 1)
  }

  /** The search by id depends only on the ids, in order: cases with the same ids are found at the same place. */
  lemma {:induction false} FindCaseSameIds(a: seq<Case>, b: seq<Case>, id: string)
    requires |a| == |b|
    requires forall j :: 0 <= j < |a| ==> a[j].id == b[j].id
    ensures FindCase(a, id) == FindCase(b, id)
  {
    if a != [] {
      FindCaseSameIds(a[1..], b[1..], id);
    }
  }

  /** Appending a case changes the search for one id only when no earlier case has it. */
  lemma {:induction false} FindCaseAppend(cases: seq<Case>, c: Case, id: string)
    ensures FindCase(cases + [c], id) ==
      (if FindCase(cases, id).Some? then FindCase(cases, id) else if c.id == id then Some(|cases|) else None)
  {
    if cases != [] {
      assert (cases + [c])[1..] == cases[1..] + [c];
      FindCaseAppend(cases[1..], c, id);
    }
  }

  /** A case added at the end is found by its id unless an earlier case has the same id. */
  lemma FindCaseAfterAppend(cases: seq<Case>, c: Case)
    ensures FindCase(cases + [c], c.id).Some?
    ensures FindCase(cases, c.id).None? ==> FindCase(cases + [c], c.id) == Some(|cases|)
    ensures forall id :: FindCase(cases, id).Some? ==> FindCase(cases + [c], id) == FindCase(cases, id)
  {
    FindCaseAppend(cases, c, c.id);
    forall id | FindCase(cases, id).Some?
      ensures FindCase(cases + [c], id) == FindCase(cases, id)
    {
      FindCaseAppend(cases, c, id);
    }
  }

  /** `addCase`'s new case: the given title and description, and four empty lists. */
  function NewCase(id: string, title: string, description: string): (c: Case)
    ensures c.id == id && c.title == title && c.description == description
    ensures c.documents == Some([]) && c.evidence == Some([]) && c.timeline == Some([]) && c.foia == Some([])
  {
    Case(id, title, description, Some([]), Some([]), Some([]), Some([]))
  }

  /** `addFoiaRequest`'s new request: always pending. */
  function NewFoiaRequest(id: string, subject: string, description: string): (r: FoiaRequest)
    ensures r.status == PendingStatus
    ensures r.id == id && r.subject == subject && r.description == description
  {
    FoiaRequest(id, subject, description, PendingStatus)
  }

  /**
   * `addDocument`: for an unknown case id nothing changes; otherwise the first case with
   * that id gets the document at the end of its documents (created if missing), and no
   * other case and no other field changes.
   */
  function WithDocument(cases: seq<Case>, caseId: string, d: Document): (r: seq<Case>)
    ensures |r| == |cases|
    ensures FindCase(cases, caseId).None? ==> r == cases
    ensures FindCase(cases, caseId).Some? ==>
      var i := FindCase(cases, caseId).value;
      && r[i] == cases[i].(documents := Some(OrEmpty(cases[i].documents) + [d]))
      && forall j :: 0 <= j < |cases| && j != i ==> r[j] == cases[j]
  {
    match FindCase(cases, caseId)
    case None => cases
    case Some(i) => cases[i := cases[i].(documents := Some(OrEmpty(cases[i].documents) + [d]))]
  }

  /** `addEvidence`: as `WithDocument`, for the evidence list. */
  function WithEvidence(cases: seq<Case>, caseId: string, e: Evidence): (r: seq<Case>)
    ensures |r| == |cases|
    ensures FindCase(cases, caseId).None? ==> r == cases
    ensures FindCase(cases, caseId).Some? ==>
      var i := FindCase(cases, caseId).value;
      && r[i] == cases[i].(evidence := Some(OrEmpty(cases[i].evidence) + [e]))
      && forall j :: 0 <= j < |cases| && j != i ==> r[j] == cases[j]
  {
    match FindCase(cases, caseId)
    case None => cases
    case Some(i) => cases[i := cases[i].(evidence := Some(OrEmpty(cases[i].evidence) + [e]))]
  }

  /** `addTimelineEvent`: as `WithDocument`, for the timeline. */
  function WithEvent(cases: seq<Case>, caseId: string, e: TimelineEvent): (r: seq<Case>)
    ensures |r| == |cases|
    ensures FindCase(cases, caseId).None? ==> r == cases
    ensures FindCase(cases, caseId).Some? ==>
      var i := FindCase(cases, caseId).value;
      && r[i] == cases[i].(timeline := Some(OrEmpty(cases[i].timeline) + [e]))
      && forall j :: 0 <= j < |cases| && j != i ==> r[j] == cases[j]
  {
    match FindCase(cases, caseId)
    case None => cases
    case Some(i) => cases[i := cases[i].(timeline := Some(OrEmpty(cases[i].timeline) + [e]))]
  }

  /** `addFoiaRequest`: as `WithDocument`, for the FOIA requests. */
  function WithFoiaRequest(cases: seq<Case>, caseId: string, f: FoiaRequest): (r: seq<Case>)
    ensures |r| == |cases|
    ensures FindCase(cases, caseId).None? ==> r == cases
    ensures FindCase(cases, caseId).Some? ==>
      var i := FindCase(cases, caseId).value;
      && r[i] == cases[i].(foia := Some(OrEmpty(cases[i].foia) + [f]))
      && forall j :: 0 <= j < |cases| && j != i ==> r[j] == cases[j]
  {
    match FindCase(cases, caseId)
    case None => cases
    case Some(i) => cases[i := cases[i].(foia := Some(OrEmpty(cases[i].foia) + [f]))]
  }

  /**
   * Adding an item keeps every case's id, so every id is found where it was found before,
   * whichever case the item went to.
   */
  lemma AddsKeepLookups(cases: seq<Case>, caseId: string, d: Document, e: Evidence, t: TimelineEvent, f: FoiaRequest, id: string)
    ensures FindCase(WithDocument(cases, caseId, d), id) == FindCase(cases, id)
    ensures FindCase(WithEvidence(cases, caseId, e), id) == FindCase(cases, id)
    ensures FindCase(WithEvent(cases, caseId, t), id) == FindCase(cases, id)
    ensures FindCase(WithFoiaRequest(cases, caseId, f), id) == FindCase(cases, id)
  {
    FindCaseSameIds(WithDocument(cases, caseId, d), cases, id);
    FindCaseSameIds(WithEvidence(cases, caseId, e), cases, id);
    FindCaseSameIds(WithEvent(cases, caseId, t), cases, id);
    FindCaseSameIds(WithFoiaRequest(cases, caseId, f), cases, id);
  }

  /** After adding a document, looking the case up gives its old documents followed by the new one. */
  lemma DocumentIsLastOfItsCase(cases: seq<Case>, caseId: string, d: Document)
    requires FindCase(cases, caseId).Some?
    ensures var r := WithDocument(cases, caseId, d);
      && FindCase(r, caseId) == FindCase(cases, caseId)
      && OrEmpty(r[FindCase(r, caseId).value].documents) == OrEmpty(cases[FindCase(cases, caseId).value].documents) + [d]
  {
    FindCaseSameIds(WithDocument(cases, caseId, d), cases, caseId);
  }
}
