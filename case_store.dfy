/**
 * The browser's case store: the list of cases and the id of the case whose details are
 * shown, the operations that add to the list, the form handlers that guard them, and the
 * search loop. Ids, which the page makes from the clock and a random number, are given as
 * parameters; a file the user picked is given as its contents once read.
 */
module LocalCases {
  import opened Wrappers
  import opened Text
  import opened Cases
  import CaseSearch

  /** `results.push(...)` over a case's documents, in list order. */
  method CollectDocuments(caseId: string, lowerTerm: string, docs: seq<Document>) returns (hits: seq<CaseSearch.SearchResult>)
    ensures hits == CaseSearch.DocumentHits(caseId, lowerTerm, docs)
  {
    hits := [];
    var j := 0;
    while j < |docs|
      invariant 0 <= j <= |docs|
      invariant hits == CaseSearch.DocumentHits(caseId, lowerTerm, docs[..j])
    {
      assert docs[..j + 1][..j] == docs[..j];
      if CaseSearch.DocumentMatches(docs[j], lowerTerm) {
        hits := hits + [CaseSearch.DocumentResult(caseId, docs[j])];
      }
      j := j + 1;
    }
    assert docs[..j] == docs;
  }

  /** The same over a case's evidence. */
  method CollectEvidence(caseId: string, lowerTerm: string, evidence: seq<Evidence>) returns (hits: seq<CaseSearch.SearchResult>)
    ensures hits == CaseSearch.EvidenceHits(caseId, lowerTerm, evidence)
  {
    hits := [];
    var j := 0;
    while j < |evidence|
      invariant 0 <= j <= |evidence|
      invariant hits == CaseSearch.EvidenceHits(caseId, lowerTerm, evidence[..j])
    {
      assert evidence[..j + 1][..j] == evidence[..j];
      if CaseSearch.EvidenceMatches(evidence[j], lowerTerm) {
        hits := hits + [CaseSearch.EvidenceResult(caseId, evidence[j])];
      }
      j := j + 1;
    }
    assert evidence[..j] == evidence;
  }

  /** The same over a case's timeline. */
  method CollectEvents(caseId: string, term: string, lowerTerm: string, events: seq<TimelineEvent>) returns (hits: seq<CaseSearch.SearchResult>)
    ensures hits == CaseSearch.EventHits(caseId, term, lowerTerm, events)
  {
    hits := [];
    var j := 0;
    while j < |events|
      invariant 0 <= j <= |events|
      invariant hits == CaseSearch.EventHits(caseId, term, lowerTerm, events[..j])
    {
      assert events[..j + 1][..j] == events[..j];
      if CaseSearch.EventMatches(events[j], term, lowerTerm) {
        hits := hits + [CaseSearch.EventResult(caseId, events[j])];
      }
      j := j + 1;
    }
    assert events[..j] == events;
  }

  /** The same over a case's FOIA requests. */
  method CollectFoiaRequests(caseId: string, lowerTerm: string, requests: seq<FoiaRequest>) returns (hits: seq<CaseSearch.SearchResult>)
    ensures hits == CaseSearch.FoiaHits(caseId, lowerTerm, requests)
  {
    hits := [];
    var j := 0;
    while j < |requests|
      invariant 0 <= j <= |requests|
      invariant hits == CaseSearch.FoiaHits(caseId, lowerTerm, requests[..j])
    {
      assert requests[..j + 1][..j] == requests[..j];
      if CaseSearch.FoiaMatches(requests[j], lowerTerm) {
        hits := hits + [CaseSearch.FoiaResult(caseId, requests[j])];
      }
      j := j + 1;
    }
    assert requests[..j] == requests;
  }

  /** One case's part of the search: the case itself when it matches, then its lists in turn. */
  method CollectCaseResults(c: Case, term: string, lowerTerm: string) returns (hits: seq<CaseSearch.SearchResult>)
    ensures hits == CaseSearch.CaseResults(c, term, lowerTerm)
  {
    hits := [];
    if CaseSearch.CaseMatches(c, lowerTerm) {
      hits := [CaseSearch.CaseResult(c)];
    }
    var docHits := CollectDocuments(c.id, lowerTerm, OrEmpty(c.documents));
    var evidenceHits := CollectEvidence(c.id, lowerTerm, OrEmpty(c.evidence));
    var eventHits := CollectEvents(c.id, term, lowerTerm, OrEmpty(c.timeline));
    var foiaHits := CollectFoiaRequests(c.id, lowerTerm, OrEmpty(c.foia));
    hits := hits + docHits + evidenceHits + eventHits + foiaHits;
  }

  /** A form's `selectedCaseId && ...` test: an id is selected and it is not empty. */
  predicate Selected(selection: Option<string>) {
    selection.Some? && selection.value != []
  }

  class CaseStore {
    /** The cases, in the order they were added. */
    var cases: seq<Case>
    /** `caseInfoEl.dataset.selectedCaseId`: the case the item forms add to. */
    var selectedCaseId: Option<string>

    /** The page starts from the stored cases and with no case selected. */
    constructor(loaded: seq<Case>)
      ensures cases == loaded && selectedCaseId == None
    {
      cases := loaded;
      selectedCaseId := None;
    }

    /** `getCaseById`: the first case with that id, or nothing when no case has it. */
    function GetCaseById(id: string): (r: Option<Case>)
      reads this
      ensures r.None? <==> forall j :: 0 <= j < |cases| ==> cases[j].id != id
      ensures r.Some? ==> r.value.id == id
      ensures r.Some? ==> exists j :: 0 <= j < |cases| && cases[j] == r.value && (forall k :: 0 <= k < j ==> cases[k].id != id)
    {
      match FindCase(cases, id)
      case None => None
      case Some(i) => Some(cases[i])
    }

    /** `addCase`: one new case, with empty lists, after the existing ones. */
    method AddCase(id: string, title: string, description: string)
      modifies this
      ensures cases == old(cases) + [NewCase(id, title, description)]
      ensures selectedCaseId == old(selectedCaseId)
    {
      cases := cases + [NewCase(id, title, description)];
    }

    /** `addDocument`. */
    method AddDocument(caseId: string, name: string, content: string, docId: string)
      modifies this
      ensures cases == WithDocument(old(cases), caseId, Document(docId, name, content))
      ensures selectedCaseId == old(selectedCaseId)
    {
      match FindCase(cases, caseId)
      case None =>
      case Some(i) =>
        var cs := cases[i];
        var docs := OrEmpty(cs.documents);
        cases := cases[i := cs.(documents := Some(docs + [Document(docId, name, content)]))];
    }

    /** `addEvidence`. */
    method AddEvidence(caseId: string, name: string, url: string, evidenceId: string)
      modifies this
      ensures cases == WithEvidence(old(cases), caseId, Evidence(evidenceId, name, url))
      ensures selectedCaseId == old(selectedCaseId)
    {
      match FindCase(cases, caseId)
      case None =>
      case Some(i) =>
        var cs := cases[i];
        var evidence := OrEmpty(cs.evidence);
        cases := cases[i := cs.(evidence := Some(evidence + [Evidence(evidenceId, name, url)]))];
    }

    /** `addTimelineEvent`. */
    method AddTimelineEvent(caseId: string, date: string, title: string, description: string, eventId: string)
      modifies this
      ensures cases == WithEvent(old(cases), caseId, TimelineEvent(eventId, date, title, description))
      ensures selectedCaseId == old(selectedCaseId)
    {
      match FindCase(cases, caseId)
      case None =>
      case Some(i) =>
        var cs := cases[i];
        var timeline := OrEmpty(cs.timeline);
        cases := cases[i := cs.(timeline := Some(timeline + [TimelineEvent(eventId, date, title, description)]))];
    }

    /** `addFoiaRequest`: the new request is pending. */
    method AddFoiaRequest(caseId: string, subject: string, description: string, requestId: string)
      modifies this
      ensures cases == WithFoiaRequest(old(cases), caseId, NewFoiaRequest(requestId, subject, description))
      ensures selectedCaseId == old(selectedCaseId)
    {
      match FindCase(cases, caseId)
      case None =>
      case Some(i) =>
        var cs := cases[i];
        var foia := OrEmpty(cs.foia);
        cases := cases[i := cs.(foia := Some(foia + [NewFoiaRequest(requestId, subject, description)]))];
    }

    /**
     * `search(term)`: walks the cases in order and, within each, the case itself and then
     * its lists, collecting every match; the list of cases is not changed.
     */
    method Search(term: string) returns (outcome: CaseSearch.SearchOutcome)
      ensures outcome == CaseSearch.Search(cases, term)
    {
      if term == [] {
        return CaseSearch.Cleared;
      }
      var lowerTerm := ToLower(term);
      var results := [];
      var i := 0;
      while i < |cases|
        invariant 0 <= i <= |cases|
        invariant results == CaseSearch.AllResults(cases[..i], term, lowerTerm)
      {
        var hits := CollectCaseResults(cases[i], term, lowerTerm);
        assert cases[..i + 1] == cases[..i] + [cases[i]];
        CaseSearch.AllResultsExtend(cases[..i], cases[i], term, lowerTerm);
        results := results + hits;
        i := i + 1;
      }
      assert cases[..i] == cases;
      outcome := CaseSearch.Results(results);
    }

    /** The search box: every input searches for the trimmed text. */
    method SearchInput(text: string) returns (outcome: CaseSearch.SearchOutcome)
      ensures outcome == CaseSearch.Search(cases, Trim(text))
      ensures IsBlank(text) <==> outcome.Cleared?
    {
      TrimEmptyIffBlank(text);
      outcome := Search(Trim(text));
    }

    /** The new-case form: a case is added, with the trimmed title and description, only when the trimmed title is not empty. */
    method SubmitNewCase(title: string, description: string, id: string)
      modifies this
      ensures cases == (if Trim(title) != [] then old(cases) + [NewCase(id, Trim(title), Trim(description))] else old(cases))
      ensures selectedCaseId == old(selectedCaseId)
    {
      var t, d := Trim(title), Trim(description);
      if t != [] {
        AddCase(id, t, d);
      }
    }

    /** The document form: needs a selected case, a name that is not blank, and a file, read as text. */
    method SubmitDocument(name: string, file: Option<string>, docId: string)
      modifies this
      ensures cases == (if Selected(old(selectedCaseId)) && Trim(name) != [] && file.Some?
        then WithDocument(old(cases), old(selectedCaseId).value, Document(docId, Trim(name), file.value))
        else old(cases))
      ensures selectedCaseId == old(selectedCaseId)
    {
      var n := Trim(name);
      if Selected(selectedCaseId) && n != [] && file.Some? {
        AddDocument(selectedCaseId.value, n, file.value, docId);
      }
    }

    /** The evidence form: as the document form, with the file read as a data URL. */
    method SubmitEvidence(name: string, file: Option<string>, evidenceId: string)
      modifies this
      ensures cases == (if Selected(old(selectedCaseId)) && Trim(name) != [] && file.Some?
        then WithEvidence(old(cases), old(selectedCaseId).value, Evidence(evidenceId, Trim(name), file.value))
        else old(cases))
      ensures selectedCaseId == old(selectedCaseId)
    {
      var n := Trim(name);
      if Selected(selectedCaseId) && n != [] && file.Some? {
        AddEvidence(selectedCaseId.value, n, file.value, evidenceId);
      }
    }

    /** The timeline form: needs a selected case and a title that is not blank; the date is taken as entered. */
    method SubmitTimelineEvent(date: string, title: string, description: string, eventId: string)
      modifies this
      ensures cases == (if Selected(old(selectedCaseId)) && Trim(title) != []
        then WithEvent(old(cases), old(selectedCaseId).value, TimelineEvent(eventId, date, Trim(title), Trim(description)))
        else old(cases))
      ensures selectedCaseId == old(selectedCaseId)
    {
      var t, d := Trim(title), Trim(description);
      if Selected(selectedCaseId) && t != [] {
        AddTimelineEvent(selectedCaseId.value, date, t, d, eventId);
      }
    }

    /** The FOIA form: needs a selected case and a subject that is not blank. */
    method SubmitFoiaRequest(subject: string, description: string, requestId: string)
      modifies this
      ensures cases == (if Selected(old(selectedCaseId)) && Trim(subject) != []
        then WithFoiaRequest(old(cases), old(selectedCaseId).value, NewFoiaRequest(requestId, Trim(subject), Trim(description)))
        else old(cases))
      ensures selectedCaseId == old(selectedCaseId)
    {
      var s, d := Trim(subject), Trim(description);
      if Selected(selectedCaseId) && s != [] {
        AddFoiaRequest(selectedCaseId.value, s, d, requestId);
      }
    }

    /**
     * `selectCase` as written: it shows the case found by the id, or the empty panel, and
     * records nothing, so the selection the item forms read never changes.
     */
    method SelectCaseAsWritten(caseId: string) returns (shown: Option<Case>)
      ensures shown == GetCaseById(caseId)
    {
      shown := GetCaseById(caseId);
    }

    /** `selectCase` as intended: the shown case also becomes the selection; an unknown id clears it. */
    method SelectCase(caseId: string) returns (shown: Option<Case>)
      modifies this
      ensures shown == GetCaseById(caseId)
      ensures selectedCaseId == (if shown.Some? then Some(caseId) else None)
      ensures cases == old(cases)
    {
      shown := GetCaseById(caseId);
      selectedCaseId := if shown.Some? then Some(caseId) else None;
    }
  }

  /**
   * With `selectCase` as written, choosing an existing case and submitting the document
   * form with a name and a file adds nothing: no operation ever records a selection.
   */
  method DocumentAfterSelectAsWritten(loaded: seq<Case>, caseId: string, name: string, content: string, docId: string)
    returns (store: CaseStore)
    requires FindCase(loaded, caseId).Some?
    requires Trim(name) != []
    ensures fresh(store)
    ensures store.cases == loaded
  {
    store := new CaseStore(loaded);
    var _ := store.SelectCaseAsWritten(caseId);
    store.SubmitDocument(name, Some(content), docId);
  }

  /** With the intended `selectCase`, the same steps add the document to the chosen case. */
  method DocumentAfterSelect(loaded: seq<Case>, caseId: string, name: string, content: string, docId: string)
    returns (store: CaseStore)
    requires FindCase(loaded, caseId).Some? && caseId != []
    requires Trim(name) != []
    ensures fresh(store)
    ensures store.cases == WithDocument(loaded, caseId, Document(docId, Trim(name), content))
    ensures store.cases != loaded
  {
    store := new CaseStore(loaded);
    var _ := store.SelectCase(caseId);
    store.SubmitDocument(name, Some(content), docId);
    var i := FindCase(loaded, caseId).value;
    assert |OrEmpty(store.cases[i].documents)| == |OrEmpty(loaded[i].documents)| + 1;
  }
}
