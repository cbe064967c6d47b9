/** The dashboard page's document list: uploading a file adds a document that
    is being analysed, and a later analysis step completes every document with
    the uploaded document's id. */
module Dashboard {
  import opened Common
  import opened Strings
  import opened UploadModal

  /** Status of a document. `Error` is declared but no operation produces it. */
  datatype Status = Processing | Completed | Error

  datatype Insights = Insights(summary: string, actionItems: seq<string>, alerts: seq<string>)

  datatype Document = Document(
    id: string,
    name: string,
    docType: string,
    uploadedAt: string,
    status: Status,
    aiInsights: Option<Insights>)

  /** A document carries insights exactly when its analysis is completed. */
  predicate WellFormed(d: Document) {
    d.aiInsights.Some? <==> d.status == Completed
  }

  predicate AllWellFormed(docs: seq<Document>) {
    forall i :: 0 <= i < |docs| ==> WellFormed(docs[i])
  }

  /** The type label of an uploaded file: the second `/`-separated piece of its
      MIME type, or "unknown" when there is none or it is empty. */
  function DocType(mime: string): (r: string)
    ensures r != [] && '/' !in r
    ensures '/' !in mime ==> r == "unknown"
  {
    var parts := Split(mime, '/');
    SplitPieces(mime, '/');
    if |parts| >= 2 && parts[1] != "" then parts[1] else "unknown"
  }

  /** Every MIME type with a `/` has the form `a/t...` where `a` and `t` hold no
      `/` and `t` ends at the next `/` or at the end; its type label is `t`,
      or "unknown" when `t` is empty. */
  lemma DocTypeSecondPiece(a: string, t: string, rest: string)
    requires '/' !in a && '/' !in t
    requires rest == [] || rest[0] == '/'
    ensures DocType(a + "/" + t + rest) == if t == [] then "unknown" else t
  {
    assert a + "/" + t + rest == a + ['/'] + (t + rest);
    SplitAtFirst(a, '/', t + rest);
    SplitFirstPiece(t, '/', rest);
  }

  /** The label of a PDF upload. */
  lemma DocTypeOfPdf()
    ensures DocType("application/pdf") == "pdf"
  {
    assert "application/pdf" == "application" + "/" + "pdf" + "";
    DocTypeSecondPiece("application", "pdf", "");
  }

  /** A type with an empty second piece is labelled "unknown". */
  lemma DocTypeOfEmptyPiece()
    ensures DocType("image/") == "unknown"
  {
    assert "image/" == "image" + "/" + "" + "";
    DocTypeSecondPiece("image", "", "");
  }

  /** The insights the simulated analysis attaches to a completed document. */
  const AnalysisInsights := Insights(
    "AI analysis completed successfully. Document processed and insights generated.",
    ["Review AI-generated insights", "Share with relevant team members"],
    ["No critical issues detected"])

  /** The record an upload creates; its id and timestamp are supplied by the caller. */
  function NewDocument(file: File, id: string, uploadedAt: string): (d: Document)
    ensures WellFormed(d)
  {
    Document(id, file.name, DocType(file.mimeType), uploadedAt, Processing, None)
  }

  /** A freshly uploaded document: the file's name and type label, being
      analysed, without insights. */
  lemma NewDocumentFields(file: File, id: string, uploadedAt: string)
    ensures var d := NewDocument(file, id, uploadedAt);
      && d.id == id && d.name == file.name && d.uploadedAt == uploadedAt
      && d.status == Processing && d.aiInsights == None
      && ('/' !in file.mimeType ==> d.docType == "unknown")
  {
  }

  /** The analysis outcome applied to one document: everything but the status
      and the insights is kept. */
  function Complete(d: Document): Document {
    d.(status := Completed, aiInsights := Some(AnalysisInsights))
  }

  /** The analysis step: every document with the given id is completed with the
      analysis insights; the others, and the order, are left as they are. */
  function CompleteById(docs: seq<Document>, id: string): (r: seq<Document>)
    ensures |r| == |docs|
    ensures forall i :: 0 <= i < |docs| && docs[i].id != id ==> r[i] == docs[i]
    ensures forall i :: 0 <= i < |docs| && docs[i].id == id ==>
      && r[i].id == id && r[i].name == docs[i].name && r[i].docType == docs[i].docType
      && r[i].uploadedAt == docs[i].uploadedAt
      && r[i].status == Completed && r[i].aiInsights == Some(AnalysisInsights)
  {
    if docs == [] then []
    else [if docs[0].id == id then Complete(docs[0]) else docs[0]] + CompleteById(docs[1..], id)
  }

  /** Completing the same id a second time changes nothing. */
  lemma {:induction false} CompleteByIdIdempotent(docs: seq<Document>, id: string)
    ensures CompleteById(CompleteById(docs, id), id) == CompleteById(docs, id)
  {
    if docs != [] {
      CompleteByIdIdempotent(docs[1..], id);
    }
  }

  /** Completions of two ids may arrive in either order. */
  lemma {:induction false} CompleteByIdCommutes(docs: seq<Document>, a: string, b: string)
    ensures CompleteById(CompleteById(docs, a), b) == CompleteById(CompleteById(docs, b), a)
  {
    if docs != [] {
      CompleteByIdCommutes(docs[1..], a, b);
    }
  }

  /** A completion for an id that is not in the list leaves the list as it is. */
  lemma {:induction false} CompleteByIdAbsent(docs: seq<Document>, id: string)
    requires forall i :: 0 <= i < |docs| ==> docs[i].id != id
    ensures CompleteById(docs, id) == docs
  {
    if docs != [] {
      CompleteByIdAbsent(docs[1..], id);
    }
  }

  /** Uploading keeps "insights iff completed" for the whole list. */
  lemma UploadPreservesWellFormed(docs: seq<Document>, file: File, id: string, uploadedAt: string)
    requires AllWellFormed(docs)
    ensures AllWellFormed([NewDocument(file, id, uploadedAt)] + docs)
  {
    var r := [NewDocument(file, id, uploadedAt)] + docs;
    forall i | 0 <= i < |r| ensures WellFormed(r[i]) {
      if i > 0 { assert r[i] == docs[i - 1]; }
    }
  }

  /** Completing keeps "insights iff completed" for the whole list. */
  lemma CompletePreservesWellFormed(docs: seq<Document>, id: string)
    requires AllWellFormed(docs)
    ensures AllWellFormed(CompleteById(docs, id))
  {
  }

  /** Uploading and then completing the new document's id leaves the new
      document first, completed, and its predecessors completed only where
      they share its id. */
  lemma UploadThenComplete(docs: seq<Document>, file: File, id: string, uploadedAt: string)
    ensures var r := CompleteById([NewDocument(file, id, uploadedAt)] + docs, id);
      && |r| == |docs| + 1
      && r[0] == Complete(NewDocument(file, id, uploadedAt))
      && r[1..] == CompleteById(docs, id)
  {
    var s := [NewDocument(file, id, uploadedAt)] + docs;
    assert s[1..] == docs;
  }

  /** Only a completed document opens in the viewer. */
  predicate CanOpen(d: Document) {
    d.status == Completed
  }

  /** Hence a document shown in the viewer always has insights. */
  lemma OpenedHasInsights(d: Document)
    requires WellFormed(d) && CanOpen(d)
    ensures d.aiInsights.Some?
  {
  }

  /** The three documents the page starts with. */
  const SeedDocuments: seq<Document> := [
    Document("1", "Metro Route Expansion Proposal.pdf", "pdf", "2024-01-15T10:30:00Z", Completed,
      Some(Insights(
        "Comprehensive proposal for expanding metro routes to cover 3 new districts with estimated budget of \U{E2}\U{201A}\U{B9}2,400 crores.",
        ["Environmental clearance required for Phase 2",
         "Stakeholder meeting scheduled for Jan 25th",
         "Budget approval needed from State Transport Ministry"],
        ["Construction timeline conflicts with monsoon season",
         "Land acquisition delays may impact project timeline"]))),
    Document("2", "Quarterly Maintenance Report Q4.docx", "docx", "2024-01-14T14:20:00Z", Completed,
      Some(Insights(
        "Q4 maintenance report showing 98.7% uptime across all metro lines with minor issues in electrical systems.",
        ["Schedule preventive maintenance for Line 2 electrical systems",
         "Order replacement parts for escalator maintenance",
         "Update safety protocols based on recent findings"],
        ["Escalator #12 at Aluva station requires immediate attention"]))),
    Document("3", "Vendor Invoice - TechCorp Solutions.jpg", "image", "2024-01-13T09:15:00Z", Processing, None)
  ]

  lemma SeedWellFormed()
    ensures AllWellFormed(SeedDocuments)
  {
  }

  /** The dashboard page's state: the document list, whether the upload dialog
      is open, and the document open in the viewer, if any. */
  class DashboardPage {
    var documents: seq<Document>
    var showUploadModal: bool
    var selectedDocument: Option<Document>

    ghost predicate Valid()
      reads this
    {
      && AllWellFormed(documents)
      && (selectedDocument.Some? ==> WellFormed(selectedDocument.value) && CanOpen(selectedDocument.value))
    }

    constructor ()
      ensures Valid()
      ensures documents == SeedDocuments && !showUploadModal && selectedDocument == None
    {
      documents := SeedDocuments;
      showUploadModal := false;
      selectedDocument := None;
      SeedWellFormed();
    }

    /** The "Upload Document" button. */
    method OpenUploadModal()
      requires Valid()
      modifies this`showUploadModal
      ensures showUploadModal && Valid()
    {
      showUploadModal := true;
    }

    /** The upload dialog's close button. */
    method CloseUploadModal()
      requires Valid()
      modifies this`showUploadModal
      ensures !showUploadModal && Valid()
    {
      showUploadModal := false;
    }

    /** The upload dialog hands over a file: the new document goes first and the
        dialog closes. The analysis step is `FinishAnalysis(id)`. */
    method HandleUploadComplete(file: File, id: string, uploadedAt: string)
      requires Valid()
      modifies this`documents, this`showUploadModal
      ensures Valid()
      ensures documents == [NewDocument(file, id, uploadedAt)] + old(documents)
      ensures !showUploadModal
    {
      UploadPreservesWellFormed(documents, file, id, uploadedAt);
      documents := [NewDocument(file, id, uploadedAt)] + documents;
      showUploadModal := false;
    }

    /** The delayed analysis callback for the document uploaded with `id`. */
    method FinishAnalysis(id: string)
      requires Valid()
      modifies this`documents
      ensures Valid()
      ensures documents == CompleteById(old(documents), id)
    {
      documents := CompleteById(documents, id);
    }

    /** A click on the card of the document at `index`: it opens only when the
        document is completed. */
    method ClickDocument(index: nat)
      requires Valid()
      requires index < |documents|
      modifies this`selectedDocument
      ensures Valid()
      ensures selectedDocument == if CanOpen(documents[index]) then Some(documents[index]) else old(selectedDocument)
    {
      if documents[index].status == Completed {
        selectedDocument := Some(documents[index]);
      }
    }

    /** The viewer's back button. */
    method CloseViewer()
      requires Valid()
      modifies this`selectedDocument
      ensures Valid() && selectedDocument == None
    {
      selectedDocument := None;
    }
  }

  /** A file chosen in a freshly opened upload dialog on a fresh page, uploaded,
      handed to the page and then analysed: it comes first, completed, under
      the file's name, and the seed documents follow. */
  method UploadThroughDialog(file: File, id: string, uploadedAt: string) returns (docs: seq<Document>)
    ensures |docs| == |SeedDocuments| + 1
    ensures docs[0].id == id && docs[0].name == file.name && docs[0].uploadedAt == uploadedAt
    ensures docs[0].status == Completed && docs[0].aiInsights == Some(AnalysisInsights)
    ensures docs[1..] == CompleteById(SeedDocuments, id)
  {
    var page := new DashboardPage();
    page.OpenUploadModal();
    var dialog := new UploadDialog();
    dialog.HandleFile(file);
    var started := dialog.PressUpload();
    var handed := dialog.FinishUpload();
    page.HandleUploadComplete(handed, id, uploadedAt);
    page.FinishAnalysis(id);
    UploadThenComplete(SeedDocuments, file, id, uploadedAt);
    docs := page.documents;
  }
}
