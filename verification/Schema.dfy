/** The rows of src/db/schema.ts that belong to one document, and the queue's job identifiers. */
module Schema {
  import opened Wrappers
  import opened DecisionEngine

  datatype Status = Uploaded | OcrProcessing | Extracting | Extracted | PendingReview | Approved | Rejected | Failed

  datatype DocType = Invoice | Receipt | PurchaseOrder | UnknownType

  datatype DocumentRow = DocumentRow(
    id: string, tenantId: string, uploadedBy: string, fileName: string, storageKey: string,
    status: Status, docType: Option<DocType>, rawText: Option<string>)

  /** Amounts are numeric(12,2) columns: whole cents. */
  datatype ExtractionRow = ExtractionRow(
    vendorName: Option<string>, vendorAddress: Option<string>, vendorTaxId: Option<string>,
    invoiceNumber: Option<string>, invoiceDate: Option<string>, dueDate: Option<string>,
    subtotal: Option<int>, tax: Option<int>, total: Option<int>,
    lineItems: seq<LineItem>, confidence: Confidence)

  /** undefined keeps the column, null clears it, a value replaces it. */
  datatype Change<+T> = Keep | Clear | Assign(value: T)

  datatype ExtractionEdit = ExtractionEdit(
    vendorName: Change<string>, vendorAddress: Change<string>, vendorTaxId: Change<string>,
    invoiceNumber: Change<string>, invoiceDate: Change<string>, dueDate: Change<string>,
    subtotal: Change<real>, tax: Change<real>, total: Change<real>,
    lineItems: Option<seq<LineItem>>, confidence: Option<Confidence>)

  datatype Event =
    | UploadedEvent | OcrCompleteEvent | ExtractedEvent | AutoApprovedEvent | SentToReviewEvent | ApprovedEvent
    | RejectedEvent | FieldEditedEvent | WebhookSentEvent | WebhookFailedEvent | ReprocessedEvent

  datatype Payload =
    | NoPayload
    | ErrorPayload
    | FilePayload(fileName: string)
    | TextPayload(textLength: nat)
    | ScorePayload(minConfidence: real)
    | ApprovalPayload(threshold: real, lowestConfidence: real, lineItemsSum: real)
    | ReviewPayload(reasons: seq<Reason>)
    | UnknownTypePayload
    | ReasonPayload(reason: string)
    | ChangesPayload(changes: ExtractionEdit)
    | AttemptPayload(attempt: nat)

  datatype AuditRow = AuditRow(
    actorId: Option<string>, event: Event, prevStatus: Option<Status>, newStatus: Option<Status>, payload: Payload)

  /** Everything the database holds under one document's id, apart from webhook deliveries. */
  datatype Tables = Tables(row: DocumentRow, extraction: Option<ExtractionRow>, log: seq<AuditRow>)

  datatype DeliveryStatus = Pending | Success | FailedDelivery | DeadLetter

  // ----- storage keys

  const PLACEHOLDER_KEY := "pending"

  function FileKey(tenantId: string, documentId: string, fileName: string): string {
    tenantId + "/" + documentId + "/" + fileName
  }

  lemma FileKeyIsNotPlaceholder(tenantId: string, documentId: string, fileName: string)
    ensures FileKey(tenantId, documentId, fileName) != PLACEHOLDER_KEY
  {
    assert FileKey(tenantId, documentId, fileName)[|tenantId|] == '/';
    assert '/' !in PLACEHOLDER_KEY;
  }

  /** Tenant and document ids are fixed-width uuids, so every document has a key of its own. */
  lemma KeysAreDistinct(t1: string, d1: string, f1: string, t2: string, d2: string, f2: string)
    requires |t1| == |t2| && |d1| == |d2|
    ensures FileKey(t1, d1, f1) == FileKey(t2, d2, f2) <==> t1 == t2 && d1 == d2 && f1 == f2
  {
    var k1, k2 := FileKey(t1, d1, f1), FileKey(t2, d2, f2);
    assert k1[..|t1|] == t1 && k2[..|t2|] == t2;
    assert k1[|t1| + 1..][..|d1|] == d1 && k2[|t2| + 1..][..|d2|] == d2;
    assert k1[|t1| + |d1| + 2..] == f1 && k2[|t2| + |d2| + 2..] == f2;
  }

  // ----- blank text, as JavaScript's trim sees it

  predicate IsTrimmed(c: char) {
    || '\U{0009}' <= c <= '\U{000D}' || c == ' ' || c == '\U{00A0}' || c == '\U{1680}' || '\U{2000}' <= c <= '\U{200A}'
    || c == '\U{2028}' || c == '\U{2029}' || c == '\U{202F}' || c == '\U{205F}' || c == '\U{3000}' || c == '\U{FEFF}'
  }

  predicate IsBlank(text: Option<string>) {
    text.None? || forall c <- text.value :: IsTrimmed(c)
  }

  /** No text, and text of blanks and line ends, is blank; a visible character makes it not blank. */
  lemma BlankMeans(text: string)
    ensures IsBlank(None)
    ensures (forall c <- text :: c in {' ', '\t', '\n', '\r'}) ==> IsBlank(Some(text))
    ensures (exists c <- text :: '!' <= c <= '~') ==> !IsBlank(Some(text))
  {
  }

  // ----- job identifiers (src/queues/jobIds.ts)

  function OcrJobId(documentId: string, processingRunId: string := "initial"): string {
    "ocr:" + documentId + ":" + processingRunId
  }

  function ExtractionJobId(documentId: string, processingRunId: string := "initial"): string {
    "extraction:" + documentId + ":" + processingRunId
  }

  /** Document ids are fixed-width uuids, so an identifier names one queue, one document and one run. */
  lemma JobIdsAreDistinct(d1: string, r1: string, d2: string, r2: string)
    requires |d1| == |d2|
    ensures OcrJobId(d1, r1) == OcrJobId(d2, r2) <==> d1 == d2 && r1 == r2
    ensures ExtractionJobId(d1, r1) == ExtractionJobId(d2, r2) <==> d1 == d2 && r1 == r2
    ensures OcrJobId(d1, r1) != ExtractionJobId(d2, r2)
  {
    var o1, o2, e1, e2 := OcrJobId(d1, r1), OcrJobId(d2, r2), ExtractionJobId(d1, r1), ExtractionJobId(d2, r2);
    assert o1[4..][..|d1|] == d1 && o2[4..][..|d2|] == d2;
    assert o1[|d1| + 5..] == r1 && o2[|d2| + 5..] == r2;
    assert e1[11..][..|d1|] == d1 && e2[11..][..|d2|] == d2;
    assert e1[|d1| + 12..] == r1 && e2[|d2| + 12..] == r2;
    assert o1[0] == 'o' && e2[0] == 'e';
  }
}
