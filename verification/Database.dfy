/** The database under row-level security: the tables and policies of migration 0007, and every transaction
    the services and workers run through withTenantContext (src/db/index.ts). */
module Database {
  import opened Wrappers
  import opened DecisionEngine
  import opened Schema
  import Transactions

  /** A worker's unconditional update of a document row: only the named columns change. */
  datatype Patch = Patch(
    status: Option<Status>, storageKey: Option<string>, rawText: Option<string>, docType: Option<DocType>)

  datatype Op =
    | InsertDocument(id: string, uploadedBy: string, fileName: string)
    | FindDocument(id: string)
    | UpdateDocument(id: string, patch: Patch)
    | InsertExtraction(id: string, extraction: ExtractionRow)
    | WriteAudit(id: string, row: AuditRow)
    | ReadLog(id: string)
    | Approve(id: string, actor: string)
    | Reject(id: string, actor: string, reason: string)
    | Edit(id: string, actor: string, changes: ExtractionEdit)
    | Reprocess(id: string, actor: string)
    | CountDeliveries(id: string)
    | InsertDelivery(id: string, deliveryId: string, attempt: nat)
    | UpdateDelivery(deliveryId: string, status: DeliveryStatus)

  datatype Answer =
    | Ok
    | Denied
    | Found(row: DocumentRow, extraction: Option<ExtractionRow>)
    | Missing
    | LogRows(rows: seq<AuditRow>)
    | Counted(n: nat)
    | Reviewed(outcome: Transactions.Outcome)

  datatype DeliveryEntry = DeliveryEntry(documentId: string, tenantId: string, attempt: nat, status: DeliveryStatus)

  datatype AuditEntry = AuditEntry(documentId: string, row: AuditRow)

  /** The database document by document. */
  datatype Db = Db(docs: map<string, Tables>, deliveries: map<string, DeliveryEntry>)

  predicate Visible(db: Db, tenant: string, id: string) {
    id in db.docs && db.docs[id].row.tenantId == tenant
  }

  function Apply(row: DocumentRow, patch: Patch): DocumentRow {
    row.(status := if patch.status.Some? then patch.status.value else row.status,
         storageKey := if patch.storageKey.Some? then patch.storageKey.value else row.storageKey,
         rawText := if patch.rawText.Some? then patch.rawText else row.rawText,
         docType := if patch.docType.Some? then patch.docType else row.docType)
  }

  function DeliveriesOf(deliveries: map<string, DeliveryEntry>, tenant: string, id: string): set<string> {
    set d | d in deliveries && deliveries[d].tenantId == tenant && deliveries[d].documentId == id
  }

  /** What a reviewer's transaction does to the rows of a document it can see. */
  function ReviewerTx(t: Tables, op: Op): Transactions.Result
    requires IsReview(op)
  {
    match op
    case Approve(_, actor) => Transactions.Approve(t, actor)
    case Reject(_, actor, reason) => Transactions.Reject(t, actor, reason)
    case Edit(_, actor, changes) => Transactions.Edit(t, actor, changes)
    case Reprocess(_, actor) => Transactions.Reprocess(t, actor)
  }

  predicate IsReview(op: Op) { op.Approve? || op.Reject? || op.Edit? || op.Reprocess? }

  /** One transaction under a tenant's context, on the document-by-document view. */
  function Exec(db: Db, tenant: string, op: Op): (Db, Answer) {
    match op
    case InsertDocument(id, by_, fileName) =>
      if id in db.docs then (db, Denied)
      else (db.(docs := db.docs[id := Transactions.NewDocument(id, tenant, by_, fileName)]), Ok)
    case FindDocument(id) =>
      (db, if Visible(db, tenant, id) then Found(db.docs[id].row, db.docs[id].extraction) else Missing)
    case UpdateDocument(id, patch) =>
      if Visible(db, tenant, id)
      then (db.(docs := db.docs[id := db.docs[id].(row := Apply(db.docs[id].row, patch))]), Ok) else (db, Ok)
    case InsertExtraction(id, e) =>
      if Visible(db, tenant, id)
      then (db.(docs := db.docs[id := Transactions.InsertExtraction(db.docs[id], e)]), Ok) else (db, Denied)
    case WriteAudit(id, row) =>
      if Visible(db, tenant, id)
      then (db.(docs := db.docs[id := Transactions.Log(db.docs[id], row)]), Ok) else (db, Denied)
    case ReadLog(id) => (db, LogRows(if Visible(db, tenant, id) then db.docs[id].log else []))
    case CountDeliveries(id) => (db, Counted(|DeliveriesOf(db.deliveries, tenant, id)|))
    case InsertDelivery(id, deliveryId, attempt) =>
      if id !in db.docs || deliveryId in db.deliveries then (db, Denied)
      else (db.(deliveries := db.deliveries[deliveryId := DeliveryEntry(id, tenant, attempt, Pending)]), Ok)
    case UpdateDelivery(deliveryId, status) =>
      if deliveryId in db.deliveries && db.deliveries[deliveryId].tenantId == tenant
      then (db.(deliveries := db.deliveries[deliveryId := db.deliveries[deliveryId].(status := status)]), Ok)
      else (db, Ok)
    case _ =>
      if !Visible(db, tenant, op.id) then (db, Reviewed(Transactions.NotFound))
      else var r := ReviewerTx(db.docs[op.id], op); (db.(docs := db.docs[op.id := r.tables]), Reviewed(r.outcome))
  }

  /** The audit rows of one document, in commit order. */
  function LogOf(id: string, entries: seq<AuditEntry>): seq<AuditRow> {
    if entries == [] then []
    else
      var e := entries[|entries| - 1];
      LogOf(id, entries[..|entries| - 1]) + if e.documentId == id then [e.row] else []
  }

  lemma LogOfSnoc(id: string, entries: seq<AuditEntry>, e: AuditEntry)
    ensures LogOf(id, entries + [e]) == LogOf(id, entries) + if e.documentId == id then [e.row] else []
  {
    assert (entries + [e])[..|entries + [e]| - 1] == entries;
  }

  lemma {:induction false} NoLogYet(id: string, entries: seq<AuditEntry>)
    requires forall e <- entries :: e.documentId != id
    ensures LogOf(id, entries) == []
  {
    if entries != [] {
      assert forall e <- entries[..|entries| - 1] :: e in entries;
      assert entries[|entries| - 1] in entries;
      NoLogYet(id, entries[..|entries| - 1]);
    }
  }

  function Lookup(extractions: map<string, ExtractionRow>, id: string): Option<ExtractionRow> {
    if id in extractions then Some(extractions[id]) else None
  }

  /** The rows of three tables, grouped by document. */
  function Grouped(
    documents: map<string, DocumentRow>, extractions: map<string, ExtractionRow>, log: seq<AuditEntry>)
    : map<string, Tables>
  {
    map id | id in documents :: Tables(documents[id], Lookup(extractions, id), LogOf(id, log))
  }

  lemma GroupedRow(documents: map<string, DocumentRow>, extractions: map<string, ExtractionRow>, log: seq<AuditEntry>,
      id: string, row: DocumentRow)
    ensures Grouped(documents[id := row], extractions, log)
            == Grouped(documents, extractions, log)[id := Tables(row, Lookup(extractions, id), LogOf(id, log))]
  {
  }

  lemma GroupedExtraction(documents: map<string, DocumentRow>, extractions: map<string, ExtractionRow>,
      log: seq<AuditEntry>, id: string, e: ExtractionRow)
    requires id in documents
    ensures Grouped(documents, extractions[id := e], log)
            == Grouped(documents, extractions, log)[id := Tables(documents[id], Some(e), LogOf(id, log))]
  {
  }

  lemma GroupedNoExtraction(
      documents: map<string, DocumentRow>, extractions: map<string, ExtractionRow>, log: seq<AuditEntry>, id: string)
    requires id in documents
    ensures Grouped(documents, extractions - {id}, log)
            == Grouped(documents, extractions, log)[id := Tables(documents[id], None, LogOf(id, log))]
  {
  }

  lemma GroupedLog(
      documents: map<string, DocumentRow>, extractions: map<string, ExtractionRow>, log: seq<AuditEntry>, e: AuditEntry)
    requires e.documentId in documents
    ensures Grouped(documents, extractions, log + [e])
            == var g := Grouped(documents, extractions, log);
               g[e.documentId := Transactions.Log(g[e.documentId], e.row)]
  {
    forall id <- documents
      ensures LogOf(id, log + [e]) == LogOf(id, log) + if e.documentId == id then [e.row] else []
    {
      LogOfSnoc(id, log, e);
    }
    assert forall id <- documents :: id != e.documentId ==> LogOf(id, log + [e]) == LogOf(id, log);
  }

  lemma GroupedSame(
      documents: map<string, DocumentRow>, extractions: map<string, ExtractionRow>, log: seq<AuditEntry>, id: string)
    requires id in documents
    ensures Grouped(documents, extractions, log)
            == Grouped(documents, extractions, log)
               [id := Tables(documents[id], Lookup(extractions, id), LogOf(id, log))]
  {
  }

  lemma Overwrite(m: map<string, Tables>, id: string, a: Tables, b: Tables)
    ensures m[id := a][id := b] == m[id := b]
  {
  }

  /** The four tables, and the session variable the policies compare with. */
  class Tenanted {
    var documents: map<string, DocumentRow>
    var extractions: map<string, ExtractionRow>
    var auditLog: seq<AuditEntry>
    var deliveries: map<string, DeliveryEntry>
    var tenantId: Option<string>  // app.tenant_id; None stands for unset or empty

    /** Foreign keys hold. */
    ghost predicate Valid() reads this {
      && (forall id <- extractions :: id in documents)
      && (forall e <- auditLog :: e.documentId in documents)
    }

    ghost function Abstract(): Db reads this {
      Db(Grouped(documents, extractions, auditLog), deliveries)
    }

    constructor ()
      ensures Valid() && Abstract() == Db(map[], map[]) && tenantId == None
    {
      documents, extractions, auditLog, deliveries, tenantId := map[], map[], [], map[], None;
    }

    // ----- the policies of migration 0007

    predicate DocumentVisible(id: string) reads this {
      id in documents && tenantId == Some(documents[id].tenantId)
    }

    /** documents_extraction and document_audit_log rows follow their document. */
    predicate OfVisibleDocument(documentId: string) reads this {
      DocumentVisible(documentId)
    }

    predicate DeliveryVisible(d: string) reads this {
      d in deliveries && tenantId == Some(deliveries[d].tenantId)
    }

    // ----- transaction bodies

    method SelectDocument(id: string) returns (a: Answer)
      ensures a == if DocumentVisible(id) then Found(documents[id], Lookup(extractions, id)) else Missing
    {
      if DocumentVisible(id) {
        a := Found(documents[id], if OfVisibleDocument(id) && id in extractions then Some(extractions[id]) else None);
      } else {
        a := Missing;
      }
    }

    method InsertDocumentRow(id: string, uploadedBy: string, fileName: string) returns (a: Answer)
      requires Valid() && tenantId.Some?
      modifies this
      ensures Valid() && tenantId == old(tenantId)
      ensures (Abstract(), a) == Exec(old(Abstract()), old(tenantId).value, InsertDocument(id, uploadedBy, fileName))
    {
      if id in documents {
        return Denied;
      }
      NoLogYet(id, auditLog);
      var row := DocumentRow(id, tenantId.value, uploadedBy, fileName, PLACEHOLDER_KEY, Uploaded, None, None);
      GroupedRow(documents, extractions, auditLog, id, row);
      documents := documents[id := row];
      return Ok;
    }

    method UpdateDocumentRow(id: string, patch: Patch) returns (a: Answer)
      requires Valid() && tenantId.Some?
      modifies this
      ensures Valid() && tenantId == old(tenantId)
      ensures (Abstract(), a) == Exec(old(Abstract()), old(tenantId).value, UpdateDocument(id, patch))
    {
      if DocumentVisible(id) {
        GroupedRow(documents, extractions, auditLog, id, Apply(documents[id], patch));
        documents := documents[id := Apply(documents[id], patch)];
      }
      return Ok;
    }

    method InsertExtractionRow(id: string, e: ExtractionRow) returns (a: Answer)
      requires Valid() && tenantId.Some?
      modifies this
      ensures Valid() && tenantId == old(tenantId)
      ensures (Abstract(), a) == Exec(old(Abstract()), old(tenantId).value, InsertExtraction(id, e))
    {
      if !OfVisibleDocument(id) {
        return Denied;
      }
      GroupedSame(documents, extractions, auditLog, id);
      if id !in extractions {
        GroupedExtraction(documents, extractions, auditLog, id, e);
        extractions := extractions[id := e];
      }
      return Ok;
    }

    method InsertAuditRow(id: string, row: AuditRow) returns (a: Answer)
      requires Valid() && tenantId.Some?
      modifies this
      ensures Valid() && tenantId == old(tenantId)
      ensures (Abstract(), a) == Exec(old(Abstract()), old(tenantId).value, WriteAudit(id, row))
      ensures a == Ok ==>
                documents == old(documents) && extractions == old(extractions) && deliveries == old(deliveries)
    {
      if !OfVisibleDocument(id) {
        return Denied;
      }
      GroupedLog(documents, extractions, auditLog, AuditEntry(id, row));
      auditLog := auditLog + [AuditEntry(id, row)];
      return Ok;
    }

    method SelectLog(id: string) returns (a: Answer)
      requires Valid()
      ensures a == LogRows(if DocumentVisible(id) then LogOf(id, auditLog) else [])
    {
      var rows: seq<AuditRow> := [];
      for i := 0 to |auditLog|
        invariant rows == if DocumentVisible(id) then LogOf(id, auditLog[..i]) else []
      {
        assert auditLog[..i + 1][..i] == auditLog[..i];
        if auditLog[i].documentId == id && OfVisibleDocument(auditLog[i].documentId) {
          rows := rows + [auditLog[i].row];
        }
      }
      assert auditLog[..|auditLog|] == auditLog;
      a := LogRows(rows);
    }

    method ApproveDocument(id: string, actor: string) returns (a: Answer)
      requires Valid() && tenantId.Some?
      modifies this
      ensures Valid() && tenantId == old(tenantId)
      ensures (Abstract(), a) == Exec(old(Abstract()), old(tenantId).value, Approve(id, actor))
    {
      ghost var before := Abstract().docs;
      if !DocumentVisible(id) {
        return Reviewed(Transactions.NotFound);
      }
      GroupedSame(documents, extractions, auditLog, id);
      if documents[id].status != PendingReview {
        return Reviewed(Transactions.InvalidStatus);
      }
      GroupedRow(documents, extractions, auditLog, id, documents[id].(status := Approved));
      documents := documents[id := documents[id].(status := Approved)];
      ghost var middle := Abstract().docs;
      var _ := InsertAuditRow(id, AuditRow(Some(actor), ApprovedEvent, Some(PendingReview), Some(Approved), NoPayload));
      Overwrite(before, id, middle[id], Abstract().docs[id]);
      assert Abstract().docs == before[id := Abstract().docs[id]];
      assert Abstract().docs[id] == ReviewerTx(before[id], Approve(id, actor)).tables;
      return Reviewed(Transactions.Done);
    }

    method RejectDocument(id: string, actor: string, reason: string) returns (a: Answer)
      requires Valid() && tenantId.Some?
      modifies this
      ensures Valid() && tenantId == old(tenantId)
      ensures (Abstract(), a) == Exec(old(Abstract()), old(tenantId).value, Reject(id, actor, reason))
    {
      ghost var before := Abstract().docs;
      if !DocumentVisible(id) {
        return Reviewed(Transactions.NotFound);
      }
      GroupedSame(documents, extractions, auditLog, id);
      if |reason| < 1 || |reason| > Transactions.REASON_LIMIT {
        return Reviewed(Transactions.ValidationError);
      }
      if documents[id].status != PendingReview {
        return Reviewed(Transactions.InvalidStatus);
      }
      if !Transactions.IsPlain(reason) {
        return Reviewed(Transactions.Refused);
      }
      GroupedRow(documents, extractions, auditLog, id, documents[id].(status := Rejected));
      documents := documents[id := documents[id].(status := Rejected)];
      ghost var middle := Abstract().docs;
      var entry := AuditRow(Some(actor), RejectedEvent, Some(PendingReview), Some(Rejected), ReasonPayload(reason));
      var _ := InsertAuditRow(id, entry);
      Overwrite(before, id, middle[id], Abstract().docs[id]);
      assert Abstract().docs == before[id := Abstract().docs[id]];
      assert Abstract().docs[id] == ReviewerTx(before[id], Reject(id, actor, reason)).tables;
      return Reviewed(Transactions.Done);
    }

    /** The update object, built field by field: names and numbers, then amounts, then the structured columns. */
    static method BuildUpdates(e: ExtractionRow, changes: ExtractionEdit) returns (updates: ExtractionRow)
      ensures updates == Transactions.ApplyEdit(e, changes)
    {
      updates := BuildText(e, changes);
      updates := BuildAmounts(updates, changes);
      if changes.lineItems.Some? { updates := updates.(lineItems := changes.lineItems.value); }
      if changes.confidence.Some? { updates := updates.(confidence := changes.confidence.value); }
    }

    static method BuildText(e: ExtractionRow, changes: ExtractionEdit) returns (updates: ExtractionRow)
      ensures updates == e.(
        vendorName := Transactions.ChangeText(e.vendorName, changes.vendorName),
        vendorAddress := Transactions.ChangeText(e.vendorAddress, changes.vendorAddress),
        vendorTaxId := Transactions.ChangeText(e.vendorTaxId, changes.vendorTaxId),
        invoiceNumber := Transactions.ChangeText(e.invoiceNumber, changes.invoiceNumber),
        invoiceDate := Transactions.ChangeText(e.invoiceDate, changes.invoiceDate),
        dueDate := Transactions.ChangeText(e.dueDate, changes.dueDate))
    {
      updates := e;
      if !changes.vendorName.Keep? { updates := updates.(vendorName := TextOf(changes.vendorName)); }
      if !changes.vendorAddress.Keep? { updates := updates.(vendorAddress := TextOf(changes.vendorAddress)); }
      if !changes.vendorTaxId.Keep? { updates := updates.(vendorTaxId := TextOf(changes.vendorTaxId)); }
      if !changes.invoiceNumber.Keep? { updates := updates.(invoiceNumber := TextOf(changes.invoiceNumber)); }
      if !changes.invoiceDate.Keep? { updates := updates.(invoiceDate := TextOf(changes.invoiceDate)); }
      if !changes.dueDate.Keep? { updates := updates.(dueDate := TextOf(changes.dueDate)); }
    }

    static method BuildAmounts(e: ExtractionRow, changes: ExtractionEdit) returns (updates: ExtractionRow)
      ensures updates == e.(
        subtotal := Transactions.ChangeAmount(e.subtotal, changes.subtotal),
        tax := Transactions.ChangeAmount(e.tax, changes.tax),
        total := Transactions.ChangeAmount(e.total, changes.total))
    {
      updates := e;
      if !changes.subtotal.Keep? { updates := updates.(subtotal := CentsOf(changes.subtotal)); }
      if !changes.tax.Keep? { updates := updates.(tax := CentsOf(changes.tax)); }
      if !changes.total.Keep? { updates := updates.(total := CentsOf(changes.total)); }
    }

    method EditExtraction(id: string, actor: string, changes: ExtractionEdit) returns (a: Answer)
      requires Valid() && tenantId.Some?
      modifies this
      ensures Valid() && tenantId == old(tenantId)
      ensures (Abstract(), a) == Exec(old(Abstract()), old(tenantId).value, Edit(id, actor, changes))
    {
      ghost var before := Abstract().docs;
      if !DocumentVisible(id) {
        return Reviewed(Transactions.NotFound);
      }
      GroupedSame(documents, extractions, auditLog, id);
      if !Transactions.IsValidEdit(changes) {
        return Reviewed(Transactions.ValidationError);
      }
      if documents[id].status != PendingReview {
        return Reviewed(Transactions.InvalidStatus);
      }
      if id !in extractions {
        return Reviewed(Transactions.NoExtraction);
      }
      var updates := BuildUpdates(extractions[id], changes);
      if !Transactions.Fits(updates) {
        return Reviewed(Transactions.Refused);
      }
      GroupedExtraction(documents, extractions, auditLog, id, updates);
      extractions := extractions[id := updates];
      ghost var middle := Abstract().docs;
      var status := Some(PendingReview);
      var _ := InsertAuditRow(id, AuditRow(Some(actor), FieldEditedEvent, status, status, ChangesPayload(changes)));
      Overwrite(before, id, middle[id], Abstract().docs[id]);
      assert Abstract().docs == before[id := Abstract().docs[id]];
      assert Abstract().docs[id] == ReviewerTx(before[id], Edit(id, actor, changes)).tables;
      return Reviewed(Transactions.Done);
    }

    static function TextOf(c: Change<string>): Option<string>
      requires !c.Keep?
    {
      if c.Assign? then Some(c.value) else None
    }

    static function CentsOf(c: Change<real>): Option<int>
      requires !c.Keep?
    {
      if c.Assign? then Some(ToCents(c.value)) else None
    }

    /** Delete the extraction and start the row over. */
    method ResetRows(id: string)
      requires Valid() && DocumentVisible(id)
      modifies this`documents, this`extractions
      ensures Valid() && DocumentVisible(id)
      ensures var t := old(Abstract()).docs[id];
              Abstract().docs == old(Abstract()).docs[
                id := Tables(t.row.(status := Uploaded, rawText := None, docType := None), None, t.log)]
    {
      ghost var before := Abstract().docs;
      GroupedNoExtraction(documents, extractions, auditLog, id);
      extractions := extractions - {id};
      var reset := documents[id].(status := Uploaded, rawText := None, docType := None);
      GroupedRow(documents, extractions, auditLog, id, reset);
      Overwrite(before, id, Tables(documents[id], None, before[id].log), Tables(reset, None, before[id].log));
      documents := documents[id := reset];
    }

    method ReprocessDocument(id: string, actor: string) returns (a: Answer)
      requires Valid() && tenantId.Some?
      modifies this
      ensures Valid() && tenantId == old(tenantId)
      ensures (Abstract(), a) == Exec(old(Abstract()), old(tenantId).value, Reprocess(id, actor))
    {
      ghost var before := Abstract().docs;
      if !DocumentVisible(id) {
        return Reviewed(Transactions.NotFound);
      }
      GroupedSame(documents, extractions, auditLog, id);
      var current := documents[id].status;
      if current != Failed && current != Rejected {
        return Reviewed(Transactions.InvalidStatus);
      }
      ResetRows(id);
      ghost var middle := Abstract().docs;
      var _ := InsertAuditRow(id, AuditRow(Some(actor), ReprocessedEvent, Some(current), Some(Uploaded), NoPayload));
      Overwrite(before, id, middle[id], Abstract().docs[id]);
      assert Abstract().docs == before[id := Abstract().docs[id]];
      assert Abstract().docs[id] == ReviewerTx(before[id], Reprocess(id, actor)).tables;
      return Reviewed(Transactions.Done);
    }

    method CountDeliveryRows(id: string) returns (a: Answer)
      requires tenantId.Some?
      ensures a == Counted(|DeliveriesOf(deliveries, tenantId.value, id)|)
    {
      var rows := set d | d in deliveries && DeliveryVisible(d) && deliveries[d].documentId == id;
      assert rows == DeliveriesOf(deliveries, tenantId.value, id);
      a := Counted(|rows|);
    }

    method InsertDeliveryRow(id: string, deliveryId: string, attempt: nat) returns (a: Answer)
      requires Valid() && tenantId.Some?
      modifies this
      ensures Valid() && tenantId == old(tenantId)
      ensures (Abstract(), a) == Exec(old(Abstract()), old(tenantId).value, InsertDelivery(id, deliveryId, attempt))
    {
      if id !in documents || deliveryId in deliveries {
        return Denied;
      }
      deliveries := deliveries[deliveryId := DeliveryEntry(id, tenantId.value, attempt, Pending)];
      return Ok;
    }

    method UpdateDeliveryRow(deliveryId: string, status: DeliveryStatus) returns (a: Answer)
      requires Valid() && tenantId.Some?
      modifies this
      ensures Valid() && tenantId == old(tenantId)
      ensures (Abstract(), a) == Exec(old(Abstract()), old(tenantId).value, UpdateDelivery(deliveryId, status))
    {
      if DeliveryVisible(deliveryId) {
        deliveries := deliveries[deliveryId := deliveries[deliveryId].(status := status)];
      }
      return Ok;
    }

    /** withTenantContext: set the session variable for this transaction, run the body, and let it revert. The
        tables under their policies do what Exec says on the document-by-document view. */
    method WithTenantContext(tenant: string, op: Op) returns (a: Answer)
      requires Valid()
      modifies this
      ensures Valid() && tenantId == None
      ensures (Abstract(), a) == Exec(old(Abstract()), tenant, op)
    {
      tenantId := Some(tenant);
      assert Abstract() == old(Abstract());
      match op {
        case InsertDocument(id, by_, fileName) => a := InsertDocumentRow(id, by_, fileName);
        case FindDocument(id) => a := SelectDocument(id);
        case UpdateDocument(id, patch) => a := UpdateDocumentRow(id, patch);
        case InsertExtraction(id, e) => a := InsertExtractionRow(id, e);
        case WriteAudit(id, row) => a := InsertAuditRow(id, row);
        case ReadLog(id) => a := SelectLog(id);
        case Approve(id, actor) => a := ApproveDocument(id, actor);
        case Reject(id, actor, reason) => a := RejectDocument(id, actor, reason);
        case Edit(id, actor, changes) => a := EditExtraction(id, actor, changes);
        case Reprocess(id, actor) => a := ReprocessDocument(id, actor);
        case CountDeliveries(id) => a := CountDeliveryRows(id);
        case InsertDelivery(id, deliveryId, attempt) => a := InsertDeliveryRow(id, deliveryId, attempt);
        case UpdateDelivery(deliveryId, status) => a := UpdateDeliveryRow(deliveryId, status);
      }
      label committed:
      tenantId := None;
      assert Abstract() == old@committed(Abstract());
    }
  }

  // ----- what a transaction writes, the next one reads

  predicate Patched<T(==)>(before: T, after: T, patch: Option<T>) {
    after == if patch.Some? then patch.value else before
  }

  /** A new document is found as it was entered, by its own tenant only. */
  lemma InsertThenFind(db: Db, tenant: string, id: string, uploadedBy: string, fileName: string, other: string)
    requires id !in db.docs
    ensures var (db', a) := Exec(db, tenant, InsertDocument(id, uploadedBy, fileName));
      && a == Ok
      && Exec(db', tenant, FindDocument(id)).1
         == Found(DocumentRow(id, tenant, uploadedBy, fileName, "pending", Uploaded, None, None), None)
      && (other != tenant ==> Exec(db', other, FindDocument(id)).1 == Missing)
      && Exec(db', tenant, ReadLog(id)).1 == LogRows([])
  {
  }

  /** An update sets the columns it names, keeps the others, and reaches visible documents only. */
  lemma UpdateThenFind(db: Db, tenant: string, id: string, patch: Patch)
    ensures var (db', a) := Exec(db, tenant, UpdateDocument(id, patch));
      if !Visible(db, tenant, id) then db' == db
      else
        var row, found := db.docs[id].row, Exec(db', tenant, FindDocument(id)).1;
        && found.Found? && found.extraction == db.docs[id].extraction
        && found.row.id == row.id && found.row.tenantId == row.tenantId
        && found.row.uploadedBy == row.uploadedBy && found.row.fileName == row.fileName
        && Patched(row.status, found.row.status, patch.status)
        && Patched(row.storageKey, found.row.storageKey, patch.storageKey)
        && (if patch.rawText.Some? then found.row.rawText == patch.rawText else found.row.rawText == row.rawText)
        && (if patch.docType.Some? then found.row.docType == patch.docType else found.row.docType == row.docType)
  {
  }

  /** The first extraction of a visible document stays; audit rows are appended in order. */
  lemma WriteThenRead(db: Db, tenant: string, id: string, e: ExtractionRow, row: AuditRow)
    requires Visible(db, tenant, id)
    ensures var found := Exec(Exec(db, tenant, InsertExtraction(id, e)).0, tenant, FindDocument(id)).1;
      && found.Found? && found.row == db.docs[id].row
      && found.extraction == if db.docs[id].extraction.None? then Some(e) else db.docs[id].extraction
    ensures Exec(Exec(db, tenant, WriteAudit(id, row)).0, tenant, ReadLog(id)).1
            == LogRows(db.docs[id].log + [row])
  {
  }

  /** A tenant finds and reads its own documents as they are stored. */
  lemma FindsOwn(db: Db, tenant: string, id: string)
    requires id in db.docs
    ensures var d := db.docs[id]; var own := d.row.tenantId == tenant;
      && Exec(db, tenant, FindDocument(id)) == (db, if own then Found(d.row, d.extraction) else Missing)
      && Exec(db, tenant, ReadLog(id)) == (db, LogRows(if own then d.log else []))
  {
  }

  /** A new delivery row is counted, starts pending, and takes the outcome recorded for it. */
  lemma DeliverThenCount(db: Db, tenant: string, id: string, d: string, attempt: nat, status: DeliveryStatus)
    requires id in db.docs && d !in db.deliveries
    ensures var db1 := Exec(db, tenant, InsertDelivery(id, d, attempt)).0;
            var db2 := Exec(db1, tenant, UpdateDelivery(d, status)).0;
      && Exec(db1, tenant, CountDeliveries(id)).1.n == Exec(db, tenant, CountDeliveries(id)).1.n + 1
      && db1.deliveries == db.deliveries[d := DeliveryEntry(id, tenant, attempt, Pending)]
      && db2.deliveries == db.deliveries[d := DeliveryEntry(id, tenant, attempt, status)]
      && db1.docs == db.docs && db2.docs == db.docs
    ensures db.deliveries == map[] ==> Exec(db, tenant, CountDeliveries(id)).1 == Counted(0)
  {
    var db1 := Exec(db, tenant, InsertDelivery(id, d, attempt)).0;
    assert DeliveriesOf(db1.deliveries, tenant, id) == DeliveriesOf(db.deliveries, tenant, id) + {d};
    assert db.deliveries == map[] ==> DeliveriesOf(db.deliveries, tenant, id) == {};
  }
}
