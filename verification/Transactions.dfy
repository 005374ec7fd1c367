/** The bodies of the tenant-scoped transactions, as functions on one document's rows. */
module Transactions {
  import opened Wrappers
  import opened DecisionEngine
  import opened Schema

  datatype Outcome = Done | NotFound | InvalidStatus | NoExtraction | ValidationError | Refused

  datatype Result = Result(tables: Tables, outcome: Outcome)

  function NewDocument(id: string, tenantId: string, uploadedBy: string, fileName: string): Tables {
    Tables(DocumentRow(id, tenantId, uploadedBy, fileName, PLACEHOLDER_KEY, Uploaded, None, None), None, [])
  }

  function Log(t: Tables, row: AuditRow): Tables {
    t.(log := t.log + [row])
  }

  function WorkerRow(event: Event, prev: Status, next: Status, payload: Payload): AuditRow {
    AuditRow(None, event, Some(prev), Some(next), payload)
  }

  function ReviewerRow(actor: string, event: Event, prev: Status, next: Status, payload: Payload): AuditRow {
    AuditRow(Some(actor), event, Some(prev), Some(next), payload)
  }

  function SetStatus(t: Tables, status: Status): Tables {
    t.(row := t.row.(status := status))
  }

  /** Insert of the extraction row; a row already there wins. */
  function InsertExtraction(t: Tables, e: ExtractionRow): Tables {
    if t.extraction.None? then t.(extraction := Some(e)) else t
  }

  // ----- what the columns hold (src/db/schema.ts)

  const VARCHAR_LIMIT: nat := 100
  const CENTS_LIMIT: int := 1_000_000_000_000  // numeric(12,2)

  /** No text or jsonb column takes the character NUL. */
  predicate IsPlain(text: string) { '\0' !in text }

  predicate IsPlainOption(text: Option<string>) { text.Some? ==> IsPlain(text.value) }

  predicate ArePlain(items: seq<LineItem>) { forall item <- items :: IsPlain(item.description) }

  /** Beyond its length a varchar column takes nothing but spaces, and drops them. */
  predicate FitsVarchar(text: Option<string>) {
    text.Some? ==> forall i :: VARCHAR_LIMIT <= i < |text.value| ==> text.value[i] == ' '
  }

  function Varchar(text: Option<string>): Option<string> {
    if text.Some? && |text.value| > VARCHAR_LIMIT then Some(text.value[..VARCHAR_LIMIT]) else text
  }

  predicate FitsNumeric(cents: int) { -CENTS_LIMIT < cents < CENTS_LIMIT }

  predicate FitsNumericOption(cents: Option<int>) { cents.Some? ==> FitsNumeric(cents.value) }

  predicate IsDateOption(date: Option<string>, isDate: string -> bool) { date.Some? ==> isDate(date.value) }

  /** The database takes the row: isDate is what its date columns read as a date. */
  predicate Storable(x: InvoiceExtraction, isDate: string -> bool) {
    && IsPlainOption(x.vendorName) && IsPlainOption(x.vendorAddress)
    && IsPlainOption(x.vendorTaxId) && FitsVarchar(x.vendorTaxId)
    && IsPlainOption(x.invoiceNumber) && FitsVarchar(x.invoiceNumber)
    && IsDateOption(x.invoiceDate, isDate) && IsDateOption(x.dueDate, isDate)
    && FitsNumeric(ToCents(x.subtotal)) && FitsNumeric(ToCents(x.tax)) && FitsNumeric(ToCents(x.total))
    && ArePlain(x.lineItems)
  }

  predicate FitsColumn(text: Option<string>) {
    IsPlainOption(text) && (text.Some? ==> |text.value| <= VARCHAR_LIMIT)
  }

  /** The text columns hold plain text within their length, the amounts are within numeric(12,2). */
  predicate Fits(e: ExtractionRow) {
    && IsPlainOption(e.vendorName) && IsPlainOption(e.vendorAddress)
    && FitsColumn(e.vendorTaxId) && FitsColumn(e.invoiceNumber)
    && FitsNumericOption(e.subtotal) && FitsNumericOption(e.tax) && FitsNumericOption(e.total)
    && ArePlain(e.lineItems)
  }

  lemma StorableFits(x: InvoiceExtraction, isDate: string -> bool)
    requires Storable(x, isDate)
    ensures Fits(Persist(x))
  {
  }

  function Persist(x: InvoiceExtraction): ExtractionRow {
    ExtractionRow(
      x.vendorName, x.vendorAddress, Varchar(x.vendorTaxId), Varchar(x.invoiceNumber), x.invoiceDate, x.dueDate,
      Some(ToCents(x.subtotal)), Some(ToCents(x.tax)), Some(ToCents(x.total)), x.lineItems, x.confidence)
  }

  function Approve(t: Tables, actor: string): Result {
    if t.row.status != PendingReview then Result(t, InvalidStatus)
    else Result(Log(SetStatus(t, Approved),
                    ReviewerRow(actor, ApprovedEvent, PendingReview, Approved, NoPayload)), Done)
  }

  const REASON_LIMIT: nat := 1000

  /** The request validator admits only non-empty trimmed reasons of bounded length; the audit row's jsonb
      column takes only plain text, and the whole transaction fails with it. */
  function Reject(t: Tables, actor: string, reason: string): Result {
    if !(1 <= |reason| <= REASON_LIMIT) then Result(t, ValidationError)
    else if t.row.status != PendingReview then Result(t, InvalidStatus)
    else if !IsPlain(reason) then Result(t, Refused)
    else Result(Log(SetStatus(t, Rejected),
                    ReviewerRow(actor, RejectedEvent, PendingReview, Rejected, ReasonPayload(reason))), Done)
  }

  function ChangeText(old_: Option<string>, c: Change<string>): Option<string> {
    match c
    case Keep => old_
    case Clear => None
    case Assign(v) => Some(v)
  }

  function ChangeAmount(old_: Option<int>, c: Change<real>): Option<int> {
    match c
    case Keep => old_
    case Clear => None
    case Assign(v) => Some(ToCents(v))
  }

  function ApplyEdit(e: ExtractionRow, c: ExtractionEdit): ExtractionRow {
    ExtractionRow(
      ChangeText(e.vendorName, c.vendorName), ChangeText(e.vendorAddress, c.vendorAddress),
      ChangeText(e.vendorTaxId, c.vendorTaxId), ChangeText(e.invoiceNumber, c.invoiceNumber),
      ChangeText(e.invoiceDate, c.invoiceDate), ChangeText(e.dueDate, c.dueDate),
      ChangeAmount(e.subtotal, c.subtotal), ChangeAmount(e.tax, c.tax), ChangeAmount(e.total, c.total),
      if c.lineItems.Some? then c.lineItems.value else e.lineItems,
      if c.confidence.Some? then c.confidence.value else e.confidence)
  }

  const NO_CHANGE := ExtractionEdit(Keep, Keep, Keep, Keep, Keep, Keep, Keep, Keep, Keep, None, None)

  predicate ShortText(c: Change<string>, limit: nat) { c.Assign? ==> |c.value| <= limit }

  predicate NotNegative(c: Change<real>) { c.Assign? ==> c.value >= 0.0 }

  /** What the request validator admits (src/validators/documents.ts): at least one field, and each in bounds. */
  predicate IsValidEdit(c: ExtractionEdit) {
    && c != NO_CHANGE
    && ShortText(c.vendorName, 1000) && ShortText(c.vendorAddress, 2000)
    && ShortText(c.vendorTaxId, 100) && ShortText(c.invoiceNumber, 100)
    && NotNegative(c.subtotal) && NotNegative(c.tax) && NotNegative(c.total)
    && (c.lineItems.Some? ==> |c.lineItems.value| <= 1000)
    && (c.confidence.Some? ==> c.confidence.value.AtLeast(0.0) && c.confidence.value.AtMost(1.0))
  }

  /** An edit that makes the row unstorable fails, and with it the whole transaction. */
  function Edit(t: Tables, actor: string, changes: ExtractionEdit): Result {
    if !IsValidEdit(changes) then Result(t, ValidationError)
    else if t.row.status != PendingReview then Result(t, InvalidStatus)
    else if t.extraction.None? then Result(t, NoExtraction)
    else if !Fits(ApplyEdit(t.extraction.value, changes)) then Result(t, Refused)
    else Result(
      Log(t.(extraction := Some(ApplyEdit(t.extraction.value, changes))),
          ReviewerRow(actor, FieldEditedEvent, PendingReview, PendingReview, ChangesPayload(changes))), Done)
  }

  function Reprocess(t: Tables, actor: string): Result {
    if t.row.status != Failed && t.row.status != Rejected then Result(t, InvalidStatus)
    else Result(
      Log(Tables(t.row.(status := Uploaded, rawText := None, docType := None), None, t.log),
          ReviewerRow(actor, ReprocessedEvent, t.row.status, Uploaded, NoPayload)), Done)
  }

  /** The reason of the most recent rejection, in commit order. */
  function LatestRejection(log: seq<AuditRow>): Option<string> {
    if log == [] then None
    else
      var last := log[|log| - 1];
      if last.event == RejectedEvent then
        (if last.payload.ReasonPayload? then Some(last.payload.reason) else None)
      else LatestRejection(log[..|log| - 1])
  }

  // ----- edits compose

  function MergeChange<T>(first: Change<T>, second: Change<T>): Change<T> {
    if second.Keep? then first else second
  }

  function MergeOption<T>(first: Option<T>, second: Option<T>): Option<T> {
    if second.None? then first else second
  }

  function MergeEdits(a: ExtractionEdit, b: ExtractionEdit): ExtractionEdit {
    ExtractionEdit(
      MergeChange(a.vendorName, b.vendorName), MergeChange(a.vendorAddress, b.vendorAddress),
      MergeChange(a.vendorTaxId, b.vendorTaxId), MergeChange(a.invoiceNumber, b.invoiceNumber),
      MergeChange(a.invoiceDate, b.invoiceDate), MergeChange(a.dueDate, b.dueDate),
      MergeChange(a.subtotal, b.subtotal), MergeChange(a.tax, b.tax), MergeChange(a.total, b.total),
      MergeOption(a.lineItems, b.lineItems), MergeOption(a.confidence, b.confidence))
  }

  /** The field_edited rows of a log, oldest first. */
  function EditsIn(log: seq<AuditRow>): seq<ExtractionEdit> {
    if log == [] then []
    else
      var last := log[|log| - 1];
      EditsIn(log[..|log| - 1])
      + if last.event == FieldEditedEvent && last.payload.ChangesPayload? then [last.payload.changes] else []
  }

  function Replay(e: ExtractionRow, edits: seq<ExtractionEdit>): ExtractionRow {
    if edits == [] then e else ApplyEdit(Replay(e, edits[..|edits| - 1]), edits[|edits| - 1])
  }

  function MergeAll(edits: seq<ExtractionEdit>): ExtractionEdit {
    if edits == [] then NO_CHANGE else MergeEdits(MergeAll(edits[..|edits| - 1]), edits[|edits| - 1])
  }

  lemma TwoEditsAreOne(e: ExtractionRow, a: ExtractionEdit, b: ExtractionEdit)
    ensures ApplyEdit(ApplyEdit(e, a), b) == ApplyEdit(e, MergeEdits(a, b))
  {
  }

  /** Any number of edits, replayed one by one, equals the one merged edit. */
  lemma {:induction false} ReplayIsOneMergedEdit(e: ExtractionRow, edits: seq<ExtractionEdit>)
    ensures Replay(e, edits) == ApplyEdit(e, MergeAll(edits))
  {
    if edits != [] {
      ReplayIsOneMergedEdit(e, edits[..|edits| - 1]);
      TwoEditsAreOne(e, MergeAll(edits[..|edits| - 1]), edits[|edits| - 1]);
    }
  }

  lemma EditsInSnoc(log: seq<AuditRow>, row: AuditRow)
    ensures EditsIn(log + [row])
            == EditsIn(log)
               + if row.event == FieldEditedEvent && row.payload.ChangesPayload? then [row.payload.changes] else []
  {
    assert (log + [row])[..|log + [row]| - 1] == log;
  }

  lemma ReplaySnoc(e: ExtractionRow, edits: seq<ExtractionEdit>, c: ExtractionEdit)
    ensures Replay(e, edits + [c]) == ApplyEdit(Replay(e, edits), c)
  {
    assert (edits + [c])[..|edits + [c]| - 1] == edits;
  }

  // ----- what the transactions do, column by column

  predicate IsAmount(cents: Option<int>, amount: real) {
    cents.Some? && Abs(cents.value as real / 100.0 - amount) <= 0.005
  }

  predicate IsCut(stored: Option<string>, text: Option<string>) {
    if text.Some? && |text.value| > 100 then stored == Some(text.value[..100]) else stored == text
  }

  /** Every column of an inserted row is the model's answer for it. */
  lemma PersistedColumns(x: InvoiceExtraction)
    ensures var e := Persist(x);
      && e.vendorName == x.vendorName && e.vendorAddress == x.vendorAddress
      && IsCut(e.vendorTaxId, x.vendorTaxId) && IsCut(e.invoiceNumber, x.invoiceNumber)
      && e.invoiceDate == x.invoiceDate && e.dueDate == x.dueDate
      && IsAmount(e.subtotal, x.subtotal) && IsAmount(e.tax, x.tax) && IsAmount(e.total, x.total)
      && e.lineItems == x.lineItems && e.confidence == x.confidence
  {
    CentsWithinHalfCent(x.subtotal);
    CentsWithinHalfCent(x.tax);
    CentsWithinHalfCent(x.total);
  }

  predicate TextEdited(before: Option<string>, after: Option<string>, c: Change<string>) {
    && (c.Keep? ==> after == before) && (c.Clear? ==> after == None) && (c.Assign? ==> after == Some(c.value))
  }

  predicate AmountEdited(before: Option<int>, after: Option<int>, c: Change<real>) {
    && (c.Keep? ==> after == before) && (c.Clear? ==> after == None) && (c.Assign? ==> IsAmount(after, c.value))
  }

  lemma AmountChanged(before: Option<int>, c: Change<real>)
    ensures AmountEdited(before, ChangeAmount(before, c), c)
  {
    if c.Assign? { CentsWithinHalfCent(c.value); }
  }

  /** A successful edit changes the columns it names to what it says, to the nearest cent, and no others, and
      appends one row with the edit itself. */
  lemma EditedColumns(t: Tables, actor: string, changes: ExtractionEdit)
    requires Edit(t, actor, changes).outcome == Done
    ensures var t' := Edit(t, actor, changes).tables;
      && t.row.status == PendingReview && t'.row == t.row && t.extraction.Some? && t'.extraction.Some?
      && t'.log == t.log + [AuditRow(Some(actor), FieldEditedEvent, Some(PendingReview), Some(PendingReview),
                                     ChangesPayload(changes))]
      && var e, e' := t.extraction.value, t'.extraction.value;
      && TextEdited(e.vendorName, e'.vendorName, changes.vendorName)
      && TextEdited(e.vendorAddress, e'.vendorAddress, changes.vendorAddress)
      && TextEdited(e.vendorTaxId, e'.vendorTaxId, changes.vendorTaxId)
      && TextEdited(e.invoiceNumber, e'.invoiceNumber, changes.invoiceNumber)
      && TextEdited(e.invoiceDate, e'.invoiceDate, changes.invoiceDate)
      && TextEdited(e.dueDate, e'.dueDate, changes.dueDate)
      && AmountEdited(e.subtotal, e'.subtotal, changes.subtotal)
      && AmountEdited(e.tax, e'.tax, changes.tax)
      && AmountEdited(e.total, e'.total, changes.total)
      && e'.lineItems == (if changes.lineItems.Some? then changes.lineItems.value else e.lineItems)
      && e'.confidence == (if changes.confidence.Some? then changes.confidence.value else e.confidence)
  {
    var e := t.extraction.value;
    AmountChanged(e.subtotal, changes.subtotal);
    AmountChanged(e.tax, changes.tax);
    AmountChanged(e.total, changes.total);
  }

  predicate HasNul(text: Option<string>) { text.Some? && '\0' in text.value }

  predicate TooLong(text: Option<string>) {
    text.Some? && exists i :: 100 <= i < |text.value| && text.value[i] != ' '
  }

  predicate IsNoDate(date: Option<string>, isDate: string -> bool) { date.Some? && !isDate(date.value) }

  /** The insert is refused exactly for a NUL in a text, a tax id or number beyond its hundred characters, a
      date that is none, or an amount that rounds to ten digits before the point or more. */
  lemma RefusedMeans(x: InvoiceExtraction, isDate: string -> bool)
    ensures !Storable(x, isDate) <==>
      || HasNul(x.vendorName) || HasNul(x.vendorAddress) || HasNul(x.vendorTaxId) || HasNul(x.invoiceNumber)
      || TooLong(x.vendorTaxId) || TooLong(x.invoiceNumber)
      || IsNoDate(x.invoiceDate, isDate) || IsNoDate(x.dueDate, isDate)
      || Abs(x.subtotal) >= 9999999999.995 || Abs(x.tax) >= 9999999999.995 || Abs(x.total) >= 9999999999.995
      || exists item <- x.lineItems :: '\0' in item.description
  {
    AmountRefused(x.subtotal);
    AmountRefused(x.tax);
    AmountRefused(x.total);
  }

  lemma AmountRefused(amount: real)
    ensures FitsNumeric(ToCents(amount)) <==> Abs(amount) < 9999999999.995
  {
  }

  /** An approval succeeds exactly for a document pending review, and then writes this. */
  lemma ApproveMeans(t: Tables, actor: string)
    ensures Approve(t, actor).outcome == if t.row.status == PendingReview then Done else InvalidStatus
    ensures Approve(t, actor).tables
            == if t.row.status != PendingReview then t
               else Tables(t.row.(status := Approved), t.extraction,
                           t.log + [AuditRow(Some(actor), ApprovedEvent, Some(PendingReview), Some(Approved),
                               NoPayload)])
  {
  }

  /** A rejection also needs a reason of one to a thousand characters without a NUL. */
  lemma RejectMeans(t: Tables, actor: string, reason: string)
    ensures Reject(t, actor, reason).outcome == Done <==>
              t.row.status == PendingReview && 1 <= |reason| <= 1000 && '\0' !in reason
    ensures Reject(t, actor, reason).tables
            == if Reject(t, actor, reason).outcome != Done then t
               else Tables(t.row.(status := Rejected), t.extraction,
                           t.log + [AuditRow(Some(actor), RejectedEvent, Some(PendingReview), Some(Rejected),
                                             ReasonPayload(reason))])
  {
  }

  /** A reprocessing succeeds exactly for a failed or rejected document, which it empties. */
  lemma ReprocessMeans(t: Tables, actor: string)
    ensures Reprocess(t, actor).outcome == if t.row.status in {Failed, Rejected} then Done else InvalidStatus
    ensures Reprocess(t, actor).tables
            == if t.row.status !in {Failed, Rejected} then t
               else Tables(t.row.(status := Uploaded, rawText := None, docType := None), None,
                           t.log + [AuditRow(Some(actor), ReprocessedEvent, Some(t.row.status), Some(Uploaded),
                               NoPayload)])
  {
  }

  predicate AdmitsText(c: Change<string>, limit: nat) { c.Assign? ==> |c.value| <= limit && '\0' !in c.value }

  predicate AdmitsAmount(c: Change<real>) { c.Assign? ==> 0.0 <= c.value < 9999999999.995 }

  /** Every edit that the validator and the columns admit. */
  predicate Admissible(c: ExtractionEdit) {
    && !(c.vendorName.Keep? && c.vendorAddress.Keep? && c.vendorTaxId.Keep? && c.invoiceNumber.Keep?
         && c.invoiceDate.Keep? && c.dueDate.Keep? && c.subtotal.Keep? && c.tax.Keep? && c.total.Keep?
         && c.lineItems.None? && c.confidence.None?)
    && AdmitsText(c.vendorName, 1000) && AdmitsText(c.vendorAddress, 2000)
    && AdmitsText(c.vendorTaxId, 100) && AdmitsText(c.invoiceNumber, 100)
    && AdmitsAmount(c.subtotal) && AdmitsAmount(c.tax) && AdmitsAmount(c.total)
    && (c.lineItems.Some? ==> |c.lineItems.value| <= 1000 && forall i <- c.lineItems.value :: '\0' !in i.description)
    && (c.confidence.Some? ==> c.confidence.value.AtLeast(0.0) && c.confidence.value.AtMost(1.0))
  }

  /** An edit of a stored extraction succeeds exactly if the document is pending review and the edit admissible;
      otherwise nothing changes. */
  lemma EditMeans(t: Tables, actor: string, changes: ExtractionEdit)
    ensures Edit(t, actor, changes).outcome != Done ==> Edit(t, actor, changes).tables == t
    ensures t.extraction.None? ==> Edit(t, actor, changes).outcome != Done
    ensures t.extraction.Some? && Fits(t.extraction.value) ==>
              (Edit(t, actor, changes).outcome == Done <==> t.row.status == PendingReview && Admissible(changes))
  {
    EditedAmountFits(changes.subtotal);
    EditedAmountFits(changes.tax);
    EditedAmountFits(changes.total);
  }

  lemma EditedAmountFits(c: Change<real>)
    ensures NotNegative(c) && c.Assign? ==> (FitsNumeric(ToCents(c.value)) <==> AdmitsAmount(c))
  {
    if c.Assign? { AmountRefused(c.value); }
  }
}
