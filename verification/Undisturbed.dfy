/** A document that is left alone: no step throws, nobody reviews it, and the tenant's settings and the
    providers' answers stay the same. Whatever the schedule, its rows end up as those answers determine. */
module Undisturbed {
  import opened Wrappers
  import opened DecisionEngine
  import opened Schema
  import opened Transactions
  import opened Pipeline
  import opened ProviderFault
  import opened ProviderFaultTheorems
  import opened Termination
  import AnyFaultTheorems
  import Providers

  predicate Finished(t: Task) { Rank(t) == 0 }

  // ----- the outcome, from the upload and the answers alone

  function ClassifiedAs(env: Env): Option<DocType> {
    Providers.Ask(env.config, Invoice, env.classify).result
  }

  function ExtractedAs(env: Env): Option<InvoiceExtraction> {
    Providers.Ask(env.config, env.mockInvoice, env.extract).result
  }

  function ReadRow(row: DocumentRow, env: Env): DocumentRow {
    row.(storageKey := FileKey(row.tenantId, row.id, row.fileName), rawText := Some(env.text))
  }

  function UploadedRow(row: DocumentRow): AuditRow {
    AuditRow(Some(row.uploadedBy), UploadedEvent, None, Some(Uploaded), FilePayload(row.fileName))
  }

  function ReadLog(row: DocumentRow, env: Env): seq<AuditRow> {
    [UploadedRow(row)]
    + [AuditRow(None, OcrCompleteEvent, Some(OcrProcessing), Some(Extracted), TextPayload(|env.text|))]
  }

  function FailureRow(before: Status): AuditRow {
    AuditRow(None, ExtractedEvent, Some(before), Some(Failed), ErrorPayload)
  }

  function Verdict(env: Env): DecisionResult
    requires ExtractedAs(env).Some?
  {
    Evaluate(ExtractedAs(env).value, Threshold(env.tenant))
  }

  function ScoreRow(status: Status, v: DecisionResult): AuditRow {
    AuditRow(None, ExtractedEvent, Some(Extracting), Some(status), ScorePayload(v.minConfidence))
  }

  function VerdictRow(threshold: real, v: DecisionResult): AuditRow {
    if v.reasons == []
    then AuditRow(None, AutoApprovedEvent, Some(Approved), Some(Approved),
                  ApprovalPayload(threshold, v.minConfidence, v.lineItemsSum))
    else AuditRow(None, SentToReviewEvent, Some(PendingReview), Some(PendingReview), ReviewPayload(v.reasons))
  }

  /** The rows of a document whose text was extracted and decided on. */
  function DecidedTables(row: DocumentRow, env: Env): Tables
    requires ExtractedAs(env).Some?
  {
    var v := Verdict(env);
    var status := if v.reasons == [] then Approved else PendingReview;
    Tables(
      ReadRow(row, env).(status := status, docType := ClassifiedAs(env)),
      Some(Persist(ExtractedAs(env).value)),
      ReadLog(row, env) + [ScoreRow(status, v)] + [VerdictRow(Threshold(env.tenant), v)])
  }

  /** The model's answer is an invoice that the database takes. */
  predicate Stores(env: Env) {
    ExtractedAs(env).Some? && Storable(ExtractedAs(env).value, env.isDate)
  }

  /** What becomes of a new document: a text that the database refuses fails it after three OCR executions, a
      blank one at once; a provider that keeps failing, or an invoice that the database refuses, fails it after
      three extraction executions with one row each; an unknown type goes to review without an extraction; and
      everything else is decided by its scores and its sum. */
  function FinalTables(row: DocumentRow, env: Env): Tables {
    var read, log := ReadRow(row, env), ReadLog(row, env);
    if !IsPlain(env.text) then RefusedTables(row, Failed)
    else if IsBlank(Some(env.text)) then Tables(read.(status := Failed), None, log + [FailureRow(Extracted)])
    else if ClassifiedAs(env) == Some(UnknownType) then
      Tables(read.(status := PendingReview, docType := Some(UnknownType)), None,
             log + [AuditRow(None, SentToReviewEvent, Some(Extracting), Some(PendingReview), UnknownTypePayload)])
    else if ClassifiedAs(env).None? || !Stores(env) then
      Tables(read.(status := Failed, docType := ClassifiedAs(env)), None,
             log + [FailureRow(Extracting)] + [FailureRow(Extracting)] + [FailureRow(Extracting)])
    else DecidedTables(row, env)
  }

  /** The rows of a document whose text the database keeps refusing. */
  function RefusedTables(row: DocumentRow, status: Status): Tables {
    var key := FileKey(row.tenantId, row.id, row.fileName);
    Tables(row.(storageKey := key, status := status), None, [UploadedRow(row)])
  }

  // ----- the rows at every point on the way

  predicate Fails(env: Env) {
    && !IsBlank(Some(env.text)) && ClassifiedAs(env) != Some(UnknownType)
    && (ClassifiedAs(env).None? || !Stores(env))
  }

  predicate Known(env: Env) {
    !IsBlank(Some(env.text)) && ClassifiedAs(env).Some? && ClassifiedAs(env) != Some(UnknownType)
  }

  function FailedLog(row: DocumentRow, env: Env, k: nat): seq<AuditRow> {
    if k == 0 then ReadLog(row, env) else FailedLog(row, env, k - 1) + [FailureRow(Extracting)]
  }

  /** Before the execution that follows k failed ones. */
  function Before(row: DocumentRow, env: Env, k: nat): Tables {
    var (status, docType) := if k == 0 then (Extracted, None) else (Failed, ClassifiedAs(env));
    Tables(ReadRow(row, env).(status := status, docType := docType), None, FailedLog(row, env, k))
  }

  function At(t: Tables, status: Status): Tables { t.(row := t.row.(status := status)) }

  function Typed(row: DocumentRow, env: Env, k: nat): Tables {
    var t := At(Before(row, env, k), Extracting);
    t.(row := t.row.(docType := ClassifiedAs(env)))
  }

  /** The program counters an execution can be at, with the values it carries there. */
  predicate OnPath(pc: ExtPc, env: Env) {
    match pc
    case ExtRead => true
    case ExtEmpty(prev) => IsBlank(Some(env.text)) && prev == Extracted
    case ExtLogEmpty(prev) => IsBlank(Some(env.text)) && prev == Extracted
    case ExtTenant => !IsBlank(Some(env.text))
    case ExtMark(tenant) => !IsBlank(Some(env.text)) && tenant == env.tenant
    case ExtClassify(tenant) => !IsBlank(Some(env.text)) && tenant == env.tenant
    case ExtUnknown => !IsBlank(Some(env.text)) && ClassifiedAs(env) == Some(UnknownType)
    case ExtLogUnknown => !IsBlank(Some(env.text)) && ClassifiedAs(env) == Some(UnknownType)
    case ExtType(tenant, docType) => Known(env) && ClassifiedAs(env) == Some(docType) && tenant == env.tenant
    case ExtCall(tenant) => Known(env) && tenant == env.tenant
    case ExtInsert(tenant, invoice) => Known(env) && ExtractedAs(env) == Some(invoice) && tenant == env.tenant
    case ExtPublish(tenant, invoice, verdict) =>
      && Known(env) && Stores(env)
      && ExtractedAs(env) == Some(invoice) && tenant == env.tenant && verdict == Verdict(env)
    case ExtLog(tenant, invoice, verdict) =>
      && Known(env) && Stores(env)
      && ExtractedAs(env) == Some(invoice) && tenant == env.tenant && verdict == Verdict(env)
    case ExtLogDecision(tenant, invoice, verdict) =>
      && Known(env) && Stores(env)
      && ExtractedAs(env) == Some(invoice) && tenant == env.tenant && verdict == Verdict(env)
    case ExtNotify => Known(env) && Stores(env) && Verdict(env).reasons == [] && HasUrl(env.tenant)
    case ExtFail => Fails(env)
    case ExtLogFail => Fails(env)
    case ExtReturned => !Fails(env)
    case ExtThrew => Fails(env)
  }

  function RowsAt(pc: ExtPc, row: DocumentRow, env: Env, k: nat): Tables
    requires OnPath(pc, env)
  {
    match pc
    case ExtRead => Before(row, env, k)
    case ExtEmpty(_) => Before(row, env, k)
    case ExtLogEmpty(_) => At(Before(row, env, k), Failed)
    case ExtTenant => Before(row, env, k)
    case ExtMark(_) => Before(row, env, k)
    case ExtClassify(_) => At(Before(row, env, k), Extracting)
    case ExtUnknown => At(Before(row, env, k), Extracting)
    case ExtLogUnknown => At(Typed(row, env, k), PendingReview)
    case ExtType(_, _) => At(Before(row, env, k), Extracting)
    case ExtCall(_) => Typed(row, env, k)
    case ExtInsert(_, _) => Typed(row, env, k)
    case ExtPublish(_, invoice, _) => Typed(row, env, k).(extraction := Some(Persist(invoice)))
    case ExtLog(_, _, _) => DecidedTables(row, env).(log := ReadLog(row, env))
    case ExtLogDecision(_, _, _) =>
      var t := DecidedTables(row, env);
      t.(log := ReadLog(row, env) + [ScoreRow(t.row.status, Verdict(env))])
    case ExtNotify => FinalTables(row, env)
    case ExtFail => Typed(row, env, k)
    case ExtLogFail => At(Typed(row, env, k), Failed)
    case ExtReturned => FinalTables(row, env)
    case ExtThrew => Before(row, env, k + 1)
  }

  predicate JobIs(s: Shared, key: JobKey, tenantId: string, executions: nat, state: JobState) {
    && key in s.jobs
    && s.jobs[key].tenantId == tenantId && s.jobs[key].executions == executions && s.jobs[key].state == state
  }

  const FIRST_OCR := OcrKey("initial")
  const FIRST_EXTRACTION := ExtractKey("initial")

  predicate IsNew(row: DocumentRow) {
    row.status == Uploaded && row.docType.None?
  }

  predicate UploadAt(s: Shared, t: Task, row: DocumentRow, env: Env) {
    var key := FileKey(row.tenantId, row.id, row.fileName);
    && IsNew(row) && t.Upload? && t.up != UpFail && t.up != UpFailed
    && (t.up == UpDone ==> s.jobs.Keys == {FIRST_OCR} && JobIs(s, FIRST_OCR, row.tenantId, 0, Waiting))
    && (t.up != UpDone ==> s.jobs == map[])
    && (t.up != UpStore ==> key in s.objects)
    && (t.up.UpSaveKey? ==> t.up.key == key)
    && s.tables == Tables(if t.up == UpStore || t.up.UpSaveKey? then row else row.(storageKey := key), None,
                          if t.up == UpEnqueue || t.up == UpDone then [UploadedRow(row)] else [])
  }

  predicate OcrAt(s: Shared, t: Task, row: DocumentRow, env: Env) {
    var key := FileKey(row.tenantId, row.id, row.fileName);
    && IsNew(row) && IsPlain(env.text)
    && t.Ocr? && t.run == "initial" && t.tenantId == row.tenantId && key in s.objects
    && s.jobs.Keys == (if t.ocr == OcrReturned then {FIRST_OCR, FIRST_EXTRACTION} else {FIRST_OCR})
    && JobIs(s, FIRST_OCR, row.tenantId, 1, if t.ocr == OcrReturned then Completed else Active)
    && (t.ocr == OcrReturned ==> JobIs(s, FIRST_EXTRACTION, row.tenantId, 0, Waiting))
    && match t.ocr
       case OcrRead => s.tables == Tables(row.(storageKey := key), None, [UploadedRow(row)])
       case OcrMark(k, owner) =>
         k == key && owner == row.tenantId && s.tables == Tables(row.(storageKey := key), None, [UploadedRow(row)])
       case OcrRecognize(k, owner) =>
         && k == key && owner == row.tenantId
         && s.tables == Tables(row.(storageKey := key, status := OcrProcessing), None, [UploadedRow(row)])
       case OcrStore(k, owner, text) =>
         && owner == row.tenantId && text == env.text
         && s.tables == Tables(row.(storageKey := key, status := OcrProcessing), None, [UploadedRow(row)])
       case OcrLog(_, owner, text) =>
         && owner == row.tenantId && text == env.text
         && s.tables == Tables(ReadRow(row, env).(status := Extracted), None, [UploadedRow(row)])
       case OcrHandOver(_, owner) => owner == row.tenantId && s.tables == Before(row, env, 0)
       case OcrReturned => s.tables == Before(row, env, 0)
       case OcrFail => false
       case OcrThrew => false
  }

  /** An execution of the OCR job that follows k failed ones, each stopped by a text the database refuses. */
  predicate RefusedAt(s: Shared, t: Task, row: DocumentRow, env: Env, k: nat) {
    var key := FileKey(row.tenantId, row.id, row.fileName);
    && IsNew(row) && !IsPlain(env.text) && k < JOB_ATTEMPTS
    && t.Ocr? && t.run == "initial" && t.tenantId == row.tenantId && key in s.objects
    && s.jobs.Keys == {FIRST_OCR}
    && JobIs(s, FIRST_OCR, row.tenantId, k + 1,
             if t.ocr != OcrThrew then Active else if k + 1 < JOB_ATTEMPTS then Waiting else Exhausted)
    && match t.ocr
       case OcrRead => s.tables == RefusedTables(row, if k == 0 then Uploaded else Failed)
       case OcrMark(f, owner) =>
         f == key && owner == row.tenantId && s.tables == RefusedTables(row, if k == 0 then Uploaded else Failed)
       case OcrRecognize(f, _) => f == key && s.tables == RefusedTables(row, OcrProcessing)
       case OcrStore(_, _, text) => text == env.text && s.tables == RefusedTables(row, OcrProcessing)
       case OcrFail => s.tables == RefusedTables(row, OcrProcessing)
       case OcrThrew => s.tables == RefusedTables(row, Failed)
       case _ => false
  }

  /** An execution of the extraction job that follows k failed ones. */
  predicate ExtTask(t: Task, row: DocumentRow, env: Env, k: nat) {
    && IsNew(row) && t.Ext? && t.run == "initial" && t.tenantId == row.tenantId
    && k < JOB_ATTEMPTS && (k > 0 ==> Fails(env)) && IsPlain(env.text) && OnPath(t.ext, env)
  }

  predicate ExtJobs(s: Shared, tenantId: string, pc: ExtPc, k: nat) {
    && s.jobs.Keys == {FIRST_OCR, FIRST_EXTRACTION} && s.jobs[FIRST_OCR].state == Completed
    && JobIs(s, FIRST_EXTRACTION, tenantId, k + 1,
             if pc == ExtReturned then Completed else if pc != ExtThrew then Active
             else if k + 1 < JOB_ATTEMPTS then Waiting else Exhausted)
  }

  predicate ExtAt(s: Shared, t: Task, row: DocumentRow, env: Env, k: nat) {
    ExtTask(t, row, env, k) && ExtJobs(s, t.tenantId, t.ext, k) && s.tables == RowsAt(t.ext, row, env, k)
  }

  function Notified(t: Task, env: Env): nat {
    if t.Ext? && t.ext == ExtReturned && Approves(env) && HasUrl(env.tenant) then 1 else 0
  }

  predicate Approves(env: Env) {
    IsPlain(env.text) && Known(env) && Stores(env) && Verdict(env).reasons == []
  }

  /** Where the n-th task stands: the upload first, then OCR executions as long as the text is refused, or one
      OCR execution and extraction executions from then on. */
  predicate NewestAt(s: Shared, t: Task, n: nat, row: DocumentRow, env: Env)
    requires n > 0
  {
    && |s.webhooks| == Notified(t, env)
    && if n == 1 then UploadAt(s, t, row, env)
       else if !IsPlain(env.text) then RefusedAt(s, t, row, env, n - 2)
       else if n == 2 then OcrAt(s, t, row, env)
       else ExtAt(s, t, row, env, n - 3)
  }

  /** Every task but the newest is finished. */
  ghost predicate OnTrack(y: System, row: DocumentRow, env: Env) {
    var n := |y.tasks|;
    && n > 0 && NewestAt(y.shared, y.tasks[n - 1], n, row, env)
    && forall i :: 0 <= i < n - 1 ==> Finished(y.tasks[i]) && InPlace(y.tasks[i])
  }

  predicate InPlace(t: Task) {
    t == Upload(UpDone) || t.Ocr? || t.Ext?
  }

  lemma UploadMovesOn(s: Shared, t: Task, row: DocumentRow, env: Env)
    requires UploadAt(s, t, row, env) && env.fault == NoFault
    ensures var m := MoveOf(s, t, env);
            UploadAt(Effect(s, t, m), m.task, row, env) && Effect(s, t, m).webhooks == s.webhooks
  {
  }

  lemma OcrMovesOn(s: Shared, t: Task, row: DocumentRow, env: Env)
    requires OcrAt(s, t, row, env) && env.fault == NoFault
    ensures var m := MoveOf(s, t, env);
            OcrAt(Effect(s, t, m), m.task, row, env) && Effect(s, t, m).webhooks == s.webhooks
  {
  }

  lemma RefusedMovesOn(s: Shared, t: Task, row: DocumentRow, env: Env, k: nat)
    requires RefusedAt(s, t, row, env, k) && env.fault == NoFault
    ensures var m := MoveOf(s, t, env);
            RefusedAt(Effect(s, t, m), m.task, row, env, k) && Effect(s, t, m).webhooks == s.webhooks
  {
  }

  ghost predicate RowsGoOn(s: Shared, t: Task, row: DocumentRow, env: Env, k: nat)
    requires t.Ext?
  {
    var m := ExtMove(s, t, env);
    ExtTask(m.task, row, env, k) && Do(s, m.op).tables == RowsAt(m.task.ext, row, env, k)
  }

  lemma ReadingRows(s: Shared, t: Task, row: DocumentRow, env: Env, k: nat)
    requires ExtTask(t, row, env, k) && s.tables == RowsAt(t.ext, row, env, k)
    requires Reading(t.ext) && env.fault == NoFault
    ensures RowsGoOn(s, t, row, env, k)
  {
  }

  lemma ClassifyingRows(s: Shared, t: Task, row: DocumentRow, env: Env, k: nat)
    requires ExtTask(t, row, env, k) && s.tables == RowsAt(t.ext, row, env, k) && env.fault == NoFault
    requires t.ext.ExtClassify?
    ensures RowsGoOn(s, t, row, env, k)
  {
  }

  lemma UnknownRows(s: Shared, t: Task, row: DocumentRow, env: Env, k: nat)
    requires ExtTask(t, row, env, k) && s.tables == RowsAt(t.ext, row, env, k) && env.fault == NoFault
    requires t.ext.ExtUnknown? || t.ext.ExtLogUnknown?
    ensures RowsGoOn(s, t, row, env, k)
  {
  }

  lemma ExtractingRows(s: Shared, t: Task, row: DocumentRow, env: Env, k: nat)
    requires ExtTask(t, row, env, k) && s.tables == RowsAt(t.ext, row, env, k) && env.fault == NoFault
    requires t.ext.ExtType? || t.ext.ExtCall?
    ensures RowsGoOn(s, t, row, env, k)
  {
  }

  lemma VerdictDecides(env: Env)
    requires ExtractedAs(env).Some?
    ensures var v := Verdict(env);
      && (v.decision == AutoApprove <==> v.reasons == [])
      && PublishedStatus(v) == (if v.reasons == [] then Approved else PendingReview)
      && DecisionRow(env.tenant, v) == VerdictRow(Threshold(env.tenant), v)
  {
    AutoApproveMeans(ExtractedAs(env).value, Threshold(env.tenant));
  }

  lemma InsertingRows(s: Shared, t: Task, row: DocumentRow, env: Env, k: nat)
    requires ExtTask(t, row, env, k) && s.tables == RowsAt(t.ext, row, env, k) && env.fault == NoFault
    requires t.ext.ExtInsert?
    ensures RowsGoOn(s, t, row, env, k)
  {
  }

  lemma PublishingRows(s: Shared, t: Task, row: DocumentRow, env: Env, k: nat)
    requires ExtTask(t, row, env, k) && s.tables == RowsAt(t.ext, row, env, k) && env.fault == NoFault
    requires t.ext.ExtPublish?
    ensures RowsGoOn(s, t, row, env, k)
  {
    VerdictDecides(env);
  }

  lemma ScoreRows(s: Shared, t: Task, row: DocumentRow, env: Env, k: nat)
    requires ExtTask(t, row, env, k) && s.tables == RowsAt(t.ext, row, env, k) && env.fault == NoFault
    requires t.ext.ExtLog?
    ensures RowsGoOn(s, t, row, env, k)
  {
    VerdictDecides(env);
  }

  lemma VerdictRows(s: Shared, t: Task, row: DocumentRow, env: Env, k: nat)
    requires ExtTask(t, row, env, k) && s.tables == RowsAt(t.ext, row, env, k) && env.fault == NoFault
    requires t.ext.ExtLogDecision?
    ensures RowsGoOn(s, t, row, env, k)
  {
    VerdictDecides(env);
    assert FinalTables(row, env) == DecidedTables(row, env);
  }

  lemma NotifyingRows(s: Shared, t: Task, row: DocumentRow, env: Env, k: nat)
    requires ExtTask(t, row, env, k) && s.tables == RowsAt(t.ext, row, env, k) && env.fault == NoFault
    requires t.ext.ExtNotify?
    ensures RowsGoOn(s, t, row, env, k)
  {
  }

  lemma FailingRows(s: Shared, t: Task, row: DocumentRow, env: Env, k: nat)
    requires ExtTask(t, row, env, k) && s.tables == RowsAt(t.ext, row, env, k)
    requires t.ext.ExtFail? || t.ext.ExtLogFail?
    requires env.fault == NoFault
    ensures RowsGoOn(s, t, row, env, k)
  {
  }

  lemma ExtRows(s: Shared, t: Task, row: DocumentRow, env: Env, k: nat)
    requires ExtTask(t, row, env, k) && s.tables == RowsAt(t.ext, row, env, k) && env.fault == NoFault
             && !HasEnded(t.ext)
    ensures RowsGoOn(s, t, row, env, k)
  {
    var pc := t.ext;
    if Reading(pc) { ReadingRows(s, t, row, env, k); }
    else if pc.ExtClassify? { ClassifyingRows(s, t, row, env, k); }
    else if pc.ExtUnknown? || pc.ExtLogUnknown? { UnknownRows(s, t, row, env, k); }
    else if pc.ExtType? || pc.ExtCall? { ExtractingRows(s, t, row, env, k); }
    else if pc.ExtInsert? { InsertingRows(s, t, row, env, k); }
    else if pc.ExtPublish? { PublishingRows(s, t, row, env, k); }
    else if pc.ExtLog? { ScoreRows(s, t, row, env, k); }
    else if pc.ExtLogDecision? { VerdictRows(s, t, row, env, k); }
    else if pc.ExtNotify? { NotifyingRows(s, t, row, env, k); }
    else { FailingRows(s, t, row, env, k); }
  }

  predicate HasEnded(pc: ExtPc) { pc == ExtReturned || pc == ExtThrew }

  /** Which part of the shared state an execution's step reaches, and when the queue hears of it. */
  lemma ExtReach(s: Shared, t: Task, env: Env)
    requires t.Ext? && !HasEnded(t.ext) && env.fault == NoFault
    ensures var m := ExtMove(s, t, env);
      && m.task.Ext? && !m.op.AddJob? && (m.op.CountCalls? ==> m.op.job == ExtractKey(t.run))
      && (m.op.AddWebhook? <==> t.ext == ExtNotify)
      && m.ending == (if m.task.ext == ExtReturned then Returns else if m.task.ext == ExtThrew then Throws else GoesOn)
  {
  }

  lemma QueueGoesOn(s: Shared, t: Task, pc': ExtPc, op: Op, ending: Ending, k: nat)
    requires t.Ext? && t.run == "initial" && !HasEnded(t.ext) && ExtJobs(s, t.tenantId, t.ext, k)
    requires !op.AddJob? && (op.CountCalls? ==> op.job == FIRST_EXTRACTION)
    requires ending == (if pc' == ExtReturned then Returns else if pc' == ExtThrew then Throws else GoesOn)
    ensures var s' := End(Do(s, op), t, ending);
      && ExtJobs(s', t.tenantId, pc', k) && s'.tables == Do(s, op).tables
      && |s'.webhooks| == |s.webhooks| + if op.AddWebhook? then 1 else 0
  {
  }

  lemma NotifiesOnce(s: Shared, t: Task, row: DocumentRow, env: Env, k: nat)
    requires ExtTask(t, row, env, k) && s.tables == RowsAt(t.ext, row, env, k) && env.fault == NoFault
             && !HasEnded(t.ext)
    ensures Notified(ExtMove(s, t, env).task, env) == if t.ext == ExtNotify then 1 else 0
  {
    if ExtractedAs(env).Some? {
      VerdictDecides(env);
    }
  }

  lemma ExtMovesOn(s: Shared, t: Task, row: DocumentRow, env: Env, k: nat)
    requires ExtAt(s, t, row, env, k) && !HasEnded(t.ext) && env.fault == NoFault
    ensures var m := ExtMove(s, t, env);
      && ExtAt(Effect(s, t, m), m.task, row, env, k)
      && |Effect(s, t, m).webhooks| == |s.webhooks| + Notified(m.task, env)
  {
    var m := ExtMove(s, t, env);
    ExtRows(s, t, row, env, k);
    ExtReach(s, t, env);
    NotifiesOnce(s, t, row, env, k);
    QueueGoesOn(s, t, m.task.ext, m.op, m.ending, k);
  }

  // ----- the system stays on its track

  lemma FinishedStaysPut(s: Shared, t: Task, env: Env)
    requires Finished(t) && InPlace(t)
    ensures MoveOf(s, t, env).task == t && Effect(s, t, MoveOf(s, t, env)) == s
  {
  }

  lemma NewestMovesOn(s: Shared, t: Task, n: nat, row: DocumentRow, env: Env)
    requires n > 0 && NewestAt(s, t, n, row, env) && env.fault == NoFault && !Finished(t)
    ensures var m := MoveOf(s, t, env); NewestAt(Effect(s, t, m), m.task, n, row, env)
  {
    if n == 1 { UploadMovesOn(s, t, row, env); }
    else if !IsPlain(env.text) { RefusedMovesOn(s, t, row, env, n - 2); }
    else if n == 2 { OcrMovesOn(s, t, row, env); }
    else { ExtMovesOn(s, t, row, env, n - 3); }
  }

  lemma NewestInPlace(s: Shared, t: Task, n: nat, row: DocumentRow, env: Env)
    requires n > 0 && NewestAt(s, t, n, row, env) && Finished(t)
    ensures InPlace(t)
  {
  }

  lemma NewestReplaced(y: System, s': Shared, t': Task, row: DocumentRow, env: Env)
    requires OnTrack(y, row, env) && NewestAt(s', t', |y.tasks|, row, env)
    ensures OnTrack(System(s', y.tasks[|y.tasks| - 1 := t']), row, env)
  {
    var tasks' := y.tasks[|y.tasks| - 1 := t'];
    assert forall i :: 0 <= i < |y.tasks| - 1 ==> tasks'[i] == y.tasks[i];
  }

  lemma RunStaysOnTrack(y: System, row: DocumentRow, env: Env, i: nat)
    requires OnTrack(y, row, env) && env.fault == NoFault && i < |y.tasks|
    ensures OnTrack(Next(y, RunTask(i, env)), row, env)
  {
    var s, t, n := y.shared, y.tasks[i], |y.tasks|;
    if Finished(t) {
      if i == n - 1 { NewestInPlace(s, t, n, row, env); }
      FinishedStaysPut(s, t, env);
      assert Next(y, RunTask(i, env)).tasks == y.tasks;
    } else {
      var m := MoveOf(s, t, env);
      NewestMovesOn(s, t, n, row, env);
      NewestReplaced(y, Effect(s, t, m), m.task, row, env);
    }
  }

  lemma OcrStarts(s: Shared, row: DocumentRow, env: Env)
    requires UploadAt(s, Upload(UpDone), row, env)
    ensures var s', t := Activate(s, FIRST_OCR), Ocr("initial", s.jobs[FIRST_OCR].tenantId, OcrRead);
            if IsPlain(env.text) then OcrAt(s', t, row, env) else RefusedAt(s', t, row, env, 0)
  {
  }

  lemma OcrStartsAgain(s: Shared, t: Task, row: DocumentRow, env: Env, k: nat)
    requires RefusedAt(s, t, row, env, k) && s.jobs[FIRST_OCR].state == Waiting
    ensures t.ocr == OcrThrew
    ensures RefusedAt(Activate(s, FIRST_OCR), Ocr("initial", s.jobs[FIRST_OCR].tenantId, OcrRead), row, env, k + 1)
  {
  }

  lemma ExtractionStarts(s: Shared, t: Task, row: DocumentRow, env: Env)
    requires OcrAt(s, t, row, env) && t.ocr == OcrReturned
    ensures ExtAt(Activate(s, FIRST_EXTRACTION),
                  Ext("initial", s.jobs[FIRST_EXTRACTION].tenantId, ExtRead, false), row, env, 0)
  {
  }

  lemma ExtractionStartsAgain(s: Shared, t: Task, row: DocumentRow, env: Env, k: nat)
    requires ExtAt(s, t, row, env, k) && s.jobs[FIRST_EXTRACTION].state == Waiting
    ensures t.ext == ExtThrew
    ensures ExtAt(Activate(s, FIRST_EXTRACTION),
                  Ext("initial", s.jobs[FIRST_EXTRACTION].tenantId, ExtRead, false), row, env, k + 1)
  {
  }

  function FirstStep(s: Shared, key: JobKey): Task
    requires key in s.jobs
  {
    match key
    case OcrKey(run) => Ocr(run, s.jobs[key].tenantId, OcrRead)
    case ExtractKey(run) => Ext(run, s.jobs[key].tenantId, ExtRead, false)
  }

  lemma WaitingStarts(s: Shared, t: Task, n: nat, row: DocumentRow, env: Env, key: JobKey)
    requires n > 0 && NewestAt(s, t, n, row, env) && key in s.jobs && s.jobs[key].state == Waiting
    ensures Finished(t) && InPlace(t)
    ensures NewestAt(Activate(s, key), FirstStep(s, key), n + 1, row, env)
  {
    if n == 1 { OcrStarts(s, row, env); }
    else if !IsPlain(env.text) { OcrStartsAgain(s, t, row, env, n - 2); }
    else if n == 2 { ExtractionStarts(s, t, row, env); }
    else { ExtractionStartsAgain(s, t, row, env, n - 3); }
  }

  lemma OthersFinished(tasks: seq<Task>, t: Task)
    requires forall u <- tasks :: Finished(u) && InPlace(u)
    ensures forall i :: 0 <= i < |tasks + [t]| - 1 ==> Finished((tasks + [t])[i]) && InPlace((tasks + [t])[i])
  {
  }

  /** The queue starts a job only once everything before it has finished. */
  lemma NewestFollows(y: System, row: DocumentRow, env: Env, key: JobKey)
    requires OnTrack(y, row, env) && key in y.shared.jobs && y.shared.jobs[key].state == Waiting
    ensures OnTrack(System(Activate(y.shared, key), y.tasks + [FirstStep(y.shared, key)]), row, env)
  {
    var n := |y.tasks|;
    WaitingStarts(y.shared, y.tasks[n - 1], n, row, env, key);
    OthersFinished(y.tasks, FirstStep(y.shared, key));
  }

  lemma StartStaysOnTrack(y: System, row: DocumentRow, env: Env, a: Action)
    requires OnTrack(y, row, env) && (a.StartOcr? || a.StartExtraction?) && Permitted(y, a)
    ensures OnTrack(Next(y, a), row, env)
  {
    var key := if a.StartOcr? then OcrKey(a.run) else ExtractKey(a.run);
    if key in y.shared.jobs {
      NewestFollows(y, row, env, key);
    }
  }

  // ----- theorems

  ghost predicate AllLeave(actions: seq<Action>, env: Env) {
    forall a <- actions :: Leaves(a, env)
  }

  lemma StepStaysOnTrack(y: System, row: DocumentRow, env: Env, a: Action)
    requires OnTrack(y, row, env) && env.fault == NoFault && Permitted(y, a) && Leaves(a, env)
    ensures OnTrack(Next(y, a), row, env)
  {
    if a.RunTask? {
      if a.i < |y.tasks| { RunStaysOnTrack(y, row, env, a.i); }
    } else {
      StartStaysOnTrack(y, row, env, a);
    }
  }

  lemma {:induction false} StaysOnTrack(y: System, row: DocumentRow, env: Env, actions: seq<Action>)
    requires OnTrack(y, row, env) && env.fault == NoFault && PermittedRun(y, actions) && AllLeave(actions, env)
    ensures OnTrack(Run(y, actions), row, env)
  {
    if actions != [] {
      var n := |actions| - 1;
      StaysOnTrack(y, row, env, actions[..n]);
      StepStaysOnTrack(Run(y, actions[..n]), row, env, actions[n]);
    }
  }

  lemma ThreeFailures(row: DocumentRow, env: Env)
    requires IsPlain(env.text) && Fails(env) && IsNew(row)
    ensures Before(row, env, 3) == FinalTables(row, env)
  {
    assert FailedLog(row, env, 1) == ReadLog(row, env) + [FailureRow(Extracting)];
    assert FailedLog(row, env, 2) == FailedLog(row, env, 1) + [FailureRow(Extracting)];
  }

  lemma RestIsFinal(y: System, row: DocumentRow, env: Env)
    requires OnTrack(y, row, env) && AtRest(y)
    ensures y.shared.tables == FinalTables(row, env)
    ensures |y.shared.webhooks| == if Approves(env) && HasUrl(env.tenant) then 1 else 0
    ensures Approves(env) ==> FIRST_EXTRACTION in y.shared.jobs
  {
    var s, n := y.shared, |y.tasks|;
    var t := y.tasks[n - 1];
    assert Finished(t);
    if t.Ext? && t.ext == ExtThrew {
      assert n == 5;
      ThreeFailures(row, env);
    }
  }

  /** Functional correctness of the whole pipeline: under every schedule that leaves a new document alone, its
      row, its extraction and its complete log end up as the text and the answers determine, and one webhook
      job is enqueued exactly if the document was approved and its tenant has an address for it. */
  lemma UndisturbedOutcome(
      id: string, tenantId: string, uploadedBy: string, fileName: string, env: Env, actions: seq<Action>)
    requires env.fault == NoFault && AllLeave(actions, env)
    requires PermittedRun(Start(id, tenantId, uploadedBy, fileName), actions)
    requires AtRest(Run(Start(id, tenantId, uploadedBy, fileName), actions))
    ensures var s := Run(Start(id, tenantId, uploadedBy, fileName), actions).shared;
      && s.tables == FinalTables(NewDocument(id, tenantId, uploadedBy, fileName).row, env)
      && |s.webhooks| == (if Approves(env) && HasUrl(env.tenant) then 1 else 0)
      && (Approves(env) ==> FIRST_EXTRACTION in s.jobs)
  {
    var y := Start(id, tenantId, uploadedBy, fileName);
    var row := NewDocument(id, tenantId, uploadedBy, fileName).row;
    StaysOnTrack(y, row, env, actions);
    RestIsFinal(Run(y, actions), row, env);
  }

  lemma DecidedByThreshold(row: DocumentRow, env: Env)
    ensures FinalTables(row, env).row.status == Approved <==> Deserves(env)
    ensures forall r <- FinalTables(row, env).log :: r.event == AutoApprovedEvent ==>
              Deserves(env) && NamesThreshold(r.payload, env.tenant)
    ensures Deserves(env) ==> exists r <- FinalTables(row, env).log :: r.event == AutoApprovedEvent
  {
    DeservingIsApproved(env);
    if Deserves(env) {
      ApprovedTables(row, env);
      assert FinalTables(row, env).log[3] in FinalTables(row, env).log;
    }
  }

  /** When a document left alone is approved: exactly if its text is plain and not blank, its type is known, the
      columns take the invoice, the items sum up to within a cent, and every score reaches the threshold that
      the tenant has set. It then has an auto_approved row, and that names the tenant's threshold. A webhook job
      is enqueued exactly if the tenant also has an address. */
  lemma UndisturbedApproval(
      id: string, tenantId: string, uploadedBy: string, fileName: string, env: Env, actions: seq<Action>)
    requires env.fault == NoFault && AllLeave(actions, env)
    requires PermittedRun(Start(id, tenantId, uploadedBy, fileName), actions)
    requires AtRest(Run(Start(id, tenantId, uploadedBy, fileName), actions))
    ensures var s := Run(Start(id, tenantId, uploadedBy, fileName), actions).shared;
      && (s.tables.row.status == Approved <==> Deserves(env))
      && (Deserves(env) <==> exists r <- s.tables.log :: r.event == AutoApprovedEvent)
      && (forall r <- s.tables.log :: r.event == AutoApprovedEvent ==> NamesThreshold(r.payload, env.tenant))
      && |s.webhooks| == if Deserves(env) && env.tenant.Some? && env.tenant.value.webhookUrl then 1 else 0
  {
    UndisturbedOutcome(id, tenantId, uploadedBy, fileName, env, actions);
    DecidedByThreshold(NewDocument(id, tenantId, uploadedBy, fileName).row, env);
    DeservingIsApproved(env);
  }

  /** Such a schedule exists for every document and all answers. */
  lemma UndisturbedRunExists(id: string, tenantId: string, uploadedBy: string, fileName: string, env: Env)
    returns (actions: seq<Action>)
    requires env.fault == NoFault
    ensures AllLeave(actions, env) && PermittedRun(Start(id, tenantId, uploadedBy, fileName), actions)
    ensures AtRest(Run(Start(id, tenantId, uploadedBy, fileName), actions))
  {
    StartIsGood(id, tenantId, uploadedBy, fileName);
    actions := RestIsReached(Start(id, tenantId, uploadedBy, fileName), HeldByTask(0), env);
  }

  lemma ApprovedTables(row: DocumentRow, env: Env)
    requires Approves(env)
    ensures var t := FinalTables(row, env);
      && t.row.status == Approved && t.extraction == Some(Persist(ExtractedAs(env).value))
      && t.row.rawText == Some(env.text) && |t.log| == 4 && t.log[3].event == AutoApprovedEvent
  {
  }

  lemma RunIsReachable(id: string, tenantId: string, uploadedBy: string, fileName: string, actions: seq<Action>)
    requires PermittedRun(Start(id, tenantId, uploadedBy, fileName), actions)
    ensures PermittedlyReachable(Run(Start(id, tenantId, uploadedBy, fileName), actions))
    ensures AnyFaultTheorems.Reachable(Run(Start(id, tenantId, uploadedBy, fileName), actions))
  {
    var y := Run(Start(id, tenantId, uploadedBy, fileName), actions);
    assert AnyFaultTheorems.ReachedBy(y, id, tenantId, uploadedBy, fileName, actions);
    assert PermittedlyReachedBy(y, id, tenantId, uploadedBy, fileName, actions);
  }

  predicate Deserves(env: Env) {
    && IsPlain(env.text) && Known(env) && Stores(env)
    && var x := ExtractedAs(env).value;
       Abs(Sum(x.lineItems) - x.subtotal) <= 0.01 && Suffice(x.confidence, env.tenant)
  }

  /** All ten scores reach the threshold the tenant has set, or 0.85 if the tenant is not found. */
  predicate Suffice(c: Confidence, tenant: Option<TenantRow>) {
    match tenant
    case Some(row) => c.AtLeast(row.threshold)
    case None => c.AtLeast(0.85)
  }

  /** The payload of an approval row names that threshold. */
  predicate NamesThreshold(p: Payload, tenant: Option<TenantRow>) {
    p.ApprovalPayload? && match tenant case Some(row) => p.threshold == row.threshold case None => p.threshold == 0.85
  }

  lemma DeservingIsApproved(env: Env)
    ensures Deserves(env) <==> Approves(env)
  {
    if ExtractedAs(env).Some? {
      AutoApproveMeans(ExtractedAs(env).value, Threshold(env.tenant));
    }
  }

  /** Every invoice that the database takes, whose items sum up and whose scores all reach the threshold, is
      approved by some permitted run, stored as extracted, with an auto_approved row. */
  lemma ApprovalIsReached(id: string, tenantId: string, uploadedBy: string, fileName: string, env: Env)
    returns (y: System, actions: seq<Action>)
    requires env.fault == NoFault && Deserves(env)
    ensures y == Run(Start(id, tenantId, uploadedBy, fileName), actions) && AllLeave(actions, env)
    ensures PermittedlyReachable(y) && AnyFaultTheorems.Reachable(y)
    ensures y.shared.tables.row.status == Approved
    ensures y.shared.tables.extraction == Some(Persist(ExtractedAs(env).value))
    ensures exists r <- y.shared.tables.log :: r.event == AutoApprovedEvent
    ensures |y.shared.webhooks| == if HasUrl(env.tenant) then 1 else 0
    ensures y.shared.tables.row.rawText == Some(env.text) && FIRST_EXTRACTION in y.shared.jobs
  {
    actions := UndisturbedRunExists(id, tenantId, uploadedBy, fileName, env);
    y := Run(Start(id, tenantId, uploadedBy, fileName), actions);
    RunIsReachable(id, tenantId, uploadedBy, fileName, actions);
    UndisturbedOutcome(id, tenantId, uploadedBy, fileName, env, actions);
    DeservingIsApproved(env);
    ApprovedTables(NewDocument(id, tenantId, uploadedBy, fileName).row, env);
  }
}
