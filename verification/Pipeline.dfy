/** One document's life as a concurrent step system. Every tenant-scoped transaction, every queue add and
    every provider call is one atomic step; a running request or job execution is a program counter that
    carries the values its code holds in local variables. */
module Pipeline {
  import opened Wrappers
  import opened DecisionEngine
  import opened Schema
  import opened Transactions
  import Providers

  // ----- the environment

  /** How a step's own operation can go wrong: not at all, before it takes effect, or after. */
  datatype Fault = NoFault | LostBefore | LostAfter

  datatype TenantRow = TenantRow(threshold: real, webhookUrl: bool, webhookSecret: bool)

  /** Everything the outside world decides during one step. */
  datatype Env = Env(
    fault: Fault, tenant: Option<TenantRow>, text: string, config: Providers.Config,
    classify: Providers.Answers<DocType>, extract: Providers.Answers<InvoiceExtraction>,
    mockInvoice: InvoiceExtraction, isDate: string -> bool, responseOk: bool)

  // ----- queues

  const JOB_ATTEMPTS: nat := 3
  const WEBHOOK_MAX_ATTEMPTS: nat := JOB_ATTEMPTS

  datatype JobKey = OcrKey(run: string) | ExtractKey(run: string)

  datatype JobState = Waiting | Active | Completed | Exhausted

  datatype Job = Job(tenantId: string, executions: nat, state: JobState, classifyCalls: nat, extractCalls: nat)

  datatype WebhookJob = WebhookJob(tenantId: string, executions: nat, state: JobState)

  // ----- histories: what was written, when the extraction was inserted, what was sent

  datatype Writer = ByUpload | ByOcr(run: string) | ByExtraction(run: string) | ByReviewer

  datatype Write = Write(writer: Writer, before: Status, after: Status)

  datatype Origin = Origin(row: ExtractionRow, logLength: nat)

  datatype Observed = Observed(
    status: Status, docType: Option<DocType>, extraction: Option<ExtractionRow>, writesSeen: nat, logSeen: nat)

  datatype InvoiceSummary = InvoiceSummary(
    vendorName: Option<string>, invoiceNumber: Option<string>, total: Option<int>)

  datatype WebhookPayload = WebhookPayload(
    documentId: string, tenantId: string, status: Status, docType: Option<DocType>,
    extraction: Option<InvoiceSummary>, reason: Option<string>)

  /** A payload handed to the receiver, with the observation it was built from. */
  datatype Sent = Sent(payload: WebhookPayload, seen: Observed)

  datatype Delivery = Delivery(tenantId: string, attempt: nat, status: DeliveryStatus)

  datatype Shared = Shared(
    tables: Tables, deliveries: seq<Delivery>, objects: set<string>,
    jobs: map<JobKey, Job>, webhooks: seq<WebhookJob>,
    writes: seq<Write>, origin: Option<Origin>, sent: seq<Sent>)

  // ----- running requests and executions

  datatype UploadPc = UpStore | UpSaveKey(key: string) | UpLog | UpEnqueue | UpFail | UpDone | UpFailed

  datatype OcrPc =
    | OcrRead | OcrMark(key: string, owner: string) | OcrRecognize(key: string, owner: string)
    | OcrStore(key: string, owner: string, text: string) | OcrLog(key: string, owner: string, text: string)
    | OcrHandOver(key: string, owner: string) | OcrFail | OcrReturned | OcrThrew

  datatype ExtPc =
    | ExtRead | ExtEmpty(prev: Status) | ExtLogEmpty(prev: Status)
    | ExtTenant | ExtMark(tenant: Option<TenantRow>) | ExtClassify(tenant: Option<TenantRow>)
    | ExtUnknown | ExtLogUnknown
    | ExtType(tenant: Option<TenantRow>, docType: DocType) | ExtCall(tenant: Option<TenantRow>)
    | ExtInsert(tenant: Option<TenantRow>, invoice: InvoiceExtraction)
    | ExtPublish(tenant: Option<TenantRow>, invoice: InvoiceExtraction, verdict: DecisionResult)
    | ExtLog(tenant: Option<TenantRow>, invoice: InvoiceExtraction, verdict: DecisionResult)
    | ExtLogDecision(tenant: Option<TenantRow>, invoice: InvoiceExtraction, verdict: DecisionResult)
    | ExtNotify | ExtFail | ExtLogFail | ExtReturned | ExtThrew

  datatype NotifyPc = NotifyRead | NotifyAdd | NotifyDone

  datatype HookPc =
    | HookRead | HookCount(seen: Observed) | HookReason(seen: Observed, attempt: nat)
    | HookInsert(message: Sent, attempt: nat) | HookFetch(message: Sent, attempt: nat, delivery: nat)
    | HookRecord(attempt: nat, delivery: nat, ok: bool) | HookLog(attempt: nat, ok: bool)
    | HookSkipped | HookSucceeded | HookDeadLettered | HookThrew

  datatype Task =
    | Upload(up: UploadPc)
    | Ocr(run: string, tenantId: string, ocr: OcrPc)
    // owes: the execution wrote 'approved' and has not yet logged the matching auto_approved row
    | Ext(run: string, tenantId: string, ext: ExtPc, owes: bool)
    | Notify(notify: NotifyPc)
    | Rerun(run: string, enqueued: bool)
    | Hook(job: nat, tenantId: string, hook: HookPc)

  datatype System = System(shared: Shared, tasks: seq<Task>)

  // ----- atomic operations

  datatype Op =
    | NoOp
    | PutObject(key: string)
    | SaveKey(key: string)
    | SaveStatus(writer: Writer, status: Status)
    | SaveText(writer: Writer, text: string)
    | SaveUnknown(writer: Writer)
    | SaveType(docType: DocType)
    | AppendRow(row: AuditRow)
    | InsertRow(extraction: ExtractionRow)
    | AddJob(job: JobKey, tenantId: string)
    | AddWebhook(tenantId: string)
    | CountCalls(job: JobKey, classify: nat, extract: nat)
    | InsertDelivery(tenantId: string, attempt: nat)
    | RecordDelivery(delivery: nat, outcome: DeliveryStatus)
    | Send(message: Sent)

  function WriteStatus(s: Shared, writer: Writer, t: Tables): Shared {
    s.(tables := t, writes := s.writes + [Write(writer, s.tables.row.status, t.row.status)])
  }

  function Do(s: Shared, op: Op): Shared {
    var row := s.tables.row;
    match op
    case NoOp => s
    case PutObject(key) => s.(objects := s.objects + {key})
    case SaveKey(key) => s.(tables := s.tables.(row := row.(storageKey := key)))
    case SaveStatus(writer, status) => WriteStatus(s, writer, SetStatus(s.tables, status))
    case SaveText(writer, text) =>
      WriteStatus(s, writer, s.tables.(row := row.(status := Extracted, rawText := Some(text))))
    case SaveUnknown(writer) =>
      WriteStatus(s, writer, s.tables.(row := row.(status := PendingReview, docType := Some(UnknownType))))
    case SaveType(docType) => s.(tables := s.tables.(row := row.(docType := Some(docType))))
    case AppendRow(r) => s.(tables := Log(s.tables, r))
    case InsertRow(e) =>
      if s.tables.extraction.Some? then s
      else s.(tables := InsertExtraction(s.tables, e), origin := Some(Origin(e, |s.tables.log|)))
    // an id the queue already knows is not added twice
    case AddJob(key, tenantId) =>
      if key in s.jobs then s else s.(jobs := s.jobs[key := Job(tenantId, 0, Waiting, 0, 0)])
    // a webhook job has no id of its own, so every add makes one
    case AddWebhook(tenantId) => s.(webhooks := s.webhooks + [WebhookJob(tenantId, 0, Waiting)])
    case CountCalls(key, classify, extract) =>
      if key !in s.jobs then s
      else
        var j := s.jobs[key];
        var j' := j.(classifyCalls := j.classifyCalls + classify, extractCalls := j.extractCalls + extract);
        s.(jobs := s.jobs[key := j'])
    case InsertDelivery(tenantId, attempt) => s.(deliveries := s.deliveries + [Delivery(tenantId, attempt, Pending)])
    case RecordDelivery(i, outcome) =>
      if i < |s.deliveries| then s.(deliveries := s.deliveries[i := s.deliveries[i].(status := outcome)]) else s
    case Send(message) => s.(sent := s.sent + [message])
  }

  /** What one step of a task does, the task afterwards, and whether its execution is over. */
  datatype Ending = GoesOn | Returns | Throws

  datatype Move = Move(op: Op, task: Task, ending: Ending)

  /** An operation that a fault may have kept from happening. */
  function Unless(env: Env, op: Op): Op {
    if env.fault == LostBefore then NoOp else op
  }

  /** Outside any try block a fault ends the execution; the queue sees a throw. */
  function OrThrow(env: Env, op: Op, next: Task, threw: Task): Move {
    if env.fault == NoFault then Move(op, next, GoesOn) else Move(Unless(env, op), threw, Throws)
  }

  /** Inside the try block a fault leads to the catch block. */
  function OrCatch(env: Env, op: Op, next: Task, catch_: Task): Move {
    Move(Unless(env, op), if env.fault == NoFault then next else catch_, GoesOn)
  }

  /** The last operation of an execution, inside the try block. */
  function ReturnOrCatch(env: Env, op: Op, returned: Task, catch_: Task): Move {
    if env.fault == NoFault then Move(op, returned, Returns) else Move(Unless(env, op), catch_, GoesOn)
  }

  // ----- uploadNewDocument, after its row was inserted

  function UploadMove(s: Shared, pc: UploadPc, env: Env): Move {
    var row := s.tables.row;
    var key := FileKey(row.tenantId, row.id, row.fileName);
    match pc
    case UpStore => OrCatch(env, PutObject(key), Upload(UpSaveKey(key)), Upload(UpFail))
    case UpSaveKey(k) => OrCatch(env, SaveKey(k), Upload(UpLog), Upload(UpFail))
    case UpLog =>
      var entry := AuditRow(Some(row.uploadedBy), UploadedEvent, None, Some(Uploaded), FilePayload(row.fileName));
      OrCatch(env, AppendRow(entry), Upload(UpEnqueue), Upload(UpFail))
    case UpEnqueue => OrCatch(env, AddJob(OcrKey("initial"), row.tenantId), Upload(UpDone), Upload(UpFail))
    case UpFail => Move(Unless(env, SaveStatus(ByUpload, Failed)), Upload(UpFailed), GoesOn)
    case UpDone => Move(NoOp, Upload(UpDone), GoesOn)
    case UpFailed => Move(NoOp, Upload(UpFailed), GoesOn)
  }

  // ----- the OCR worker

  function OcrMove(s: Shared, t: Task, env: Env): Move
    requires t.Ocr?
  {
    var row := s.tables.row;
    var me := ByOcr(t.run);
    var threw := t.(ocr := OcrThrew);
    var catch_ := t.(ocr := OcrFail);
    match t.ocr
    case OcrRead =>
      if env.fault != NoFault then Move(NoOp, threw, Throws)
      else if t.tenantId != row.tenantId then Move(NoOp, t.(ocr := OcrReturned), Returns)
      else Move(NoOp, t.(ocr := OcrMark(row.storageKey, row.tenantId)), GoesOn)
    case OcrMark(key, owner) => OrThrow(env, SaveStatus(me, OcrProcessing), t.(ocr := OcrRecognize(key, owner)), threw)
    case OcrRecognize(key, owner) =>
      // only an uploaded object can be downloaded
      var downloaded := env.fault == NoFault && key in s.objects;
      Move(NoOp, if downloaded then t.(ocr := OcrStore(key, owner, env.text)) else catch_, GoesOn)
    // the text column refuses what is not plain text
    case OcrStore(key, owner, text) =>
      if !IsPlain(text) then Move(NoOp, catch_, GoesOn)
      else OrCatch(env, SaveText(me, text), t.(ocr := OcrLog(key, owner, text)), catch_)
    case OcrLog(key, owner, text) =>
      OrCatch(env, AppendRow(WorkerRow(OcrCompleteEvent, OcrProcessing, Extracted, TextPayload(|text|))),
              t.(ocr := OcrHandOver(key, owner)), catch_)
    case OcrHandOver(key, owner) => ReturnOrCatch(env, AddJob(ExtractKey(t.run), owner), t.(ocr := OcrReturned), catch_)
    case OcrFail => Move(Unless(env, SaveStatus(me, Failed)), threw, Throws)
    case OcrReturned => Move(NoOp, t, GoesOn)
    case OcrThrew => Move(NoOp, t, GoesOn)
  }

  // ----- the extraction worker

  const DEFAULT_THRESHOLD: real := 0.85

  function Threshold(tenant: Option<TenantRow>): real {
    if tenant.Some? then tenant.value.threshold else DEFAULT_THRESHOLD
  }

  predicate HasUrl(tenant: Option<TenantRow>) {
    tenant.Some? && tenant.value.webhookUrl
  }

  /** A redelivered job finds its document already extracted and published. */
  predicate AlreadyProcessed(t: Tables) {
    t.extraction.Some? && (t.row.status == Approved || t.row.status == PendingReview)
  }

  function PublishedStatus(verdict: DecisionResult): Status {
    if verdict.decision == AutoApprove then Approved else PendingReview
  }

  function DecisionRow(tenant: Option<TenantRow>, verdict: DecisionResult): AuditRow {
    if verdict.decision == AutoApprove
    then WorkerRow(AutoApprovedEvent, Approved, Approved,
                   ApprovalPayload(Threshold(tenant), verdict.minConfidence, verdict.lineItemsSum))
    else WorkerRow(SentToReviewEvent, PendingReview, PendingReview, ReviewPayload(verdict.reasons))
  }

  function ExtMove(s: Shared, t: Task, env: Env): Move
    requires t.Ext?
  {
    var key := ExtractKey(t.run);
    var me := ByExtraction(t.run);
    var threw := t.(ext := ExtThrew);
    var catch_ := t.(ext := ExtFail);
    var returned := t.(ext := ExtReturned);
    match t.ext
    case ExtRead =>
      if env.fault != NoFault then Move(NoOp, threw, Throws)
      else if t.tenantId != s.tables.row.tenantId || AlreadyProcessed(s.tables) then Move(NoOp, returned, Returns)
      else
        var next := if IsBlank(s.tables.row.rawText) then ExtEmpty(s.tables.row.status) else ExtTenant;
        Move(NoOp, t.(ext := next), GoesOn)
    case ExtEmpty(prev) => OrThrow(env, SaveStatus(me, Failed), t.(ext := ExtLogEmpty(prev)), threw)
    case ExtLogEmpty(prev) =>
      Move(Unless(env, AppendRow(WorkerRow(ExtractedEvent, prev, Failed, ErrorPayload))),
           if env.fault == NoFault then returned else threw, if env.fault == NoFault then Returns else Throws)
    case ExtTenant => OrThrow(env, NoOp, t.(ext := ExtMark(env.tenant)), threw)
    case ExtMark(tenant) => OrThrow(env, SaveStatus(me, Extracting), t.(ext := ExtClassify(tenant)), threw)
    case ExtClassify(tenant) =>
      var o := Providers.Ask(env.config, Invoice, env.classify);
      Move(CountCalls(key, o.calls, 0),
           if o.result.None? then catch_
           else if o.result.value == UnknownType then t.(ext := ExtUnknown)
           else t.(ext := ExtType(tenant, o.result.value)), GoesOn)
    case ExtUnknown => OrCatch(env, SaveUnknown(me), t.(ext := ExtLogUnknown), catch_)
    case ExtLogUnknown =>
      var entry := WorkerRow(SentToReviewEvent, Extracting, PendingReview, UnknownTypePayload);
      ReturnOrCatch(env, AppendRow(entry), returned, catch_)
    case ExtType(tenant, docType) => OrCatch(env, SaveType(docType), t.(ext := ExtCall(tenant)), catch_)
    case ExtCall(tenant) =>
      var o := Providers.Ask(env.config, env.mockInvoice, env.extract);
      Move(CountCalls(key, 0, o.calls),
           if o.result.None? then catch_ else t.(ext := ExtInsert(tenant, o.result.value)), GoesOn)
    case ExtInsert(tenant, invoice) =>
      // the columns refuse an invoice that does not fit them
      if !Storable(invoice, env.isDate) then Move(NoOp, catch_, GoesOn)
      else OrCatch(env, InsertRow(Persist(invoice)),
              t.(ext := ExtPublish(tenant, invoice, Evaluate(invoice, Threshold(tenant)))), catch_)
    case ExtPublish(tenant, invoice, verdict) =>
      var owes := verdict.decision == AutoApprove && env.fault != LostBefore;
      OrCatch(env, SaveStatus(me, PublishedStatus(verdict)),
              t.(ext := ExtLog(tenant, invoice, verdict), owes := owes), catch_.(owes := owes))
    case ExtLog(tenant, invoice, verdict) =>
      var score := ScorePayload(verdict.minConfidence);
      OrCatch(env, AppendRow(WorkerRow(ExtractedEvent, Extracting, PublishedStatus(verdict), score)),
              t.(ext := ExtLogDecision(tenant, invoice, verdict)), catch_)
    case ExtLogDecision(tenant, invoice, verdict) =>
      var row := AppendRow(DecisionRow(tenant, verdict));
      var paid := t.owes && env.fault == LostBefore;
      if verdict.decision == AutoApprove && HasUrl(tenant)
      then OrCatch(env, row, t.(ext := ExtNotify, owes := paid), catch_.(owes := paid))
      else ReturnOrCatch(env, row, returned.(owes := paid), catch_.(owes := paid))
    case ExtNotify => ReturnOrCatch(env, AddWebhook(t.tenantId), returned, catch_)
    case ExtFail => OrThrow(env, SaveStatus(me, Failed), t.(ext := ExtLogFail), threw)
    case ExtLogFail =>
      Move(Unless(env, AppendRow(WorkerRow(ExtractedEvent, Extracting, Failed, ErrorPayload))), threw, Throws)
    case ExtReturned => Move(NoOp, t, GoesOn)
    case ExtThrew => Move(NoOp, t, GoesOn)
  }

  // ----- what approve, reject and reprocess do after their transaction has committed

  function NotifyMove(s: Shared, pc: NotifyPc, env: Env): Move {
    match pc
    case NotifyRead =>
      Move(NoOp, Notify(if env.fault == NoFault && HasUrl(env.tenant) then NotifyAdd else NotifyDone), GoesOn)
    case NotifyAdd => Move(Unless(env, AddWebhook(s.tables.row.tenantId)), Notify(NotifyDone), GoesOn)
    case NotifyDone => Move(NoOp, Notify(NotifyDone), GoesOn)
  }

  function RerunMove(s: Shared, run: string, enqueued: bool, env: Env): Move {
    Move(if enqueued then NoOp else Unless(env, AddJob(OcrKey(run), s.tables.row.tenantId)), Rerun(run, true), GoesOn)
  }

  // ----- the webhook worker

  predicate Deliverable(status: Status) {
    status == Approved || status == Rejected
  }

  function DeliveryOutcome(attempt: nat, ok: bool): DeliveryStatus {
    if ok then Success else if attempt >= WEBHOOK_MAX_ATTEMPTS then DeadLetter else FailedDelivery
  }

  function Summary(extraction: Option<ExtractionRow>): Option<InvoiceSummary> {
    match extraction
    case None => None
    case Some(e) => Some(InvoiceSummary(e.vendorName, e.invoiceNumber, e.total))
  }

  function Message(row: DocumentRow, seen: Observed, reason: Option<string>): Sent {
    Sent(WebhookPayload(row.id, row.tenantId, seen.status, seen.docType,
                        if seen.status == Approved then Summary(seen.extraction) else None,
                        if reason == Some("") then None else reason), seen)
  }

  function HookMove(s: Shared, t: Task, env: Env): Move
    requires t.Hook?
  {
    var row := s.tables.row;
    var threw := t.(hook := HookThrew);
    match t.hook
    case HookRead =>
      if env.fault != NoFault then Move(NoOp, threw, Throws)
      else if t.tenantId != row.tenantId || !HasUrl(env.tenant) || !env.tenant.value.webhookSecret
              || !Deliverable(row.status)
      then Move(NoOp, t.(hook := HookSkipped), Returns)
      else
        var seen := Observed(row.status, row.docType, s.tables.extraction, |s.writes|, |s.tables.log|);
        Move(NoOp, t.(hook := HookCount(seen)), GoesOn)
    case HookCount(seen) =>
      var attempt := |s.deliveries| + 1;
      var next :=
        if seen.status == Rejected then HookReason(seen, attempt) else HookInsert(Message(row, seen, None), attempt);
      OrThrow(env, NoOp, t.(hook := next), threw)
    case HookReason(seen, attempt) =>
      OrThrow(env, NoOp, t.(hook := HookInsert(Message(row, seen, LatestRejection(s.tables.log)), attempt)), threw)
    case HookInsert(message, attempt) =>
      OrThrow(env, InsertDelivery(t.tenantId, attempt), t.(hook := HookFetch(message, attempt, |s.deliveries|)), threw)
    case HookFetch(message, attempt, delivery) =>
      // a failed request is caught and recorded, never thrown
      Move(Send(message), t.(hook := HookRecord(attempt, delivery, env.responseOk)), GoesOn)
    case HookRecord(attempt, delivery, ok) =>
      OrThrow(env, RecordDelivery(delivery, DeliveryOutcome(attempt, ok)), t.(hook := HookLog(attempt, ok)), threw)
    case HookLog(attempt, ok) =>
      var event := if ok then WebhookSentEvent else WebhookFailedEvent;
      var op := AppendRow(AuditRow(None, event, None, None, AttemptPayload(attempt)));
      if env.fault != NoFault then Move(Unless(env, op), threw, Throws)
      else if ok then Move(op, t.(hook := HookSucceeded), Returns)
      else if attempt >= WEBHOOK_MAX_ATTEMPTS then Move(op, t.(hook := HookDeadLettered), Returns)
      else Move(op, threw, Throws)
    case HookSkipped => Move(NoOp, t, GoesOn)
    case HookSucceeded => Move(NoOp, t, GoesOn)
    case HookDeadLettered => Move(NoOp, t, GoesOn)
    case HookThrew => Move(NoOp, t, GoesOn)
  }

  function MoveOf(s: Shared, t: Task, env: Env): Move {
    match t
    case Upload(pc) => UploadMove(s, pc, env)
    case Ocr(_, _, _) => OcrMove(s, t, env)
    case Ext(_, _, _, _) => ExtMove(s, t, env)
    case Notify(pc) => NotifyMove(s, pc, env)
    case Rerun(run, enqueued) => RerunMove(s, run, enqueued, env)
    case Hook(_, _, _) => HookMove(s, t, env)
  }

  // ----- the queue's bookkeeping when an execution returns or throws

  function AfterExecution(executions: nat, ending: Ending): JobState {
    if ending.Returns? then Completed else if executions < JOB_ATTEMPTS then Waiting else Exhausted
  }

  function FinishJob(s: Shared, key: JobKey, ending: Ending): Shared {
    if ending.GoesOn? || key !in s.jobs then s
    else s.(jobs := s.jobs[key := s.jobs[key].(state := AfterExecution(s.jobs[key].executions, ending))])
  }

  function FinishWebhook(s: Shared, j: nat, ending: Ending): Shared {
    if ending.GoesOn? || j >= |s.webhooks| then s
    else s.(webhooks := s.webhooks[j := s.webhooks[j].(state := AfterExecution(s.webhooks[j].executions, ending))])
  }

  function End(s: Shared, t: Task, ending: Ending): Shared {
    match t
    case Ocr(run, _, _) => FinishJob(s, OcrKey(run), ending)
    case Ext(run, _, _, _) => FinishJob(s, ExtractKey(run), ending)
    case Hook(j, _, _) => FinishWebhook(s, j, ending)
    case _ => s
  }

  function Effect(s: Shared, t: Task, m: Move): Shared {
    End(Do(s, m.op), t, m.ending)
  }

  // ----- whole-system steps and runs

  datatype Action =
    | RunTask(i: nat, env: Env)
    | StartOcr(run: string)
    | StartExtraction(run: string)
    | StartWebhook(j: nat)
    | ApproveAction(tenantId: string, actor: string)
    | RejectAction(tenantId: string, actor: string, reason: string)
    | EditAction(tenantId: string, actor: string, changes: ExtractionEdit)
    | ReprocessAction(tenantId: string, actor: string, run: string)

  function Activate(s: Shared, key: JobKey): Shared
    requires key in s.jobs
  {
    s.(jobs := s.jobs[key := s.jobs[key].(executions := s.jobs[key].executions + 1, state := Active)])
  }

  /** The result of a reviewer's transaction; another tenant's reviewer does not find the document. */
  function ReviewerResult(t: Tables, a: Action): Result
    requires a.ApproveAction? || a.RejectAction? || a.EditAction? || a.ReprocessAction?
  {
    if a.tenantId != t.row.tenantId then Result(t, NotFound)
    else match a
      case ApproveAction(_, actor) => Approve(t, actor)
      case RejectAction(_, actor, reason) => Reject(t, actor, reason)
      case EditAction(_, actor, changes) => Edit(t, actor, changes)
      case ReprocessAction(_, actor, _) => Reprocess(t, actor)
  }

  predicate IsReviewer(a: Action) {
    a.ApproveAction? || a.RejectAction? || a.EditAction? || a.ReprocessAction?
  }

  function Next(y: System, a: Action): System {
    var s := y.shared;
    match a
    case RunTask(i, env) =>
      if i < |y.tasks| then
        var m := MoveOf(s, y.tasks[i], env);
        System(Effect(s, y.tasks[i], m), y.tasks[i := m.task])
      else y
    case StartOcr(run) =>
      if OcrKey(run) in s.jobs
      then System(Activate(s, OcrKey(run)), y.tasks + [Ocr(run, s.jobs[OcrKey(run)].tenantId, OcrRead)]) else y
    case StartExtraction(run) =>
      if ExtractKey(run) in s.jobs
      then System(Activate(s, ExtractKey(run)), y.tasks + [Ext(run, s.jobs[ExtractKey(run)].tenantId, ExtRead, false)])
      else y
    case StartWebhook(j) =>
      if j < |s.webhooks|
      then
        var w := s.webhooks[j];
        System(s.(webhooks := s.webhooks[j := w.(executions := w.executions + 1, state := Active)]),
               y.tasks + [Hook(j, w.tenantId, HookRead)])
      else y
    case EditAction(_, _, _) =>
      System(s.(tables := ReviewerResult(s.tables, a).tables), y.tasks)
    case ReprocessAction(_, _, run) =>
      var r := ReviewerResult(s.tables, a);
      if r.outcome == Done
      then System(WriteStatus(s, ByReviewer, r.tables).(origin := None), y.tasks + [Rerun(run, false)])
      else y
    case _ =>
      var r := ReviewerResult(s.tables, a);
      if r.outcome == Done then System(WriteStatus(s, ByReviewer, r.tables), y.tasks + [Notify(NotifyRead)]) else y
  }

  /** The document row has just been inserted and its upload request is running. */
  function Start(id: string, tenantId: string, uploadedBy: string, fileName: string): System {
    System(
      Shared(NewDocument(id, tenantId, uploadedBy, fileName), [], {}, map[], [],
             [Write(ByUpload, Uploaded, Uploaded)], None, []),
      [Upload(UpStore)])
  }

  function Run(y: System, actions: seq<Action>): System {
    if actions == [] then y else Next(Run(y, actions[..|actions| - 1]), actions[|actions| - 1])
  }

  /** Every action of the run is one that `ok` allows where it happens. */
  predicate Follows(ok: (System, Action) -> bool, y: System, actions: seq<Action>) {
    actions == []
    || (Follows(ok, y, actions[..|actions| - 1]) && ok(Run(y, actions[..|actions| - 1]), actions[|actions| - 1]))
  }

  lemma RunSnoc(y: System, actions: seq<Action>, a: Action)
    ensures Run(y, actions + [a]) == Next(Run(y, actions), a)
  {
    assert (actions + [a])[..|actions + [a]| - 1] == actions;
  }

  lemma FollowsSnoc(ok: (System, Action) -> bool, y: System, actions: seq<Action>, a: Action)
    requires Follows(ok, y, actions) && ok(Run(y, actions), a)
    ensures Follows(ok, y, actions + [a]) && Run(y, actions + [a]) == Next(Run(y, actions), a)
  {
    assert (actions + [a])[..|actions + [a]| - 1] == actions;
  }
}
