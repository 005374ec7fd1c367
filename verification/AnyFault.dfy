/** What holds of one document under every interleaving, with steps that throw before or after taking
    effect, executions that stop anywhere, and jobs redelivered at any time. */
module AnyFault {
  import opened Wrappers
  import opened DecisionEngine
  import opened Schema
  import opened Transactions
  import opened Pipeline

  // ----- reviewer decisions: log and writes side by side

  predicate IsDecision(r: AuditRow) {
    r.event == ApprovedEvent || r.event == RejectedEvent || r.event == ReprocessedEvent
  }

  /** The status an approved, rejected or reprocessed row stands for. */
  function DecisionStatus(e: Event): Status {
    if e == ApprovedEvent then Approved else if e == RejectedEvent then Rejected else Uploaded
  }

  /** The status change that an approved, rejected or reprocessed row records. */
  function Recorded(r: AuditRow): seq<Write> {
    if IsDecision(r) && r.prevStatus.Some? then [Write(ByReviewer, r.prevStatus.value, DecisionStatus(r.event))]
    else []
  }

  /** The status changes that the approved, rejected and reprocessed rows of a log record. */
  function DecisionRows(log: seq<AuditRow>): seq<Write> {
    if log == [] then []
    else
      var r := log[|log| - 1];
      DecisionRows(log[..|log| - 1]) + Recorded(r)
  }

  /** The status writes that reviewers made. */
  function ReviewerWrites(writes: seq<Write>): seq<Write> {
    if writes == [] then []
    else
      var w := writes[|writes| - 1];
      ReviewerWrites(writes[..|writes| - 1]) + if w.writer == ByReviewer then [w] else []
  }

  /** A reviewer's write leaves only the status its operation demands. */
  predicate LegalDecision(w: Write) {
    match w.after
    case Approved => w.before == PendingReview
    case Rejected => w.before == PendingReview
    case Uploaded => w.before == Failed || w.before == Rejected
    case _ => false
  }

  lemma DecisionRowsSnoc(log: seq<AuditRow>, r: AuditRow)
    ensures DecisionRows(log + [r])
            == DecisionRows(log) + Recorded(r)
  {
    assert (log + [r])[..|log + [r]| - 1] == log;
  }

  lemma ReviewerWritesSnoc(writes: seq<Write>, w: Write)
    ensures ReviewerWrites(writes + [w]) == ReviewerWrites(writes) + if w.writer == ByReviewer then [w] else []
  {
    assert (writes + [w])[..|writes + [w]| - 1] == writes;
  }

  // ----- rejections

  /** Position of the most recent rejected row, or -1. */
  function LastRejection(log: seq<AuditRow>): (k: int)
    ensures -1 <= k < |log|
    ensures k >= 0 ==> log[k].event == RejectedEvent
    ensures forall j :: k < j < |log| ==> log[j].event != RejectedEvent
  {
    if log == [] then -1
    else if log[|log| - 1].event == RejectedEvent then |log| - 1
    else LastRejection(log[..|log| - 1])
  }

  predicate GivesReason(r: AuditRow, reason: string) {
    r.event == RejectedEvent && r.payload == ReasonPayload(reason) && reason != ""
  }

  lemma {:induction false} LatestRejectionIsThere(log: seq<AuditRow>)
    requires LastRejection(log) >= 0
    requires forall r <- log :: r.event == RejectedEvent ==> r.payload.ReasonPayload? && r.payload.reason != ""
    ensures LatestRejection(log).Some? && GivesReason(log[LastRejection(log)], LatestRejection(log).value)
  {
    if log[|log| - 1].event == RejectedEvent {
      assert log[|log| - 1] in log;
    } else {
      assert forall r <- log[..|log| - 1] :: r in log;
      LatestRejectionIsThere(log[..|log| - 1]);
    }
  }

  // ----- the shared state

  predicate HasFileKey(s: Shared) {
    s.tables.row.storageKey == FileKey(s.tables.row.tenantId, s.tables.row.id, s.tables.row.fileName)
  }

  ghost predicate StorageOk(s: Shared) {
    var row := s.tables.row;
    && (row.storageKey == PLACEHOLDER_KEY || HasFileKey(s))
    && (forall key <- s.objects :: key == FileKey(row.tenantId, row.id, row.fileName))
    && (forall run :: ExtractKey(run) in s.jobs ==> HasFileKey(s))
    && (row.status in {Extracted, Extracting, PendingReview, Approved, Rejected} ==> HasFileKey(s))
    && (row.status == Extracted ==> row.rawText.Some?)
  }

  /** The columns hold what they can hold. */
  predicate ValuesOk(s: Shared) {
    IsPlainOption(s.tables.row.rawText) && (s.tables.extraction.Some? ==> Fits(s.tables.extraction.value))
  }

  /** The observation was true when it was made. */
  ghost predicate SeenOk(s: Shared, seen: Observed) {
    && 1 <= seen.writesSeen <= |s.writes| && s.writes[seen.writesSeen - 1].after == seen.status
    && seen.logSeen <= |s.tables.log|
    && Deliverable(seen.status)
    && (seen.status == Rejected ==> LastRejection(s.tables.log[..seen.logSeen]) >= 0)
  }

  /** The payload names the observed status, and a rejection carries the reason of a rejection that is no
      older than the one observed. */
  ghost predicate MessageOk(s: Shared, m: Sent) {
    && SeenOk(s, m.seen)
    && m.payload.status == m.seen.status
    && m.payload.documentId == s.tables.row.id && m.payload.tenantId == s.tables.row.tenantId
    && (m.seen.status == Rejected ==>
          && m.payload.reason.Some?
          && exists j :: LastRejection(s.tables.log[..m.seen.logSeen]) <= j < |s.tables.log|
                         && GivesReason(s.tables.log[j], m.payload.reason.value))
  }

  ghost predicate DeliveriesOk(s: Shared) {
    forall i :: 0 <= i < |s.deliveries| ==>
      var d := s.deliveries[i];
      && 1 <= d.attempt <= i + 1
      && d.tenantId == s.tables.row.tenantId
      && (d.status == DeadLetter ==> d.attempt >= WEBHOOK_MAX_ATTEMPTS)
      && (d.status == FailedDelivery ==> d.attempt < WEBHOOK_MAX_ATTEMPTS)
  }

  /** A stored extraction is the last effective insert with every later logged edit applied in order. */
  predicate Replays(extraction: Option<ExtractionRow>, origin: Option<Origin>, log: seq<AuditRow>) {
    match extraction
    case None => origin.None?
    case Some(e) =>
      origin.Some? && origin.value.logLength <= |log|
          && e == Replay(origin.value.row, EditsIn(log[origin.value.logLength..]))
  }

  ghost predicate Ledger(log: seq<AuditRow>, writes: seq<Write>, status: Status) {
    && writes != [] && writes[|writes| - 1].after == status
    && DecisionRows(log) == ReviewerWrites(writes)
    && (forall w <- writes :: w.writer == ByReviewer ==> LegalDecision(w))
    && (forall w <- writes :: w.after == Rejected ==> w.writer == ByReviewer)
    && (forall r <- log :: IsDecision(r) ==> r.prevStatus.Some? && r.newStatus == Some(DecisionStatus(r.event)))
    && (forall r <- log :: r.event == RejectedEvent ==> r.payload.ReasonPayload? && r.payload.reason != "")
    && (status == Rejected ==> LastRejection(log) >= 0)
  }

  ghost predicate ReplayOk(s: Shared) {
    Replays(s.tables.extraction, s.origin, s.tables.log)
  }

  ghost predicate LedgerOk(s: Shared) {
    Ledger(s.tables.log, s.writes, s.tables.row.status)
  }

  ghost predicate TenantsOk(s: Shared) {
    && (forall k <- s.jobs :: s.jobs[k].tenantId == s.tables.row.tenantId)
    && (forall w <- s.webhooks :: w.tenantId == s.tables.row.tenantId)
  }

  ghost predicate SharedOk(s: Shared) {
    && StorageOk(s) && ValuesOk(s) && DeliveriesOk(s) && ReplayOk(s) && LedgerOk(s) && TenantsOk(s)
    && forall m <- s.sent :: MessageOk(s, m)
  }

  // ----- what a running task knows

  predicate KnownKey(s: Shared, key: string) {
    || key == PLACEHOLDER_KEY
    || (HasFileKey(s) && key == s.tables.row.storageKey)
  }

  predicate BeforePublish(pc: ExtPc) {
    pc.ExtRead? || pc.ExtEmpty? || pc.ExtLogEmpty? || pc.ExtTenant? || pc.ExtMark? || pc.ExtClassify? || pc.ExtUnknown?
    || pc.ExtLogUnknown? || pc.ExtType? || pc.ExtCall? || pc.ExtInsert? || pc.ExtPublish?
  }

  ghost predicate TaskOk(s: Shared, t: Task) {
    var row := s.tables.row;
    match t
    case Upload(pc) => pc.UpSaveKey? ==> pc.key == FileKey(row.tenantId, row.id, row.fileName)
    case Ocr(_, tenant, pc) =>
      && tenant == row.tenantId
      && (pc.OcrMark? || pc.OcrRecognize? || pc.OcrStore? || pc.OcrLog? || pc.OcrHandOver? ==>
            KnownKey(s, pc.key) && pc.owner == row.tenantId)
      && (pc.OcrStore? || pc.OcrLog? || pc.OcrHandOver? ==> HasFileKey(s))
    case Ext(_, tenant, pc, owes) =>
      && tenant == row.tenantId && HasFileKey(s)
      && (BeforePublish(pc) || pc.ExtNotify? || pc.ExtReturned? ==> !owes)
      && (pc.ExtLog? || pc.ExtLogDecision? ==> owes == (pc.verdict.decision == AutoApprove))
    case Notify(_) => true
    case Rerun(_, _) => true
    case Hook(job, tenant, pc) =>
      && job < |s.webhooks| && tenant == row.tenantId
      && (pc.HookCount? || pc.HookReason? ==> SeenOk(s, pc.seen))
      && (pc.HookReason? ==> 1 <= pc.attempt <= |s.deliveries| + 1)
      && (pc.HookInsert? ==> MessageOk(s, pc.message) && 1 <= pc.attempt <= |s.deliveries| + 1)
      && (pc.HookFetch? ==> MessageOk(s, pc.message))
      && (pc.HookFetch? || pc.HookRecord? ==>
            pc.delivery < |s.deliveries| && s.deliveries[pc.delivery].attempt == pc.attempt)
      && (pc.HookLog? ==> 1 <= pc.attempt <= |s.deliveries|)
  }

  /** What every step of anybody leaves true, so that what a suspended task knows stays true. */
  ghost predicate Rely(s: Shared, s': Shared) {
    var row, row' := s.tables.row, s'.tables.row;
    && row'.id == row.id && row'.tenantId == row.tenantId && row'.fileName == row.fileName
    && (HasFileKey(s) ==> HasFileKey(s'))
    && s.tables.log <= s'.tables.log
    && s.writes <= s'.writes
    && |s.webhooks| <= |s'.webhooks|
    && |s.deliveries| <= |s'.deliveries|
    && (forall i :: 0 <= i < |s.deliveries| ==> s'.deliveries[i].attempt == s.deliveries[i].attempt)
  }

  lemma MessageStable(s: Shared, s': Shared, m: Sent)
    requires Rely(s, s') && MessageOk(s, m)
    ensures MessageOk(s', m)
  {
    assert s'.tables.log[..m.seen.logSeen] == s.tables.log[..m.seen.logSeen];
    if m.seen.status == Rejected {
      var j :| LastRejection(s.tables.log[..m.seen.logSeen]) <= j < |s.tables.log|
          && GivesReason(s.tables.log[j], m.payload.reason.value);
      assert s'.tables.log[j] == s.tables.log[j];
    }
  }

  lemma TaskStable(s: Shared, s': Shared, t: Task)
    requires Rely(s, s') && TaskOk(s, t)
    ensures TaskOk(s', t)
  {
    if t.Hook? {
      if t.hook.HookCount? || t.hook.HookReason? {
        assert s'.tables.log[..t.hook.seen.logSeen] == s.tables.log[..t.hook.seen.logSeen];
      }
      if t.hook.HookInsert? || t.hook.HookFetch? {
        MessageStable(s, s', t.hook.message);
      }
    } else {
      FileKeyIsNotPlaceholder(s.tables.row.tenantId, s.tables.row.id, s.tables.row.fileName);
    }
  }

  // ----- one atomic operation of an execution or a request

  /** What each operation needs for the document's invariants to survive it. */
  ghost predicate OpOk(s: Shared, op: Op) {
    var row := s.tables.row;
    match op
    case PutObject(key) => key == FileKey(row.tenantId, row.id, row.fileName)
    case SaveKey(key) => key == FileKey(row.tenantId, row.id, row.fileName)
    case SaveStatus(writer, status) =>
      && writer != ByReviewer && status != Uploaded && status != Rejected && status != Extracted
      && (status == Extracting || status == PendingReview || status == Approved ==> HasFileKey(s))
    case SaveText(writer, text) => writer != ByReviewer && HasFileKey(s) && IsPlain(text)
    case InsertRow(e) => Fits(e)
    case SaveUnknown(writer) => writer != ByReviewer && HasFileKey(s)
    case AppendRow(r) => !IsDecision(r) && r.event != FieldEditedEvent
    case AddJob(key, tenantId) => tenantId == row.tenantId && (key.ExtractKey? ==> HasFileKey(s))
    case AddWebhook(tenantId) => tenantId == row.tenantId
    case InsertDelivery(tenantId, attempt) => tenantId == row.tenantId && 1 <= attempt <= |s.deliveries| + 1
    case RecordDelivery(i, outcome) =>
      && i < |s.deliveries|
      && (outcome == DeadLetter ==> s.deliveries[i].attempt >= WEBHOOK_MAX_ATTEMPTS)
      && (outcome == FailedDelivery ==> s.deliveries[i].attempt < WEBHOOK_MAX_ATTEMPTS)
    case Send(m) => MessageOk(s, m)
    case _ => true
  }

  lemma DoRely(s: Shared, op: Op)
    requires OpOk(s, op)
    ensures Rely(s, Do(s, op))
  {
  }

  lemma DoStorage(s: Shared, op: Op)
    requires OpOk(s, op) && StorageOk(s)
    ensures StorageOk(Do(s, op))
  {
    FileKeyIsNotPlaceholder(s.tables.row.tenantId, s.tables.row.id, s.tables.row.fileName);
  }

  lemma DoValues(s: Shared, op: Op)
    requires OpOk(s, op) && ValuesOk(s)
    ensures ValuesOk(Do(s, op))
  {
  }

  lemma DoRest(s: Shared, op: Op)
    requires OpOk(s, op) && DeliveriesOk(s) && TenantsOk(s)
    ensures DeliveriesOk(Do(s, op)) && TenantsOk(Do(s, op))
  {
  }

  lemma LedgerAppend(log: seq<AuditRow>, writes: seq<Write>, status: Status, r: AuditRow)
    requires Ledger(log, writes, status) && !IsDecision(r)
    ensures Ledger(log + [r], writes, status)
  {
    DecisionRowsSnoc(log, r);
    assert (log + [r])[..|log + [r]| - 1] == log;
  }

  lemma LedgerWrite(log: seq<AuditRow>, writes: seq<Write>, status: Status, w: Write)
    requires Ledger(log, writes, status) && w.writer != ByReviewer && w.after != Rejected
    ensures Ledger(log, writes + [w], w.after)
  {
    ReviewerWritesSnoc(writes, w);
  }

  lemma DoLedger(s: Shared, op: Op)
    requires OpOk(s, op) && LedgerOk(s)
    ensures LedgerOk(Do(s, op))
  {
    var s' := Do(s, op);
    if op.AppendRow? {
      LedgerAppend(s.tables.log, s.writes, s.tables.row.status, op.row);
    } else if op.SaveStatus? || op.SaveText? || op.SaveUnknown? {
      LedgerWrite(s.tables.log, s.writes, s.tables.row.status, s'.writes[|s.writes|]);
    }
  }

  lemma ReplaysAppend(e: Option<ExtractionRow>, origin: Option<Origin>, log: seq<AuditRow>, r: AuditRow)
    requires Replays(e, origin, log) && r.event != FieldEditedEvent
    ensures Replays(e, origin, log + [r])
  {
    if e.Some? {
      var n := origin.value.logLength;
      assert (log + [r])[n..] == log[n..] + [r];
      EditsInSnoc(log[n..], r);
      assert EditsIn(log[n..]) + [] == EditsIn(log[n..]);
    }
  }

  lemma DoReplay(s: Shared, op: Op)
    requires OpOk(s, op) && ReplayOk(s)
    ensures ReplayOk(Do(s, op))
  {
    if op.AppendRow? {
      ReplaysAppend(s.tables.extraction, s.origin, s.tables.log, op.row);
    } else if op.InsertRow? {
      assert s.tables.log[|s.tables.log|..] == [];
    }
  }

  lemma DoMessages(s: Shared, op: Op)
    requires OpOk(s, op) && forall m <- s.sent :: MessageOk(s, m)
    ensures forall m <- Do(s, op).sent :: MessageOk(Do(s, op), m)
  {
    DoRely(s, op);
    forall m <- Do(s, op).sent ensures MessageOk(Do(s, op), m) {
      assert m in s.sent || op == Send(m);
      MessageStable(s, Do(s, op), m);
    }
  }

  lemma DoOk(s: Shared, op: Op)
    requires OpOk(s, op) && SharedOk(s)
    ensures Rely(s, Do(s, op)) && SharedOk(Do(s, op))
  {
    DoRely(s, op); DoStorage(s, op); DoValues(s, op); DoRest(s, op); DoLedger(s, op); DoReplay(s, op);
        DoMessages(s, op);
  }

  /** Queue bookkeeping: no job is added or changes hands. */
  ghost predicate Bookkeeping(s: Shared, s': Shared) {
    && s' == s.(jobs := s'.jobs, webhooks := s'.webhooks)
    && s'.jobs.Keys == s.jobs.Keys && (forall k <- s.jobs :: s'.jobs[k].tenantId == s.jobs[k].tenantId)
    && |s'.webhooks| == |s.webhooks|
    && (forall k :: 0 <= k < |s.webhooks| ==> s'.webhooks[k].tenantId == s.webhooks[k].tenantId)
  }

  lemma BookkeepingOk(s: Shared, s': Shared)
    requires SharedOk(s) && Bookkeeping(s, s')
    ensures Rely(s, s') && SharedOk(s')
  {
    BookkeepingMessages(s, s');
    BookkeepingTenants(s, s');
  }

  lemma BookkeepingMessages(s: Shared, s': Shared)
    requires (forall m <- s.sent :: MessageOk(s, m)) && Bookkeeping(s, s')
    ensures Rely(s, s') && forall m <- s'.sent :: MessageOk(s', m)
  {
    forall m <- s'.sent ensures MessageOk(s', m) {
      MessageStable(s, s', m);
    }
  }

  lemma BookkeepingTenants(s: Shared, s': Shared)
    requires TenantsOk(s) && Bookkeeping(s, s')
    ensures TenantsOk(s')
  {
    forall w <- s'.webhooks ensures w.tenantId == s'.tables.row.tenantId {
      var k :| 0 <= k < |s'.webhooks| && s'.webhooks[k] == w;
      assert s.webhooks[k] in s.webhooks;
    }
  }

  lemma EndOk(s: Shared, t: Task, ending: Ending)
    requires SharedOk(s)
    ensures Rely(s, End(s, t, ending)) && SharedOk(End(s, t, ending))
  {
    EndKeepsBooks(s, t, ending);
    BookkeepingOk(s, End(s, t, ending));
  }

  lemma EndKeepsBooks(s: Shared, t: Task, ending: Ending)
    ensures Bookkeeping(s, End(s, t, ending))
  {
  }

  // ----- one step of one task

  lemma UploadMoveOk(s: Shared, pc: UploadPc, env: Env)
    requires TaskOk(s, Upload(pc))
    ensures var m := UploadMove(s, pc, env); OpOk(s, m.op) && TaskOk(s, m.task)
  {
  }

  lemma OcrMoveOk(s: Shared, t: Task, env: Env)
    requires t.Ocr? && StorageOk(s) && TaskOk(s, t)
    ensures var m := OcrMove(s, t, env); OpOk(s, m.op) && TaskOk(s, m.task)
  {
    FileKeyIsNotPlaceholder(s.tables.row.tenantId, s.tables.row.id, s.tables.row.fileName);
  }

  lemma ExtMoveOk(s: Shared, t: Task, env: Env)
    requires t.Ext? && TaskOk(s, t)
    ensures var m := ExtMove(s, t, env); OpOk(s, m.op) && TaskOk(s, m.task)
  {
    if BeforePublish(t.ext) {
      ExtMoveBeforePublish(s, t, env);
    } else {
      ExtMoveAfterPublish(s, t, env);
    }
  }

  lemma ExtMoveBeforePublish(s: Shared, t: Task, env: Env)
    requires t.Ext? && TaskOk(s, t) && BeforePublish(t.ext)
    ensures var m := ExtMove(s, t, env); OpOk(s, m.op) && TaskOk(s, m.task)
  {
  }

  lemma ExtMoveAfterPublish(s: Shared, t: Task, env: Env)
    requires t.Ext? && TaskOk(s, t) && !BeforePublish(t.ext)
    ensures var m := ExtMove(s, t, env); OpOk(s, m.op) && TaskOk(s, m.task)
  {
  }

  lemma RejectionSeen(s: Shared, n: nat)
    requires LedgerOk(s) && n <= |s.tables.log| && LastRejection(s.tables.log[..n]) >= 0
    ensures LastRejection(s.tables.log) >= LastRejection(s.tables.log[..n])
    ensures LatestRejection(s.tables.log).Some?
    ensures GivesReason(s.tables.log[LastRejection(s.tables.log)], LatestRejection(s.tables.log).value)
  {
    var k := LastRejection(s.tables.log[..n]);
    assert s.tables.log[..n][k] == s.tables.log[k];
    LatestRejectionIsThere(s.tables.log);
  }

  lemma HookOpOk(s: Shared, t: Task, env: Env)
    requires t.Hook? && TaskOk(s, t)
    ensures OpOk(s, HookMove(s, t, env).op)
  {
  }

  lemma HookObserves(s: Shared, t: Task, env: Env)
    requires t.Hook? && LedgerOk(s) && TaskOk(s, t)
    requires t.hook.HookRead? || t.hook.HookCount? || t.hook.HookReason?
    ensures var m := HookMove(s, t, env); m.op == NoOp && TaskOk(s, m.task)
  {
    assert s.tables.log[..|s.tables.log|] == s.tables.log;
    if t.hook.HookReason? && t.hook.seen.status == Rejected {
      RejectionSeen(s, t.hook.seen.logSeen);
    }
  }

  lemma HookDelivers(s: Shared, t: Task, env: Env)
    requires t.Hook? && DeliveriesOk(s) && TaskOk(s, t)
    requires !t.hook.HookRead? && !t.hook.HookCount? && !t.hook.HookReason?
    ensures var m := HookMove(s, t, env); TaskOk(Do(s, m.op), m.task)
  {
    HookOpOk(s, t, env);
    var s' := Do(s, HookMove(s, t, env).op);
    DoRely(s, HookMove(s, t, env).op);
    if t.hook.HookInsert? {
      MessageStable(s, s', t.hook.message);
    }
  }

  lemma HookTaskOk(s: Shared, t: Task, env: Env)
    requires t.Hook? && LedgerOk(s) && DeliveriesOk(s) && TaskOk(s, t)
    ensures var m := HookMove(s, t, env); TaskOk(Do(s, m.op), m.task)
  {
    if t.hook.HookRead? || t.hook.HookCount? || t.hook.HookReason? {
      HookObserves(s, t, env);
    } else {
      HookDelivers(s, t, env);
    }
  }

  lemma MoveOk(s: Shared, t: Task, env: Env)
    requires SharedOk(s) && TaskOk(s, t)
    ensures var m := MoveOf(s, t, env); OpOk(s, m.op) && TaskOk(Do(s, m.op), m.task)
  {
    var m := MoveOf(s, t, env);
    match t {
      case Upload(pc) => UploadMoveOk(s, pc, env);
      case Ocr(_, _, _) => OcrMoveOk(s, t, env);
      case Ext(_, _, _, _) => ExtMoveOk(s, t, env);
      case Notify(_) =>
      case Rerun(_, _) =>
      case Hook(_, _, _) => HookOpOk(s, t, env); HookTaskOk(s, t, env);
    }
    DoRely(s, m.op);
    if !t.Hook? {
      TaskStable(s, Do(s, m.op), m.task);
    }
  }

  lemma TaskStepOk(s: Shared, t: Task, env: Env)
    requires SharedOk(s) && TaskOk(s, t)
    ensures var m := MoveOf(s, t, env); var s' := Effect(s, t, m);
            Rely(s, s') && SharedOk(s') && TaskOk(s', m.task)
  {
    var m := MoveOf(s, t, env);
    MoveOk(s, t, env);
    DoOk(s, m.op);
    EndOk(Do(s, m.op), t, m.ending);
    TaskStable(Do(s, m.op), Effect(s, t, m), m.task);
  }

  // ----- steps of the whole system

  ghost predicate SystemOk(y: System) {
    && SharedOk(y.shared)
    && forall t <- y.tasks :: TaskOk(y.shared, t)
  }

  lemma TasksStable(s: Shared, s': Shared, tasks: seq<Task>)
    requires Rely(s, s') && forall t <- tasks :: TaskOk(s, t)
    ensures forall t <- tasks :: TaskOk(s', t)
  {
    forall t <- tasks ensures TaskOk(s', t) {
      TaskStable(s, s', t);
    }
  }

  /** What a successful reviewer transaction makes of the shared state. */
  function Decided(s: Shared, a: Action): Shared
    requires IsReviewer(a)
  {
    var r := ReviewerResult(s.tables, a);
    if r.outcome != Done then s
    else if a.EditAction? then s.(tables := r.tables)
    else
      var s' := WriteStatus(s, ByReviewer, r.tables);
      if a.ReprocessAction? then s'.(origin := None) else s'
  }

  lemma LedgerDecide(log: seq<AuditRow>, writes: seq<Write>, status: Status, w: Write, r: AuditRow)
    requires Ledger(log, writes, status) && IsDecision(r) && r.prevStatus == Some(w.before)
             && r.newStatus == Some(w.after)
    requires w.writer == ByReviewer && LegalDecision(w)
    requires w.after == DecisionStatus(r.event)
    requires r.event == RejectedEvent ==> r.payload.ReasonPayload? && r.payload.reason != ""
    ensures Ledger(log + [r], writes + [w], w.after)
  {
    DecisionRowsSnoc(log, r);
    ReviewerWritesSnoc(writes, w);
    assert forall v <- writes + [w] :: v == w || v in writes;
    assert forall q <- log + [r] :: q == r || q in log;
    if w.after == Rejected {
      RejectionIsLast(log, r);
    }
  }

  lemma RejectionIsLast(log: seq<AuditRow>, r: AuditRow)
    requires r.event == RejectedEvent
    ensures LastRejection(log + [r]) >= 0
  {
    assert (log + [r])[..|log + [r]| - 1] == log;
  }

  lemma DecidedLedger(s: Shared, a: Action)
    requires IsReviewer(a) && LedgerOk(s)
    ensures LedgerOk(Decided(s, a))
  {
    var s' := Decided(s, a);
    if ReviewerResult(s.tables, a).outcome == Done {
      var r := s'.tables.log[|s.tables.log|];
      if a.EditAction? {
        LedgerAppend(s.tables.log, s.writes, s.tables.row.status, r);
      } else {
        LedgerDecide(s.tables.log, s.writes, s.tables.row.status, s'.writes[|s.writes|], r);
      }
    }
  }

  lemma DecidedReplay(s: Shared, a: Action)
    requires IsReviewer(a) && ReplayOk(s)
    ensures ReplayOk(Decided(s, a))
  {
    var s' := Decided(s, a);
    if ReviewerResult(s.tables, a).outcome == Done && !a.ReprocessAction? {
      var log, r := s.tables.log, s'.tables.log[|s.tables.log|];
      if a.EditAction? {
        var n := s.origin.value.logLength;
        assert (log + [r])[n..] == log[n..] + [r];
        EditsInSnoc(log[n..], r);
        ReplaySnoc(s.origin.value.row, EditsIn(log[n..]), a.changes);
      } else {
        ReplaysAppend(s.tables.extraction, s.origin, log, r);
      }
    }
  }

  lemma DecidedOk(s: Shared, a: Action)
    requires IsReviewer(a) && SharedOk(s)
    ensures Rely(s, Decided(s, a)) && SharedOk(Decided(s, a))
  {
    var s' := Decided(s, a);
    DecidedLedger(s, a);
    DecidedReplay(s, a);
    DecidedStorage(s, a);
    DecidedValues(s, a);
    forall m <- s'.sent ensures MessageOk(s', m) {
      MessageStable(s, s', m);
    }
  }

  lemma DecidedValues(s: Shared, a: Action)
    requires IsReviewer(a) && ValuesOk(s)
    ensures ValuesOk(Decided(s, a))
  {
  }

  lemma DecidedStorage(s: Shared, a: Action)
    requires IsReviewer(a) && StorageOk(s) && DeliveriesOk(s) && TenantsOk(s)
    ensures Rely(s, Decided(s, a)) && StorageOk(Decided(s, a)) && DeliveriesOk(Decided(s, a))
            && TenantsOk(Decided(s, a))
    ensures Decided(s, a).sent == s.sent
  {
  }

  /** The task a reviewer's transaction leaves behind. */
  predicate FollowsReview(t: Task, a: Action) {
    t == Notify(NotifyRead) || (a.ReprocessAction? && t == Rerun(a.run, false))
  }

  lemma NextReviewer(y: System, a: Action)
    requires IsReviewer(a)
    ensures Next(y, a).shared == Decided(y.shared, a)
    ensures Next(y, a).tasks == y.tasks
         || (exists t :: Next(y, a).tasks == y.tasks + [t] && FollowsReview(t, a))
  {
  }

  lemma RunTaskOk(y: System, i: nat, env: Env)
    requires SystemOk(y) && i < |y.tasks|
    ensures SystemOk(Next(y, RunTask(i, env))) && Rely(y.shared, Next(y, RunTask(i, env)).shared)
  {
    var y' := Next(y, RunTask(i, env));
    TaskStepOk(y.shared, y.tasks[i], env);
    TasksStable(y.shared, y'.shared, y.tasks);
  }

  lemma ReviewerTasksOk(y: System, a: Action)
    requires (forall t <- y.tasks :: TaskOk(y.shared, t)) && IsReviewer(a) && Rely(y.shared, Next(y, a).shared)
    ensures forall t <- Next(y, a).tasks :: TaskOk(Next(y, a).shared, t)
  {
    var y' := Next(y, a);
    NextReviewer(y, a);
    TasksStable(y.shared, y'.shared, y.tasks);
    forall t <- y'.tasks ensures TaskOk(y'.shared, t) {
      if t !in y.tasks { FollowUpOk(y'.shared, t, a); }
    }
  }

  lemma ReviewerOk(y: System, a: Action)
    requires SystemOk(y) && IsReviewer(a)
    ensures SystemOk(Next(y, a)) && Rely(y.shared, Next(y, a).shared)
  {
    NextReviewer(y, a);
    DecidedOk(y.shared, a);
    ReviewerTasksOk(y, a);
  }

  lemma FollowUpOk(s: Shared, t: Task, a: Action)
    requires FollowsReview(t, a)
    ensures TaskOk(s, t)
  {
  }

  lemma StepOk(y: System, a: Action)
    requires SystemOk(y)
    ensures SystemOk(Next(y, a)) && Rely(y.shared, Next(y, a).shared)
  {
    var s, y' := y.shared, Next(y, a);
    if IsReviewer(a) {
      ReviewerOk(y, a);
    } else if a.RunTask? && a.i < |y.tasks| {
      RunTaskOk(y, a.i, a.env);
    } else {
      StartOk(y, a);
    }
  }

  lemma StartShared(y: System, a: Action)
    requires SharedOk(y.shared) && !IsReviewer(a) && (a.RunTask? ==> a.i >= |y.tasks|)
    ensures SharedOk(Next(y, a).shared) && Rely(y.shared, Next(y, a).shared)
  {
    StartKeepsBooks(y, a);
    BookkeepingOk(y.shared, Next(y, a).shared);
  }

  lemma StartKeepsBooks(y: System, a: Action)
    requires !IsReviewer(a) && (a.RunTask? ==> a.i >= |y.tasks|)
    ensures Bookkeeping(y.shared, Next(y, a).shared)
  {
  }

  lemma StartOk(y: System, a: Action)
    requires SystemOk(y) && !IsReviewer(a) && (a.RunTask? ==> a.i >= |y.tasks|)
    ensures SystemOk(Next(y, a)) && Rely(y.shared, Next(y, a).shared)
  {
    StartShared(y, a);
    TasksStable(y.shared, Next(y, a).shared, y.tasks);
  }
}
