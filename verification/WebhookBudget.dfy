/** Webhook retries: the attempt number read off the delivery rows against the queue's own three executions. */
module WebhookBudget {
  import opened Wrappers
  import opened Schema
  import opened Transactions
  import opened Pipeline
  import opened AnyFault
  import AnyFaultTheorems

  /** A webhook job throws only because a delivery failed, and the queue starts an execution only for a job
      that waits for one. Everything else may fail and interleave in any way. */
  predicate DeliveryFailuresOnly(y: System, a: Action) {
    match a
    case RunTask(i, env) => i < |y.tasks| && y.tasks[i].Hook? ==> env.fault == NoFault
    case StartWebhook(j) => j < |y.shared.webhooks| ==> y.shared.webhooks[j].state == Waiting
    case _ => true
  }

  predicate Delivering(t: Task) {
    t.Hook? && t.hook != HookSkipped && t.hook != HookSucceeded && t.hook != HookDeadLettered && t.hook != HookThrew
  }

  predicate HasAttempt(pc: HookPc) {
    pc.HookReason? || pc.HookInsert? || pc.HookFetch? || pc.HookRecord? || pc.HookLog?
  }

  /** The k-th execution of a job numbers its attempt at least k. */
  predicate ExecutionOk(s: Shared, t: Task) {
    Delivering(t) ==>
      && t.job < |s.webhooks| && s.webhooks[t.job].state == Active
      && (if HasAttempt(t.hook) then s.webhooks[t.job].executions <= t.hook.attempt
          else s.webhooks[t.job].executions <= |s.deliveries| + 1)
  }

  /** A job waiting for its next execution has thrown once for each execution, and each throw left a row. */
  predicate JobOk(s: Shared, w: WebhookJob) {
    && w.state != Exhausted
    && (w.state == Waiting ==> w.executions <= |s.deliveries| && w.executions < JOB_ATTEMPTS)
    && w.executions <= JOB_ATTEMPTS
  }

  /** An execution of job j that ended skipped, delivered or dead-lettered. */
  predicate EndedFor(t: Task, j: nat) {
    t.Hook? && t.job == j && (t.hook == HookSkipped || t.hook == HookSucceeded || t.hook == HookDeadLettered)
  }

  ghost predicate CompletedEnded(webhooks: seq<WebhookJob>, tasks: seq<Task>) {
    forall j :: 0 <= j < |webhooks| && webhooks[j].state == Completed ==>
          exists i :: 0 <= i < |tasks| && EndedFor(tasks[i], j)
  }

  ghost predicate BudgetOk(y: System) {
    && CompletedEnded(y.shared.webhooks, y.tasks)
    && (forall w <- y.shared.webhooks :: JobOk(y.shared, w))
    && (forall i :: 0 <= i < |y.tasks| ==> ExecutionOk(y.shared, y.tasks[i]))
    && (forall i, j :: 0 <= i < j < |y.tasks| && Delivering(y.tasks[i]) && Delivering(y.tasks[j]) ==>
          y.tasks[i].job != y.tasks[j].job)
  }

  lemma OthersMayOnlyAdd(s: Shared, t: Task, env: Env)
    requires !t.Hook?
    ensures var m := MoveOf(s, t, env); var s' := Effect(s, t, m);
      && !m.task.Hook? && s'.deliveries == s.deliveries
      && (s'.webhooks == s.webhooks || exists tenant :: s'.webhooks == s.webhooks + [WebhookJob(tenant, 0, Waiting)])
  {
    match t {
      case Ext(_, _, _, _) => ExtMayOnlyAdd(s, t, env);
      case Ocr(_, _, _) => OcrAddsNoHook(s, t, env);
      case _ =>
    }
  }

  lemma OcrAddsNoHook(s: Shared, t: Task, env: Env)
    requires t.Ocr?
    ensures var m := OcrMove(s, t, env); var s' := Effect(s, t, m);
            m.task.Ocr? && s'.deliveries == s.deliveries && s'.webhooks == s.webhooks
  {
  }

  lemma ExtMayOnlyAdd(s: Shared, t: Task, env: Env)
    requires t.Ext?
    ensures var m := ExtMove(s, t, env); m.task.Ext? && !m.op.InsertDelivery? && !m.op.RecordDelivery?
  {
  }

  /** One step of a delivery, seen from its own job. */
  ghost predicate HookEffect(s: Shared, t: Task, t': Task, s': Shared)
    requires t.Hook?
  {
    && t'.Hook? && t'.job == t.job
    && |s'.deliveries| >= |s.deliveries| && |s'.webhooks| == |s.webhooks|
    && (forall k :: 0 <= k < |s.webhooks| && k != t.job ==> s'.webhooks[k] == s.webhooks[k])
    && (!Delivering(t) ==> t' == t && s'.webhooks == s.webhooks)
    && (t.job < |s.webhooks| && s'.webhooks[t.job].state == Completed ==>
          s'.webhooks == s.webhooks || EndedFor(t', t.job))
    && ExecutionOk(s', t')
    && (t.job < |s.webhooks| ==> JobOk(s', s'.webhooks[t.job]))
  }

  lemma HookEarly(s: Shared, t: Task, env: Env)
    requires t.Hook? && !HasAttempt(t.hook) && env.fault == NoFault
    requires ExecutionOk(s, t) && forall w <- s.webhooks :: JobOk(s, w)
    ensures var m := HookMove(s, t, env); HookEffect(s, t, m.task, Effect(s, t, m))
  {
    if t.job < |s.webhooks| { assert s.webhooks[t.job] in s.webhooks; }
  }

  lemma HookLate(s: Shared, t: Task, env: Env)
    requires t.Hook? && HasAttempt(t.hook) && env.fault == NoFault && TaskOk(s, t)
    requires ExecutionOk(s, t) && forall w <- s.webhooks :: JobOk(s, w)
    ensures var m := HookMove(s, t, env); HookEffect(s, t, m.task, Effect(s, t, m))
  {
    if t.job < |s.webhooks| { assert s.webhooks[t.job] in s.webhooks; }
  }

  lemma HookStepBudget(y: System, i: nat, env: Env)
    requires SystemOk(y) && BudgetOk(y) && i < |y.tasks| && y.tasks[i].Hook? && env.fault == NoFault
    ensures BudgetOk(Next(y, RunTask(i, env)))
  {
    var s, t := y.shared, y.tasks[i];
    assert TaskOk(s, t) && ExecutionOk(s, t);
    if HasAttempt(t.hook) { HookLate(s, t, env); } else { HookEarly(s, t, env); }
    HookEffectKeepsBudget(y, i, MoveOf(s, t, env).task, Next(y, RunTask(i, env)).shared);
  }

  lemma HookEffectKeepsEnds(y: System, i: nat, t': Task, s': Shared)
    requires BudgetOk(y) && i < |y.tasks| && y.tasks[i].Hook? && HookEffect(y.shared, y.tasks[i], t', s')
    ensures CompletedEnded(s'.webhooks, y.tasks[i := t'])
  {
    var s, t, tasks' := y.shared, y.tasks[i], y.tasks[i := t'];
    forall j | 0 <= j < |s'.webhooks| && s'.webhooks[j].state == Completed
      ensures exists k :: 0 <= k < |tasks'| && EndedFor(tasks'[k], j)
    {
      if s'.webhooks[j] == s.webhooks[j] {
        var k :| 0 <= k < |y.tasks| && EndedFor(y.tasks[k], j);
        assert EndedFor(tasks'[k], j);
      } else {
        assert EndedFor(tasks'[i], j);
      }
    }
  }

  lemma GrowthKeepsEnds(y: System, webhooks': seq<WebhookJob>, tasks': seq<Task>)
    requires CompletedEnded(y.shared.webhooks, y.tasks)
    requires |webhooks'| >= |y.shared.webhooks|
    requires forall k :: 0 <= k < |webhooks'| && webhooks'[k].state == Completed ==>
               k < |y.shared.webhooks| && webhooks'[k] == y.shared.webhooks[k]
    requires |tasks'| >= |y.tasks| && forall k :: 0 <= k < |y.tasks| && y.tasks[k].Hook? ==> tasks'[k] == y.tasks[k]
    ensures CompletedEnded(webhooks', tasks')
  {
    forall j | 0 <= j < |webhooks'| && webhooks'[j].state == Completed
      ensures exists k :: 0 <= k < |tasks'| && EndedFor(tasks'[k], j)
    {
      var k :| 0 <= k < |y.tasks| && EndedFor(y.tasks[k], j);
      assert EndedFor(tasks'[k], j);
    }
  }

  lemma HookEffectKeepsBudget(y: System, i: nat, t': Task, s': Shared)
    requires BudgetOk(y) && i < |y.tasks| && y.tasks[i].Hook? && HookEffect(y.shared, y.tasks[i], t', s')
    ensures BudgetOk(System(s', y.tasks[i := t']))
  {
    var s, tasks' := y.shared, y.tasks[i := t'];
    HookEffectKeepsEnds(y, i, t', s');
    forall w <- s'.webhooks ensures JobOk(s', w) {
      var k :| 0 <= k < |s'.webhooks| && s'.webhooks[k] == w;
      if k != y.tasks[i].job {
        assert s.webhooks[k] in s.webhooks && JobOk(s, s.webhooks[k]);
      }
    }
    forall j | 0 <= j < |tasks'| ensures ExecutionOk(s', tasks'[j]) {
      if j != i {
        assert tasks'[j] == y.tasks[j] && ExecutionOk(s, y.tasks[j]);
      }
    }
  }

  /** Any step that adds rows or jobs but touches no existing job. */
  lemma GrowthKeepsBudget(y: System, s': Shared, tasks': seq<Task>)
    requires BudgetOk(y)
    requires |s'.deliveries| >= |y.shared.deliveries| && y.shared.webhooks <= s'.webhooks
    requires forall k :: |y.shared.webhooks| <= k < |s'.webhooks| ==>
               s'.webhooks[k].executions == 0 && s'.webhooks[k].state == Waiting
    requires |tasks'| >= |y.tasks| && forall j :: 0 <= j < |tasks'| ==>
               (j < |y.tasks| && tasks'[j] == y.tasks[j]) || (!tasks'[j].Hook? && (j < |y.tasks| ==> !y.tasks[j].Hook?))
    ensures BudgetOk(System(s', tasks'))
  {
    GrowthKeepsEnds(y, s'.webhooks, tasks');
    forall w <- s'.webhooks ensures JobOk(s', w) {
      var k :| 0 <= k < |s'.webhooks| && s'.webhooks[k] == w;
      if k < |y.shared.webhooks| {
        assert y.shared.webhooks[k] in y.shared.webhooks && JobOk(y.shared, y.shared.webhooks[k]);
      }
    }
    forall j | 0 <= j < |tasks'| ensures ExecutionOk(s', tasks'[j]) {
      if tasks'[j].Hook? {
        assert ExecutionOk(y.shared, y.tasks[j]);
      }
    }
  }

  lemma StartedJobsOk(s: Shared, j: nat)
    requires (forall w <- s.webhooks :: JobOk(s, w)) && j < |s.webhooks| && s.webhooks[j].state == Waiting
    ensures var w' := s.webhooks[j].(executions := s.webhooks[j].executions + 1, state := Active);
            forall w <- s.webhooks[j := w'] :: JobOk(s, w)
  {
    assert s.webhooks[j] in s.webhooks;
    var webhooks' := s.webhooks[j := s.webhooks[j].(executions := s.webhooks[j].executions + 1, state := Active)];
    forall w <- webhooks' ensures JobOk(s, w) {
      var k :| 0 <= k < |webhooks'| && webhooks'[k] == w;
      if k != j { assert s.webhooks[k] in s.webhooks; }
    }
  }

  /** Executions of other jobs do not notice, and job j had none under way. */
  lemma StartedExecutionsOk(y: System, j: nat)
    requires BudgetOk(y) && j < |y.shared.webhooks| && y.shared.webhooks[j].state == Waiting
    ensures var y' := Next(y, StartWebhook(j));
      && (forall i :: 0 <= i < |y'.tasks| ==> ExecutionOk(y'.shared, y'.tasks[i]))
      && (forall i :: 0 <= i < |y.tasks| ==>
            y'.tasks[i] == y.tasks[i] && (Delivering(y.tasks[i]) ==> y.tasks[i].job != j))
  {
    var s, y' := y.shared, Next(y, StartWebhook(j));
    assert JobOk(s, s.webhooks[j]) by { assert s.webhooks[j] in s.webhooks; }
    forall i | 0 <= i < |y.tasks|
      ensures y'.tasks[i] == y.tasks[i] && ExecutionOk(s, y.tasks[i])
              && (Delivering(y.tasks[i]) ==> y.tasks[i].job != j)
    {
    }
    assert ExecutionOk(y'.shared, y'.tasks[|y.tasks|]);
  }

  lemma WebhookStartBudget(y: System, j: nat)
    requires BudgetOk(y) && j < |y.shared.webhooks| && y.shared.webhooks[j].state == Waiting
    ensures BudgetOk(Next(y, StartWebhook(j)))
  {
    var s, y' := y.shared, Next(y, StartWebhook(j));
    GrowthKeepsEnds(y, y'.shared.webhooks, y'.tasks);
    StartedJobsOk(s, j);
    assert forall w :: JobOk(s, w) ==> JobOk(y'.shared, w);
    StartedExecutionsOk(y, j);
  }

  lemma StepBudget(y: System, a: Action)
    requires SystemOk(y) && BudgetOk(y) && DeliveryFailuresOnly(y, a)
    ensures BudgetOk(Next(y, a))
  {
    var y' := Next(y, a);
    if a.RunTask? && a.i < |y.tasks| && y.tasks[a.i].Hook? {
      HookStepBudget(y, a.i, a.env);
    } else if a.StartWebhook? {
      if a.j < |y.shared.webhooks| { WebhookStartBudget(y, a.j); }
    } else {
      if a.RunTask? && a.i < |y.tasks| { OthersMayOnlyAdd(y.shared, y.tasks[a.i], a.env); }
      else if IsReviewer(a) { NextReviewer(y, a); }
      GrowthKeepsBudget(y, y'.shared, y'.tasks);
    }
  }

  lemma {:induction false} AlwaysInBudget(y: System, actions: seq<Action>)
    requires SystemOk(y) && AnyFaultTheorems.Accounts(y) && BudgetOk(y) && Follows(DeliveryFailuresOnly, y, actions)
    ensures SystemOk(Run(y, actions)) && BudgetOk(Run(y, actions))
  {
    AnyFaultTheorems.Always(y, actions);
    if actions != [] {
      var before := actions[..|actions| - 1];
      AlwaysInBudget(y, before);
      StepBudget(Run(y, before), actions[|actions| - 1]);
    }
  }

  /** Retry budgets align: under every such interleaving no webhook job uses up its three executions without
      ending, and a job that is over has returned: skipped, delivered or dead-lettered. */
  lemma RetryBudgetsAlign(id: string, tenantId: string, uploadedBy: string, fileName: string, actions: seq<Action>)
    requires Follows(DeliveryFailuresOnly, Start(id, tenantId, uploadedBy, fileName), actions)
    ensures var y := Run(Start(id, tenantId, uploadedBy, fileName), actions);
            forall j :: 0 <= j < |y.shared.webhooks| ==>
              && y.shared.webhooks[j].state != Exhausted && y.shared.webhooks[j].executions <= JOB_ATTEMPTS
              && (y.shared.webhooks[j].state == Completed ==> exists i :: 0 <= i < |y.tasks| && EndedFor(y.tasks[i], j))
  {
    var y := Start(id, tenantId, uploadedBy, fileName);
    AnyFaultTheorems.StartIsOk(id, tenantId, uploadedBy, fileName);
    AlwaysInBudget(y, actions);
    var y' := Run(y, actions);
    forall j | 0 <= j < |y'.shared.webhooks|
      ensures y'.shared.webhooks[j].state != Exhausted && y'.shared.webhooks[j].executions <= JOB_ATTEMPTS
    {
      assert y'.shared.webhooks[j] in y'.shared.webhooks;
      assert JobOk(y'.shared, y'.shared.webhooks[j]);
    }
  }

  // ----- deliveries of one document run one after the other

  function HookRank(pc: HookPc): nat {
    match pc
    case HookRead => 7
    case HookCount(_) => 6
    case HookReason(_, _) => 5
    case HookInsert(_, _) => 4
    case HookFetch(_, _, _) => 3
    case HookRecord(_, _, _) => 2
    case HookLog(_, _) => 1
    case _ => 0
  }

  /** Run an execution to its end with nobody else moving. */
  function RunAlone(s: Shared, t: Task, env: Env): (r: (Shared, Task))
    requires t.Hook?
    ensures r.1.Hook?
    decreases HookRank(t.hook)
  {
    var m := HookMove(s, t, env);
    if m.task.Hook? && HookRank(m.task.hook) < HookRank(t.hook) then RunAlone(Effect(s, t, m), m.task, env) else (s, t)
  }

  /** The row that a serial execution leaves after n others. */
  function SerialRow(tenantId: string, n: nat, ok: bool): Delivery {
    Delivery(tenantId, n + 1, if ok then Success else if n + 1 >= 3 then DeadLetter else FailedDelivery)
  }

  function SerialEnd(n: nat, ok: bool): HookPc {
    if ok then HookSucceeded else if n + 1 >= 3 then HookDeadLettered else HookThrew
  }

  function SerialLogRow(n: nat, ok: bool): AuditRow {
    AuditRow(None, if ok then WebhookSentEvent else WebhookFailedEvent, None, None, AttemptPayload(n + 1))
  }

  ghost predicate Delivered(s: Shared, t: Task, s': Shared, t': Task, payload: WebhookPayload, ok: bool)
    requires t.Hook? && t'.Hook?
  {
    && s'.deliveries == s.deliveries + [SerialRow(t.tenantId, |s.deliveries|, ok)]
    && |s'.sent| == |s.sent| + 1 && s'.sent[..|s.sent|] == s.sent && s'.sent[|s.sent|].payload == payload
    && s'.tables == s.tables.(log := s.tables.log + [SerialLogRow(|s.deliveries|, ok)])
    && t'.hook == SerialEnd(|s.deliveries|, ok)
  }

  lemma AloneFromInsert(s: Shared, t: Task, env: Env)
    requires t.Hook? && t.hook.HookInsert? && env.fault == NoFault && t.hook.attempt == |s.deliveries| + 1
    ensures var (s', t') := RunAlone(s, t, env);
            Delivered(s, t, s', t', t.hook.message.payload, env.responseOk)
  {
    var m1 := HookMove(s, t, env);
    var s1 := Effect(s, t, m1);
    AloneFromFetch(s1, m1.task, env);
    assert RunAlone(s, t, env) == RunAlone(s1, m1.task, env);
  }

  lemma AloneFromFetch(s: Shared, t: Task, env: Env)
    requires t.Hook? && t.hook.HookFetch? && env.fault == NoFault && t.hook.delivery < |s.deliveries|
    ensures var (s', t') := RunAlone(s, t, env); var n, ok := t.hook.attempt, env.responseOk;
            var outcome := if ok then Success else if n >= 3 then DeadLetter else FailedDelivery;
      && s'.deliveries == s.deliveries[t.hook.delivery := s.deliveries[t.hook.delivery].(status := outcome)]
      && s'.sent == s.sent + [t.hook.message]
      && s'.tables == s.tables.(log := s.tables.log + [
           AuditRow(None, if ok then WebhookSentEvent else WebhookFailedEvent, None, None, AttemptPayload(n))])
      && t'.hook == if ok then HookSucceeded else if n >= 3 then HookDeadLettered else HookThrew
  {
    var m1 := HookMove(s, t, env);
    var s1 := Effect(s, t, m1);
    AloneFromRecord(s1, m1.task, env);
    assert RunAlone(s, t, env) == RunAlone(s1, m1.task, env);
  }

  lemma AloneFromRecord(s: Shared, t: Task, env: Env)
    requires t.Hook? && t.hook.HookRecord? && env.fault == NoFault && t.hook.delivery < |s.deliveries|
    ensures var (s', t') := RunAlone(s, t, env); var n, ok := t.hook.attempt, t.hook.ok;
            var outcome := if ok then Success else if n >= 3 then DeadLetter else FailedDelivery;
      && s'.deliveries == s.deliveries[t.hook.delivery := s.deliveries[t.hook.delivery].(status := outcome)]
      && s'.sent == s.sent
      && s'.tables == s.tables.(log := s.tables.log + [
           AuditRow(None, if ok then WebhookSentEvent else WebhookFailedEvent, None, None, AttemptPayload(n))])
      && t'.hook == if ok then HookSucceeded else if n >= 3 then HookDeadLettered else HookThrew
  {
    var m1 := HookMove(s, t, env);
    var s1 := Effect(s, t, m1);
    AloneFromLog(s1, m1.task, env);
    assert RunAlone(s, t, env) == RunAlone(s1, m1.task, env);
  }

  lemma AloneFromLog(s: Shared, t: Task, env: Env)
    requires t.Hook? && t.hook.HookLog? && env.fault == NoFault
    ensures var (s', t') := RunAlone(s, t, env); var n, ok := t.hook.attempt, t.hook.ok;
      && s'.deliveries == s.deliveries && s'.sent == s.sent
      && s'.tables == s.tables.(log := s.tables.log + [
           AuditRow(None, if ok then WebhookSentEvent else WebhookFailedEvent, None, None, AttemptPayload(n))])
      && t'.hook == if ok then HookSucceeded else if n >= 3 then HookDeadLettered else HookThrew
  {
    var m := HookMove(s, t, env);
    assert RunAlone(Effect(s, t, m), m.task, env) == (Effect(s, t, m), m.task);
  }

  /** The most recent rejected row gives this reason. */
  ghost predicate LastReason(log: seq<AuditRow>, reason: Option<string>) {
    exists k :: 0 <= k < |log| && log[k].event == RejectedEvent
             && (forall j :: k < j < |log| ==> log[j].event != RejectedEvent)
             && log[k].payload.ReasonPayload? && reason == Some(log[k].payload.reason)
  }

  lemma LatestIsLast(log: seq<AuditRow>)
    requires GivesReasons(log)
    ensures LastReason(log, LatestRejection(log))
    ensures LatestRejection(log).Some? && LatestRejection(log).value != ""
  {
    var r :| r in log && r.event == RejectedEvent;
    var k := LastRejection(log);
    LatestRejectionIsThere(log);
    assert log[k].event == RejectedEvent;
  }

  /** The payload for a document in this state: an approval carries vendor, number and total of the stored
      extraction and no reason, a rejection carries the last reason and no extraction. */
  ghost predicate Reports(p: WebhookPayload, t: Tables) {
    && p.documentId == t.row.id && p.tenantId == t.row.tenantId
    && p.status == t.row.status && p.docType == t.row.docType
    && (t.row.status == Approved ==> p.reason == None && Summarises(p.extraction, t.extraction))
    && (t.row.status == Rejected ==> p.extraction == None && LastReason(t.log, p.reason))
  }

  predicate Summarises(summary: Option<InvoiceSummary>, extraction: Option<ExtractionRow>) {
    match extraction
    case None => summary == None
    case Some(e) =>
      && summary.Some? && summary.value.vendorName == e.vendorName
      && summary.value.invoiceNumber == e.invoiceNumber && summary.value.total == e.total
  }

  ghost predicate GivesReasons(log: seq<AuditRow>) {
    && (exists r <- log :: r.event == RejectedEvent)
    && (forall r <- log :: r.event == RejectedEvent ==> r.payload.ReasonPayload? && r.payload.reason != "")
  }

  /** A whole execution for an approved or rejected document of a configured tenant sends one payload that
      reports the document, appends exactly one delivery row, numbered one above the rows there were, and one
      audit row, and ends accordingly. */
  lemma SerialExecution(s: Shared, t: Task, env: Env) returns (payload: WebhookPayload)
    requires t.Hook? && t.hook == HookRead && env.fault == NoFault && t.tenantId == s.tables.row.tenantId
    requires env.tenant.Some? && env.tenant.value.webhookUrl && env.tenant.value.webhookSecret
    requires s.tables.row.status == Approved || (s.tables.row.status == Rejected && GivesReasons(s.tables.log))
    ensures Reports(payload, s.tables)
    ensures var (s', t') := RunAlone(s, t, env); Delivered(s, t, s', t', payload, env.responseOk)
  {
    var m1 := HookMove(s, t, env);
    assert Effect(s, t, m1) == s;
    var m2 := HookMove(s, m1.task, env);
    assert Effect(s, m1.task, m2) == s;
    if s.tables.row.status == Rejected {
      LatestIsLast(s.tables.log);
      var m3 := HookMove(s, m2.task, env);
      assert Effect(s, m2.task, m3) == s;
      payload := m3.task.hook.message.payload;
      AloneFromInsert(s, m3.task, env);
      assert RunAlone(s, m2.task, env) == RunAlone(s, m3.task, env);
    } else {
      payload := m2.task.hook.message.payload;
      AloneFromInsert(s, m2.task, env);
    }
    assert RunAlone(s, m1.task, env) == RunAlone(s, m2.task, env);
  }

  /** Otherwise the execution ends at once and touches nothing but its job. */
  lemma SkippedExecution(s: Shared, t: Task, env: Env)
    requires t.Hook? && t.hook == HookRead && env.fault == NoFault && t.job < |s.webhooks|
    requires !(t.tenantId == s.tables.row.tenantId
             && (s.tables.row.status == Approved || s.tables.row.status == Rejected)
               && env.tenant.Some? && env.tenant.value.webhookUrl && env.tenant.value.webhookSecret)
    ensures var m := HookMove(s, t, env); var s' := Effect(s, t, m);
      && m.task.hook == HookSkipped
      && s' == s.(webhooks := s.webhooks[t.job := s.webhooks[t.job].(state := Completed)])
  {
  }

  /** Before it is sent, a delivery has its row: the job's tenant, its attempt, and pending. */
  lemma NewRowIsPending(s: Shared, t: Task, env: Env)
    requires t.Hook? && t.hook.HookInsert? && env.fault != LostBefore
    ensures Effect(s, t, HookMove(s, t, env)).deliveries
            == s.deliveries + [Delivery(t.tenantId, t.hook.attempt, Pending)]
    ensures Effect(s, t, HookMove(s, t, env)).sent == s.sent
  {
  }
}
