/** The theorems of the restricted fault model, for every permitted run of one document. */
module ProviderFaultTheorems {
  import opened Wrappers
  import opened DecisionEngine
  import opened Schema
  import opened Transactions
  import opened Pipeline
  import opened AnyFault
  import opened ProviderFault
  import Providers
  import AnyFaultTheorems

  // ----- an auto-approval stands

  /** The stored extraction bears out the approval row: every score reaches the row's threshold and the line
      items sum to the stored subtotal within the tolerance plus half a cent. */
  predicate BornOut(t: Tables, p: Payload) {
    && t.row.status == Approved && t.extraction.Some? && p.ApprovalPayload?
    && t.extraction.value.confidence.AtLeast(p.threshold)
    && p.lineItemsSum == Sum(t.extraction.value.lineItems)
    && t.extraction.value.subtotal.Some?
    && Abs(p.lineItemsSum - t.extraction.value.subtotal.value as real / 100.0) <= 0.015
  }

  predicate LogsApproval(t: Task) {
    t.Ext? && (t.ext.ExtLog? || t.ext.ExtLogDecision?) && t.ext.verdict.decision == AutoApprove
  }

  predicate ApprovalTaskOk(s: Shared, t: Task) {
    LogsApproval(t) ==>
      && s.tables.row.status == Approved
      && s.tables.extraction == Some(Persist(t.ext.invoice))
      && t.ext.verdict == Evaluate(t.ext.invoice, Threshold(t.ext.tenant))
  }

  ghost predicate ApprovalsOk(y: System) {
    && (forall r <- y.shared.tables.log :: r.event == AutoApprovedEvent ==> BornOut(y.shared.tables, r.payload))
    && (forall t <- y.tasks :: ApprovalTaskOk(y.shared, t))
  }

  // ----- provider budget

  predicate BeforeClassify(pc: ExtPc) {
    pc.ExtRead? || pc.ExtEmpty? || pc.ExtLogEmpty? || pc.ExtTenant? || pc.ExtMark? || pc.ExtClassify?
  }

  predicate BeforeExtract(pc: ExtPc) {
    BeforeClassify(pc) || pc.ExtUnknown? || pc.ExtType? || pc.ExtCall?
  }

  predicate JobWithin(j: Job) {
    && j.executions <= JOB_ATTEMPTS
    && j.classifyCalls <= Providers.MAX_RETRIES * j.executions
    && j.extractCalls <= Providers.MAX_RETRIES * j.executions
  }

  predicate TaskWithin(s: Shared, t: Task) {
    t.Ext? && RunsJob(t).Some? && ExtractKey(t.run) in s.jobs ==>
      var j := s.jobs[ExtractKey(t.run)];
      && (BeforeClassify(t.ext) ==> j.classifyCalls + Providers.MAX_RETRIES <= Providers.MAX_RETRIES * j.executions)
      && (BeforeExtract(t.ext) ==> j.extractCalls + Providers.MAX_RETRIES <= Providers.MAX_RETRIES * j.executions)
  }

  ghost predicate WithinBudget(y: System) {
    && (forall k <- y.shared.jobs :: JobWithin(y.shared.jobs[k]))
    && (forall t <- y.tasks :: TaskWithin(y.shared, t))
  }

  // ----- the full invariant of the restricted model

  ghost predicate Good(y: System, h: Holder) {
    SystemOk(y) && Held(y, h) && ApprovalsOk(y) && WithinBudget(y)
  }

  lemma StartIsGood(id: string, tenantId: string, uploadedBy: string, fileName: string)
    ensures Good(Start(id, tenantId, uploadedBy, fileName), HeldByTask(0))
  {
    AnyFaultTheorems.StartIsOk(id, tenantId, uploadedBy, fileName);
  }

  /** An approved document's rows do not change. */
  lemma ApprovedIsFrozen(y: System, h: Holder, a: Action)
    requires Held(y, h) && Permitted(y, a) && y.shared.tables.row.status == Approved
    ensures Next(y, a).shared.tables.row == y.shared.tables.row
    ensures Next(y, a).shared.tables.extraction == y.shared.tables.extraction
  {
    if a.RunTask? && a.i < |y.tasks| {
      assert h == Nobody;
      assert !Live(y.tasks[a.i]);
      QuietMove(y.shared, y.tasks[a.i], a.env);
    }
  }

  lemma LiveMoveApproval(s: Shared, t: Task, env: Env)
    requires Live(t) && TaskPhase(s, t) && (env.fault == NoFault || AtProvider(t))
    ensures var m := MoveOf(s, t, env);
      && ApprovalTaskOk(Effect(s, t, m), m.task)
      && (m.op.AppendRow? ==> m.op.row.event != AutoApprovedEvent)
  {
    if t.Ext? {
      LiveExtApproval(s, t, env);
    }
  }

  lemma LiveExtApproval(s: Shared, t: Task, env: Env)
    requires t.Ext? && Live(t) && TaskPhase(s, t) && env.fault == NoFault
    ensures var m := ExtMove(s, t, env);
      && (LogsApproval(m.task) ==>
            && t.ext.ExtPublish? && m.op == SaveStatus(ByExtraction(t.run), Approved)
            && m.task.ext == ExtLog(t.ext.tenant, t.ext.invoice, t.ext.verdict))
      && (m.op.AppendRow? ==> m.op.row.event != AutoApprovedEvent)
  {
  }

  lemma QuietMoveApproval(s: Shared, t: Task, env: Env)
    requires !Live(t) && ApprovalTaskOk(s, t) && (t.Ext? ==> env.fault == NoFault)
    ensures var m := MoveOf(s, t, env);
      && ApprovalTaskOk(Effect(s, t, m), m.task)
      && (m.op.AppendRow? && m.op.row.event == AutoApprovedEvent ==> BornOut(Effect(s, t, m).tables, m.op.row.payload))
  {
    QuietMove(s, t, env);
    if t.Ext? {
      QuietExtApproval(s, t, env);
    }
  }

  lemma QuietExtApproval(s: Shared, t: Task, env: Env)
    requires t.Ext? && !Live(t) && ApprovalTaskOk(s, t) && env.fault == NoFault
    ensures var m := ExtMove(s, t, env);
      && ApprovalTaskOk(s, m.task)
      && (m.op.AppendRow? && m.op.row.event == AutoApprovedEvent ==> BornOut(s.tables, m.op.row.payload))
  {
    if LogsApproval(t) {
      ApprovedSumMatchesStoredSubtotal(t.ext.invoice, Threshold(t.ext.tenant));
    }
  }

  lemma EffectLog(s: Shared, t: Task, m: Move)
    ensures Effect(s, t, m).tables.log == if m.op.AppendRow? then s.tables.log + [m.op.row] else s.tables.log
  {
  }

  /** An approved document's rows stand still, so what was said of them stays true. */
  lemma ApprovalTaskStays(s: Shared, s': Shared, t: Task)
    requires ApprovalTaskOk(s, t)
    requires s.tables.row.status == Approved ==>
               s'.tables.row == s.tables.row && s'.tables.extraction == s.tables.extraction
    ensures ApprovalTaskOk(s', t)
  {
  }

  lemma RunApprovals(y: System, h: Holder, i: nat, env: Env)
    requires Good(y, h) && i < |y.tasks| && Permitted(y, RunTask(i, env))
    ensures ApprovalsOk(Next(y, RunTask(i, env)))
  {
    var s, t := y.shared, y.tasks[i];
    var m := MoveOf(s, t, env);
    var s' := Effect(s, t, m);
    if s.tables.row.status == Approved {
      ApprovedIsFrozen(y, h, RunTask(i, env));
    }
    MovedTaskApproval(y, h, i, env);
    EffectLog(s, t, m);
    TasksApproval(s, s', y.tasks, i, m.task);
  }

  lemma MovedTaskApproval(y: System, h: Holder, i: nat, env: Env)
    requires Good(y, h) && i < |y.tasks| && Permitted(y, RunTask(i, env))
    ensures var s, t := y.shared, y.tasks[i]; var m := MoveOf(s, t, env); var s' := Effect(s, t, m);
      && ApprovalTaskOk(s', m.task)
      && (m.op.AppendRow? && m.op.row.event == AutoApprovedEvent ==> BornOut(s'.tables, m.op.row.payload))
  {
    if Live(y.tasks[i]) {
      LiveMoveApproval(y.shared, y.tasks[i], env);
    } else {
      QuietMoveApproval(y.shared, y.tasks[i], env);
    }
  }

  lemma TasksApproval(s: Shared, s': Shared, tasks: seq<Task>, i: nat, t': Task)
    requires i < |tasks| && (forall u <- tasks :: ApprovalTaskOk(s, u)) && ApprovalTaskOk(s', t')
    requires s.tables.row.status == Approved ==>
               s'.tables.row == s.tables.row && s'.tables.extraction == s.tables.extraction
    ensures forall u <- tasks[i := t'] :: ApprovalTaskOk(s', u)
  {
    forall u <- tasks[i := t'] ensures ApprovalTaskOk(s', u) {
      if u != t' {
        assert u in tasks;
        ApprovalTaskStays(s, s', u);
      }
    }
  }

  lemma ApprovalsKept(y: System, h: Holder, a: Action)
    requires Good(y, h) && Permitted(y, a)
    ensures ApprovalsOk(Next(y, a))
  {
    if a.RunTask? {
      if a.i < |y.tasks| { RunApprovals(y, h, a.i, a.env); }
    } else {
      OtherApprovals(y, h, a);
    }
  }

  lemma OtherStep(y: System, a: Action)
    requires !a.RunTask?
    ensures forall r <- Next(y, a).shared.tables.log :: r.event == AutoApprovedEvent ==> r in y.shared.tables.log
    ensures forall u <- Next(y, a).tasks ::
              u in y.tasks || (!LogsApproval(u) && (u.Ext? ==> u.ext == ExtRead && a == StartExtraction(u.run)))
  {
  }

  lemma OtherApprovals(y: System, h: Holder, a: Action)
    requires Good(y, h) && Permitted(y, a) && !a.RunTask?
    ensures ApprovalsOk(Next(y, a))
  {
    OtherStep(y, a);
    if y.shared.tables.row.status == Approved {
      ApprovedIsFrozen(y, h, a);
    }
  }

  // ----- the provider budget is kept

  ghost predicate SameCalls(s: Shared, s': Shared, key: JobKey) {
    key in s'.jobs && key in s.jobs
    && s'.jobs[key].executions == s.jobs[key].executions
    && s'.jobs[key].classifyCalls == s.jobs[key].classifyCalls && s'.jobs[key].extractCalls == s.jobs[key].extractCalls
  }

  ghost predicate ExtBudgetKept(s: Shared, t: Task, t': Task, s': Shared)
    requires t.Ext?
  {
    && t'.Ext? && TaskWithin(s', t') && s'.jobs.Keys == s.jobs.Keys
    && (forall k <- s.jobs :: k != ExtractKey(t.run) || RunsJob(t).None? ==> s'.jobs[k] == s.jobs[k])
    && (ExtractKey(t.run) in s.jobs ==> JobWithin(s'.jobs[ExtractKey(t.run)]))
  }

  lemma ExtAsks(s: Shared, t: Task, env: Env)
    requires t.Ext? && (t.ext.ExtClassify? || t.ext.ExtCall?) && TaskWithin(s, t)
    requires ExtractKey(t.run) in s.jobs ==> JobWithin(s.jobs[ExtractKey(t.run)])
    ensures var m := ExtMove(s, t, env); ExtBudgetKept(s, t, m.task, Effect(s, t, m))
  {
    Providers.AskBounded(env.config, Invoice, env.classify);
    Providers.AskBounded(env.config, env.mockInvoice, env.extract);
  }

  lemma ExtPlainMove(s: Shared, t: Task, env: Env)
    requires t.Ext? && !t.ext.ExtClassify? && !t.ext.ExtCall?
    ensures var m := ExtMove(s, t, env);
      && m.task.Ext? && m.task.run == t.run && !m.op.CountCalls? && !m.op.AddJob?
      && (RunsJob(m.task).Some? && BeforeClassify(m.task.ext) ==> RunsJob(t).Some? && BeforeClassify(t.ext))
      && (RunsJob(m.task).Some? && BeforeExtract(m.task.ext) ==> RunsJob(t).Some? && BeforeExtract(t.ext))
      && (RunsJob(t).None? ==> m.ending == GoesOn)
  {
  }

  lemma PlainMoveKeepsBudget(s: Shared, t: Task, t': Task, op: Op, ending: Ending)
    requires t.Ext? && TaskWithin(s, t) && !op.CountCalls? && !op.AddJob? && t'.Ext? && t'.run == t.run
    requires ExtractKey(t.run) in s.jobs ==> JobWithin(s.jobs[ExtractKey(t.run)])
    requires RunsJob(t').Some? && BeforeClassify(t'.ext) ==> RunsJob(t).Some? && BeforeClassify(t.ext)
    requires RunsJob(t').Some? && BeforeExtract(t'.ext) ==> RunsJob(t).Some? && BeforeExtract(t.ext)
    requires RunsJob(t).None? ==> ending == GoesOn
    ensures ExtBudgetKept(s, t, t', End(Do(s, op), t, ending))
  {
    assert Do(s, op).jobs == s.jobs;
  }

  lemma ExtBudget(s: Shared, t: Task, env: Env)
    requires t.Ext? && TaskWithin(s, t)
    requires ExtractKey(t.run) in s.jobs ==> JobWithin(s.jobs[ExtractKey(t.run)])
    ensures var m := ExtMove(s, t, env); ExtBudgetKept(s, t, m.task, Effect(s, t, m))
  {
    if t.ext.ExtClassify? || t.ext.ExtCall? {
      ExtAsks(s, t, env);
    } else {
      var m := ExtMove(s, t, env);
      ExtPlainMove(s, t, env);
      PlainMoveKeepsBudget(s, t, m.task, m.op, m.ending);
    }
  }

  lemma PlainBudget(s: Shared, t: Task, env: Env)
    requires !t.Ext? && forall k <- s.jobs :: JobWithin(s.jobs[k])
    ensures var m := MoveOf(s, t, env); var s' := Effect(s, t, m);
      && !m.task.Ext?
      && (forall k <- s'.jobs :: JobWithin(s'.jobs[k]))
      && (forall k <- s.jobs :: SameCalls(s, s', k))
  {
    match t {
      case Hook(_, _, _) => QuietHook(s, t, env);
      case Ocr(_, _, _) => OcrBudget(s, t, env);
      case _ =>
    }
  }

  lemma OcrBudget(s: Shared, t: Task, env: Env)
    requires t.Ocr? && forall k <- s.jobs :: JobWithin(s.jobs[k])
    ensures var m := OcrMove(s, t, env); var s' := Effect(s, t, m);
      && m.task.Ocr?
      && (forall k <- s'.jobs :: JobWithin(s'.jobs[k]))
      && (forall k <- s.jobs :: SameCalls(s, s', k))
  {
  }

  lemma RunBudget(y: System, h: Holder, i: nat, env: Env)
    requires Good(y, h) && i < |y.tasks|
    ensures WithinBudget(Next(y, RunTask(i, env)))
  {
    var s, t := y.shared, y.tasks[i];
    var m := MoveOf(s, t, env);
    var s' := Effect(s, t, m);
    MoveBudget(s, t, env);
    forall u <- y.tasks[i := m.task] ensures TaskWithin(s', u) {
      var j :| 0 <= j < |y.tasks| && u == y.tasks[i := m.task][j];
      if j != i {
        if RunsJob(t).Some? && RunsJob(u).Some? { OthersBudget(y, h, i, j); }
        OtherTaskBudget(s, s', t, u);
      }
    }
  }

  /** What a task's step does to the jobs: only its own job's calls and state may change. */
  ghost predicate OwnJobOnly(s: Shared, s': Shared, t: Task) {
    forall k <- s.jobs :: k in s'.jobs && (SameCalls(s, s', k) || RunsJob(t) == Some(k))
  }

  lemma MoveBudget(s: Shared, t: Task, env: Env)
    requires (forall k <- s.jobs :: JobWithin(s.jobs[k])) && TaskWithin(s, t)
    ensures var m := MoveOf(s, t, env); var s' := Effect(s, t, m);
      && (forall k <- s'.jobs :: JobWithin(s'.jobs[k])) && TaskWithin(s', m.task) && OwnJobOnly(s, s', t)
      && (t.Ext? ==> s'.jobs.Keys == s.jobs.Keys)
  {
    if t.Ext? {
      ExtBudget(s, t, env);
    } else {
      PlainBudget(s, t, env);
    }
  }

  lemma OtherTaskBudget(s: Shared, s': Shared, t: Task, u: Task)
    requires OwnJobOnly(s, s', t) && TaskWithin(s, u)
    requires RunsJob(t).Some? && RunsJob(u).Some? ==> RunsJob(t) != RunsJob(u)
    requires RunsJob(u).Some? ==> RunsJob(u).value in s.jobs
    ensures TaskWithin(s', u)
  {
  }

  /** Two unfinished executions never run the same job. */
  lemma OthersBudget(y: System, h: Holder, i: nat, j: nat)
    requires Held(y, h) && i < |y.tasks| && j < |y.tasks| && i != j
    requires RunsJob(y.tasks[i]).Some? && RunsJob(y.tasks[j]).Some?
    ensures RunsJob(y.tasks[i]) != RunsJob(y.tasks[j])
  {
  }

  /** The queue starts a waiting job: one execution more, and none of its calls made yet. */
  lemma StartedJobBudget(s: Shared, key: JobKey)
    requires key in s.jobs && JobWithin(s.jobs[key]) && s.jobs[key].executions < JOB_ATTEMPTS
    ensures JobWithin(Activate(s, key).jobs[key])
    ensures key.ExtractKey? ==> TaskWithin(Activate(s, key), Ext(key.run, s.jobs[key].tenantId, ExtRead, false))
  {
  }

  lemma StartBudget(y: System, key: JobKey, t: Task)
    requires WithinBudget(y) && Exclusive(y.shared, y.tasks, HeldByJob(key))
    requires key in y.shared.jobs && y.shared.jobs[key].state == Waiting && y.shared.jobs[key].executions < JOB_ATTEMPTS
    requires t == match key case OcrKey(run) => Ocr(run, y.shared.jobs[key].tenantId, OcrRead)
                            case ExtractKey(run) => Ext(run, y.shared.jobs[key].tenantId, ExtRead, false)
    ensures WithinBudget(System(Activate(y.shared, key), y.tasks + [t]))
  {
    var s' := Activate(y.shared, key);
    StartedJobBudget(y.shared, key);
    forall u <- y.tasks + [t] ensures TaskWithin(s', u) {
      if u in y.tasks {
        assert TaskWithin(y.shared, u);
        var i :| 0 <= i < |y.tasks| && y.tasks[i] == u;
        assert RunsJob(y.tasks[i]) != Some(key);
      }
    }
  }

  lemma UnchangedBudget(y: System, a: Action)
    requires WithinBudget(y) && !a.RunTask? && Next(y, a).shared.jobs == y.shared.jobs
    requires forall u <- Next(y, a).tasks :: u in y.tasks || !u.Ext?
    ensures WithinBudget(Next(y, a))
  {
    forall u <- Next(y, a).tasks ensures TaskWithin(Next(y, a).shared, u) {
      if u in y.tasks { assert TaskWithin(y.shared, u); }
    }
  }

  lemma OtherBudget(y: System, h: Holder, a: Action)
    requires WithinBudget(y) && Held(y, h) && Permitted(y, a) && !a.RunTask?
    ensures WithinBudget(Next(y, a))
  {
    var s := y.shared;
    if a.StartOcr? && OcrKey(a.run) in s.jobs {
      assert h == HeldByJob(OcrKey(a.run));
      StartBudget(y, OcrKey(a.run), Ocr(a.run, s.jobs[OcrKey(a.run)].tenantId, OcrRead));
    } else if a.StartExtraction? && ExtractKey(a.run) in s.jobs {
      assert h == HeldByJob(ExtractKey(a.run));
      StartBudget(y, ExtractKey(a.run), Ext(a.run, s.jobs[ExtractKey(a.run)].tenantId, ExtRead, false));
    } else {
      OtherStep(y, a);
      UnchangedBudget(y, a);
    }
  }

  // ----- every permitted run

  lemma StepGood(y: System, h: Holder, a: Action)
    requires Good(y, h) && Permitted(y, a)
    ensures Good(Next(y, a), NextHolder(y, h, a))
  {
    StepOk(y, a);
    StepHeld(y, h, a);
    ApprovalsKept(y, h, a);
    if a.RunTask? {
      if a.i < |y.tasks| { RunBudget(y, h, a.i, a.env); }
    } else {
      OtherBudget(y, h, a);
    }
  }

  function HolderAfter(y: System, h: Holder, actions: seq<Action>): Holder {
    if actions == [] then h
    else
      var before := actions[..|actions| - 1];
      NextHolder(Run(y, before), HolderAfter(y, h, before), actions[|actions| - 1])
  }

  lemma {:induction false} AlwaysGood(y: System, h: Holder, actions: seq<Action>)
    requires Good(y, h) && PermittedRun(y, actions)
    ensures Good(Run(y, actions), HolderAfter(y, h, actions))
  {
    if actions != [] {
      var before := actions[..|actions| - 1];
      AlwaysGood(y, h, before);
      StepGood(Run(y, before), HolderAfter(y, h, before), actions[|actions| - 1]);
    }
  }

  ghost predicate PermittedlyReachable(y: System) {
    exists id, tenantId, uploadedBy, fileName, actions ::
          PermittedlyReachedBy(y, id, tenantId, uploadedBy, fileName, actions)
  }

  ghost predicate PermittedlyReachedBy(
      y: System, id: string, tenantId: string, uploadedBy: string, fileName: string, actions: seq<Action>) {
    var y0 := Start(id, tenantId, uploadedBy, fileName);
    PermittedRun(y0, actions) && y == Run(y0, actions)
  }

  lemma ReachableIsGood(y: System) returns (h: Holder)
    requires PermittedlyReachable(y)
    ensures Good(y, h)
  {
    var id, tenantId, uploadedBy, fileName, actions :|
      PermittedlyReachedBy(y, id, tenantId, uploadedBy, fileName, actions);
    var y0 := Start(id, tenantId, uploadedBy, fileName);
    StartIsGood(id, tenantId, uploadedBy, fileName);
    AlwaysGood(y0, HeldByTask(0), actions);
    h := HolderAfter(y0, HeldByTask(0), actions);
  }

  // ----- theorems

  /** One writer: at most one request, execution or waiting job can still write the document's status, and
      whatever any other task does leaves the document's rows and its extraction as they are. */
  lemma OneWriter(y: System)
    requires PermittedlyReachable(y)
    ensures forall i, j :: 0 <= i < j < |y.tasks| && Live(y.tasks[i]) ==> !Live(y.tasks[j])
    ensures forall k <- y.shared.jobs :: y.shared.jobs[k].state == Waiting ==>
              && (forall k' <- y.shared.jobs :: y.shared.jobs[k'].state == Waiting ==> k' == k)
              && (forall i :: 0 <= i < |y.tasks| ==> !Live(y.tasks[i]))
    ensures forall i, env :: 0 <= i < |y.tasks| && !Live(y.tasks[i]) && Permitted(y, RunTask(i, env)) ==>
              Untouched(y.shared, Next(y, RunTask(i, env)).shared)
  {
    var h := ReachableIsGood(y);
    forall i, env | 0 <= i < |y.tasks| && !Live(y.tasks[i]) && Permitted(y, RunTask(i, env))
      ensures Untouched(y.shared, Next(y, RunTask(i, env)).shared)
    {
      QuietMove(y.shared, y.tasks[i], env);
    }
  }

  /** Approval is final: no permitted continuation changes the approved document or its extraction. */
  lemma {:induction false} ApprovedIsFinal(y: System, h: Holder, actions: seq<Action>)
    requires Good(y, h) && PermittedRun(y, actions) && y.shared.tables.row.status == Approved
    ensures Run(y, actions).shared.tables.row == y.shared.tables.row
    ensures Run(y, actions).shared.tables.extraction == y.shared.tables.extraction
  {
    if actions != [] {
      var before := actions[..|actions| - 1];
      ApprovedIsFinal(y, h, before);
      AlwaysGood(y, h, before);
      ApprovedIsFrozen(Run(y, before), HolderAfter(y, h, before), actions[|actions| - 1]);
    }
  }

  /** The same, for documents that a permitted run from the upload has reached. */
  lemma ApprovalStands(y: System, actions: seq<Action>)
    requires PermittedlyReachable(y) && PermittedRun(y, actions) && y.shared.tables.row.status == Approved
    ensures Run(y, actions).shared.tables.row == y.shared.tables.row
    ensures Run(y, actions).shared.tables.extraction == y.shared.tables.extraction
  {
    var h := ReachableIsGood(y);
    ApprovedIsFinal(y, h, actions);
  }

  /** A rejected document is left only by a successful reprocess, and then starts over as uploaded. */
  lemma RejectionIsLeftByReprocess(y: System, a: Action)
    requires PermittedlyReachable(y) && Permitted(y, a) && y.shared.tables.row.status == Rejected
    ensures Next(y, a).shared.tables.row.status != Rejected <==>
              a.ReprocessAction? && a.tenantId == y.shared.tables.row.tenantId
    ensures Next(y, a).shared.tables.row.status == Rejected || Next(y, a).shared.tables.row.status == Uploaded
  {
    var h := ReachableIsGood(y);
    RejectedMoves(y, h, a);
  }

  lemma RejectedMoves(y: System, h: Holder, a: Action)
    requires Held(y, h) && Permitted(y, a) && y.shared.tables.row.status == Rejected
    ensures var status := Next(y, a).shared.tables.row.status;
      if a.ReprocessAction? && a.tenantId == y.shared.tables.row.tenantId
      then status == Uploaded else status == Rejected
  {
    assert h == Nobody;
    if a.RunTask? && a.i < |y.tasks| {
      QuietMove(y.shared, y.tasks[a.i], a.env);
    }
  }

  /** Auto-approval agrees with what is stored, for good: every auto_approved row of every reachable document
      is borne out by the extraction the table holds now. */
  lemma AutoApprovalIsBornOut(y: System, row: AuditRow)
    requires PermittedlyReachable(y) && row in y.shared.tables.log && row.event == AutoApprovedEvent
    ensures BornOut(y.shared.tables, row.payload)
  {
    var h := ReachableIsGood(y);
  }

  predicate StoredOrRefused(y: System, i: nat, invoice: InvoiceExtraction, isDate: string -> bool) {
    && i < |y.tasks| && y.tasks[i].Ext?
    && if Storable(invoice, isDate)
       then y.shared.tables.extraction == Some(Persist(invoice)) && y.tasks[i].ext.ExtPublish?
       else y.shared.tables.extraction.None? && y.tasks[i].ext == ExtFail
  }

  /** The extraction that an execution decides on is the one it stores: its insert never meets another row. An
      invoice that the database refuses is not stored, and the execution goes to its catch block. */
  lemma DecidingInsertTakesEffect(y: System, i: nat, env: Env)
    requires PermittedlyReachable(y) && i < |y.tasks| && y.tasks[i].Ext? && y.tasks[i].ext.ExtInsert?
    requires Permitted(y, RunTask(i, env))
    ensures y.shared.tables.extraction.None?
    ensures StoredOrRefused(Next(y, RunTask(i, env)), i, y.tasks[i].ext.invoice, env.isDate)
  {
    var h := ReachableIsGood(y);
    assert Live(y.tasks[i]);
    assert TaskPhase(y.shared, y.tasks[i]);
    InsertStores(y.shared, y.tasks[i], env);
  }

  lemma InsertStores(s: Shared, t: Task, env: Env)
    requires t.Ext? && t.ext.ExtInsert? && s.tables.extraction.None? && env.fault == NoFault
    ensures var m := MoveOf(s, t, env);
            if Storable(t.ext.invoice, env.isDate)
            then Effect(s, t, m).tables.extraction == Some(Persist(t.ext.invoice)) && m.task == t.(ext := m.task.ext)
                 && m.task.ext.ExtPublish?
            else Effect(s, t, m).tables.extraction.None? && m.task == t.(ext := ExtFail)
  {
  }

  /** Shape by status. */
  lemma ShapeByStatus(y: System)
    requires PermittedlyReachable(y)
    ensures var row := y.shared.tables.row; var e := y.shared.tables.extraction;
      && (row.status == Uploaded ==> e.None? && row.rawText.None? && row.docType.None?)
      && (row.status in {PendingReview, Approved, Rejected} ==>
            row.docType.Some? && (e.Some? || row.docType == Some(UnknownType)))
  {
    var h := ReachableIsGood(y);
    PhaseShape(y.shared, y.tasks, h);
  }

  lemma PhaseShape(s: Shared, tasks: seq<Task>, h: Holder)
    requires Phase(s, tasks, h)
    ensures var row := s.tables.row; var e := s.tables.extraction;
      && (row.status == Uploaded ==> e.None? && row.rawText.None? && row.docType.None?)
      && (row.status in {PendingReview, Approved, Rejected} ==>
            row.docType.Some? && (e.Some? || row.docType == Some(UnknownType)))
  {
  }

  /** A duplicate delivery of a finished extraction job: while the document, extracted, waits for a reviewer or
      is approved, it touches nothing but the queue, and afterwards no step of that execution does anything,
      whatever has happened by then. */
  lemma RedeliveryIsNoOp(y: System, run: string, env: Env)
    requires PermittedlyReachable(y) && ExtractKey(run) in y.shared.jobs
    requires y.shared.tables.row.status in {PendingReview, Approved}
    requires y.shared.tables.row.docType != Some(UnknownType)
    ensures var y' := Next(Next(y, StartExtraction(run)), RunTask(|y.tasks|, env));
      && y'.shared.(jobs := y.shared.jobs) == y.shared
      && |y'.tasks| == |y.tasks| + 1 && y'.tasks[..|y.tasks|] == y.tasks
      && var t := y'.tasks[|y.tasks|];
      && t.Ext? && t.ext == (if env.fault == NoFault then ExtReturned else ExtThrew)
      && forall s: Shared, e: Env :: MoveOf(s, t, e) == Move(NoOp, t, GoesOn) && Effect(s, t, MoveOf(s, t, e)) == s
  {
    ShapeByStatus(y);
    SkipsProcessed(y, run, env);
    EndedStaysPut(Next(Next(y, StartExtraction(run)), RunTask(|y.tasks|, env)).tasks[|y.tasks|]);
  }

  lemma EndedStaysPut(t: Task)
    requires t.Ext? && (t.ext == ExtReturned || t.ext == ExtThrew)
    ensures forall s: Shared, e: Env :: MoveOf(s, t, e) == Move(NoOp, t, GoesOn) && Effect(s, t, MoveOf(s, t, e)) == s
  {
  }

  lemma SkipsProcessed(y: System, run: string, env: Env)
    requires AlreadyProcessed(y.shared.tables) && ExtractKey(run) in y.shared.jobs
    ensures var y' := Next(Next(y, StartExtraction(run)), RunTask(|y.tasks|, env));
      && y'.shared.(jobs := y.shared.jobs) == y.shared
      && |y'.tasks| == |y.tasks| + 1 && y'.tasks[..|y.tasks|] == y.tasks
      && y'.tasks[|y.tasks|].Ext?
      && y'.tasks[|y.tasks|].ext == (if env.fault == NoFault then ExtReturned else ExtThrew)
  {
  }

  /** Provider budget: at most nine classification and nine extraction calls for one extraction job, over all
      of its executions. */
  lemma ProviderBudget(y: System, run: string)
    requires PermittedlyReachable(y) && ExtractKey(run) in y.shared.jobs
    ensures var j := y.shared.jobs[ExtractKey(run)]; j.executions <= 3 && j.classifyCalls <= 9 && j.extractCalls <= 9
  {
    var h := ReachableIsGood(y);
    assert JobWithin(y.shared.jobs[ExtractKey(run)]);
  }

  /** Number of calls that an answer costs, if there is a key. */
  function CallsUntil<T>(config: Providers.Config, answers: Providers.Answers<T>): nat {
    if !config.hasApiKey then 0 else if answers(1).Some? then 1 else if answers(2).Some? then 2 else 3
  }

  /** The counts that the budget bounds are those of the calls made: each ask adds its own. */
  lemma CallsAreCounted(s: Shared, t: Task, env: Env)
    requires t.Ext? && ExtractKey(t.run) in s.jobs && (t.ext.ExtClassify? || t.ext.ExtCall?)
    ensures var j := s.jobs[ExtractKey(t.run)]; var s' := Effect(s, t, MoveOf(s, t, env));
      && ExtractKey(t.run) in s'.jobs
      && var j' := s'.jobs[ExtractKey(t.run)];
      && j'.classifyCalls == j.classifyCalls + (if t.ext.ExtClassify? then CallsUntil(env.config, env.classify) else 0)
      && j'.extractCalls == j.extractCalls + (if t.ext.ExtCall? then CallsUntil(env.config, env.extract) else 0)
  {
    Providers.AskMeans(env.config, Invoice, env.classify);
    Providers.AskMeans(env.config, env.mockInvoice, env.extract);
  }
}
