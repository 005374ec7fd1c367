/** What the code does not guarantee, shown on runs that start with an upload. */
module Counterexamples {
  import opened Wrappers
  import opened DecisionEngine
  import opened Schema
  import opened Transactions
  import opened Pipeline
  import opened Undisturbed
  import opened WebhookBudget
  import opened WebhookTermination
  import opened AnyFault
  import AnyFaultTheorems
  import ProviderFaultTheorems
  import Termination

  /** Approval is not final: every upload whose invoice deserves approval is approved by some run and then
      taken back to ocr_processing by redelivering its OCR job. */
  lemma ApprovalIsUndone(id: string, tenantId: string, uploadedBy: string, fileName: string, env: Env)
    returns (actions: seq<Action>, redelivery: seq<Action>)
    requires env.fault == NoFault && Deserves(env)
    ensures var y := Run(Start(id, tenantId, uploadedBy, fileName), actions);
      && y.shared.tables.row.status == Approved
      && Run(y, redelivery).shared.tables.row.status == OcrProcessing
  {
    var y;
    y, actions := ApprovalIsReached(id, tenantId, uploadedBy, fileName, env);
    var run := AnyFaultTheorems.ApprovalIsNeverFinal(y, env);
    redelivery := [StartOcr(run), RunTask(|y.tasks|, env), RunTask(|y.tasks|, env)];
  }

  /** Nothing of webhook delivery has happened yet. */
  predicate NoHookYet(y: System) {
    && y.shared.deliveries == [] && y.shared.sent == []
    && (forall t <- y.tasks :: !t.Hook?)
    && (forall w <- y.shared.webhooks :: w.executions == 0 && w.state == Waiting)
  }

  lemma NoHookStep(y: System, a: Action, env: Env)
    requires NoHookYet(y) && Termination.Leaves(a, env)
    ensures NoHookYet(Next(y, a))
  {
    if a.RunTask? {
      if a.i < |y.tasks| {
        OthersMayOnlyAdd(y.shared, y.tasks[a.i], a.env);
        SendsNothing(y.shared, y.tasks[a.i], a.env);
      }
    }
  }

  lemma SendsNothing(s: Shared, t: Task, env: Env)
    requires !t.Hook?
    ensures Effect(s, t, MoveOf(s, t, env)).sent == s.sent
  {
    if t.Ext? {
      assert !ExtMove(s, t, env).op.Send?;
    }
  }

  lemma {:induction false} StillNoHook(y: System, actions: seq<Action>, env: Env)
    requires NoHookYet(y) && AllLeave(actions, env)
    ensures NoHookYet(Run(y, actions))
  {
    if actions != [] {
      StillNoHook(y, actions[..|actions| - 1], env);
      NoHookStep(Run(y, actions[..|actions| - 1]), actions[|actions| - 1], env);
    }
  }

  /** A publication can go unreported: an approved document's only webhook job uses up its three executions
      when each throws before it has inserted a row, and nothing is ever sent. */
  lemma PublicationIsLost(id: string, tenantId: string, uploadedBy: string, fileName: string, env: Env, fault: Env)
    returns (actions: seq<Action>, executions: seq<Action>)
    requires env.fault == NoFault && Deserves(env) && HasUrl(env.tenant) && fault.fault != NoFault
    ensures var y := Run(Start(id, tenantId, uploadedBy, fileName), actions); var y' := Run(y, executions);
      && y.shared.tables.row.status == Approved && Follows(Queued, y, executions)
      && |y'.shared.webhooks| == 1 && y'.shared.webhooks[0].state == Exhausted
      && y'.shared.deliveries == [] && y'.shared.sent == []
  {
    var y;
    y, actions := ApprovalIsReached(id, tenantId, uploadedBy, fileName, env);
    StillNoHook(Start(id, tenantId, uploadedBy, fileName), actions, env);
    assert y.shared.webhooks[0] in y.shared.webhooks;
    executions := ThreeThrowsExhaust(y, 0, fault);
  }

  // ----- a decision on an extraction that is not the stored one

  /** An execution that decides on the answer of env while another extraction is stored. */
  predicate Overtakes(s: Shared, t: Task, env: Env, stored: ExtractionRow)
    requires Stores(env)
  {
    && s.tables.extraction == Some(stored) && t.Ext?
    && match t.ext
       case ExtRead => t.tenantId == s.tables.row.tenantId && !AlreadyProcessed(s.tables)
           && !IsBlank(s.tables.row.rawText)
       case ExtTenant => true
       case ExtMark(tenant) => tenant == env.tenant
       case ExtClassify(tenant) => tenant == env.tenant
       case ExtType(tenant, _) => tenant == env.tenant
       case ExtCall(tenant) => tenant == env.tenant
       case ExtInsert(tenant, invoice) => tenant == env.tenant && Some(invoice) == ExtractedAs(env)
       case ExtPublish(tenant, _, verdict) => tenant == env.tenant && verdict == Verdict(env)
       case ExtLog(tenant, _, verdict) => tenant == env.tenant && verdict == Verdict(env)
           && s.tables.row.status == Approved
       case ExtLogDecision(tenant, _, verdict) =>
         tenant == env.tenant && verdict == Verdict(env) && s.tables.row.status == Approved
       case ExtNotify => s.tables.row.status == Approved && Approval(env) in s.tables.log
       case ExtReturned => s.tables.row.status == Approved && Approval(env) in s.tables.log
       case _ => false
  }

  function Approval(env: Env): AuditRow
    requires Stores(env)
  {
    VerdictRow(Threshold(env.tenant), Verdict(env))
  }

  ghost predicate OvertakesOn(s: Shared, t: Task, env: Env, stored: ExtractionRow)
    requires Stores(env) && t.Ext?
  {
    var m := ExtMove(s, t, env);
    m.task.Ext? && Overtakes(Effect(s, t, m), m.task, env, stored)
    && Termination.ExtRank(m.task.ext) < Termination.ExtRank(t.ext)
  }

  lemma OvertakingStepsEarly(s: Shared, t: Task, env: Env, stored: ExtractionRow)
    requires Deserves(env) && Overtakes(s, t, env, stored) && env.fault == NoFault && BeforePublish(t.ext)
    ensures OvertakesOn(s, t, env, stored)
  {
    VerdictDecides(env);
    DeservingIsApproved(env);
  }

  lemma OvertakingStepsLate(s: Shared, t: Task, env: Env, stored: ExtractionRow)
    requires Deserves(env) && Overtakes(s, t, env, stored) && env.fault == NoFault && !BeforePublish(t.ext)
    requires t.ext != ExtReturned
    ensures OvertakesOn(s, t, env, stored)
  {
    VerdictDecides(env);
    DeservingIsApproved(env);
  }

  lemma OvertakingGoesOn(s: Shared, t: Task, env: Env, stored: ExtractionRow)
    requires Deserves(env) && Overtakes(s, t, env, stored) && env.fault == NoFault && t.ext != ExtReturned
    ensures OvertakesOn(s, t, env, stored)
  {
    if BeforePublish(t.ext) { OvertakingStepsEarly(s, t, env, stored); }
        else { OvertakingStepsLate(s, t, env, stored); }
  }

  /** Left alone, that execution approves, logs the approval and leaves the other extraction stored. */
  lemma OvertakingApproves(y: System, i: nat, env: Env, stored: ExtractionRow) returns (actions: seq<Action>)
    requires Deserves(env) && env.fault == NoFault && i < |y.tasks| && Overtakes(y.shared, y.tasks[i], env, stored)
    ensures var t := Run(y, actions).shared.tables;
      && t.row.status == Approved && t.extraction == Some(stored) && Approval(env) in t.log
  {
    actions := [];
    while Run(y, actions).tasks[i].ext != ExtReturned
      invariant i < |Run(y, actions).tasks| && Overtakes(Run(y, actions).shared, Run(y, actions).tasks[i], env, stored)
      decreases Termination.ExtRank(Run(y, actions).tasks[i].ext)
    {
      var now := Run(y, actions);
      OvertakingGoesOn(now.shared, now.tasks[i], env, stored);
      RunSnoc(y, actions, RunTask(i, env));
      actions := actions + [RunTask(i, env)];
    }
  }

  /** A redelivered extraction job of a document that is extracted and no longer published. */
  lemma OvertakingStarts(y: System, env: Env, stored: ExtractionRow)
    requires AnyFaultTheorems.Reachable(y) && Deserves(env) && FIRST_EXTRACTION in y.shared.jobs
    requires y.shared.tables.extraction == Some(stored) && y.shared.tables.row.status == OcrProcessing
    requires !IsBlank(y.shared.tables.row.rawText)
    ensures var y' := Next(y, StartExtraction("initial"));
            |y'.tasks| == |y.tasks| + 1 && Overtakes(y'.shared, y'.tasks[|y.tasks|], env, stored)
  {
    AnyFaultTheorems.JobsNameTheOwner(y);
  }

  /** Without F an auto_approved row need not be borne out: two answers of the model that both deserve approval
      and differ in their sum, one stored, the other decided on. */
  lemma ApprovalNotBornOut(id: string, tenantId: string, uploadedBy: string, fileName: string, first: Env, second: Env)
    returns (y: System)
    requires first.fault == NoFault && Deserves(first) && second.fault == NoFault && Deserves(second)
    requires Sum(ExtractedAs(first).value.lineItems) != Sum(ExtractedAs(second).value.lineItems)
    ensures AnyFaultTheorems.Reachable(y) && y.shared.tables.row.status == Approved
    ensures y.shared.tables.extraction == Some(Persist(ExtractedAs(first).value))
    ensures Approval(second) in y.shared.tables.log && Approval(second).event == AutoApprovedEvent
    ensures !ProviderFaultTheorems.BornOut(y.shared.tables, Approval(second).payload)
  {
    var y1, actions := ApprovalIsReached(id, tenantId, uploadedBy, fileName, first);
    var run := AnyFaultTheorems.ApprovalIsNeverFinal(y1, first);
    var redelivery := [StartOcr(run), RunTask(|y1.tasks|, first), RunTask(|y1.tasks|, first)];
    var y2 := Run(y1, redelivery);
    RunsCompose(y1, redelivery);
    OvertakingStarts(y2, second, Persist(ExtractedAs(first).value));
    var y3 := Next(y2, StartExtraction("initial"));
    RunSnoc(y2, [], StartExtraction("initial"));
    RunsCompose(y2, [] + [StartExtraction("initial")]);
    var last := OvertakingApproves(y3, |y2.tasks|, second, Persist(ExtractedAs(first).value));
    RunsCompose(y3, last);
    y := Run(y3, last);
    DeservingIsApproved(second);
  }

  lemma {:induction false} RunAppend(y: System, first: seq<Action>, second: seq<Action>)
    ensures Run(y, first + second) == Run(Run(y, first), second)
  {
    if second == [] {
      assert first + second == first;
    } else {
      var n := |second| - 1;
      assert first + second == first + second[..n] + [second[n]];
      RunSnoc(y, first + second[..n], second[n]);
      RunAppend(y, first, second[..n]);
    }
  }

  /** Every run from a reachable state ends in one. */
  lemma RunsCompose(y: System, actions: seq<Action>)
    requires AnyFaultTheorems.Reachable(y)
    ensures AnyFaultTheorems.Reachable(Run(y, actions))
  {
    var id, tenantId, uploadedBy, fileName, before :|
      AnyFaultTheorems.ReachedBy(y, id, tenantId, uploadedBy, fileName, before);
    RunAppend(Start(id, tenantId, uploadedBy, fileName), before, actions);
    assert AnyFaultTheorems.ReachedBy(Run(y, actions), id, tenantId, uploadedBy, fileName, before + actions);
  }

  function Step(st: (Shared, Task), env: Env): (Shared, Task) {
    var m := MoveOf(st.0, st.1, env);
    (Effect(st.0, st.1, m), m.task)
  }

  lemma InsertStep(s: Shared, t: Task, env: Env)
    requires t.Ext? && t.ext.ExtInsert? && env.fault == NoFault && Storable(t.ext.invoice, env.isDate)
    ensures var (s', t') := Step((s, t), env); var tenant, invoice := t.ext.tenant, t.ext.invoice;
      && s'.tables == InsertExtraction(s.tables, Persist(invoice))
      && t' == t.(ext := ExtPublish(tenant, invoice, Evaluate(invoice, Threshold(tenant))))
  {
  }

  lemma PublishStep(s: Shared, t: Task, env: Env)
    requires t.Ext? && t.ext.ExtPublish? && t.ext.verdict.decision == AutoApprove && env.fault == NoFault
    ensures var (s', t') := Step((s, t), env);
      && s'.tables == SetStatus(s.tables, Approved)
      && t'.Ext? && t'.ext == ExtLog(t.ext.tenant, t.ext.invoice, t.ext.verdict)
  {
  }

  lemma LogStep(s: Shared, t: Task, env: Env)
    requires t.Ext? && t.ext.ExtLog? && env.fault == NoFault
    ensures var (s', t') := Step((s, t), env);
      && s'.tables == Log(s.tables, ScoreRow(PublishedStatus(t.ext.verdict), t.ext.verdict))
      && t'.Ext? && t'.ext == ExtLogDecision(t.ext.tenant, t.ext.invoice, t.ext.verdict)
  {
  }

  lemma DecisionStep(s: Shared, t: Task, env: Env)
    requires t.Ext? && t.ext.ExtLogDecision? && env.fault == NoFault
    ensures Step((s, t), env).0.tables == Log(s.tables, DecisionRow(t.ext.tenant, t.ext.verdict))
  {
  }

  /** The four steps from the insert to the decision row. */
  function AfterDecision(s: Shared, t: Task, env: Env): Tables {
    Step(Step(Step(Step((s, t), env), env), env), env).0.tables
  }

  lemma DecidedSteps(s: Shared, t: Task, env: Env)
    requires t.Ext? && t.ext.ExtInsert? && env.fault == NoFault && Storable(t.ext.invoice, env.isDate)
    requires Evaluate(t.ext.invoice, Threshold(t.ext.tenant)).decision == AutoApprove
    ensures var verdict := Evaluate(t.ext.invoice, Threshold(t.ext.tenant));
            AfterDecision(s, t, env)
            == Log(Log(SetStatus(InsertExtraction(s.tables, Persist(t.ext.invoice)), Approved),
                       ScoreRow(PublishedStatus(verdict), verdict)),
                   DecisionRow(t.ext.tenant, verdict))
  {
    var st1 := Step((s, t), env);
    InsertStep(s, t, env);
    var st2 := Step(st1, env);
    PublishStep(st1.0, st1.1, env);
    var st3 := Step(st2, env);
    LogStep(st2.0, st2.1, env);
    DecisionStep(st3.0, st3.1, env);
  }

  /** Exactly when: an undisturbed approval leaves stored what it decided on, and is then borne out, if and only
      if its insert met no extraction or one equal to its own. */
  lemma BornOutIff(s: Shared, t: Task, env: Env)
    requires t.Ext? && t.ext.ExtInsert? && env.fault == NoFault && Storable(t.ext.invoice, env.isDate)
    requires Abs(Sum(t.ext.invoice.lineItems) - t.ext.invoice.subtotal) <= 0.01
    requires Suffice(t.ext.invoice.confidence, t.ext.tenant)
    ensures var own := Some(Persist(t.ext.invoice)); var after := AfterDecision(s, t, env);
      && (after.extraction == own <==> s.tables.extraction.None? || s.tables.extraction == own)
      && after.row.status == Approved && |after.log| == |s.tables.log| + 2
      && after.log[|s.tables.log| + 1].event == AutoApprovedEvent
      && NamesThreshold(after.log[|s.tables.log| + 1].payload, t.ext.tenant)
      && (after.extraction == own ==> ProviderFaultTheorems.BornOut(after, after.log[|s.tables.log| + 1].payload))
  {
    AutoApproveMeans(t.ext.invoice, Threshold(t.ext.tenant));
    DecidedSteps(s, t, env);
    ApprovedSumMatchesStoredSubtotal(t.ext.invoice, Threshold(t.ext.tenant));
  }
}
