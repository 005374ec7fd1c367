/** Where the values come from that approvals and payloads carry, over whole runs with any faults: the threshold
    of every auto_approved row was read by the execution that wrote the row, and what a payload says of the
    document was once true of it, all at the same time. */
module Provenance {
  import opened Wrappers
  import opened DecisionEngine
  import opened Schema
  import opened Transactions
  import opened Pipeline
  import opened AnyFault
  import opened WebhookBudget
  import opened Undisturbed
  import AnyFaultTheorems

  /** At its k-th step the run moves task i, which stands where an extraction execution reads its tenant, and the
      database answers with this row. */
  ghost predicate ReadsAt(y: System, actions: seq<Action>, k: nat, i: nat, tenant: Option<TenantRow>) {
    && k < |actions| && actions[k].RunTask? && actions[k].i == i && actions[k].env.tenant == tenant
        && actions[k].env.fault == NoFault
    && i < |Run(y, actions[..k]).tasks|
    && Run(y, actions[..k]).tasks[i].Ext? && Run(y, actions[..k]).tasks[i].ext == ExtTenant
  }

  ghost predicate HasRead(y: System, actions: seq<Action>, i: nat, tenant: Option<TenantRow>) {
    exists k: nat :: ReadsAt(y, actions, k, i, tenant)
  }

  /** At its k-th step the run moves task i and thereby appends the row. */
  ghost predicate AppendsAt(y: System, actions: seq<Action>, k: nat, i: nat, r: AuditRow) {
    && k < |actions| && actions[k].RunTask? && actions[k].i == i
    && Run(y, actions[..k + 1]).shared.tables.log == Run(y, actions[..k]).shared.tables.log + [r]
  }

  /** One execution read the tenant, and later wrote the row with the threshold it had read. */
  ghost predicate Justified(y: System, actions: seq<Action>, r: AuditRow) {
    exists i: nat, j: nat, k: nat, tenant ::
      j < k && ReadsAt(y, actions, j, i, tenant) && AppendsAt(y, actions, k, i, r) && NamesThreshold(r.payload, tenant)
  }

  function TenantOf(pc: ExtPc): Option<Option<TenantRow>> {
    match pc
    case ExtMark(tenant) => Some(tenant)
    case ExtClassify(tenant) => Some(tenant)
    case ExtType(tenant, _) => Some(tenant)
    case ExtCall(tenant) => Some(tenant)
    case ExtInsert(tenant, _) => Some(tenant)
    case ExtPublish(tenant, _, _) => Some(tenant)
    case ExtLog(tenant, _, _) => Some(tenant)
    case ExtLogDecision(tenant, _, _) => Some(tenant)
    case _ => None
  }

  ghost predicate ThresholdsOk(y: System, actions: seq<Action>) {
    var now := Run(y, actions);
    && (forall i: nat :: i < |now.tasks| ==> TenantWasRead(y, actions, i, now.tasks[i]))
    && (forall r <- now.shared.tables.log :: r.event == AutoApprovedEvent ==> Justified(y, actions, r))
  }

  ghost predicate TenantWasRead(y: System, actions: seq<Action>, i: nat, t: Task) {
    t.Ext? && TenantOf(t.ext).Some? ==> HasRead(y, actions, i, TenantOf(t.ext).value)
  }

  lemma ReadsOn(y: System, actions: seq<Action>, a: Action, i: nat, tenant: Option<TenantRow>)
    requires HasRead(y, actions, i, tenant)
    ensures HasRead(y, actions + [a], i, tenant)
  {
    var k: nat :| ReadsAt(y, actions, k, i, tenant);
    assert (actions + [a])[..k] == actions[..k];
    assert ReadsAt(y, actions + [a], k, i, tenant);
  }

  lemma JustifiedOn(y: System, actions: seq<Action>, a: Action, r: AuditRow)
    requires Justified(y, actions, r)
    ensures Justified(y, actions + [a], r)
  {
    var i: nat, j: nat, k: nat, tenant :|
      j < k && ReadsAt(y, actions, j, i, tenant) && AppendsAt(y, actions, k, i, r) && NamesThreshold(r.payload, tenant);
    assert (actions + [a])[..j] == actions[..j] && (actions + [a])[..k] == actions[..k];
    assert (actions + [a])[..k + 1] == actions[..k + 1];
    assert ReadsAt(y, actions + [a], j, i, tenant) && AppendsAt(y, actions + [a], k, i, r);
  }

  /** What a step does to the tenant a task carries, and whose step appends an auto_approved row. */
  ghost predicate CarriesOn(s: Shared, t: Task, env: Env) {
    var m := MoveOf(s, t, env);
    && (m.task.Ext? <==> t.Ext?)
    && (t.Ext? && TenantOf(m.task.ext).Some? ==>
          if t.ext == ExtTenant then TenantOf(m.task.ext) == Some(env.tenant) && env.fault == NoFault
          else TenantOf(m.task.ext) == TenantOf(t.ext))
    && (m.op.AppendRow? && m.op.row.event == AutoApprovedEvent ==>
          t.Ext? && t.ext.ExtLogDecision? && NamesThreshold(m.op.row.payload, t.ext.tenant))
  }

  lemma CarriesTenant(s: Shared, t: Task, env: Env)
    ensures CarriesOn(s, t, env)
  {
    match t {
      case Ext(_, _, pc, _) => if BeforePublish(pc) { EarlyCarries(s, t, env); } else { LateCarries(s, t, env); }
      case _ =>
    }
  }

  lemma EarlyCarries(s: Shared, t: Task, env: Env)
    requires t.Ext? && BeforePublish(t.ext)
    ensures CarriesOn(s, t, env)
  {
  }

  lemma LateCarries(s: Shared, t: Task, env: Env)
    requires t.Ext? && !BeforePublish(t.ext)
    ensures CarriesOn(s, t, env)
  {
  }

  lemma ReadsNow(y: System, actions: seq<Action>, i: nat, env: Env)
    requires i < |Run(y, actions).tasks| && Run(y, actions).tasks[i].Ext? && Run(y, actions).tasks[i].ext == ExtTenant
    requires env.fault == NoFault
    ensures HasRead(y, actions + [RunTask(i, env)], i, env.tenant)
  {
    assert (actions + [RunTask(i, env)])[..|actions|] == actions;
    assert ReadsAt(y, actions + [RunTask(i, env)], |actions|, i, env.tenant);
  }

  lemma AppendsLast(y: System, actions: seq<Action>, i: nat, env: Env, r: AuditRow)
    requires Next(Run(y, actions), RunTask(i, env)).shared.tables.log == Run(y, actions).shared.tables.log + [r]
    ensures AppendsAt(y, actions + [RunTask(i, env)], |actions|, i, r)
  {
    var longer := actions + [RunTask(i, env)];
    RunSnoc(y, actions, RunTask(i, env));
    assert longer[..|actions|] == actions && longer[..|actions| + 1] == longer;
  }

  lemma AppendsNow(y: System, actions: seq<Action>, i: nat, env: Env, tenant: Option<TenantRow>, r: AuditRow)
    requires HasRead(y, actions, i, tenant) && NamesThreshold(r.payload, tenant)
    requires Next(Run(y, actions), RunTask(i, env)).shared.tables.log == Run(y, actions).shared.tables.log + [r]
    ensures Justified(y, actions + [RunTask(i, env)], r)
  {
    var longer := actions + [RunTask(i, env)];
    AppendsLast(y, actions, i, env, r);
    var j: nat :| ReadsAt(y, actions, j, i, tenant);
    assert longer[..j] == actions[..j];
    assert ReadsAt(y, longer, j, i, tenant);
  }

  lemma EndKeepsRows(s: Shared, t: Task, ending: Ending)
    ensures End(s, t, ending).tables == s.tables && End(s, t, ending).sent == s.sent
  {
  }

  lemma DoAppends(s: Shared, op: Op)
    ensures Do(s, op).tables.log == if op.AppendRow? then s.tables.log + [op.row] else s.tables.log
    ensures Do(s, op).sent == if op.Send? then s.sent + [op.message] else s.sent
  {
  }

  lemma LogAfter(s: Shared, t: Task, env: Env)
    ensures var m := MoveOf(s, t, env);
            Effect(s, t, m).tables.log == if m.op.AppendRow? then s.tables.log + [m.op.row] else s.tables.log
  {
    var m := MoveOf(s, t, env);
    DoAppends(s, m.op);
    EndKeepsRows(Do(s, m.op), t, m.ending);
  }

  lemma RunThresholds(y: System, actions: seq<Action>, i: nat, env: Env)
    requires ThresholdsOk(y, actions) && i < |Run(y, actions).tasks|
    ensures ThresholdsOk(y, actions + [RunTask(i, env)])
  {
    var now, a := Run(y, actions), RunTask(i, env);
    var t, m := now.tasks[i], MoveOf(now.shared, now.tasks[i], env);
    var next := Next(now, a);
    RunSnoc(y, actions, a);
    CarriesTenant(now.shared, t, env);
    LogAfter(now.shared, t, env);
    forall k: nat | k < |next.tasks| ensures TenantWasRead(y, actions + [a], k, next.tasks[k]) {
      if k != i {
        TenantReadOn(y, actions, a, k, now.tasks[k]);
      } else if t.Ext? && TenantOf(m.task.ext).Some? {
        if t.ext == ExtTenant { ReadsNow(y, actions, i, env); } else { TenantReadOn(y, actions, a, i, t); }
      }
    }
    forall r <- next.shared.tables.log | r.event == AutoApprovedEvent ensures Justified(y, actions + [a], r) {
      if r in now.shared.tables.log {
        JustifiedOn(y, actions, a, r);
      } else {
        AppendsNow(y, actions, i, env, t.ext.tenant, r);
      }
    }
  }

  lemma TenantReadOn(y: System, actions: seq<Action>, a: Action, i: nat, t: Task)
    requires TenantWasRead(y, actions, i, t)
    ensures TenantWasRead(y, actions + [a], i, t)
  {
    if t.Ext? && TenantOf(t.ext).Some? { ReadsOn(y, actions, a, i, TenantOf(t.ext).value); }
  }

  /** A step that moves no task starts executions with nothing read, and writes no approval by itself. */
  lemma OtherThresholds(y: System, actions: seq<Action>, a: Action)
    requires ThresholdsOk(y, actions) && (a.RunTask? ==> a.i >= |Run(y, actions).tasks|)
    ensures ThresholdsOk(y, actions + [a])
  {
    var now := Run(y, actions);
    var next := Next(now, a);
    RunSnoc(y, actions, a);
    OtherStepAdds(now, a);
    forall k: nat | k < |next.tasks| ensures TenantWasRead(y, actions + [a], k, next.tasks[k]) {
      if k < |now.tasks| { TenantReadOn(y, actions, a, k, now.tasks[k]); }
    }
    forall r <- next.shared.tables.log | r.event == AutoApprovedEvent ensures Justified(y, actions + [a], r) {
      JustifiedOn(y, actions, a, r);
    }
  }

  lemma OtherStepAdds(y: System, a: Action)
    requires a.RunTask? ==> a.i >= |y.tasks|
    ensures var y' := Next(y, a);
      && |y'.tasks| >= |y.tasks| && (forall k :: 0 <= k < |y.tasks| ==> y'.tasks[k] == y.tasks[k])
      && (forall k :: |y.tasks| <= k < |y'.tasks| ==> y'.tasks[k].Ext? ==> y'.tasks[k].ext == ExtRead)
      && (forall k :: |y.tasks| <= k < |y'.tasks| ==> y'.tasks[k].Hook? ==> y'.tasks[k].hook == HookRead)
      && (forall r <- y'.shared.tables.log :: r in y.shared.tables.log || r.event != AutoApprovedEvent)
      && y'.shared.sent == y.shared.sent
  {
  }

  lemma {:induction false} AlwaysThresholds(y: System, actions: seq<Action>)
    requires ThresholdsOk(y, [])
    ensures ThresholdsOk(y, actions)
  {
    if actions != [] {
      var before, a := actions[..|actions| - 1], actions[|actions| - 1];
      AlwaysThresholds(y, before);
      assert actions == before + [a];
      if a.RunTask? && a.i < |Run(y, before).tasks| {
        RunThresholds(y, before, a.i, a.env);
      } else {
        OtherThresholds(y, before, a);
      }
    }
  }

  /** Every auto_approved row was written by an execution that had read its tenant before, and names the
      threshold that this read returned, or 0.85 if it found no tenant. */
  lemma ThresholdWasRead(
      id: string, tenantId: string, uploadedBy: string, fileName: string, actions: seq<Action>, r: AuditRow)
    requires r in Run(Start(id, tenantId, uploadedBy, fileName), actions).shared.tables.log
    requires r.event == AutoApprovedEvent
    ensures Justified(Start(id, tenantId, uploadedBy, fileName), actions, r)
  {
    AlwaysThresholds(Start(id, tenantId, uploadedBy, fileName), actions);
  }

  // ----- payloads

  /** After k steps the document was in exactly this state. */
  ghost predicate WasHeld(y: System, actions: seq<Action>, seen: Observed) {
    exists k: nat :: k <= |actions| && IsSeen(Run(y, actions[..k]).shared.tables, seen)
  }

  predicate IsSeen(t: Tables, seen: Observed) {
    && (t.row.status == Approved || t.row.status == Rejected)
    && t.row.status == seen.status && t.row.docType == seen.docType && t.extraction == seen.extraction
  }

  /** What a payload says of a document in this state. */
  predicate Matches(p: WebhookPayload, t: Tables) {
    && (t.row.status == Approved || t.row.status == Rejected)
    && p.status == t.row.status && p.docType == t.row.docType
    && (if t.row.status == Approved then p.reason == None && Summarises(p.extraction, t.extraction)
        else p.extraction == None)
  }

  ghost predicate ToldTruth(y: System, actions: seq<Action>, p: WebhookPayload) {
    exists k: nat :: k <= |actions| && Matches(p, Run(y, actions[..k]).shared.tables)
  }

  ghost predicate HookKnows(y: System, actions: seq<Action>, t: Task) {
    t.Hook? ==>
      && (t.hook.HookCount? || t.hook.HookReason? ==> WasHeld(y, actions, t.hook.seen))
      && (t.hook.HookReason? ==> t.hook.seen.status == Rejected)
      && (t.hook.HookInsert? || t.hook.HookFetch? ==> ToldTruth(y, actions, t.hook.message.payload))
  }

  ghost predicate PayloadsOk(y: System, actions: seq<Action>) {
    && (forall t <- Run(y, actions).tasks :: HookKnows(y, actions, t))
    && (forall m <- Run(y, actions).shared.sent :: ToldTruth(y, actions, m.payload))
  }

  lemma HeldOn(y: System, actions: seq<Action>, a: Action, seen: Observed)
    requires WasHeld(y, actions, seen)
    ensures WasHeld(y, actions + [a], seen)
  {
    var k: nat :| k <= |actions| && IsSeen(Run(y, actions[..k]).shared.tables, seen);
    assert (actions + [a])[..k] == actions[..k];
  }

  lemma ToldOn(y: System, actions: seq<Action>, a: Action, p: WebhookPayload)
    requires ToldTruth(y, actions, p)
    ensures ToldTruth(y, actions + [a], p)
  {
    var k: nat :| k <= |actions| && Matches(p, Run(y, actions[..k]).shared.tables);
    assert (actions + [a])[..k] == actions[..k];
  }

  lemma KnowsOn(y: System, actions: seq<Action>, a: Action, t: Task)
    requires HookKnows(y, actions, t)
    ensures HookKnows(y, actions + [a], t)
  {
    if t.Hook? && (t.hook.HookCount? || t.hook.HookReason?) { HeldOn(y, actions, a, t.hook.seen); }
    if t.Hook? && (t.hook.HookInsert? || t.hook.HookFetch?) { ToldOn(y, actions, a, t.hook.message.payload); }
  }

  /** What an execution observes is the present, and a message built from an observation says no more. */
  ghost predicate ObservesNow(s: Shared, t: Task, t': Task)
    requires t.Hook?
  {
    && t'.Hook?
    && (t'.hook.HookCount? ==> t.hook == HookRead && IsSeen(s.tables, t'.hook.seen))
    && (t'.hook.HookReason? ==> t.hook.HookCount? && t'.hook.seen == t.hook.seen && t.hook.seen.status == Rejected)
    && (t'.hook.HookInsert? ==>
          || (t.hook.HookCount? && t.hook.seen.status != Rejected && Built(t'.hook.message.payload, t.hook.seen))
          || (t.hook.HookReason? && Built(t'.hook.message.payload, t.hook.seen)))
    && (t'.hook.HookFetch? ==> t.hook.HookInsert? && t'.hook.message == t.hook.message)
  }

  predicate Built(p: WebhookPayload, seen: Observed) {
    && p.status == seen.status && p.docType == seen.docType
    && (if seen.status == Approved then Summarises(p.extraction, seen.extraction) else p.extraction == None)
    && (seen.status != Rejected ==> p.reason == None)
  }

  lemma HookObservesNow(s: Shared, t: Task, env: Env)
    requires t.Hook? && Delivering(t) && (t.hook.HookReason? ==> t.hook.seen.status == Rejected)
    ensures ObservesNow(s, t, HookMove(s, t, env).task)
    ensures HookMove(s, t, env).op.Send? ==> t.hook.HookFetch? && HookMove(s, t, env).op.message == t.hook.message
  {
  }

  lemma HeldNow(y: System, actions: seq<Action>, a: Action, seen: Observed)
    requires IsSeen(Run(y, actions).shared.tables, seen)
    ensures WasHeld(y, actions + [a], seen)
  {
    assert (actions + [a])[..|actions|] == actions;
  }

  lemma BuiltTells(y: System, actions: seq<Action>, seen: Observed, p: WebhookPayload)
    requires WasHeld(y, actions, seen) && Built(p, seen)
    ensures ToldTruth(y, actions, p)
  {
    var k: nat :| k <= |actions| && IsSeen(Run(y, actions[..k]).shared.tables, seen);
    assert Matches(p, Run(y, actions[..k]).shared.tables);
  }

  lemma HookKnowsNext(y: System, actions: seq<Action>, i: nat, env: Env)
    requires i < |Run(y, actions).tasks| && Run(y, actions).tasks[i].Hook?
    requires HookKnows(y, actions, Run(y, actions).tasks[i])
    ensures var m := HookMove(Run(y, actions).shared, Run(y, actions).tasks[i], env);
      && HookKnows(y, actions + [RunTask(i, env)], m.task)
      && (m.op.Send? ==> ToldTruth(y, actions, m.op.message.payload))
  {
    var now := Run(y, actions);
    var t, a := now.tasks[i], RunTask(i, env);
    var t' := HookMove(now.shared, t, env).task;
    if !Delivering(t) {
      KnowsOn(y, actions, a, t);
    } else {
      HookObservesNow(now.shared, t, env);
      if t'.hook.HookCount? { HeldNow(y, actions, a, t'.hook.seen); }
      if t'.hook.HookReason? { HeldOn(y, actions, a, t.hook.seen); }
      if t'.hook.HookInsert? {
        BuiltTells(y, actions, t.hook.seen, t'.hook.message.payload);
        ToldOn(y, actions, a, t'.hook.message.payload);
      }
      if t'.hook.HookFetch? { ToldOn(y, actions, a, t.hook.message.payload); }
    }
  }

  lemma SendsOnlyHooks(s: Shared, t: Task, env: Env)
    ensures MoveOf(s, t, env).op.Send? ==> t.Hook?
    ensures MoveOf(s, t, env).task.Hook? <==> t.Hook?
  {
    if t.Ext? { assert !ExtMove(s, t, env).op.Send? && ExtMove(s, t, env).task.Ext?; }
  }

  lemma SentAfter(s: Shared, t: Task, env: Env)
    ensures var m := MoveOf(s, t, env);
      && Effect(s, t, m).sent == (if m.op.Send? then s.sent + [m.op.message] else s.sent)
      && (m.op.Send? ==> t.Hook?) && (m.task.Hook? <==> t.Hook?)
  {
    var m := MoveOf(s, t, env);
    SendsOnlyHooks(s, t, env);
    DoAppends(s, m.op);
    EndKeepsRows(Do(s, m.op), t, m.ending);
  }

  lemma RunPayloads(y: System, actions: seq<Action>, i: nat, env: Env)
    requires PayloadsOk(y, actions) && i < |Run(y, actions).tasks|
    ensures PayloadsOk(y, actions + [RunTask(i, env)])
  {
    var now, a := Run(y, actions), RunTask(i, env);
    var t, next := now.tasks[i], Next(now, a);
    RunSnoc(y, actions, a);
    SentAfter(now.shared, t, env);
    if t.Hook? { HookKnowsNext(y, actions, i, env); }
    forall u <- next.tasks ensures HookKnows(y, actions + [a], u) {
      if u in now.tasks { KnowsOn(y, actions, a, u); }
    }
    forall m <- next.shared.sent ensures ToldTruth(y, actions + [a], m.payload) {
      ToldOn(y, actions, a, m.payload);
    }
  }

  lemma OtherPayloads(y: System, actions: seq<Action>, a: Action)
    requires PayloadsOk(y, actions) && (a.RunTask? ==> a.i >= |Run(y, actions).tasks|)
    ensures PayloadsOk(y, actions + [a])
  {
    var now := Run(y, actions);
    var next := Next(now, a);
    RunSnoc(y, actions, a);
    OtherStepAdds(now, a);
    forall k: nat | k < |next.tasks| ensures HookKnows(y, actions + [a], next.tasks[k]) {
      if k < |now.tasks| { KnowsOn(y, actions, a, now.tasks[k]); }
    }
    forall m <- next.shared.sent ensures ToldTruth(y, actions + [a], m.payload) {
      ToldOn(y, actions, a, m.payload);
    }
  }

  lemma {:induction false} AlwaysPayloads(y: System, actions: seq<Action>)
    requires PayloadsOk(y, [])
    ensures PayloadsOk(y, actions)
  {
    if actions != [] {
      var before, a := actions[..|actions| - 1], actions[|actions| - 1];
      AlwaysPayloads(y, before);
      assert actions == before + [a];
      if a.RunTask? && a.i < |Run(y, before).tasks| {
        RunPayloads(y, before, a.i, a.env);
      } else {
        OtherPayloads(y, before, a);
      }
    }
  }

  /** Every payload sent says what was true of the document all at once, after some prefix of the run: approved,
      with that type and with vendor, number and total of the extraction stored then, or rejected, with that
      type and no extraction. */
  lemma PayloadToldTruth(
      id: string, tenantId: string, uploadedBy: string, fileName: string, actions: seq<Action>, m: Sent)
    requires m in Run(Start(id, tenantId, uploadedBy, fileName), actions).shared.sent
    ensures ToldTruth(Start(id, tenantId, uploadedBy, fileName), actions, m.payload)
    ensures m.payload.documentId == id && m.payload.tenantId == tenantId
  {
    AnyFaultTheorems.StartIsOk(id, tenantId, uploadedBy, fileName);
    AnyFaultTheorems.Always(Start(id, tenantId, uploadedBy, fileName), actions);
    AlwaysPayloads(Start(id, tenantId, uploadedBy, fileName), actions);
  }
}
