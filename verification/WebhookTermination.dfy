/** Webhook executions come to an end: how many steps they take, when a job uses up its executions, and that a
    job whose only throws are failed deliveries ends skipped, delivered or dead-lettered. */
module WebhookTermination {
  import opened Wrappers
  import opened Pipeline
  import opened AnyFault
  import opened WebhookBudget
  import opened WebhookDeliveries
  import AnyFaultTheorems

  /** The queue starts a webhook job only while it waits. Any step may throw. */
  predicate Queued(y: System, a: Action) {
    a.StartWebhook? && a.j < |y.shared.webhooks| ==> y.shared.webhooks[a.j].state == Waiting
  }

  /** A step of webhook delivery: an execution starts, or one that is under way moves. */
  predicate HookStep(y: System, a: Action) {
    match a
    case RunTask(i, _) => i < |y.tasks| && Delivering(y.tasks[i])
    case StartWebhook(j) => j < |y.shared.webhooks|
    case _ => false
  }

  function HookSteps(y: System, actions: seq<Action>): nat {
    if actions == [] then 0
    else
      var before := actions[..|actions| - 1];
      HookSteps(y, before) + if HookStep(Run(y, before), actions[|actions| - 1]) then 1 else 0
  }

  const HOOK_EXECUTION: nat := 8

  function TaskHookRank(t: Task): nat {
    if t.Hook? then HookRank(t.hook) else 0
  }

  function JobAhead(w: WebhookJob): nat {
    if w.executions < JOB_ATTEMPTS then HOOK_EXECUTION * (JOB_ATTEMPTS - w.executions) else 0
  }

  function HookMeasure(y: System): nat {
    Total(y.shared.webhooks, JobAhead) + Total(y.tasks, TaskHookRank)
  }

  predicate StateOk(w: WebhookJob) {
    w.state == Waiting ==> w.executions < JOB_ATTEMPTS
  }

  /** An active job has an execution under way. */
  ghost predicate QueueOk(y: System) {
    && FreshJobsOk(y)
    && (forall w <- y.shared.webhooks :: StateOk(w))
    && (forall j :: 0 <= j < |y.shared.webhooks| && y.shared.webhooks[j].state == Active ==> Busy(y.tasks, j))
  }

  ghost predicate Busy(tasks: seq<Task>, j: nat) {
    exists i :: 0 <= i < |tasks| && Delivering(tasks[i]) && tasks[i].job == j
  }

  /** What a step of an execution does to its own job: nothing until it is over. */
  lemma HookMoves(s: Shared, t: Task, env: Env)
    requires t.Hook? && t.job < |s.webhooks|
    ensures var m := HookMove(s, t, env); var over := Delivering(t) && !Delivering(m.task);
      && m.task.Hook? && m.task.job == t.job
      && (if Delivering(t) then HookRank(m.task.hook) < HookRank(t.hook) else m.task == t)
      && (over ==> m.ending != GoesOn)
      && var w := s.webhooks[t.job];
         Effect(s, t, m).webhooks
         == s.webhooks[t.job := if over then w.(state := AfterExecution(w.executions, m.ending)) else w]
  {
  }

  lemma HookRunMeasure(y: System, i: nat, env: Env)
    requires QueueOk(y) && i < |y.tasks| && y.tasks[i].Hook?
    ensures HookMeasure(Next(y, RunTask(i, env))) + (if Delivering(y.tasks[i]) then 1 else 0) <= HookMeasure(y)
  {
    var s, t, y' := y.shared, y.tasks[i], Next(y, RunTask(i, env));
    assert t in y.tasks;
    HookMoves(s, t, env);
    TotalUpdate(s.webhooks, t.job, y'.shared.webhooks[t.job], JobAhead);
    TotalUpdate(y.tasks, i, y'.tasks[i], TaskHookRank);
  }

  lemma HookRunQueue(y: System, i: nat, env: Env)
    requires QueueOk(y) && i < |y.tasks| && y.tasks[i].Hook?
    ensures QueueOk(Next(y, RunTask(i, env)))
    ensures |Next(y, RunTask(i, env)).shared.webhooks| == |y.shared.webhooks|
  {
    var s, t, y' := y.shared, y.tasks[i], Next(y, RunTask(i, env));
    assert t in y.tasks;
    FreshJobsStep(y, RunTask(i, env));
    HookMoves(s, t, env);
    assert s.webhooks[t.job] in s.webhooks;
    forall j | 0 <= j < |y'.shared.webhooks| && y'.shared.webhooks[j].state == Active ensures Busy(y'.tasks, j) {
      var k :| 0 <= k < |y.tasks| && Delivering(y.tasks[k]) && y.tasks[k].job == j;
      assert Delivering(y'.tasks[k]) && y'.tasks[k].job == j;
    }
  }

  /** Steps that add tasks or jobs, and move no execution. */
  lemma GrowthKeepsBusy(y: System, y': System, j: nat)
    requires Busy(y.tasks, j) && |y'.tasks| >= |y.tasks|
    requires forall k :: 0 <= k < |y.tasks| && y.tasks[k].Hook? ==> y'.tasks[k] == y.tasks[k]
    ensures Busy(y'.tasks, j)
  {
    var k :| 0 <= k < |y.tasks| && Delivering(y.tasks[k]) && y.tasks[k].job == j;
    assert Delivering(y'.tasks[k]);
  }

  lemma PlainRunQueue(y: System, i: nat, env: Env)
    requires QueueOk(y) && i < |y.tasks| && !y.tasks[i].Hook?
    ensures var y' := Next(y, RunTask(i, env));
      && QueueOk(y') && |y'.shared.webhooks| >= |y.shared.webhooks|
      && HookMeasure(y') == HookMeasure(y) + 24 * (|y'.shared.webhooks| - |y.shared.webhooks|)
  {
    var s, y' := y.shared, Next(y, RunTask(i, env));
    OthersMayOnlyAdd(s, y.tasks[i], env);
    FreshJobsStep(y, RunTask(i, env));
    TotalUpdate(y.tasks, i, y'.tasks[i], TaskHookRank);
    if y'.shared.webhooks != s.webhooks {
      TotalSnoc(s.webhooks, y'.shared.webhooks[|s.webhooks|], JobAhead);
    }
    forall j | 0 <= j < |y'.shared.webhooks| && y'.shared.webhooks[j].state == Active ensures Busy(y'.tasks, j) {
      GrowthKeepsBusy(y, y', j);
    }
  }

  lemma StartQueue(y: System, j: nat)
    requires QueueOk(y) && j < |y.shared.webhooks| && y.shared.webhooks[j].state == Waiting
    ensures QueueOk(Next(y, StartWebhook(j))) && HookMeasure(Next(y, StartWebhook(j))) < HookMeasure(y)
    ensures |Next(y, StartWebhook(j)).shared.webhooks| == |y.shared.webhooks|
  {
    var s, y' := y.shared, Next(y, StartWebhook(j));
    var n := |y.tasks|;
    FreshJobsStep(y, StartWebhook(j));
    assert s.webhooks[j] in s.webhooks;
    TotalUpdate(s.webhooks, j, y'.shared.webhooks[j], JobAhead);
    TotalSnoc(y.tasks, y'.tasks[n], TaskHookRank);
    forall k | 0 <= k < |y'.shared.webhooks| && y'.shared.webhooks[k].state == Active ensures Busy(y'.tasks, k) {
      if k == j { assert Delivering(y'.tasks[n]); } else { GrowthKeepsBusy(y, y', k); }
    }
  }

  /** Reviewers and the pipeline's own jobs add at most a task that is no webhook execution. */
  lemma OtherTasks(y: System, a: Action)
    requires !a.RunTask? && !a.StartWebhook?
    ensures var y' := Next(y, a);
      && y'.shared.webhooks == y.shared.webhooks
      && (y'.tasks == y.tasks
          || (|y'.tasks| > 0 && y'.tasks == y.tasks + [y'.tasks[|y'.tasks| - 1]] && !y'.tasks[|y'.tasks| - 1].Hook?))
  {
    if IsReviewer(a) { NextReviewer(y, a); }
  }

  lemma OtherQueue(y: System, y': System)
    requires QueueOk(y) && FreshJobsOk(y') && y'.shared.webhooks == y.shared.webhooks
    requires y'.tasks == y.tasks
          || (|y'.tasks| > 0 && y'.tasks == y.tasks + [y'.tasks[|y'.tasks| - 1]] && !y'.tasks[|y'.tasks| - 1].Hook?)
    ensures QueueOk(y') && HookMeasure(y') == HookMeasure(y)
  {
    if y'.tasks != y.tasks {
      TotalSnoc(y.tasks, y'.tasks[|y.tasks|], TaskHookRank);
    }
    forall j | 0 <= j < |y'.shared.webhooks| && y'.shared.webhooks[j].state == Active ensures Busy(y'.tasks, j) {
      GrowthKeepsBusy(y, y', j);
    }
  }

  lemma StepQueue(y: System, a: Action)
    requires QueueOk(y) && Queued(y, a)
    ensures var y' := Next(y, a);
      && QueueOk(y') && |y'.shared.webhooks| >= |y.shared.webhooks|
      && HookMeasure(y') + (if HookStep(y, a) then 1 else 0)
         <= HookMeasure(y) + 24 * (|y'.shared.webhooks| - |y.shared.webhooks|)
  {
    if a.RunTask? {
      if a.i < |y.tasks| {
        if y.tasks[a.i].Hook? { HookRunQueue(y, a.i, a.env); HookRunMeasure(y, a.i, a.env); }
            else { PlainRunQueue(y, a.i, a.env); }
      }
    } else if a.StartWebhook? {
      if a.j < |y.shared.webhooks| { StartQueue(y, a.j); }
    } else {
      FreshJobsStep(y, a);
      OtherTasks(y, a);
      OtherQueue(y, Next(y, a));
    }
  }

  lemma {:induction false} RunQueue(y: System, actions: seq<Action>)
    requires QueueOk(y) && Follows(Queued, y, actions)
    ensures var y' := Run(y, actions);
      && QueueOk(y') && |y'.shared.webhooks| >= |y.shared.webhooks|
      && HookMeasure(y') + HookSteps(y, actions) <= HookMeasure(y) + 24 * (|y'.shared.webhooks| - |y.shared.webhooks|)
  {
    if actions != [] {
      var before := actions[..|actions| - 1];
      RunQueue(y, before);
      StepQueue(Run(y, before), actions[|actions| - 1]);
    }
  }

  /** Termination: at most twenty-four steps of webhook delivery for each job ever enqueued, however the steps
      fail and whatever happens between them. */
  lemma WebhooksTerminate(id: string, tenantId: string, uploadedBy: string, fileName: string, actions: seq<Action>)
    requires Follows(Queued, Start(id, tenantId, uploadedBy, fileName), actions)
    ensures var y := Start(id, tenantId, uploadedBy, fileName);
            HookSteps(y, actions) <= 24 * |Run(y, actions).shared.webhooks|
  {
    RunQueue(Start(id, tenantId, uploadedBy, fileName), actions);
  }

  // ----- every job ends

  predicate IsOver(w: WebhookJob) {
    w.state == Completed || w.state == Exhausted
  }

  ghost predicate AllOver(y: System) {
    forall w <- y.shared.webhooks :: IsOver(w)
  }

  /** As long as a job is not over, the queue or one of its executions can take a step. */
  lemma WebhookProgress(y: System, env: Env) returns (a: Action)
    requires QueueOk(y) && !AllOver(y) && env.fault == NoFault
    ensures DeliveryFailuresOnly(y, a) && HookStep(y, a) && Pushes(a, env)
    ensures |Next(y, a).shared.webhooks| == |y.shared.webhooks|
  {
    var w :| w in y.shared.webhooks && !IsOver(w);
    var j :| 0 <= j < |y.shared.webhooks| && y.shared.webhooks[j] == w;
    if w.state == Waiting {
      a := StartWebhook(j);
    } else {
      var i :| 0 <= i < |y.tasks| && Delivering(y.tasks[i]) && y.tasks[i].job == j;
      a := RunTask(i, env);
      HookRunQueue(y, i, env);
    }
  }

  lemma {:induction false} FailuresAreQueued(y: System, actions: seq<Action>)
    requires Follows(DeliveryFailuresOnly, y, actions)
    ensures Follows(Queued, y, actions)
  {
    if actions != [] {
      FailuresAreQueued(y, actions[..|actions| - 1]);
    }
  }

  ghost predicate EndsWell(y: System, j: nat)
    requires j < |y.shared.webhooks|
  {
    y.shared.webhooks[j].state == Completed && exists i :: 0 <= i < |y.tasks| && EndedFor(y.tasks[i], j)
  }

  lemma OverMeansEnded(y: System)
    requires BudgetOk(y) && AllOver(y)
    ensures forall j :: 0 <= j < |y.shared.webhooks| ==> EndsWell(y, j)
  {
    forall j | 0 <= j < |y.shared.webhooks| ensures EndsWell(y, j) {
      assert y.shared.webhooks[j] in y.shared.webhooks;
      assert JobOk(y.shared, y.shared.webhooks[j]) && IsOver(y.shared.webhooks[j]);
    }
  }

  /** A webhook step in which the environment answers as given. */
  ghost predicate Pushes(a: Action, env: Env) {
    a.StartWebhook? || (a.RunTask? && a.env == env)
  }

  lemma PushOn(y: System, actions: seq<Action>, env: Env) returns (a: Action)
    requires QueueOk(Run(y, actions)) && Follows(DeliveryFailuresOnly, y, actions) && env.fault == NoFault
    requires !AllOver(Run(y, actions))
    ensures Pushes(a, env) && Follows(DeliveryFailuresOnly, y, actions + [a]) && QueueOk(Run(y, actions + [a]))
    ensures HookMeasure(Run(y, actions + [a])) < HookMeasure(Run(y, actions))
  {
    a := WebhookProgress(Run(y, actions), env);
    StepQueue(Run(y, actions), a);
    FollowsSnoc(DeliveryFailuresOnly, y, actions, a);
  }

  lemma EndIsReached(y: System, actions: seq<Action>, env: Env) returns (more: seq<Action>)
    requires QueueOk(Run(y, actions)) && Follows(DeliveryFailuresOnly, y, actions) && env.fault == NoFault
    ensures Follows(DeliveryFailuresOnly, y, actions + more) && AllOver(Run(y, actions + more))
    ensures forall a <- more :: Pushes(a, env)
  {
    more := [];
    assert actions + more == actions;
    while !AllOver(Run(y, actions + more))
      invariant Follows(DeliveryFailuresOnly, y, actions + more) && QueueOk(Run(y, actions + more))
      invariant forall a <- more :: Pushes(a, env)
      decreases HookMeasure(Run(y, actions + more))
    {
      var a := PushOn(y, actions + more, env);
      assert actions + (more + [a]) == actions + more + [a];
      more := more + [a];
    }
  }

  /** Every job ends: wherever a run stands in which executions throw only for failed deliveries, webhook steps
      alone bring every job to its end, and none of them by using up its executions. */
  lemma EveryJobEnds(id: string, tenantId: string, uploadedBy: string, fileName: string, actions: seq<Action>, env: Env)
    returns (more: seq<Action>)
    requires Follows(DeliveryFailuresOnly, Start(id, tenantId, uploadedBy, fileName), actions) && env.fault == NoFault
    ensures Follows(DeliveryFailuresOnly, Start(id, tenantId, uploadedBy, fileName), actions + more)
    ensures forall a <- more :: Pushes(a, env)
    ensures var y := Run(Start(id, tenantId, uploadedBy, fileName), actions + more);
            forall j :: 0 <= j < |y.shared.webhooks| ==> EndsWell(y, j)
  {
    var y := Start(id, tenantId, uploadedBy, fileName);
    FailuresAreQueued(y, actions);
    RunQueue(y, actions);
    more := EndIsReached(y, actions, env);
    OverAfterRun(id, tenantId, uploadedBy, fileName, actions + more);
  }

  lemma OverAfterRun(id: string, tenantId: string, uploadedBy: string, fileName: string, actions: seq<Action>)
    requires Follows(DeliveryFailuresOnly, Start(id, tenantId, uploadedBy, fileName), actions)
    requires AllOver(Run(Start(id, tenantId, uploadedBy, fileName), actions))
    ensures var y := Run(Start(id, tenantId, uploadedBy, fileName), actions);
            forall j :: 0 <= j < |y.shared.webhooks| ==> EndsWell(y, j)
  {
    AnyFaultTheorems.StartIsOk(id, tenantId, uploadedBy, fileName);
    AlwaysInBudget(Start(id, tenantId, uploadedBy, fileName), actions);
    OverMeansEnded(Run(Start(id, tenantId, uploadedBy, fileName), actions));
  }

  // ----- when a job uses up its executions

  predicate ThrowsNow(pc: HookPc, env: Env) {
    match pc
    case HookFetch(_, _, _) => false
    case HookLog(attempt, ok) => env.fault != NoFault || (!ok && attempt < WEBHOOK_MAX_ATTEMPTS)
    case _ => env.fault != NoFault
  }

  /** Exactly when: its third execution throws, for a fault anywhere but in the request itself or for a failed
      delivery that is still below the third attempt. */
  lemma ExhaustsIff(s: Shared, t: Task, env: Env)
    requires t.Hook? && Delivering(t) && t.job < |s.webhooks| && s.webhooks[t.job].state == Active
    ensures Effect(s, t, HookMove(s, t, env)).webhooks[t.job].state == Exhausted
            <==> s.webhooks[t.job].executions >= JOB_ATTEMPTS && ThrowsNow(t.hook, env)
  {
  }

  /** One execution that throws before it has read anything. */
  lemma EarlyThrow(y: System, j: nat, env: Env)
    requires j < |y.shared.webhooks| && y.shared.webhooks[j].state == Waiting && env.fault != NoFault
    ensures var y1 := Next(y, StartWebhook(j)); var y2 := Next(y1, RunTask(|y.tasks|, env));
      && |y2.tasks| == |y.tasks| + 1 && y2.shared.deliveries == y.shared.deliveries && y2.shared.sent == y.shared.sent
      && |y2.shared.webhooks| == |y.shared.webhooks|
      && y2.shared.webhooks[j].executions == y.shared.webhooks[j].executions + 1
      && y2.shared.webhooks[j].state == if y.shared.webhooks[j].executions + 1 < JOB_ATTEMPTS then Waiting
          else Exhausted
  {
  }

  /** Three throws that leave no delivery row use up a job that nobody was told about. */
  lemma ThreeThrowsExhaust(y: System, j: nat, env: Env) returns (actions: seq<Action>)
    requires NeverStarted(y, j) && env.fault != NoFault
    ensures Follows(Queued, y, actions)
    ensures var y' := Run(y, actions);
      && y'.shared.deliveries == y.shared.deliveries && y'.shared.sent == y.shared.sent
      && |y'.shared.webhooks| == |y.shared.webhooks| && y'.shared.webhooks[j].state == Exhausted
  {
    actions := [];
    for k := 0 to JOB_ATTEMPTS
      invariant Follows(Queued, y, actions) && |Run(y, actions).shared.webhooks| == |y.shared.webhooks|
      invariant Run(y, actions).shared.webhooks[j].executions == k
      invariant Run(y, actions).shared.webhooks[j].state == if k < JOB_ATTEMPTS then Waiting else Exhausted
      invariant Run(y, actions).shared.deliveries == y.shared.deliveries && Run(y, actions).shared.sent == y.shared.sent
    {
      var now := Run(y, actions);
      EarlyThrow(now, j, env);
      var a, b := StartWebhook(j), RunTask(|now.tasks|, env);
      FollowsSnoc(Queued, y, actions, a);
      FollowsSnoc(Queued, y, actions + [a], b);
      actions := actions + [a] + [b];
    }
  }
}
