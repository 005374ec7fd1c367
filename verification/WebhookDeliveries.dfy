/** Delivery rows over whole runs: how executions that follow one another number them, and how many deliveries one
    job makes. */
module WebhookDeliveries {
  import opened Schema
  import opened Pipeline
  import opened AnyFault
  import opened WebhookBudget
  import AnyFaultTheorems

  // ----- one execution after the other

  /** An execution moves only until the document's next webhook execution has started: it has ended by then, or
      crashed. Everybody else may interleave, and any step may throw. */
  predicate Serial(y: System, a: Action) {
    a.RunTask? && a.i < |y.tasks| && Delivering(y.tasks[a.i]) ==> Newest(y.tasks, a.i)
  }

  predicate Newest(tasks: seq<Task>, i: nat)
    requires i < |tasks|
  {
    tasks[i].Hook? && forall k :: i < k < |tasks| ==> !tasks[k].Hook?
  }

  /** What the newest execution knows about the rows. */
  predicate Numbered(s: Shared, t: Task) {
    t.Hook? ==>
      match t.hook
      case HookReason(_, attempt) => attempt == |s.deliveries| + 1
      case HookInsert(_, attempt) => attempt == |s.deliveries| + 1
      case HookFetch(_, attempt, delivery) => attempt == |s.deliveries| == delivery + 1
      case HookRecord(attempt, delivery, _) => attempt == |s.deliveries| == delivery + 1
      case HookLog(attempt, _) => attempt == |s.deliveries|
      case _ => true
  }

  ghost predicate NumbersOk(y: System) {
    && (forall i :: 0 <= i < |y.shared.deliveries| ==> y.shared.deliveries[i].attempt == i + 1)
    && (forall i :: 0 <= i < |y.tasks| && Newest(y.tasks, i) ==> Numbered(y.shared, y.tasks[i]))
  }

  lemma NewestNumbers(s: Shared, t: Task, env: Env)
    requires t.Hook? && Numbered(s, t)
    requires forall i :: 0 <= i < |s.deliveries| ==> s.deliveries[i].attempt == i + 1
    ensures var m := HookMove(s, t, env); var s' := Effect(s, t, m);
      && m.task.Hook? && Numbered(s', m.task)
      && forall i :: 0 <= i < |s'.deliveries| ==> s'.deliveries[i].attempt == i + 1
  {
  }

  lemma FinishedHookStays(s: Shared, t: Task, env: Env)
    requires t.Hook? && !Delivering(t)
    ensures MoveOf(s, t, env).task == t && Effect(s, t, MoveOf(s, t, env)) == s
  {
  }

  lemma SameHooks(tasks: seq<Task>, tasks': seq<Task>, i: nat)
    requires |tasks| <= |tasks'| && i < |tasks'| && Newest(tasks', i)
    requires forall k :: 0 <= k < |tasks| ==> tasks'[k].Hook? == tasks[k].Hook?
    ensures i < |tasks| ==> Newest(tasks, i)
  {
  }

  lemma RunNumbers(y: System, i: nat, env: Env)
    requires NumbersOk(y) && Serial(y, RunTask(i, env)) && i < |y.tasks|
    ensures NumbersOk(Next(y, RunTask(i, env)))
  {
    var s, t, y' := y.shared, y.tasks[i], Next(y, RunTask(i, env));
    if t.Hook? && Delivering(t) {
      NewestNumbers(s, t, env);
    } else if t.Hook? {
      FinishedHookStays(s, t, env);
    } else {
      OthersMayOnlyAdd(s, t, env);
    }
    forall j | 0 <= j < |y'.tasks| && Newest(y'.tasks, j) ensures Numbered(y'.shared, y'.tasks[j]) {
      SameHooks(y.tasks, y'.tasks, j);
    }
  }

  lemma OtherNumbers(y: System, a: Action)
    requires NumbersOk(y) && !a.RunTask?
    ensures NumbersOk(Next(y, a))
  {
    var y' := Next(y, a);
    if IsReviewer(a) { NextReviewer(y, a); }
    forall j | 0 <= j < |y'.tasks| && Newest(y'.tasks, j) ensures Numbered(y'.shared, y'.tasks[j]) {
      if j < |y.tasks| { SameHooks(y.tasks, y'.tasks, j); }
    }
  }

  lemma {:induction false} SerialRunNumbers(y: System, actions: seq<Action>)
    requires NumbersOk(y) && Follows(Serial, y, actions)
    ensures NumbersOk(Run(y, actions))
  {
    if actions != [] {
      var before, a := actions[..|actions| - 1], actions[|actions| - 1];
      SerialRunNumbers(y, before);
      if a.RunTask? {
        if a.i < |Run(y, before).tasks| { RunNumbers(Run(y, before), a.i, a.env); }
      } else {
        OtherNumbers(Run(y, before), a);
      }
    }
  }

  /** Where executions follow one another, the rows of the document are numbered exactly 1..n; a recorded failure
      is plain below the third row and a dead letter from the third row on. */
  lemma SerialNumbering(id: string, tenantId: string, uploadedBy: string, fileName: string, actions: seq<Action>)
    requires Follows(Serial, Start(id, tenantId, uploadedBy, fileName), actions)
    ensures var rows := Run(Start(id, tenantId, uploadedBy, fileName), actions).shared.deliveries;
            forall i :: 0 <= i < |rows| ==>
              && rows[i].attempt == i + 1
              && (rows[i].status == FailedDelivery ==> i + 1 < 3)
              && (rows[i].status == DeadLetter ==> i + 1 >= 3)
  {
    var y := Start(id, tenantId, uploadedBy, fileName);
    SerialRunNumbers(y, actions);
    AnyFaultTheorems.StartIsOk(id, tenantId, uploadedBy, fileName);
    AnyFaultTheorems.Always(y, actions);
  }

  /** The queue starts an execution only when no other one is under way. */
  predicate OneAtATime(y: System, a: Action) {
    a.StartWebhook? ==> forall t <- y.tasks :: !Delivering(t)
  }

  ghost predicate OnlyNewestDelivers(tasks: seq<Task>) {
    forall i :: 0 <= i < |tasks| && Delivering(tasks[i]) ==> Newest(tasks, i)
  }

  lemma OneAtATimeStep(y: System, a: Action)
    requires OnlyNewestDelivers(y.tasks) && OneAtATime(y, a)
    ensures OnlyNewestDelivers(Next(y, a).tasks)
  {
    var y' := Next(y, a);
    if IsReviewer(a) {
      NextReviewer(y, a);
    } else if a.RunTask? && a.i < |y.tasks| {
      var t := y.tasks[a.i];
      if t.Hook? && !Delivering(t) { FinishedHookStays(y.shared, t, a.env); }
      if !t.Hook? { OthersMayOnlyAdd(y.shared, t, a.env); }
    }
    forall i | 0 <= i < |y'.tasks| && Delivering(y'.tasks[i]) ensures Newest(y'.tasks, i) {
      if i < |y.tasks| { assert Delivering(y.tasks[i]); }
    }
  }

  /** So one execution at a time is serial, and its rows are numbered 1..n. */
  lemma {:induction false} OneAtATimeIsSerial(y: System, actions: seq<Action>)
    requires OnlyNewestDelivers(y.tasks) && Follows(OneAtATime, y, actions)
    ensures Follows(Serial, y, actions) && OnlyNewestDelivers(Run(y, actions).tasks)
  {
    if actions != [] {
      var before := actions[..|actions| - 1];
      OneAtATimeIsSerial(y, before);
      OneAtATimeStep(Run(y, before), actions[|actions| - 1]);
    }
  }

  // ----- deliveries of one job

  /** A webhook job that was never started waits, and no execution is one of its. */
  ghost predicate NeverStarted(y: System, j: nat)
  {
    && j < |y.shared.webhooks| && y.shared.webhooks[j].executions == 0 && y.shared.webhooks[j].state == Waiting
    && forall t <- y.tasks :: t.Hook? ==> t.job != j
  }

  ghost predicate FreshJobsOk(y: System) {
    && (forall t <- y.tasks :: t.Hook? ==> t.job < |y.shared.webhooks| && y.shared.webhooks[t.job].executions > 0)
    && (forall w <- y.shared.webhooks :: w.executions == 0 ==> w.state == Waiting)
  }

  /** A step of one task as the other webhook jobs see it. */
  ghost predicate LeavesJobs(s: Shared, t: Task, s': Shared, t': Task) {
    && |s'.deliveries| >= |s.deliveries| && |s'.webhooks| >= |s.webhooks|
    && (t'.Hook? <==> t.Hook?) && (t.Hook? ==> t'.job == t.job && t'.tenantId == t.tenantId)
    && (forall k :: 0 <= k < |s.webhooks| ==> s'.webhooks[k].executions == s.webhooks[k].executions)
    && (forall k :: 0 <= k < |s.webhooks| && !(t.Hook? && t.job == k) ==> s'.webhooks[k] == s.webhooks[k])
    && (forall k :: |s.webhooks| <= k < |s'.webhooks| ==>
          s'.webhooks[k].executions == 0 && s'.webhooks[k].state == Waiting)
  }

  lemma HookLeavesJobs(s: Shared, t: Task, env: Env)
    requires t.Hook?
    ensures var m := MoveOf(s, t, env); LeavesJobs(s, t, Effect(s, t, m), m.task)
  {
  }

  lemma TaskLeavesJobs(s: Shared, t: Task, env: Env)
    ensures var m := MoveOf(s, t, env); LeavesJobs(s, t, Effect(s, t, m), m.task)
  {
    if t.Hook? { HookLeavesJobs(s, t, env); } else { OthersMayOnlyAdd(s, t, env); }
  }

  lemma FreshJobsStep(y: System, a: Action)
    requires FreshJobsOk(y)
    ensures FreshJobsOk(Next(y, a))
  {
    var y' := Next(y, a);
    if IsReviewer(a) {
      NextReviewer(y, a);
    } else if a.RunTask? && a.i < |y.tasks| {
      TaskLeavesJobs(y.shared, y.tasks[a.i], a.env);
      FreshJobsRun(y, a.i, a.env);
    } else if a.StartWebhook? {
      FreshJobsStart(y, a.j);
    }
  }

  lemma FreshJobsRun(y: System, i: nat, env: Env)
    requires FreshJobsOk(y) && i < |y.tasks|
    requires LeavesJobs(y.shared, y.tasks[i], Next(y, RunTask(i, env)).shared, Next(y, RunTask(i, env)).tasks[i])
    ensures FreshJobsOk(Next(y, RunTask(i, env)))
  {
    var s, s' := y.shared, Next(y, RunTask(i, env)).shared;
    assert y.tasks[i] in y.tasks;
    forall w <- s'.webhooks | w.executions == 0 ensures w.state == Waiting {
      var k :| 0 <= k < |s'.webhooks| && s'.webhooks[k] == w;
      if k < |s.webhooks| { assert s.webhooks[k] in s.webhooks; }
    }
  }

  lemma FreshJobsStart(y: System, j: nat)
    requires FreshJobsOk(y)
    ensures FreshJobsOk(Next(y, StartWebhook(j)))
  {
    var s, s' := y.shared, Next(y, StartWebhook(j)).shared;
    forall w <- s'.webhooks | w.executions == 0 ensures w.state == Waiting {
      var k :| 0 <= k < |s'.webhooks| && s'.webhooks[k] == w;
      assert s.webhooks[k] in s.webhooks;
    }
  }

  lemma {:induction false} FreshJobsRemain(y: System, actions: seq<Action>)
    requires FreshJobsOk(y)
    ensures FreshJobsOk(Run(y, actions))
  {
    if actions != [] {
      FreshJobsRemain(y, actions[..|actions| - 1]);
      FreshJobsStep(Run(y, actions[..|actions| - 1]), actions[|actions| - 1]);
    }
  }

  /** A reachable job without executions was never started. */
  lemma UnstartedWaits(y: System, j: nat)
    requires AnyFaultTheorems.Reachable(y) && j < |y.shared.webhooks| && y.shared.webhooks[j].executions == 0
    ensures NeverStarted(y, j)
  {
    var id, tenantId, uploadedBy, fileName, actions :|
      AnyFaultTheorems.ReachedBy(y, id, tenantId, uploadedBy, fileName, actions);
    FreshJobsRemain(Start(id, tenantId, uploadedBy, fileName), actions);
  }

  /** The step is job j's delivery: it sends the payload. */
  predicate Delivers(y: System, j: nat, a: Action) {
    a.RunTask? && a.i < |y.tasks| && y.tasks[a.i].Hook? && y.tasks[a.i].job == j && y.tasks[a.i].hook.HookFetch?
  }

  /** Deliveries that job j makes in a run. */
  function Made(y: System, j: nat, actions: seq<Action>): nat {
    if actions == [] then 0
    else
      var before := actions[..|actions| - 1];
      Made(y, j, before) + if Delivers(Run(y, before), j, actions[|actions| - 1]) then 1 else 0
  }

  /** The queue starts job j only while it waits, and once a delivery was made its execution throws only if the
      delivery failed. Before the delivery it may throw anywhere, and nobody else is restricted. */
  predicate RetriesFailuresOnly(y: System, a: Action, j: nat) {
    match a
    case RunTask(i, env) =>
      i < |y.tasks| && y.tasks[i].Hook? && y.tasks[i].job == j
          && (y.tasks[i].hook.HookRecord? || y.tasks[i].hook.HookLog?) ==>
        env.fault == NoFault
    case StartWebhook(k) => k == j && j < |y.shared.webhooks| ==> y.shared.webhooks[j].state == Waiting
    case _ => true
  }

  function RetriesOf(j: nat): (System, Action) -> bool {
    (y: System, a: Action) => RetriesFailuresOnly(y, a, j)
  }

  /** From c rows on and after m deliveries the job may be tried again. */
  predicate MayTry(c: nat, m: nat) {
    m == 0 || c + m < WEBHOOK_MAX_ATTEMPTS
  }

  /** An execution of the job whose m deliveries came after the first c rows. */
  predicate TryOk(s: Shared, pc: HookPc, c: nat, m: nat) {
    match pc
    case HookRead => MayTry(c, m)
    case HookCount(_) => MayTry(c, m)
    case HookReason(_, attempt) => MayTry(c, m) && attempt > c + m
    case HookInsert(_, attempt) => MayTry(c, m) && attempt > c + m
    case HookFetch(_, attempt, _) => MayTry(c, m) && attempt > c + m && |s.deliveries| > c + m
    case HookRecord(attempt, _, _) => attempt >= c + m
    case HookLog(attempt, _) => attempt >= c + m
    case _ => true
  }

  predicate JobTries(s: Shared, j: nat, c: nat, m: nat) {
    && j < |s.webhooks| && |s.deliveries| >= c + m && (m <= 1 || c + m <= WEBHOOK_MAX_ATTEMPTS)
    && (s.webhooks[j].state == Waiting ==> MayTry(c, m))
  }

  ghost predicate TriesOk(y: System, j: nat, c: nat, m: nat) {
    && JobTries(y.shared, j, c, m)
    && (forall i :: 0 <= i < |y.tasks| && Delivering(y.tasks[i]) && y.tasks[i].job == j ==>
          y.shared.webhooks[j].state == Active && TryOk(y.shared, y.tasks[i].hook, c, m))
    && (forall i, k :: 0 <= i < k < |y.tasks| && Delivering(y.tasks[i]) && Delivering(y.tasks[k]) ==>
          y.tasks[i].job != j || y.tasks[k].job != j)
  }

  /** The job's own step. */
  lemma OwnTry(s: Shared, t: Task, env: Env, j: nat, c: nat, m: nat)
    requires t.Hook? && t.job == j && Delivering(t) && JobTries(s, j, c, m)
    requires s.webhooks[j].state == Active && TryOk(s, t.hook, c, m)
    requires t.hook.HookRecord? || t.hook.HookLog? ==> env.fault == NoFault
    ensures var mv := HookMove(s, t, env); var s' := Effect(s, t, mv);
            var m' := if t.hook.HookFetch? then m + 1 else m;
      && JobTries(s', j, c, m') && mv.task.Hook?
      && (Delivering(mv.task) ==> s'.webhooks[j].state == Active && TryOk(s', mv.task.hook, c, m'))
  {
  }

  /** A step that leaves job j and its executions alone. */
  lemma OthersTry(y: System, y': System, j: nat, c: nat, m: nat)
    requires TriesOk(y, j, c, m) && |y'.tasks| >= |y.tasks|
    requires j < |y'.shared.webhooks| && y'.shared.webhooks[j] == y.shared.webhooks[j]
    requires |y'.shared.deliveries| >= |y.shared.deliveries|
    requires forall i :: 0 <= i < |y'.tasks| && Delivering(y'.tasks[i]) && y'.tasks[i].job == j ==>
               i < |y.tasks| && y'.tasks[i] == y.tasks[i]
    ensures TriesOk(y', j, c, m)
  {
  }

  lemma OwnRun(y: System, i: nat, env: Env, j: nat, c: nat, m: nat)
    requires TriesOk(y, j, c, m) && i < |y.tasks| && Delivering(y.tasks[i]) && y.tasks[i].job == j
    requires RetriesFailuresOnly(y, RunTask(i, env), j)
    ensures TriesOk(Next(y, RunTask(i, env)), j, c, if Delivers(y, j, RunTask(i, env)) then m + 1 else m)
  {
    var y' := Next(y, RunTask(i, env));
    OwnTry(y.shared, y.tasks[i], env, j, c, m);
    TaskLeavesJobs(y.shared, y.tasks[i], env);
    assert forall k :: 0 <= k < |y.tasks| && k != i ==> y'.tasks[k] == y.tasks[k];
  }

  lemma OwnStart(y: System, j: nat, c: nat, m: nat)
    requires TriesOk(y, j, c, m) && y.shared.webhooks[j].state == Waiting
    ensures TriesOk(Next(y, StartWebhook(j)), j, c, m)
  {
    var y' := Next(y, StartWebhook(j));
    assert forall k :: 0 <= k < |y.tasks| ==> y'.tasks[k] == y.tasks[k];
  }

  lemma RunTries(y: System, i: nat, env: Env, j: nat, c: nat, m: nat)
    requires TriesOk(y, j, c, m) && i < |y.tasks| && RetriesFailuresOnly(y, RunTask(i, env), j)
    ensures TriesOk(Next(y, RunTask(i, env)), j, c, if Delivers(y, j, RunTask(i, env)) then m + 1 else m)
  {
    var t := y.tasks[i];
    if Delivering(t) && t.job == j {
      OwnRun(y, i, env, j, c, m);
    } else {
      if t.Hook? && !Delivering(t) { FinishedHookStays(y.shared, t, env); }
      TaskLeavesJobs(y.shared, t, env);
      OthersTry(y, Next(y, RunTask(i, env)), j, c, m);
    }
  }

  lemma StepTries(y: System, a: Action, j: nat, c: nat, m: nat)
    requires TriesOk(y, j, c, m) && RetriesFailuresOnly(y, a, j)
    ensures TriesOk(Next(y, a), j, c, if Delivers(y, j, a) then m + 1 else m)
  {
    if a.RunTask? {
      if a.i < |y.tasks| { RunTries(y, a.i, a.env, j, c, m); }
    } else if a == StartWebhook(j) {
      OwnStart(y, j, c, m);
    } else {
      if IsReviewer(a) { NextReviewer(y, a); }
      OthersTry(y, Next(y, a), j, c, m);
    }
  }

  lemma {:induction false} RunKeepsTries(y: System, j: nat, actions: seq<Action>)
    requires TriesOk(y, j, |y.shared.deliveries|, 0) && Follows(RetriesOf(j), y, actions)
    ensures TriesOk(Run(y, actions), j, |y.shared.deliveries|, Made(y, j, actions))
  {
    if actions != [] {
      var before, a := actions[..|actions| - 1], actions[|actions| - 1];
      RunKeepsTries(y, j, before);
      assert RetriesOf(j)(Run(y, before), a) == RetriesFailuresOnly(Run(y, before), a, j);
      StepTries(Run(y, before), a, j, |y.shared.deliveries|, Made(y, j, before));
    }
  }

  /** A job that starts with c rows makes at most max(1, 3 - c) deliveries, whatever the other jobs, the workers
      and the reviewers do meanwhile. */
  lemma DeliveriesPerJob(y: System, j: nat, actions: seq<Action>)
    requires AnyFaultTheorems.Reachable(y) && j < |y.shared.webhooks| && y.shared.webhooks[j].executions == 0
    requires Follows(RetriesOf(j), y, actions)
    ensures var c := |y.shared.deliveries|; Made(y, j, actions) <= if c >= 2 then 1 else 3 - c
  {
    UnstartedWaits(y, j);
    assert TriesOk(y, j, |y.shared.deliveries|, 0);
    RunKeepsTries(y, j, actions);
  }
}
